/** What can be read back from a job's event trail alone. */
module QueueLedger {
  import opened Prelude
  import opened QueueTables

  /** `status` is the replayed status, `claims` and `endings` count the executions that began and ended,
      `preserved` and `releases` count what may stretch the attempt budget, `resumed` says whether the job was
      resumed after its last claim, and `orderly` whether every event came where the program writes it. */
  datatype Ledger = Ledger(
    status: Option<Status>, claims: nat, endings: nat, preserved: nat, releases: nat, resumed: bool, orderly: bool)

  function NextStatus(status: Option<Status>, event: Event): Option<Status> {
    match event
    case JobQueued(ENQUEUED) => Some(PENDING)
    case JobQueued(RESUMED) => Some(PENDING)
    case JobQueued(PRIORITY_CHANGED) => status
    case JobClaimed => Some(RUNNING)
    case JobProgress => status
    case JobRetryScheduled(RETRIED_AS(_)) => status
    case JobRetryScheduled(SHUTDOWN_RELEASE) => Some(PENDING)
    case JobRetryScheduled(_) => Some(RETRY_WAIT)
    case JobPauseRequested => if status == Some(RUNNING) then Some(PAUSING) else status
    case JobPaused => Some(PAUSED)
    case JobCancelRequested => if status == Some(RUNNING) || status == Some(PAUSING) then Some(CANCELLING) else status
    case JobCancelled => Some(CANCELLED)
    case JobCompleted => Some(COMPLETED)
    case JobFailed => Some(FAILED)
    case JobSkipped => Some(SKIPPED)
    case LeaseRecovered(_) => status
  }

  /** The statuses in which the program writes an event whose type has more than one use. */
  predicate Placed(status: Option<Status>, event: Event) {
    match event
    case JobQueued(ENQUEUED) => status.None?
    case JobQueued(RESUMED) => status == Some(PAUSED)
    case JobQueued(PRIORITY_CHANGED) => status.Some? && (Waiting(status.value) || status.value.PAUSED?)
    case JobRetryScheduled(RETRIED_AS(_)) => status.Some? && Terminal(status.value)
    case JobRetryScheduled(_) => Busy(status)
    case _ => true
  }

  predicate Busy(status: Option<Status>) { status.Some? && Executing(status.value) }

  function Account(ledger: Ledger, event: Event): Ledger {
    var status := NextStatus(ledger.status, event);
    Ledger(
      status,
      ledger.claims + (if event.JobClaimed? then 1 else 0),
      ledger.endings + (if Busy(ledger.status) && !Busy(status) then 1 else 0),
      ledger.preserved + (if event == JobRetryScheduled(ATTEMPT_PRESERVED) then 1 else 0),
      ledger.releases + (if event == JobRetryScheduled(SHUTDOWN_RELEASE) then 1 else 0),
      if event == JobQueued(RESUMED) then true
      else if event.JobClaimed? || event == JobQueued(ENQUEUED) then false
      else ledger.resumed,
      ledger.orderly && Placed(ledger.status, event))
  }

  function Read(events: seq<Event>): Ledger {
    if events == [] then Ledger(None, 0, 0, 0, 0, false, true)
    else Account(Read(events[..|events| - 1]), events[|events| - 1])
  }

  lemma ReadOne(events: seq<Event>, event: Event)
    ensures Read(events + [event]) == Account(Read(events), event)
  {
    assert (events + [event])[..|events|] == events;
  }

  lemma ReadTwo(events: seq<Event>, first: Event, second: Event)
    ensures Read(events + [first, second]) == Account(Account(Read(events), first), second)
  {
    assert events + [first, second] == (events + [first]) + [second];
    ReadOne(events, first);
    ReadOne(events + [first], second);
  }

  /** The trail with the data of its events erased, so that only the event types are left. */
  function Erased(event: Event): Event {
    match event
    case JobQueued(_) => JobQueued(ENQUEUED)
    case JobRetryScheduled(_) => JobRetryScheduled(RETRY_REQUESTED)
    case LeaseRecovered(_) => LeaseRecovered(false)
    case other => other
  }

  function ErasedTrail(events: seq<Event>): seq<Event> {
    seq(|events|, i requires 0 <= i < |events| => Erased(events[i]))
  }

  // ----- what the types alone tell ---------------------------------------------------------------------

  /** Which of the two waiting statuses a job is in is data as well, so they count as one. */
  function ClassOf(status: Status): Status { if status.RETRY_WAIT? then PENDING else status }

  function ClassAt(status: Option<Status>): Option<Status> { if status.None? then None else Some(ClassOf(status.value)) }

  /** The replay of a type: a retry is scheduled while the job executes, or else noted on an ended one. */
  function NextByType(seen: Option<Status>, event: Event): Option<Status> {
    match event
    case JobQueued(_) => Some(PENDING)
    case JobRetryScheduled(_) => if Busy(seen) then Some(PENDING) else seen
    case _ => NextStatus(seen, event)
  }

  function ReadTypes(types: seq<Event>): Option<Status> {
    if types == [] then None else NextByType(ReadTypes(types[..|types| - 1]), types[|types| - 1])
  }

  predicate TypesTell(events: seq<Event>) { ReadTypes(ErasedTrail(events)) == ClassAt(Read(events).status) }

  /** A priority change of a paused job has the type of its resumption. */
  predicate Misleads(status: Option<Status>, event: Event) { status == Some(PAUSED) && event == JobQueued(PRIORITY_CHANGED) }

  ghost predicate NeverMisleads(events: seq<Event>) {
    forall i :: 0 <= i < |events| ==> !Misleads(Read(events[..i]).status, events[i])
  }

  lemma TypeOfOneMore(events: seq<Event>, event: Event)
    requires TypesTell(events) && Placed(Read(events).status, event)
    ensures TypesTell(events + [event]) <==> !Misleads(Read(events).status, event)
  {
    ReadOne(events, event);
    assert ErasedTrail(events + [event])[..|events|] == ErasedTrail(events);
  }

  lemma {:induction false} OrderlyPrefix(events: seq<Event>, i: nat)
    requires Read(events).orderly && i <= |events|
    ensures Read(events[..i]).orderly
    ensures i < |events| ==> Placed(Read(events[..i]).status, events[i])
  {
    if i < |events| {
      var init := events[..|events| - 1];
      OrderlyPrefix(init, if i < |init| then i else |init|);
      assert init[..i] == events[..i];
    } else {
      assert events[..i] == events;
    }
  }

  lemma NothingToTell()
    ensures TypesTell([])
  {
  }

  lemma {:induction false} TypesTellWhile(events: seq<Event>, i: nat)
    requires Read(events).orderly && NeverMisleads(events) && i <= |events|
    ensures TypesTell(events[..i])
  {
    hide Read, ReadTypes, ErasedTrail, Misleads, TypesTell;
    if i == 0 {
      NothingToTell();
    } else {
      TypesTellWhile(events, i - 1);
      OrderlyPrefix(events, i - 1);
      assert events[..i] == events[..i - 1] + [events[i - 1]];
      TypeOfOneMore(events[..i - 1], events[i - 1]);
    }
  }

  /** On an orderly trail the types tell the status at every point exactly when no event misleads. */
  lemma TypesTellExactlyWhile(events: seq<Event>)
    requires Read(events).orderly
    ensures (forall i :: 0 <= i <= |events| ==> TypesTell(events[..i])) <==> NeverMisleads(events)
  {
    hide Read, TypesTell, Misleads;
    if NeverMisleads(events) {
      forall i | 0 <= i <= |events| ensures TypesTell(events[..i]) { TypesTellWhile(events, i); }
    } else {
      var i :| 0 <= i < |events| && Misleads(Read(events[..i]).status, events[i]);
      MisledOnce(events, i);
    }
  }

  lemma MisledOnce(events: seq<Event>, i: nat)
    requires Read(events).orderly && i < |events| && Misleads(Read(events[..i]).status, events[i])
    ensures !TypesTell(events[..i]) || !TypesTell(events[..i + 1])
  {
    hide *;
    OrderlyPrefix(events, i);
    assert events[..i + 1] == events[..i] + [events[i]];
    if TypesTell(events[..i]) { TypeOfOneMore(events[..i], events[i]); }
  }

  // ----- who resumed it ----------------------------------------------------------------------------------

  /** The job was resumed by event number `i` and has not been claimed since. */
  predicate ResumedAt(events: seq<Event>, i: int) {
    && 0 <= i < |events|
    && events[i] == JobQueued(RESUMED)
    && forall j :: i < j < |events| ==> !events[j].JobClaimed?
  }

  lemma {:induction false} ResumedMeans(events: seq<Event>)
    requires Read(events).resumed
    ensures exists i :: ResumedAt(events, i)
  {
    var last := |events| - 1;
    if events[last] == JobQueued(RESUMED) {
      assert ResumedAt(events, last);
    } else {
      ResumedMeans(events[..last]);
      var i :| ResumedAt(events[..last], i);
      assert ResumedAt(events, i);
    }
  }
}
