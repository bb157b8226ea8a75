/** What each transaction of the repository promises, in the columns it reads and writes: exactly when it succeeds, every
    column it leaves, the events it adds, and that nothing else changes. */
module QueueContracts {
  import opened Prelude
  import opened QueueTables
  import opened QueueOperations
  import opened QueueInvariant
  import opened QueueStepsKeep
  import opened QueueTheorems
  import opened QueueColumns

  // ----- calls of the holder -----------------------------------------------------------------------------

  /** A heartbeat succeeds exactly under a working fence, moves both expiry columns to the time it names, and from then on
      the fence works exactly until that time. */
  ghost predicate HeartbeatPromise(s: State, fence: Fence, now: Time, leaseMs: int, out: Outcome<Time>) {
    && (out.reply.Ok? <==> FenceWorks(s, fence, now))
    && (out.reply.Err? ==> out == Outcome(s, Err(FenceLost)))
    && (out.reply.Ok? ==>
          && FenceWorks(s, fence, now)
          && var id, e := fence.jobId, now + leaseMs;
          && var lane := s.rows[id].job.lane;
          && out.reply.value == e
          && OtherRowsSame(s, out.state, id)
          && out.state.rows[id] == s.rows[id].(job := s.rows[id].job.(leaseExpiresAt := Some(e)))
          && out.state.leases == s.leases[lane := Lease(id, fence.workerId, fence.executionToken, e)]
          && (forall t :: FenceWorks(out.state, fence, t) <==> t < e))
  }

  lemma HeartbeatKeepsPromise(s: State, fence: Fence, now: Time, leaseMs: int)
    requires Inv(s)
    ensures HeartbeatPromise(s, fence, now, leaseMs, Heartbeat(s, fence, now, leaseMs))
  {
    hide Inv, Owns;
    FenceWorksExactly(s, fence, now);
    if fence.jobId in s.rows && JobNames(s.rows[fence.jobId].job, fence, now) {
      OwnedLease(s, fence, now);
      SoleLane(s.rows[fence.jobId].job.lane);
    }
  }

  lemma SoleLane(lane: Lane)
    ensures Sole({lane}) == Some(lane)
  {
    if lane.BACKGROUND_WRITER? { assert ARCHIVE_RESOLVE !in {lane}; }
  }

  ghost predicate ProgressPromise(s: State, fence: Fence, progress: int, now: Time, out: Outcome<()>) {
    && (out.reply.Ok? <==> 0 <= progress <= 100 && FenceWorks(s, fence, now))
    && (out.reply.Err? ==> out.state == s && (out.reply.error == InvalidInput <==> !(0 <= progress <= 100)))
    && (out.reply.Ok? ==>
          && fence.jobId in s.rows && OnlyRow(s, out.state, fence.jobId)
          && var row := s.rows[fence.jobId];
             out.state.rows[fence.jobId] == row.(events := row.events + [JobProgress]))
  }

  lemma ProgressKeepsPromise(s: State, fence: Fence, progress: int, now: Time)
    requires Inv(s)
    ensures ProgressPromise(s, fence, progress, now, UpdateProgress(s, fence, progress, now))
  {
    hide Inv, Owns;
    FenceWorksExactly(s, fence, now);
  }

  ghost predicate ControlPromise(s: State, fence: Fence, now: Time, reply: Result<Control, QueueError>) {
    && (reply.Ok? <==> FenceWorks(s, fence, now))
    && (reply.Ok? ==>
          && fence.jobId in s.rows
          && var job := s.rows[fence.jobId].job;
             reply.value == Control(job.status, job.cancelRequestedAt, job.pauseRequestedAt))
  }

  lemma ControlKeepsPromise(s: State, fence: Fence, now: Time)
    requires Inv(s)
    ensures ControlPromise(s, fence, now, ReadControl(s, fence, now))
  {
    hide Inv, Owns;
    FenceWorksExactly(s, fence, now);
  }

  /** A child is created exactly under a working fence, with a priority of the automatic band, an attempt to use, a definition
      and a deadline it can still meet. */
  ghost predicate ChildPromise(s: State, fence: Fence, id: JobId, input: NewJob, now: Time, out: Outcome<JobId>)
    requires id !in s.rows
  {
    var availableAt := if input.availableAt == None then now else input.availableAt.value;
    var fits := && 100 <= input.priority <= 999 && input.maxAttempts >= 1 && input.kind.definitionVersion >= 1
                && (input.deadlineAt.Some? ==> input.deadlineAt.value > now && input.deadlineAt.value > availableAt);
    && (out.reply == Err(InvalidInput) <==> !fits)
    && (out.reply.Ok? <==> fits && FenceWorks(s, fence, now))
    && (out.reply.Err? ==> out.state == s && out.reply.error in {InvalidInput, FenceLost})
    && (out.reply.Ok? ==>
          && out.reply.value == id && OneNewRow(s, out.state, id)
          && CreatedAs(out.state.rows[id], input.kind, SYSTEM, input.priority, input.maxAttempts, availableAt, input.deadlineAt, None, now))
  }

  lemma ChildKeepsPromise(s: State, fence: Fence, id: JobId, input: NewJob, now: Time)
    requires Inv(s) && id !in s.rows
    ensures ChildPromise(s, fence, id, input, now, EnqueueChild(s, fence, id, input, now))
  {
    hide Inv, Owns;
    FenceWorksExactly(s, fence, now);
  }

  // ----- the end of an execution ---------------------------------------------------------------------------

  /** The statuses and attempts that let an execution end in this way; a fenced transaction admits a little more than a
      settlement. */
  predicate MayEnd(job: Job, intent: Intent, fenced: bool) {
    match intent
    case Complete => job.status == RUNNING
    case Fail => job.status == RUNNING
    case Skip => job.status == RUNNING
    case Release => job.status == RUNNING
    case Retry(_, preserve) => job.status == RUNNING && (if fenced && preserve then job.attempt > 0 else job.attempt < job.maxAttempts)
    case Pause => job.status == PAUSING || (fenced && job.status == RUNNING)
    case Cancel => job.status in {RUNNING, CANCELLING} || (!fenced && job.status == PAUSING)
  }

  /** The job row before and after the end, column by column. */
  predicate EndsAs(job: Job, later: Job, intent: Intent, fenced: bool, now: Time) {
    match intent
    case Complete => later == Unheld(job, COMPLETED).(finishedAt := Some(now))
    case Fail => later == Unheld(job, FAILED).(finishedAt := Some(now))
    case Skip => later == Unheld(job, SKIPPED).(finishedAt := Some(now))
    case Cancel =>
      later == Unheld(job, CANCELLED).(finishedAt := Some(now),
                                       cancelRequestedAt := if job.status == CANCELLING then job.cancelRequestedAt else Some(now))
    case Retry(at, preserve) =>
      later == Unheld(job, RETRY_WAIT).(availableAt := Some(at), attempt := if fenced && preserve then job.attempt - 1 else job.attempt)
    case Release =>
      && later == Unheld(job, PENDING).(availableAt := Some(now), maxAttempts := later.maxAttempts)
      && later.maxAttempts >= job.maxAttempts && later.maxAttempts > job.attempt
      && (later.maxAttempts == job.maxAttempts || later.maxAttempts == job.attempt + 1)
    case Pause => later == Unheld(job, PAUSED)
  }

  predicate EndLogged(intent: Intent, fenced: bool, event: Event) {
    match intent
    case Complete => event == JobCompleted
    case Fail => event == JobFailed
    case Skip => event == JobSkipped
    case Cancel => event == JobCancelled
    case Retry(_, preserve) => event == JobRetryScheduled(if fenced && preserve then ATTEMPT_PRESERVED else RETRY_REQUESTED)
    case Release => event == JobRetryScheduled(SHUTDOWN_RELEASE)
    case Pause => event == JobPaused
  }

  /** The writes of one execution and then its end. */
  predicate PublishedThen(published: seq<Published>, later: seq<Published>, token: Token, writes: seq<int>, status: Status) {
    && |later| == |published| + |writes| + 1
    && later[..|published|] == published
    && (forall i :: 0 <= i < |writes| ==> later[|published| + i] == Published(token, DomainWrite(writes[i])))
    && later[|later| - 1] == Published(token, Finalization(status))
  }

  /** The execution is over: its row ends as asked, its lane is free, and nothing else changes. */
  ghost predicate Ended(s: State, fence: Fence, writes: seq<int>, intent: Intent, fenced: bool, now: Time, later: State) {
    && fence.jobId in s.rows && OtherRowsSame(s, later, fence.jobId)
    && var row, ended := s.rows[fence.jobId], later.rows[fence.jobId];
    && later.leases == s.leases - {row.job.lane}
    && EndsAs(row.job, ended.job, intent, fenced, now)
    && |ended.events| == |row.events| + 1 && ended.events[..|row.events|] == row.events
    && EndLogged(intent, fenced, ended.events[|row.events|])
    && PublishedThen(row.published, ended.published, fence.executionToken, writes, ended.job.status)
    && ended.claims == row.claims && ended.grant == row.grant
  }

  /** The guarded update: exactly what the job admits under a working fence, or nothing. */
  ghost predicate TransitionPromise(s: State, fence: Fence, fenced: bool, intent: Intent, now: Time, out: Outcome<()>)
    requires FenceWorks(s, fence, now)
  {
    && (out.reply.Ok? <==> MayEnd(s.rows[fence.jobId].job, intent, fenced))
    && (out.reply.Err? ==> out == Outcome(s, Err(FenceLost)))
    && (out.reply.Ok? ==> Ended(s, fence, [], intent, fenced, now, out.state))
  }

  lemma TransitionEnds(s: State, fence: Fence, fenced: bool, intent: Intent, now: Time)
    requires Inv(s) && FenceWorks(s, fence, now) && (intent.Retry? && intent.preserveAttempt ==> fenced)
    ensures TransitionPromise(s, fence, fenced, intent, now,
                              Transition(s, fence, if fenced then TRANSACTION else SETTLEMENT, intent, now))
  {
    hide Inv, Owns, HistoryOk, BudgetOk, TrailOk;
    var row := s.rows[fence.jobId];
    OwnedLease(s, fence, now);
    RowIsOk(s, fence.jobId);
    SoleLane(row.job.lane);
  }

  /** A settlement succeeds exactly under a working fence, in a status that admits it, a retry also only with an attempt left
      and a date that is not past; then the execution is over as asked, and otherwise nothing happens. */
  ghost predicate SettlementPromise(s: State, fence: Fence, intent: Intent, calledAt: Time, now: Time, out: Outcome<()>) {
    var past := intent.Retry? && intent.availableAt < calledAt;
    && (out.reply == Err(RetryInPast) <==> past)
    && (out.reply.Ok? <==> !past && FenceWorks(s, fence, now) && MayEnd(s.rows[fence.jobId].job, intent, false))
    && (out.reply.Err? ==> out.state == s && out.reply.error in {RetryInPast, FenceLost})
    && (out.reply.Ok? ==> Ended(s, fence, [], intent, false, now, out.state))
  }

  lemma SettlementKeepsPromise(s: State, fence: Fence, intent: Intent, calledAt: Time, now: Time)
    requires Inv(s)
    ensures SettlementPromise(s, fence, intent, calledAt, now, Settle(s, fence, intent, calledAt, now))
  {
    hide Inv, Owns, Transition, PublishedThen, OtherRowsSame;
    FenceWorksExactly(s, fence, now);
    var asked := if intent.Retry? then intent.(preserveAttempt := false) else intent;
    if FenceWorks(s, fence, now) { TransitionEnds(s, fence, false, asked, now); }
  }

  // ----- fenced transactions -------------------------------------------------------------------------------

  /** Step `i` of a callback leaves it with an exception that nobody in it catches. */
  predicate Throws(steps: seq<CallbackStep>, i: int) {
    && 0 <= i < |steps|
    && (steps[i].Throw?
        || (steps[i].Finalize? && !steps[i].catches && (!CountsAsCall(steps[i]) || FinalizerCalls(steps[..i]) > 0)))
  }

  predicate Finalizes(steps: seq<CallbackStep>, i: int) { 0 <= i < |steps| && CountsAsCall(steps[i]) }

  lemma {:induction false} CallbackThrowsExactly(steps: seq<CallbackStep>)
    ensures RunCallback(steps).threw <==> exists i :: Throws(steps, i)
  {
    if steps != [] {
      var n := |steps| - 1;
      CallbackThrowsExactly(steps[..n]);
      assert forall i :: 0 <= i < n ==> steps[..n][..i] == steps[..i];
      assert forall i :: 0 <= i < n ==> (Throws(steps, i) <==> Throws(steps[..n], i));
      if !RunCallback(steps[..n]).threw {
        CallbackRunsThrough(steps[..n]);
        assert RunCallback(steps).threw <==> Throws(steps, n);
      } else {
        var i :| Throws(steps[..n], i);
        assert Throws(steps, i);
      }
    }
  }

  /** The intent a callback leaves is that of the finalizer call that counted. */
  lemma {:induction false} IntentIsTheCall(steps: seq<CallbackStep>)
    requires !RunCallback(steps).threw && FinalizerCalls(steps) == 1
    ensures exists i :: Finalizes(steps, i)
    ensures forall i :: Finalizes(steps, i) ==> RunCallback(steps).intent == Some(steps[i].intent)
  {
    var n := |steps| - 1;
    if CountsAsCall(steps[n]) {
      NoCallsBefore(steps[..n]);
      CallbackRunsThrough(steps[..n]);
      assert forall i :: Finalizes(steps, i) && i < n ==> Finalizes(steps[..n], i);
      assert Finalizes(steps, n);
    } else {
      IntentIsTheCall(steps[..n]);
      CallbackRunsThrough(steps[..n]);
      var i :| Finalizes(steps[..n], i);
      assert Finalizes(steps, i);
      assert forall i :: Finalizes(steps, i) ==> Finalizes(steps[..n], i);
    }
  }

  lemma {:induction false} NoCallsBefore(steps: seq<CallbackStep>)
    requires FinalizerCalls(steps) == 0
    ensures forall i :: !Finalizes(steps, i)
  {
    if steps != [] {
      NoCallsBefore(steps[..|steps| - 1]);
      var init := steps[..|steps| - 1];
      assert forall i :: Finalizes(steps, i) && i < |init| ==> Finalizes(init, i);
    }
  }

  /** A fenced transaction commits exactly when the fence works at all three readings, nothing of the callback throws, one
      finalizer call counts, its retry date is not past and the job admits that end.  Then all its writes are published in
      order, and the job ends as the call asked; otherwise nothing happens. */
  ghost predicate ExecutionPromise(s: State, fence: Fence, steps: seq<CallbackStep>, t0: Time, t1: Time, t2: Time, out: Outcome<()>) {
    && (out.reply.Ok? <==>
          && FenceWorks(s, fence, t0) && FenceWorks(s, fence, t1) && FenceWorks(s, fence, t2)
          && (forall i :: !Throws(steps, i)) && FinalizerCalls(steps) == 1
          && (forall i :: Finalizes(steps, i) ==>
                && !(steps[i].intent.Retry? && steps[i].intent.availableAt < t2)
                && MayEnd(s.rows[fence.jobId].job, steps[i].intent, true)))
    && (out.reply.Err? ==> out.state == s)
    && (out.reply.Ok? ==> exists i :: Finalizes(steps, i) && Ended(s, fence, PayloadsOf(steps), steps[i].intent, true, t2, out.state))
  }

  lemma ExecutionKeepsPromise(s: State, fence: Fence, steps: seq<CallbackStep>, t0: Time, t1: Time, t2: Time)
    requires Inv(s)
    ensures ExecutionPromise(s, fence, steps, t0, t1, t2, FencedExecution(s, fence, steps, t0, t1, t2))
  {
    hide *;
    FenceWorksExactly(s, fence, t0);
    FenceWorksExactly(s, fence, t1);
    FenceWorksExactly(s, fence, t2);
    CallbackThrowsExactly(steps);
    if !RunCallback(steps).threw { CallbackRunsThrough(steps); }
    if !RunCallback(steps).threw && FinalizerCalls(steps) == 1 { IntentIsTheCall(steps); }
    if FenceWorks(s, fence, t2) && RunCallback(steps).intent.Some? {
      WritesThenEnd(s, fence, RunCallback(steps).writes, RunCallback(steps).intent.value, t2);
    }
    ExecutionCases(s, fence, steps, t0, t1, t2);
  }

  lemma WritesThenEnd(s: State, fence: Fence, writes: seq<int>, intent: Intent, now: Time)
    requires Inv(s) && FenceWorks(s, fence, now)
    ensures fence.jobId in s.rows
    ensures var out := Transition(WithWrites(s, fence, writes), fence, TRANSACTION, intent, now);
            && (out.reply.Ok? <==> MayEnd(s.rows[fence.jobId].job, intent, true))
            && (out.reply.Ok? ==> Ended(s, fence, writes, intent, true, now, out.state))
  {
    hide Inv, StepOk, Owns, Transition, MayEnd, EndsAs, EndLogged;
    var written := WithWrites(s, fence, writes);
    FenceWorksExactly(s, fence, now);
    WithWritesOk(s, fence, writes, now);
    assert Inv(written) by { StepOkGives(s, written); }
    TransitionEnds(written, fence, true, intent, now);
  }

  lemma StepOkGives(s: State, later: State)
    requires StepOk(s, later)
    ensures Inv(later)
  {
  }

  /** The order in which a fenced transaction comes to its decision. */
  lemma ExecutionCases(s: State, fence: Fence, steps: seq<CallbackStep>, t0: Time, t1: Time, t2: Time)
    requires Owns(s, fence, t0) <==> FenceWorks(s, fence, t0)
    requires Owns(s, fence, t1) <==> FenceWorks(s, fence, t1)
    requires Owns(s, fence, t2) <==> FenceWorks(s, fence, t2)
    requires RunCallback(steps).threw <==> exists i :: Throws(steps, i)
    requires !RunCallback(steps).threw ==>
               && RunCallback(steps).calls == FinalizerCalls(steps) && RunCallback(steps).writes == PayloadsOf(steps)
               && (RunCallback(steps).intent.Some? <==> FinalizerCalls(steps) > 0)
    requires !RunCallback(steps).threw && FinalizerCalls(steps) == 1 ==>
               && (exists i :: Finalizes(steps, i))
               && (forall i :: Finalizes(steps, i) ==> RunCallback(steps).intent == Some(steps[i].intent))
    requires FenceWorks(s, fence, t2) && RunCallback(steps).intent.Some? ==>
               && fence.jobId in s.rows
               && var writes, intent := RunCallback(steps).writes, RunCallback(steps).intent.value;
               && var out := Transition(WithWrites(s, fence, writes), fence, TRANSACTION, intent, t2);
               && (out.reply.Ok? <==> MayEnd(s.rows[fence.jobId].job, intent, true))
               && (out.reply.Ok? ==> Ended(s, fence, writes, intent, true, t2, out.state))
    ensures ExecutionPromise(s, fence, steps, t0, t1, t2, FencedExecution(s, fence, steps, t0, t1, t2))
  {
    hide Owns, RunCallback, Transition, MayEnd, Ended, Throws, FinalizerCalls, PayloadsOf;
  }

  /** A mutation commits exactly when the job is RUNNING, the fence works before and after it and nothing throws; then it
      publishes what was written, in order, and changes nothing else. */
  ghost predicate MutationPromise(s: State, fence: Fence, payloads: seq<int>, threw: bool, t0: Time, t1: Time, out: Outcome<()>) {
    && (out.reply.Ok? <==>
          FenceWorks(s, fence, t0) && s.rows[fence.jobId].job.status == RUNNING && !threw && FenceWorks(s, fence, t1))
    && (out.reply.Err? ==> out.state == s)
    && (out.reply.Ok? ==>
          && fence.jobId in s.rows && OnlyRow(s, out.state, fence.jobId)
          && var row, later := s.rows[fence.jobId], out.state.rows[fence.jobId];
          && later == row.(published := later.published)
          && |later.published| == |row.published| + |payloads| && later.published[..|row.published|] == row.published
          && (forall i :: 0 <= i < |payloads| ==>
                later.published[|row.published| + i] == Published(fence.executionToken, DomainWrite(payloads[i]))))
  }

  lemma MutationKeepsPromise(s: State, fence: Fence, payloads: seq<int>, threw: bool, t0: Time, t1: Time)
    requires Inv(s)
    ensures MutationPromise(s, fence, payloads, threw, t0, t1, FencedMutation(s, fence, payloads, threw, t0, t1))
  {
    hide Inv, Owns;
    FenceWorksExactly(s, fence, t0);
    FenceWorksExactly(s, fence, t1);
  }

  // ----- cancellation request ------------------------------------------------------------------------------

  /** A requested cancellation ends an idle job at once and turns a running or pausing one to CANCELLING, its hold untouched;
      it is for nothing exactly when there is no such job, or it has ended or is being cancelled already. */
  ghost predicate CancellationPromise(s: State, id: JobId, now: Time, out: Outcome<Option<Status>>) {
    && out.reply.Ok?
    && (out.reply.value == Some(CANCELLED) <==> id in s.rows && s.rows[id].job.status in {PENDING, RETRY_WAIT, PAUSED})
    && (out.reply.value == Some(CANCELLING) <==> id in s.rows && s.rows[id].job.status in {RUNNING, PAUSING})
    && (out.reply.value == None <==> id !in s.rows || s.rows[id].job.status in {COMPLETED, FAILED, CANCELLED, SKIPPED, CANCELLING})
    && (out.reply.value == None ==> out.state == s)
    && (out.reply.value != None ==>
          && id in s.rows && OnlyRow(s, out.state, id)
          && var row, later := s.rows[id], out.state.rows[id];
          && later.published == row.published && later.claims == row.claims && later.grant == row.grant
          && (out.reply.value == Some(CANCELLED) ==>
                && later.job == row.job.(status := CANCELLED, cancelRequestedAt := Some(now), finishedAt := Some(now))
                && later.events == row.events + [JobCancelled])
          && (out.reply.value == Some(CANCELLING) ==>
                && later.job == row.job.(status := CANCELLING, cancelRequestedAt := Some(now))
                && later.events == row.events + [JobCancelRequested]))
  }

  lemma CancellationKeepsPromise(s: State, id: JobId, now: Time)
    requires Inv(s)
    ensures CancellationPromise(s, id, now, RequestCancellation(s, id, now))
  {
    hide Inv, HistoryOk, BudgetOk, TrailOk, BandOk;
    if id in s.rows {
      RowIsOk(s, id);
      if !Executing(s.rows[id].job.status) { IdleJobHasNoLease(s, id); }
    }
  }

  // ----- recovery and skipping -----------------------------------------------------------------------------

  /** Recovery finds something exactly when the lane is held under a lease that has run out; then it settles that job, frees
      the lane and touches nothing else. */
  ghost predicate RecoveryPromise(s: State, lane: Lane, now: Time, out: Outcome<Option<(JobId, Status)>>) {
    && out.reply.Ok?
    && (out.reply.value.Some? <==> exists id :: HoldsExpired(s, lane, id, now))
    && (out.reply.value.None? ==> out.state == s)
    && (out.reply.value.Some? ==>
          && var id := out.reply.value.value.0;
          && HoldsExpired(s, lane, id, now) && OtherRowsSame(s, out.state, id)
          && RecoveredAs(s.rows[id], out.state.rows[id], now)
          && out.reply.value.value.1 == out.state.rows[id].job.status
          && out.state.leases == s.leases - {lane})
  }

  lemma RecoveryKeepsPromise(s: State, lane: Lane, now: Time)
    requires Inv(s)
    ensures RecoveryPromise(s, lane, now, Recover(s, lane, now))
  {
    hide Inv, Evolves, RecoveredAs, RecoveredRow, RecoveredStatus;
    HoldersAre(s, lane);
    if ExecutingIn(s, lane) == {} {
      IdleLaneHasNoLease(s, lane);
    } else {
      var id := Least(ExecutingIn(s, lane));
      forall other | HoldsLane(s, lane, other) ensures other == id { OneHolder(s, lane, other, id); }
      HolderHasLease(s, lane, id);
      RowRecovers(s.rows[id], now);
    }
  }

  lemma HolderHasLease(s: State, lane: Lane, id: JobId)
    requires Inv(s) && HoldsLane(s, lane, id)
    ensures lane in s.leases && LeaseIsFor(s.leases[lane], id, s.rows[id].job)
    ensures s.rows[id].job.leaseExpiresAt == Some(s.leases[lane].expiresAt)
  {
    assert LeaseFits(s, lane);
  }

  predicate SkippedAs(row: Row, later: Row, now: Time) {
    && later == row.(job := later.job, events := row.events + [JobSkipped])
    && later.job == row.job.(status := SKIPPED, finishedAt := Some(now))
  }

  /** Skipped are exactly the jobs that missed their deadline or their day. */
  ghost predicate SkippingPromise(s: State, now: Time, calendar: Calendar, later: State) {
    && later.leases == s.leases && later.rows.Keys == s.rows.Keys
    && forall id :: id in s.rows ==>
         if Missed(s.rows[id].job, now, calendar) then SkippedAs(s.rows[id], later.rows[id], now) else later.rows[id] == s.rows[id]
  }

  lemma SkippingKeepsPromise(s: State, now: Time, calendar: Calendar)
    requires Inv(s)
    ensures SkippingPromise(s, now, calendar, SkipExpired(s, now, calendar))
  {
    hide Inv, Missed, WindowMissed;
    forall id | id in s.rows
      ensures var row, later := s.rows[id], SkipExpired(s, now, calendar).rows[id];
              if Missed(row.job, now, calendar) then SkippedAs(row, later, now) else later == row
    {
      MissedExactly(s.rows[id].job, now, calendar);
      RowIsOk(s, id);
      if Missed(s.rows[id].job, now, calendar) { MissedIsIdle(s.rows[id], now, calendar); }
    }
  }

  lemma MissedIsIdle(row: Row, now: Time, calendar: Calendar)
    requires RowOk(row) && Missed(row.job, now, calendar)
    ensures row.job.workerId.None? && row.job.leaseToken.None? && row.job.leaseExpiresAt.None?
  {
  }
}
