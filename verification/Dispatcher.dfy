/** The dispatcher's settlement loop on top of the queue, with everything else in the world acting in between. */
module Dispatcher {
  import opened Prelude
  import opened QueueTables
  import opened QueueOperations
  import opened QueueSteps
  import opened QueueInvariant
  import opened QueueStepsKeep
  import opened QueueTheorems
  import opened QueueColumns
  import opened QueueContracts
  import opened FenceHolding
  import opened DispatcherPort
  import opened DispatcherControl
  import opened DispatcherTrace

  datatype Fatal =
    | ControlReadFailed
    | SettlementFailed
    | SettlementFailedRepeatedly
    | RemainedRunning
    | FinalizationFailed

  datatype LeaseReply = Value(control: Control) | LeaseLost | GaveUp

  /** How a fenced finalization started by the executor ended, if it started one. */
  datatype DomainFinalization = NOT_STARTED | COMMITTED | FENCE_LOST | BROKEN

  datatype ExecutorResult = Resolved(value: Settlement) | Rejected

  /** What the execution amounts to, before its retry budget and the control requests are looked at. */
  function ExecutionOutcome(executor: ExecutorResult, interrupted: Option<InterruptionReason>, finalization: DomainFinalization)
    : Settlement
  {
    if finalization.COMMITTED? then TransactionallyFinalized
    else if interrupted.Some? then OutcomeForInterruption(interrupted.value)
    else if executor.Resolved? then executor.value
    else Failed
  }

  /** The executor says it has finalized the job in a transaction, and has not started one. */
  predicate Believed(executor: ExecutorResult, interrupted: Option<InterruptionReason>, finalization: DomainFinalization) {
    executor == Resolved(TransactionallyFinalized) && interrupted.None? && finalization.NOT_STARTED?
  }

  /** What a job that nobody made a request of ends as, by why the executor was stopped or what it reported. */
  predicate EndsAsReported(claimed: Claimed, executor: ExecutorResult, interrupted: Option<InterruptionReason>, ended: Job) {
    match interrupted
    case Some(SHUTDOWN) => ended.status == PENDING
    case Some(CANCEL_REQUESTED) => ended.status == CANCELLED
    case Some(PAUSE_REQUESTED) => ended.status == PAUSED
    case Some(LEASE_LOST) => false
    case None =>
      match executor
      case Rejected => ended.status == FAILED
      case Resolved(Completed) => ended.status == COMPLETED
      case Resolved(RetryLater(at)) =>
        if claimed.attempt < claimed.maxAttempts then ended.status == RETRY_WAIT && ended.availableAt == Some(at)
        else ended.status == FAILED
      case Resolved(Failed) => ended.status == FAILED
      case Resolved(Skipped) => ended.status == SKIPPED
      case Resolved(Cancelled) => ended.status == CANCELLED
      case Resolved(Paused) => ended.status == PAUSED
      case Resolved(Released) => ended.status == PENDING
      case Resolved(TransactionallyFinalized) => false
  }

  /** The execution is over and its end is the last thing published under its token.  A request that had committed decided
      how it ended, and without one it ended as reported. */
  ghost predicate SettledAs(claimed: Claimed, executor: ExecutorResult, interrupted: Option<InterruptionReason>, seen: State, later: State) {
    && claimed.jobId in seen.rows && claimed.jobId in later.rows
    && var row, ended := seen.rows[claimed.jobId], later.rows[claimed.jobId];
    && (match row.job.status
        case CANCELLING => ended.job.status == CANCELLED
        case PAUSING => ended.job.status in {PAUSED, CANCELLED}
        case RUNNING => EndsAsReported(claimed, executor, interrupted, ended.job)
        case _ => false)
    && ended.job.workerId.None? && ended.job.leaseToken.None? && ended.job.leaseExpiresAt.None?
    && row.job.lane !in later.leases
    && ended.published == row.published + [Published(claimed.executionToken, Finalization(ended.job.status))]
  }

  predicate PausedOnRequest(s: State, claimed: Claimed, outcome: Settlement) {
    outcome.Paused? ==> PressedWhileHeld(s, FenceOf(claimed), 1)
  }

  /** A retry that would be due in the past. */
  predicate DatedBefore(outcome: Settlement, now: Time) { outcome.RetryLater? && outcome.availableAt < now }

  lemma DatedBeforeMeans(outcome: Settlement, now: Time)
    ensures DatedBefore(outcome, now) <==> outcome.RetryLater? && outcome.availableAt < now
  {
  }

  /** Nothing about the outcome itself keeps it from being settled. */
  predicate WillSettle(s: State, claimed: Claimed, outcome: Settlement) {
    PausedOnRequest(s, claimed, outcome) && !outcome.TransactionallyFinalized?
  }

  lemma WillSettleMeans(s: State, claimed: Claimed, outcome: Settlement, control: Control)
    requires WillSettle(s, claimed, outcome)
    ensures PausedOnRequest(s, claimed, outcome) && !outcome.TransactionallyFinalized?
    ensures var sent := ControlledOutcome(Some(control), NormalizeRetry(claimed.attempt, claimed.maxAttempts, outcome));
            !sent.TransactionallyFinalized? && (sent.RetryLater? ==> sent == outcome)
  {
  }

  lemma NormalizedKinds(claimed: Claimed, executor: ExecutorResult, interrupted: Option<InterruptionReason>, finalization: DomainFinalization)
    ensures var raw := ExecutionOutcome(executor, interrupted, finalization);
            var outcome := NormalizeRetry(claimed.attempt, claimed.maxAttempts, raw);
            && (outcome.TransactionallyFinalized? <==> raw.TransactionallyFinalized?)
            && (finalization.COMMITTED? ==> raw.TransactionallyFinalized?)
            && (finalization.NOT_STARTED? && interrupted.Some? ==> !raw.TransactionallyFinalized?)
            && (finalization.NOT_STARTED? ==> (raw.TransactionallyFinalized? <==> Believed(executor, interrupted, finalization)))
            && (Believed(executor, interrupted, finalization) ==> finalization.NOT_STARTED?)
            && (raw.Paused? ==> !raw.TransactionallyFinalized? && interrupted != Some(LEASE_LOST))
  {
  }

  lemma AfterFinalControl(s: State, later: State, now: Time, claimed: Claimed, outcome: Settlement)
    requires Inv(s) && StepOk(s, later) && Issued(s, claimed.jobId, claimed.executionToken) && BudgetAsClaimed(s, claimed)
    requires ReadControl(later, FenceOf(claimed), now).Ok?
    ensures Inv(later) && Issued(later, FenceOf(claimed).jobId, FenceOf(claimed).executionToken)
    ensures PausedOnRequest(s, claimed, outcome) ==>
              FitsWhileHeld(later, FenceOf(claimed),
                ControlledOutcome(Some(ReadControl(later, FenceOf(claimed), now).value),
                                  NormalizeRetry(claimed.attempt, claimed.maxAttempts, outcome)))
    ensures FenceOf(claimed).executionToken == claimed.executionToken && FenceOf(claimed).jobId == claimed.jobId
  {
    IssuedStays(s, later, claimed.jobId, claimed.executionToken);
    if PausedOnRequest(s, claimed, outcome) { FinalControlFits(s, later, now, claimed, outcome); }
  }

  /** A settlement that commits ends the execution, by the request that had committed or as reported. */
  lemma SettledMeansOver(claimed: Claimed, executor: ExecutorResult, interrupted: Option<InterruptionReason>,
                         last: Settlement, seen: State, calledAt: Time, now: Time, later: State)
    requires Inv(seen) && IntentFor(last).Some?
    requires Settle(seen, FenceOf(claimed), IntentFor(last).value, calledAt, now) == Outcome(later, Ok(()))
    requires interrupted != Some(LEASE_LOST)
    requires OwnUnlessPressed(seen, FenceOf(claimed),
               NormalizeRetry(claimed.attempt, claimed.maxAttempts, ExecutionOutcome(executor, interrupted, NOT_STARTED)), last)
    ensures SettledAs(claimed, executor, interrupted, seen, later)
  {
    hide Inv, FenceWorks, Settle, EndLogged;
    SettlementKeepsPromise(seen, FenceOf(claimed), IntentFor(last).value, calledAt, now);
    assert later.rows[claimed.jobId].published
        == seen.rows[claimed.jobId].published + [Published(claimed.executionToken, Finalization(later.rows[claimed.jobId].job.status))];
  }

  lemma BothOwn(seen: State, fence: Fence, first: Settlement, second: Settlement, last: Settlement)
    requires OwnUnlessPressed(seen, fence, first, second) && OwnUnlessPressed(seen, fence, second, last)
    ensures OwnUnlessPressed(seen, fence, first, last)
  {
  }

  /** The settlement `last` has committed on the tables that others made of the start, and was the loop's own unless a request
      had been made. */
  ghost predicate Committed(start: State, others: seq<Op>, seen: State, fence: Fence, initial: Settlement, last: Settlement,
                            calledAt: Time, now: Time, later: State) {
    && StepOk(start, seen) && seen == Perform(start, others) && IntentFor(last).Some?
    && Settle(seen, fence, IntentFor(last).value, calledAt, now) == Outcome(later, Ok(()))
    && OwnUnlessPressed(seen, fence, initial, last)
  }

  lemma CommittedMeans(start: State, others: seq<Op>, seen: State, fence: Fence, initial: Settlement, last: Settlement,
                       calledAt: Time, now: Time, later: State)
    ensures Committed(start, others, seen, fence, initial, last, calledAt, now, later) <==>
              && StepOk(start, seen) && seen == Perform(start, others) && IntentFor(last).Some?
              && Settle(seen, fence, IntentFor(last).value, calledAt, now) == Outcome(later, Ok(()))
              && OwnUnlessPressed(seen, fence, initial, last)
  {
    hide StepOk, Perform, Settle, OwnUnlessPressed;
  }

  class CentralDispatcher {
    const port: QueuePort
    const heartbeatIntervalMs: nat
    const queueFailureLimit: nat
    const queueErrorBackoffMs: nat
    var stopping: bool
    var fatalError: Option<Fatal>

    constructor (port: QueuePort, heartbeatIntervalMs: nat, queueFailureLimit: nat, queueErrorBackoffMs: nat)
      requires 1_000 <= heartbeatIntervalMs <= 300_000 && 1 <= queueFailureLimit <= 10
      requires 100 <= queueErrorBackoffMs <= 60_000
      ensures this.port == port && !stopping && fatalError.None?
      ensures this.heartbeatIntervalMs == heartbeatIntervalMs && this.queueFailureLimit == queueFailureLimit
      ensures this.queueErrorBackoffMs == queueErrorBackoffMs
    {
      this.port := port;
      this.heartbeatIntervalMs, this.queueFailureLimit := heartbeatIntervalMs, queueFailureLimit;
      this.queueErrorBackoffMs := queueErrorBackoffMs;
      stopping, fatalError := false, None;
    }

    /** A quarter of the heartbeat interval, within its bounds. */
    function RetryDelay(): (ms: nat)
      ensures 100 <= ms <= 1_000
      ensures ms == 100 || 4 * ms <= heartbeatIntervalMs
      ensures ms == 1_000 || 4 * ms > heartbeatIntervalMs - 4
    {
      if heartbeatIntervalMs / 4 < 100 then 100 else if heartbeatIntervalMs / 4 > 1_000 then 1_000 else heartbeatIntervalMs / 4
    }

    /** Only the first fatal error is kept, and it stops the dispatcher. */
    method RaiseFatal(error: Fatal)
      modifies this
      ensures fatalError == (if old(fatalError).Some? then old(fatalError) else Some(error))
      ensures stopping == (old(stopping) || old(fatalError).None?)
    {
      if fatalError.Some? { return; }
      fatalError := Some(error);
      stopping := true;
    }

    lemma NothingYet(first: nat, s: State)
      ensures Perform(s, Others(port.world, first, first)) == s
    {
    }

    lemma OthersGoOn(first: nat, turn: nat, s: State)
      requires first <= turn
      ensures Perform(s, Others(port.world, first, turn + 1)) == Perform(Perform(s, Others(port.world, first, turn)), port.world(turn).before)
      ensures turn == first ==> Perform(s, Others(port.world, first, turn + 1)) == Perform(s, port.world(turn).before)
    {
      hide Perform;
      PerformMore(s, Others(port.world, first, turn), port.world(turn).before);
      NothingYet(first, s);
    }

    lemma OneMoreTurn(first: nat, turn: nat)
      requires first <= turn
      ensures Others(port.world, first, turn + 1) == Others(port.world, first, turn) + port.world(turn).before
      ensures Others(port.world, first, first) == []
    {
    }

    lemma PassingIsNotHealthy(fault: Fault)
      requires Passing(fault)
      ensures !fault.HEALTHY? && !fault.NON_TRANSIENT?
    {
    }

    lemma OneMoreDelay(failures: nat, delay: nat)
      requires failures > 0
      ensures failures * delay == (failures - 1) * delay + delay
    {
    }

    /** `retryLeaseOperation` around `readExecutionControl`.  It ends at the first answer that is not a passing
        fault, or when no further try would fit before the lease expires; all that changes meanwhile is what
        others did. */
    method ReadControlWithRetry(fence: Fence, leaseExpiresAt: Time) returns (reply: LeaseReply)
      modifies this, port, port.repository.database
      ensures port.turn > old(port.turn) && port.clock >= old(port.clock)
      ensures port.Tables() == Perform(old(port.Tables()), Others(port.world, old(port.turn), port.turn))
      ensures forall k :: old(port.turn) <= k < port.turn - 1 ==> Passing(port.world(k).fault)
      ensures reply.Value? <==> port.world(port.turn - 1).fault.HEALTHY? && ReadControl(port.Tables(), fence, port.clock).Ok?
      ensures reply.Value? ==> ReadControl(port.Tables(), fence, port.clock) == Ok(reply.control)
      ensures reply.GaveUp? <==> port.world(port.turn - 1).fault.NON_TRANSIENT?
      ensures reply.LeaseLost? ==> ReadControl(port.Tables(), fence, port.clock).Err? || port.clock + RetryDelay() >= leaseExpiresAt
      ensures fatalError == (if reply.GaveUp? && old(fatalError).None? then Some(ControlReadFailed) else old(fatalError))
      ensures port.world(old(port.turn)).fault.HEALTHY? ==>
                && port.Tables() == Perform(old(port.Tables()), port.world(old(port.turn)).before)
                && port.clock == old(port.clock) + port.world(old(port.turn)).elapsed
      ensures port.turn - old(port.turn) > 1 ==>
                (port.turn - old(port.turn) - 1) * RetryDelay() < leaseExpiresAt - old(port.clock)
    {
      hide *;
      ghost var started, first, tables := port.clock, port.turn, port.Tables();
      var retryDelay, failures := RetryDelay(), 0;
      NothingYet(first, tables);
      while true
        invariant port.turn == first + failures && port.clock >= started
        invariant port.Tables() == Perform(tables, Others(port.world, first, port.turn))
        invariant forall k :: first <= k < port.turn ==> Passing(port.world(k).fault)
        invariant fatalError == old(fatalError) && (failures > 0 ==> !port.world(first).fault.HEALTHY?)
        invariant failures * retryDelay <= port.clock - started && (failures == 0 ==> port.clock == started)
        invariant failures > 0 ==> failures * retryDelay < leaseExpiresAt - started
        decreases leaseExpiresAt - port.clock
      {
        OthersGoOn(first, port.turn, tables);
        var answer := port.ReadExecutionControl(fence);
        if answer.Ok? { return Value(answer.value); }
        if answer.error.FENCE_ERROR? { return LeaseLost; }
        if answer.error.OTHER_ERROR? {
          RaiseFatal(ControlReadFailed);
          return GaveUp;
        }
        PassingIsNotHealthy(port.world(port.turn - 1).fault);
        failures := failures + 1;
        if port.clock + retryDelay >= leaseExpiresAt { return LeaseLost; }
        OneMoreDelay(failures, retryDelay);
        port.Sleep(retryDelay);
      }
    }

    /** The very next reading gets through, and asks for no other outcome. */
    ghost predicate AsksNothingNew(turn: nat, clock: Time, s: State, fence: Fence, outcome: Settlement) {
      && port.world(turn).fault.HEALTHY?
      && var tables, now := Perform(s, port.world(turn).before), clock + port.world(turn).elapsed;
      && ReadControl(tables, fence, now).Ok?
      && ControlledOutcome(Some(ReadControl(tables, fence, now).value), outcome) == outcome
    }

    lemma HealthyEndsIt(first: nat, last: nat)
      requires first < last && port.world(first).fault.HEALTHY?
      requires forall k :: first <= k < last - 1 ==> Passing(port.world(k).fault)
      ensures last == first + 1
    {
      assert last > first + 1 ==> Passing(port.world(first).fault);
    }

    lemma AsksNothingNewMeans(turn: nat, clock: Time, s: State, fence: Fence, outcome: Settlement)
      requires AsksNothingNew(turn, clock, s, fence, outcome)
      ensures port.world(turn).fault.HEALTHY?
      ensures var tables, now := Perform(s, port.world(turn).before), clock + port.world(turn).elapsed;
              ReadControl(tables, fence, now).Ok? && ControlledOutcome(Some(ReadControl(tables, fence, now).value), outcome) == outcome
    {
    }

    /** The loop's answer to a settlement refused over its fence: another outcome to try, or none.  The ghost arguments
        say where the loop stands. */
    method AnswerRefusal(fence: Fence, outcome: Settlement, leaseExpiresAt: Time, ghost s: State,
                         ghost start: State, ghost first: nat, ghost initial: Settlement, ghost urgency: nat, ghost refused: Turn,
                         ghost calledAt: Time)
      returns (replacement: Option<Settlement>, ghost later: State)
      requires s == port.Tables() && OnCourse(start, s, fence, initial, outcome, urgency)
      requires first <= port.turn && OnlyOthers(start, s, fence, Others(port.world, first, port.turn))
      requires SettleCall(s, refused, fence, outcome, calledAt) == Answer(s, Err(FENCE_ERROR))
      requires calledAt + refused.elapsed <= port.clock
      modifies this, port, port.repository.database
      ensures port.turn > old(port.turn) && port.clock >= old(port.clock) && later == port.Tables()
      ensures OnlyOthers(start, later, fence, Others(port.world, first, port.turn))
      ensures replacement.Some? ==>
                && fatalError == old(fatalError)
                && urgency < Press(replacement.value)
                && OnCourse(start, later, fence, initial, replacement.value, Press(replacement.value))
      ensures replacement.None? ==> OnCourse(start, later, fence, initial, outcome, urgency)
      ensures fatalError == old(fatalError) || (old(fatalError).None? && fatalError in {Some(ControlReadFailed), Some(RemainedRunning)})
      ensures old(fatalError).None? && fatalError == Some(RemainedRunning) && Undisturbed(port.world, fence.executionToken) ==>
                !FitsWhileHeld(start, fence, initial)
      ensures replacement.None? && fatalError.None? ==>
                ReadControl(later, fence, port.clock).Err? || port.clock + RetryDelay() >= leaseExpiresAt
      ensures replacement.None? && Faultless(port.world) && Undisturbed(port.world, fence.executionToken)
              && FitsWhileHeld(start, fence, initial) ==>
                ReadControl(later, fence, port.clock).Err?
      ensures AsksNothingNew(old(port.turn), old(port.clock), s, fence, outcome) ==>
                replacement.None? && fatalError == (if old(fatalError).Some? then old(fatalError) else Some(RemainedRunning))
    {
      hide *;
      ghost var turned := port.turn;
      var control := ReadControlWithRetry(fence, leaseExpiresAt);
      ghost var others := Others(port.world, turned, port.turn);
      later := Perform(s, others);
      OthersStayOnCourse(start, s, others, fence, initial, outcome, urgency);
      OthersAct(start, s, fence, Others(port.world, first, turned), others);
      OthersInTwo(port.world, first, turned, port.turn);
      if Faultless(port.world) { FaultlessMeans(port.world, port.turn - 1); }
      if AsksNothingNew(turned, old(port.clock), s, fence, outcome) {
        AsksNothingNewMeans(turned, old(port.clock), s, fence, outcome);
        assert port.turn == turned + 1 by { HealthyEndsIt(turned, port.turn); }
      }
      if !control.Value? { return None, later; }
      var asked := ControlledOutcome(Some(control.control), outcome);
      ReplacingStaysOnCourse(start, later, port.clock, fence, initial, outcome, urgency);
      if asked != outcome && (asked.Cancelled? || asked.Paused?) { return Some(asked), later; }
      if Undisturbed(port.world, fence.executionToken) && FitsWhileHeld(start, fence, initial) {
        OthersAreUndisturbed(port.world, fence.executionToken, turned, port.turn);
        RefusalOnCourse(start, s, refused, others, port.clock, fence, initial, outcome, urgency, calledAt);
      }
      RaiseFatal(RemainedRunning);
      return None, later;
    }

    ghost predicate Doomed(s: State, turn: nat, clock: Time, fence: Fence, outcome: Settlement) {
      UnpromptedPause(s, port.world(turn), port.world(turn + 1), clock, fence, outcome)
    }

    lemma DoomedMeans(s: State, turn: nat, clock: Time, fence: Fence, outcome: Settlement)
      requires Inv(s) && Doomed(s, turn, clock, fence, outcome)
      ensures Perform(s, port.world(turn).before) == s
      ensures SettleCall(s, port.world(turn), fence, outcome, clock) == Answer(s, Err(FENCE_ERROR))
      ensures AsksNothingNew(turn + 1, clock + port.world(turn).elapsed, s, fence, outcome)
    {
      UnpromptedPauseIsRefused(s, port.world(turn), port.world(turn + 1), clock, fence, outcome);
    }

    /** The loop's answer to a passing fault: wait and go on, or give up. */
    method WaitForQueueRecovery(attempt: nat, leaseExpiresAt: Option<Time>) returns (again: bool)
      modifies this, port`clock
      ensures again <==>
                attempt != queueFailureLimit
                && (leaseExpiresAt.Some? ==> old(port.clock) + queueErrorBackoffMs < leaseExpiresAt.value)
      ensures port.clock == old(port.clock) + (if again then queueErrorBackoffMs else 0)
      ensures fatalError == (if !again && leaseExpiresAt.None? && old(fatalError).None? then Some(SettlementFailedRepeatedly) else old(fatalError))
    {
      if attempt == queueFailureLimit || (leaseExpiresAt.Some? && port.clock + queueErrorBackoffMs >= leaseExpiresAt.value) {
        if leaseExpiresAt.None? { RaiseFatal(SettlementFailedRepeatedly); }
        return false;
      }
      port.Sleep(queueErrorBackoffMs);
      return true;
    }

    /** One settlement call of the loop.  `seen` is what it met and `later` what it left. */
    method SettleOnce(fence: Fence, outcome: Settlement, ghost before: State, ghost start: State, ghost first: nat,
                      ghost initial: Settlement, ghost urgency: nat)
      returns (reply: Result<(), PortError>, ghost seen: State, ghost later: State)
      requires before == port.Tables() && OnCourse(start, before, fence, initial, outcome, urgency)
      requires first <= port.turn && OnlyOthers(start, before, fence, Others(port.world, first, port.turn))
      modifies port, port.repository.database
      ensures port.turn == old(port.turn) + 1 && port.clock == old(port.clock) + port.world(old(port.turn)).elapsed
      ensures seen == Perform(before, port.world(old(port.turn)).before) && later == port.Tables()
      ensures Answer(later, reply) == SettleCall(seen, port.world(old(port.turn)), fence, outcome, old(port.clock))
      ensures OnCourse(start, later, fence, initial, outcome, urgency) && StepOk(start, seen) && StepOk(start, later)
      ensures OnlyOthers(start, later, fence, Others(port.world, first, port.turn))
      ensures reply.Ok? ==> Committed(start, Others(port.world, first, port.turn), seen, fence, initial, outcome,
                                      old(port.clock), port.clock, later)
      ensures reply == Err(FENCE_ERROR) ==> later == seen
      ensures port.world(old(port.turn)).fault.HEALTHY? ==>
                && reply != Err(TRANSIENT_ERROR)
                && (reply == Err(OTHER_ERROR) ==>
                      outcome.TransactionallyFinalized? || (outcome.RetryLater? && outcome.availableAt < old(port.clock)))
    {
      hide *;
      ghost var turn, calledAt := port.world(port.turn), port.clock;
      RoundOnCourse(start, before, turn, calledAt, fence, initial, outcome, urgency);
      ghost var ops := Others(port.world, first, port.turn + 1);
      OneMoreTurn(first, port.turn);
      OthersAct(start, before, fence, Others(port.world, first, port.turn), turn.before);
      CallIsMade(start, Perform(before, turn.before), fence, ops, turn, outcome, calledAt);
      seen := Perform(before, turn.before);
      later := SettleCall(seen, turn, fence, outcome, calledAt).state;
      reply := port.Settle(fence, outcome);
      if turn.fault.HEALTHY? { OtherErrorMeans(seen, turn, fence, outcome, calledAt); }
      if reply.Ok? {
        SettledMeans(seen, turn, fence, outcome, calledAt);
        SettledMetOthers(start, seen, fence, ops, IntentFor(outcome).value, calledAt, port.clock);
        UnpressedIsInitial(start, seen, fence, initial, outcome, urgency, calledAt, port.clock);
        CommittedMeans(start, ops, seen, fence, initial, outcome, calledAt, port.clock, later);
      }
      if reply == Err(FENCE_ERROR) { FenceErrorMeans(seen, turn, fence, outcome, calledAt); }
    }

    /** `settleWithRetry`.  A refusal over the fence is answered with what the control reading asks for, at the same
        attempt number; the loop ends all the same, because each such answer is more urgent than the one before.
        `last` is the outcome tried last, `calls` the number of settlement calls, and `seen` and `calledAt` the
        tables and the clock the final call met. */
    method SettleWithRetry(fence: Fence, initial: Settlement, leaseExpiresAt: Option<Time>, ghost start: State)
      returns (settled: bool, ghost last: Settlement, ghost calls: nat, ghost seen: State, ghost calledAt: Time, ghost later: State)
      requires start == port.Tables() && Inv(start) && Issued(start, fence.jobId, fence.executionToken)
      modifies this, port, port.repository.database
      ensures later == port.Tables() && StepOk(start, later)
      ensures port.turn >= old(port.turn) && port.clock >= old(port.clock)
      ensures calls <= queueFailureLimit + 2
      ensures last == initial || last.Cancelled? || last.Paused?
      ensures settled ==> Committed(start, Others(port.world, old(port.turn), port.turn), seen, fence, initial, last,
                                    calledAt, port.clock, later)
      ensures old(fatalError).Some? || settled ==> fatalError == old(fatalError)
      ensures old(fatalError).None? && fatalError == Some(SettlementFailedRepeatedly) ==> leaseExpiresAt.None?
      ensures old(fatalError).None? && fatalError == Some(RemainedRunning) && Undisturbed(port.world, fence.executionToken) ==>
                !FitsWhileHeld(start, fence, initial)
      ensures !settled && fatalError.None? && queueFailureLimit > 0 && leaseExpiresAt.Some? ==>
                || ReadControl(later, fence, port.clock).Err? || calls >= queueFailureLimit
                || port.clock + RetryDelay() >= leaseExpiresAt.value
                || port.clock + queueErrorBackoffMs >= leaseExpiresAt.value
      ensures Faultless(port.world) && Undisturbed(port.world, fence.executionToken) && FitsWhileHeld(start, fence, initial)
              && leaseExpiresAt.Some? && queueFailureLimit > 0 && !initial.TransactionallyFinalized? ==>
                || settled
                || ReadControl(later, fence, port.clock).Err?
                || (initial.RetryLater? && initial.availableAt < port.clock)
      ensures Doomed(start, old(port.turn), old(port.clock), fence, initial) && leaseExpiresAt.Some? && queueFailureLimit > 0 ==>
                !settled && fatalError == (if old(fatalError).Some? then old(fatalError) else Some(RemainedRunning))
    {
      hide *;
      ghost var urgency: nat, turn0, clock0 := 0, port.turn, port.clock;
      var outcome, attempt := initial, 1;
      last, calls, seen, calledAt, later := initial, 0, start, port.clock, start;
      StartsOnCourse(start, fence, initial);
      NothingHappened(start, fence);
      OneMoreTurn(turn0, turn0);
      while attempt <= queueFailureLimit
        invariant later == port.Tables() && OnCourse(start, later, fence, initial, outcome, urgency)
        invariant turn0 <= port.turn && OnlyOthers(start, later, fence, Others(port.world, turn0, port.turn))
        invariant fatalError == old(fatalError) && last == outcome
        invariant port.turn >= old(port.turn) && port.clock >= old(port.clock)
        invariant calls == 0 ==> later == start && outcome == initial && port.turn == turn0 && port.clock == clock0 && attempt == 1
        invariant Doomed(start, turn0, clock0, fence, initial) && leaseExpiresAt.Some? ==> calls == 0
        invariant Faultless(port.world) ==> attempt == 1
        invariant attempt - 1 <= calls <= attempt - 1 + urgency
        invariant 1 <= attempt <= queueFailureLimit + 1
        decreases 2 - urgency, queueFailureLimit - attempt
      {
        if Doomed(start, turn0, clock0, fence, initial) && leaseExpiresAt.Some? { DoomedMeans(start, turn0, clock0, fence, initial); }
        ghost var turn := port.world(port.turn);
        if Faultless(port.world) { FaultlessMeans(port.world, port.turn); }
        CourseMeans(start, later, fence, initial, outcome, urgency);
        calledAt, calls := port.clock, calls + 1;
        var reply;
        reply, seen, later := SettleOnce(fence, outcome, later, start, turn0, initial, urgency);
        if reply.Ok? {
          settled := true;
          return;
        }
        if reply.error.FENCE_ERROR? {
          if leaseExpiresAt.None? { settled := false; return; }
          var replacement;
          replacement, later := AnswerRefusal(fence, outcome, leaseExpiresAt.value, later, start, turn0, initial, urgency, turn, calledAt);
          if replacement.None? {
            CourseMeans(start, later, fence, initial, outcome, urgency);
            settled := false;
            return;
          }
          outcome, last, urgency := replacement.value, replacement.value, Press(replacement.value);
          attempt := attempt - 1;
        } else if reply.error.OTHER_ERROR? {
          RaiseFatal(SettlementFailed);
          settled := false;
          return;
        } else {
          var again := WaitForQueueRecovery(attempt, leaseExpiresAt);
          if !again { settled := false; return; }
        }
        attempt := attempt + 1;
      }
      CourseMeans(start, later, fence, initial, outcome, urgency);
      settled := false;
    }

    /** The executor has paused on its own: the control reading, the settlement and the reading after it all get through,
        and the fence works and the job is RUNNING all the while. */
    ghost predicate PausesUnprompted(s: State, turn: nat, clock: Time, claimed: Claimed, outcome: Settlement) {
      Plain(port.world(turn)) && Doomed(s, turn + 1, clock + port.world(turn).elapsed, FenceOf(claimed), outcome)
    }

    lemma PausesUnpromptedMeans(s: State, turn: nat, clock: Time, claimed: Claimed, outcome: Settlement)
      requires Inv(s) && PausesUnprompted(s, turn, clock, claimed, outcome)
      ensures outcome.Paused? && port.world(turn).fault.HEALTHY? && Perform(s, port.world(turn).before) == s
      ensures var now := clock + port.world(turn).elapsed;
              && Doomed(s, turn + 1, now, FenceOf(claimed), outcome)
              && ReadControl(s, FenceOf(claimed), now).Ok?
              && ControlledOutcome(Some(ReadControl(s, FenceOf(claimed), now).value),
                                   NormalizeRetry(claimed.attempt, claimed.maxAttempts, outcome)) == outcome
    {
      hide Inv;
      ReadingIsUrgency(s, FenceOf(claimed), clock + port.world(turn).elapsed, outcome);
    }

    /** The part of `executeClaimedJob` that follows the executor.  `asked` is the outcome the final control reading
        leaves, `last` the one that was settled with, and `seen` the tables it met. */
    method FinishExecution(claimed: Claimed, executor: ExecutorResult, interrupted: Option<InterruptionReason>,
                           finalization: DomainFinalization, leaseExpiresAt: Time, ghost start: State)
      returns (settled: bool, ghost last: Settlement, ghost seen: State, ghost later: State)
      requires start == port.Tables() && Inv(start) && Issued(start, claimed.jobId, claimed.executionToken)
      requires BudgetAsClaimed(start, claimed)
      modifies this, port, port.repository.database
      ensures later == port.Tables() && StepOk(start, later)
      ensures finalization.FENCE_LOST? || finalization.BROKEN? ==> !settled && port.turn == old(port.turn) && later == start
      ensures finalization.COMMITTED? ==> settled && port.turn == old(port.turn) && later == start
      ensures finalization.NOT_STARTED? && interrupted == Some(LEASE_LOST) ==> !settled && port.turn == old(port.turn) && later == start
      ensures settled && port.turn > old(port.turn) ==>
                && seen == Perform(start, Others(port.world, old(port.turn), port.turn))
                && SettledAs(claimed, executor, interrupted, seen, later)
      ensures !finalization.FENCE_LOST? && !finalization.BROKEN? ==>
                (settled && port.turn == old(port.turn) <==>
                  ExecutionOutcome(executor, interrupted, finalization).TransactionallyFinalized?)
      ensures settled && port.turn == old(port.turn) ==> later == start
      ensures settled && port.turn == old(port.turn) && !finalization.COMMITTED? <==> Believed(executor, interrupted, finalization)
      ensures Believed(executor, interrupted, finalization) && Holds(start, claimed.jobId, claimed.executionToken) ==>
                Holds(later, claimed.jobId, claimed.executionToken)
      ensures PausedOnRequest(start, claimed, ExecutionOutcome(executor, interrupted, finalization))
              && Undisturbed(port.world, claimed.executionToken) && old(fatalError).None? ==>
                fatalError != Some(RemainedRunning)
      ensures finalization.NOT_STARTED? && queueFailureLimit > 0
              && PausesUnprompted(start, old(port.turn), old(port.clock), claimed, ExecutionOutcome(executor, interrupted, finalization)) ==>
                !settled && fatalError == (if old(fatalError).Some? then old(fatalError) else Some(RemainedRunning))
      ensures Faultless(port.world) && Undisturbed(port.world, claimed.executionToken) && queueFailureLimit > 0
              && finalization.NOT_STARTED? && interrupted != Some(LEASE_LOST)
              && WillSettle(start, claimed, ExecutionOutcome(executor, interrupted, finalization)) ==>
                || settled
                || ReadControl(later, FenceOf(claimed), port.clock).Err?
                || DatedBefore(ExecutionOutcome(executor, interrupted, finalization), port.clock)
    {
      hide *;
      UnchangedOk(start, start);
      NormalizedKinds(claimed, executor, interrupted, finalization);
      last, seen, later := Completed, start, start;
      if finalization.FENCE_LOST? { settled := false; return; }
      if finalization.BROKEN? {
        RaiseFatal(FinalizationFailed);
        settled := false;
        return;
      }
      var raw := ExecutionOutcome(executor, interrupted, finalization);
      var outcome := NormalizeRetry(claimed.attempt, claimed.maxAttempts, raw);
      ghost var unprompted := PausesUnprompted(start, port.turn, port.clock, claimed, raw);
      if unprompted { PausesUnpromptedMeans(start, port.turn, port.clock, claimed, raw); }
      settled := outcome.TransactionallyFinalized?;
      if !settled && interrupted != Some(LEASE_LOST) {
        ghost var turned := port.turn;
        var control := ReadControlWithRetry(FenceOf(claimed), leaseExpiresAt);
        if unprompted { HealthyEndsIt(turned, port.turn); }
        ghost var answered := port.turn;
        later := Perform(start, Others(port.world, turned, answered));
        PerformKeeps(start, Others(port.world, turned, port.turn));
        if Faultless(port.world) { FaultlessMeans(port.world, port.turn - 1); }
        if control.Value? {
          var controlled := ControlledOutcome(Some(control.control), outcome);
          if WillSettle(start, claimed, raw) { WillSettleMeans(start, claimed, raw, control.control); }
          AfterFinalControl(start, later, port.clock, claimed, raw);
          ghost var before, calls, calledAt, clock := later, 0, port.clock, port.clock;
          settled, last, calls, seen, calledAt, later := SettleWithRetry(FenceOf(claimed), controlled, Some(leaseExpiresAt), before);
          StepOkTransitive(start, before, later);
          DatedBeforeMeans(raw, port.clock);
          if settled {
            CommittedMeans(before, Others(port.world, answered, port.turn), seen, FenceOf(claimed), controlled, last,
                           calledAt, port.clock, later);
            OthersInTwo(port.world, turned, answered, port.turn);
            PerformMore(start, Others(port.world, turned, answered), Others(port.world, answered, port.turn));
            UnpressedIsUnchanged(before, seen, FenceOf(claimed), clock, outcome, IntentFor(last).value, calledAt, port.clock);
            StepOkMeans(before, seen);
            BothOwn(seen, FenceOf(claimed), outcome, controlled, last);
            SettledMeansOver(claimed, executor, interrupted, last, seen, calledAt, port.clock, later);
          }
        }
      }
    }
  }
}
