/** Every step keeps the invariant of the tables and lets every row evolve only as `Evolves` allows. */
module QueueStepsKeep {
  import opened Prelude
  import opened QueueTables
  import opened QueueOperations
  import opened JobCommands
  import opened QueueSteps
  import opened QueueLedger
  import opened QueueInvariant
  import opened QueueRowMoves

  // ----- steps that leave the lanes alone ----------------------------------------------------------

  predicate SameHold(job: Job, later: Job) {
    && (Executing(job.status) <==> Executing(later.status))
    && later.lane == job.lane
    && later.workerId == job.workerId
    && later.leaseToken == job.leaseToken
    && later.leaseExpiresAt == job.leaseExpiresAt
  }

  ghost predicate QuietChange(row: Row, later: Row) {
    Kept(row, later) && later.claims == row.claims && SameHold(row.job, later.job)
  }

  lemma QuietStepOk(s: State, later: State)
    requires Inv(s) && later.leases == s.leases
    requires forall id :: id in s.rows ==> id in later.rows && QuietChange(s.rows[id], later.rows[id])
    requires forall id :: id in later.rows && id !in s.rows ==>
               RowOk(later.rows[id]) && !Executing(later.rows[id].job.status) && later.rows[id].claims == []
    ensures StepOk(s, later)
  {
    QuietLanes(s, later);
  }

  lemma QuietLanes(s: State, later: State)
    requires LanesOk(s) && later.leases == s.leases
    requires forall id :: id in s.rows ==> id in later.rows && SameHold(s.rows[id].job, later.rows[id].job)
    requires forall id :: id in later.rows && id !in s.rows ==> !Executing(later.rows[id].job.status)
    ensures LanesOk(later)
  {
    forall lane | lane in later.leases ensures LeaseFits(later, lane) {
      assert LeaseFits(s, lane);
      assert SameHold(s.rows[s.leases[lane].ownerJobId].job, later.rows[s.leases[lane].ownerJobId].job);
    }
  }

  lemma QuietRowOk(s: State, id: JobId, row: Row)
    requires Inv(s) && id in s.rows && QuietChange(s.rows[id], row)
    ensures StepOk(s, WithRow(s, id, row))
  {
    hide RowOk, Evolves;
    OneRowOk(s.rows, id, row);
    QuietLanes(s, WithRow(s, id, row));
  }

  lemma NewRowOk(s: State, id: JobId, input: NewJob, now: Time)
    requires Inv(s) && id !in s.rows
    requires !input.triggerSource.LEGACY? && InBand(input.triggerSource, input.priority) && input.maxAttempts >= 1
    ensures StepOk(s, WithRow(s, id, FreshRow(input, now)))
  {
    FreshRowOk(input, now);
    forall other | other in s.rows ensures QuietChange(s.rows[other], WithRow(s, id, FreshRow(input, now)).rows[other]) {
      EvolvesReflexive(s.rows[other]);
    }
    QuietStepOk(s, WithRow(s, id, FreshRow(input, now)));
  }

  lemma UnchangedOk(s: State, later: State)
    requires Inv(s) && later == s
    ensures StepOk(s, later)
  {
    forall id | id in s.rows ensures Evolves(s.rows[id], s.rows[id]) { EvolvesReflexive(s.rows[id]); }
  }

  // ----- the holder ------------------------------------------------------------------------------

  /** Under the invariant a fence is owned exactly when the one lease of its job's lane names it. */
  lemma OwnedLease(s: State, fence: Fence, now: Time)
    requires Inv(s) && fence.jobId in s.rows && JobNames(s.rows[fence.jobId].job, fence, now)
    ensures var lane := s.rows[fence.jobId].job.lane;
            && LeasesNaming(s, fence) == {lane}
            && LiveLeasesNaming(s, fence, now) == {lane}
            && Owns(s, fence, now)
            && s.rows[fence.jobId].claims != []
            && fence.executionToken == s.rows[fence.jobId].claims[|s.rows[fence.jobId].claims| - 1]
  {
    var lane := s.rows[fence.jobId].job.lane;
    assert LeaseFits(s, lane);
    forall other | other in LeasesNaming(s, fence) ensures other == lane { assert LeaseFits(s, other); }
    assert lane in LeasesNaming(s, fence);
    assert RowOk(s.rows[fence.jobId]);
  }

  /** A row stops executing, and its lane's lease row goes with it. */
  lemma EndOk(s: State, id: JobId, row: Row)
    requires Inv(s) && id in s.rows && Executing(s.rows[id].job.status)
    requires Kept(s.rows[id], row) && !Executing(row.job.status) && row.claims == s.rows[id].claims
    ensures StepOk(s, State(s.rows[id := row], s.leases - {s.rows[id].job.lane}))
  {
    OneRowOk(s.rows, id, row);
    EndLanes(s, id, row);
  }

  lemma EndLanes(s: State, id: JobId, row: Row)
    requires LanesOk(s) && id in s.rows && Executing(s.rows[id].job.status) && !Executing(row.job.status)
    ensures LanesOk(State(s.rows[id := row], s.leases - {s.rows[id].job.lane}))
  {
    var lane := s.rows[id].job.lane;
    var later := State(s.rows[id := row], s.leases - {lane});
    forall other | other in later.leases ensures LeaseFits(later, other) {
      assert LeaseFits(s, other) && LeaseFits(s, lane);
    }
  }

  lemma TransitionOk(s: State, fence: Fence, door: Door, intent: Intent, now: Time)
    requires Inv(s)
    ensures StepOk(s, Transition(s, fence, door, intent, now).state)
  {
    if Transition(s, fence, door, intent, now).reply.Ok? {
      OwnedLease(s, fence, now);
      EndedKept(s.rows[fence.jobId], door, intent, now);
      EndOk(s, fence.jobId, EndedRow(s.rows[fence.jobId], fence.executionToken, door, intent, now));
    } else {
      UnchangedOk(s, s);
    }
  }

  lemma SettleOk(s: State, fence: Fence, intent: Intent, calledAt: Time, now: Time)
    requires Inv(s)
    ensures StepOk(s, Settle(s, fence, intent, calledAt, now).state)
  {
    var asked := if intent.Retry? then intent.(preserveAttempt := false) else intent;
    var out := Settle(s, fence, intent, calledAt, now);
    if out.state == s { UnchangedOk(s, out.state); } else {
      assert out.state == Transition(s, fence, SETTLEMENT, asked, now).state;
      TransitionOk(s, fence, SETTLEMENT, asked, now);
    }
  }

  lemma WithWritesOk(s: State, fence: Fence, payloads: seq<int>, now: Time)
    requires Inv(s) && Owns(s, fence, now)
    ensures StepOk(s, WithWrites(s, fence, payloads))
  {
    OwnedLease(s, fence, now);
    WritesKept(s.rows[fence.jobId], payloads);
    QuietRowOk(s, fence.jobId, WithWrites(s, fence, payloads).rows[fence.jobId]);
  }

  lemma FencedExecutionOk(s: State, fence: Fence, steps: seq<CallbackStep>, t0: Time, t1: Time, t2: Time)
    requires Inv(s)
    ensures StepOk(s, FencedExecution(s, fence, steps, t0, t1, t2).state)
  {
    var out := FencedExecution(s, fence, steps, t0, t1, t2);
    if out.reply.Err? {
      UnchangedOk(s, out.state);
    } else {
      var run := RunCallback(steps);
      var written := WithWrites(s, fence, run.writes);
      assert out.state == Transition(written, fence, TRANSACTION, run.intent.value, t2).state;
      WithWritesOk(s, fence, run.writes, t0);
      TransitionOk(written, fence, TRANSACTION, run.intent.value, t2);
      StepOkTransitive(s, written, out.state);
    }
  }

  lemma FencedMutationOk(s: State, fence: Fence, payloads: seq<int>, threw: bool, t0: Time, t1: Time)
    requires Inv(s)
    ensures StepOk(s, FencedMutation(s, fence, payloads, threw, t0, t1).state)
  {
    var out := FencedMutation(s, fence, payloads, threw, t0, t1);
    if out.reply.Err? { UnchangedOk(s, out.state); } else { WithWritesOk(s, fence, payloads, t0); }
  }

  lemma HeartbeatMeans(s: State, fence: Fence, now: Time, leaseMs: int, later: State)
    requires Inv(s) && later == Heartbeat(s, fence, now, leaseMs).state
    ensures later == s || (Owns(s, fence, now) && s.rows[fence.jobId].job.lane in s.leases
              && later == BeatState(s, fence.jobId, now + leaseMs))
  {
    if Heartbeat(s, fence, now, leaseMs).reply.Ok? { OwnedLease(s, fence, now); }
  }

  lemma OwnedIsExecuting(s: State, fence: Fence, now: Time)
    requires Owns(s, fence, now)
    ensures fence.jobId in s.rows && Executing(s.rows[fence.jobId].job.status)
  {
  }

  lemma HeartbeatOk(s: State, fence: Fence, now: Time, leaseMs: int)
    requires Inv(s)
    ensures StepOk(s, Heartbeat(s, fence, now, leaseMs).state)
  {
    hide *;
    var later := Heartbeat(s, fence, now, leaseMs).state;
    HeartbeatMeans(s, fence, now, leaseMs, later);
    if later == s {
      UnchangedOk(s, later);
    } else {
      OwnedIsExecuting(s, fence, now);
      BeatStateOk(s, fence.jobId, now + leaseMs, later);
    }
  }

  /** The job row and its lease row move to the same new expiry. */
  function BeatState(s: State, id: JobId, expiresAt: Time): State
    requires id in s.rows && s.rows[id].job.lane in s.leases
  {
    var row, lane := s.rows[id], s.rows[id].job.lane;
    State(s.rows[id := row.(job := row.job.(leaseExpiresAt := Some(expiresAt)))],
          s.leases[lane := s.leases[lane].(expiresAt := expiresAt)])
  }

  lemma BeatStateOk(s: State, id: JobId, expiresAt: Time, later: State)
    requires Inv(s) && id in s.rows && Executing(s.rows[id].job.status)
    requires s.rows[id].job.lane in s.leases && later == BeatState(s, id, expiresAt)
    ensures StepOk(s, later)
  {
    BeatKept(s.rows[id], expiresAt);
    OneRowOk(s.rows, id, s.rows[id].(job := s.rows[id].job.(leaseExpiresAt := Some(expiresAt))));
    BeatLanes(s, id, expiresAt);
  }

  lemma BeatLanes(s: State, id: JobId, expiresAt: Time)
    requires LanesOk(s) && id in s.rows && Executing(s.rows[id].job.status)
    ensures LanesOk(BeatState(s, id, expiresAt))
  {
    var later := BeatState(s, id, expiresAt);
    forall lane | lane in later.leases ensures LeaseFits(later, lane) { assert LeaseFits(s, lane); }
  }

  lemma UpdateProgressOk(s: State, fence: Fence, progress: int, now: Time)
    requires Inv(s)
    ensures StepOk(s, UpdateProgress(s, fence, progress, now).state)
  {
    var out := UpdateProgress(s, fence, progress, now);
    if out.reply.Err? {
      UnchangedOk(s, out.state);
    } else {
      NotedKept(s.rows[fence.jobId], JobProgress);
      QuietRowOk(s, fence.jobId, Noted(s.rows[fence.jobId], JobProgress));
    }
  }

  // ----- recovery, skipping, claiming -------------------------------------------------------------

  /** Under the invariant a lane that executes nothing has no lease row, so the orphan branch never runs. */
  lemma IdleLaneHasNoLease(s: State, lane: Lane)
    requires Inv(s) && ExecutingIn(s, lane) == {}
    ensures lane !in s.leases
  {
    forall held | held in s.leases ensures s.leases[held].ownerJobId in ExecutingIn(s, held) {
      assert LeaseFits(s, held);
    }
  }

  lemma RecoveredIsIdle(s: State, id: JobId, now: Time)
    requires Inv(s) && id in s.rows && Executing(s.rows[id].job.status)
    ensures var later := RecoveredRow(s.rows[id], now);
            Kept(s.rows[id], later) && !Executing(later.job.status) && later.claims == s.rows[id].claims
  {
    hide Inv, Kept, RowOk;
    RowIsOk(s, id);
    RecoveredKept(s.rows[id], now);
  }

  lemma RecoverOk(s: State, lane: Lane, now: Time)
    requires Inv(s)
    ensures StepOk(s, Recover(s, lane, now).state)
  {
    UnchangedOk(s, s);
    if ExecutingIn(s, lane) == {} {
      IdleLaneHasNoLease(s, lane);
    } else {
      hide StepOk, RowsOk, LanesOk, TokensOk, Kept, RecoveredRow;
      var id := Least(ExecutingIn(s, lane));
      assert id in ExecutingIn(s, lane);
      RecoveredIsIdle(s, id, now);
      EndOk(s, id, RecoveredRow(s.rows[id], now));
    }
  }

  lemma SkipExpiredOk(s: State, now: Time, calendar: Calendar)
    requires Inv(s)
    ensures StepOk(s, SkipExpired(s, now, calendar))
  {
    var later := SkipExpired(s, now, calendar);
    forall id | id in s.rows ensures QuietChange(s.rows[id], later.rows[id]) {
      EvolvesReflexive(s.rows[id]);
      if WindowMissed(s.rows[id].job, now, calendar) { SkippedKept(s.rows[id], now); }
    }
    QuietStepOk(s, later);
  }

  lemma AgeOk(s: State, input: ClaimInput)
    requires Inv(s)
    ensures StepOk(s, Age(s, input))
  {
    forall id | id in s.rows ensures QuietChange(s.rows[id], Age(s, input).rows[id]) {
      EvolvesReflexive(s.rows[id]);
      AgedKept(s.rows[id], input.now);
    }
    QuietStepOk(s, Age(s, input));
  }

  lemma SweptOk(s: State, input: ClaimInput)
    requires Inv(s)
    ensures StepOk(s, Swept(s, input))
  {
    var recovered := Recover(s, input.lane, input.now).state;
    RecoverOk(s, input.lane, input.now);
    SkipExpiredOk(recovered, input.now, input.calendar);
    StepOkTransitive(s, recovered, Swept(s, input));
  }

  lemma PreparedOk(s: State, input: ClaimInput)
    requires Inv(s) && !LaneClosed(Swept(s, input), input)
    ensures StepOk(s, Prepared(s, input))
    ensures input.lane !in Prepared(s, input).leases && ExecutingIn(Prepared(s, input), input.lane) == {}
  {
    hide Inv, RowsEvolve, Swept, Age, ExecutingIn;
    var swept := Swept(s, input);
    SweptOk(s, input);
    IdleLaneHasNoLease(swept, input.lane);
    assert swept.leases - {input.lane} == swept.leases;
    AgeOk(swept, input);
    StepOkTransitive(s, swept, Prepared(s, input));
    AgingStartsNothing(swept, input);
  }

  lemma AgingStartsNothing(s: State, input: ClaimInput)
    ensures ExecutingIn(Age(s, input), input.lane) == ExecutingIn(s, input.lane)
    ensures Age(s, input).leases == s.leases
  {
    hide Top, AgingRanks;
  }

  lemma TakenOk(s: State, input: ClaimInput, id: JobId)
    requires Inv(s) && FreshToken(s, input.token)
    requires input.lane !in s.leases && ExecutingIn(s, input.lane) == {}
    requires id in s.rows && Claimable(id, s.rows[id].job, input)
    ensures StepOk(s, Taken(s, input, id).state)
  {
    var later := Taken(s, input, id).state;
    ClaimedKept(s.rows[id], input);
    OneRowOk(s.rows, id, ClaimedRow(s.rows[id], input));
    TakenLanes(s, input, id);
  }

  lemma TakenLanes(s: State, input: ClaimInput, id: JobId)
    requires LanesOk(s) && input.lane !in s.leases && ExecutingIn(s, input.lane) == {}
    requires id in s.rows && !Executing(s.rows[id].job.status) && s.rows[id].job.lane == input.lane
    ensures LanesOk(Taken(s, input, id).state)
  {
    var later := Taken(s, input, id).state;
    forall lane | lane in later.leases ensures LeaseFits(later, lane) {
      if lane != input.lane { assert LeaseFits(s, lane); }
    }
    forall other | other in later.rows && Executing(later.rows[other].job.status)
      ensures later.rows[other].job.lane in later.leases && later.leases[later.rows[other].job.lane].ownerJobId == other
    {
      if other != id { assert other !in ExecutingIn(s, input.lane); }
    }
  }

  lemma ClaimOk(s: State, input: ClaimInput)
    requires Inv(s) && FreshToken(s, input.token)
    ensures StepOk(s, Claim(s, input).state)
  {
    UnchangedOk(s, s);
    SweptOk(s, input);
    if input.supported != {} && !LaneClosed(Swept(s, input), input) {
      var prepared := Prepared(s, input);
      PreparedOk(s, input);
      var ranks := ClaimRanks(prepared, input);
      if ranks != map[] {
        forall id | id in prepared.rows ensures input.token !in prepared.rows[id].claims {
          PreparedKeepsClaims(s, input, id);
        }
        TakenOk(prepared, input, First(ranks));
        StepOkTransitive(s, prepared, Claim(s, input).state);
      }
    }
  }

  lemma PreparedKeepsClaims(s: State, input: ClaimInput, id: JobId)
    requires id in Prepared(s, input).rows
    ensures id in s.rows && Prepared(s, input).rows[id].claims == s.rows[id].claims
  {
  }

  // ----- commands and requests -------------------------------------------------------------------

  lemma IdleJobHasNoLease(s: State, id: JobId)
    requires Inv(s) && id in s.rows && !Executing(s.rows[id].job.status)
    ensures s.leases - (set lane | lane in s.leases && s.leases[lane].ownerJobId == id) == s.leases
  {
    forall lane | lane in s.leases ensures s.leases[lane].ownerJobId != id { assert LeaseFits(s, lane); }
  }

  lemma RowIsOk(s: State, id: JobId)
    requires Inv(s) && id in s.rows
    ensures RowOk(s.rows[id])
  {
  }

  lemma RequestCancellationOk(s: State, id: JobId, now: Time)
    requires Inv(s)
    ensures StepOk(s, RequestCancellation(s, id, now).state)
  {
    hide StepOk, Inv, Kept, Evolves, BudgetOk, TrailOk, HistoryOk;
    UnchangedOk(s, s);
    if id in s.rows {
      RowIsOk(s, id);
      var row := s.rows[id];
      if Waiting(row.job.status) || row.job.status.PAUSED? {
        CancelNowKept(row, now);
        QuietRowOk(s, id, CancelNow(row, now));
        IdleJobHasNoLease(s, id);
      } else if row.job.status.RUNNING? || row.job.status.PAUSING? {
        CancelLaterKept(row, now);
        QuietRowOk(s, id, CancelLater(row, now));
      }
    }
  }

  lemma CancelCommandOk(s: State, id: JobId, bound: bool, now: Time)
    requires Inv(s)
    ensures StepOk(s, CancelCommand(s, id, bound, now).state)
  {
    hide StepOk, Inv, Kept, Evolves, BudgetOk, TrailOk, HistoryOk;
    UnchangedOk(s, s);
    if id in s.rows {
      RowIsOk(s, id);
      var row := s.rows[id];
      if Waiting(row.job.status) || row.job.status.PAUSED? {
        CancelledByCommandKept(row, now);
        QuietRowOk(s, id, CancelledByCommand(row, now));
      } else if row.job.status.RUNNING? || row.job.status.PAUSING? {
        CancellingByCommandKept(row, now);
        QuietRowOk(s, id, CancellingByCommand(row, now));
      }
    }
  }

  lemma PauseCommandOk(s: State, id: JobId, now: Time)
    requires Inv(s)
    ensures StepOk(s, PauseCommand(s, id, now).state)
  {
    hide StepOk, Inv, Kept, Evolves, BudgetOk, TrailOk, HistoryOk;
    UnchangedOk(s, s);
    if id in s.rows {
      RowIsOk(s, id);
      var row := s.rows[id];
      if Waiting(row.job.status) {
        PausedByCommandKept(row, now);
        QuietRowOk(s, id, PausedByCommand(row, now));
      } else if row.job.status.RUNNING? {
        PausingByCommandKept(row, now);
        QuietRowOk(s, id, PausingByCommand(row, now));
      }
    }
  }

  lemma ResumeCommandOk(s: State, id: JobId, now: Time)
    requires Inv(s)
    ensures StepOk(s, ResumeCommand(s, id, now).state)
  {
    UnchangedOk(s, s);
    if id in s.rows && s.rows[id].job.status.PAUSED? {
      ResumedKept(s.rows[id], now);
      QuietRowOk(s, id, ResumedRow(s.rows[id], now));
    }
  }

  lemma RetryCommandOk(s: State, id: JobId, retryId: JobId, accepted: bool, now: Time)
    requires Inv(s) && retryId !in s.rows
    ensures StepOk(s, RetryCommand(s, id, retryId, accepted, now).state)
  {
    var out := RetryCommand(s, id, retryId, accepted, now);
    if out.reply.Err? {
      UnchangedOk(s, out.state);
    } else {
      var noted := WithRow(s, id, Noted(s.rows[id], JobRetryScheduled(RETRIED_AS(retryId))));
      NotedKept(s.rows[id], JobRetryScheduled(RETRIED_AS(retryId)));
      QuietRowOk(s, id, Noted(s.rows[id], JobRetryScheduled(RETRIED_AS(retryId))));
      NewRowOk(noted, retryId, RetryOf(s.rows[id].job, now), now);
      StepOkTransitive(s, noted, RetryCommand(s, id, retryId, accepted, now).state);
    }
  }

  lemma ChangePriorityOk(s: State, id: JobId, priority: int)
    requires Inv(s)
    ensures StepOk(s, ChangePriority(s, id, priority).state)
  {
    var out := ChangePriority(s, id, priority);
    if out.reply.Err? {
      UnchangedOk(s, out.state);
    } else {
      ReprioritizedKept(s.rows[id], priority);
      QuietRowOk(s, id, ReprioritizedRow(s.rows[id], priority));
    }
  }

  lemma EnqueueOk(s: State, id: JobId, input: NewJob, now: Time)
    requires Inv(s) && id !in s.rows
    ensures StepOk(s, Enqueue(s, id, input, now).state)
  {
    var out := Enqueue(s, id, input, now);
    if out.reply.Err? {
      UnchangedOk(s, out.state);
    } else {
      var availableAt := if input.availableAt.Some? then input.availableAt.value else now;
      var day := if input.triggerSource.SCHEDULE? then input.scheduledForDate else None;
      NewRowOk(s, id, input.(availableAt := Some(availableAt), scheduledForDate := day), now);
    }
  }

  lemma EnqueueChildOk(s: State, fence: Fence, id: JobId, input: NewJob, now: Time)
    requires Inv(s) && id !in s.rows
    ensures StepOk(s, EnqueueChild(s, fence, id, input, now).state)
  {
    var out := EnqueueChild(s, fence, id, input, now);
    if out.reply.Err? {
      UnchangedOk(s, out.state);
    } else {
      var availableAt := if input.availableAt.Some? then input.availableAt.value else now;
      NewRowOk(s, id, input.(triggerSource := SYSTEM, availableAt := Some(availableAt), scheduledForDate := None), now);
    }
  }

  // ----- all steps -------------------------------------------------------------------------------

  lemma StepKeeps(s: State, op: Op)
    requires Inv(s) && Permitted(s, op)
    ensures StepOk(s, Step(s, op))
  {
    match op
    case OpEnqueue(id, input, now) => EnqueueOk(s, id, input, now);
    case OpEnqueueResolver(id, again, now) => NewRowOk(s, id, ResolverJob(again, now), now);
    case OpEnqueueChild(fence, id, input, now) => EnqueueChildOk(s, fence, id, input, now);
    case OpClaim(claim) => ClaimOk(s, claim);
    case OpHeartbeat(fence, now, leaseMs) => HeartbeatOk(s, fence, now, leaseMs);
    case OpProgress(fence, progress, now) => UpdateProgressOk(s, fence, progress, now);
    case OpSettle(fence, intent, calledAt, now) => SettleOk(s, fence, intent, calledAt, now);
    case OpExecution(fence, steps, t0, t1, t2) => FencedExecutionOk(s, fence, steps, t0, t1, t2);
    case OpMutation(fence, payloads, threw, t0, t1) => FencedMutationOk(s, fence, payloads, threw, t0, t1);
    case OpRecover(lane, now) => RecoverOk(s, lane, now);
    case OpSkipExpired(now, calendar) => SkipExpiredOk(s, now, calendar);
    case OpRequestCancellation(id, now) => RequestCancellationOk(s, id, now);
    case OpCancel(id, bound, now) => CancelCommandOk(s, id, bound, now);
    case OpPause(id, now) => PauseCommandOk(s, id, now);
    case OpResume(id, now) => ResumeCommandOk(s, id, now);
    case OpRetry(id, retryId, accepted, now) => RetryCommandOk(s, id, retryId, accepted, now);
    case OpChangePriority(id, priority) => ChangePriorityOk(s, id, priority);
  }

  lemma {:induction false} RunKeeps(s: State, ops: seq<Op>)
    requires Inv(s) && CanRun(s, ops)
    ensures StepOk(s, Run(s, ops))
    decreases |ops|
  {
    if ops == [] {
      UnchangedOk(s, s);
    } else {
      var next := Step(s, ops[0]);
      StepKeeps(s, ops[0]);
      RunKeeps(next, ops[1..]);
      StepOkTransitive(s, next, Run(s, ops));
    }
  }

  lemma {:induction false} PerformKeeps(s: State, ops: seq<Op>)
    requires Inv(s)
    ensures StepOk(s, Perform(s, ops))
    decreases |ops|
  {
    if ops == [] {
      UnchangedOk(s, s);
    } else if Permitted(s, ops[0]) {
      var next := Step(s, ops[0]);
      StepKeeps(s, ops[0]);
      PerformKeeps(next, ops[1..]);
      StepOkTransitive(s, next, Perform(s, ops));
    } else {
      PerformKeeps(s, ops[1..]);
    }
  }
}
