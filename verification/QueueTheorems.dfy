/** What holds in every run from empty tables, whoever calls what with whichever clock. */
module QueueTheorems {
  import opened Prelude
  import opened QueueTables
  import opened QueueOperations
  import opened JobCommands
  import opened QueueSteps
  import opened QueueLedger
  import opened QueueInvariant
  import opened QueueRowMoves
  import opened QueueStepsKeep
  import opened QueueColumns

  lemma EmptyOk()
    ensures Inv(EMPTY)
  {
  }

  lemma ReachableOk(ops: seq<Op>)
    requires CanRun(EMPTY, ops)
    ensures Inv(Run(EMPTY, ops))
  {
    RunKeeps(EMPTY, ops);
  }

  // ----- lane exclusion ---------------------------------------------------------------------------

  predicate Mirrors(lease: Lease, id: JobId, job: Job) {
    && lease.ownerJobId == id
    && Some(lease.workerId) == job.workerId
    && Some(lease.leaseToken) == job.leaseToken
    && Some(lease.expiresAt) == job.leaseExpiresAt
  }

  /** A lane executes at most one job, and holds a lease row exactly when it does, with equal columns. */
  lemma LaneExclusion(ops: seq<Op>, lane: Lane)
    requires CanRun(EMPTY, ops)
    ensures var s := Run(EMPTY, ops);
            && (forall a, b :: a in ExecutingIn(s, lane) && b in ExecutingIn(s, lane) ==> a == b)
            && (lane in s.leases <==> ExecutingIn(s, lane) != {})
            && (forall id :: id in ExecutingIn(s, lane) ==> lane in s.leases && Mirrors(s.leases[lane], id, s.rows[id].job))
  {
    ReachableOk(ops);
    var s := Run(EMPTY, ops);
    if ExecutingIn(s, lane) == {} {
      IdleLaneHasNoLease(s, lane);
    } else {
      var id :| id in ExecutingIn(s, lane);
      assert LeaseFits(s, lane);
    }
  }

  // ----- fenced history ----------------------------------------------------------------------------

  /** Effects under one token stand next to each other. */
  ghost predicate Contiguous(published: seq<Published>) {
    forall i, j, k :: 0 <= i < j < k < |published| && published[i].token == published[k].token
      ==> published[j].token == published[i].token
  }

  /** Nothing is published under a token after its finalization. */
  ghost predicate FinalizedLast(published: seq<Published>) {
    forall i, j :: 0 <= i < j < |published| && published[i].effect.Finalization?
      ==> published[j].token != published[i].token
  }

  /** The effects of a job fall into contiguous blocks by token, the blocks follow the order of the claims, and
      a finalization is the last effect of its block. */
  lemma FencedHistory(ops: seq<Op>, id: JobId)
    requires CanRun(EMPTY, ops) && id in Run(EMPTY, ops).rows
    ensures var row := Run(EMPTY, ops).rows[id];
            && (forall i :: 0 <= i < |row.published| ==> row.published[i].token in row.claims)
            && Contiguous(row.published)
            && (forall i, j, a, b :: (0 <= i < j < |row.published| && IsAt(row.claims, a, row.published[i].token)
                                      && IsAt(row.claims, b, row.published[j].token)) ==> a <= b)
            && FinalizedLast(row.published)
  {
    ReachableOk(ops);
    var row := Run(EMPTY, ops).rows[id];
    OrderMakesBlocks(row.published, row.claims);
  }

  lemma OrderMakesBlocks(published: seq<Published>, claims: seq<Token>)
    requires InClaimOrder(published, claims) && Distinct(claims)
    ensures Contiguous(published) && FinalizedLast(published)
  {
    forall i, j, k | 0 <= i < j < k < |published| && published[i].token == published[k].token
      ensures published[j].token == published[i].token
    {
      var a :| 0 <= a < |claims| && claims[a] == published[i].token;
      var b :| 0 <= b < |claims| && claims[b] == published[j].token;
      assert IsAt(claims, a, published[i].token) && IsAt(claims, b, published[j].token) && IsAt(claims, a, published[k].token);
    }
    forall i, j | 0 <= i < j < |published| && published[j].token == published[i].token
      ensures published[i].effect.DomainWrite?
    {
      var a :| 0 <= a < |claims| && claims[a] == published[i].token;
      assert IsAt(claims, a, published[i].token);
    }
  }

  /** The token was handed out, and no job holds it any more. */
  ghost predicate Stale(s: State, token: Token) {
    && (exists id :: id in s.rows && token in s.rows[id].claims)
    && (forall id :: id in s.rows ==> s.rows[id].job.leaseToken != Some(token))
  }

  predicate Carries(op: Op, token: Token) {
    match op
    case OpEnqueueChild(fence, _, _, _) => fence.executionToken == token
    case OpHeartbeat(fence, _, _) => fence.executionToken == token
    case OpProgress(fence, _, _) => fence.executionToken == token
    case OpSettle(fence, _, _, _) => fence.executionToken == token
    case OpExecution(fence, _, _, _, _) => fence.executionToken == token
    case OpMutation(fence, _, _, _, _) => fence.executionToken == token
    case _ => false
  }

  /** Nothing a stale worker calls changes anything. */
  lemma StaleTokenIsInert(s: State, op: Op, token: Token)
    requires Stale(s, token) && Carries(op, token) && Permitted(s, op)
    ensures Step(s, op) == s
  {
  }

  /** A token, once cleared or replaced, is never current again. */
  lemma StaleTokenStaysStale(s: State, ops: seq<Op>, token: Token)
    requires Inv(s) && Stale(s, token) && CanRun(s, ops)
    ensures Stale(Run(s, ops), token)
  {
    RunKeeps(s, ops);
    var later := Run(s, ops);
    var id :| id in s.rows && token in s.rows[id].claims;
    var k :| 0 <= k < |s.rows[id].claims| && s.rows[id].claims[k] == token;
    assert Evolves(s.rows[id], later.rows[id]);
    CurrentIsNewest(s.rows[id], later.rows[id], k);
    assert token in later.rows[id].claims by { assert later.rows[id].claims[k] == token; }
    forall other | other in later.rows ensures later.rows[other].job.leaseToken != Some(token) {
      HeldIsClaimed(later.rows[other], token);
    }
  }

  lemma HeldIsClaimed(row: Row, token: Token)
    requires RowOk(row)
    ensures row.job.leaseToken == Some(token) ==> token in row.claims
  {
  }

  lemma CurrentIsNewest(row: Row, later: Row, k: nat)
    requires RowOk(row) && RowOk(later) && Evolves(row, later)
    requires k < |row.claims| && row.job.leaseToken != Some(row.claims[k])
    ensures later.job.leaseToken != Some(row.claims[k])
  {
    assert later.claims[k] == row.claims[k];
  }

  /** A worker that lost its token can do nothing, now or after anything else that happens. */
  lemma LostForever(before: seq<Op>, after: seq<Op>, op: Op, token: Token)
    requires CanRun(EMPTY, before) && Stale(Run(EMPTY, before), token)
    requires CanRun(Run(EMPTY, before), after) && Permitted(Run(Run(EMPTY, before), after), op) && Carries(op, token)
    ensures Step(Run(Run(EMPTY, before), after), op) == Run(Run(EMPTY, before), after)
  {
    ReachableOk(before);
    StaleTokenStaysStale(Run(EMPTY, before), after, token);
    StaleTokenIsInert(Run(Run(EMPTY, before), after), op, token);
  }

  // ----- one fenced transaction ----------------------------------------------------------------------

  predicate CountsAsCall(step: CallbackStep) {
    step.Finalize? && !(step.intent.Retry? && step.intent.availableAt < step.at)
  }

  function FinalizerCalls(steps: seq<CallbackStep>): nat {
    if steps == [] then 0
    else FinalizerCalls(steps[..|steps| - 1]) + (if CountsAsCall(steps[|steps| - 1]) then 1 else 0)
  }

  function PayloadsOf(steps: seq<CallbackStep>): seq<int> {
    if steps == [] then []
    else PayloadsOf(steps[..|steps| - 1]) + (if steps[|steps| - 1].Write? then [steps[|steps| - 1].payload] else [])
  }

  lemma {:induction false} CallbackRunsThrough(steps: seq<CallbackStep>)
    requires !RunCallback(steps).threw
    ensures RunCallback(steps).calls == FinalizerCalls(steps)
    ensures RunCallback(steps).writes == PayloadsOf(steps)
    ensures RunCallback(steps).intent.Some? <==> FinalizerCalls(steps) > 0
  {
    if steps != [] { CallbackRunsThrough(steps[..|steps| - 1]); }
  }

  /** What a committed fenced transaction leaves on the row: every write of the callback, in order, and the
      finalization last, with the execution over. */
  ghost predicate PublishedWhole(row: Row, later: Row, token: Token, steps: seq<CallbackStep>) {
    && !Executing(later.job.status)
    && later.published ==
         row.published + WritesOf(token, PayloadsOf(steps)) + [Published(token, Finalization(later.job.status))]
  }

  /** A fenced transaction commits only when its callback finalizes exactly once, and then it publishes the
      whole of it; otherwise it changes nothing. */
  lemma FencedExecutionIsAllOrNothing(s: State, fence: Fence, steps: seq<CallbackStep>, t0: Time, t1: Time, t2: Time)
    ensures var out := FencedExecution(s, fence, steps, t0, t1, t2);
            && (out.reply.Err? ==> out.state == s)
            && (FinalizerCalls(steps) != 1 ==> out.reply.Err?)
            && (out.reply.Ok? ==> (fence.jobId in s.rows && fence.jobId in out.state.rows
                  && PublishedWhole(s.rows[fence.jobId], out.state.rows[fence.jobId], fence.executionToken, steps)))
  {
    var out := FencedExecution(s, fence, steps, t0, t1, t2);
    if !RunCallback(steps).threw { CallbackRunsThrough(steps); }
    if out.reply.Ok? {
      var row, intent := s.rows[fence.jobId], RunCallback(steps).intent.value;
      var written := WithWrites(s, fence, PayloadsOf(steps)).rows[fence.jobId];
      assert out.state.rows[fence.jobId] == EndedRow(written, fence.executionToken, TRANSACTION, intent, t2);
    }
  }

  // ----- the attempt budget ---------------------------------------------------------------------------

  lemma {:induction false} LedgerCounts(events: seq<Event>)
    ensures Read(events).claims == multiset(events)[JobClaimed]
    ensures Read(events).preserved == multiset(events)[JobRetryScheduled(ATTEMPT_PRESERVED)]
    ensures Read(events).releases == multiset(events)[JobRetryScheduled(SHUTDOWN_RELEASE)]
    ensures Read(events).resumed ==> JobQueued(RESUMED) in events
  {
    if events != [] {
      var init := events[..|events| - 1];
      LedgerCounts(init);
      assert events == init + [events[|events| - 1]];
    }
  }

  /** Attempts stay within the budget, and a job is claimed no more often than its first budget plus what
      releases and preserved attempts have given back. */
  lemma ClaimBudget(ops: seq<Op>, id: JobId)
    requires CanRun(EMPTY, ops) && id in Run(EMPTY, ops).rows
    ensures var row := Run(EMPTY, ops).rows[id];
            && 0 <= row.job.attempt <= row.job.maxAttempts
            && (Executing(row.job.status) ==> row.job.attempt >= 1)
            && multiset(row.events)[JobClaimed] <= row.grant
                 + multiset(row.events)[JobRetryScheduled(SHUTDOWN_RELEASE)]
                 + multiset(row.events)[JobRetryScheduled(ATTEMPT_PRESERVED)]
            && multiset(row.events)[JobClaimed] == |row.claims|
  {
    ReachableOk(ops);
    LedgerCounts(Run(EMPTY, ops).rows[id].events);
  }

  /** A waiting job without attempts left was resumed after its last claim. */
  lemma StrandedOnlyByResume(ops: seq<Op>, id: JobId)
    requires CanRun(EMPTY, ops) && id in Run(EMPTY, ops).rows && Stranded(Run(EMPTY, ops).rows[id].job)
    ensures exists i :: ResumedAt(Run(EMPTY, ops).rows[id].events, i)
  {
    ReachableOk(ops);
    assert BudgetOk(Run(EMPTY, ops).rows[id]) by { assert RowOk(Run(EMPTY, ops).rows[id]); }
    ResumedMeans(Run(EMPTY, ops).rows[id].events);
  }

  predicate StrandedIn(s: State, id: JobId) { id in s.rows && Stranded(s.rows[id].job) }

  predicate ResumesSpent(s: State, op: Op, id: JobId) {
    && op.OpResume? && op.id == id && id in s.rows
    && s.rows[id].job.status.PAUSED? && s.rows[id].job.attempt == s.rows[id].job.maxAttempts
  }

  /** A step strands a job exactly when it resumes that job, paused on its last attempt; nothing else ever does. */
  lemma StrandingIsResuming(s: State, op: Op, id: JobId)
    requires Inv(s) && Permitted(s, op) && !StrandedIn(s, id)
    ensures StrandedIn(Step(s, op), id) <==> ResumesSpent(s, op, id)
  {
    hide *;
    if op.OpResume? {
      ResumingStrands(s, op.id, op.now, id);
    } else {
      NothingElseStrands(s, op, id);
    }
  }

  lemma ResumingStrands(s: State, resumed: JobId, now: Time, id: JobId)
    requires Inv(s) && !StrandedIn(s, id)
    ensures StrandedIn(Step(s, OpResume(resumed, now)), id) <==> ResumesSpent(s, OpResume(resumed, now), id)
  {
    hide Inv, Stranded;
    if resumed == id && id in s.rows && s.rows[id].job.status.PAUSED? { ResumeStrands(s, id, now); }
  }

  lemma NothingElseStrands(s: State, op: Op, id: JobId)
    requires Inv(s) && Permitted(s, op) && !StrandedIn(s, id) && !op.OpResume?
    ensures !StrandedIn(Step(s, op), id) && !ResumesSpent(s, op, id)
  {
    hide Inv;
    match op
    case OpClaim(claim) => ClaimStrandsNobody(s, claim, id);
    case OpSettle(fence, intent, calledAt, now) => SettleStrandsNobody(s, fence, intent, calledAt, now, id);
    case OpExecution(fence, steps, t0, t1, t2) => ExecutionStrandsNobody(s, fence, steps, t0, t1, t2, id);
    case OpRecover(lane, now) => RecoverStrandsNobody(s, lane, now, id);
    case OpEnqueue(_, _, _) => CreationStrandsNobody(s, op, id);
    case OpEnqueueResolver(_, _, _) => CreationStrandsNobody(s, op, id);
    case OpEnqueueChild(_, _, _, _) => CreationStrandsNobody(s, op, id);
    case OpRetry(ended, retryId, accepted, now) => RetryStrandsNobody(s, ended, retryId, accepted, now, id);
    case OpHeartbeat(_, _, _) =>
    case OpProgress(_, _, _) =>
    case OpMutation(_, _, _, _, _) =>
    case _ => RequestStrandsNobody(s, op, id);
  }

  lemma RecoverStrandsNobody(s: State, lane: Lane, now: Time, id: JobId)
    requires !StrandedIn(s, id)
    ensures !StrandedIn(Recover(s, lane, now).state, id)
  {
  }

  lemma ClaimStrandsNobody(s: State, input: ClaimInput, id: JobId)
    requires !StrandedIn(s, id)
    ensures !StrandedIn(Claim(s, input).state, id)
  {
    hide Recover, LaneClosed, Least;
    RecoverStrandsNobody(s, input.lane, input.now, id);
    var recovered, swept := Recover(s, input.lane, input.now).state, Swept(s, input);
    assert !StrandedIn(swept, id);
    if input.supported != {} && !LaneClosed(swept, input) {
      assert !StrandedIn(Prepared(s, input), id);
    }
  }

  lemma TransitionStrandsNobody(s: State, fence: Fence, door: Door, intent: Intent, now: Time, id: JobId)
    requires !StrandedIn(s, id) && fence.jobId in s.rows
    requires s.rows[fence.jobId].job.attempt <= s.rows[fence.jobId].job.maxAttempts
    ensures !StrandedIn(Transition(s, fence, door, intent, now).state, id)
  {
    hide LeasesNaming, JobNames;
  }

  lemma SettleStrandsNobody(s: State, fence: Fence, intent: Intent, calledAt: Time, now: Time, id: JobId)
    requires !StrandedIn(s, id)
    ensures !StrandedIn(Settle(s, fence, intent, calledAt, now).state, id)
  {
    hide Owns;
  }

  lemma ExecutionStrandsNobody(s: State, fence: Fence, steps: seq<CallbackStep>, t0: Time, t1: Time, t2: Time, id: JobId)
    requires Inv(s) && !StrandedIn(s, id)
    ensures !StrandedIn(FencedExecution(s, fence, steps, t0, t1, t2).state, id)
  {
    hide RunCallback, Inv, HistoryOk, TrailOk, LiveLeasesNaming, Transition;
    if fence.jobId in s.rows {
      var run := RunCallback(steps);
      RowIsOk(s, fence.jobId);
      if run.intent.Some? {
        TransitionStrandsNobody(WithWrites(s, fence, run.writes), fence, TRANSACTION, run.intent.value, t2, id);
      }
    }
  }

  lemma CreationStrandsNobody(s: State, op: Op, id: JobId)
    requires !StrandedIn(s, id) && Permitted(s, op) && (op.OpEnqueue? || op.OpEnqueueResolver? || op.OpEnqueueChild?)
    ensures !StrandedIn(Step(s, op), id)
  {
    hide Owns;
  }

  lemma RetryStrandsNobody(s: State, ended: JobId, retryId: JobId, accepted: bool, now: Time, id: JobId)
    requires Inv(s) && retryId !in s.rows && !StrandedIn(s, id)
    ensures !StrandedIn(RetryCommand(s, ended, retryId, accepted, now).state, id)
  {
    hide HistoryOk, TrailOk, LanesOk;
    assert ended in s.rows ==> RowOk(s.rows[ended]);
  }

  lemma RequestStrandsNobody(s: State, op: Op, id: JobId)
    requires !StrandedIn(s, id) && Permitted(s, op)
    requires op.OpSkipExpired? || op.OpRequestCancellation? || op.OpCancel? || op.OpPause? || op.OpChangePriority?
    ensures !StrandedIn(Step(s, op), id)
  {
  }

  /** Resuming strands a job exactly when the job was paused on its last attempt. */
  lemma ResumeStrandsExactly(ops: seq<Op>, id: JobId, now: Time)
    requires CanRun(EMPTY, ops) && id in Run(EMPTY, ops).rows && Run(EMPTY, ops).rows[id].job.status.PAUSED?
    ensures var s := Run(EMPTY, ops);
            id in Step(s, OpResume(id, now)).rows
            && (Stranded(Step(s, OpResume(id, now)).rows[id].job) <==> s.rows[id].job.attempt == s.rows[id].job.maxAttempts)
  {
    hide *;
    ReachableOk(ops);
    ResumeStrands(Run(EMPTY, ops), id, now);
  }

  lemma ResumeStrands(s: State, id: JobId, now: Time)
    requires Inv(s) && id in s.rows && s.rows[id].job.status.PAUSED?
    ensures id in Step(s, OpResume(id, now)).rows
    ensures Stranded(Step(s, OpResume(id, now)).rows[id].job) <==> s.rows[id].job.attempt == s.rows[id].job.maxAttempts
  {
    hide LanesOk, TokensOk, HistoryOk, TrailOk;
    assert RowOk(s.rows[id]);
  }

  const SAMPLE_CLAIM: ClaimInput := ClaimInput(BACKGROUND_WRITER, "worker", {SAMPLE.kind}, 0, Calendar(0, false, false), false, {}, map[], 7, 60_000)

  const SAMPLE_FENCE: Fence := Fence(0, "worker", 7, 1)

  /** The one attempt of the sample job has begun. */
  lemma SampleClaimed() returns (s: State)
    ensures var ops := [OpEnqueue(0, SAMPLE, 0), OpClaim(SAMPLE_CLAIM)]; CanRun(EMPTY, ops) && s == Run(EMPTY, ops) && Inv(s)
    ensures 0 in s.rows && JobNames(s.rows[0].job, SAMPLE_FENCE, 1)
    ensures s.rows[0].job.status.RUNNING? && s.rows[0].job.maxAttempts == 1
  {
    hide Inv, Claim;
    var queued := SampleQueued();
    var ops := [OpEnqueue(0, SAMPLE, 0)];
    assert queued.rows[0].claims == [];
    RunThenStep(EMPTY, ops, OpClaim(SAMPLE_CLAIM));
    assert ops + [OpClaim(SAMPLE_CLAIM)] == [OpEnqueue(0, SAMPLE, 0), OpClaim(SAMPLE_CLAIM)];
    s := Claim(queued, SAMPLE_CLAIM).state;
    StepKeeps(queued, OpClaim(SAMPLE_CLAIM));
    SampleServed(queued);
    SampleTaken(queued);
  }

  lemma SampleServed(queued: State)
    requires Inv(queued) && queued.rows == map[0 := FreshRow(SAMPLE.(availableAt := Some(0)), 0)]
    ensures Claim(queued, SAMPLE_CLAIM).reply.Ok? && Claim(queued, SAMPLE_CLAIM).reply.value.Some?
  {
    hide Inv, Claim;
    FreeLaneIsServed(queued, SAMPLE_CLAIM, 0);
  }

  /** The claim of the lone sample job leaves it running on its only attempt. */
  lemma SampleTaken(queued: State)
    requires Inv(queued) && queued.rows == map[0 := FreshRow(SAMPLE.(availableAt := Some(0)), 0)]
    requires Claim(queued, SAMPLE_CLAIM).reply.Ok? && Claim(queued, SAMPLE_CLAIM).reply.value.Some?
    ensures var s := Claim(queued, SAMPLE_CLAIM).state;
            && 0 in s.rows && JobNames(s.rows[0].job, SAMPLE_FENCE, 1)
            && s.rows[0].job.status.RUNNING? && s.rows[0].job.maxAttempts == 1
  {
    SweepKeepsWaiting(queued, SAMPLE_CLAIM, 0);
    PreparedRow(queued, SAMPLE_CLAIM, 0);
    PreparedKeys(queued, SAMPLE_CLAIM);
    ClaimTakes(queued, SAMPLE_CLAIM);
  }

  lemma PreparedKeys(s: State, input: ClaimInput)
    ensures Prepared(s, input).rows.Keys <= s.rows.Keys
  {
  }

  /** A claim that returns a job has taken a candidate of the prepared tables. */
  lemma ClaimTakes(s: State, input: ClaimInput)
    requires Claim(s, input).reply.Ok? && Claim(s, input).reply.value.Some?
    ensures var id := Claim(s, input).reply.value.value.jobId;
            id in Prepared(s, input).rows && Claim(s, input) == Taken(Prepared(s, input), input, id)
  {
  }

  /** The sample job paused while its only attempt runs. */
  lemma SampleHalted() returns (s: State, ops: seq<Op>)
    ensures CanRun(EMPTY, ops) && s == Run(EMPTY, ops) && Inv(s)
    ensures 0 in s.rows && JobNames(s.rows[0].job, SAMPLE_FENCE, 1)
    ensures s.rows[0].job.status.PAUSING? && s.rows[0].job.maxAttempts == 1
  {
    var claimed := SampleClaimed();
    ops := [OpEnqueue(0, SAMPLE, 0), OpClaim(SAMPLE_CLAIM)];
    RunThenStep(EMPTY, ops, OpPause(0, 1));
    s := Step(claimed, OpPause(0, 1));
    PauseCommandOk(claimed, 0, 1);
    ops := ops + [OpPause(0, 1)];
  }

  /** Stranding happens: pause the last attempt, acknowledge the pause, resume. */
  lemma StrandingHappens()
    ensures exists ops :: CanRun(EMPTY, ops) && 0 in Run(EMPTY, ops).rows && Stranded(Run(EMPTY, ops).rows[0].job)
  {
    var halted, ops := SampleHalted();
    var settle := OpSettle(SAMPLE_FENCE, Pause, 1, 1);
    RunThenStep(EMPTY, ops, settle);
    var paused := Step(halted, settle);
    SampleAcknowledged(halted);
    RunThenStep(EMPTY, ops + [settle], OpResume(0, 2));
    ResumeStrandsExactly(ops + [settle], 0, 2);
    assert Stranded(Run(EMPTY, ops + [settle] + [OpResume(0, 2)]).rows[0].job);
  }

  lemma SampleAcknowledged(halted: State)
    requires Inv(halted) && 0 in halted.rows && JobNames(halted.rows[0].job, SAMPLE_FENCE, 1)
    requires halted.rows[0].job.status.PAUSING? && halted.rows[0].job.maxAttempts == 1
    ensures var paused := Settle(halted, SAMPLE_FENCE, Pause, 1, 1).state;
            0 in paused.rows && paused.rows[0].job.status.PAUSED?
            && paused.rows[0].job.attempt == paused.rows[0].job.maxAttempts
  {
    OwnedLease(halted, SAMPLE_FENCE, 1);
  }

  /** A stranded job is never claimed again, whatever happens next. */
  lemma StrandedIsForever(s: State, ops: seq<Op>, id: JobId)
    requires Inv(s) && id in s.rows && Stranded(s.rows[id].job) && CanRun(s, ops)
    ensures var later := Run(s, ops);
            && id in later.rows
            && later.rows[id].claims == s.rows[id].claims
            && !Executing(later.rows[id].job.status)
  {
    RunKeeps(s, ops);
    assert Evolves(s.rows[id], Run(s, ops).rows[id]);
  }

  // ----- the audit trail ------------------------------------------------------------------------------

  /** Replaying a job's events gives its status, and the executions begun less those ended is one exactly
      while the job executes. */
  lemma TrailExplainsState(ops: seq<Op>, id: JobId)
    requires CanRun(EMPTY, ops) && id in Run(EMPTY, ops).rows
    ensures var row := Run(EMPTY, ops).rows[id];
            && Read(row.events).status == Some(row.job.status)
            && multiset(row.events)[JobClaimed] - Read(row.events).endings == (if Executing(row.job.status) then 1 else 0)
  {
    ReachableOk(ops);
    LedgerCounts(Run(EMPTY, ops).rows[id].events);
  }

  /** At every point of a job's trail the event types tell its status, waiting for waiting, exactly when no priority
      was changed while the job was paused; so in a run without such a change the types explain the state. */
  lemma TypesTellExactly(ops: seq<Op>, id: JobId)
    requires CanRun(EMPTY, ops) && id in Run(EMPTY, ops).rows
    ensures var row := Run(EMPTY, ops).rows[id];
            && ((forall i :: 0 <= i <= |row.events| ==> TypesTell(row.events[..i])) <==> NeverMisleads(row.events))
            && (NeverMisleads(row.events) ==> ReadTypes(ErasedTrail(row.events)) == Some(ClassOf(row.job.status)))
  {
    ReachableOk(ops);
    var row := Run(EMPTY, ops).rows[id];
    assert TrailOk(row) by { assert RowOk(row); }
    TypesOfRow(row);
  }

  lemma TypesOfRow(row: Row)
    requires TrailOk(row)
    ensures (forall i :: 0 <= i <= |row.events| ==> TypesTell(row.events[..i])) <==> NeverMisleads(row.events)
    ensures NeverMisleads(row.events) ==> ReadTypes(ErasedTrail(row.events)) == Some(ClassOf(row.job.status))
  {
    hide Read, ReadTypes, NeverMisleads;
    TypesTellExactlyWhile(row.events);
    if NeverMisleads(row.events) {
      assert row.events[..|row.events|] == row.events;
    }
  }

  /** And wherever a job is paused, a resumption and a priority change leave the same types and different states. */
  lemma TypesPartAtPause(s: State, id: JobId, priority: int, now: Time)
    requires id in s.rows && s.rows[id].job.status.PAUSED? && InBand(s.rows[id].job.triggerSource, priority)
    ensures var resumed, changed := Step(s, OpResume(id, now)), Step(s, OpChangePriority(id, priority));
            && id in resumed.rows && id in changed.rows
            && ErasedTrail(resumed.rows[id].events) == ErasedTrail(changed.rows[id].events)
            && ClassOf(resumed.rows[id].job.status) != ClassOf(changed.rows[id].job.status)
  {
    var events := s.rows[id].events;
    assert Step(s, OpResume(id, now)).rows[id].events == events + [JobQueued(RESUMED)];
    assert Step(s, OpChangePriority(id, priority)).rows[id].events == events + [JobQueued(PRIORITY_CHANGED)];
  }

  const SAMPLE: NewJob := NewJob(JobKind(WRITER_JOB("SCAN"), 1), MANUAL, 10, 1, None, None, None)

  /** The event types alone do not explain the state: two runs leave trails that differ only in the data of
      their events, one job waiting and one paused. */
  lemma TypesAloneDoNotExplain()
    ensures exists a: seq<Op>, b: seq<Op> ::
      && CanRun(EMPTY, a) && CanRun(EMPTY, b) && 0 in Run(EMPTY, a).rows && 0 in Run(EMPTY, b).rows
      && ErasedTrail(Run(EMPTY, a).rows[0].events) == ErasedTrail(Run(EMPTY, b).rows[0].events)
      && ClassOf(Run(EMPTY, a).rows[0].job.status) != ClassOf(Run(EMPTY, b).rows[0].job.status)
  {
    hide ErasedTrail, ClassOf;
    var start := [OpEnqueue(0, SAMPLE, 0), OpPause(0, 0)];
    var paused := SamplePaused();
    RunThenStep(EMPTY, start, OpResume(0, 0));
    RunThenStep(EMPTY, start, OpChangePriority(0, 5));
    TypesPartAtPause(paused, 0, 5, 0);
  }

  lemma SampleQueued() returns (s: State)
    ensures CanRun(EMPTY, [OpEnqueue(0, SAMPLE, 0)]) && s == Run(EMPTY, [OpEnqueue(0, SAMPLE, 0)]) && Inv(s)
    ensures s.rows == map[0 := FreshRow(SAMPLE.(availableAt := Some(0)), 0)]
  {
    RunThenStep(EMPTY, [], OpEnqueue(0, SAMPLE, 0));
    assert [] + [OpEnqueue(0, SAMPLE, 0)] == [OpEnqueue(0, SAMPLE, 0)];
    s := Run(EMPTY, [OpEnqueue(0, SAMPLE, 0)]);
    EmptyOk();
    RunKeeps(EMPTY, [OpEnqueue(0, SAMPLE, 0)]);
  }

  lemma SamplePaused() returns (s: State)
    ensures var start := [OpEnqueue(0, SAMPLE, 0), OpPause(0, 0)]; CanRun(EMPTY, start) && s == Run(EMPTY, start)
    ensures 0 in s.rows && s.rows[0].job.status.PAUSED? && s.rows[0].job.triggerSource.MANUAL?
  {
    var queued := SampleQueued();
    RunThenStep(EMPTY, [OpEnqueue(0, SAMPLE, 0)], OpPause(0, 0));
    assert [OpEnqueue(0, SAMPLE, 0)] + [OpPause(0, 0)] == [OpEnqueue(0, SAMPLE, 0), OpPause(0, 0)];
    s := Step(queued, OpPause(0, 0));
  }

  // ----- control requests --------------------------------------------------------------------------------

  lemma NobodySince(claims: seq<Token>, token: Token)
    ensures !ClaimedSince(claims, |claims|, token)
  {
  }

  lemma EndedPublishesNothing(row: Row, later: Row)
    requires Evolves(row, later) && Terminal(row.job.status)
    ensures later.job.status == row.job.status && later.claims == row.claims && later.published == row.published
  {
    hide ClaimedSince;
    if |later.published| > |row.published| { NobodySince(later.claims, later.published[|row.published|].token); }
  }

  /** Ended jobs stay as they ended and publish nothing more, and a job that is being cancelled can only become
      cancelled. */
  lemma EndsAreFinal(s: State, ops: seq<Op>, id: JobId)
    requires Inv(s) && id in s.rows && CanRun(s, ops)
    ensures var row, later := s.rows[id], Run(s, ops);
            && id in later.rows
            && (Terminal(row.job.status) ==>
                  && later.rows[id].job.status == row.job.status
                  && later.rows[id].claims == row.claims && later.rows[id].published == row.published)
            && (row.job.status.CANCELLING? ==> later.rows[id].job.status.CANCELLING? || later.rows[id].job.status.CANCELLED?)
  {
    RunKeeps(s, ops);
    assert Evolves(s.rows[id], Run(s, ops).rows[id]);
    if Terminal(s.rows[id].job.status) { EndedPublishesNothing(s.rows[id], Run(s, ops).rows[id]); }
  }

  /** A requested pause or cancellation holds until somebody resumes the job. */
  lemma HaltHoldsUntilResumed(s: State, ops: seq<Op>, id: JobId)
    requires Inv(s) && id in s.rows && CanRun(s, ops) && Halting(s.rows[id].job.status)
    ensures id in Run(s, ops).rows
    ensures Halting(Run(s, ops).rows[id].job.status)
            || exists i :: |s.rows[id].events| <= i < |Run(s, ops).rows[id].events|
                           && Run(s, ops).rows[id].events[i] == JobQueued(RESUMED)
  {
    RunKeeps(s, ops);
    assert Evolves(s.rows[id], Run(s, ops).rows[id]);
  }

  /** In one step a pausing job can only stay, pause, or turn to cancellation: a request that commits first
      decides, whichever of settlement, fenced finalization or recovery comes next. */
  lemma PauseRequestDecides(s: State, op: Op, id: JobId)
    requires Inv(s) && id in s.rows && s.rows[id].job.status.PAUSING? && Permitted(s, op)
    ensures id in Step(s, op).rows && Halting(Step(s, op).rows[id].job.status)
  {
    match op
    case OpClaim(claim) => ClaimLeavesHalting(s, claim, id);
    case OpSettle(fence, intent, calledAt, now) => SettleLeavesHalting(s, fence, intent, calledAt, now, id);
    case OpExecution(fence, steps, t0, t1, t2) => ExecutionLeavesHalting(s, fence, steps, t0, t1, t2, id);
    case OpRecover(lane, now) => RecoverLeavesHalting(s, lane, now, id);
    case OpHeartbeat(_, _, _) =>
    case OpMutation(_, _, _, _, _) =>
    case _ => OtherStepsLeaveHalting(s, op, id);
  }

  lemma RecoverLeavesHalting(s: State, lane: Lane, now: Time, id: JobId)
    requires id in s.rows && s.rows[id].job.status.PAUSING?
    ensures var later := Recover(s, lane, now).state; id in later.rows && Halting(later.rows[id].job.status)
  {
  }

  lemma OtherStepsLeaveHalting(s: State, op: Op, id: JobId)
    requires id in s.rows && s.rows[id].job.status.PAUSING? && Permitted(s, op)
    requires !op.OpClaim? && !op.OpSettle? && !op.OpExecution? && !op.OpRecover? && !op.OpHeartbeat? && !op.OpMutation?
    ensures id in Step(s, op).rows && Halting(Step(s, op).rows[id].job.status)
  {
  }

  lemma SettleLeavesHalting(s: State, fence: Fence, intent: Intent, calledAt: Time, now: Time, id: JobId)
    requires id in s.rows && s.rows[id].job.status.PAUSING?
    ensures var later := Settle(s, fence, intent, calledAt, now).state; id in later.rows && Halting(later.rows[id].job.status)
  {
  }

  lemma ExecutionLeavesHalting(s: State, fence: Fence, steps: seq<CallbackStep>, t0: Time, t1: Time, t2: Time, id: JobId)
    requires id in s.rows && s.rows[id].job.status.PAUSING?
    ensures var later := FencedExecution(s, fence, steps, t0, t1, t2).state; id in later.rows && Halting(later.rows[id].job.status)
  {
  }

  lemma ClaimLeavesHalting(s: State, input: ClaimInput, id: JobId)
    requires id in s.rows && s.rows[id].job.status.PAUSING?
    ensures id in Claim(s, input).state.rows && Halting(Claim(s, input).state.rows[id].job.status)
  {
    hide Recover, LaneClosed;
    RecoverLeavesHalting(s, input.lane, input.now, id);
    var recovered, swept := Recover(s, input.lane, input.now).state, Swept(s, input);
    assert swept.rows[id].job.status == recovered.rows[id].job.status;
    if input.supported != {} && !LaneClosed(swept, input) {
      var prepared := Prepared(s, input);
      assert prepared.rows[id].job.status == swept.rows[id].job.status;
    }
  }

  // ----- no lane stays stuck -------------------------------------------------------------------------

  /** While the holder's lease is live, a claim finds nothing and leaves the holder as it is. */
  lemma LiveHolderIsLeftAlone(s: State, input: ClaimInput, id: JobId)
    requires Inv(s) && id in ExecutingIn(s, input.lane) && s.rows[id].job.leaseExpiresAt.value > input.now
    ensures Claim(s, input).reply == Ok(None)
    ensures id in Claim(s, input).state.rows && Claim(s, input).state.rows[id] == s.rows[id]
    ensures Claim(s, input).state.leases == s.leases
  {
    hide *;
    LiveHolderIsNotRecovered(s, input.lane, id, input.now);
    HolderStaysPut(s, input, id);
  }

  lemma HolderStaysPut(s: State, input: ClaimInput, id: JobId)
    requires id in ExecutingIn(s, input.lane) && Recover(s, input.lane, input.now) == Outcome(s, Ok(None))
    ensures Claim(s, input).reply == Ok(None)
    ensures id in Claim(s, input).state.rows && Claim(s, input).state.rows[id] == s.rows[id]
    ensures Claim(s, input).state.leases == s.leases
  {
    hide Recover, Prepared, ClaimRanks;
    var swept := SkipExpired(s, input.now, input.calendar);
    assert swept == Swept(s, input);
    assert id in ExecutingIn(swept, input.lane) && LaneClosed(swept, input);
  }

  lemma LiveHolderIsNotRecovered(s: State, lane: Lane, id: JobId, now: Time)
    requires Inv(s) && id in ExecutingIn(s, lane) && s.rows[id].job.leaseExpiresAt.value > now
    ensures Recover(s, lane, now) == Outcome(s, Ok(None))
  {
    assert LeaseFits(s, lane);
    assert forall other :: other in ExecutingIn(s, lane) ==> other == id;
  }

  /** Once the holder's lease has expired, recovery frees the lane and settles the job: as cancelled or paused if that was
      asked, else for another try from now on while an attempt is left, else as failed. */
  lemma ExpiredHolderIsRecovered(s: State, lane: Lane, id: JobId, now: Time)
    requires Inv(s) && id in ExecutingIn(s, lane) && s.rows[id].job.leaseExpiresAt.value <= now
    ensures var out := Recover(s, lane, now);
            && id in out.state.rows && RecoveredAs(s.rows[id], out.state.rows[id], now)
            && out.reply == Ok(Some((id, out.state.rows[id].job.status)))
            && ExecutingIn(out.state, lane) == {} && lane !in out.state.leases
            && (forall other :: other in s.rows && other != id ==> out.state.rows[other] == s.rows[other])
  {
    hide RecoveredAs, RowsOk, TokensOk;
    RowRecovers(s.rows[id], now);
    assert LeaseFits(s, lane);
    assert forall other :: other in ExecutingIn(s, lane) ==> other == id;
    assert Least(ExecutingIn(s, lane)) == id;
  }

  /** A free lane that is not paused never sends a worker away while there is a job due for it. */
  lemma FreeLaneIsServed(s: State, input: ClaimInput, id: JobId)
    requires Inv(s) && id in s.rows && Due(id, s.rows[id].job, input) && !LaneTaken(s, input.lane, input.now)
    requires !(input.lane.ARCHIVE_RESOLVE? && input.resolverPaused)
    ensures Claim(s, input).reply.Ok? && Claim(s, input).reply.value.Some?
  {
    hide Inv, Due, Claim, Swept, Prepared, LaneClosed;
    RowIsOk(s, id);
    DueMeans(id, s.rows[id].job, input);
    SweepFreesLane(s, input);
    SweepKeepsWaiting(s, input, id);
    PreparedRow(s, input, id);
    assert id in ClaimRanks(Prepared(s, input), input);
    OpenLaneClaims(s, input);
  }

  /** A job that is due is left alone by recovery and skipping, and stays claimable when it is aged. */
  lemma DueMeans(id: JobId, job: Job, input: ClaimInput)
    requires BandOk(job) && RequestColumnsOk(job) && Due(id, job, input)
    ensures Waiting(job.status) && !WindowMissed(job, input.now, input.calendar) && input.supported != {}
    ensures Claimable(id, job, input)
    ensures Claimable(id, job.(effectivePriority := AgedPriority(job, input.now)), input)
  {
    BandOpenExactly(job, job.queuePriority, input.calendar.windowOpen);
    AgedStaysClaimable(job, input, id);
  }

  lemma PreparedRow(s: State, input: ClaimInput, id: JobId)
    requires id in Swept(s, input).rows
    ensures id in Prepared(s, input).rows
    ensures var job, later := Swept(s, input).rows[id].job, Prepared(s, input).rows[id].job;
            later == job || later == job.(effectivePriority := AgedPriority(job, input.now))
  {
  }

  lemma OpenLaneClaims(s: State, input: ClaimInput)
    requires input.supported != {} && !LaneClosed(Swept(s, input), input) && ClaimRanks(Prepared(s, input), input) != map[]
    ensures Claim(s, input) == Taken(Prepared(s, input), input, First(ClaimRanks(Prepared(s, input), input)))
  {
  }

  lemma SweepKeepsWaiting(s: State, input: ClaimInput, id: JobId)
    requires id in s.rows && !Executing(s.rows[id].job.status) && !WindowMissed(s.rows[id].job, input.now, input.calendar)
    requires Inv(s)
    ensures id in Swept(s, input).rows && Swept(s, input).rows[id] == s.rows[id]
  {
    var recovered := Recover(s, input.lane, input.now).state;
    if ExecutingIn(s, input.lane) == {} { IdleLaneHasNoLease(s, input.lane); }
    assert recovered.rows[id] == s.rows[id];
  }

  lemma SweepFreesLane(s: State, input: ClaimInput)
    requires Inv(s) && !LaneTaken(s, input.lane, input.now) && !(input.lane.ARCHIVE_RESOLVE? && input.resolverPaused)
    ensures !LaneClosed(Swept(s, input), input)
  {
    var recovered := Recover(s, input.lane, input.now).state;
    if ExecutingIn(s, input.lane) == {} {
      IdleLaneHasNoLease(s, input.lane);
    } else {
      var holder :| holder in ExecutingIn(s, input.lane);
      HoldersAre(s, input.lane);
      assert HoldsExpired(s, input.lane, holder, input.now);
      assert LeaseFits(s, input.lane);
      ExpiredHolderIsRecovered(s, input.lane, holder, input.now);
    }
    SkippingFreesNothing(recovered, input);
  }

  lemma SkippingFreesNothing(s: State, input: ClaimInput)
    requires ExecutingIn(s, input.lane) == {}
    ensures ExecutingIn(SkipExpired(s, input.now, input.calendar), input.lane) == {}
  {
    forall id | id in ExecutingIn(SkipExpired(s, input.now, input.calendar), input.lane) ensures id in ExecutingIn(s, input.lane) {}
  }

  /** Aging keeps an eligible waiting job claimable, because it keeps its priority in the band. */
  lemma AgedStaysClaimable(job: Job, input: ClaimInput, id: JobId)
    requires BandOk(job) && RequestColumnsOk(job) && Supported(job, input) && AvailableBy(job, input.now)
    requires job.attempt < job.maxAttempts && !(job.kind.jobType.ARCHIVE_IMPORT? && id in input.cleanupRequested)
    requires WindowAdmits(job, job.queuePriority, input.calendar.windowOpen)
    ensures Claimable(id, job, input)
    ensures Claimable(id, job.(effectivePriority := AgedPriority(job, input.now)), input)
  {
    AgingStaysInBand(job, input.now);
  }
}
