/** The bounded aging pass of a claim against the plain rule "age every job, take the least", and the SQL
    window test against the dispatch window policy. */
module PriorityAging {
  import opened Prelude
  import opened QueueTables
  import opened QueueOperations
  import opened JobCommands
  import opened QueueSteps
  import opened QueueInvariant
  import opened QueueRowMoves
  import opened QueueStepsKeep
  import opened QueueTheorems
  import opened QueueColumns
  import opened QueueContracts
  import opened ClaimContract

  // ----- the plain rule ------------------------------------------------------------------------

  function FullyAged(job: Job, now: Time): Job { job.(effectivePriority := AgedPriority(job, now)) }

  /** Every job that is claimable once fully aged, ranked by its aged priority. */
  function FullRanks(s: State, input: ClaimInput): (ranks: map<JobId, Rank>)
    ensures OwnRanks(ranks)
  {
    map id | id in s.rows && Claimable(id, FullyAged(s.rows[id].job, input.now), input) ::
      AgingRank(id, s.rows[id].job, input.now)
  }

  // ----- stored priorities never run ahead of the clock ------------------------------------------

  predicate AgedJob(job: Job, clock: Time) { job.effectivePriority >= AgedPriority(job, clock) }

  /** No stored priority is lower than aging up to `clock` could have made it. */
  predicate AgedBy(s: State, clock: Time) { forall id :: id in s.rows ==> AgedJob(s.rows[id].job, clock) }

  predicate ClaimsBy(op: Op, clock: Time) { op.OpClaim? ==> op.claim.now <= clock }

  lemma AgingOnlyLowers(job: Job, early: Time, late: Time)
    requires early <= late
    ensures AgedPriority(job, early) >= AgedPriority(job, late)
  {
    var a := if early - job.createdAt < 0 then 0 else early - job.createdAt;
    var b := if late - job.createdAt < 0 then 0 else late - job.createdAt;
    assert a <= b;
    assert a / AGING_STEP_MS <= b / AGING_STEP_MS;
  }

  lemma AgeKeepsAgedBy(s: State, input: ClaimInput, clock: Time)
    requires AgedBy(s, clock) && input.now <= clock
    ensures AgedBy(Age(s, input), clock)
  {
    forall id | id in s.rows ensures AgedJob(Age(s, input).rows[id].job, clock) {
      var job := s.rows[id].job;
      AgingOnlyLowers(job, input.now, clock);
      assert AgedPriority(FullyAged(job, input.now), clock) == AgedPriority(job, clock);
    }
  }

  lemma RecoverKeepsAgedBy(s: State, lane: Lane, now: Time, clock: Time)
    requires AgedBy(s, clock)
    ensures AgedBy(Recover(s, lane, now).state, clock)
  {
  }

  lemma SweptKeepsAgedBy(s: State, input: ClaimInput, clock: Time)
    requires AgedBy(s, clock)
    ensures AgedBy(Swept(s, input), clock)
  {
    RecoverKeepsAgedBy(s, input.lane, input.now, clock);
    var recovered := Recover(s, input.lane, input.now).state;
    forall id | id in recovered.rows ensures AgedJob(Swept(s, input).rows[id].job, clock) {
      assert AgedJob(recovered.rows[id].job, clock);
    }
  }

  lemma ClaimKeepsAgedBy(s: State, input: ClaimInput, clock: Time)
    requires AgedBy(s, clock) && input.now <= clock
    ensures AgedBy(Claim(s, input).state, clock)
  {
    SweptKeepsAgedBy(s, input, clock);
    var swept := Swept(s, input);
    if input.supported != {} && !LaneClosed(swept, input) {
      AgeKeepsAgedBy(swept.(leases := swept.leases - {input.lane}), input, clock);
      var ranks := ClaimRanks(Prepared(s, input), input);
      if ranks != map[] {
        OpenLaneClaims(s, input);
        TakenKeepsAgedBy(Prepared(s, input), input, First(ranks), clock);
      }
    }
  }

  lemma TakenKeepsAgedBy(s: State, input: ClaimInput, id: JobId, clock: Time)
    requires AgedBy(s, clock) && id in s.rows
    ensures AgedBy(Taken(s, input, id).state, clock)
  {
  }

  lemma HolderKeepsAgedBy(s: State, op: Op, clock: Time)
    requires AgedBy(s, clock) && Permitted(s, op)
    requires op.OpHeartbeat? || op.OpProgress? || op.OpMutation?
    ensures AgedBy(Step(s, op), clock)
  {
  }

  lemma NewRowKeepsAgedBy(s: State, id: JobId, input: NewJob, now: Time, clock: Time)
    requires AgedBy(s, clock) && InBand(input.triggerSource, input.priority)
    ensures AgedBy(WithRow(s, id, FreshRow(input, now)), clock)
  {
    assert AgedJob(FreshRow(input, now).job, clock);
  }

  lemma CreationKeepsAgedBy(s: State, op: Op, clock: Time)
    requires AgedBy(s, clock) && Permitted(s, op) && (op.OpEnqueue? || op.OpEnqueueChild?)
    ensures AgedBy(Step(s, op), clock)
  {
    var input := op.input;
    var availableAt := if input.availableAt.Some? then input.availableAt.value else op.now;
    if op.OpEnqueue? {
      if InBand(input.triggerSource, input.priority) {
        var day := if input.triggerSource.SCHEDULE? then input.scheduledForDate else None;
        NewRowKeepsAgedBy(s, op.id, input.(availableAt := Some(availableAt), scheduledForDate := day), op.now, clock);
      }
    } else if InBand(SYSTEM, input.priority) {
      NewRowKeepsAgedBy(s, op.id, input.(triggerSource := SYSTEM, availableAt := Some(availableAt), scheduledForDate := None), op.now, clock);
    }
  }

  lemma TransitionKeepsAgedBy(s: State, fence: Fence, door: Door, intent: Intent, now: Time, clock: Time)
    requires AgedBy(s, clock)
    ensures AgedBy(Transition(s, fence, door, intent, now).state, clock)
  {
    if fence.jobId in s.rows {
      var job := s.rows[fence.jobId].job;
      assert AgedJob(Assigned(door, job, intent, now), clock);
    }
  }

  lemma ExecutionKeepsAgedBy(s: State, fence: Fence, steps: seq<CallbackStep>, t0: Time, t1: Time, t2: Time, clock: Time)
    requires AgedBy(s, clock)
    ensures AgedBy(FencedExecution(s, fence, steps, t0, t1, t2).state, clock)
  {
    var run := RunCallback(steps);
    if fence.jobId in s.rows && run.intent.Some? {
      assert AgedBy(WithWrites(s, fence, run.writes), clock);
      TransitionKeepsAgedBy(WithWrites(s, fence, run.writes), fence, TRANSACTION, run.intent.value, t2, clock);
    }
  }

  lemma OneRowKeepsAgedBy(s: State, id: JobId, row: Row, clock: Time)
    requires AgedBy(s, clock) && AgedJob(row.job, clock)
    ensures AgedBy(WithRow(s, id, row), clock)
  {
  }

  lemma CommandKeepsAgedBy(s: State, op: Op, clock: Time)
    requires AgedBy(s, clock) && Permitted(s, op)
    requires op.OpRequestCancellation? || op.OpCancel? || op.OpPause? || op.OpResume?
    ensures AgedBy(Step(s, op), clock)
  {
    hide AgedPriority, AgedJob;
    if op.id in s.rows {
      var job, later := s.rows[op.id].job, Step(s, op).rows[op.id].job;
      SamePriorities(job, later, clock);
      OneRowKeepsAgedBy(s, op.id, Step(s, op).rows[op.id], clock);
      assert Step(s, op).rows == s.rows[op.id := Step(s, op).rows[op.id]];
    }
  }

  lemma SamePriorities(job: Job, later: Job, clock: Time)
    requires AgedJob(job, clock) && later.triggerSource == job.triggerSource && later.createdAt == job.createdAt
    requires later.queuePriority == job.queuePriority && later.effectivePriority == job.effectivePriority
    ensures AgedJob(later, clock)
  {
  }

  lemma ChangePriorityKeepsAgedBy(s: State, id: JobId, priority: int, clock: Time)
    requires AgedBy(s, clock)
    ensures AgedBy(ChangePriority(s, id, priority).state, clock)
  {
  }

  lemma SkipExpiredKeepsAgedBy(s: State, now: Time, calendar: Calendar, clock: Time)
    requires AgedBy(s, clock)
    ensures AgedBy(SkipExpired(s, now, calendar), clock)
  {
    forall id | id in s.rows ensures AgedJob(SkipExpired(s, now, calendar).rows[id].job, clock) {
      assert AgedJob(s.rows[id].job, clock);
    }
  }

  lemma RetryKeepsAgedBy(s: State, id: JobId, retryId: JobId, accepted: bool, now: Time, clock: Time)
    requires RowsOk(s.rows) && AgedBy(s, clock) && retryId !in s.rows
    ensures AgedBy(RetryCommand(s, id, retryId, accepted, now).state, clock)
  {
    if RetryCommand(s, id, retryId, accepted, now).reply.Ok? {
      assert RowOk(s.rows[id]);
      var noted := WithRow(s, id, Noted(s.rows[id], JobRetryScheduled(RETRIED_AS(retryId))));
      NewRowKeepsAgedBy(noted, retryId, RetryOf(s.rows[id].job, now), now, clock);
    }
  }

  lemma StepKeepsAgedBy(s: State, op: Op, clock: Time)
    requires RowsOk(s.rows) && AgedBy(s, clock) && Permitted(s, op) && ClaimsBy(op, clock)
    ensures AgedBy(Step(s, op), clock)
  {
    match op
    case OpClaim(claim) => ClaimKeepsAgedBy(s, claim, clock);
    case OpRecover(lane, now) => RecoverKeepsAgedBy(s, lane, now, clock);
    case OpSettle(fence, intent, _, now) =>
      TransitionKeepsAgedBy(s, fence, SETTLEMENT, if intent.Retry? then intent.(preserveAttempt := false) else intent, now, clock);
    case OpExecution(fence, steps, t0, t1, t2) => ExecutionKeepsAgedBy(s, fence, steps, t0, t1, t2, clock);
    case OpHeartbeat(_, _, _) => HolderKeepsAgedBy(s, op, clock);
    case OpProgress(_, _, _) => HolderKeepsAgedBy(s, op, clock);
    case OpMutation(_, _, _, _, _) => HolderKeepsAgedBy(s, op, clock);
    case OpChangePriority(id, priority) => ChangePriorityKeepsAgedBy(s, id, priority, clock);
    case OpSkipExpired(now, calendar) => SkipExpiredKeepsAgedBy(s, now, calendar, clock);
    case OpRetry(id, retryId, accepted, now) => RetryKeepsAgedBy(s, id, retryId, accepted, now, clock);
    case OpEnqueue(_, _, _) => CreationKeepsAgedBy(s, op, clock);
    case OpEnqueueResolver(id, again, now) => NewRowKeepsAgedBy(s, id, ResolverJob(again, now), now, clock);
    case OpEnqueueChild(_, _, _, _) => CreationKeepsAgedBy(s, op, clock);
    case _ => CommandKeepsAgedBy(s, op, clock);
  }

  lemma {:induction false} RunKeepsAgedBy(s: State, ops: seq<Op>, clock: Time)
    requires Inv(s) && AgedBy(s, clock) && CanRun(s, ops) && (forall i :: 0 <= i < |ops| ==> ClaimsBy(ops[i], clock))
    ensures AgedBy(Run(s, ops), clock)
    decreases |ops|
  {
    if ops != [] {
      StepKeepsAgedBy(s, ops[0], clock);
      StepKeeps(s, ops[0]);
      RunKeepsAgedBy(Step(s, ops[0]), ops[1..], clock);
    }
  }

  // ----- the best 200 ------------------------------------------------------------------------------

  /** Everything in the top comes before everything else. */
  lemma TopComesFirst(ranks: map<JobId, Rank>, n: nat, inside: JobId, outside: JobId)
    requires OwnRanks(ranks) && inside in Top(ranks, n) && outside in ranks && outside !in Top(ranks, n)
    ensures Before(ranks[inside], ranks[outside])
  {
    if !Before(ranks[inside], ranks[outside]) {
      forall other | other in Ahead(ranks, outside) ensures other in Ahead(ranks, inside) {
        BeforeIsStrictOrder(ranks[other], ranks[outside], ranks[inside]);
      }
      SubsetIsSmaller(Ahead(ranks, outside), Ahead(ranks, inside));
    }
    BeforeIsStrictOrder(ranks[inside], ranks[outside], ranks[inside]);
  }

  lemma {:induction false} SubsetIsSmaller<T>(a: set<T>, b: set<T>)
    requires a <= b
    ensures |a| <= |b|
  {
    assert b == a + (b - a);
  }

  lemma SmallSetIsTop(ranks: map<JobId, Rank>, n: nat, id: JobId)
    requires |ranks| <= n && id in ranks
    ensures id in Top(ranks, n)
  {
    BeforeIsStrictOrder(ranks[id], ranks[id], ranks[id]);
    SubsetIsSmaller(Ahead(ranks, id), ranks.Keys - {id});
  }

  /** A candidate's stored rank after the bounded pass, its aged rank, and its rank under the plain rule. */
  predicate BoundedAt(aged: map<JobId, Rank>, stored: map<JobId, Rank>, full: map<JobId, Rank>, n: nat, id: JobId) {
    && id in aged && id in stored && id in full
    && full[id] == aged[id]
    && (stored[id] == aged[id] || (id !in Top(aged, n) && Before(aged[id], stored[id])))
  }

  ghost predicate Bounded(aged: map<JobId, Rank>, stored: map<JobId, Rank>, full: map<JobId, Rank>, n: nat) {
    && OwnRanks(aged) && OwnRanks(stored) && OwnRanks(full)
    && (forall id :: id in stored || id in full ==> BoundedAt(aged, stored, full, n, id))
  }

  /** The limit does not show: it covers everything, or something within it is a candidate. */
  predicate LimitHolds(aged: map<JobId, Rank>, stored: map<JobId, Rank>, n: nat) {
    |aged| <= n || exists id :: id in stored && id in Top(aged, n)
  }

  lemma BestIsInTop(aged: map<JobId, Rank>, stored: map<JobId, Rank>, full: map<JobId, Rank>, n: nat)
    requires Bounded(aged, stored, full, n) && stored != map[] && LimitHolds(aged, stored, n)
    ensures First(stored) in Top(aged, n)
  {
    var best := First(stored);
    assert BoundedAt(aged, stored, full, n, best);
    if |aged| <= n {
      SmallSetIsTop(aged, n, best);
    } else if best !in Top(aged, n) {
      var rival :| rival in stored && rival in Top(aged, n);
      assert BoundedAt(aged, stored, full, n, rival);
      TopComesFirst(aged, n, rival, best);
      BeforeIsStrictOrder(aged[rival], aged[best], stored[best]);
      BeforeIsStrictOrder(stored[rival], stored[best], stored[rival]);
    }
  }

  lemma BoundedPassPicksTheLeast(aged: map<JobId, Rank>, stored: map<JobId, Rank>, full: map<JobId, Rank>, n: nat)
    requires Bounded(aged, stored, full, n) && stored != map[] && LimitHolds(aged, stored, n)
    ensures full != map[] && First(stored) == First(full)
  {
    var best := First(stored);
    BestIsInTop(aged, stored, full, n);
    assert BoundedAt(aged, stored, full, n, best);
    forall other | other in full && other != best ensures Before(full[best], full[other]) {
      assert BoundedAt(aged, stored, full, n, other);
      if other !in Top(aged, n) { TopComesFirst(aged, n, best, other); }
    }
    FirstIsUnique(full);
  }

  // ----- the refinement -------------------------------------------------------------------------

  /** Aging changes nobody's claimability, whether it reaches a job or not. */
  lemma SameCandidates(job: Job, id: JobId, input: ClaimInput)
    requires BandOk(job)
    ensures Claimable(id, job, input) <==> Claimable(id, FullyAged(job, input.now), input)
    ensures Claimable(id, job, input) ==> AgingEligible(job, input)
  {
    AgingStaysInBand(job, input.now);
  }

  predicate LimitDoesNotBite(s: State, input: ClaimInput) {
    LimitHolds(AgingRanks(s, input), ClaimRanks(Age(s, input), input), AGING_LIMIT)
  }

  lemma AgingPassIsBounded(s: State, input: ClaimInput)
    requires input.lane.BACKGROUND_WRITER? && RowsOk(s.rows) && AgedBy(s, input.now)
    ensures Bounded(AgingRanks(s, input), ClaimRanks(Age(s, input), input), FullRanks(s, input), AGING_LIMIT)
  {
    var aged, stored, full := AgingRanks(s, input), ClaimRanks(Age(s, input), input), FullRanks(s, input);
    forall id | id in stored || id in full ensures BoundedAt(aged, stored, full, AGING_LIMIT, id) {
      CandidateIsBounded(s, input, id);
    }
  }

  lemma CandidateIsBounded(s: State, input: ClaimInput, id: JobId)
    requires input.lane.BACKGROUND_WRITER? && RowsOk(s.rows) && AgedBy(s, input.now) && id in s.rows
    ensures var aged, stored, full := AgingRanks(s, input), ClaimRanks(Age(s, input), input), FullRanks(s, input);
            id in stored || id in full ==> BoundedAt(aged, stored, full, AGING_LIMIT, id)
  {
    hide RowsOk, Claimable, AgedPriority, Before;
    RowBand(s, id);
    SameCandidates(s.rows[id].job, id, input);
    assert AgedJob(s.rows[id].job, input.now);
    if s.rows[id].job.lane.BACKGROUND_WRITER? { StoredIsNotEarlier(id, s.rows[id].job, input); }
  }

  /** A stored priority that is not ahead of the clock ranks no earlier than the aged one. */
  lemma StoredIsNotEarlier(id: JobId, job: Job, input: ClaimInput)
    requires job.lane.BACKGROUND_WRITER? && AgedJob(job, input.now)
    ensures var aged, stored := AgingRank(id, job, input.now), ClaimRank(id, job, input); stored == aged || Before(aged, stored)
  {
    hide AgedPriority;
  }

  lemma LeasesDoNotMatter(s: State, freed: State, input: ClaimInput)
    requires s.rows == freed.rows
    ensures ClaimRanks(Age(freed, input), input) == ClaimRanks(Age(s, input), input)
  {
    assert AgingRanks(freed, input) == AgingRanks(s, input);
  }

  lemma SweptTables(ops: seq<Op>, input: ClaimInput)
    requires CanRun(EMPTY, ops) && (forall i :: 0 <= i < |ops| ==> ClaimsBy(ops[i], input.now))
    ensures var swept := Swept(Run(EMPTY, ops), input); RowsOk(swept.rows) && AgedBy(swept, input.now)
  {
    ReachableOk(ops);
    RunKeepsAgedBy(EMPTY, ops, input.now);
    SweptOk(Run(EMPTY, ops), input);
    SweptKeepsAgedBy(Run(EMPTY, ops), input, input.now);
  }

  /** In any run whose earlier claims read no later clock, a claim on the writer lane takes the job that the
      plain rule picks from the swept tables, as long as the limit does not bite. */
  lemma ClaimTakesTheLeast(ops: seq<Op>, input: ClaimInput)
    requires CanRun(EMPTY, ops) && (forall i :: 0 <= i < |ops| ==> ClaimsBy(ops[i], input.now))
    requires input.lane.BACKGROUND_WRITER?
    requires Claim(Run(EMPTY, ops), input).reply.Ok? && Claim(Run(EMPTY, ops), input).reply.value.Some?
    requires LimitDoesNotBite(Swept(Run(EMPTY, ops), input), input)
    ensures var swept := Swept(Run(EMPTY, ops), input);
            && FullRanks(swept, input) != map[]
            && Claim(Run(EMPTY, ops), input).reply.value.value.jobId == First(FullRanks(swept, input))
  {
    hide *;
    var s, swept := Run(EMPTY, ops), Swept(Run(EMPTY, ops), input);
    SweptTables(ops, input);
    ClaimedComesFirst(s, input);
    PreparedRanks(s, input);
    LimitMeans(swept, input);
    AgingPassIsBounded(swept, input);
    BoundedPassPicksTheLeast(AgingRanks(swept, input), ClaimRanks(Age(swept, input), input), FullRanks(swept, input), AGING_LIMIT);
  }

  lemma ClaimedComesFirst(s: State, input: ClaimInput)
    requires Claim(s, input).reply.Ok? && Claim(s, input).reply.value.Some?
    ensures ClaimRanks(Prepared(s, input), input) != map[]
    ensures Claim(s, input).reply.value.value.jobId == First(ClaimRanks(Prepared(s, input), input))
  {
    hide Prepared, Swept, LaneClosed, ClaimRanks, First;
  }

  lemma PreparedRanks(s: State, input: ClaimInput)
    ensures ClaimRanks(Prepared(s, input), input) == ClaimRanks(Age(Swept(s, input), input), input)
  {
    hide Swept, ClaimRanks, Age;
    var swept := Swept(s, input);
    LeasesDoNotMatter(swept, swept.(leases := swept.leases - {input.lane}), input);
  }

  lemma LimitMeans(s: State, input: ClaimInput)
    requires LimitDoesNotBite(s, input)
    ensures LimitHolds(AgingRanks(s, input), ClaimRanks(Age(s, input), input), AGING_LIMIT)
  {
    hide LimitHolds, ClaimRanks, Age, AgingRanks;
  }

  // ----- where the limit bites -------------------------------------------------------------------------

  /** Stored or aged, the candidates are the same. */
  lemma SameCandidateSets(s: State, input: ClaimInput)
    requires RowsOk(s.rows)
    ensures ClaimRanks(s, input).Keys == FullRanks(s, input).Keys
  {
    hide RowsOk, Claimable, AgedPriority;
    forall id | id in s.rows ensures id in ClaimRanks(s, input) <==> id in FullRanks(s, input) {
      RowBand(s, id);
      SameCandidates(s.rows[id].job, id, input);
    }
  }

  lemma BittenJob(s: State, input: ClaimInput, id: JobId)
    requires RowsOk(s.rows) && !LimitDoesNotBite(s, input) && id in s.rows
    ensures id in ClaimRanks(Age(s, input), input) <==> id in ClaimRanks(s, input)
    ensures id in ClaimRanks(s, input) ==> ClaimRanks(Age(s, input), input)[id] == ClaimRanks(s, input)[id]
  {
    hide RowsOk, Claimable, AgedPriority, Top, AgingRanks;
    RowBand(s, id);
    SameCandidates(s.rows[id].job, id, input);
  }

  /** When the limit bites, aging reaches no candidate, and the claim goes by the priorities stored before the pass. */
  lemma BittenRanksAreStored(s: State, input: ClaimInput)
    requires RowsOk(s.rows) && !LimitDoesNotBite(s, input)
    ensures ClaimRanks(Age(s, input), input) == ClaimRanks(s, input)
  {
    hide RowsOk, LimitDoesNotBite, Claimable, AgedPriority, Top, AgingRanks;
    forall id | id in s.rows
      ensures id in ClaimRanks(Age(s, input), input) <==> id in ClaimRanks(s, input)
      ensures id in ClaimRanks(s, input) ==> ClaimRanks(Age(s, input), input)[id] == ClaimRanks(s, input)[id]
    {
      BittenJob(s, input, id);
    }
  }

  /** In any run whose earlier claims read no later clock, a claim on the writer lane takes the job that the plain rule
      picks exactly when the limit does not bite, or the priorities stored before the pass already put that job first. */
  lemma AgreesExactly(ops: seq<Op>, input: ClaimInput)
    requires CanRun(EMPTY, ops) && (forall i :: 0 <= i < |ops| ==> ClaimsBy(ops[i], input.now))
    requires input.lane.BACKGROUND_WRITER?
    requires Claim(Run(EMPTY, ops), input).reply.Ok? && Claim(Run(EMPTY, ops), input).reply.value.Some?
    ensures var swept := Swept(Run(EMPTY, ops), input);
            && ClaimRanks(swept, input) != map[] && FullRanks(swept, input) != map[]
            && (Claim(Run(EMPTY, ops), input).reply.value.value.jobId == First(FullRanks(swept, input)) <==>
                  || LimitDoesNotBite(swept, input)
                  || First(ClaimRanks(swept, input)) == First(FullRanks(swept, input)))
  {
    hide *;
    var s, swept := Run(EMPTY, ops), Swept(Run(EMPTY, ops), input);
    SweptTables(ops, input);
    SameCandidateSets(swept, input);
    if LimitDoesNotBite(swept, input) {
      ClaimTakesTheLeast(ops, input);
    } else {
      ClaimedComesFirst(s, input);
      PreparedRanks(s, input);
      BittenRanksAreStored(swept, input);
    }
    SomeOfBoth(ClaimRanks(swept, input), FullRanks(swept, input));
  }

  lemma SomeOfBoth(a: map<JobId, Rank>, b: map<JobId, Rank>)
    requires a.Keys == b.Keys
    ensures a != map[] <==> b != map[]
  {
    if a != map[] { assert a.Keys != {}; }
    if b != map[] { assert b.Keys != {}; }
  }

  // ----- the plain rule in columns -----------------------------------------------------------------------

  /** The plain rule ranks exactly the candidates of the tables the claim was called on. */
  lemma PlainRuleRanks(s: State, input: ClaimInput, id: JobId)
    requires Inv(s) && id in s.rows && !LaneTaken(s, input.lane, input.now)
    ensures id in Swept(s, input).rows && (id in FullRanks(Swept(s, input), input) <==> Candidate(s, input, id))
  {
    hide *;
    var mid := SweptRow(s, input, id);
    PreparedRowIs(s, input, id);
    var due := Swept(s, input).rows[id];
    SweptIsOk(s, input);
    RowIsOk(Swept(s, input), id);
    BandOfRow(due, input.now);
    var aged := due.(job := FullyAged(due.job, input.now));
    AgedRow(due, aged, input.now);
    CandidateRow(s, input, id, mid, due, aged);
    FullRanksAre(Swept(s, input), input, id);
  }

  lemma SweptIsOk(s: State, input: ClaimInput)
    requires Inv(s)
    ensures Inv(Swept(s, input))
  {
    hide Inv, Swept;
    SweptOk(s, input);
  }

  lemma AgedRow(row: Row, aged: Row, now: Time)
    requires aged == row.(job := FullyAged(row.job, now)) && InBand(row.job.triggerSource, AgedPriority(row.job, now))
    ensures UpToPriority(row, aged) && InBand(row.job.triggerSource, aged.job.effectivePriority)
  {
  }

  lemma FullRanksAre(s: State, input: ClaimInput, id: JobId)
    requires id in s.rows
    ensures id in FullRanks(s, input) <==> Claimable(id, FullyAged(s.rows[id].job, input.now), input)
    ensures id in FullRanks(s, input) ==> FullRanks(s, input)[id] == AgingRank(id, s.rows[id].job, input.now)
  {
    hide Claimable, AgingRank;
  }

  /** The job claimed comes before every other candidate by what waiting has made of the priorities, then by availability,
      creation and id, as they are once the lane was recovered, if the limit does not bite. */
  lemma LeastInColumns(ops: seq<Op>, input: ClaimInput, other: JobId, p: int, q: int)
    requires CanRun(EMPTY, ops) && (forall i :: 0 <= i < |ops| ==> ClaimsBy(ops[i], input.now))
    requires input.lane.BACKGROUND_WRITER?
    requires Claim(Run(EMPTY, ops), input).reply.Ok? && Claim(Run(EMPTY, ops), input).reply.value.Some?
    requires LimitDoesNotBite(Swept(Run(EMPTY, ops), input), input)
    requires Candidate(Run(EMPTY, ops), input, other) && other != Claim(Run(EMPTY, ops), input).reply.value.value.jobId
    ensures var swept, id := Swept(Run(EMPTY, ops), input), Claim(Run(EMPTY, ops), input).reply.value.value.jobId;
            && id in swept.rows && other in swept.rows
            && (AgedTo(swept.rows[id].job, input.now, p) && AgedTo(swept.rows[other].job, input.now, q) ==>
                  Earlier(swept.rows[id].job, p, id, swept.rows[other].job, q, other))
  {
    hide *;
    var s, swept := Run(EMPTY, ops), Swept(Run(EMPTY, ops), input);
    var id := Claim(s, input).reply.value.value.jobId;
    ReachableOk(ops);
    ClaimKeepsPromise(s, input);
    ClaimedOpenLane(s, input, Claim(s, input));
    ClaimTakesTheLeast(ops, input);
    CandidateIsThere(s, input, other);
    PlainRuleRanks(s, input, id);
    PlainRuleRanks(s, input, other);
    FullRanksAre(swept, input, id);
    FullRanksAre(swept, input, other);
    FirstIsBefore(FullRanks(swept, input), other);
    AgingOrderIs(swept.rows[id].job, id, swept.rows[other].job, other, input.now);
    AgingIsOneStepPerHalfHour(swept.rows[id].job, input.now, p);
    AgingIsOneStepPerHalfHour(swept.rows[other].job, input.now, q);
  }

  lemma ClaimedOpenLane(s: State, input: ClaimInput, out: Outcome<Option<Claimed>>)
    requires ClaimPromise(s, input, out) && out.reply.Ok? && out.reply.value.Some?
    ensures !LaneTaken(s, input.lane, input.now) && out.reply.value.value.jobId in s.rows
  {
    hide LaneTaken, Due, Overdue;
  }

  lemma FirstIsBefore(ranks: map<JobId, Rank>, other: JobId)
    requires ranks != map[] && OwnRanks(ranks) && other in ranks && other != First(ranks)
    ensures First(ranks) in ranks && Before(ranks[First(ranks)], ranks[other])
  {
    hide Before;
  }

  /** Whether the limit bites, in columns: at most 200 jobs age, or one of the first 200 of them is a candidate. */
  lemma LimitInColumns(s: State, input: ClaimInput)
    requires Inv(s) && !LaneTaken(s, input.lane, input.now) && input.lane.BACKGROUND_WRITER?
    ensures var swept := Swept(s, input);
            LimitDoesNotBite(swept, input) <==>
              || |set id | id in swept.rows && Ages(swept.rows[id].job, input)| <= 200
              || exists id :: Candidate(s, input, id) && id in swept.rows && Ages(swept.rows[id].job, input) && |AgedAhead(swept, input, id)| < 200
  {
    hide Inv, Swept, Prepared, Candidate, Ages, AgedPriority, Earlier, Age, ClaimRanks;
    var swept := Swept(s, input);
    PreparedRanks(s, input);
    AgersAre(swept, input);
    PreparedTables(s, input);
    SweptKeys(s, input);
    forall id | id in s.rows
      ensures id in ClaimRanks(Age(swept, input), input) <==> Candidate(s, input, id)
    {
      CandidatesExactly(s, input, id);
    }
    forall id | Candidate(s, input, id) ensures id in s.rows { CandidateIsThere(s, input, id); }
    assert ClaimRanks(Age(swept, input), input).Keys <= s.rows.Keys by { RanksKeys(Prepared(s, input), input); }
    forall id | id in swept.rows
      ensures id in Top(AgingRanks(swept, input), AGING_LIMIT) <==> Ages(swept.rows[id].job, input) && |AgedAhead(swept, input, id)| < 200
    {
      AgesExactly(swept.rows[id].job, input);
      if Ages(swept.rows[id].job, input) { AheadIs(swept, input, id); }
    }
  }

  lemma RanksKeys(s: State, input: ClaimInput)
    ensures ClaimRanks(s, input).Keys <= s.rows.Keys
  {
    hide Claimable;
  }

  lemma AgersAre(s: State, input: ClaimInput)
    ensures AgingRanks(s, input).Keys == set id | id in s.rows && Ages(s.rows[id].job, input)
    ensures |AgingRanks(s, input)| == |set id | id in s.rows && Ages(s.rows[id].job, input)|
  {
    hide Ages, AgingEligible;
    forall id | id in s.rows ensures AgingEligible(s.rows[id].job, input) <==> Ages(s.rows[id].job, input) {
      AgesExactly(s.rows[id].job, input);
    }
    assert |AgingRanks(s, input)| == |AgingRanks(s, input).Keys|;
  }

  // ----- changing a priority ---------------------------------------------------------------------------

  /** A job whose priority number is lowered stays a candidate and stays ahead of every job it was ahead of. */
  lemma PromotionOnlyHelps(s: State, id: JobId, priority: int, input: ClaimInput)
    requires RowsOk(s.rows) && ChangePriority(s, id, priority).reply.Ok? && priority <= s.rows[id].job.queuePriority
    ensures var full, later := FullRanks(s, input), FullRanks(ChangePriority(s, id, priority).state, input);
            && later.Keys == full.Keys
            && (forall other :: other in full && other != id ==> later[other] == full[other])
            && (forall other :: id in full && other in full && other != id && Before(full[id], full[other])
                  ==> Before(later[id], later[other]))
  {
    hide RowsOk, RowOk, Before, AgingRank, Claimable;
    var later := ChangePriority(s, id, priority).state;
    RowBand(s, id);
    PromotedJob(s.rows[id].job, later.rows[id].job, id, priority, input);
    forall rank | Before(AgingRank(id, s.rows[id].job, input.now), rank)
      ensures Before(AgingRank(id, later.rows[id].job, input.now), rank)
    {
      LowerIsEarlier(AgingRank(id, s.rows[id].job, input.now), AgingRank(id, later.rows[id].job, input.now), rank);
    }
  }

  lemma RowBand(s: State, id: JobId)
    requires RowsOk(s.rows) && id in s.rows
    ensures BandOk(s.rows[id].job)
  {
    assert RowOk(s.rows[id]);
  }

  lemma LowerIsEarlier(rank: Rank, lower: Rank, other: Rank)
    requires lower == rank.(priority := lower.priority) && lower.priority <= rank.priority && Before(rank, other)
    ensures Before(lower, other)
  {
  }

  lemma PromotedJob(job: Job, later: Job, id: JobId, priority: int, input: ClaimInput)
    requires BandOk(job) && InBand(job.triggerSource, priority) && priority <= job.queuePriority
    requires later == job.(queuePriority := priority, effectivePriority := priority)
    ensures Claimable(id, FullyAged(later, input.now), input) <==> Claimable(id, FullyAged(job, input.now), input)
    ensures var rank, lower := AgingRank(id, job, input.now), AgingRank(id, later, input.now);
            lower == rank.(priority := lower.priority) && lower.priority <= rank.priority
  {
    AgingStaysInBand(job, input.now);
    AgingStaysInBand(later, input.now);
  }

  /** So the job that the plain rule picks is still picked after its promotion. */
  lemma PromotedStaysFirst(s: State, id: JobId, priority: int, input: ClaimInput)
    requires RowsOk(s.rows) && ChangePriority(s, id, priority).reply.Ok? && priority <= s.rows[id].job.queuePriority
    requires FullRanks(s, input) != map[] && First(FullRanks(s, input)) == id
    ensures var later := FullRanks(ChangePriority(s, id, priority).state, input); later != map[] && First(later) == id
  {
    hide RowsOk, ChangePriority, FullRanks, Before;
    var later := FullRanks(ChangePriority(s, id, priority).state, input);
    PromotionOnlyHelps(s, id, priority, input);
    assert id in later.Keys;
    assert IsFirst(later, id);
    FirstIsUnique(later);
  }

  // ----- where the limit does bite ------------------------------------------------------------------

  const LATE := 36_000_000

  function Blocked(): Job {
    Job(JobKind(ARCHIVE_IMPORT, 1), BACKGROUND_WRITER, PENDING, MANUAL, 0, 3, 0, 0, Some(0), None, None, 0,
        None, None, None, None, None, None)
  }

  function Old(): Job { Blocked().(kind := JobKind(WRITER_JOB("SCAN"), 1), queuePriority := 50, effectivePriority := 50) }

  function Young(): Job { Old().(queuePriority := 40, effectivePriority := 40, createdAt := LATE, availableAt := Some(LATE)) }

  function CrowdedJob(n: nat, id: JobId): Job { if id < n then Blocked() else if id == n then Old() else Young() }

  function CrowdedRow(n: nat, id: JobId): Row { Row(CrowdedJob(n, id), [JobQueued(ENQUEUED)], [], [], 3) }

  function UpTo(n: nat): (ids: set<JobId>)
    ensures |ids| == n
    ensures forall id: JobId :: id in ids <==> id < n
  {
    if n == 0 then {} else
    var rest := UpTo(n - 1);
    assert n - 1 !in rest;
    rest + {n - 1}
  }

  function CrowdedTo(n: nat, k: nat): State { State(map id | id in UpTo(k) :: CrowdedRow(n, id), map[]) }

  /** `n` imports that wait for their cleanup, one old job and one young one. */
  function Crowded(n: nat): State { CrowdedTo(n, n + 2) }

  function CrowdedEnqueue(n: nat, id: JobId): Op {
    var job := CrowdedJob(n, id);
    OpEnqueue(id, NewJob(job.kind, MANUAL, job.queuePriority, 3, None, None, None), job.createdAt)
  }

  function CrowdedOps(n: nat, k: nat): seq<Op> {
    if k == 0 then [] else CrowdedOps(n, k - 1) + [CrowdedEnqueue(n, k - 1)]
  }

  lemma CrowdedStep(n: nat, k: nat)
    ensures Permitted(CrowdedTo(n, k), CrowdedEnqueue(n, k))
    ensures Step(CrowdedTo(n, k), CrowdedEnqueue(n, k)) == CrowdedTo(n, k + 1)
  {
    hide UpTo, CrowdedRow, FreshRow;
    CrowdedRowIsFresh(n, k);
    var s, later := CrowdedTo(n, k), CrowdedTo(n, k + 1);
    assert later.rows == s.rows[k := CrowdedRow(n, k)];
  }

  lemma CrowdedRowIsFresh(n: nat, id: JobId)
    ensures var job := CrowdedJob(n, id);
            FreshRow(NewJob(job.kind, MANUAL, job.queuePriority, 3, Some(job.createdAt), None, None), job.createdAt) == CrowdedRow(n, id)
  {
  }

  /** The crowd is what that many enqueue commands leave. */
  lemma {:induction false} CrowdedIsReached(n: nat, k: nat)
    ensures CanRun(EMPTY, CrowdedOps(n, k)) && Run(EMPTY, CrowdedOps(n, k)) == CrowdedTo(n, k)
  {
    hide Step, Permitted, CrowdedEnqueue, CrowdedRow;
    if k > 0 {
      CrowdedIsReached(n, k - 1);
      CrowdedStep(n, k - 1);
      RunThenStep(EMPTY, CrowdedOps(n, k - 1), CrowdedEnqueue(n, k - 1));
    }
  }

  function CrowdedClaim(n: nat): ClaimInput {
    ClaimInput(BACKGROUND_WRITER, "worker", {JobKind(ARCHIVE_IMPORT, 1), JobKind(WRITER_JOB("SCAN"), 1)}, LATE,
               Calendar(0, false, false), false, UpTo(n), map[], 0, 60_000)
  }

  function CrowdedRank(n: nat, id: JobId): Rank {
    if id < n then Rank(None, 0, Some(0), 0, id)
    else if id == n then Rank(None, 30, Some(0), 0, id)
    else Rank(None, 40, Some(LATE), LATE, id)
  }

  lemma CrowdedRanks(n: nat, id: JobId)
    requires id in Crowded(n).rows
    ensures var job := Crowded(n).rows[id].job;
            AgingEligible(job, CrowdedClaim(n)) && AgingRank(id, job, LATE) == CrowdedRank(n, id)
  {
  }

  /** The aged ranks of the crowd: the blocked imports come first. */
  lemma CrowdedAging(n: nat)
    requires n >= AGING_LIMIT
    ensures var aged := AgingRanks(Crowded(n), CrowdedClaim(n));
            && aged.Keys == UpTo(n + 2)
            && (forall id :: id in aged ==> aged[id] == CrowdedRank(n, id))
            && n !in Top(aged, AGING_LIMIT) && n + 1 !in Top(aged, AGING_LIMIT)
  {
    var aged := AgingRanks(Crowded(n), CrowdedClaim(n));
    forall id | id in UpTo(n + 2) ensures id in aged && aged[id] == CrowdedRank(n, id) { CrowdedRanks(n, id); }
    SubsetIsSmaller(UpTo(n), Ahead(aged, n));
    SubsetIsSmaller(UpTo(n), Ahead(aged, n + 1));
  }

  /** Only the old and the young job are candidates. */
  lemma CrowdedClaimable(n: nat, id: JobId, priority: int)
    requires id in Crowded(n).rows && (id >= n ==> 0 <= priority <= 99)
    ensures Claimable(id, Crowded(n).rows[id].job.(effectivePriority := priority), CrowdedClaim(n)) <==> id >= n
  {
  }

  lemma FirstOfTwo(ranks: map<JobId, Rank>, a: JobId, b: JobId)
    requires (forall id :: id in ranks ==> id == a || id == b) && OwnRanks(ranks)
    requires a in ranks && b in ranks && Before(ranks[a], ranks[b])
    ensures ranks != map[] && First(ranks) == a
  {
    assert IsFirst(ranks, a);
    FirstIsUnique(ranks);
  }

  /** The plain rule takes the old job. */
  lemma CrowdedFull(n: nat)
    ensures var full := FullRanks(Crowded(n), CrowdedClaim(n)); full != map[] && First(full) == n
  {
    hide UpTo, Claimable;
    var s, input := Crowded(n), CrowdedClaim(n);
    var full := FullRanks(s, input);
    forall id | id in s.rows ensures id in full <==> id >= n {
      CrowdedRanks(n, id);
      CrowdedClaimable(n, id, CrowdedRank(n, id).priority);
    }
    assert n in UpTo(n + 2) && n + 1 in UpTo(n + 2);
    CrowdedRanks(n, n);
    CrowdedRanks(n, n + 1);
    FirstOfTwo(full, n, n + 1);
  }

  lemma CrowdedAged(n: nat, id: JobId)
    requires n >= AGING_LIMIT && id in Crowded(n).rows
    ensures var s := Crowded(n); var aged := Age(s, CrowdedClaim(n));
            && id in aged.rows
            && (id >= n ==> aged.rows[id] == s.rows[id])
            && aged.rows[id].job == s.rows[id].job.(effectivePriority := aged.rows[id].job.effectivePriority)
  {
    CrowdedAging(n);
  }

  lemma CrowdedStored(n: nat)
    requires n >= AGING_LIMIT
    ensures var stored := ClaimRanks(Age(Crowded(n), CrowdedClaim(n)), CrowdedClaim(n)); stored != map[] && First(stored) == n + 1
  {
    hide UpTo, Claimable, Top, AgingRanks, AgedPriority;
    var s, input := Crowded(n), CrowdedClaim(n);
    var aged := Age(s, input);
    var stored := ClaimRanks(aged, input);
    forall id | id in s.rows ensures id in stored <==> id >= n {
      CrowdedAged(n, id);
      CrowdedClaimable(n, id, aged.rows[id].job.effectivePriority);
    }
    assert n in UpTo(n + 2) && n + 1 in UpTo(n + 2);
    CrowdedAged(n, n);
    CrowdedAged(n, n + 1);
    FirstOfTwo(stored, n + 1, n);
  }

  /** Nothing of the crowd is recovered or skipped, and its lane is open. */
  lemma CrowdedSwept(n: nat)
    ensures Swept(Crowded(n), CrowdedClaim(n)) == Crowded(n)
    ensures !LaneClosed(Crowded(n), CrowdedClaim(n)) && FreshToken(Crowded(n), CrowdedClaim(n).token)
    ensures CrowdedClaim(n).supported != {} && CrowdedClaim(n).now == LATE
  {
    hide UpTo;
    var s, input := Crowded(n), CrowdedClaim(n);
    assert JobKind(ARCHIVE_IMPORT, 1) in input.supported;
    WaitingIsSwept(s, input);
  }

  /** Tables in which every job waits, is manual and has no lease are left alone by recovery and skipping. */
  lemma WaitingIsSwept(s: State, input: ClaimInput)
    requires s.leases == map[] && input.lane.BACKGROUND_WRITER?
    requires forall id :: id in s.rows ==> Waiting(s.rows[id].job.status) && s.rows[id].job.triggerSource.MANUAL?
    ensures Swept(s, input) == s && !LaneClosed(s, input)
  {
    assert ExecutingIn(s, input.lane) == {};
    assert SkipExpired(s, input.now, input.calendar).rows == s.rows;
  }

  /** With the limit's number of blocked jobs ahead of everything else, all of them put there by enqueue commands,
      the claim takes the young job although the old one has aged past it. */
  lemma LimitCanBite(n: nat)
    requires n >= AGING_LIMIT
    ensures exists ops :: CanRun(EMPTY, ops) && Run(EMPTY, ops) == Crowded(n)
    ensures FreshToken(Crowded(n), CrowdedClaim(n).token)
    ensures var full := FullRanks(Crowded(n), CrowdedClaim(n)); full != map[] && First(full) == n
    ensures var reply := Claim(Crowded(n), CrowdedClaim(n)).reply; reply.Ok? && reply.value.Some? && reply.value.value.jobId == n + 1
  {
    hide *;
    var s, input := Crowded(n), CrowdedClaim(n);
    CrowdedIsReached(n, n + 2);
    CrowdedIs(n);
    CrowdedFull(n);
    CrowdedStored(n);
    CrowdedSwept(n);
    PreparedRanks(s, input);
    OpenLaneTakesFirst(s, input);
  }

  lemma CrowdedIs(n: nat)
    ensures CrowdedTo(n, n + 2) == Crowded(n)
  {
  }

  lemma OpenLaneTakesFirst(s: State, input: ClaimInput)
    requires input.supported != {} && !LaneClosed(Swept(s, input), input) && ClaimRanks(Prepared(s, input), input) != map[]
    ensures var reply := Claim(s, input).reply;
            reply.Ok? && reply.value.Some? && reply.value.value.jobId == First(ClaimRanks(Prepared(s, input), input))
  {
    hide Prepared, Swept, LaneClosed;
    OpenLaneClaims(s, input);
  }

  // ----- the dispatch window -----------------------------------------------------------------------

  /** `DispatchWindowPolicy.canClaim` */
  predicate CanClaim(triggerSource: TriggerSource, priority: int, deadlineAt: Option<Time>, windowOpen: bool) {
    if (triggerSource.MANUAL? || (triggerSource.RETRY? && deadlineAt.None?)) && 0 <= priority <= 99 then true
    else if triggerSource.SYSTEM? && deadlineAt.None? && 100 <= priority <= 999 then true
    else !triggerSource.LEGACY? && 100 <= priority <= 999 && windowOpen
  }

  /** The policy admits what the SQL admits, and beyond it only MANUAL and RETRY jobs in the automatic band
      while the window is open. */
  lemma PolicyIsWeakerOnlyHere(job: Job, priority: int, windowOpen: bool)
    ensures CanClaim(job.triggerSource, priority, job.deadlineAt, windowOpen)
       <==> || WindowAdmits(job, priority, windowOpen)
            || (windowOpen && 100 <= priority <= 999 && (job.triggerSource.MANUAL? || job.triggerSource.RETRY?))
  {
  }

  /** Whatever a claim takes, the dispatch window policy lets through with the job's final priority. */
  lemma ClaimHonoursWindow(s: State, input: ClaimInput)
    requires Claim(s, input).reply.Ok? && Claim(s, input).reply.value.Some?
    ensures var id := Claim(s, input).reply.value.value.jobId;
            && id in Prepared(s, input).rows
            && var job := Prepared(s, input).rows[id].job;
               && CanClaim(job.triggerSource, job.effectivePriority, job.deadlineAt, input.calendar.windowOpen)
  {
    var prepared := Prepared(s, input);
    var id := First(ClaimRanks(prepared, input));
    PolicyIsWeakerOnlyHere(prepared.rows[id].job, prepared.rows[id].job.effectivePriority, input.calendar.windowOpen);
  }
}
