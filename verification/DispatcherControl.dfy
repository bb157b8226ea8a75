/** What the dispatcher makes of a control reading, and why the queue refuses a settlement. */
module DispatcherControl {
  import opened Prelude
  import opened QueueTables
  import opened QueueOperations
  import opened QueueSteps
  import opened QueueInvariant
  import opened QueueRowMoves
  import opened QueueStepsKeep
  import opened QueueTheorems
  import opened FenceHolding
  import opened DispatcherPort

  datatype Directive = CONTINUE | PAUSE | CANCEL

  function ExecutionDirective(control: Option<Control>): Directive {
    if control.None? then CONTINUE
    else if control.value.status.CANCELLING? || control.value.cancelRequestedAt.Some? then CANCEL
    else if control.value.status.PAUSING? || control.value.pauseRequestedAt.Some? then PAUSE
    else CONTINUE
  }

  function ControlledOutcome(control: Option<Control>, fallback: Settlement): Settlement {
    match ExecutionDirective(control)
    case CANCEL => Cancelled
    case PAUSE => Paused
    case CONTINUE => fallback
  }

  /** An executor that asks for a retry it has no attempts left for has failed. */
  function NormalizeRetry(attempt: int, maxAttempts: int, outcome: Settlement): Settlement {
    if !outcome.RetryLater? || attempt < maxAttempts then outcome else Failed
  }

  datatype InterruptionReason = LEASE_LOST | CANCEL_REQUESTED | PAUSE_REQUESTED | SHUTDOWN

  function OutcomeForInterruption(reason: InterruptionReason): Settlement {
    match reason
    case CANCEL_REQUESTED => Cancelled
    case PAUSE_REQUESTED => Paused
    case SHUTDOWN => Released
    case LEASE_LOST => Released
  }

  function Press(outcome: Settlement): nat { if outcome.Cancelled? then 2 else if outcome.Paused? then 1 else 0 }

  /** A control reading asks for exactly what the job's status is pressing for: the request columns never say more
      and never say less. */
  lemma ReadingIsUrgency(s: State, fence: Fence, now: Time, fallback: Settlement)
    requires Inv(s) && ReadControl(s, fence, now).Ok?
    ensures Owns(s, fence, now) && Holds(s, fence.jobId, fence.executionToken)
    ensures var urgency := Urgency(s.rows[fence.jobId].job.status);
            var outcome := ControlledOutcome(Some(ReadControl(s, fence, now).value), fallback);
            if urgency == 0 then outcome == fallback else Press(outcome) == urgency
  {
    var row := s.rows[fence.jobId];
    assert RowOk(row);
    JobReading(row.job);
  }

  lemma JobReading(job: Job)
    requires RequestColumnsOk(job) && Executing(job.status)
    ensures var directive := ExecutionDirective(Some(Control(job.status, job.cancelRequestedAt, job.pauseRequestedAt)));
            match Urgency(job.status) case 0 => directive == CONTINUE case 1 => directive == PAUSE case _ => directive == CANCEL
  {
  }

  // ----- one call keeps the tables in order ---------------------------------------------------------

  lemma SettleCallMoves(s: State, turn: Turn, fence: Fence, settlement: Settlement, calledAt: Time)
    ensures var later := SettleCall(s, turn, fence, settlement, calledAt).state;
            later == s || (IntentFor(settlement).Some?
              && later == Settle(s, fence, IntentFor(settlement).value, calledAt, calledAt + turn.elapsed).state)
  {
  }

  lemma SettleCallOk(s: State, turn: Turn, fence: Fence, settlement: Settlement, calledAt: Time, later: State)
    requires Inv(s) && later == SettleCall(s, turn, fence, settlement, calledAt).state
    ensures StepOk(s, later)
  {
    hide *;
    SettleCallMoves(s, turn, fence, settlement, calledAt);
    if later == s {
      UnchangedOk(s, later);
    } else {
      SettleOk(s, fence, IntentFor(settlement).value, calledAt, calledAt + turn.elapsed);
    }
  }

  /** A settlement refused over its fence was refused by the queue as it then stood. */
  lemma FenceErrorMeans(s: State, turn: Turn, fence: Fence, settlement: Settlement, calledAt: Time)
    requires SettleCall(s, turn, fence, settlement, calledAt).reply == Err(FENCE_ERROR)
    ensures IntentFor(settlement).Some? && SettleCall(s, turn, fence, settlement, calledAt).state == s
    ensures Settle(s, fence, IntentFor(settlement).value, calledAt, calledAt + turn.elapsed).reply == Err(FenceLost)
  {
  }

  lemma SettledMeans(s: State, turn: Turn, fence: Fence, settlement: Settlement, calledAt: Time)
    requires SettleCall(s, turn, fence, settlement, calledAt).reply.Ok?
    ensures IntentFor(settlement).Some?
    ensures Settle(s, fence, IntentFor(settlement).value, calledAt, calledAt + turn.elapsed)
         == Outcome(SettleCall(s, turn, fence, settlement, calledAt).state, Ok(()))
  {
  }

  /** With no fault on the way, the only other complaint is about a retry dated in the past. */
  lemma OtherErrorMeans(s: State, turn: Turn, fence: Fence, settlement: Settlement, calledAt: Time)
    requires turn.fault.HEALTHY?
    ensures SettleCall(s, turn, fence, settlement, calledAt).reply != Err(TRANSIENT_ERROR)
    ensures SettleCall(s, turn, fence, settlement, calledAt).reply == Err(OTHER_ERROR) ==>
              settlement.TransactionallyFinalized? || (settlement.RetryLater? && settlement.availableAt < calledAt)
  {
  }

  ghost predicate Faultless(world: nat -> Turn) { forall n: nat :: world(n).fault.HEALTHY? }

  lemma FaultlessMeans(world: nat -> Turn, n: nat)
    requires Faultless(world)
    ensures world(n).fault.HEALTHY?
  {
  }

  // ----- what stays true of a held job ------------------------------------------------------------

  /** The queue has no reason of its own to refuse this settlement: a pause was asked for, a retry is affordable. */
  predicate Fits(job: Job, outcome: Settlement) {
    && (outcome.Paused? ==> Urgency(job.status) >= 1)
    && (outcome.RetryLater? ==> job.attempt < job.maxAttempts)
  }

  predicate FitsWhileHeld(s: State, fence: Fence, outcome: Settlement) {
    Holds(s, fence.jobId, fence.executionToken) ==> Fits(s.rows[fence.jobId].job, outcome)
  }

  predicate PressedWhileHeld(s: State, fence: Fence, least: nat) {
    Holds(s, fence.jobId, fence.executionToken) ==> Urgency(s.rows[fence.jobId].job.status) >= least
  }

  lemma HeldFactsCarryOver(s: State, later: State, fence: Fence, outcome: Settlement, least: nat)
    requires Inv(s) && StepOk(s, later) && Issued(s, fence.jobId, fence.executionToken)
    ensures Issued(later, fence.jobId, fence.executionToken)
    ensures FitsWhileHeld(s, fence, outcome) ==> FitsWhileHeld(later, fence, outcome)
    ensures PressedWhileHeld(s, fence, least) ==> PressedWhileHeld(later, fence, least)
  {
    IssuedStays(s, later, fence.jobId, fence.executionToken);
    if Holds(later, fence.jobId, fence.executionToken) {
      HeldAllAlong(s, later, fence.jobId, fence.executionToken);
    }
  }

  /** A refusal that is not a lost fence is a control request the dispatcher had not seen yet: when others then
      leave the token alone and the fence still works, the next reading asks for a different outcome. */
  lemma RefusalIsARequest(s: State, ops: seq<Op>, fence: Fence, settlement: Settlement, calledAt: Time, now: Time, later: Time)
    requires Inv(s) && Issued(s, fence.jobId, fence.executionToken) && now <= later && FitsWhileHeld(s, fence, settlement)
    requires forall i :: 0 <= i < |ops| ==> !Carries(ops[i], fence.executionToken)
    requires IntentFor(settlement).Some?
    requires Settle(s, fence, IntentFor(settlement).value, calledAt, now).reply == Err(FenceLost)
    requires ReadControl(Perform(s, ops), fence, later).Ok?
    ensures var outcome := ControlledOutcome(Some(ReadControl(Perform(s, ops), fence, later).value), settlement);
            outcome != settlement && (outcome.Cancelled? || outcome.Paused?)
  {
    PerformKeeps(s, ops);
    ReadingIsUrgency(Perform(s, ops), fence, later, settlement);
    OwnedAllAlong(s, ops, fence, now, later);
    RefusedThoughOwned(s, fence, IntentFor(settlement).value, calledAt, now);
    RefusedByStatus(s.rows[fence.jobId].job, settlement);
  }

  lemma RefusedThoughOwned(s: State, fence: Fence, intent: Intent, calledAt: Time, now: Time)
    requires Inv(s) && Owns(s, fence, now) && Settle(s, fence, intent, calledAt, now).reply == Err(FenceLost)
    requires intent.Retry? ==> !intent.preserveAttempt
    ensures !Admits(SETTLEMENT, s.rows[fence.jobId].job, intent)
  {
    OwnedLease(s, fence, now);
  }

  lemma RefusedByStatus(job: Job, settlement: Settlement)
    requires Executing(job.status) && IntentFor(settlement).Some? && Fits(job, settlement)
    requires !Admits(SETTLEMENT, job, IntentFor(settlement).value)
    ensures Urgency(job.status) > Press(settlement)
  {
  }

  ghost predicate Undisturbed(world: nat -> Turn, token: Token) {
    forall n: nat, i :: 0 <= i < |world(n).before| ==> !Carries(world(n).before[i], token)
  }

  lemma {:induction false} OthersAreUndisturbed(world: nat -> Turn, token: Token, first: nat, last: nat)
    requires Undisturbed(world, token) && first <= last
    ensures forall i :: 0 <= i < |Others(world, first, last)| ==> !Carries(Others(world, first, last)[i], token)
    decreases last
  {
    if first < last { OthersAreUndisturbed(world, token, first, last - 1); }
  }

  // ----- one round of the settlement loop --------------------------------------------------------

  /** How far the loop has come: the tables it now sees follow from those it started on, the outcome it is about to
      try is its own or the one the last reading pressed for, and that pressure has not eased since. */
  ghost predicate OnCourse(start: State, s: State, fence: Fence, initial: Settlement, outcome: Settlement, urgency: nat) {
    && StepOk(start, s)
    && Issued(s, fence.jobId, fence.executionToken)
    && urgency <= 2
    && (if urgency == 0 then outcome == initial else Press(outcome) == urgency)
    && PressedWhileHeld(s, fence, urgency)
    && (FitsWhileHeld(start, fence, initial) ==> FitsWhileHeld(s, fence, outcome))
  }

  lemma StartsOnCourse(s: State, fence: Fence, initial: Settlement)
    requires Inv(s) && Issued(s, fence.jobId, fence.executionToken)
    ensures OnCourse(s, s, fence, initial, initial, 0)
  {
    UnchangedOk(s, s);
  }

  lemma CourseMeans(start: State, s: State, fence: Fence, initial: Settlement, outcome: Settlement, urgency: nat)
    requires OnCourse(start, s, fence, initial, outcome, urgency)
    ensures StepOk(start, s) && urgency <= 2 && (outcome == initial || outcome.Cancelled? || outcome.Paused?)
  {
  }

  lemma StaysOnCourse(start: State, s: State, later: State, fence: Fence, initial: Settlement, outcome: Settlement, urgency: nat)
    requires OnCourse(start, s, fence, initial, outcome, urgency) && StepOk(s, later)
    ensures OnCourse(start, later, fence, initial, outcome, urgency)
  {
    StepOkTransitive(start, s, later);
    HeldFactsCarryOver(s, later, fence, outcome, urgency);
  }

  lemma OthersStayOnCourse(start: State, s: State, ops: seq<Op>, fence: Fence, initial: Settlement, outcome: Settlement, urgency: nat)
    requires OnCourse(start, s, fence, initial, outcome, urgency)
    ensures OnCourse(start, Perform(s, ops), fence, initial, outcome, urgency)
  {
    PerformKeeps(s, ops);
    StaysOnCourse(start, s, Perform(s, ops), fence, initial, outcome, urgency);
  }

  lemma SettlingStaysOnCourse(start: State, s: State, turn: Turn, calledAt: Time, later: State,
                              fence: Fence, initial: Settlement, outcome: Settlement, urgency: nat)
    requires OnCourse(start, s, fence, initial, outcome, urgency)
    requires later == SettleCall(s, turn, fence, outcome, calledAt).state
    ensures OnCourse(start, later, fence, initial, outcome, urgency)
  {
    SettleCallOk(s, turn, fence, outcome, calledAt, later);
    StaysOnCourse(start, s, later, fence, initial, outcome, urgency);
  }

  lemma RoundOnCourse(start: State, s: State, turn: Turn, calledAt: Time, fence: Fence, initial: Settlement, outcome: Settlement, urgency: nat)
    requires OnCourse(start, s, fence, initial, outcome, urgency)
    ensures var seen := Perform(s, turn.before); var later := SettleCall(seen, turn, fence, outcome, calledAt).state;
            && OnCourse(start, later, fence, initial, outcome, urgency) && StepOk(start, seen) && StepOk(start, later)
            && OnCourse(start, seen, fence, initial, outcome, urgency)
  {
    hide *;
    var seen := Perform(s, turn.before);
    var later := SettleCall(seen, turn, fence, outcome, calledAt).state;
    OthersStayOnCourse(start, s, turn.before, fence, initial, outcome, urgency);
    SettlingStaysOnCourse(start, seen, turn, calledAt, later, fence, initial, outcome, urgency);
    CourseMeans(start, seen, fence, initial, outcome, urgency);
    CourseMeans(start, later, fence, initial, outcome, urgency);
  }

  /** A job of which nobody has made a request meets the outcome the loop began with. */
  predicate OwnUnlessPressed(seen: State, fence: Fence, initial: Settlement, outcome: Settlement) {
    fence.jobId in seen.rows && (seen.rows[fence.jobId].job.status == RUNNING ==> outcome == initial)
  }

  /** A settlement that meets a job nobody has made a request of is the loop's own. */
  lemma UnpressedIsInitial(start: State, seen: State, fence: Fence, initial: Settlement, outcome: Settlement, urgency: nat,
                           calledAt: Time, now: Time)
    requires OnCourse(start, seen, fence, initial, outcome, urgency) && IntentFor(outcome).Some?
    requires Settle(seen, fence, IntentFor(outcome).value, calledAt, now).reply.Ok?
    ensures OwnUnlessPressed(seen, fence, initial, outcome)
  {
    hide StepOk, Transition, LiveLeasesNaming;
  }

  /** And if so, no request had been read either. */
  lemma UnpressedIsUnchanged(before: State, seen: State, fence: Fence, at: Time, outcome: Settlement, intent: Intent, calledAt: Time, now: Time)
    requires Inv(before) && StepOk(before, seen) && Issued(before, fence.jobId, fence.executionToken)
    requires ReadControl(before, fence, at).Ok? && Settle(seen, fence, intent, calledAt, now).reply.Ok?
    ensures OwnUnlessPressed(seen, fence, outcome, ControlledOutcome(Some(ReadControl(before, fence, at).value), outcome))
  {
    hide Inv, StepOk, ControlledOutcome, ReadControl, Transition, LiveLeasesNaming;
    ReadingIsUrgency(before, fence, at, outcome);
    HeldAllAlong(before, seen, fence.jobId, fence.executionToken);
  }

  /** Taking up what a reading asks for keeps the course and raises the urgency, so it happens at most twice. */
  lemma ReplacingStaysOnCourse(start: State, s: State, now: Time, fence: Fence, initial: Settlement, outcome: Settlement, urgency: nat)
    requires OnCourse(start, s, fence, initial, outcome, urgency) && ReadControl(s, fence, now).Ok?
    ensures var replacement := ControlledOutcome(Some(ReadControl(s, fence, now).value), outcome);
            replacement != outcome && (replacement.Cancelled? || replacement.Paused?) ==>
              Press(replacement) > urgency && OnCourse(start, s, fence, initial, replacement, Press(replacement))
  {
    ReadingIsUrgency(s, fence, now, outcome);
  }

  lemma RefusalOnCourse(start: State, s: State, turn: Turn, ops: seq<Op>, later: Time,
                        fence: Fence, initial: Settlement, outcome: Settlement, urgency: nat, calledAt: Time)
    requires OnCourse(start, s, fence, initial, outcome, urgency) && FitsWhileHeld(start, fence, initial)
    requires SettleCall(s, turn, fence, outcome, calledAt) == Answer(s, Err(FENCE_ERROR)) && calledAt + turn.elapsed <= later
    requires forall i :: 0 <= i < |ops| ==> !Carries(ops[i], fence.executionToken)
    requires ReadControl(Perform(s, ops), fence, later).Ok?
    ensures var replacement := ControlledOutcome(Some(ReadControl(Perform(s, ops), fence, later).value), outcome);
            replacement != outcome && (replacement.Cancelled? || replacement.Paused?)
  {
    FenceErrorMeans(s, turn, fence, outcome, calledAt);
    RefusalIsARequest(s, ops, fence, outcome, calledAt, calledAt + turn.elapsed, later);
  }

  // ----- a pause nobody asked for ------------------------------------------------------------------

  predicate Plain(turn: Turn) { turn.before == [] && turn.fault.HEALTHY? }

  /** The executor has paused on its own: the job is held and RUNNING, and nothing else happens meanwhile. */
  ghost predicate UnpromptedPause(s: State, first: Turn, second: Turn, clock: Time, fence: Fence, outcome: Settlement) {
    && outcome.Paused? && Plain(first) && Plain(second)
    && Owns(s, fence, clock + first.elapsed + second.elapsed)
    && s.rows[fence.jobId].job.status.RUNNING?
  }

  lemma UnpromptedPauseIsRefused(s: State, first: Turn, second: Turn, clock: Time, fence: Fence, outcome: Settlement)
    requires Inv(s) && UnpromptedPause(s, first, second, clock, fence, outcome)
    ensures Perform(s, first.before) == s && Perform(s, second.before) == s
    ensures SettleCall(s, first, fence, outcome, clock) == Answer(s, Err(FENCE_ERROR))
    ensures ReadControl(s, fence, clock + first.elapsed + second.elapsed).Ok?
    ensures ControlledOutcome(Some(ReadControl(s, fence, clock + first.elapsed + second.elapsed).value), outcome) == outcome
  {
    ReadingIsUrgency(s, fence, clock + first.elapsed + second.elapsed, outcome);
  }

  // ----- from the executor's answer to the settlement ------------------------------------------------

  /** The numbers a worker was given with its claim are still those of the job, while it holds it. */
  predicate BudgetAsClaimed(s: State, claimed: Claimed) {
    Holds(s, claimed.jobId, claimed.executionToken) ==>
      && s.rows[claimed.jobId].job.attempt == claimed.attempt
      && s.rows[claimed.jobId].job.maxAttempts == claimed.maxAttempts
  }

  /** From a claim on, whatever others do, the job is as the dispatcher takes it to be when the executor is done. */
  lemma ClaimedAsExecuted(s: State, input: ClaimInput, ops: seq<Op>)
    requires Inv(s) && FreshToken(s, input.token)
    requires Claim(s, input).reply.Ok? && Claim(s, input).reply.value.Some?
    ensures var claimed, later := Claim(s, input).reply.value.value, Perform(Claim(s, input).state, ops);
            && Inv(later)
            && Issued(later, claimed.jobId, claimed.executionToken)
            && BudgetAsClaimed(later, claimed)
  {
    hide *;
    var claimed, after := Claim(s, input).reply.value.value, Claim(s, input).state;
    ClaimGivesFence(s, input, claimed.leaseExpiresAt - 1);
    ClaimOk(s, input);
    StepOkMeans(s, after);
    PerformKeeps(after, ops);
    StepOkMeans(after, Perform(after, ops));
    BudgetCarriesOver(after, Perform(after, ops), claimed, claimed.leaseExpiresAt - 1);
  }

  lemma BudgetCarriesOver(s: State, later: State, claimed: Claimed, now: Time)
    requires Inv(s) && StepOk(s, later) && Issued(s, claimed.jobId, claimed.executionToken)
    requires Owns(s, FenceOf(claimed), now) && s.rows[claimed.jobId].job.maxAttempts == claimed.maxAttempts
    ensures Issued(later, claimed.jobId, claimed.executionToken) && BudgetAsClaimed(later, claimed)
  {
    hide Inv, StepOk;
    IssuedStays(s, later, claimed.jobId, claimed.executionToken);
    if Holds(later, claimed.jobId, claimed.executionToken) {
      HeldAllAlong(s, later, claimed.jobId, claimed.executionToken);
    }
  }

  /** After the final control reading the queue has no reason of its own to refuse: a pause is only sent when one
      was asked for, a retry only when an attempt is left. */
  lemma FinalControlFits(s: State, later: State, now: Time, claimed: Claimed, outcome: Settlement)
    requires Inv(s) && StepOk(s, later) && Issued(s, claimed.jobId, claimed.executionToken) && BudgetAsClaimed(s, claimed)
    requires ReadControl(later, FenceOf(claimed), now).Ok?
    requires outcome.Paused? ==> PressedWhileHeld(s, FenceOf(claimed), 1)
    ensures Issued(later, claimed.jobId, claimed.executionToken)
    ensures FitsWhileHeld(later, FenceOf(claimed),
              ControlledOutcome(Some(ReadControl(later, FenceOf(claimed), now).value),
                                NormalizeRetry(claimed.attempt, claimed.maxAttempts, outcome)))
  {
    hide Inv, StepOk, ReadControl, Owns, ControlledOutcome;
    IssuedStays(s, later, claimed.jobId, claimed.executionToken);
    StepOkMeans(s, later);
    ReadingIsUrgency(later, FenceOf(claimed), now, NormalizeRetry(claimed.attempt, claimed.maxAttempts, outcome));
    HeldAllAlong(s, later, claimed.jobId, claimed.executionToken);
  }

  lemma StepOkMeans(s: State, later: State)
    requires StepOk(s, later)
    ensures Inv(later)
  {
  }

  /** A settlement that commits ends the execution, and a request that committed before it decides how. */
  lemma SettlingHonoursRequests(s: State, fence: Fence, intent: Intent, calledAt: Time, now: Time)
    requires Settle(s, fence, intent, calledAt, now).reply.Ok?
    ensures Owns(s, fence, now)
    ensures var later := Settle(s, fence, intent, calledAt, now).state; var was := s.rows[fence.jobId].job.status;
            && fence.jobId in later.rows
            && later.rows[fence.jobId].job.status == TargetStatus(intent)
            && (was.CANCELLING? ==> TargetStatus(intent) == CANCELLED)
            && (was.PAUSING? ==> TargetStatus(intent) == PAUSED || TargetStatus(intent) == CANCELLED)
            && later.rows[fence.jobId].published
                 == s.rows[fence.jobId].published + [Published(fence.executionToken, Finalization(TargetStatus(intent)))]
  {
  }
}
