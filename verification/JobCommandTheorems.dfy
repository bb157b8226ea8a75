/** What the commands of the web application mean for the job they name, for its holder, and for everything after. */
module JobCommandTheorems {
  import opened Prelude
  import opened QueueTables
  import opened QueueOperations
  import opened JobCommands
  import opened QueueSteps
  import opened QueueInvariant
  import opened QueueRowMoves
  import opened QueueStepsKeep
  import opened QueueTheorems
  import opened QueueColumns

  // ----- enqueue -----------------------------------------------------------------------------------------

  /** What the enqueue command accepts: the three triggers it knows, each with its band, its definitions and its dates. */
  predicate Enqueueable(input: NewJob) {
    && 1 <= input.maxAttempts <= 20
    && match input.triggerSource
       case MANUAL => 0 <= input.priority <= 99 && input.kind.definitionVersion == 1
       case SYSTEM => 100 <= input.priority <= 999 && input.kind.definitionVersion >= 1
       case SCHEDULE =>
         && 100 <= input.priority <= 999 && input.kind.definitionVersion >= 1
         && input.deadlineAt.Some? && input.scheduledForDate.Some?
       case _ => false
  }

  ghost predicate EnqueueMeans(s: State, id: JobId, input: NewJob, now: Time, out: Outcome<JobId>)
    requires id !in s.rows
  {
    && (out.reply == Err(InvalidInput) <==> !Enqueueable(input))
    && (out.reply == Err(InvalidStateTransition) <==> Enqueueable(input) && input.kind.jobType == ARCHIVE_RESOLVE_ITEM)
    && (out.reply.Err? ==> out.state == s && out.reply.error in {InvalidInput, InvalidStateTransition})
    && (out.reply.Ok? ==>
          && out.reply.value == id && OneNewRow(s, out.state, id)
          && CreatedAs(out.state.rows[id], input.kind, input.triggerSource, input.priority, input.maxAttempts,
                       if input.availableAt == None then now else input.availableAt.value, input.deadlineAt,
                       if input.triggerSource == SCHEDULE then input.scheduledForDate else None, now))
  }

  lemma EnqueueIsDecided(s: State, id: JobId, input: NewJob, now: Time)
    requires id !in s.rows
    ensures EnqueueMeans(s, id, input, now, Enqueue(s, id, input, now))
  {
  }

  /** Archive intake's resolver jobs: manual for a new link, a retry for one tried again. */
  lemma ResolverJobIsCreated(s: State, id: JobId, again: bool, now: Time)
    requires id !in s.rows
    ensures var out := EnqueueResolver(s, id, again, now);
            && out.reply == Ok(id) && OneNewRow(s, out.state, id)
            && CreatedAs(out.state.rows[id], JobKind(ARCHIVE_RESOLVE_ITEM, 1), if again then RETRY else MANUAL, 10, 3, now, None, None, now)
  {
  }

  // ----- cancel ------------------------------------------------------------------------------------------

  /** A resolver job is bound to its intake item, a waiting audit apply to its frozen input; the command checks it. */
  predicate CheckedElsewhere(job: Job) {
    || job.kind.jobType == ARCHIVE_RESOLVE_ITEM
    || (job.status in {PENDING, RETRY_WAIT, PAUSED} && job.kind == JobKind(WRITER_JOB("SCAN"), 3))
  }

  /** A cancellation is refused only to jobs that ended otherwise or lack the binding they need; an idle job is cancelled
      at once, and a job at work keeps its holder, lease and fence until it is. */
  ghost predicate CancelMeans(s: State, id: JobId, bound: bool, now: Time, out: Outcome<Status>) {
    && (out.reply == Err(JobNotFound) <==> id !in s.rows)
    && (out.reply == Err(InvalidStateTransition) <==>
          && id in s.rows
          && (s.rows[id].job.status in {COMPLETED, FAILED, SKIPPED}
              || (s.rows[id].job.status !in {CANCELLING, CANCELLED} && CheckedElsewhere(s.rows[id].job) && !bound)))
    && (out.reply.Err? ==> out.state == s && out.reply.error in {JobNotFound, InvalidStateTransition})
    && (out.reply.Ok? ==> id in s.rows && OnlyRow(s, out.state, id) && CancelledAs(s.rows[id], out.state.rows[id], out.reply.value, now))
  }

  predicate CancelledAs(row: Row, later: Row, reply: Status, now: Time) {
    && later == row.(job := later.job, events := later.events)
    && match row.job.status
       case PENDING | RETRY_WAIT | PAUSED =>
         && reply == CANCELLED && later.job == row.job.(status := CANCELLED, cancelRequestedAt := Some(now), finishedAt := Some(now))
         && later.events == row.events + [JobCancelRequested, JobCancelled]
       case RUNNING | PAUSING =>
         && reply == CANCELLING && later.job == row.job.(status := CANCELLING, cancelRequestedAt := Some(now))
         && later.events == row.events + [JobCancelRequested]
       case _ => reply == row.job.status && later == row
  }

  lemma CancelIsDecided(s: State, id: JobId, bound: bool, now: Time)
    requires Inv(s)
    ensures CancelMeans(s, id, bound, now, CancelCommand(s, id, bound, now))
  {
    hide Inv, HistoryOk, BudgetOk, TrailOk, BandOk;
    if id in s.rows { RowIsOk(s, id); }
  }

  /** After a successful cancellation the job ends as cancelled or not at all, and asking again changes nothing. */
  lemma CancelIsForGood(s: State, id: JobId, bound: bool, now: Time, ops: seq<Op>, boundAgain: bool, again: Time)
    requires Inv(s) && CancelCommand(s, id, bound, now).reply.Ok? && CanRun(CancelCommand(s, id, bound, now).state, ops)
    ensures var later := Run(CancelCommand(s, id, bound, now).state, ops);
            && id in later.rows && (later.rows[id].job.status.CANCELLING? || later.rows[id].job.status.CANCELLED?)
            && CancelCommand(later, id, boundAgain, again) == Outcome(later, Ok(later.rows[id].job.status))
  {
    hide Inv, StepOk;
    var cancelled := CancelCommand(s, id, bound, now).state;
    CancelCommandOk(s, id, bound, now);
    assert Inv(cancelled) by { StepOkGives(s, cancelled); }
    EndsAreFinal(cancelled, ops, id);
  }

  lemma StepOkGives(s: State, later: State)
    requires StepOk(s, later)
    ensures Inv(later)
  {
  }

  // ----- pause and resume ----------------------------------------------------------------------------------

  /** A pause is refused to jobs that ended or are being cancelled; a waiting job is paused at once, and a running
      one keeps its holder, lease and fence until it has paused. */
  ghost predicate PauseMeans(s: State, id: JobId, now: Time, out: Outcome<Status>) {
    && (out.reply == Err(JobNotFound) <==> id !in s.rows)
    && (out.reply == Err(InvalidStateTransition) <==>
          id in s.rows && s.rows[id].job.status in {COMPLETED, FAILED, CANCELLED, SKIPPED, CANCELLING})
    && (out.reply.Err? ==> out.state == s && out.reply.error in {JobNotFound, InvalidStateTransition})
    && (out.reply.Ok? ==> id in s.rows && OnlyRow(s, out.state, id) && PausedAs(s.rows[id], out.state.rows[id], out.reply.value, now))
  }

  predicate PausedAs(row: Row, later: Row, reply: Status, now: Time) {
    && later == row.(job := later.job, events := later.events)
    && match row.job.status
       case PENDING | RETRY_WAIT =>
         && reply == PAUSED && later.job == row.job.(status := PAUSED, pauseRequestedAt := Some(now))
         && later.events == row.events + [JobPauseRequested, JobPaused]
       case RUNNING =>
         && reply == PAUSING && later.job == row.job.(status := PAUSING, pauseRequestedAt := Some(now))
         && later.events == row.events + [JobPauseRequested]
       case _ => reply == row.job.status && later == row
  }

  lemma PauseIsDecided(s: State, id: JobId, now: Time)
    requires Inv(s)
    ensures PauseMeans(s, id, now, PauseCommand(s, id, now))
  {
    hide Inv, HistoryOk, BudgetOk, TrailOk, BandOk;
    if id in s.rows { RowIsOk(s, id); }
  }

  /** Resuming undoes the pause of a waiting job: all that remains is that it is PENDING and available from now. */
  lemma ResumeUndoesPause(s: State, id: JobId, pausedAt: Time, resumedAt: Time)
    requires Inv(s) && id in s.rows && Waiting(s.rows[id].job.status)
    ensures var paused := PauseCommand(s, id, pausedAt).state; var resumed := ResumeCommand(paused, id, resumedAt);
            && resumed.reply == Ok(PENDING) && OnlyRow(s, resumed.state, id) && id in resumed.state.rows
            && resumed.state.rows[id].job == s.rows[id].job.(status := PENDING, availableAt := Some(resumedAt))
            && resumed.state.rows[id].claims == s.rows[id].claims
            && (StrandedIn(resumed.state, id) <==> StrandedIn(s, id))
  {
    hide HistoryOk, BudgetOk, TrailOk, LanesOk;
    assert RowOk(s.rows[id]);
  }

  /** Paused or cancelled, and not claimed since. */
  predicate Aside(row: Row, claims: seq<Token>) {
    (row.job.status.PAUSED? || row.job.status.CANCELLED?) && row.claims == claims
  }

  predicate AsideIn(s: State, id: JobId, claims: seq<Token>) { id in s.rows && Aside(s.rows[id], claims) }

  lemma StepLeavesAside(s: State, op: Op, id: JobId, claims: seq<Token>)
    requires AsideIn(s, id, claims) && Permitted(s, op) && !(op.OpResume? && op.id == id)
    ensures AsideIn(Step(s, op), id, claims)
  {
    match op
    case OpClaim(claim) => ClaimLeavesAside(s, claim, id, claims);
    case OpSettle(fence, intent, calledAt, now) => SettleLeavesAside(s, fence, intent, calledAt, now, id, claims);
    case OpExecution(fence, steps, t0, t1, t2) => ExecutionLeavesAside(s, fence, steps, t0, t1, t2, id, claims);
    case OpRecover(lane, now) => RecoverLeavesAside(s, lane, now, id, claims);
    case OpHeartbeat(_, _, _) =>
    case OpMutation(_, _, _, _, _) =>
    case _ => OtherStepsLeaveAside(s, op, id, claims);
  }

  lemma RecoverLeavesAside(s: State, lane: Lane, now: Time, id: JobId, claims: seq<Token>)
    requires AsideIn(s, id, claims)
    ensures AsideIn(Recover(s, lane, now).state, id, claims)
  {
  }

  lemma ClaimLeavesAside(s: State, input: ClaimInput, id: JobId, claims: seq<Token>)
    requires AsideIn(s, id, claims)
    ensures AsideIn(Claim(s, input).state, id, claims)
  {
    hide Recover, LaneClosed;
    RecoverLeavesAside(s, input.lane, input.now, id, claims);
    var swept := Swept(s, input);
    assert AsideIn(swept, id, claims);
    if input.supported != {} && !LaneClosed(swept, input) {
      assert AsideIn(Prepared(s, input), id, claims);
    }
  }

  lemma SettleLeavesAside(s: State, fence: Fence, intent: Intent, calledAt: Time, now: Time, id: JobId, claims: seq<Token>)
    requires AsideIn(s, id, claims)
    ensures AsideIn(Settle(s, fence, intent, calledAt, now).state, id, claims)
  {
  }

  lemma ExecutionLeavesAside(s: State, fence: Fence, steps: seq<CallbackStep>, t0: Time, t1: Time, t2: Time, id: JobId, claims: seq<Token>)
    requires AsideIn(s, id, claims)
    ensures AsideIn(FencedExecution(s, fence, steps, t0, t1, t2).state, id, claims)
  {
  }

  lemma OtherStepsLeaveAside(s: State, op: Op, id: JobId, claims: seq<Token>)
    requires AsideIn(s, id, claims) && Permitted(s, op) && !(op.OpResume? && op.id == id)
    requires !op.OpClaim? && !op.OpSettle? && !op.OpExecution? && !op.OpRecover? && !op.OpHeartbeat? && !op.OpMutation?
    ensures AsideIn(Step(s, op), id, claims)
  {
  }

  lemma {:induction false} RunLeavesAside(s: State, ops: seq<Op>, id: JobId, claims: seq<Token>)
    requires AsideIn(s, id, claims) && CanRun(s, ops)
    requires forall i :: 0 <= i < |ops| ==> !(ops[i].OpResume? && ops[i].id == id)
    ensures AsideIn(Run(s, ops), id, claims)
    decreases |ops|
  {
    hide Step, AsideIn;
    if ops != [] {
      StepLeavesAside(s, ops[0], id, claims);
      RunLeavesAside(Step(s, ops[0]), ops[1..], id, claims);
    }
  }

  /** A job that a pause command paused is claimed by nobody, in any run in which nobody resumes it. */
  lemma PauseKeepsWorkersOff(s: State, id: JobId, now: Time, ops: seq<Op>)
    requires PauseCommand(s, id, now).reply == Ok(PAUSED) && CanRun(PauseCommand(s, id, now).state, ops)
    requires forall i :: 0 <= i < |ops| ==> !(ops[i].OpResume? && ops[i].id == id)
    ensures var later := Run(PauseCommand(s, id, now).state, ops);
            && id in s.rows && id in later.rows
            && (later.rows[id].job.status.PAUSED? || later.rows[id].job.status.CANCELLED?)
            && later.rows[id].claims == s.rows[id].claims
  {
    RunLeavesAside(PauseCommand(s, id, now).state, ops, id, s.rows[id].claims);
  }

  /** The ways to ask for the end of a running job: by either command, or by the repository's own request. */
  datatype ControlRequest = CANCEL_COMMAND(bound: bool) | CANCEL_REQUEST | PAUSE_COMMAND

  function Requested(s: State, request: ControlRequest, id: JobId, now: Time): State {
    match request
    case CANCEL_COMMAND(bound) => CancelCommand(s, id, bound, now).state
    case CANCEL_REQUEST => RequestCancellation(s, id, now).state
    case PAUSE_COMMAND => PauseCommand(s, id, now).state
  }

  /** The request is one that the job's status and binding admit. */
  predicate MayRequest(job: Job, request: ControlRequest) {
    match request
    case CANCEL_COMMAND(bound) => job.status == CANCELLING || bound || job.kind.jobType != ARCHIVE_RESOLVE_ITEM
    case CANCEL_REQUEST => true
    case PAUSE_COMMAND => job.status != CANCELLING
  }

  /** Once a control request is made, the holder's fence works on, and it can end the execution as requested and in no
      other way. */
  lemma RequestNarrowsEnding(s: State, request: ControlRequest, now: Time, fence: Fence, intent: Intent, calledAt: Time, at: Time)
    requires Inv(s) && FenceWorks(s, fence, at) && MayRequest(s.rows[fence.jobId].job, request)
    ensures var later := Requested(s, request, fence.jobId, now);
            && FenceWorks(later, fence, at)
            && (Settle(later, fence, intent, calledAt, at).reply.Ok? <==> intent.Cancel? || (request.PAUSE_COMMAND? && intent.Pause?))
  {
    hide Inv, Owns, Requested, FenceWorks, Settle;
    var id := fence.jobId;
    var later := Requested(s, request, id, now);
    FenceWorksExactly(s, fence, at);
    OwnedIsExecuting(s, fence, at);
    RequestOk(s, request, id, now);
    RequestKeepsFence(s, request, now, fence, at, later);
    OwnedLease(later, fence, at);
    FenceWorksExactly(later, fence, at);
    HaltedEnding(later, fence, intent, calledAt, at, !request.PAUSE_COMMAND?);
  }

  lemma RequestOk(s: State, request: ControlRequest, id: JobId, now: Time)
    requires Inv(s)
    ensures Inv(Requested(s, request, id, now))
  {
    hide Inv, StepOk, CancelCommand, PauseCommand, RequestCancellation;
    match request
    case CANCEL_COMMAND(bound) => CancelCommandOk(s, id, bound, now); StepOkGives(s, CancelCommand(s, id, bound, now).state);
    case CANCEL_REQUEST => RequestCancellationOk(s, id, now); StepOkGives(s, RequestCancellation(s, id, now).state);
    case PAUSE_COMMAND => PauseCommandOk(s, id, now); StepOkGives(s, PauseCommand(s, id, now).state);
  }

  lemma RequestKeepsFence(s: State, request: ControlRequest, now: Time, fence: Fence, at: Time, later: State)
    requires Owns(s, fence, at) && MayRequest(s.rows[fence.jobId].job, request) && later == Requested(s, request, fence.jobId, now)
    ensures fence.jobId in later.rows && JobNames(later.rows[fence.jobId].job, fence, at)
    ensures later.rows[fence.jobId].job.status == if request.PAUSE_COMMAND? then PAUSING else CANCELLING
  {
    hide LiveLeasesNaming;
  }

  lemma SoleLane(lane: Lane)
    ensures Sole({lane}) == Some(lane)
  {
    if lane.BACKGROUND_WRITER? { assert ARCHIVE_RESOLVE !in {lane}; }
  }

  lemma HaltedEnding(s: State, fence: Fence, intent: Intent, calledAt: Time, at: Time, cancel: bool)
    requires fence.jobId in s.rows && JobNames(s.rows[fence.jobId].job, fence, at) && Owns(s, fence, at)
    requires LeasesNaming(s, fence) == {s.rows[fence.jobId].job.lane}
    requires if cancel then s.rows[fence.jobId].job.status.CANCELLING? else s.rows[fence.jobId].job.status.PAUSING?
    ensures Settle(s, fence, intent, calledAt, at).reply.Ok? <==> intent.Cancel? || (!cancel && intent.Pause?)
  {
    hide LeasesNaming, JobNames, Owns, EndedRow;
    assert Sole({s.rows[fence.jobId].job.lane}).Some? by { SoleLane(s.rows[fence.jobId].job.lane); }
  }

  /** Only a paused job is resumed; it waits again from now on with nothing else about it changed, and no other job is
      touched. */
  ghost predicate ResumeMeans(s: State, id: JobId, now: Time, out: Outcome<Status>) {
    && (out.reply == Err(JobNotFound) <==> id !in s.rows)
    && (out.reply.Ok? <==> id in s.rows && s.rows[id].job.status == PAUSED)
    && (out.reply.Err? ==> out.state == s && out.reply.error in {JobNotFound, InvalidStateTransition})
    && (out.reply.Ok? ==>
          && id in s.rows && OnlyRow(s, out.state, id) && out.reply.value == PENDING
          && var row, later := s.rows[id], out.state.rows[id];
          && later == row.(job := later.job, events := row.events + [JobQueued(RESUMED)])
          && later.job == row.job.(status := PENDING, availableAt := Some(now), pauseRequestedAt := None))
  }

  lemma ResumeIsDecided(s: State, id: JobId, now: Time)
    requires Inv(s)
    ensures ResumeMeans(s, id, now, ResumeCommand(s, id, now))
  {
    hide Inv, HistoryOk, TrailOk;
    if id in s.rows { RowIsOk(s, id); }
  }

  /** A resumed job that a claim wants makes a claim on its free lane succeed. */
  lemma ResumedIsServed(s: State, id: JobId, now: Time, input: ClaimInput)
    requires Inv(s) && id in s.rows && s.rows[id].job.status.PAUSED? && now <= input.now && Wanted(id, s.rows[id].job, input)
    requires !LaneTaken(s, input.lane, input.now) && !(input.lane.ARCHIVE_RESOLVE? && input.resolverPaused)
    ensures Claim(ResumeCommand(s, id, now).state, input).reply.Ok?
    ensures Claim(ResumeCommand(s, id, now).state, input).reply.value.Some?
  {
    hide Inv, StepOk, Claim;
    var resumed := ResumeCommand(s, id, now).state;
    ResumeCommandOk(s, id, now);
    StepOkGives(s, resumed);
    assert forall other :: HoldsLane(resumed, input.lane, other) ==> HoldsLane(s, input.lane, other);
    forall other | HoldsLane(resumed, input.lane, other) && HoldsExpired(s, input.lane, other, input.now)
      ensures HoldsExpired(resumed, input.lane, other, input.now)
    {
      assert resumed.rows[other] == s.rows[other];
    }
    FreeLaneIsServed(resumed, input, id);
  }

  // ----- retry ---------------------------------------------------------------------------------------------

  /** A retry never revives a job: the ended one keeps all but its trail, and a new one of its kind waits from now on with
      the whole of its budget and a priority in the manual band. */
  ghost predicate RetryMeans(s: State, id: JobId, retryId: JobId, accepted: bool, now: Time, out: Outcome<JobId>)
    requires retryId !in s.rows
  {
    && (out.reply == Err(JobNotFound) <==> id !in s.rows)
    && (out.reply.Ok? <==>
          && id in s.rows && s.rows[id].job.status in {FAILED, CANCELLED, SKIPPED}
          && s.rows[id].job.kind.definitionVersion == 1 && accepted)
    && (out.reply.Err? ==> out.state == s && out.reply.error in {JobNotFound, InvalidStateTransition})
    && (out.reply.Ok? ==>
          && id in s.rows && out.reply.value == retryId
          && out.state.leases == s.leases && out.state.rows.Keys == s.rows.Keys + {retryId}
          && (forall other :: other in s.rows && other != id ==> out.state.rows[other] == s.rows[other])
          && out.state.rows[id] == s.rows[id].(events := s.rows[id].events + [JobRetryScheduled(RETRIED_AS(retryId))])
          && RetriedAs(s.rows[id].job, out.state.rows[retryId], now))
  }

  predicate RetriedAs(job: Job, retry: Row, now: Time) {
    CreatedAs(retry, job.kind, RETRY, if job.queuePriority <= 99 then job.queuePriority else 99, job.maxAttempts, now, None, None, now)
  }

  lemma RetryIsDecided(s: State, id: JobId, retryId: JobId, accepted: bool, now: Time)
    requires Inv(s) && retryId !in s.rows
    ensures RetryMeans(s, id, retryId, accepted, now, RetryCommand(s, id, retryId, accepted, now))
  {
    hide Inv, HistoryOk, TrailOk;
    if id in s.rows { RowIsOk(s, id); }
  }

  /** Whatever becomes of the retry, the job it retries stays ended as it was and publishes nothing more. */
  lemma RetryLeavesTheEnded(s: State, id: JobId, retryId: JobId, accepted: bool, now: Time, ops: seq<Op>)
    requires Inv(s) && retryId !in s.rows && RetryCommand(s, id, retryId, accepted, now).reply.Ok?
    requires CanRun(RetryCommand(s, id, retryId, accepted, now).state, ops)
    ensures var later := Run(RetryCommand(s, id, retryId, accepted, now).state, ops);
            && id in s.rows && id in later.rows && retryId in later.rows
            && later.rows[id].job.status == s.rows[id].job.status
            && later.rows[id].claims == s.rows[id].claims
            && later.rows[id].published == s.rows[id].published
            && (forall token :: token in later.rows[retryId].claims ==> token !in s.rows[id].claims)
  {
    hide RowOk;
    var retried := RetryCommand(s, id, retryId, accepted, now).state;
    RetryCommandOk(s, id, retryId, accepted, now);
    RunKeeps(retried, ops);
    EndedPublishesNothing(retried.rows[id], Run(retried, ops).rows[id]);
  }

  // ----- priority --------------------------------------------------------------------------------------------

  /** Only a job that is not at work changes priority, only within the band of its trigger, and nothing else of it
      or of any other job changes. */
  ghost predicate ChangeMeans(s: State, id: JobId, priority: int, out: Outcome<int>) {
    && (out.reply == Err(InvalidInput) <==> !(0 <= priority <= 999))
    && (out.reply == Err(JobNotFound) <==> 0 <= priority <= 999 && id !in s.rows)
    && (out.reply.Ok? <==>
          && id in s.rows && s.rows[id].job.status in {PENDING, RETRY_WAIT, PAUSED}
          && (if s.rows[id].job.triggerSource in {MANUAL, RETRY} then 0 <= priority <= 99 else 100 <= priority <= 999))
    && (out.reply.Err? ==> out.state == s)
    && (out.reply.Ok? ==>
          && id in s.rows && OnlyRow(s, out.state, id) && out.reply.value == priority
          && var row, later := s.rows[id], out.state.rows[id];
          && later == row.(job := later.job, events := row.events + [JobQueued(PRIORITY_CHANGED)])
          && later.job == row.job.(queuePriority := priority, effectivePriority := priority))
  }

  lemma ChangeIsDecided(s: State, id: JobId, priority: int)
    requires Inv(s)
    ensures ChangeMeans(s, id, priority, ChangePriority(s, id, priority))
  {
    hide Inv, HistoryOk, BudgetOk, TrailOk;
    if id in s.rows { RowIsOk(s, id); }
  }
}
