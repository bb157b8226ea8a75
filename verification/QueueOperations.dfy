/** Each transaction of the queue repository as a function from the tables before to the tables after. */
module QueueOperations {
  import opened Prelude
  import opened QueueTables

  // ----- ownership -------------------------------------------------------------------------------

  predicate LeaseNames(lease: Lease, fence: Fence) {
    && lease.ownerJobId == fence.jobId
    && lease.workerId == fence.workerId
    && lease.leaseToken == fence.executionToken
  }

  predicate JobNames(job: Job, fence: Fence, now: Time) {
    && job.workerId == Some(fence.workerId)
    && job.leaseToken == Some(fence.executionToken)
    && job.attempt == fence.attempt
    && Executing(job.status)
    && job.leaseExpiresAt.Some? && job.leaseExpiresAt.value > now
  }

  /** The lease rows a fence matches, whatever lane they are for. */
  function LeasesNaming(s: State, fence: Fence): set<Lane> {
    set lane | lane in s.leases && LeaseNames(s.leases[lane], fence)
  }

  function LiveLeasesNaming(s: State, fence: Fence, now: Time): set<Lane> {
    set lane | lane in LeasesNaming(s, fence) && s.leases[lane].expiresAt > now
  }

  /** A statement that names lease rows by their owner must hit exactly one of them: the lane it hits, if so. */
  function Sole(lanes: set<Lane>): Option<Lane> {
    if lanes == {ARCHIVE_RESOLVE} then Some(ARCHIVE_RESOLVE)
    else if lanes == {BACKGROUND_WRITER} then Some(BACKGROUND_WRITER)
    else None
  }

  /** `lockOwnedExecution` succeeds. */
  predicate Owns(s: State, fence: Fence, now: Time) {
    && LiveLeasesNaming(s, fence, now) != {}
    && fence.jobId in s.rows
    && JobNames(s.rows[fence.jobId].job, fence, now)
  }

  function WithRow(s: State, id: JobId, row: Row): State { s.(rows := s.rows[id := row]) }

  function Noted(row: Row, event: Event): Row { row.(events := row.events + [event]) }

  // ----- the ways an execution can end -------------------------------------------------------------

  datatype Intent =
    | Complete
    | Fail
    | Retry(availableAt: Time, preserveAttempt: bool)
    | Skip
    | Cancel
    | Pause
    | Release

  /** The seven settlement calls and the seven finalizers of a fenced transaction differ in what they admit. */
  datatype Door = SETTLEMENT | TRANSACTION

  function TargetStatus(intent: Intent): Status {
    match intent
    case Complete => COMPLETED
    case Fail => FAILED
    case Retry(_, _) => RETRY_WAIT
    case Skip => SKIPPED
    case Cancel => CANCELLED
    case Pause => PAUSED
    case Release => PENDING
  }

  predicate Admits(door: Door, job: Job, intent: Intent) {
    match intent
    case Complete => job.status.RUNNING?
    case Fail => job.status.RUNNING?
    case Retry(_, preserve) => job.status.RUNNING? && (if preserve then job.attempt > 0 else job.attempt < job.maxAttempts)
    case Skip => job.status.RUNNING?
    case Cancel => door.SETTLEMENT? || job.status.RUNNING? || job.status.CANCELLING?
    case Pause => job.status.PAUSING? || (door.TRANSACTION? && job.status.RUNNING?)
    case Release => job.status.RUNNING?
  }

  function EndingEvent(intent: Intent): Event {
    match intent
    case Complete => JobCompleted
    case Fail => JobFailed
    case Retry(_, preserve) => JobRetryScheduled(if preserve then ATTEMPT_PRESERVED else RETRY_REQUESTED)
    case Skip => JobSkipped
    case Cancel => JobCancelled
    case Pause => JobPaused
    case Release => JobRetryScheduled(SHUTDOWN_RELEASE)
  }

  function OrElse(stamp: Option<Time>, now: Time): Option<Time> { if stamp.Some? then stamp else Some(now) }

  /** The assignments that belong to one intent alone. */
  function Assigned(door: Door, job: Job, intent: Intent, now: Time): Job {
    match intent
    case Retry(availableAt, preserve) =>
      job.(availableAt := Some(availableAt), attempt := if preserve then job.attempt - 1 else job.attempt)
    case Cancel => job.(cancelRequestedAt := OrElse(job.cancelRequestedAt, now))
    case Pause =>
      if door.SETTLEMENT? || job.status.PAUSING? then job.(pauseRequestedAt := OrElse(job.pauseRequestedAt, now)) else job
    case Release =>
      job.(availableAt := Some(now),
           maxAttempts := if job.maxAttempts < job.attempt + 1 then job.attempt + 1 else job.maxAttempts)
    case Complete => job
    case Fail => job
    case Skip => job
  }

  /** A row whose worker, token and lease columns are cleared and whose status is `status`. */
  function Vacated(job: Job, status: Status, now: Time): Job {
    job.(status := status,
         finishedAt := if Terminal(status) then Some(now) else None,
         workerId := None, leaseToken := None, leaseExpiresAt := None)
  }

  function EndedRow(row: Row, token: Token, door: Door, intent: Intent, now: Time): Row {
    row.(job := Vacated(Assigned(door, row.job, intent, now), TargetStatus(intent), now),
         events := row.events + [EndingEvent(intent)],
         published := row.published + [Published(token, Finalization(TargetStatus(intent)))])
  }

  /** `transitionOwnedJobInTransaction`: the guarded update, the lease delete that must hit one row, the event. */
  function Transition(s: State, fence: Fence, door: Door, intent: Intent, now: Time): (out: Outcome<()>) {
    if fence.jobId in s.rows && JobNames(s.rows[fence.jobId].job, fence, now)
       && Admits(door, s.rows[fence.jobId].job, intent) && Sole(LeasesNaming(s, fence)).Some?
    then
      Outcome(State(s.rows[fence.jobId := EndedRow(s.rows[fence.jobId], fence.executionToken, door, intent, now)],
                    s.leases - LeasesNaming(s, fence)),
              Ok(()))
    else
      Outcome(s, Err(FenceLost))
  }

  /** `complete`, `fail`, `retry`, `skip`, `cancel`, `pause`, `release`.  `retry` reads the clock once more
      before the transaction starts, and has no way to preserve the attempt. */
  function Settle(s: State, fence: Fence, intent: Intent, calledAt: Time, now: Time): Outcome<()> {
    if intent.Retry? && intent.availableAt < calledAt then Outcome(s, Err(RetryInPast))
    else if !Owns(s, fence, now) then Outcome(s, Err(FenceLost))
    else Transition(s, fence, SETTLEMENT, if intent.Retry? then intent.(preserveAttempt := false) else intent, now)
  }

  // ----- fenced transactions -------------------------------------------------------------------

  /** One step of the callback.  A finalizer call that throws may be caught by the callback itself. */
  datatype CallbackStep =
    | Write(payload: int)
    | Finalize(intent: Intent, at: Time, catches: bool)
    | Throw

  /** What the callback leaves for the transaction to decide on. */
  datatype CallbackRun = CallbackRun(writes: seq<int>, calls: nat, intent: Option<Intent>, threw: bool)

  function CallbackAfter(run: CallbackRun, step: CallbackStep): CallbackRun {
    if run.threw then run else
    match step
    case Write(payload) => run.(writes := run.writes + [payload])
    case Throw => run.(threw := true)
    case Finalize(intent, at, catches) =>
      if intent.Retry? && intent.availableAt < at then run.(threw := !catches)
      else if run.calls >= 1 then run.(calls := run.calls + 1, threw := !catches)
      else run.(calls := 1, intent := Some(intent))
  }

  function RunCallback(steps: seq<CallbackStep>): CallbackRun {
    if steps == [] then CallbackRun([], 0, None, false)
    else CallbackAfter(RunCallback(steps[..|steps| - 1]), steps[|steps| - 1])
  }

  function WritesOf(token: Token, payloads: seq<int>): seq<Published> {
    seq(|payloads|, i requires 0 <= i < |payloads| => Published(token, DomainWrite(payloads[i])))
  }

  function WithWrites(s: State, fence: Fence, payloads: seq<int>): State
    requires fence.jobId in s.rows
  {
    var row := s.rows[fence.jobId];
    WithRow(s, fence.jobId, row.(published := row.published + WritesOf(fence.executionToken, payloads)))
  }

  /** `withFencedExecutionTransaction`, whose clock is read at entry, again once both rows are locked, and at
      the commit boundary. */
  function FencedExecution(s: State, fence: Fence, steps: seq<CallbackStep>, enteredAt: Time, lockedAt: Time, finalizedAt: Time)
    : Outcome<()>
  {
    if !Owns(s, fence, enteredAt) || !Owns(s, fence, lockedAt) then Outcome(s, Err(FenceLost)) else
    var run := RunCallback(steps);
    if run.threw then Outcome(s, Err(CallbackThrew))
    else if run.calls != 1 || run.intent.None? then Outcome(s, Err(NotFinalizedOnce))
    else if run.intent.value.Retry? && run.intent.value.availableAt < finalizedAt then Outcome(s, Err(RetryInPast))
    else if !Owns(s, fence, finalizedAt) then Outcome(s, Err(FenceLost))
    else
      var out := Transition(WithWrites(s, fence, run.writes), fence, TRANSACTION, run.intent.value, finalizedAt);
      if out.reply.Err? then Outcome(s, out.reply) else out
  }

  /** `withFencedMutationTransaction`: domain writes without an end of the execution. */
  function FencedMutation(s: State, fence: Fence, payloads: seq<int>, threw: bool, enteredAt: Time, committedAt: Time)
    : Outcome<()>
  {
    if !Owns(s, fence, enteredAt) || !s.rows[fence.jobId].job.status.RUNNING? then Outcome(s, Err(FenceLost))
    else if threw then Outcome(s, Err(CallbackThrew))
    else if !Owns(s, fence, committedAt) then Outcome(s, Err(FenceLost))
    else Outcome(WithWrites(s, fence, payloads), Ok(()))
  }

  // ----- calls of the holder that keep the execution going -----------------------------------------

  function Heartbeat(s: State, fence: Fence, now: Time, leaseMs: int): Outcome<Time> {
    var lane := Sole(LiveLeasesNaming(s, fence, now));
    if lane.None? then Outcome(s, Err(FenceLost))
    else if fence.jobId !in s.rows || !JobNames(s.rows[fence.jobId].job, fence, now) then Outcome(s, Err(FenceLost))
    else
      var row, expiresAt := s.rows[fence.jobId], now + leaseMs;
      Outcome(State(s.rows[fence.jobId := row.(job := row.job.(leaseExpiresAt := Some(expiresAt)))],
                    s.leases[lane.value := s.leases[lane.value].(expiresAt := expiresAt)]),
              Ok(expiresAt))
  }

  function UpdateProgress(s: State, fence: Fence, progress: int, now: Time): Outcome<()> {
    if progress < 0 || progress > 100 then Outcome(s, Err(InvalidInput))
    else if !Owns(s, fence, now) then Outcome(s, Err(FenceLost))
    else Outcome(WithRow(s, fence.jobId, Noted(s.rows[fence.jobId], JobProgress)), Ok(()))
  }

  /** What `readExecutionControl` returns to the holder. */
  datatype Control = Control(status: Status, cancelRequestedAt: Option<Time>, pauseRequestedAt: Option<Time>)

  function ReadControl(s: State, fence: Fence, now: Time): Result<Control, QueueError> {
    if !Owns(s, fence, now) then Err(FenceLost)
    else
      var job := s.rows[fence.jobId].job;
      Ok(Control(job.status, job.cancelRequestedAt, job.pauseRequestedAt))
  }

  // ----- new jobs ----------------------------------------------------------------------------------

  datatype NewJob = NewJob(
    kind: JobKind, triggerSource: TriggerSource, priority: int, maxAttempts: int,
    availableAt: Option<Time>, deadlineAt: Option<Time>, scheduledForDate: Option<int>)

  /** The range a job's priority stays in, for the trigger that created it. */
  predicate InBand(triggerSource: TriggerSource, priority: int) {
    if triggerSource.MANUAL? || triggerSource.RETRY? then 0 <= priority <= 99 else 100 <= priority <= 999
  }

  function FreshRow(input: NewJob, now: Time): Row {
    Row(Job(input.kind, LaneOf(input.kind.jobType), PENDING, input.triggerSource, 0, input.maxAttempts,
            input.priority, input.priority, input.availableAt, input.deadlineAt, input.scheduledForDate, now,
            None, None, None, None, None, None),
        [JobQueued(ENQUEUED)], [], [], input.maxAttempts)
  }

  /** `enqueueChild` of a request without an idempotency key; its child is a SYSTEM job. */
  function EnqueueChild(s: State, fence: Fence, id: JobId, input: NewJob, now: Time): Outcome<JobId>
    requires id !in s.rows
  {
    var availableAt := if input.availableAt.Some? then input.availableAt.value else now;
    if !InBand(SYSTEM, input.priority) || input.maxAttempts <= 0 || input.kind.definitionVersion == 0
    then Outcome(s, Err(InvalidInput))
    else if input.deadlineAt.Some? && (input.deadlineAt.value <= now || input.deadlineAt.value <= availableAt)
    then Outcome(s, Err(InvalidInput))
    else if !Owns(s, fence, now) then Outcome(s, Err(FenceLost))
    else
      var child := input.(triggerSource := SYSTEM, availableAt := Some(availableAt), scheduledForDate := None);
      Outcome(WithRow(s, id, FreshRow(child, now)), Ok(id))
  }

  // ----- cancellation request of the repository ----------------------------------------------------

  function CancelNow(row: Row, now: Time): Row {
    row.(job := Vacated(row.job, CANCELLED, now).(cancelRequestedAt := OrElse(row.job.cancelRequestedAt, now)),
         events := row.events + [JobCancelled])
  }

  function CancelLater(row: Row, now: Time): Row {
    row.(job := row.job.(status := CANCELLING, cancelRequestedAt := OrElse(row.job.cancelRequestedAt, now)),
         events := row.events + [JobCancelRequested])
  }

  function RequestCancellation(s: State, id: JobId, now: Time): Outcome<Option<Status>> {
    if id !in s.rows then Outcome(s, Ok(None)) else
    var row := s.rows[id];
    match row.job.status
    case PENDING | RETRY_WAIT | PAUSED =>
      Outcome(State(s.rows[id := CancelNow(row, now)],
                    s.leases - (set lane | lane in s.leases && s.leases[lane].ownerJobId == id)),
              Ok(Some(CANCELLED)))
    case RUNNING | PAUSING => Outcome(WithRow(s, id, CancelLater(row, now)), Ok(Some(CANCELLING)))
    case _ => Outcome(s, Ok(None))
  }

  // ----- recovery ----------------------------------------------------------------------------------

  function ExecutingIn(s: State, lane: Lane): set<JobId> {
    set id | id in s.rows && s.rows[id].job.lane == lane && Executing(s.rows[id].job.status)
  }

  predicate IsLeast(ids: set<JobId>, id: JobId) { id in ids && forall other :: other in ids ==> id <= other }

  lemma {:induction false} LeastExists(ids: set<JobId>)
    requires ids != {}
    ensures exists id :: IsLeast(ids, id)
  {
    var some :| some in ids;
    var others := ids - {some};
    if others == {} {
      assert forall other :: other in ids && other != some ==> other in others;
      assert IsLeast(ids, some);
    } else {
      LeastExists(others);
      var rest :| IsLeast(others, rest);
      assert forall other :: other in ids && other != some ==> other in others;
      assert IsLeast(ids, if rest < some then rest else some);
    }
  }

  /** Stands for ORDER BY ... LIMIT 1 over the executing jobs of a lane, of which there is at most one. */
  function Least(ids: set<JobId>): (id: JobId)
    requires ids != {}
    ensures IsLeast(ids, id)
  {
    LeastExists(ids);
    var id :| IsLeast(ids, id);
    id
  }

  predicate Expired(expiresAt: Option<Time>, now: Time) { expiresAt.None? || expiresAt.value <= now }

  predicate LeaseIsFor(lease: Lease, id: JobId, job: Job) {
    && lease.ownerJobId == id
    && job.workerId == Some(lease.workerId)
    && job.leaseToken == Some(lease.leaseToken)
  }

  function RecoveredStatus(job: Job): Status {
    if job.status.CANCELLING? then CANCELLED
    else if job.status.PAUSING? then PAUSED
    else if job.attempt < job.maxAttempts then RETRY_WAIT
    else FAILED
  }

  function RecoveryEvent(status: Status): Event {
    if status.CANCELLED? then JobCancelled
    else if status.PAUSED? then JobPaused
    else if status.RETRY_WAIT? then JobRetryScheduled(LEASE_EXPIRED)
    else JobFailed
  }

  function RecoveredRow(row: Row, now: Time): Row {
    var status := RecoveredStatus(row.job);
    row.(job := Vacated(row.job.(availableAt := if status.RETRY_WAIT? then Some(now) else row.job.availableAt), status, now),
         events := row.events + [LeaseRecovered(false), RecoveryEvent(status)])
  }

  /** `recoverExpiredExecutionInTransaction`; the reply names the job that was recovered and its new status. */
  function Recover(s: State, lane: Lane, now: Time): Outcome<Option<(JobId, Status)>> {
    if ExecutingIn(s, lane) == {} then
      if lane in s.leases && s.leases[lane].expiresAt <= now then
        var lease := s.leases[lane];
        var freed := s.(leases := s.leases - {lane});
        if lease.ownerJobId in s.rows
        then Outcome(WithRow(freed, lease.ownerJobId, Noted(s.rows[lease.ownerJobId], LeaseRecovered(true))), Ok(None))
        else Outcome(freed, Ok(None))
      else Outcome(s, Ok(None))
    else
      var id := Least(ExecutingIn(s, lane));
      var row := s.rows[id];
      var held := lane in s.leases && LeaseIsFor(s.leases[lane], id, row.job);
      var leaseLive := lane in s.leases && s.leases[lane].expiresAt > now;
      if !Expired(row.job.leaseExpiresAt, now) || (held && leaseLive) then Outcome(s, Ok(None))
      else if leaseLive && !held then Outcome(s, Ok(None))
      else
        Outcome(State(s.rows[id := RecoveredRow(row, now)], s.leases - {lane}),
                Ok(Some((id, RecoveredStatus(row.job)))))
  }

  // ----- jobs whose dispatch window has passed ---------------------------------------------------

  /** The local calendar at one clock reading: today's date, whether today's automatic window is open, and
      whether it has ended. */
  datatype Calendar = Calendar(today: int, windowOpen: bool, windowEnded: bool)

  predicate WindowMissed(job: Job, now: Time, calendar: Calendar) {
    && Waiting(job.status)
    && !job.triggerSource.MANUAL?
    && 100 <= job.effectivePriority <= 999
    && ((job.deadlineAt.Some? && job.deadlineAt.value <= now)
        || (job.triggerSource.SCHEDULE? && job.scheduledForDate.Some?
            && (job.scheduledForDate.value < calendar.today
                || (job.scheduledForDate.value == calendar.today && calendar.windowEnded))))
  }

  function SkippedRow(row: Row, now: Time): Row {
    row.(job := Vacated(row.job, SKIPPED, now), events := row.events + [JobSkipped])
  }

  /** `skipExpiredScheduledJobsInTransaction`, which covers both lanes at once. */
  function SkipExpired(s: State, now: Time, calendar: Calendar): State {
    s.(rows := map id | id in s.rows ::
      if WindowMissed(s.rows[id].job, now, calendar) then SkippedRow(s.rows[id], now) else s.rows[id])
  }

  // ----- claiming ----------------------------------------------------------------------------------

  datatype ClaimInput = ClaimInput(
    lane: Lane,
    workerId: WorkerId,
    supported: set<JobKind>,
    now: Time,
    calendar: Calendar,
    resolverPaused: bool,
    cleanupRequested: set<JobId>,
    intakeOrder: map<JobId, int>,
    token: Token,
    leaseMs: int)

  predicate AvailableBy(job: Job, now: Time) {
    && Waiting(job.status)
    && (job.availableAt.None? || job.availableAt.value <= now)
    && (job.deadlineAt.None? || job.deadlineAt.value > now)
  }

  /** The band test of the SQL statements, applied to the priority column each of them uses. */
  predicate WindowAdmits(job: Job, priority: int, windowOpen: bool) {
    || ((job.triggerSource.MANUAL? || (job.triggerSource.RETRY? && job.deadlineAt.None?)) && 0 <= priority <= 99)
    || (job.triggerSource.SYSTEM? && job.deadlineAt.None? && 100 <= priority <= 999)
    || (windowOpen && !job.triggerSource.MANUAL? && !job.triggerSource.RETRY? && !job.triggerSource.LEGACY?
        && 100 <= priority <= 999)
  }

  predicate Supported(job: Job, input: ClaimInput) { job.lane == input.lane && job.kind in input.supported }

  predicate AgingEligible(job: Job, input: ClaimInput) {
    && Supported(job, input)
    && AvailableBy(job, input.now)
    && WindowAdmits(job, job.queuePriority, input.calendar.windowOpen)
  }

  predicate Claimable(id: JobId, job: Job, input: ClaimInput) {
    && Supported(job, input)
    && job.attempt < job.maxAttempts
    && job.cancelRequestedAt.None?
    && !(job.kind.jobType.ARCHIVE_IMPORT? && id in input.cleanupRequested)
    && AvailableBy(job, input.now)
    && WindowAdmits(job, job.effectivePriority, input.calendar.windowOpen)
  }

  const AGING_STEP_MS: nat := 1_800_000
  const AGING_LIMIT: nat := 200

  /** Half an hour of waiting is worth one step of priority, down to the floor of the job's band. */
  function AgedPriority(job: Job, now: Time): int {
    var waited := if now - job.createdAt < 0 then 0 else now - job.createdAt;
    var aged := job.queuePriority - waited / AGING_STEP_MS;
    var floor := if job.triggerSource.MANUAL? || job.triggerSource.RETRY? then 0 else 100;
    if aged < floor then floor else aged
  }

  /** A sort key: intake order (nulls last), priority, availability (nulls first), creation time, id. */
  datatype Rank = Rank(intake: Option<int>, priority: int, availableAt: Option<Time>, createdAt: Time, id: JobId)

  predicate Before(a: Rank, b: Rank) {
    if a.intake != b.intake then a.intake.Some? && (b.intake.Some? ==> a.intake.value < b.intake.value)
    else if a.priority != b.priority then a.priority < b.priority
    else if a.availableAt != b.availableAt then
      b.availableAt.Some? && (a.availableAt.Some? ==> a.availableAt.value < b.availableAt.value)
    else if a.createdAt != b.createdAt then a.createdAt < b.createdAt
    else a.id < b.id
  }

  function AgingRank(id: JobId, job: Job, now: Time): Rank {
    Rank(None, AgedPriority(job, now), job.availableAt, job.createdAt, id)
  }

  function ClaimRank(id: JobId, job: Job, input: ClaimInput): Rank {
    Rank(if job.lane.ARCHIVE_RESOLVE? && id in input.intakeOrder then Some(input.intakeOrder[id]) else None,
         job.effectivePriority, job.availableAt, job.createdAt, id)
  }

  function AgingRanks(s: State, input: ClaimInput): (ranks: map<JobId, Rank>)
    ensures OwnRanks(ranks)
  {
    map id | id in s.rows && AgingEligible(s.rows[id].job, input) :: AgingRank(id, s.rows[id].job, input.now)
  }

  function ClaimRanks(s: State, input: ClaimInput): (ranks: map<JobId, Rank>)
    ensures OwnRanks(ranks)
  {
    map id | id in s.rows && Claimable(id, s.rows[id].job, input) :: ClaimRank(id, s.rows[id].job, input)
  }

  function Ahead(ranks: map<JobId, Rank>, id: JobId): set<JobId>
    requires id in ranks
  {
    set other | other in ranks && Before(ranks[other], ranks[id])
  }

  /** ORDER BY ... LIMIT n as a set: the keys with fewer than n others ahead of them. */
  function Top(ranks: map<JobId, Rank>, n: nat): set<JobId> {
    set id | id in ranks && |Ahead(ranks, id)| < n
  }

  /** `ageEligibleCandidatesInTransaction` */
  function Age(s: State, input: ClaimInput): State {
    var top := Top(AgingRanks(s, input), AGING_LIMIT);
    s.(rows := map id | id in s.rows ::
      if id in top then s.rows[id].(job := s.rows[id].job.(effectivePriority := AgedPriority(s.rows[id].job, input.now)))
      else s.rows[id])
  }

  predicate IsFirst(ranks: map<JobId, Rank>, id: JobId) {
    id in ranks && forall other :: other in ranks && other != id ==> Before(ranks[id], ranks[other])
  }

  predicate OwnRanks(ranks: map<JobId, Rank>) { forall id :: id in ranks ==> ranks[id].id == id }

  lemma BeforeIsStrictOrder(a: Rank, b: Rank, c: Rank)
    ensures !(Before(a, b) && Before(b, a))
    ensures Before(a, b) && Before(b, c) ==> Before(a, c)
    ensures a.id != b.id ==> Before(a, b) || Before(b, a)
  {
    if a.intake == b.intake && b.intake == c.intake && a.priority == b.priority && b.priority == c.priority {
      if a.availableAt == b.availableAt {}
    }
  }

  lemma {:induction false} FirstExists(ranks: map<JobId, Rank>)
    requires ranks != map[] && OwnRanks(ranks)
    ensures exists id :: IsFirst(ranks, id)
    decreases |ranks|
  {
    var some :| some in ranks;
    var others := ranks - {some};
    if others == map[] {
      assert forall id :: id in ranks && id != some ==> id in others;
      assert IsFirst(ranks, some);
    } else {
      FirstExists(others);
      var best :| IsFirst(others, best);
      var winner := if Before(ranks[some], ranks[best]) then some else best;
      forall other | other in ranks && other != winner
        ensures Before(ranks[winner], ranks[other])
      {
        assert other == some || (other in others && others[other] == ranks[other]);
        assert best in others && others[best] == ranks[best];
        BeforeIsStrictOrder(ranks[some], ranks[best], ranks[other]);
      }
      assert IsFirst(ranks, winner);
    }
  }

  lemma FirstIsUnique(ranks: map<JobId, Rank>)
    ensures forall a, b :: IsFirst(ranks, a) && IsFirst(ranks, b) ==> a == b
  {
    forall a, b | IsFirst(ranks, a) && IsFirst(ranks, b) ensures a == b {
      if a != b { BeforeIsStrictOrder(ranks[a], ranks[b], ranks[a]); }
    }
  }

  /** ORDER BY ... LIMIT 1 */
  function First(ranks: map<JobId, Rank>): (id: JobId)
    requires ranks != map[] && OwnRanks(ranks)
    ensures IsFirst(ranks, id)
  {
    FirstExists(ranks);
    FirstIsUnique(ranks);
    var id :| IsFirst(ranks, id);
    id
  }

  datatype Claimed = Claimed(jobId: JobId, workerId: WorkerId, executionToken: Token, attempt: int, maxAttempts: int, leaseExpiresAt: Time)

  function FenceOf(claimed: Claimed): Fence {
    Fence(claimed.jobId, claimed.workerId, claimed.executionToken, claimed.attempt)
  }

  function ClaimedRow(row: Row, input: ClaimInput): Row {
    row.(job := row.job.(status := RUNNING, workerId := Some(input.workerId), leaseToken := Some(input.token),
                         leaseExpiresAt := Some(input.now + input.leaseMs), attempt := row.job.attempt + 1,
                         finishedAt := None),
         events := row.events + [JobClaimed],
         claims := row.claims + [input.token])
  }

  /** What a claim does before it looks for a job: recover the lane and skip what missed its window. */
  function Swept(s: State, input: ClaimInput): State {
    SkipExpired(Recover(s, input.lane, input.now).state, input.now, input.calendar)
  }

  /** The lane is closed to a claim: it is paused, busy, or its lease row is still live. */
  predicate LaneClosed(s: State, input: ClaimInput) {
    || (input.lane.ARCHIVE_RESOLVE? && input.resolverPaused)
    || ExecutingIn(s, input.lane) != {}
    || (input.lane in s.leases && s.leases[input.lane].expiresAt > input.now)
  }

  /** The tables a claim selects its candidate from. */
  function Prepared(s: State, input: ClaimInput): State {
    var swept := Swept(s, input);
    Age(swept.(leases := swept.leases - {input.lane}), input)
  }

  function Taken(s: State, input: ClaimInput, id: JobId): Outcome<Option<Claimed>>
    requires id in s.rows
  {
    var row := ClaimedRow(s.rows[id], input);
    var expiresAt := input.now + input.leaseMs;
    Outcome(State(s.rows[id := row], s.leases[input.lane := Lease(id, input.workerId, input.token, expiresAt)]),
            Ok(Some(Claimed(id, input.workerId, input.token, row.job.attempt, row.job.maxAttempts, expiresAt))))
  }

  function Claim(s: State, input: ClaimInput): Outcome<Option<Claimed>> {
    if input.supported == {} then Outcome(s, Ok(None)) else
    var swept := Swept(s, input);
    if LaneClosed(swept, input) then Outcome(swept, Ok(None)) else
    var prepared := Prepared(s, input);
    var ranks := ClaimRanks(prepared, input);
    if ranks == map[] then Outcome(prepared, Ok(None)) else Taken(prepared, input, First(ranks))
  }
}
