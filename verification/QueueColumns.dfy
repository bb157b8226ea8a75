/** The columns of the job and lease tables read directly: when a fence works, when a job is due, what aging makes of a
    priority, which job comes first.  What the transactions do is said in these words, and none of them is taken from
    the transactions themselves. */
module QueueColumns {
  import opened Prelude
  import opened QueueTables
  import opened QueueOperations
  import opened QueueInvariant
  import opened QueueRowMoves
  import opened QueueStepsKeep

  // ----- rows ----------------------------------------------------------------------------------------

  /** Nothing but the row of one job differs, and no lease row does. */
  ghost predicate OnlyRow(s: State, later: State, id: JobId) {
    && later.leases == s.leases
    && OtherRowsSame(s, later, id)
  }

  ghost predicate OtherRowsSame(s: State, later: State, id: JobId) {
    && later.rows.Keys == s.rows.Keys
    && forall other :: other in s.rows && other != id ==> later.rows[other] == s.rows[other]
  }

  /** A job as it is once nobody holds it. */
  function Unheld(job: Job, status: Status): Job {
    job.(status := status, workerId := None, leaseToken := None, leaseExpiresAt := None, finishedAt := None)
  }

  // ----- fences --------------------------------------------------------------------------------------

  /** The job row and the row of its lane both carry the fence, and neither has expired. */
  ghost predicate FenceWorks(s: State, fence: Fence, t: Time) {
    && fence.jobId in s.rows
    && var job := s.rows[fence.jobId].job;
    && job.status in {RUNNING, PAUSING, CANCELLING}
    && job.workerId == Some(fence.workerId) && job.leaseToken == Some(fence.executionToken) && job.attempt == fence.attempt
    && job.leaseExpiresAt.Some? && job.leaseExpiresAt.value > t
    && job.lane in s.leases
    && s.leases[job.lane] == Lease(fence.jobId, fence.workerId, fence.executionToken, job.leaseExpiresAt.value)
  }

  lemma FenceWorksExactly(s: State, fence: Fence, t: Time)
    requires Inv(s)
    ensures Owns(s, fence, t) <==> FenceWorks(s, fence, t)
  {
    hide RowsOk, TokensOk, LeasesNaming, LiveLeasesNaming;
    if fence.jobId in s.rows && JobNames(s.rows[fence.jobId].job, fence, t) {
      OwnedLease(s, fence, t);
      assert LeaseFits(s, s.rows[fence.jobId].job.lane);
    }
  }

  // ----- when a job is due -----------------------------------------------------------------------------

  /** The priorities a claim admits, by what created the job. */
  predicate BandOpen(job: Job, priority: int, windowOpen: bool) {
    match job.triggerSource
    case MANUAL => 0 <= priority <= 99
    case RETRY => job.deadlineAt.None? && 0 <= priority <= 99
    case SYSTEM => (job.deadlineAt.None? || windowOpen) && 100 <= priority <= 999
    case SCHEDULE => windowOpen && 100 <= priority <= 999
    case LEGACY => false
  }

  lemma BandOpenExactly(job: Job, priority: int, windowOpen: bool)
    ensures WindowAdmits(job, priority, windowOpen) <==> BandOpen(job, priority, windowOpen)
  {
  }

  /** The day a scheduled job was meant for is over. */
  predicate DayMissed(job: Job, calendar: Calendar) {
    && job.triggerSource.SCHEDULE? && job.scheduledForDate.Some?
    && (job.scheduledForDate.value < calendar.today || (job.scheduledForDate.value == calendar.today && calendar.windowEnded))
  }

  /** A waiting job of the automatic band whose deadline or whose day has passed. */
  predicate Missed(job: Job, now: Time, calendar: Calendar) {
    && job.status in {PENDING, RETRY_WAIT}
    && !job.triggerSource.MANUAL?
    && 100 <= job.effectivePriority <= 999
    && ((job.deadlineAt.Some? && job.deadlineAt.value <= now) || DayMissed(job, calendar))
  }

  lemma MissedExactly(job: Job, now: Time, calendar: Calendar)
    ensures WindowMissed(job, now, calendar) <==> Missed(job, now, calendar)
  {
  }

  /** What a claim asks of a job whatever its status: the worker supports it, an attempt is left, its deadline is ahead, its
      band is open and its day is not over, and it is no import under cleanup. */
  predicate Wanted(id: JobId, job: Job, input: ClaimInput) {
    && job.lane == input.lane && job.kind in input.supported
    && job.attempt < job.maxAttempts
    && (job.deadlineAt.None? || job.deadlineAt.value > input.now)
    && BandOpen(job, job.queuePriority, input.calendar.windowOpen)
    && !DayMissed(job, input.calendar)
    && !(job.kind.jobType.ARCHIVE_IMPORT? && id in input.cleanupRequested)
  }

  /** A waiting job whose time has come. */
  predicate Due(id: JobId, job: Job, input: ClaimInput) {
    && Wanted(id, job, input)
    && job.status in {PENDING, RETRY_WAIT}
    && (job.availableAt.None? || job.availableAt.value <= input.now)
  }

  /** A running job whose lease has run out, so that a claim of its lane puts it back first. */
  predicate Overdue(id: JobId, job: Job, input: ClaimInput) {
    && Wanted(id, job, input)
    && job.status.RUNNING?
    && job.leaseExpiresAt.Some? && job.leaseExpiresAt.value <= input.now
  }

  ghost predicate Candidate(s: State, input: ClaimInput, id: JobId) {
    id in s.rows && (Due(id, s.rows[id].job, input) || Overdue(id, s.rows[id].job, input))
  }

  // ----- who holds a lane ------------------------------------------------------------------------------

  ghost predicate HoldsLane(s: State, lane: Lane, id: JobId) {
    id in s.rows && s.rows[id].job.lane == lane && s.rows[id].job.status in {RUNNING, PAUSING, CANCELLING}
  }

  /** The job executes in the lane and its lease has run out. */
  ghost predicate HoldsExpired(s: State, lane: Lane, id: JobId, now: Time) {
    HoldsLane(s, lane, id) && (s.rows[id].job.leaseExpiresAt.None? || s.rows[id].job.leaseExpiresAt.value <= now)
  }

  /** Some job executes in the lane under a lease that has not run out. */
  ghost predicate LaneTaken(s: State, lane: Lane, now: Time) {
    exists id :: HoldsLane(s, lane, id) && !HoldsExpired(s, lane, id, now)
  }

  lemma HoldersAre(s: State, lane: Lane)
    ensures forall id :: id in ExecutingIn(s, lane) <==> HoldsLane(s, lane, id)
  {
  }

  lemma OneHolder(s: State, lane: Lane, a: JobId, b: JobId)
    requires Inv(s) && HoldsLane(s, lane, a) && HoldsLane(s, lane, b)
    ensures a == b
  {
  }

  /** An execution given up because its lease ran out: what was asked of it decides, and otherwise whether an attempt is
      left. */
  predicate RecoveredAs(row: Row, later: Row, now: Time) {
    var job, events := row.job, row.events + [LeaseRecovered(false)];
    && later == row.(job := later.job, events := later.events)
    && match job.status
       case CANCELLING => later.job == Unheld(job, CANCELLED).(finishedAt := Some(now)) && later.events == events + [JobCancelled]
       case PAUSING => later.job == Unheld(job, PAUSED) && later.events == events + [JobPaused]
       case RUNNING =>
         if job.attempt < job.maxAttempts then
           later.job == Unheld(job, RETRY_WAIT).(availableAt := Some(now)) && later.events == events + [JobRetryScheduled(LEASE_EXPIRED)]
         else
           later.job == Unheld(job, FAILED).(finishedAt := Some(now)) && later.events == events + [JobFailed]
       case _ => false
  }

  lemma RowRecovers(row: Row, now: Time)
    requires row.job.status in {RUNNING, PAUSING, CANCELLING}
    ensures RecoveredAs(row, RecoveredRow(row, now), now) && RecoveredRow(row, now).job.status == RecoveredStatus(row.job)
  {
    assert row.events + [LeaseRecovered(false), RecoveryEvent(RecoveredStatus(row.job))]
        == row.events + [LeaseRecovered(false)] + [RecoveryEvent(RecoveredStatus(row.job))];
  }

  // ----- aging and order -------------------------------------------------------------------------------

  /** `p` is what waiting makes of a job's priority: one less for each half hour, down to the floor of its band. */
  ghost predicate AgedTo(job: Job, now: Time, p: int) {
    var floor := if job.triggerSource.MANUAL? || job.triggerSource.RETRY? then 0 else 100;
    exists steps: nat :: StepsWaited(job, now, steps) && p == (if job.queuePriority - steps < floor then floor else job.queuePriority - steps)
  }

  /** So many full half hours have passed since the job was created; a clock before that counts as none. */
  predicate StepsWaited(job: Job, now: Time, steps: nat) {
    && now < job.createdAt + (steps + 1) * 1_800_000
    && (steps == 0 || job.createdAt + steps * 1_800_000 <= now)
  }

  lemma AgingIsOneStepPerHalfHour(job: Job, now: Time, p: int)
    ensures p == AgedPriority(job, now) <==> AgedTo(job, now, p)
  {
    var waited := if now - job.createdAt < 0 then 0 else now - job.createdAt;
    assert StepsWaited(job, now, waited / 1_800_000);
    forall steps: nat | StepsWaited(job, now, steps) ensures steps == waited / 1_800_000 {}
  }

  /** Lower number first, then the one available longer, with jobs that were never dated first, then the older one, then
      the smaller id. */
  predicate Earlier(a: Job, p: int, i: JobId, b: Job, q: int, j: JobId) {
    || p < q
    || (p == q && AvailableEarlier(a.availableAt, b.availableAt))
    || (p == q && a.availableAt == b.availableAt && a.createdAt < b.createdAt)
    || (p == q && a.availableAt == b.availableAt && a.createdAt == b.createdAt && i < j)
  }

  predicate AvailableEarlier(a: Option<Time>, b: Option<Time>) { b.Some? && (a.None? || a.value < b.value) }

  /** On the resolver lane the order of intake comes before everything, jobs without one last. */
  predicate IntakeEarlier(a: Option<int>, b: Option<int>) { a.Some? && (b.None? || a.value < b.value) }

  function IntakeOf(id: JobId, job: Job, input: ClaimInput): Option<int> {
    if job.lane == ARCHIVE_RESOLVE && id in input.intakeOrder then Some(input.intakeOrder[id]) else None
  }

  /** Job `i` is claimed rather than job `j`. */
  predicate ClaimedBefore(a: Job, i: JobId, b: Job, j: JobId, input: ClaimInput) {
    || IntakeEarlier(IntakeOf(i, a, input), IntakeOf(j, b, input))
    || (IntakeOf(i, a, input) == IntakeOf(j, b, input) && Earlier(a, a.effectivePriority, i, b, b.effectivePriority, j))
  }

  lemma AgingOrderIs(a: Job, i: JobId, b: Job, j: JobId, now: Time)
    ensures Before(AgingRank(i, a, now), AgingRank(j, b, now)) <==> Earlier(a, AgedPriority(a, now), i, b, AgedPriority(b, now), j)
  {
    hide AgedPriority;
  }

  lemma ClaimOrderIs(a: Job, i: JobId, b: Job, j: JobId, input: ClaimInput)
    ensures Before(ClaimRank(i, a, input), ClaimRank(j, b, input)) <==> ClaimedBefore(a, i, b, j, input)
  {
  }

  // ----- new rows ----------------------------------------------------------------------------------------

  /** A job as it is created: waiting, untouched, its priorities equal, on the lane of its type. */
  predicate CreatedAs(row: Row, kind: JobKind, triggerSource: TriggerSource, priority: int, maxAttempts: int, availableAt: Time,
                      deadlineAt: Option<Time>, scheduledForDate: Option<int>, now: Time) {
    && row.events == [JobQueued(ENQUEUED)] && row.published == [] && row.claims == [] && row.grant == maxAttempts
    && row.job.kind == kind
    && row.job.lane == (if kind.jobType == ARCHIVE_RESOLVE_ITEM then ARCHIVE_RESOLVE else BACKGROUND_WRITER)
    && row.job.status == PENDING && row.job.triggerSource == triggerSource
    && row.job.attempt == 0 && row.job.maxAttempts == maxAttempts
    && row.job.queuePriority == row.job.effectivePriority == priority
    && row.job.availableAt == Some(availableAt) && row.job.createdAt == now
    && row.job.deadlineAt == deadlineAt && row.job.scheduledForDate == scheduledForDate
    && row.job.workerId.None? && row.job.leaseToken.None? && row.job.leaseExpiresAt.None?
    && row.job.finishedAt.None? && row.job.cancelRequestedAt.None? && row.job.pauseRequestedAt.None?
  }

  ghost predicate OneNewRow(s: State, later: State, id: JobId) {
    && later.leases == s.leases && later.rows.Keys == s.rows.Keys + {id}
    && forall other :: other in s.rows && other != id ==> later.rows[other] == s.rows[other]
  }
}
