/** The commands of the web application on the same tables: enqueue, cancel, pause, resume, retry, re-prioritise. */
module JobCommands {
  import opened Prelude
  import opened QueueTables
  import opened QueueOperations

  const FIRST_DEFINITION := 1

  const MAX_ATTEMPTS := 20

  /** `enqueueJobInputSchema`, as far as it constrains what is modelled. */
  predicate EnqueueInputOk(input: NewJob) {
    && (input.triggerSource.MANUAL? || input.triggerSource.SCHEDULE? || input.triggerSource.SYSTEM?)
    && InBand(input.triggerSource, input.priority)
    && 1 <= input.maxAttempts <= MAX_ATTEMPTS
    && input.kind.definitionVersion >= 1
    && (input.triggerSource.MANUAL? ==> input.kind.definitionVersion == FIRST_DEFINITION)
    && (input.triggerSource.SCHEDULE? ==> input.deadlineAt.Some? && input.scheduledForDate.Some?)
  }

  function Enqueue(s: State, id: JobId, input: NewJob, now: Time): Outcome<JobId>
    requires id !in s.rows
  {
    if !EnqueueInputOk(input) then Outcome(s, Err(InvalidInput))
    else if input.kind.jobType.ARCHIVE_RESOLVE_ITEM? then Outcome(s, Err(InvalidStateTransition))
    else
      var availableAt := if input.availableAt.Some? then input.availableAt.value else now;
      var day := if input.triggerSource.SCHEDULE? then input.scheduledForDate else None;
      Outcome(WithRow(s, id, FreshRow(input.(availableAt := Some(availableAt), scheduledForDate := day), now)), Ok(id))
  }

  /** The job that archive intake creates for a link that is new, or tried again. */
  function ResolverJob(again: bool, now: Time): NewJob {
    NewJob(JobKind(ARCHIVE_RESOLVE_ITEM, FIRST_DEFINITION), if again then RETRY else MANUAL, 10, 3, Some(now), None, None)
  }

  /** Resolver jobs come from archive intake alone, which checks its own tables first. */
  function EnqueueResolver(s: State, id: JobId, again: bool, now: Time): Outcome<JobId>
    requires id !in s.rows
  {
    Outcome(WithRow(s, id, FreshRow(ResolverJob(again, now), now)), Ok(id))
  }

  function CancelledByCommand(row: Row, now: Time): Row {
    row.(job := Vacated(row.job, CANCELLED, now).(cancelRequestedAt := Some(now)),
         events := row.events + [JobCancelRequested, JobCancelled])
  }

  function CancellingByCommand(row: Row, now: Time): Row {
    row.(job := row.job.(status := CANCELLING, cancelRequestedAt := Some(now)),
         events := row.events + [JobCancelRequested])
  }

  const AUDIT_APPLY_DEFINITION := 3

  /** A resolver job must be bound to its intake item, and a waiting audit apply to its frozen input. */
  predicate NeedsBinding(job: Job) {
    || job.kind.jobType.ARCHIVE_RESOLVE_ITEM?
    || (!Executing(job.status) && job.kind == JobKind(WRITER_JOB("SCAN"), AUDIT_APPLY_DEFINITION))
  }

  /** `bound` is what the tables beside the job say of its binding, where it needs one. */
  function CancelCommand(s: State, id: JobId, bound: bool, now: Time): Outcome<Status> {
    if id !in s.rows then Outcome(s, Err(JobNotFound)) else
    var row := s.rows[id];
    if row.job.status.CANCELLING? || row.job.status.CANCELLED? then Outcome(s, Ok(row.job.status))
    else if NeedsBinding(row.job) && !bound then Outcome(s, Err(InvalidStateTransition)) else
    match row.job.status
    case PENDING | RETRY_WAIT | PAUSED => Outcome(WithRow(s, id, CancelledByCommand(row, now)), Ok(CANCELLED))
    case RUNNING | PAUSING => Outcome(WithRow(s, id, CancellingByCommand(row, now)), Ok(CANCELLING))
    case _ => Outcome(s, Err(InvalidStateTransition))
  }

  function PausedByCommand(row: Row, now: Time): Row {
    row.(job := row.job.(status := PAUSED, pauseRequestedAt := Some(now),
                         workerId := None, leaseToken := None, leaseExpiresAt := None),
         events := row.events + [JobPauseRequested, JobPaused])
  }

  function PausingByCommand(row: Row, now: Time): Row {
    row.(job := row.job.(status := PAUSING, pauseRequestedAt := Some(now)), events := row.events + [JobPauseRequested])
  }

  function PauseCommand(s: State, id: JobId, now: Time): Outcome<Status> {
    if id !in s.rows then Outcome(s, Err(JobNotFound)) else
    var row := s.rows[id];
    match row.job.status
    case PAUSING => Outcome(s, Ok(PAUSING))
    case PAUSED => Outcome(s, Ok(PAUSED))
    case PENDING | RETRY_WAIT => Outcome(WithRow(s, id, PausedByCommand(row, now)), Ok(PAUSED))
    case RUNNING => Outcome(WithRow(s, id, PausingByCommand(row, now)), Ok(PAUSING))
    case _ => Outcome(s, Err(InvalidStateTransition))
  }

  function ResumedRow(row: Row, now: Time): Row {
    row.(job := row.job.(status := PENDING, availableAt := Some(now), pauseRequestedAt := None,
                         workerId := None, leaseToken := None, leaseExpiresAt := None),
         events := row.events + [JobQueued(RESUMED)])
  }

  function ResumeCommand(s: State, id: JobId, now: Time): Outcome<Status> {
    if id !in s.rows then Outcome(s, Err(JobNotFound))
    else if !s.rows[id].job.status.PAUSED? then Outcome(s, Err(InvalidStateTransition))
    else Outcome(WithRow(s, id, ResumedRow(s.rows[id], now)), Ok(PENDING))
  }

  /** What a retried job is created from. */
  function RetryOf(job: Job, now: Time): NewJob {
    NewJob(job.kind, RETRY, if job.queuePriority < 99 then job.queuePriority else 99, job.maxAttempts, Some(now), None, None)
  }

  /** A retry leaves the ended job as it is, notes the new job on its trail, and creates that job. */
  function RetryCommand(s: State, id: JobId, retryId: JobId, payloadAccepted: bool, now: Time): Outcome<JobId>
    requires retryId !in s.rows
  {
    if id !in s.rows then Outcome(s, Err(JobNotFound)) else
    var row := s.rows[id];
    if !(row.job.status.FAILED? || row.job.status.CANCELLED? || row.job.status.SKIPPED?)
       || row.job.kind.definitionVersion != FIRST_DEFINITION || !payloadAccepted
    then Outcome(s, Err(InvalidStateTransition))
    else
      var noted := WithRow(s, id, Noted(row, JobRetryScheduled(RETRIED_AS(retryId))));
      Outcome(WithRow(noted, retryId, FreshRow(RetryOf(row.job, now), now)), Ok(retryId))
  }

  function ReprioritizedRow(row: Row, priority: int): Row {
    row.(job := row.job.(queuePriority := priority, effectivePriority := priority),
         events := row.events + [JobQueued(PRIORITY_CHANGED)])
  }

  function ChangePriority(s: State, id: JobId, priority: int): Outcome<int> {
    if priority < 0 || priority > 999 then Outcome(s, Err(InvalidInput))
    else if id !in s.rows then Outcome(s, Err(JobNotFound))
    else
      var row := s.rows[id];
      if !(Waiting(row.job.status) || row.job.status.PAUSED?) || !InBand(row.job.triggerSource, priority)
      then Outcome(s, Err(InvalidStateTransition))
      else Outcome(WithRow(s, id, ReprioritizedRow(row, priority)), Ok(priority))
  }
}
