/** The tables behind the job queue: job rows, lane leases, the append-only event trail, and the log of
    what executions published.  Identifiers and times are numbers; every time is a clock reading in
    milliseconds, and nothing relates two readings unless a statement says so. */
module QueueTables {
  import opened Prelude

  type JobId = nat
  type WorkerId = string
  type Token = nat
  type Time = int

  datatype Lane = ARCHIVE_RESOLVE | BACKGROUND_WRITER

  datatype JobType = ARCHIVE_RESOLVE_ITEM | ARCHIVE_IMPORT | WRITER_JOB(name: string)

  /** What a worker must support to run a job: the type together with its definition version. */
  datatype JobKind = JobKind(jobType: JobType, definitionVersion: nat)

  function LaneOf(jobType: JobType): Lane {
    if jobType.ARCHIVE_RESOLVE_ITEM? then ARCHIVE_RESOLVE else BACKGROUND_WRITER
  }

  datatype Status =
    | PENDING | RUNNING | PAUSING | PAUSED | RETRY_WAIT
    | COMPLETED | FAILED | CANCELLED | CANCELLING | SKIPPED

  predicate Executing(status: Status) { status.RUNNING? || status.PAUSING? || status.CANCELLING? }

  predicate Waiting(status: Status) { status.PENDING? || status.RETRY_WAIT? }

  predicate Terminal(status: Status) {
    status.COMPLETED? || status.FAILED? || status.CANCELLED? || status.SKIPPED?
  }

  datatype TriggerSource = MANUAL | SCHEDULE | SYSTEM | RETRY | LEGACY

  datatype Job = Job(
    kind: JobKind,
    lane: Lane,
    status: Status,
    triggerSource: TriggerSource,
    attempt: int,
    maxAttempts: int,
    queuePriority: int,
    effectivePriority: int,
    availableAt: Option<Time>,
    deadlineAt: Option<Time>,
    scheduledForDate: Option<int>,
    createdAt: Time,
    workerId: Option<WorkerId>,
    leaseToken: Option<Token>,
    leaseExpiresAt: Option<Time>,
    finishedAt: Option<Time>,
    cancelRequestedAt: Option<Time>,
    pauseRequestedAt: Option<Time>)

  /** The row of `job_resource_leases` for one lane; the lane is its primary key. */
  datatype Lease = Lease(ownerJobId: JobId, workerId: WorkerId, leaseToken: Token, expiresAt: Time)

  /** What a worker presents with every call about the job it holds. */
  datatype Fence = Fence(jobId: JobId, workerId: WorkerId, executionToken: Token, attempt: int)

  // An event is its type plus the part of its data that separates two uses of the same type.
  datatype QueuedCause = ENQUEUED | RESUMED | PRIORITY_CHANGED
  datatype RetryCause = RETRY_REQUESTED | ATTEMPT_PRESERVED | SHUTDOWN_RELEASE | LEASE_EXPIRED | RETRIED_AS(job: JobId)

  datatype Event =
    | JobQueued(queuedBy: QueuedCause)
    | JobClaimed
    | JobProgress
    | JobRetryScheduled(cause: RetryCause)
    | JobPauseRequested
    | JobPaused
    | JobCancelRequested
    | JobCancelled
    | JobCompleted
    | JobFailed
    | JobSkipped
    | LeaseRecovered(cleanupOnly: bool)

  /** One committed effect of an execution: a domain write of its callback, or the transition that ended it. */
  datatype Effect = DomainWrite(payload: int) | Finalization(status: Status)

  datatype Published = Published(token: Token, effect: Effect)

  /** A job row with the records keyed by it.  `claims` is the history of tokens handed out for the job and
      `grant` the attempt budget it was created with; the program stores neither, the theorems speak of both. */
  datatype Row = Row(job: Job, events: seq<Event>, published: seq<Published>, claims: seq<Token>, grant: int)

  datatype State = State(rows: map<JobId, Row>, leases: map<Lane, Lease>)

  const EMPTY := State(map[], map[])

  datatype QueueError =
    | FenceLost
    | RetryInPast
    | CallbackThrew
    | NotFinalizedOnce
    | JobNotFound
    | InvalidStateTransition
    | InvalidInput

  /** The state a transaction leaves behind, and what its caller sees.  An error means it rolled back. */
  datatype Outcome<+T> = Outcome(state: State, reply: Result<T, QueueError>)
}
