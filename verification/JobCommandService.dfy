/** The web application's commands as methods that update the same tables in place.  Each has the effect of its
    transaction, and promises its caller what `JobCommandTheorems` proves of that. */
module JobCommandService {
  import opened Prelude
  import opened QueueTables
  import Ops = QueueOperations
  import Commands = JobCommands
  import opened QueueInvariant
  import opened QueueRepository
  import opened JobCommandTheorems

  class CommandService {
    const database: Database

    constructor (database: Database)
      ensures this.database == database
    {
      this.database := database;
    }

    method Enqueue(id: JobId, input: Ops.NewJob, now: Time) returns (reply: Result<JobId, QueueError>)
      requires id !in database.rows
      modifies database`rows
      ensures Outcome(database.Tables(), reply) == Commands.Enqueue(old(database.Tables()), id, input, now)
      ensures EnqueueMeans(old(database.Tables()), id, input, now, Outcome(database.Tables(), reply))
    {
      hide EnqueueMeans;
      EnqueueIsDecided(database.Tables(), id, input, now);
      if !Commands.EnqueueInputOk(input) { return Err(InvalidInput); }
      if input.kind.jobType.ARCHIVE_RESOLVE_ITEM? { return Err(InvalidStateTransition); }
      var availableAt := if input.availableAt.Some? then input.availableAt.value else now;
      var day := if input.triggerSource.SCHEDULE? then input.scheduledForDate else None;
      database.rows := database.rows[id := Ops.FreshRow(input.(availableAt := Some(availableAt), scheduledForDate := day), now)];
      return Ok(id);
    }

    method Cancel(id: JobId, bound: bool, now: Time) returns (reply: Result<Status, QueueError>)
      modifies database`rows
      ensures Outcome(database.Tables(), reply) == Commands.CancelCommand(old(database.Tables()), id, bound, now)
      ensures old(Inv(database.Tables())) ==> CancelMeans(old(database.Tables()), id, bound, now, Outcome(database.Tables(), reply))
    {
      hide Inv, CancelMeans;
      ghost var before := database.Tables();
      if Inv(before) { CancelIsDecided(before, id, bound, now); }
      if id !in database.rows { return Err(JobNotFound); }
      var row := database.rows[id];
      if row.job.status.CANCELLING? || row.job.status.CANCELLED? { return Ok(row.job.status); }
      if row.job.status.COMPLETED? || row.job.status.FAILED? || row.job.status.SKIPPED? { return Err(InvalidStateTransition); }
      if Commands.NeedsBinding(row.job) && !bound { return Err(InvalidStateTransition); }
      var direct := Waiting(row.job.status) || row.job.status.PAUSED?;
      database.rows := database.rows[id := if direct then Commands.CancelledByCommand(row, now)
                                           else Commands.CancellingByCommand(row, now)];
      return Ok(if direct then CANCELLED else CANCELLING);
    }

    method Pause(id: JobId, now: Time) returns (reply: Result<Status, QueueError>)
      modifies database`rows
      ensures Outcome(database.Tables(), reply) == Commands.PauseCommand(old(database.Tables()), id, now)
      ensures old(Inv(database.Tables())) ==> PauseMeans(old(database.Tables()), id, now, Outcome(database.Tables(), reply))
    {
      hide Inv, PauseMeans;
      ghost var before := database.Tables();
      if Inv(before) { PauseIsDecided(before, id, now); }
      if id !in database.rows { return Err(JobNotFound); }
      var row := database.rows[id];
      if row.job.status.PAUSING? || row.job.status.PAUSED? { return Ok(row.job.status); }
      if !Waiting(row.job.status) && !row.job.status.RUNNING? { return Err(InvalidStateTransition); }
      var direct := !row.job.status.RUNNING?;
      database.rows := database.rows[id := if direct then Commands.PausedByCommand(row, now)
                                           else Commands.PausingByCommand(row, now)];
      return Ok(if direct then PAUSED else PAUSING);
    }

    method Resume(id: JobId, now: Time) returns (reply: Result<Status, QueueError>)
      modifies database`rows
      ensures Outcome(database.Tables(), reply) == Commands.ResumeCommand(old(database.Tables()), id, now)
      ensures old(Inv(database.Tables())) ==> ResumeMeans(old(database.Tables()), id, now, Outcome(database.Tables(), reply))
    {
      hide Inv, ResumeMeans;
      ghost var before := database.Tables();
      if Inv(before) { ResumeIsDecided(before, id, now); }
      if id !in database.rows { return Err(JobNotFound); }
      if !database.rows[id].job.status.PAUSED? { return Err(InvalidStateTransition); }
      database.rows := database.rows[id := Commands.ResumedRow(database.rows[id], now)];
      return Ok(PENDING);
    }

    method Retry(id: JobId, retryId: JobId, payloadAccepted: bool, now: Time) returns (reply: Result<JobId, QueueError>)
      requires retryId !in database.rows
      modifies database`rows
      ensures Outcome(database.Tables(), reply)
           == Commands.RetryCommand(old(database.Tables()), id, retryId, payloadAccepted, now)
      ensures old(Inv(database.Tables())) ==> RetryMeans(old(database.Tables()), id, retryId, payloadAccepted, now, Outcome(database.Tables(), reply))
    {
      hide Inv, RetryMeans;
      ghost var before := database.Tables();
      if Inv(before) { RetryIsDecided(before, id, retryId, payloadAccepted, now); }
      if id !in database.rows { return Err(JobNotFound); }
      var row := database.rows[id];
      if !(row.job.status.FAILED? || row.job.status.CANCELLED? || row.job.status.SKIPPED?) { return Err(InvalidStateTransition); }
      if row.job.kind.definitionVersion != Commands.FIRST_DEFINITION || !payloadAccepted { return Err(InvalidStateTransition); }
      database.rows := database.rows[id := Ops.Noted(row, JobRetryScheduled(RETRIED_AS(retryId)))];
      database.rows := database.rows[retryId := Ops.FreshRow(Commands.RetryOf(row.job, now), now)];
      return Ok(retryId);
    }

    method ChangePriority(id: JobId, priority: int) returns (reply: Result<int, QueueError>)
      modifies database`rows
      ensures Outcome(database.Tables(), reply) == Commands.ChangePriority(old(database.Tables()), id, priority)
      ensures old(Inv(database.Tables())) ==> ChangeMeans(old(database.Tables()), id, priority, Outcome(database.Tables(), reply))
    {
      hide Inv, ChangeMeans;
      ghost var before := database.Tables();
      if Inv(before) { ChangeIsDecided(before, id, priority); }
      if priority < 0 || priority > 999 { return Err(InvalidInput); }
      if id !in database.rows { return Err(JobNotFound); }
      var row := database.rows[id];
      if !Waiting(row.job.status) && !row.job.status.PAUSED? { return Err(InvalidStateTransition); }
      if !Ops.InBand(row.job.triggerSource, priority) { return Err(InvalidStateTransition); }
      database.rows := database.rows[id := Commands.ReprioritizedRow(row, priority)];
      return Ok(priority);
    }
  }
}
