/** Every update of a single row keeps the row invariant and the row's order of evolution. */
module QueueRowMoves {
  import opened Prelude
  import opened QueueTables
  import opened QueueOperations
  import opened JobCommands
  import opened QueueLedger
  import opened QueueInvariant

  lemma FreshRowOk(input: NewJob, now: Time)
    requires !input.triggerSource.LEGACY? && InBand(input.triggerSource, input.priority) && input.maxAttempts >= 1
    ensures RowOk(FreshRow(input, now)) && !Executing(FreshRow(input, now).job.status) && FreshRow(input, now).claims == []
  {
    ReadOne([], JobQueued(ENQUEUED));
    assert [] + [JobQueued(ENQUEUED)] == [JobQueued(ENQUEUED)];
  }

  lemma NotedKept(row: Row, event: Event)
    requires RowOk(row)
    requires event.JobProgress? || event.LeaseRecovered?
             || (event.JobRetryScheduled? && event.cause.RETRIED_AS? && Terminal(row.job.status))
    ensures Kept(row, Noted(row, event))
  {
    ReadOne(row.events, event);
  }

  lemma BeatKept(row: Row, expiresAt: Time)
    requires RowOk(row) && Executing(row.job.status)
    ensures Kept(row, row.(job := row.job.(leaseExpiresAt := Some(expiresAt))))
  {
  }

  lemma WritesKept(row: Row, payloads: seq<int>)
    requires RowOk(row) && Executing(row.job.status)
    ensures Kept(row, row.(published := row.published + WritesOf(row.claims[|row.claims| - 1], payloads)))
  {
    var last := |row.claims| - 1;
    var later := row.(published := row.published + WritesOf(row.claims[last], payloads));
    assert IsAt(row.claims, last, row.claims[last]);
    forall i | |row.published| <= i < |later.published|
      ensures ClaimedSince(later.claims, OpenClaim(row), later.published[i].token) {}
  }

  lemma EndedKept(row: Row, door: Door, intent: Intent, now: Time)
    requires RowOk(row) && Executing(row.job.status) && Admits(door, row.job, intent)
    ensures Kept(row, EndedRow(row, row.claims[|row.claims| - 1], door, intent, now))
  {
    EndedRowOk(row, door, intent, now);
    var last := |row.claims| - 1;
    assert IsAt(row.claims, last, row.claims[last]);
  }

  lemma EndedRowOk(row: Row, door: Door, intent: Intent, now: Time)
    requires RowOk(row) && Executing(row.job.status) && Admits(door, row.job, intent)
    ensures RowOk(EndedRow(row, row.claims[|row.claims| - 1], door, intent, now))
  {
    ReadOne(row.events, EndingEvent(intent));
    EndedHistory(row, TargetStatus(intent));
  }

  lemma EndedHistory(row: Row, status: Status)
    requires RowOk(row) && Executing(row.job.status)
    ensures InClaimOrder(row.published + [Published(row.claims[|row.claims| - 1], Finalization(status))], row.claims)
  {
    var last := |row.claims| - 1;
    var later := row.published + [Published(row.claims[last], Finalization(status))];
    forall i, j, a, b | 0 <= i < j < |later| && IsAt(row.claims, a, later[i].token) && IsAt(row.claims, b, later[j].token)
      ensures a <= b && (a == b ==> later[i].effect.DomainWrite?)
    {
      assert later[i] == row.published[i];
      if j == |row.published| { assert b == last; }
    }
  }

  lemma CancelNowKept(row: Row, now: Time)
    requires RowOk(row) && (Waiting(row.job.status) || row.job.status.PAUSED?)
    ensures Kept(row, CancelNow(row, now))
  {
    ReadOne(row.events, JobCancelled);
  }

  lemma CancelLaterKept(row: Row, now: Time)
    requires RowOk(row) && (row.job.status.RUNNING? || row.job.status.PAUSING?)
    ensures Kept(row, CancelLater(row, now))
  {
    ReadOne(row.events, JobCancelRequested);
  }

  lemma CancelledByCommandKept(row: Row, now: Time)
    requires RowOk(row) && (Waiting(row.job.status) || row.job.status.PAUSED?)
    ensures Kept(row, CancelledByCommand(row, now))
  {
    ReadTwo(row.events, JobCancelRequested, JobCancelled);
  }

  lemma CancellingByCommandKept(row: Row, now: Time)
    requires RowOk(row) && (row.job.status.RUNNING? || row.job.status.PAUSING?)
    ensures Kept(row, CancellingByCommand(row, now))
  {
    ReadOne(row.events, JobCancelRequested);
  }

  lemma PausedByCommandKept(row: Row, now: Time)
    requires RowOk(row) && Waiting(row.job.status)
    ensures Kept(row, PausedByCommand(row, now))
  {
    ReadTwo(row.events, JobPauseRequested, JobPaused);
  }

  lemma PausingByCommandKept(row: Row, now: Time)
    requires RowOk(row) && row.job.status.RUNNING?
    ensures Kept(row, PausingByCommand(row, now))
  {
    ReadOne(row.events, JobPauseRequested);
  }

  lemma ResumedKept(row: Row, now: Time)
    requires RowOk(row) && row.job.status.PAUSED?
    ensures Kept(row, ResumedRow(row, now))
  {
    ReadOne(row.events, JobQueued(RESUMED));
    assert ResumedRow(row, now).events[|row.events|] == JobQueued(RESUMED);
  }

  lemma ReprioritizedKept(row: Row, priority: int)
    requires RowOk(row) && (Waiting(row.job.status) || row.job.status.PAUSED?) && InBand(row.job.triggerSource, priority)
    ensures Kept(row, ReprioritizedRow(row, priority))
  {
    ReadOne(row.events, JobQueued(PRIORITY_CHANGED));
  }

  lemma RecoveredKept(row: Row, now: Time)
    requires RowOk(row) && Executing(row.job.status)
    ensures Kept(row, RecoveredRow(row, now))
  {
    ReadTwo(row.events, LeaseRecovered(false), RecoveryEvent(RecoveredStatus(row.job)));
  }

  lemma SkippedKept(row: Row, now: Time)
    requires RowOk(row) && Waiting(row.job.status)
    ensures Kept(row, SkippedRow(row, now))
  {
    ReadOne(row.events, JobSkipped);
  }

  lemma AgedKept(row: Row, now: Time)
    requires RowOk(row)
    ensures Kept(row, row.(job := row.job.(effectivePriority := AgedPriority(row.job, now))))
  {
    AgingStaysInBand(row.job, now);
  }

  /** Aging only ever lowers a priority, and never out of the band of its trigger. */
  lemma AgingStaysInBand(job: Job, now: Time)
    requires !job.triggerSource.LEGACY? && InBand(job.triggerSource, job.queuePriority)
    ensures InBand(job.triggerSource, AgedPriority(job, now))
    ensures AgedPriority(job, now) <= job.queuePriority
  {
  }

  lemma ClaimedKept(row: Row, input: ClaimInput)
    requires RowOk(row) && Waiting(row.job.status) && row.job.attempt < row.job.maxAttempts && row.job.cancelRequestedAt.None?
    requires input.token !in row.claims
    ensures Kept(row, ClaimedRow(row, input))
  {
    ReadOne(row.events, JobClaimed);
    var later := ClaimedRow(row, input);
    assert forall i :: 0 <= i < |row.published| ==> row.published[i].token != input.token;
    forall i, j, a, b | 0 <= i < j < |row.published|
        && IsAt(later.claims, a, row.published[i].token) && IsAt(later.claims, b, row.published[j].token)
      ensures a <= b && (a == b ==> row.published[i].effect.DomainWrite?)
    {
      assert IsAt(row.claims, a, row.published[i].token) && IsAt(row.claims, b, row.published[j].token);
    }
  }
}
