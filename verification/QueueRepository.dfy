/** The queue repository as the program has it: an object whose methods update the tables in place, statement by
    statement, each proved against the transaction it stands for. */
module QueueRepository {
  import opened Prelude
  import opened QueueTables
  import Ops = QueueOperations
  import opened QueueInvariant
  import opened QueueColumns
  import opened QueueContracts
  import opened ClaimContract

  class Database {
    var rows: map<JobId, Row>
    var leases: map<Lane, Lease>

    ghost function Tables(): State
      reads this
    {
      State(rows, leases)
    }

    constructor ()
      ensures Tables() == EMPTY
    {
      rows, leases := map[], map[];
    }
  }

  class PostgresQueueRepository {
    const database: Database
    const leaseMs: int

    constructor (database: Database, leaseMs: int)
      ensures this.database == database && this.leaseMs == leaseMs
    {
      this.database := database;
      this.leaseMs := leaseMs;
    }

    // ----- statements shared by the transactions -------------------------------------------------

    /** `lockOwnedExecution`: both the lease row and the job row must name the fence, and both must be live. */
    method LockOwnedExecution(fence: Fence, now: Time) returns (reply: Result<Status, QueueError>)
      ensures reply.Ok? <==> Ops.Owns(database.Tables(), fence, now)
      ensures reply.Ok? ==> reply.value == database.rows[fence.jobId].job.status
      ensures reply.Err? ==> reply.error == FenceLost
      ensures Inv(database.Tables()) ==> (reply.Ok? <==> FenceWorks(database.Tables(), fence, now))
    {
      hide Inv, FenceWorks;
      if Inv(database.Tables()) { FenceWorksExactly(database.Tables(), fence, now); }
      var leaseRows := set lane | lane in database.leases && Ops.LeaseNames(database.leases[lane], fence)
                                  && database.leases[lane].expiresAt > now;
      assert leaseRows == Ops.LiveLeasesNaming(database.Tables(), fence, now);
      if leaseRows == {} { return Err(FenceLost); }
      if fence.jobId !in database.rows || !Ops.JobNames(database.rows[fence.jobId].job, fence, now) {
        return Err(FenceLost);
      }
      return Ok(database.rows[fence.jobId].job.status);
    }

    method UpdateRow(id: JobId, row: Row)
      modifies database`rows
      ensures database.Tables() == Ops.WithRow(old(database.Tables()), id, row)
    {
      database.rows := database.rows[id := row];
    }

    /** `transitionOwnedJobInTransaction`: the guarded update, then the lease delete that must hit one row. */
    method TransitionOwnedJob(fence: Fence, door: Ops.Door, intent: Ops.Intent, now: Time) returns (reply: Result<(), QueueError>)
      modifies database
      ensures Outcome(database.Tables(), reply) == Ops.Transition(old(database.Tables()), fence, door, intent, now)
      ensures old(Inv(database.Tables()) && FenceWorks(database.Tables(), fence, now))
              && (intent.Retry? && intent.preserveAttempt ==> door.TRANSACTION?) ==>
                TransitionPromise(old(database.Tables()), fence, door.TRANSACTION?, intent, now, Outcome(database.Tables(), reply))
    {
      hide Inv, FenceWorks, TransitionPromise;
      ghost var before := database.Tables();
      if Inv(before) && FenceWorks(before, fence, now) && (intent.Retry? && intent.preserveAttempt ==> door.TRANSACTION?) {
        TransitionEnds(before, fence, door.TRANSACTION?, intent, now);
      }
      if fence.jobId !in database.rows { return Err(FenceLost); }
      var row := database.rows[fence.jobId];
      if !Ops.JobNames(row.job, fence, now) || !Ops.Admits(door, row.job, intent) { return Err(FenceLost); }
      var named := set lane | lane in database.leases && Ops.LeaseNames(database.leases[lane], fence);
      assert named == Ops.LeasesNaming(database.Tables(), fence);
      if Ops.Sole(named).None? { return Err(FenceLost); }
      database.rows := database.rows[fence.jobId := Ops.EndedRow(row, fence.executionToken, door, intent, now)];
      database.leases := database.leases - named;
      return Ok(());
    }

    // ----- calls of the holder -----------------------------------------------------------------------

    method Heartbeat(fence: Fence, now: Time) returns (reply: Result<Time, QueueError>)
      modifies database
      ensures Outcome(database.Tables(), reply) == Ops.Heartbeat(old(database.Tables()), fence, now, leaseMs)
      ensures old(Inv(database.Tables())) ==> HeartbeatPromise(old(database.Tables()), fence, now, leaseMs, Outcome(database.Tables(), reply))
    {
      hide Inv, HeartbeatPromise;
      ghost var before := database.Tables();
      if Inv(before) { HeartbeatKeepsPromise(before, fence, now, leaseMs); }
      var expiresAt := now + leaseMs;
      var live := set lane | lane in database.leases && Ops.LeaseNames(database.leases[lane], fence)
                             && database.leases[lane].expiresAt > now;
      assert live == Ops.LiveLeasesNaming(database.Tables(), fence, now);
      var lane := Ops.Sole(live);
      if lane.None? { return Err(FenceLost); }
      if fence.jobId !in database.rows || !Ops.JobNames(database.rows[fence.jobId].job, fence, now) {
        return Err(FenceLost);
      }
      database.leases := database.leases[lane.value := database.leases[lane.value].(expiresAt := expiresAt)];
      var row := database.rows[fence.jobId];
      database.rows := database.rows[fence.jobId := row.(job := row.job.(leaseExpiresAt := Some(expiresAt)))];
      return Ok(expiresAt);
    }

    method UpdateProgress(fence: Fence, progress: int, now: Time) returns (reply: Result<(), QueueError>)
      modifies database`rows
      ensures Outcome(database.Tables(), reply) == Ops.UpdateProgress(old(database.Tables()), fence, progress, now)
      ensures old(Inv(database.Tables())) ==> ProgressPromise(old(database.Tables()), fence, progress, now, Outcome(database.Tables(), reply))
    {
      hide Inv, ProgressPromise;
      ghost var before := database.Tables();
      if Inv(before) { ProgressKeepsPromise(before, fence, progress, now); }
      if progress < 0 || progress > 100 { return Err(InvalidInput); }
      var locked := LockOwnedExecution(fence, now);
      if locked.Err? { return Err(locked.error); }
      UpdateRow(fence.jobId, Ops.Noted(database.rows[fence.jobId], JobProgress));
      return Ok(());
    }

    method ReadExecutionControl(fence: Fence, now: Time) returns (reply: Result<Ops.Control, QueueError>)
      ensures reply == Ops.ReadControl(database.Tables(), fence, now)
      ensures Inv(database.Tables()) ==> ControlPromise(database.Tables(), fence, now, reply)
    {
      hide Inv, ControlPromise;
      if Inv(database.Tables()) { ControlKeepsPromise(database.Tables(), fence, now); }
      var locked := LockOwnedExecution(fence, now);
      if locked.Err? { return Err(locked.error); }
      var job := database.rows[fence.jobId].job;
      return Ok(Ops.Control(job.status, job.cancelRequestedAt, job.pauseRequestedAt));
    }

    method EnqueueChild(fence: Fence, id: JobId, input: Ops.NewJob, now: Time) returns (reply: Result<JobId, QueueError>)
      requires id !in database.rows
      modifies database`rows
      ensures Outcome(database.Tables(), reply) == Ops.EnqueueChild(old(database.Tables()), fence, id, input, now)
      ensures old(Inv(database.Tables())) ==> ChildPromise(old(database.Tables()), fence, id, input, now, Outcome(database.Tables(), reply))
    {
      hide Inv, ChildPromise;
      ghost var before := database.Tables();
      if Inv(before) { ChildKeepsPromise(before, fence, id, input, now); }
      var availableAt := if input.availableAt.Some? then input.availableAt.value else now;
      if !Ops.InBand(SYSTEM, input.priority) || input.maxAttempts <= 0 || input.kind.definitionVersion == 0 {
        return Err(InvalidInput);
      }
      if input.deadlineAt.Some? && (input.deadlineAt.value <= now || input.deadlineAt.value <= availableAt) {
        return Err(InvalidInput);
      }
      var locked := LockOwnedExecution(fence, now);
      if locked.Err? { return Err(locked.error); }
      var child := input.(triggerSource := SYSTEM, availableAt := Some(availableAt), scheduledForDate := None);
      UpdateRow(id, Ops.FreshRow(child, now));
      return Ok(id);
    }

    // ----- settlement ------------------------------------------------------------------------------

    method TransitionOwned(fence: Fence, intent: Ops.Intent, now: Time) returns (reply: Result<(), QueueError>)
      requires intent.Retry? ==> !intent.preserveAttempt && intent.availableAt >= now
      modifies database
      ensures Outcome(database.Tables(), reply) == Ops.Settle(old(database.Tables()), fence, intent, now, now)
    {
      var locked := LockOwnedExecution(fence, now);
      if locked.Err? { return Err(FenceLost); }
      reply := TransitionOwnedJob(fence, Ops.SETTLEMENT, intent, now);
    }

    method Complete(fence: Fence, now: Time) returns (reply: Result<(), QueueError>)
      modifies database
      ensures Outcome(database.Tables(), reply) == Ops.Settle(old(database.Tables()), fence, Ops.Complete, now, now)
      ensures old(Inv(database.Tables())) ==> SettlementPromise(old(database.Tables()), fence, Ops.Complete, now, now, Outcome(database.Tables(), reply))
    {
      hide Inv, SettlementPromise;
      ghost var before := database.Tables();
      if Inv(before) { SettlementKeepsPromise(before, fence, Ops.Complete, now, now); }
      reply := TransitionOwned(fence, Ops.Complete, now);
    }

    method Fail(fence: Fence, now: Time) returns (reply: Result<(), QueueError>)
      modifies database
      ensures Outcome(database.Tables(), reply) == Ops.Settle(old(database.Tables()), fence, Ops.Fail, now, now)
      ensures old(Inv(database.Tables())) ==> SettlementPromise(old(database.Tables()), fence, Ops.Fail, now, now, Outcome(database.Tables(), reply))
    {
      hide Inv, SettlementPromise;
      ghost var before := database.Tables();
      if Inv(before) { SettlementKeepsPromise(before, fence, Ops.Fail, now, now); }
      reply := TransitionOwned(fence, Ops.Fail, now);
    }

    /** Reads the clock twice: once to refuse a date in the past, once for the transaction. */
    method Retry(fence: Fence, availableAt: Time, calledAt: Time, now: Time) returns (reply: Result<(), QueueError>)
      modifies database
      ensures Outcome(database.Tables(), reply)
           == Ops.Settle(old(database.Tables()), fence, Ops.Retry(availableAt, false), calledAt, now)
      ensures old(Inv(database.Tables())) ==> SettlementPromise(old(database.Tables()), fence, Ops.Retry(availableAt, false), calledAt, now, Outcome(database.Tables(), reply))
    {
      hide Inv, SettlementPromise;
      ghost var before := database.Tables();
      if Inv(before) { SettlementKeepsPromise(before, fence, Ops.Retry(availableAt, false), calledAt, now); }
      if availableAt < calledAt { return Err(RetryInPast); }
      var locked := LockOwnedExecution(fence, now);
      if locked.Err? { return Err(FenceLost); }
      reply := TransitionOwnedJob(fence, Ops.SETTLEMENT, Ops.Retry(availableAt, false), now);
    }

    method Skip(fence: Fence, now: Time) returns (reply: Result<(), QueueError>)
      modifies database
      ensures Outcome(database.Tables(), reply) == Ops.Settle(old(database.Tables()), fence, Ops.Skip, now, now)
      ensures old(Inv(database.Tables())) ==> SettlementPromise(old(database.Tables()), fence, Ops.Skip, now, now, Outcome(database.Tables(), reply))
    {
      hide Inv, SettlementPromise;
      ghost var before := database.Tables();
      if Inv(before) { SettlementKeepsPromise(before, fence, Ops.Skip, now, now); }
      reply := TransitionOwned(fence, Ops.Skip, now);
    }

    method Cancel(fence: Fence, now: Time) returns (reply: Result<(), QueueError>)
      modifies database
      ensures Outcome(database.Tables(), reply) == Ops.Settle(old(database.Tables()), fence, Ops.Cancel, now, now)
      ensures old(Inv(database.Tables())) ==> SettlementPromise(old(database.Tables()), fence, Ops.Cancel, now, now, Outcome(database.Tables(), reply))
    {
      hide Inv, SettlementPromise;
      ghost var before := database.Tables();
      if Inv(before) { SettlementKeepsPromise(before, fence, Ops.Cancel, now, now); }
      reply := TransitionOwned(fence, Ops.Cancel, now);
    }

    method Pause(fence: Fence, now: Time) returns (reply: Result<(), QueueError>)
      modifies database
      ensures Outcome(database.Tables(), reply) == Ops.Settle(old(database.Tables()), fence, Ops.Pause, now, now)
      ensures old(Inv(database.Tables())) ==> SettlementPromise(old(database.Tables()), fence, Ops.Pause, now, now, Outcome(database.Tables(), reply))
    {
      hide Inv, SettlementPromise;
      ghost var before := database.Tables();
      if Inv(before) { SettlementKeepsPromise(before, fence, Ops.Pause, now, now); }
      reply := TransitionOwned(fence, Ops.Pause, now);
    }

    method Release(fence: Fence, now: Time) returns (reply: Result<(), QueueError>)
      modifies database
      ensures Outcome(database.Tables(), reply) == Ops.Settle(old(database.Tables()), fence, Ops.Release, now, now)
      ensures old(Inv(database.Tables())) ==> SettlementPromise(old(database.Tables()), fence, Ops.Release, now, now, Outcome(database.Tables(), reply))
    {
      hide Inv, SettlementPromise;
      ghost var before := database.Tables();
      if Inv(before) { SettlementKeepsPromise(before, fence, Ops.Release, now, now); }
      reply := TransitionOwned(fence, Ops.Release, now);
    }

    // ----- fenced transactions -------------------------------------------------------------------

    /** One domain write of a callback, published inside the still open transaction. */
    method Publish(fence: Fence, payload: int)
      requires fence.jobId in database.rows
      modifies database`rows
      ensures database.Tables() == Ops.WithWrites(old(database.Tables()), fence, [payload])
    {
      var row := database.rows[fence.jobId];
      assert Ops.WritesOf(fence.executionToken, [payload]) == [Published(fence.executionToken, DomainWrite(payload))];
      UpdateRow(fence.jobId, row.(published := row.published + [Published(fence.executionToken, DomainWrite(payload))]));
    }

    lemma OneMoreWrite(s: State, fence: Fence, payloads: seq<int>, payload: int)
      requires fence.jobId in s.rows
      ensures Ops.WithWrites(Ops.WithWrites(s, fence, payloads), fence, [payload]) == Ops.WithWrites(s, fence, payloads + [payload])
    {
      var token := fence.executionToken;
      assert Ops.WritesOf(token, payloads) + Ops.WritesOf(token, [payload]) == Ops.WritesOf(token, payloads + [payload]);
      var published := s.rows[fence.jobId].published;
      assert (published + Ops.WritesOf(token, payloads)) + Ops.WritesOf(token, [payload])
          == published + Ops.WritesOf(token, payloads + [payload]);
    }

    lemma NoWrites(s: State, fence: Fence)
      requires fence.jobId in s.rows
      ensures Ops.WithWrites(s, fence, []) == s
    {
      assert s.rows[fence.jobId].published + Ops.WritesOf(fence.executionToken, []) == s.rows[fence.jobId].published;
      assert s.rows[fence.jobId := s.rows[fence.jobId]] == s.rows;
    }

    /** `withFencedExecutionTransaction`: the finalizers only record an intent, which is carried out after the
        callback has returned; any failure restores the tables. */
    method WithFencedExecutionTransaction(fence: Fence, steps: seq<Ops.CallbackStep>, enteredAt: Time, lockedAt: Time, finalizedAt: Time)
      returns (reply: Result<(), QueueError>)
      modifies database
      ensures Outcome(database.Tables(), reply)
           == Ops.FencedExecution(old(database.Tables()), fence, steps, enteredAt, lockedAt, finalizedAt)
      ensures old(Inv(database.Tables())) ==> ExecutionPromise(old(database.Tables()), fence, steps, enteredAt, lockedAt, finalizedAt, Outcome(database.Tables(), reply))
    {
      hide Inv, ExecutionPromise;
      ghost var before := database.Tables();
      if Inv(before) { ExecutionKeepsPromise(before, fence, steps, enteredAt, lockedAt, finalizedAt); }
      var rowsAtBegin, leasesAtBegin := database.rows, database.leases;
      var locked := LockOwnedExecution(fence, enteredAt);
      if locked.Err? { return Err(FenceLost); }
      locked := LockOwnedExecution(fence, lockedAt);
      if locked.Err? { return Err(FenceLost); }

      var calls: nat, intent: Option<Ops.Intent>, threw := 0, None, false;
      ghost var payloads := [];
      NoWrites(database.Tables(), fence);
      for i := 0 to |steps|
        invariant Ops.RunCallback(steps[..i]) == Ops.CallbackRun(payloads, calls, intent, threw)
        invariant database.Tables() == Ops.WithWrites(old(database.Tables()), fence, payloads)
      {
        assert steps[..i + 1][..i] == steps[..i] && steps[..i + 1][i] == steps[i];
        if !threw {
          match steps[i]
          case Write(payload) =>
            OneMoreWrite(old(database.Tables()), fence, payloads, payload);
            Publish(fence, payload);
            payloads := payloads + [payload];
          case Throw => threw := true;
          case Finalize(wanted, at, catches) =>
            if wanted.Retry? && wanted.availableAt < at {
              threw := !catches;
            } else {
              calls := calls + 1;
              if calls > 1 { threw := !catches; } else { intent := Some(wanted); }
            }
        }
      }
      assert steps[..|steps|] == steps;

      reply := Ok(());
      if threw {
        reply := Err(CallbackThrew);
      } else if calls != 1 || intent.None? {
        reply := Err(NotFinalizedOnce);
      } else if intent.value.Retry? && intent.value.availableAt < finalizedAt {
        reply := Err(RetryInPast);
      } else {
        locked := LockOwnedExecution(fence, finalizedAt);
        OwnsThroughWrites(old(database.Tables()), fence, payloads, finalizedAt);
        if locked.Err? {
          reply := Err(FenceLost);
        } else {
          reply := TransitionOwnedJob(fence, Ops.TRANSACTION, intent.value, finalizedAt);
        }
      }
      if reply.Err? { database.rows, database.leases := rowsAtBegin, leasesAtBegin; }
    }

    lemma OwnsThroughWrites(s: State, fence: Fence, payloads: seq<int>, now: Time)
      requires fence.jobId in s.rows
      ensures Ops.Owns(Ops.WithWrites(s, fence, payloads), fence, now) <==> Ops.Owns(s, fence, now)
    {
      assert Ops.LiveLeasesNaming(Ops.WithWrites(s, fence, payloads), fence, now) == Ops.LiveLeasesNaming(s, fence, now);
    }

    /** `withFencedMutationTransaction` */
    method WithFencedMutationTransaction(fence: Fence, payloads: seq<int>, threw: bool, enteredAt: Time, committedAt: Time)
      returns (reply: Result<(), QueueError>)
      modifies database`rows
      ensures Outcome(database.Tables(), reply)
           == Ops.FencedMutation(old(database.Tables()), fence, payloads, threw, enteredAt, committedAt)
      ensures old(Inv(database.Tables())) ==> MutationPromise(old(database.Tables()), fence, payloads, threw, enteredAt, committedAt, Outcome(database.Tables(), reply))
    {
      hide Inv, MutationPromise;
      ghost var before := database.Tables();
      if Inv(before) { MutationKeepsPromise(before, fence, payloads, threw, enteredAt, committedAt); }
      var rowsAtBegin := database.rows;
      var locked := LockOwnedExecution(fence, enteredAt);
      if locked.Err? || !locked.value.RUNNING? { return Err(FenceLost); }
      NoWrites(database.Tables(), fence);
      for i := 0 to |payloads|
        invariant database.Tables() == Ops.WithWrites(old(database.Tables()), fence, payloads[..i])
      {
        OneMoreWrite(old(database.Tables()), fence, payloads[..i], payloads[i]);
        assert payloads[..i] + [payloads[i]] == payloads[..i + 1];
        Publish(fence, payloads[i]);
      }
      assert payloads[..|payloads|] == payloads;
      if threw {
        database.rows := rowsAtBegin;
        return Err(CallbackThrew);
      }
      locked := LockOwnedExecution(fence, committedAt);
      OwnsThroughWrites(old(database.Tables()), fence, payloads, committedAt);
      if locked.Err? {
        database.rows := rowsAtBegin;
        return Err(FenceLost);
      }
      return Ok(());
    }

    // ----- cancellation, recovery, skipping ------------------------------------------------------------

    method RequestCancellation(id: JobId, now: Time) returns (reply: Result<Option<Status>, QueueError>)
      modifies database
      ensures Outcome(database.Tables(), reply) == Ops.RequestCancellation(old(database.Tables()), id, now)
      ensures old(Inv(database.Tables())) ==> CancellationPromise(old(database.Tables()), id, now, Outcome(database.Tables(), reply))
    {
      hide Inv, CancellationPromise;
      ghost var before := database.Tables();
      if Inv(before) { CancellationKeepsPromise(before, id, now); }
      if id !in database.rows { return Ok(None); }
      var row := database.rows[id];
      if row.job.status.PENDING? || row.job.status.RETRY_WAIT? || row.job.status.PAUSED? {
        database.rows := database.rows[id := Ops.CancelNow(row, now)];
        database.leases := database.leases - (set lane | lane in database.leases && database.leases[lane].ownerJobId == id);
        return Ok(Some(CANCELLED));
      }
      if row.job.status.RUNNING? || row.job.status.PAUSING? {
        UpdateRow(id, Ops.CancelLater(row, now));
        return Ok(Some(CANCELLING));
      }
      return Ok(None);
    }

    /** `recoverExpiredExecution` */
    method RecoverExpiredExecution(lane: Lane, now: Time) returns (reply: Result<Option<(JobId, Status)>, QueueError>)
      modifies database
      ensures Outcome(database.Tables(), reply) == Ops.Recover(old(database.Tables()), lane, now)
      ensures old(Inv(database.Tables())) ==> RecoveryPromise(old(database.Tables()), lane, now, Outcome(database.Tables(), reply))
    {
      hide Inv, RecoveryPromise;
      ghost var before := database.Tables();
      if Inv(before) { RecoveryKeepsPromise(before, lane, now); }
      var executing := set id | id in database.rows && database.rows[id].job.lane == lane
                                && Executing(database.rows[id].job.status);
      assert executing == Ops.ExecutingIn(database.Tables(), lane);
      if executing == {} {
        if lane in database.leases && database.leases[lane].expiresAt <= now {
          var lease := database.leases[lane];
          database.leases := database.leases - {lane};
          if lease.ownerJobId in database.rows {
            UpdateRow(lease.ownerJobId, Ops.Noted(database.rows[lease.ownerJobId], LeaseRecovered(true)));
          }
        }
        return Ok(None);
      }
      var id := Ops.Least(executing);
      var row := database.rows[id];
      var jobLeaseExpired := row.job.leaseExpiresAt.None? || row.job.leaseExpiresAt.value <= now;
      var resourceLeaseMatches := lane in database.leases && Ops.LeaseIsFor(database.leases[lane], id, row.job);
      var resourceLeaseExpired := lane !in database.leases || database.leases[lane].expiresAt <= now;
      if !jobLeaseExpired || (resourceLeaseMatches && !resourceLeaseExpired) { return Ok(None); }
      if lane in database.leases && !resourceLeaseExpired && !resourceLeaseMatches { return Ok(None); }
      database.rows := database.rows[id := Ops.RecoveredRow(row, now)];
      database.leases := database.leases - {lane};
      return Ok(Some((id, Ops.RecoveredStatus(row.job))));
    }

    /** `skipExpiredScheduledJobs`; the reply is the set of jobs it skipped. */
    method SkipExpiredScheduledJobs(now: Time, calendar: Ops.Calendar) returns (skipped: set<JobId>)
      modifies database`rows
      ensures database.Tables() == Ops.SkipExpired(old(database.Tables()), now, calendar)
      ensures skipped == set id | id in old(database.rows) && Ops.WindowMissed(old(database.rows)[id].job, now, calendar)
      ensures old(Inv(database.Tables())) ==> SkippingPromise(old(database.Tables()), now, calendar, database.Tables())
    {
      hide Inv, SkippingPromise;
      ghost var before := database.Tables();
      if Inv(before) { SkippingKeepsPromise(before, now, calendar); }
      skipped := set id | id in database.rows && Ops.WindowMissed(database.rows[id].job, now, calendar);
      database.rows := map id | id in database.rows ::
        if id in skipped then Ops.SkippedRow(database.rows[id], now) else database.rows[id];
      assert database.Tables().rows == Ops.SkipExpired(old(database.Tables()), now, calendar).rows;
    }

    // ----- claiming -----------------------------------------------------------------------------------

    /** `ageEligibleCandidatesInTransaction` */
    method AgeEligibleCandidates(input: Ops.ClaimInput)
      modifies database`rows
      ensures database.Tables() == Ops.Age(old(database.Tables()), input)
      ensures AgingPromise(old(database.Tables()), input, database.Tables())
    {
      hide AgingPromise;
      AgingKeepsPromise(database.Tables(), input);
      var eligible := map id | id in database.rows && Ops.AgingEligible(database.rows[id].job, input) ::
        Ops.AgingRank(id, database.rows[id].job, input.now);
      assert eligible == Ops.AgingRanks(database.Tables(), input);
      var best := Ops.Top(eligible, Ops.AGING_LIMIT);
      database.rows := map id | id in database.rows ::
        if id in best
        then database.rows[id].(job := database.rows[id].job.(effectivePriority := eligible[id].priority))
        else database.rows[id];
      assert database.rows == Ops.Age(old(database.Tables()), input).rows;
    }

    /** Recovery and skipping, which commit even when the claim then finds nothing. */
    method Sweep(input: Ops.ClaimInput)
      modifies database
      ensures database.Tables() == Ops.Swept(old(database.Tables()), input)
    {
      var recovered := RecoverExpiredExecution(input.lane, input.now);
      var skipped := SkipExpiredScheduledJobs(input.now, input.calendar);
    }

    /** The candidate query and the two writes that take the candidate. */
    method TakeCandidate(input: Ops.ClaimInput) returns (claimed: Option<Ops.Claimed>)
      modifies database
      ensures var before := old(database.Tables()); var ranks := Ops.ClaimRanks(before, input);
              Outcome(database.Tables(), Ok(claimed))
              == if ranks == map[] then Outcome(before, Ok(None)) else Ops.Taken(before, input, Ops.First(ranks))
    {
      var candidates := map id | id in database.rows && Ops.Claimable(id, database.rows[id].job, input) ::
        Ops.ClaimRank(id, database.rows[id].job, input);
      assert candidates == Ops.ClaimRanks(database.Tables(), input);
      if candidates == map[] { return None; }
      var id := Ops.First(candidates);
      var expiresAt := input.now + input.leaseMs;
      var row := Ops.ClaimedRow(database.rows[id], input);
      database.rows := database.rows[id := row];
      database.leases := database.leases[input.lane := Lease(id, input.workerId, input.token, expiresAt)];
      return Some(Ops.Claimed(id, input.workerId, input.token, row.job.attempt, row.job.maxAttempts, expiresAt));
    }

    method Claim(input: Ops.ClaimInput) returns (claimed: Option<Ops.Claimed>)
      modifies database
      ensures Outcome(database.Tables(), Ok(claimed)) == Ops.Claim(old(database.Tables()), input)
      ensures old(Inv(database.Tables())) ==> ClaimPromise(old(database.Tables()), input, Outcome(database.Tables(), Ok(claimed)))
    {
      hide Inv, ClaimPromise;
      ghost var before := database.Tables();
      if Inv(before) { ClaimKeepsPromise(before, input); }
      if input.supported == {} { return None; }
      Sweep(input);
      if input.lane.ARCHIVE_RESOLVE? && input.resolverPaused { return None; }
      var executing := set id | id in database.rows && database.rows[id].job.lane == input.lane
                                && Executing(database.rows[id].job.status);
      assert executing == Ops.ExecutingIn(database.Tables(), input.lane);
      if executing != {} { return None; }
      if input.lane in database.leases && database.leases[input.lane].expiresAt > input.now { return None; }
      database.leases := database.leases - {input.lane};
      AgeEligibleCandidates(input);
      claimed := TakeCandidate(input);
    }
  }
}
