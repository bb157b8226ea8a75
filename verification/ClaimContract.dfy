/** What a claim promises, in the columns of the tables it was called on: exactly when it returns a job, which job that is,
    what becomes of it, and what becomes of the others. */
module ClaimContract {
  import opened Prelude
  import opened QueueTables
  import opened QueueOperations
  import opened QueueSteps
  import opened QueueInvariant
  import opened QueueStepsKeep
  import opened QueueTheorems
  import opened QueueColumns
  import opened QueueContracts

  // ----- aging ---------------------------------------------------------------------------------------------

  /** A waiting job that the aging pass may reach. */
  predicate Ages(job: Job, input: ClaimInput) {
    && job.lane == input.lane && job.kind in input.supported
    && job.status in {PENDING, RETRY_WAIT}
    && (job.availableAt.None? || job.availableAt.value <= input.now)
    && (job.deadlineAt.None? || job.deadlineAt.value > input.now)
    && BandOpen(job, job.queuePriority, input.calendar.windowOpen)
  }

  lemma AgesExactly(job: Job, input: ClaimInput)
    ensures AgingEligible(job, input) <==> Ages(job, input)
  {
    BandOpenExactly(job, job.queuePriority, input.calendar.windowOpen);
  }

  /** The jobs that the pass reaches before job `id`. */
  function AgedAhead(s: State, input: ClaimInput, id: JobId): set<JobId>
    requires id in s.rows
  {
    set other | other in s.rows && Ages(s.rows[other].job, input)
                && Earlier(s.rows[other].job, AgedPriority(s.rows[other].job, input.now), other,
                           s.rows[id].job, AgedPriority(s.rows[id].job, input.now), id)
  }

  /** Aged are exactly the jobs with fewer than 200 others ahead of them, to what their waiting is worth. */
  ghost predicate AgingPromise(s: State, input: ClaimInput, later: State) {
    && later.leases == s.leases && later.rows.Keys == s.rows.Keys
    && forall id :: id in s.rows ==>
         if Ages(s.rows[id].job, input) && |AgedAhead(s, input, id)| < 200 then
           && AgedTo(s.rows[id].job, input.now, later.rows[id].job.effectivePriority)
           && UpToPriority(s.rows[id], later.rows[id])
         else later.rows[id] == s.rows[id]
  }

  /** Nothing but the stored effective priority differs. */
  predicate UpToPriority(row: Row, later: Row) {
    later == row.(job := row.job.(effectivePriority := later.job.effectivePriority))
  }

  lemma AgingKeepsPromise(s: State, input: ClaimInput)
    ensures AgingPromise(s, input, Age(s, input))
  {
    hide AgedPriority, Ages, AgingEligible, Earlier, Before, AgedTo;
    forall id | id in s.rows
      ensures id in Top(AgingRanks(s, input), AGING_LIMIT) <==> Ages(s.rows[id].job, input) && |AgedAhead(s, input, id)| < 200
    {
      AgesExactly(s.rows[id].job, input);
      if Ages(s.rows[id].job, input) { AheadIs(s, input, id); }
    }
    forall id | id in s.rows ensures AgedTo(s.rows[id].job, input.now, AgedPriority(s.rows[id].job, input.now)) {
      AgingIsOneStepPerHalfHour(s.rows[id].job, input.now, AgedPriority(s.rows[id].job, input.now));
    }
  }

  lemma AheadIs(s: State, input: ClaimInput, id: JobId)
    requires id in s.rows && Ages(s.rows[id].job, input)
    ensures id in AgingRanks(s, input) && Ahead(AgingRanks(s, input), id) == AgedAhead(s, input, id)
  {
    hide AgedPriority, Ages, AgingEligible, Earlier, Before;
    AgesExactly(s.rows[id].job, input);
    forall other | other in s.rows
      ensures other in Ahead(AgingRanks(s, input), id) <==> other in AgedAhead(s, input, id)
    {
      AgesExactly(s.rows[other].job, input);
      AgingOrderIs(s.rows[other].job, other, s.rows[id].job, id, input.now);
    }
  }

  // ----- what recovery and skipping make of a row ------------------------------------------------------------

  /** A row before and after a claim that did not take it: put back if it held the lane and its lease had run out, then
      skipped if it missed its deadline or its day, then perhaps aged. */
  ghost predicate PassedOver(row: Row, expired: bool, input: ClaimInput, later: Row) {
    exists mid, due ::
      && (if expired then RecoveredAs(row, mid, input.now) else mid == row)
      && (if Missed(mid.job, input.now, input.calendar) then SkippedAs(mid, due, input.now) else due == mid)
      && UpToPriority(due, later)
  }

  lemma SweptRow(s: State, input: ClaimInput, id: JobId) returns (mid: Row)
    requires Inv(s) && id in s.rows
    ensures id in Swept(s, input).rows
    ensures if HoldsExpired(s, input.lane, id, input.now) then RecoveredAs(s.rows[id], mid, input.now) else mid == s.rows[id]
    ensures var due := Swept(s, input).rows[id];
            if Missed(mid.job, input.now, input.calendar) then SkippedAs(mid, due, input.now) else due == mid
    ensures RowOk(mid)
  {
    hide Inv, StepOk, Recover, SkipExpired, RecoveredAs, SkippedAs, Missed, HoldsExpired, RowOk;
    var recovered := Recover(s, input.lane, input.now).state;
    RecoveryKeepsPromise(s, input.lane, input.now);
    RecoverOk(s, input.lane, input.now);
    StepOkGives(s, recovered);
    SkippingKeepsPromise(recovered, input.now, input.calendar);
    OnlyOneExpires(s, input.lane, input.now);
    mid := recovered.rows[id];
    RowIsOk(recovered, id);
  }

  lemma OnlyOneExpires(s: State, lane: Lane, now: Time)
    requires Inv(s)
    ensures forall a, b :: HoldsExpired(s, lane, a, now) && HoldsExpired(s, lane, b, now) ==> a == b
  {
    forall a, b | HoldsExpired(s, lane, a, now) && HoldsExpired(s, lane, b, now) ensures a == b { OneHolder(s, lane, a, b); }
  }

  // ----- who is a candidate ---------------------------------------------------------------------------------

  /** Whatever priority in its band a job has been given, a claim wants it or does not. */
  lemma ClaimableExactly(id: JobId, job: Job, priority: int, input: ClaimInput)
    requires BandOk(job) && RequestColumnsOk(job) && InBand(job.triggerSource, priority)
    ensures Claimable(id, job.(effectivePriority := priority), input) && !Missed(job, input.now, input.calendar)
       <==> Due(id, job, input)
  {
    BandOpenExactly(job, job.queuePriority, input.calendar.windowOpen);
    BandOpenExactly(job, priority, input.calendar.windowOpen);
  }

  lemma RecoveredIsDue(id: JobId, row: Row, mid: Row, input: ClaimInput)
    requires RecoveredAs(row, mid, input.now)
    requires row.job.leaseExpiresAt.Some? ==> row.job.leaseExpiresAt.value <= input.now
    requires row.job.leaseExpiresAt.Some?
    ensures Due(id, mid.job, input) <==> Overdue(id, row.job, input)
  {
  }

  lemma SkippedIsNotClaimable(id: JobId, row: Row, later: Row, priority: int, input: ClaimInput)
    requires SkippedAs(row, later, input.now)
    ensures !Claimable(id, later.job.(effectivePriority := priority), input)
  {
  }

  lemma PreparedRowIs(s: State, input: ClaimInput, id: JobId)
    requires Inv(s) && id in s.rows
    ensures id in Prepared(s, input).rows && id in Swept(s, input).rows
    ensures UpToPriority(Swept(s, input).rows[id], Prepared(s, input).rows[id])
    ensures InBand(Swept(s, input).rows[id].job.triggerSource, Prepared(s, input).rows[id].job.effectivePriority)
  {
    hide Inv, StepOk, Swept, Top, AgingRanks, RowOk, AgedPriority;
    SweptOk(s, input);
    var swept := Swept(s, input);
    StepOkGives(s, swept);
    assert id in swept.rows by { SweptKeys(s, input); }
    RowIsOk(swept, id);
    BandOfRow(swept.rows[id], input.now);
  }

  lemma SweptKeys(s: State, input: ClaimInput)
    requires Inv(s)
    ensures Swept(s, input).rows.Keys == s.rows.Keys
  {
    hide Inv, RecoveredRow;
  }

  lemma BandOfRow(row: Row, now: Time)
    requires RowOk(row)
    ensures BandOk(row.job) && RequestColumnsOk(row.job)
    ensures InBand(row.job.triggerSource, row.job.effectivePriority) && InBand(row.job.triggerSource, AgedPriority(row.job, now))
  {
  }

  /** On a lane nobody holds, the claim chooses among exactly the candidates. */
  lemma CandidatesExactly(s: State, input: ClaimInput, id: JobId)
    requires Inv(s) && id in s.rows && !LaneTaken(s, input.lane, input.now)
    ensures id in ClaimRanks(Prepared(s, input), input) <==> Candidate(s, input, id)
  {
    hide *;
    var mid := SweptRow(s, input, id);
    PreparedRowIs(s, input, id);
    CandidateRow(s, input, id, mid, Swept(s, input).rows[id], Prepared(s, input).rows[id]);
    RanksAre(Prepared(s, input), input, id);
  }

  lemma RanksAre(s: State, input: ClaimInput, id: JobId)
    requires id in s.rows
    ensures id in ClaimRanks(s, input) <==> Claimable(id, s.rows[id].job, input)
  {
    hide Claimable;
  }

  lemma CandidateRow(s: State, input: ClaimInput, id: JobId, mid: Row, due: Row, later: Row)
    requires Inv(s) && id in s.rows && !LaneTaken(s, input.lane, input.now)
    requires if HoldsExpired(s, input.lane, id, input.now) then RecoveredAs(s.rows[id], mid, input.now) else mid == s.rows[id]
    requires if Missed(mid.job, input.now, input.calendar) then SkippedAs(mid, due, input.now) else due == mid
    requires RowOk(mid) && UpToPriority(due, later) && InBand(due.job.triggerSource, later.job.effectivePriority)
    ensures Claimable(id, later.job, input) <==> Candidate(s, input, id)
  {
    hide Inv, RowOk, Claimable, Missed, Due, Overdue, RecoveredAs;
    var row := s.rows[id];
    BandOfRow(mid, input.now);
    if Missed(mid.job, input.now, input.calendar) { SkippedIsNotClaimable(id, mid, due, later.job.effectivePriority, input); }
    ClaimableExactly(id, mid.job, later.job.effectivePriority, input);
    if HoldsExpired(s, input.lane, id, input.now) {
      HolderHasLease(s, input.lane, id);
      RecoveredIsDue(id, row, mid, input);
      AtWorkIsNotDue(id, row.job, input);
    } else {
      FreshLeaseIsNotOverdue(s, input, id);
    }
  }

  lemma AtWorkIsNotDue(id: JobId, job: Job, input: ClaimInput)
    requires job.status in {RUNNING, PAUSING, CANCELLING}
    ensures !Due(id, job, input)
  {
  }

  lemma FreshLeaseIsNotOverdue(s: State, input: ClaimInput, id: JobId)
    requires id in s.rows && !HoldsExpired(s, input.lane, id, input.now)
    ensures !Overdue(id, s.rows[id].job, input)
  {
  }

  // ----- whether the lane is open ------------------------------------------------------------------------------

  lemma ClosedExactly(s: State, input: ClaimInput)
    requires Inv(s)
    ensures LaneClosed(Swept(s, input), input) <==>
              (input.lane.ARCHIVE_RESOLVE? && input.resolverPaused) || LaneTaken(s, input.lane, input.now)
  {
    hide Inv, Swept, HoldsExpired;
    if LaneTaken(s, input.lane, input.now) {
      var id :| HoldsLane(s, input.lane, id) && !HoldsExpired(s, input.lane, id, input.now);
      HolderStays(s, input, id);
      HoldersAre(Swept(s, input), input.lane);
    } else if !(input.lane.ARCHIVE_RESOLVE? && input.resolverPaused) {
      SweepFreesLane(s, input);
    }
  }

  lemma HolderStays(s: State, input: ClaimInput, id: JobId)
    requires Inv(s) && HoldsLane(s, input.lane, id) && !HoldsExpired(s, input.lane, id, input.now)
    ensures HoldsLane(Swept(s, input), input.lane, id)
  {
    hide Inv, Swept, SkippedAs, RecoveredAs;
    var mid := SweptRow(s, input, id);
  }

  // ----- the claim ---------------------------------------------------------------------------------------------

  ghost predicate LaneOpen(s: State, input: ClaimInput) {
    && !LaneTaken(s, input.lane, input.now)
    && !(input.lane == ARCHIVE_RESOLVE && input.resolverPaused)
  }

  /** The row that was claimed: a due one as it was, an overdue one as recovery puts it back, and then RUNNING. */
  predicate ClaimedAs(row: Row, later: Row, input: ClaimInput) {
    && later == row.(job := later.job, events := later.events, claims := row.claims + [input.token])
    && later.job == row.job.(status := RUNNING, workerId := Some(input.workerId), leaseToken := Some(input.token),
                             leaseExpiresAt := Some(input.now + input.leaseMs), attempt := row.job.attempt + 1,
                             availableAt := if row.job.status == RUNNING then Some(input.now) else row.job.availableAt,
                             effectivePriority := later.job.effectivePriority)
    && later.events == row.events
         + (if row.job.status == RUNNING then [LeaseRecovered(false), JobRetryScheduled(LEASE_EXPIRED)] else [])
         + [JobClaimed]
  }

  /** A claim returns a job exactly when nobody holds its lane under a live lease, the lane is not paused, and there is a
      candidate: a job that is due, or whose execution is overdue.  It then returns the candidate that comes before every
      other one, with the worker's fence on it, and no other row changes but by recovery, skipping and aging. */
  ghost predicate ClaimPromise(s: State, input: ClaimInput, out: Outcome<Option<Claimed>>) {
    && out.reply.Ok?
    && out.state.rows.Keys == s.rows.Keys
    && (out.reply.value.Some? <==> LaneOpen(s, input) && exists id :: Candidate(s, input, id))
    && (out.reply.value.Some? ==>
          && var id := out.reply.value.value.jobId;
          && Candidate(s, input, id) && ClaimedAs(s.rows[id], out.state.rows[id], input)
          && out.reply.value.value == Claimed(id, input.workerId, input.token, s.rows[id].job.attempt + 1, s.rows[id].job.maxAttempts,
                                              input.now + input.leaseMs)
          && out.state.leases == s.leases[input.lane := Lease(id, input.workerId, input.token, input.now + input.leaseMs)]
          && (forall other :: Candidate(s, input, other) && other != id ==>
                ClaimedBefore(out.state.rows[id].job, id, out.state.rows[other].job, other, input))
          && (forall other :: other in s.rows && other != id ==>
                PassedOver(s.rows[other], HoldsExpired(s, input.lane, other, input.now), input, out.state.rows[other])))
    && (out.reply.value.None? && input.supported == {} ==> out.state == s)
    && (out.reply.value.None? && input.supported != {} ==>
          && (forall id :: id in s.rows ==>
                PassedOver(s.rows[id], HoldsExpired(s, input.lane, id, input.now), input, out.state.rows[id]))
          && out.state.leases == if exists id :: HoldsExpired(s, input.lane, id, input.now) then s.leases - {input.lane} else s.leases)
  }

  lemma SweptLeases(s: State, input: ClaimInput)
    requires Inv(s)
    ensures Swept(s, input).leases
         == if exists id :: HoldsExpired(s, input.lane, id, input.now) then s.leases - {input.lane} else s.leases
  {
    hide Inv, Recover, RecoveredAs, HoldsExpired;
    RecoveryKeepsPromise(s, input.lane, input.now);
  }

  lemma SweptIsPassedOver(s: State, input: ClaimInput, id: JobId)
    requires Inv(s) && id in s.rows
    ensures id in Swept(s, input).rows
    ensures PassedOver(s.rows[id], HoldsExpired(s, input.lane, id, input.now), input, Swept(s, input).rows[id])
  {
    hide Inv, Swept, RecoveredAs, SkippedAs, Missed, HoldsExpired, RowOk;
    var mid := SweptRow(s, input, id);
    assert UpToPriority(Swept(s, input).rows[id], Swept(s, input).rows[id]);
  }

  lemma PreparedIsPassedOver(s: State, input: ClaimInput, id: JobId)
    requires Inv(s) && id in s.rows
    ensures id in Prepared(s, input).rows
    ensures PassedOver(s.rows[id], HoldsExpired(s, input.lane, id, input.now), input, Prepared(s, input).rows[id])
  {
    hide Inv, Swept, Prepared, RecoveredAs, SkippedAs, Missed, HoldsExpired, RowOk, UpToPriority, InBand;
    var mid := SweptRow(s, input, id);
    PreparedRowIs(s, input, id);
  }

  lemma PreparedTables(s: State, input: ClaimInput)
    requires Inv(s)
    ensures Prepared(s, input).rows.Keys == s.rows.Keys
    ensures Prepared(s, input).leases == Swept(s, input).leases - {input.lane}
  {
    hide Inv, Swept, Top, AgingRanks;
    SweptKeys(s, input);
  }

  /** What a claim does to the candidate it takes. */
  lemma TakenRowIs(s: State, input: ClaimInput, id: JobId)
    requires Inv(s) && Candidate(s, input, id) && !LaneTaken(s, input.lane, input.now)
    ensures id in Prepared(s, input).rows && ClaimedAs(s.rows[id], ClaimedRow(Prepared(s, input).rows[id], input), input)
  {
    hide Inv, Swept, Prepared, RecoveredAs, SkippedAs, Missed, HoldsExpired, RowOk, Claimable, InBand;
    var mid := SweptRow(s, input, id);
    PreparedRowIs(s, input, id);
    CandidatesExactly(s, input, id);
    RanksAre(Prepared(s, input), input, id);
    CandidateIsNotSkipped(s, input, id, mid, Swept(s, input).rows[id], Prepared(s, input).rows[id]);
  }

  lemma CandidateIsNotSkipped(s: State, input: ClaimInput, id: JobId, mid: Row, due: Row, later: Row)
    requires Inv(s) && Candidate(s, input, id)
    requires if HoldsExpired(s, input.lane, id, input.now) then RecoveredAs(s.rows[id], mid, input.now) else mid == s.rows[id]
    requires if Missed(mid.job, input.now, input.calendar) then SkippedAs(mid, due, input.now) else due == mid
    requires UpToPriority(due, later) && Claimable(id, later.job, input)
    ensures ClaimedAs(s.rows[id], ClaimedRow(later, input), input)
  {
    hide Inv, RowOk, Missed, WindowAdmits, BandOpen;
    RowIsOk(s, id);
    IdleColumns(s.rows[id]);
    var row := s.rows[id];
    assert row.events + [LeaseRecovered(false)] + [JobRetryScheduled(LEASE_EXPIRED)]
        == row.events + [LeaseRecovered(false), JobRetryScheduled(LEASE_EXPIRED)];
  }

  lemma IdleColumns(row: Row)
    requires RowOk(row)
    ensures row.job.status in {PENDING, RETRY_WAIT, RUNNING} ==> row.job.finishedAt.None? && row.job.cancelRequestedAt.None?
    ensures row.job.status in {PENDING, RETRY_WAIT} ==> row.job.pauseRequestedAt.None? && row.job.workerId.None?
  {
  }

  lemma TakenOrder(s: State, input: ClaimInput, id: JobId, other: JobId)
    requires id in s.rows && other in s.rows && Before(ClaimRank(id, s.rows[id].job, input), ClaimRank(other, s.rows[other].job, input))
    ensures ClaimedBefore(ClaimedRow(s.rows[id], input).job, id, s.rows[other].job, other, input)
  {
    hide Before, Earlier;
    ClaimOrderIs(s.rows[id].job, id, s.rows[other].job, other, input);
    SameOrderOnceClaimed(s.rows[id], id, s.rows[other].job, other, input);
  }

  lemma SameOrderOnceClaimed(row: Row, id: JobId, other: Job, otherId: JobId, input: ClaimInput)
    ensures ClaimedBefore(ClaimedRow(row, input).job, id, other, otherId, input) <==> ClaimedBefore(row.job, id, other, otherId, input)
  {
  }

  lemma ClaimFinds(s: State, input: ClaimInput)
    requires Inv(s) && LaneOpen(s, input) && input.supported != {} && ClaimRanks(Prepared(s, input), input) != map[]
    ensures ClaimPromise(s, input, Taken(Prepared(s, input), input, First(ClaimRanks(Prepared(s, input), input))))
  {
    hide Inv, Swept, Prepared, Claimable, Candidate, PassedOver, ClaimedAs, ClaimedBefore, Before, HoldsExpired;
    var prepared := Prepared(s, input);
    var ranks := ClaimRanks(prepared, input);
    var id := First(ranks);
    PreparedTables(s, input);
    SweptLeases(s, input);
    CandidatesExactly(s, input, id);
    TakenRowIs(s, input, id);
    SameBudget(s, input, id);
    forall other | other in s.rows && other != id
      ensures PassedOver(s.rows[other], HoldsExpired(s, input.lane, other, input.now), input, prepared.rows[other])
    {
      PreparedIsPassedOver(s, input, other);
    }
    forall other | Candidate(s, input, other) && other != id
      ensures other in prepared.rows
      ensures ClaimedBefore(ClaimedRow(prepared.rows[id], input).job, id, prepared.rows[other].job, other, input)
    {
      CandidateIsThere(s, input, other);
      CandidatesExactly(s, input, other);
      TakenOrder(prepared, input, id, other);
    }
  }

  lemma CandidateIsThere(s: State, input: ClaimInput, id: JobId)
    requires Candidate(s, input, id)
    ensures id in s.rows && input.supported != {}
  {
  }

  lemma SameBudget(s: State, input: ClaimInput, id: JobId)
    requires id in s.rows && id in Prepared(s, input).rows && ClaimedAs(s.rows[id], ClaimedRow(Prepared(s, input).rows[id], input), input)
    ensures ClaimedRow(Prepared(s, input).rows[id], input).job.attempt == s.rows[id].job.attempt + 1
    ensures ClaimedRow(Prepared(s, input).rows[id], input).job.maxAttempts == s.rows[id].job.maxAttempts
  {
    hide Prepared;
  }

  lemma ClaimFindsNothing(s: State, input: ClaimInput, later: State)
    requires Inv(s) && input.supported != {}
    requires later == Swept(s, input) || (LaneOpen(s, input) && later == Prepared(s, input))
    requires LaneOpen(s, input) ==> ClaimRanks(Prepared(s, input), input) == map[]
    ensures ClaimPromise(s, input, Outcome(later, Ok(None)))
  {
    hide Inv, Swept, Prepared, Claimable, Candidate, PassedOver, ClaimedAs, ClaimedBefore, HoldsExpired;
    PreparedTables(s, input);
    SweptKeys(s, input);
    SweptLeases(s, input);
    if LaneOpen(s, input) {
      ClosedExactly(s, input);
      OpenLaneHasNoLease(s, input);
    }
    forall id | id in s.rows
      ensures PassedOver(s.rows[id], HoldsExpired(s, input.lane, id, input.now), input, later.rows[id])
      ensures LaneOpen(s, input) ==> !Candidate(s, input, id)
    {
      SweptIsPassedOver(s, input, id);
      PreparedIsPassedOver(s, input, id);
      if LaneOpen(s, input) { CandidatesExactly(s, input, id); }
    }
    forall id | Candidate(s, input, id) ensures id in s.rows { CandidateIsThere(s, input, id); }
  }

  lemma OpenLaneHasNoLease(s: State, input: ClaimInput)
    requires Inv(s) && !LaneClosed(Swept(s, input), input)
    ensures Swept(s, input).leases - {input.lane} == Swept(s, input).leases
  {
    hide Inv, StepOk, Swept, ExecutingIn;
    SweptOk(s, input);
    StepOkGives(s, Swept(s, input));
    IdleLaneHasNoLease(Swept(s, input), input.lane);
  }

  lemma ClaimKeepsPromise(s: State, input: ClaimInput)
    requires Inv(s)
    ensures ClaimPromise(s, input, Claim(s, input))
  {
    hide Inv, Swept, Prepared, LaneClosed, LaneTaken, ClaimPromise, ClaimRanks, Taken, First;
    ClosedExactly(s, input);
    if input.supported == {} {
      NothingSupported(s, input);
    } else if LaneClosed(Swept(s, input), input) {
      ClaimFindsNothing(s, input, Swept(s, input));
    } else if ClaimRanks(Prepared(s, input), input) == map[] {
      ClaimFindsNothing(s, input, Prepared(s, input));
    } else {
      ClaimFinds(s, input);
    }
  }

  lemma NothingSupported(s: State, input: ClaimInput)
    requires input.supported == {}
    ensures ClaimPromise(s, input, Outcome(s, Ok(None)))
  {
    forall id ensures !Candidate(s, input, id) {}
  }
}
