/** What a worker can rely on about the job whose token it holds, while everybody else acts. */
module FenceHolding {
  import opened Prelude
  import opened QueueTables
  import opened QueueOperations
  import opened JobCommands
  import opened QueueSteps
  import opened QueueInvariant
  import opened QueueRowMoves
  import opened QueueStepsKeep
  import opened QueueTheorems

  /** The job row carries the token; its lease may have expired. */
  predicate Holds(s: State, id: JobId, token: Token) {
    id in s.rows && Executing(s.rows[id].job.status) && s.rows[id].job.leaseToken == Some(token)
  }

  predicate Issued(s: State, id: JobId, token: Token) { id in s.rows && token in s.rows[id].claims }

  predicate RowHolds(row: Row, token: Token) { Executing(row.job.status) && row.job.leaseToken == Some(token) }

  lemma HeldRow(row: Row, later: Row, token: Token)
    requires HistoryOk(row) && HistoryOk(later) && Evolves(row, later)
    requires token in row.claims && RowHolds(later, token)
    ensures RowHolds(row, token) && |later.claims| == |row.claims|
  {
    var k :| 0 <= k < |row.claims| && row.claims[k] == token;
    assert later.claims[k] == token && later.claims[|later.claims| - 1] == token;
    assert k == |later.claims| - 1;
  }

  /** A token that is held later was held all along, by the same worker at the same attempt, and the urgency of
      control requests has only grown. */
  lemma HeldAllAlong(s: State, later: State, id: JobId, token: Token)
    requires Inv(s) && StepOk(s, later) && Issued(s, id, token) && Holds(later, id, token)
    ensures Holds(s, id, token)
    ensures s.rows[id].job.workerId == later.rows[id].job.workerId
    ensures s.rows[id].job.attempt == later.rows[id].job.attempt
    ensures s.rows[id].job.maxAttempts == later.rows[id].job.maxAttempts
    ensures Urgency(s.rows[id].job.status) <= Urgency(later.rows[id].job.status)
  {
    var row, after := s.rows[id], later.rows[id];
    assert HistoryOk(row) by { assert RowOk(row); }
    assert HistoryOk(after) by { assert RowOk(after); }
    assert Evolves(row, after) by { assert RowsEvolve(s.rows, later.rows); }
    HeldRow(row, after, token);
  }

  lemma IssuedStays(s: State, later: State, id: JobId, token: Token)
    requires StepOk(s, later) && Issued(s, id, token)
    ensures Issued(later, id, token)
  {
    assert Evolves(s.rows[id], later.rows[id]);
    var k :| 0 <= k < |s.rows[id].claims| && s.rows[id].claims[k] == token;
    assert later.rows[id].claims[k] == token;
  }

  // ----- nobody else moves the expiry ------------------------------------------------------------------

  predicate ExpiryKept(s: State, later: State, id: JobId, token: Token) {
    Holds(s, id, token) && Holds(later, id, token) ==>
      later.rows[id].job.leaseExpiresAt == s.rows[id].job.leaseExpiresAt
  }

  lemma ClaimKeepsExpiry(s: State, input: ClaimInput, id: JobId, token: Token)
    requires FreshToken(s, input.token) && Issued(s, id, token)
    ensures ExpiryKept(s, Claim(s, input).state, id, token)
  {
    var recovered := Recover(s, input.lane, input.now).state;
    assert ExpiryKept(s, recovered, id, token) && (Holds(recovered, id, token) ==> Holds(s, id, token));
    var swept := Swept(s, input);
    assert ExpiryKept(recovered, swept, id, token) && (Holds(swept, id, token) ==> Holds(recovered, id, token));
    if input.supported != {} && !LaneClosed(swept, input) {
      var prepared := Prepared(s, input);
      assert ExpiryKept(swept, prepared, id, token) && (Holds(prepared, id, token) ==> Holds(swept, id, token));
      var ranks := ClaimRanks(prepared, input);
      if ranks != map[] {
        assert Claim(s, input) == Taken(prepared, input, First(ranks));
        assert First(ranks) in prepared.rows;
      }
    }
  }

  lemma FencedOpKeepsExpiry(s: State, op: Op, id: JobId, token: Token)
    requires Permitted(s, op) && !Carries(op, token)
    requires op.OpHeartbeat? || op.OpProgress? || op.OpSettle? || op.OpExecution? || op.OpMutation?
    ensures ExpiryKept(s, Step(s, op), id, token)
  {
    if Holds(s, id, token) && op.fence.jobId == id {
      assert Step(s, op) == s;
    } else {
      match op
      case OpHeartbeat(_, _, _) =>
      case OpProgress(_, _, _) =>
      case OpSettle(_, _, _, _) =>
      case OpExecution(_, _, _, _, _) =>
      case OpMutation(_, _, _, _, _) =>
    }
  }

  lemma OtherOpKeepsExpiry(s: State, op: Op, id: JobId, token: Token)
    requires Permitted(s, op)
    requires op.OpEnqueue? || op.OpEnqueueResolver? || op.OpEnqueueChild? || op.OpRecover? || op.OpSkipExpired? || op.OpRequestCancellation?
             || op.OpCancel? || op.OpPause? || op.OpResume? || op.OpRetry? || op.OpChangePriority?
    ensures ExpiryKept(s, Step(s, op), id, token)
  {
    match op
    case OpEnqueue(_, _, _) =>
    case OpEnqueueResolver(_, _, _) =>
    case OpEnqueueChild(_, _, _, _) =>
    case OpRecover(_, _) =>
    case OpSkipExpired(_, _) =>
    case _ =>
  }

  lemma StepKeepsExpiry(s: State, op: Op, id: JobId, token: Token)
    requires Permitted(s, op) && !Carries(op, token) && Issued(s, id, token)
    ensures ExpiryKept(s, Step(s, op), id, token)
  {
    if op.OpClaim? {
      ClaimKeepsExpiry(s, op.claim, id, token);
    } else if op.OpHeartbeat? || op.OpProgress? || op.OpSettle? || op.OpExecution? || op.OpMutation? {
      FencedOpKeepsExpiry(s, op, id, token);
    } else {
      OtherOpKeepsExpiry(s, op, id, token);
    }
  }

  lemma {:induction false} OthersKeepExpiry(s: State, ops: seq<Op>, id: JobId, token: Token)
    requires Inv(s) && Issued(s, id, token)
    requires forall i :: 0 <= i < |ops| ==> !Carries(ops[i], token)
    ensures ExpiryKept(s, Perform(s, ops), id, token)
    decreases |ops|
  {
    hide Inv, StepOk, Issued, Holds, Step, Permitted;
    if ops == [] {
    } else if Permitted(s, ops[0]) {
      var next, later := Step(s, ops[0]), Perform(s, ops);
      StepKeeps(s, ops[0]);
      IssuedStays(s, next, id, token);
      StepKeepsExpiry(s, ops[0], id, token);
      OthersKeepExpiry(next, ops[1..], id, token);
      PerformKeeps(next, ops[1..]);
      if Holds(later, id, token) { HeldAllAlong(next, later, id, token); }
    } else {
      OthersKeepExpiry(s, ops[1..], id, token);
    }
  }

  /** A fence that is owned later, by a later clock, was owned before: nobody else can give it back. */
  lemma OwnedAllAlong(s: State, ops: seq<Op>, fence: Fence, early: Time, late: Time)
    requires Inv(s) && Issued(s, fence.jobId, fence.executionToken) && early <= late
    requires forall i :: 0 <= i < |ops| ==> !Carries(ops[i], fence.executionToken)
    requires Owns(Perform(s, ops), fence, late)
    ensures Owns(s, fence, early)
    ensures Urgency(s.rows[fence.jobId].job.status) <= Urgency(Perform(s, ops).rows[fence.jobId].job.status)
  {
    PerformKeeps(s, ops);
    HeldAllAlong(s, Perform(s, ops), fence.jobId, fence.executionToken);
    OthersKeepExpiry(s, ops, fence.jobId, fence.executionToken);
    OwnedLease(s, fence, early);
  }

  /** What a claim returns is a working fence until the lease it names expires. */
  lemma ClaimGivesFence(s: State, input: ClaimInput, now: Time)
    requires Inv(s) && FreshToken(s, input.token)
    requires Claim(s, input).reply.Ok? && Claim(s, input).reply.value.Some?
    requires now < Claim(s, input).reply.value.value.leaseExpiresAt
    ensures var claimed, after := Claim(s, input).reply.value.value, Claim(s, input).state;
            && Owns(after, FenceOf(claimed), now)
            && Issued(after, claimed.jobId, claimed.executionToken)
            && after.rows[claimed.jobId].job.status.RUNNING?
            && after.rows[claimed.jobId].job.maxAttempts == claimed.maxAttempts
            && claimed.attempt <= claimed.maxAttempts
  {
    ClaimTakes(s, input);
    ClaimOk(s, input);
    var claimed, after := Claim(s, input).reply.value.value, Claim(s, input).state;
    assert RowOk(after.rows[claimed.jobId]);
    OwnedLease(after, FenceOf(claimed), now);
  }
}
