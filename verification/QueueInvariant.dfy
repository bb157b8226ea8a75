/** What holds of every row, every lane and every token, and how a row may change over time. */
module QueueInvariant {
  import opened Prelude
  import opened QueueTables
  import opened QueueOperations
  import opened QueueLedger

  // ----- one row -------------------------------------------------------------------------------

  ghost predicate Distinct<T>(xs: seq<T>) { forall i, j :: 0 <= i < j < |xs| ==> xs[i] != xs[j] }

  ghost predicate IsAt(claims: seq<Token>, k: int, token: Token) { 0 <= k < |claims| && claims[k] == token }

  /** Effects stand in the order of the claims they were made under, and a finalization is the last of its claim. */
  ghost predicate InClaimOrder(published: seq<Published>, claims: seq<Token>) {
    && (forall i :: 0 <= i < |published| ==> published[i].token in claims)
    && (forall i, j, a, b :: 0 <= i < j < |published| && IsAt(claims, a, published[i].token) && IsAt(claims, b, published[j].token)
          ==> a <= b && (a == b ==> published[i].effect.DomainWrite?))
  }

  ghost predicate NotFinalized(published: seq<Published>, token: Token) {
    forall i :: 0 <= i < |published| && published[i].token == token ==> published[i].effect.DomainWrite?
  }

  ghost predicate HistoryOk(row: Row) {
    && Distinct(row.claims)
    && InClaimOrder(row.published, row.claims)
    && (Executing(row.job.status) ==>
          && |row.claims| > 0
          && row.job.leaseToken == Some(row.claims[|row.claims| - 1])
          && NotFinalized(row.published, row.claims[|row.claims| - 1]))
  }

  predicate LeaseColumnsOk(job: Job) {
    && (Executing(job.status) <==> job.workerId.Some?)
    && (Executing(job.status) <==> job.leaseToken.Some?)
    && (Executing(job.status) <==> job.leaseExpiresAt.Some?)
  }

  predicate RequestColumnsOk(job: Job) {
    && (job.cancelRequestedAt.Some? <==> job.status.CANCELLING? || job.status.CANCELLED?)
    && (Waiting(job.status) || job.status.RUNNING? ==> job.pauseRequestedAt.None?)
    && (job.status.PAUSING? ==> job.pauseRequestedAt.Some?)
    && (job.finishedAt.Some? <==> Terminal(job.status))
  }

  predicate BandOk(job: Job) {
    && !job.triggerSource.LEGACY?
    && InBand(job.triggerSource, job.queuePriority)
    && InBand(job.triggerSource, job.effectivePriority)
    && job.effectivePriority <= job.queuePriority
  }

  /** A job that no claim can take any more although it has not ended. */
  predicate Stranded(job: Job) { Waiting(job.status) && job.attempt >= job.maxAttempts }

  predicate BudgetOk(row: Row) {
    var job, ledger := row.job, Read(row.events);
    && 0 <= job.attempt <= job.maxAttempts
    && 1 <= row.grant <= job.maxAttempts <= row.grant + ledger.releases
    && job.attempt == |row.claims| - ledger.preserved
    && (Executing(job.status) ==> job.attempt >= 1)
    && (Stranded(job) ==> ledger.resumed)
  }

  predicate TrailOk(row: Row) {
    var ledger := Read(row.events);
    && ledger.status == Some(row.job.status)
    && ledger.orderly
    && ledger.claims == |row.claims|
    && ledger.claims == ledger.endings + (if Executing(row.job.status) then 1 else 0)
  }

  ghost predicate RowOk(row: Row) {
    && row.job.lane == LaneOf(row.job.kind.jobType)
    && LeaseColumnsOk(row.job)
    && RequestColumnsOk(row.job)
    && BandOk(row.job)
    && BudgetOk(row)
    && TrailOk(row)
    && HistoryOk(row)
  }

  // ----- how a row may change ----------------------------------------------------------------

  predicate Halting(status: Status) {
    status.PAUSING? || status.PAUSED? || status.CANCELLING? || status.CANCELLED?
  }

  function Urgency(status: Status): nat { if status.CANCELLING? then 2 else if status.PAUSING? then 1 else 0 }

  ghost predicate AddsNoResume(before: seq<Event>, after: seq<Event>) {
    forall i :: |before| <= i < |after| ==> after[i] != JobQueued(RESUMED)
  }

  predicate Spent(job: Job) { !Executing(job.status) && job.attempt >= job.maxAttempts }

  /** The first claim that may still publish effects of this job. */
  function OpenClaim(row: Row): int { |row.claims| - (if Executing(row.job.status) then 1 else 0) }

  ghost predicate ClaimedSince(claims: seq<Token>, from: int, token: Token) {
    exists k :: from <= k && IsAt(claims, k, token)
  }

  ghost predicate PublishesFrom(published: seq<Published>, claims: seq<Token>, length: nat, from: int) {
    forall i :: length <= i < |published| ==> ClaimedSince(claims, from, published[i].token)
  }

  /** A row and any later version of it. */
  ghost predicate Evolves(row: Row, later: Row) {
    && row.events <= later.events
    && row.published <= later.published
    && row.claims <= later.claims
    && later.grant == row.grant
    && later.job.lane == row.job.lane
    && later.job.triggerSource == row.job.triggerSource
    && later.job.createdAt == row.job.createdAt
    && (Terminal(row.job.status) ==> later.job.status == row.job.status && later.claims == row.claims)
    && (row.job.status.CANCELLING? ==> later.job.status.CANCELLING? || later.job.status.CANCELLED?)
    && (Halting(row.job.status) && AddsNoResume(row.events, later.events) ==> Halting(later.job.status))
    && (Executing(row.job.status) && Executing(later.job.status) && |later.claims| == |row.claims| ==>
          && Urgency(row.job.status) <= Urgency(later.job.status)
          && later.job.workerId == row.job.workerId
          && later.job.leaseToken == row.job.leaseToken
          && later.job.attempt == row.job.attempt
          && later.job.maxAttempts == row.job.maxAttempts)
    && (Spent(row.job) ==> Spent(later.job) && later.claims == row.claims)
    && (!Executing(row.job.status) && Executing(later.job.status) ==> |later.claims| > |row.claims|)
    && PublishesFrom(later.published, later.claims, |row.published|, OpenClaim(row))
  }

  lemma EvolvesTransitive(row: Row, mid: Row, later: Row)
    requires Evolves(row, mid) && Evolves(mid, later)
    ensures Evolves(row, later)
  {
    assert forall i :: 0 <= i < |mid.events| ==> mid.events[i] == later.events[i];
    if AddsNoResume(row.events, later.events) {
      assert AddsNoResume(row.events, mid.events) by {
        forall i | |row.events| <= i < |mid.events| ensures mid.events[i] != JobQueued(RESUMED) {
          assert mid.events[i] == later.events[i];
        }
      }
      assert AddsNoResume(mid.events, later.events);
    }
    assert OpenClaim(row) <= OpenClaim(mid);
    forall i | |row.published| <= i < |later.published|
      ensures ClaimedSince(later.claims, OpenClaim(row), later.published[i].token)
    {
      if i < |mid.published| {
        assert mid.published[i] == later.published[i];
        var k :| OpenClaim(row) <= k && IsAt(mid.claims, k, mid.published[i].token);
        assert IsAt(later.claims, k, later.published[i].token);
      }
    }
  }

  ghost predicate Kept(row: Row, later: Row) { RowOk(later) && Evolves(row, later) }

  // ----- lanes and tokens ------------------------------------------------------------------------

  ghost predicate LeaseFits(s: State, lane: Lane)
    requires lane in s.leases
  {
    var lease := s.leases[lane];
    && lease.ownerJobId in s.rows
    && var job := s.rows[lease.ownerJobId].job;
    && Executing(job.status)
    && job.lane == lane
    && job.workerId == Some(lease.workerId)
    && job.leaseToken == Some(lease.leaseToken)
    && job.leaseExpiresAt == Some(lease.expiresAt)
  }

  /** Each lane's lease row and the lane's executing job determine each other. */
  ghost predicate LanesOk(s: State) {
    && (forall lane :: lane in s.leases ==> LeaseFits(s, lane))
    && (forall id :: id in s.rows && Executing(s.rows[id].job.status) ==>
          s.rows[id].job.lane in s.leases && s.leases[s.rows[id].job.lane].ownerJobId == id)
  }

  ghost predicate RowsOk(rows: map<JobId, Row>) { forall id :: id in rows ==> RowOk(rows[id]) }

  /** No token was ever handed out for two jobs. */
  ghost predicate TokensOk(rows: map<JobId, Row>) {
    forall a, b, token :: a in rows && b in rows && token in rows[a].claims && token in rows[b].claims ==> a == b
  }

  ghost predicate Inv(s: State) { RowsOk(s.rows) && TokensOk(s.rows) && LanesOk(s) }

  ghost predicate RowsEvolve(rows: map<JobId, Row>, later: map<JobId, Row>) {
    forall id :: id in rows ==> id in later && Evolves(rows[id], later[id])
  }

  lemma RowsEvolveTransitive(rows: map<JobId, Row>, mid: map<JobId, Row>, later: map<JobId, Row>)
    requires RowsEvolve(rows, mid) && RowsEvolve(mid, later)
    ensures RowsEvolve(rows, later)
  {
    forall id | id in rows ensures id in later && Evolves(rows[id], later[id]) {
      EvolvesTransitive(rows[id], mid[id], later[id]);
    }
  }

  lemma EvolvesReflexive(row: Row)
    ensures Evolves(row, row)
  {
  }

  ghost predicate StepOk(s: State, later: State) { Inv(later) && RowsEvolve(s.rows, later.rows) }

  lemma StepOkTransitive(s: State, mid: State, later: State)
    requires StepOk(s, mid) && StepOk(mid, later)
    ensures StepOk(s, later)
  {
    RowsEvolveTransitive(s.rows, mid.rows, later.rows);
  }

  /** What a change of one row must show for the rows as a whole to stay in order. */
  lemma OneRowOk(rows: map<JobId, Row>, id: JobId, row: Row)
    requires RowsOk(rows) && TokensOk(rows) && id in rows && Kept(rows[id], row)
    requires forall other, token :: other in rows && other != id && token in rows[other].claims ==> token !in row.claims
    ensures RowsOk(rows[id := row]) && TokensOk(rows[id := row]) && RowsEvolve(rows, rows[id := row])
  {
    forall other | other in rows ensures Evolves(rows[other], rows[id := row][other]) { EvolvesReflexive(rows[other]); }
  }
}
