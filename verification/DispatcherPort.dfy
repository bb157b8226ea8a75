/** The queue as the dispatcher meets it: between any two of its calls everybody else may act, time passes, and a
    call may fail on its way there or on its way back. */
module DispatcherPort {
  import opened Prelude
  import opened QueueTables
  import opened QueueOperations
  import opened QueueSteps
  import opened QueueInvariant
  import opened QueueStepsKeep
  import opened QueueTheorems
  import opened QueueRepository
  import opened FenceHolding

  datatype Settlement =
    | Completed
    | RetryLater(availableAt: Time)
    | Failed
    | Skipped
    | Cancelled
    | Paused
    | Released
    | TransactionallyFinalized

  /** The call of the repository a settlement is turned into; the last kind must not be settled again. */
  function IntentFor(settlement: Settlement): Option<Intent> {
    match settlement
    case Completed => Some(Complete)
    case RetryLater(availableAt) => Some(Retry(availableAt, false))
    case Failed => Some(Fail)
    case Skipped => Some(Skip)
    case Cancelled => Some(Cancel)
    case Paused => Some(Pause)
    case Released => Some(Release)
    case TransactionallyFinalized => None
  }

  datatype Fault = HEALTHY | TRANSIENT | TRANSIENT_AFTER_COMMIT | NON_TRANSIENT

  predicate Passing(fault: Fault) { fault.TRANSIENT? || fault.TRANSIENT_AFTER_COMMIT? }

  /** What surrounds one call: the steps others take before it, how long it takes, and how it goes wrong. */
  datatype Turn = Turn(before: seq<Op>, elapsed: nat, fault: Fault)

  datatype PortError = FENCE_ERROR | TRANSIENT_ERROR | OTHER_ERROR

  datatype Answer<+T> = Answer(state: State, reply: Result<T, PortError>)

  function Delivered<T>(turn: Turn, reply: Result<T, QueueError>): Result<T, PortError> {
    if turn.fault.TRANSIENT_AFTER_COMMIT? && reply.Ok? then Err(TRANSIENT_ERROR)
    else if reply.Ok? then Ok(reply.value)
    else if reply.error.FenceLost? then Err(FENCE_ERROR)
    else Err(OTHER_ERROR)
  }

  /** What is refused before a transaction is opened, so that no fault of the database comes first. */
  predicate RefusedUnsent(settlement: Settlement, calledAt: Time) {
    settlement.TransactionallyFinalized? || (settlement.RetryLater? && settlement.availableAt < calledAt)
  }

  function SettleCall(s: State, turn: Turn, fence: Fence, settlement: Settlement, calledAt: Time): Answer<()> {
    if RefusedUnsent(settlement, calledAt) || turn.fault.NON_TRANSIENT? then Answer(s, Err(OTHER_ERROR))
    else if turn.fault.TRANSIENT? then Answer(s, Err(TRANSIENT_ERROR))
    else
      var out := Settle(s, fence, IntentFor(settlement).value, calledAt, calledAt + turn.elapsed);
      Answer(out.state, Delivered(turn, out.reply))
  }

  /** Everything others do during the turns from `first` up to `last`. */
  ghost function Others(world: nat -> Turn, first: nat, last: nat): seq<Op>
    requires first <= last
    decreases last
  {
    if first == last then [] else Others(world, first, last - 1) + world(last - 1).before
  }

  lemma {:induction false} PerformMore(s: State, first: seq<Op>, second: seq<Op>)
    ensures Perform(s, first + second) == Perform(Perform(s, first), second)
    decreases |first|
  {
    if first == [] {
      assert first + second == second;
    } else {
      assert (first + second)[1..] == first[1..] + second;
      PerformMore(if Permitted(s, first[0]) then Step(s, first[0]) else s, first[1..], second);
    }
  }

  class QueuePort {
    const repository: PostgresQueueRepository
    const world: nat -> Turn
    var turn: nat
    var clock: Time

    constructor (repository: PostgresQueueRepository, world: nat -> Turn, clock: Time)
      ensures this.repository == repository && this.world == world && this.turn == 0 && this.clock == clock
    {
      this.repository := repository;
      this.world := world;
      this.turn, this.clock := 0, clock;
    }

    ghost function Tables(): State
      reads repository.database
    {
      repository.database.Tables()
    }

    /** The world's turn comes before the call gets through. */
    method Begin()
      modifies this, repository.database
      ensures Tables() == Perform(old(Tables()), world(old(turn)).before)
      ensures turn == old(turn) + 1 && clock == old(clock) + world(old(turn)).elapsed
    {
      var after := Perform(State(repository.database.rows, repository.database.leases), world(turn).before);
      repository.database.rows, repository.database.leases := after.rows, after.leases;
      clock := clock + world(turn).elapsed;
      turn := turn + 1;
    }

    /** `RuntimeDispatcherQueue.settle` */
    method Settle(fence: Fence, settlement: Settlement) returns (reply: Result<(), PortError>)
      modifies this, repository.database
      ensures Answer(Tables(), reply) == SettleCall(Perform(old(Tables()), world(old(turn)).before), world(old(turn)), fence, settlement, old(clock))
      ensures turn == old(turn) + 1 && clock == old(clock) + world(old(turn)).elapsed
    {
      var calledAt, now := clock, world(turn);
      Begin();
      var reaches := !RefusedUnsent(settlement, calledAt);
      if reaches && now.fault.NON_TRANSIENT? { return Err(OTHER_ERROR); }
      if reaches && now.fault.TRANSIENT? { return Err(TRANSIENT_ERROR); }
      var answer: Result<(), QueueError>;
      match settlement {
        case Completed => answer := repository.Complete(fence, clock);
        case RetryLater(availableAt) => answer := repository.Retry(fence, availableAt, calledAt, clock);
        case Failed => answer := repository.Fail(fence, clock);
        case Skipped => answer := repository.Skip(fence, clock);
        case Cancelled => answer := repository.Cancel(fence, clock);
        case Paused => answer := repository.Pause(fence, clock);
        case Released => answer := repository.Release(fence, clock);
        case TransactionallyFinalized => return Err(OTHER_ERROR);
      }
      return Delivered(now, answer);
    }

    method ReadExecutionControl(fence: Fence) returns (reply: Result<Control, PortError>)
      modifies this, repository.database
      ensures Tables() == Perform(old(Tables()), world(old(turn)).before)
      ensures reply.Ok? <==> world(old(turn)).fault.HEALTHY? && ReadControl(Tables(), fence, clock).Ok?
      ensures reply.Ok? ==> ReadControl(Tables(), fence, clock) == Ok(reply.value)
      ensures reply == Err(FENCE_ERROR) ==> ReadControl(Tables(), fence, clock).Err?
      ensures reply == Err(TRANSIENT_ERROR) ==> Passing(world(old(turn)).fault)
      ensures reply == Err(OTHER_ERROR) <==> world(old(turn)).fault.NON_TRANSIENT?
      ensures turn == old(turn) + 1 && clock == old(clock) + world(old(turn)).elapsed
    {
      var now := world(turn);
      Begin();
      if now.fault.NON_TRANSIENT? { return Err(OTHER_ERROR); }
      if now.fault.TRANSIENT? { return Err(TRANSIENT_ERROR); }
      var answer := repository.ReadExecutionControl(fence, clock);
      return Delivered(now, answer);
    }

    method Sleep(ms: nat)
      modifies this`clock
      ensures clock == old(clock) + ms
    {
      clock := clock + ms;
    }
  }
}
