/** What has happened to the tables since the dispatcher looked: as long as its token is held, only what others did. */
module DispatcherTrace {
  import opened Prelude
  import opened QueueTables
  import opened QueueOperations
  import opened QueueSteps
  import opened QueueInvariant
  import opened QueueStepsKeep
  import opened QueueTheorems
  import opened QueueColumns
  import opened QueueContracts
  import opened FenceHolding
  import opened DispatcherPort
  import opened DispatcherControl

  ghost predicate OnlyOthers(start: State, s: State, fence: Fence, ops: seq<Op>) {
    && StepOk(start, s) && Issued(s, fence.jobId, fence.executionToken)
    && (Holds(s, fence.jobId, fence.executionToken) ==> s == Perform(start, ops))
  }

  lemma NothingHappened(start: State, fence: Fence)
    requires Inv(start) && Issued(start, fence.jobId, fence.executionToken)
    ensures OnlyOthers(start, start, fence, [])
  {
    UnchangedOk(start, start);
  }

  lemma OthersAct(start: State, s: State, fence: Fence, ops: seq<Op>, more: seq<Op>)
    requires OnlyOthers(start, s, fence, ops)
    ensures OnlyOthers(start, Perform(s, more), fence, ops + more)
  {
    hide Inv, StepOk, Perform, Holds, Issued;
    var later := Perform(s, more);
    StepOkGives(start, s);
    PerformKeeps(s, more);
    StepOkTransitive(start, s, later);
    IssuedStays(s, later, fence.jobId, fence.executionToken);
    if Holds(later, fence.jobId, fence.executionToken) {
      HeldAllAlong(s, later, fence.jobId, fence.executionToken);
      PerformMore(start, ops, more);
    }
  }

  /** A call that commits gives the token up. */
  lemma CallGivesUp(s: State, turn: Turn, fence: Fence, outcome: Settlement, calledAt: Time)
    requires Inv(s)
    ensures var later := SettleCall(s, turn, fence, outcome, calledAt).state;
            later == s || !Holds(later, fence.jobId, fence.executionToken)
  {
    hide Inv, Settle, FenceWorks, MayEnd, EndLogged, PublishedThen, OtherRowsSame;
    if IntentFor(outcome).Some? {
      SettlementKeepsPromise(s, fence, IntentFor(outcome).value, calledAt, calledAt + turn.elapsed);
    }
  }

  lemma CallIsMade(start: State, s: State, fence: Fence, ops: seq<Op>, turn: Turn, outcome: Settlement, calledAt: Time)
    requires OnlyOthers(start, s, fence, ops)
    ensures OnlyOthers(start, SettleCall(s, turn, fence, outcome, calledAt).state, fence, ops)
  {
    hide Inv, StepOk, SettleCall, Perform, Holds, Issued;
    var later := SettleCall(s, turn, fence, outcome, calledAt).state;
    StepOkGives(start, s);
    CallGivesUp(s, turn, fence, outcome, calledAt);
    SettleCallOk(s, turn, fence, outcome, calledAt, later);
    StepOkTransitive(start, s, later);
    IssuedStays(s, later, fence.jobId, fence.executionToken);
  }

  /** What a settlement that succeeds has met is the work of others alone. */
  lemma SettledMetOthers(start: State, seen: State, fence: Fence, ops: seq<Op>, intent: Intent, calledAt: Time, now: Time)
    requires OnlyOthers(start, seen, fence, ops) && Settle(seen, fence, intent, calledAt, now).reply.Ok?
    ensures seen == Perform(start, ops)
  {
    hide Inv, StepOk, Transition, Perform;
  }

  lemma {:induction false} OthersInTwo(world: nat -> Turn, first: nat, middle: nat, last: nat)
    requires first <= middle <= last
    ensures Others(world, first, middle) + Others(world, middle, last) == Others(world, first, last)
    decreases last
  {
    if middle < last {
      OthersInTwo(world, first, middle, last - 1);
    } else {
      assert Others(world, first, middle) + [] == Others(world, first, middle);
    }
  }
}
