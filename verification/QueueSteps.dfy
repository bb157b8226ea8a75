/** One step of the whole system: any transaction of the repository or of the web application, called by
    anyone, with any arguments and any clock readings. */
module QueueSteps {
  import opened QueueTables
  import opened QueueOperations
  import opened JobCommands

  datatype Op =
    | OpEnqueue(id: JobId, input: NewJob, now: Time)
    | OpEnqueueResolver(id: JobId, again: bool, now: Time)
    | OpEnqueueChild(fence: Fence, id: JobId, input: NewJob, now: Time)
    | OpClaim(claim: ClaimInput)
    | OpHeartbeat(fence: Fence, now: Time, leaseMs: int)
    | OpProgress(fence: Fence, progress: int, now: Time)
    | OpSettle(fence: Fence, intent: Intent, calledAt: Time, now: Time)
    | OpExecution(fence: Fence, steps: seq<CallbackStep>, enteredAt: Time, lockedAt: Time, finalizedAt: Time)
    | OpMutation(fence: Fence, payloads: seq<int>, threw: bool, enteredAt: Time, committedAt: Time)
    | OpRecover(lane: Lane, now: Time)
    | OpSkipExpired(now: Time, calendar: Calendar)
    | OpRequestCancellation(id: JobId, now: Time)
    | OpCancel(id: JobId, bound: bool, now: Time)
    | OpPause(id: JobId, now: Time)
    | OpResume(id: JobId, now: Time)
    | OpRetry(id: JobId, retryId: JobId, payloadAccepted: bool, now: Time)
    | OpChangePriority(id: JobId, priority: int)

  predicate FreshToken(s: State, token: Token) { forall id :: id in s.rows ==> token !in s.rows[id].claims }

  /** The only thing asked of a step: identifiers and tokens that the program draws at random are new. */
  predicate Permitted(s: State, op: Op) {
    match op
    case OpEnqueue(id, _, _) => id !in s.rows
    case OpEnqueueResolver(id, _, _) => id !in s.rows
    case OpEnqueueChild(_, id, _, _) => id !in s.rows
    case OpClaim(claim) => FreshToken(s, claim.token)
    case OpRetry(_, retryId, _, _) => retryId !in s.rows
    case _ => true
  }

  function Step(s: State, op: Op): State
    requires Permitted(s, op)
  {
    match op
    case OpEnqueue(id, input, now) => Enqueue(s, id, input, now).state
    case OpEnqueueResolver(id, again, now) => EnqueueResolver(s, id, again, now).state
    case OpEnqueueChild(fence, id, input, now) => EnqueueChild(s, fence, id, input, now).state
    case OpClaim(claim) => Claim(s, claim).state
    case OpHeartbeat(fence, now, leaseMs) => Heartbeat(s, fence, now, leaseMs).state
    case OpProgress(fence, progress, now) => UpdateProgress(s, fence, progress, now).state
    case OpSettle(fence, intent, calledAt, now) => Settle(s, fence, intent, calledAt, now).state
    case OpExecution(fence, steps, t0, t1, t2) => FencedExecution(s, fence, steps, t0, t1, t2).state
    case OpMutation(fence, payloads, threw, t0, t1) => FencedMutation(s, fence, payloads, threw, t0, t1).state
    case OpRecover(lane, now) => Recover(s, lane, now).state
    case OpSkipExpired(now, calendar) => SkipExpired(s, now, calendar)
    case OpRequestCancellation(id, now) => RequestCancellation(s, id, now).state
    case OpCancel(id, bound, now) => CancelCommand(s, id, bound, now).state
    case OpPause(id, now) => PauseCommand(s, id, now).state
    case OpResume(id, now) => ResumeCommand(s, id, now).state
    case OpRetry(id, retryId, accepted, now) => RetryCommand(s, id, retryId, accepted, now).state
    case OpChangePriority(id, priority) => ChangePriority(s, id, priority).state
  }

  /** A run is a sequence of steps; it can be made when every step is permitted where it happens. */
  ghost predicate CanRun(s: State, ops: seq<Op>)
    decreases |ops|
  {
    ops == [] || (Permitted(s, ops[0]) && CanRun(Step(s, ops[0]), ops[1..]))
  }

  ghost function Run(s: State, ops: seq<Op>): State
    requires CanRun(s, ops)
    decreases |ops|
  {
    if ops == [] then s else Run(Step(s, ops[0]), ops[1..])
  }

  /** Steps taken by others; one that draws an identifier already in use does not happen. */
  function Perform(s: State, ops: seq<Op>): State
    decreases |ops|
  {
    if ops == [] then s
    else Perform(if Permitted(s, ops[0]) then Step(s, ops[0]) else s, ops[1..])
  }

  lemma {:induction false} RunThenStep(s: State, ops: seq<Op>, op: Op)
    requires CanRun(s, ops) && Permitted(Run(s, ops), op)
    ensures CanRun(s, ops + [op]) && Run(s, ops + [op]) == Step(Run(s, ops), op)
    decreases |ops|
  {
    if ops == [] {
      assert [op][1..] == [];
    } else {
      RunThenStep(Step(s, ops[0]), ops[1..], op);
      assert (ops + [op])[1..] == ops[1..] + [op];
    }
  }
}
