/** The life of a worker process: its start and its shutdown, the host's presence writes and the heartbeat loop, cut
    into the pieces that run without a pause.  Any piece that can go next may go next. */
module WorkerLifecycle {
  import opened Prelude

  datatype Presence = STARTING | READY | DEGRADED | STOPPING

  /** Who waits for a presence write. */
  datatype Owner = HOST_START | MARK_READY | BEAT | RECOVERY | HOST_STOP

  datatype Write = Write(owner: Owner, status: Presence)

  datatype Promise = NOT_STARTED | PENDING | RESOLVED | REJECTED

  datatype StartStage =
    | START_IDLE | AWAITS_SERVER | AWAITS_HOST | AWAITS_PREFLIGHT | AWAITS_PREPARE | AWAITS_READY
    | AWAITS_DRAIN_STOPS | AWAITS_HOST_DOWN | AWAITS_FAILURE_SHUTDOWN | START_OVER

  datatype StopStage =
    | STOP_IDLE | STOP_AWAITS_PREPARE | STOP_AWAITS_DISPATCHERS | STOP_AWAITS_HOST_START | STOP_AWAITS_HOST
    | STOP_AWAITS_PREFLIGHT | STOP_AWAITS_SERVER | STOP_OVER | STOP_FAILED

  datatype ReadyStage = READY_IDLE | READY_AWAITS_START | READY_WRITING | READY_DONE | READY_FAILED

  datatype HostStopStage = HOST_RUNS | HOST_AWAITS_START | HOST_AWAITS_LOOP | HOST_WRITING | HOST_STOPPED

  datatype BeatStage = NO_BEAT | BEAT_QUEUED | BEAT_WRITING | BEAT_RECOVERING | BEAT_REPORTING(recovered: bool)

  /** The presence writes not settled yet, whether the first has reached the store, the results not picked up yet, and
      what the store was asked to write. */
  datatype Chain = Chain(writes: seq<Write>, writing: bool, delivered: map<Owner, bool>, attempted: seq<Presence>)

  /** The host with its heartbeat loop. */
  datatype Host = Host(
    status: Presence,
    aborted: bool,
    start: Promise,
    ready: ReadyStage,
    stop: HostStopStage,
    loopStopped: bool,
    unhealthy: bool,
    timer: bool,
    beat: BeatStage)

  datatype DispatcherState = DispatcherState(prepare: Promise, activated: bool, stop: Promise)

  datatype App = App(
    start: StartStage,
    stop: StopStage,
    hostStarted: bool,
    preflight: Promise,
    prepareStarted: bool,
    dispatcherPrepared: bool,
    dispatchers: seq<DispatcherState>,
    disconnected: bool)

  datatype Worker = Worker(draining: bool, readyAllowed: bool, host: Host, chain: Chain, app: App)

  datatype Moved = Moved(host: Host, chain: Chain)

  function Initial(dispatchers: nat): Worker {
    Worker(false, false,
           Host(STARTING, false, NOT_STARTED, READY_IDLE, HOST_RUNS, false, false, false, NO_BEAT),
           Chain([], false, map[], []),
           App(START_IDLE, STOP_IDLE, false, NOT_STARTED, false, false,
               seq(dispatchers, _ => DispatcherState(NOT_STARTED, false, NOT_STARTED)), false))
  }

  datatype Event =
    | StartCalled
    | ShutdownCalled
    | ServerStarted(ok: bool)
    | StoreTakesWrite
    | StoreSettles(ok: bool)
    | HostStartContinues
    | StartContinues(throwsAt: Option<nat>)
    | PreflightSettles(ok: bool)
    | PrepareSettles(i: nat, ok: bool)
    | StopSettles(i: nat, ok: bool)
    | MarkReadyContinues
    | HostStopContinues
    | TimerFires
    | BeatContinues(ok: bool)
    | ShutdownContinues

  predicate Settled(p: Promise) { p.RESOLVED? || p.REJECTED? }

  function Outcome(ok: bool): Promise { if ok then RESOLVED else REJECTED }

  predicate AllPrepared(ds: seq<DispatcherState>) { forall i :: 0 <= i < |ds| ==> ds[i].prepare.RESOLVED? }

  predicate SomePrepareFailed(ds: seq<DispatcherState>) { exists i :: 0 <= i < |ds| && ds[i].prepare.REJECTED? }

  predicate AllStopped(ds: seq<DispatcherState>) { forall i :: 0 <= i < |ds| ==> ds[i].stop.RESOLVED? }

  predicate SomeStopFailed(ds: seq<DispatcherState>) { exists i :: 0 <= i < |ds| && ds[i].stop.REJECTED? }

  // ----- presence writes --------------------------------------------------------------------------------

  /** `persist`: the write joins the chain with the status it was called with. */
  function Persist(c: Chain, owner: Owner, status: Presence): Chain { c.(writes := c.writes + [Write(owner, status)]) }

  /** `PresenceReadinessGate.write` */
  function Gated(readyAllowed: bool, status: Presence): Presence {
    if status.READY? && !readyAllowed then STARTING else status
  }

  function TakeWrite(c: Chain, readyAllowed: bool): Chain {
    if c.writes == [] || c.writing then c
    else c.(writing := true, attempted := c.attempted + [Gated(readyAllowed, c.writes[0].status)])
  }

  function SettleWrite(c: Chain, ok: bool): Chain {
    if c.writes == [] || !c.writing then c
    else c.(writing := false, writes := c.writes[1..], delivered := c.delivered[c.writes[0].owner := ok])
  }

  function PickedUp(c: Chain, owner: Owner): Chain { c.(delivered := c.delivered - {owner}) }

  // ----- the heartbeat loop -----------------------------------------------------------------------------

  function Scheduled(h: Host): Host { if h.loopStopped || h.aborted then h else h.(timer := true) }

  /** `stop` of the loop, once the loop exists. */
  function LoopStopped(h: Host): Host {
    if h.start.RESOLVED? then h.(loopStopped := true, timer := false) else h
  }

  function Tick(h: Host): Host {
    if !h.timer then h
    else if h.loopStopped || h.aborted then h.(timer := false)
    else h.(timer := false, beat := BEAT_QUEUED)
  }

  function BeatFailed(h: Host): Host {
    if h.loopStopped || h.aborted then h.(beat := NO_BEAT)
    else h.(unhealthy := true, status := DEGRADED, beat := BEAT_REPORTING(false))
  }

  function BeatSucceeded(h: Host, c: Chain): Moved {
    if !h.unhealthy || h.loopStopped || h.aborted then Moved(Scheduled(h.(beat := NO_BEAT)), c)
    else if h.status.DEGRADED? then
      Moved(h.(unhealthy := false, status := READY, beat := BEAT_RECOVERING), Persist(c, RECOVERY, READY))
    else Moved(h.(unhealthy := false, beat := BEAT_REPORTING(true)), c)
  }

  function BeatMoves(h: Host, c: Chain, ok: bool): Moved {
    match h.beat
    case NO_BEAT => Moved(h, c)
    case BEAT_QUEUED =>
      if h.loopStopped || h.aborted then Moved(h.(beat := NO_BEAT), c)
      else Moved(h.(beat := BEAT_WRITING), Persist(c, BEAT, h.status))
    case BEAT_WRITING =>
      if BEAT !in c.delivered then Moved(h, c)
      else if !c.delivered[BEAT] then Moved(BeatFailed(h), PickedUp(c, BEAT))
      else BeatSucceeded(h, PickedUp(c, BEAT))
    case BEAT_RECOVERING =>
      if RECOVERY !in c.delivered then Moved(h, c)
      else if c.delivered[RECOVERY] then Moved(h.(beat := BEAT_REPORTING(true)), PickedUp(c, RECOVERY))
      else Moved(BeatFailed(h), PickedUp(c, RECOVERY))
    case BEAT_REPORTING(recovered) =>
      Moved(if recovered && !ok then BeatFailed(h) else Scheduled(h.(beat := NO_BEAT)), c)
  }

  // ----- the host ------------------------------------------------------------------------------------------

  function HostStartMoves(h: Host, c: Chain): Moved {
    if !h.start.PENDING? || HOST_START !in c.delivered then Moved(h, c)
    else if c.delivered[HOST_START] then Moved(Scheduled(h.(start := RESOLVED)), PickedUp(c, HOST_START))
    else Moved(h.(start := REJECTED), PickedUp(c, HOST_START))
  }

  function ReadyMoves(h: Host, c: Chain): Moved {
    match h.ready
    case READY_AWAITS_START =>
      if !Settled(h.start) then Moved(h, c)
      else if h.start.REJECTED? || h.aborted then Moved(h.(ready := READY_FAILED), c)
      else Moved(h.(status := READY, ready := READY_WRITING), Persist(c, MARK_READY, READY))
    case READY_WRITING =>
      if MARK_READY !in c.delivered then Moved(h, c)
      else Moved(h.(ready := if c.delivered[MARK_READY] then READY_DONE else READY_FAILED), PickedUp(c, MARK_READY))
    case _ => Moved(h, c)
  }

  function HostShutdown(h: Host): Host {
    if !h.stop.HOST_RUNS? then h else LoopStopped(h.(status := STOPPING, aborted := true, stop := HOST_AWAITS_START))
  }

  function HostStopMoves(h: Host, c: Chain): Moved {
    match h.stop
    case HOST_AWAITS_START => if h.start.PENDING? then Moved(h, c) else Moved(LoopStopped(h).(stop := HOST_AWAITS_LOOP), c)
    case HOST_AWAITS_LOOP =>
      if !h.beat.NO_BEAT? then Moved(h, c) else Moved(h.(stop := HOST_WRITING), Persist(c, HOST_STOP, STOPPING))
    case HOST_WRITING =>
      if HOST_STOP !in c.delivered then Moved(h, c) else Moved(h.(stop := HOST_STOPPED), PickedUp(c, HOST_STOP))
    case _ => Moved(h, c)
  }

  // ----- the application ------------------------------------------------------------------------------------

  function HostShutDown(w: Worker): Worker {
    w.(host := HostShutdown(w.host), draining := w.draining || w.host.stop.HOST_RUNS?)
  }

  function AtStop(w: Worker, stage: StopStage): Worker { w.(app := w.app.(stop := stage)) }

  function AtStart(w: Worker, stage: StartStage): Worker { w.(app := w.app.(start := stage)) }

  function StopsCalled(w: Worker): Worker {
    w.(app := w.app.(dispatchers := seq(|w.app.dispatchers|, i requires 0 <= i < |w.app.dispatchers| =>
      if w.app.dispatchers[i].stop.NOT_STARTED? then w.app.dispatchers[i].(stop := PENDING) else w.app.dispatchers[i])))
  }

  // Each of these is the rest of `shutdownInternal` from one of its awaits on, up to the next.
  function StopFromHost(w: Worker): Worker {
    if w.app.hostStarted then AtStop(HostShutDown(w), STOP_AWAITS_HOST) else AtStop(w, STOP_AWAITS_PREFLIGHT)
  }

  function StopFromHostStart(w: Worker): Worker {
    if w.host.start.NOT_STARTED? then StopFromHost(w) else AtStop(w, STOP_AWAITS_HOST_START)
  }

  function StopFromDispatchers(w: Worker): Worker {
    if w.app.dispatcherPrepared then AtStop(StopsCalled(w), STOP_AWAITS_DISPATCHERS) else StopFromHostStart(w)
  }

  function Shutdown(w: Worker): Worker {
    var v := w.(draining := true);
    if !v.app.stop.STOP_IDLE? then v
    else if v.app.prepareStarted then AtStop(v, STOP_AWAITS_PREPARE)
    else StopFromDispatchers(v)
  }

  function WithPrepared(w: Worker): Worker { w.(app := w.app.(dispatcherPrepared := true)) }

  function WithHostStarted(w: Worker): Worker { w.(app := w.app.(hostStarted := true)) }

  function ShutdownMoves(w: Worker): Worker {
    match w.app.stop
    case STOP_AWAITS_PREPARE =>
      if AllPrepared(w.app.dispatchers) then StopFromDispatchers(WithPrepared(w))
      else if SomePrepareFailed(w.app.dispatchers) then StopFromDispatchers(w)
      else w
    case STOP_AWAITS_DISPATCHERS =>
      if AllStopped(w.app.dispatchers) then StopFromHostStart(w)
      else if SomeStopFailed(w.app.dispatchers) then AtStop(w, STOP_FAILED)
      else w
    case STOP_AWAITS_HOST_START =>
      if w.host.start.RESOLVED? then StopFromHost(WithHostStarted(w))
      else if w.host.start.REJECTED? then StopFromHost(w)
      else w
    case STOP_AWAITS_HOST => if w.host.stop.HOST_STOPPED? then AtStop(w, STOP_AWAITS_PREFLIGHT) else w
    case STOP_AWAITS_PREFLIGHT => if w.app.preflight.PENDING? then w else AtStop(w, STOP_AWAITS_SERVER)
    case STOP_AWAITS_SERVER => w.(app := w.app.(stop := STOP_OVER, disconnected := true))
    case _ => w
  }

  function StartFailed(w: Worker): Worker { Shutdown(AtStart(w, AWAITS_FAILURE_SHUTDOWN)) }

  function StartLeaves(w: Worker): Worker { HostShutDown(AtStart(w, AWAITS_HOST_DOWN)) }

  function StartGetsReady(w: Worker): Worker {
    AtStart(w.(readyAllowed := true, host := w.host.(ready := READY_AWAITS_START)), AWAITS_READY)
  }

  /** `prepare` is called on one dispatcher after the other; one of them may throw before it returns a promise. */
  function PreparesCalled(ds: seq<DispatcherState>, throwsAt: Option<nat>): seq<DispatcherState> {
    var called := if throwsAt.Some? && throwsAt.value < |ds| then throwsAt.value else |ds|;
    seq(|ds|, i requires 0 <= i < |ds| =>
      if i < called then ds[i].(prepare := PENDING) else if i == called then ds[i].(prepare := REJECTED) else ds[i])
  }

  function AllActivated(ds: seq<DispatcherState>): seq<DispatcherState> {
    seq(|ds|, i requires 0 <= i < |ds| => ds[i].(activated := true))
  }

  function AfterHostStart(w: Worker): Worker {
    if w.host.start.REJECTED? then StartFailed(w)
    else if !w.host.start.RESOLVED? then w
    else if w.draining then StartLeaves(WithHostStarted(w))
    else AtStart(WithHostStarted(w).(app := WithHostStarted(w).app.(preflight := PENDING)), AWAITS_PREFLIGHT)
  }

  function AfterPreflight(w: Worker, throwsAt: Option<nat>): Worker {
    if w.app.preflight.REJECTED? then StartFailed(w)
    else if !w.app.preflight.RESOLVED? then w
    else if w.draining then StartLeaves(w)
    else if w.app.dispatchers == [] then StartGetsReady(w)
    else if throwsAt.Some? && throwsAt.value < |w.app.dispatchers| then
      StartFailed(w.(app := w.app.(dispatchers := PreparesCalled(w.app.dispatchers, throwsAt))))
    else
      AtStart(w.(app := w.app.(dispatchers := PreparesCalled(w.app.dispatchers, None), prepareStarted := true)), AWAITS_PREPARE)
  }

  function AfterPrepare(w: Worker): Worker {
    if SomePrepareFailed(w.app.dispatchers) then StartFailed(w)
    else if !AllPrepared(w.app.dispatchers) then w
    else if w.draining then AtStart(StopsCalled(WithPrepared(w)), AWAITS_DRAIN_STOPS)
    else StartGetsReady(WithPrepared(w))
  }

  function AfterReady(w: Worker): Worker {
    if w.host.ready.READY_FAILED? then StartFailed(w)
    else if !w.host.ready.READY_DONE? then w
    else if !w.draining then AtStart(w.(app := w.app.(dispatchers := AllActivated(w.app.dispatchers))), START_OVER)
    else if w.app.dispatcherPrepared then AtStart(StopsCalled(w), AWAITS_DRAIN_STOPS)
    else StartLeaves(w)
  }

  /** `startInternal` after one of its awaits. */
  function StartMoves(w: Worker, throwsAt: Option<nat>): Worker {
    match w.app.start
    case AWAITS_HOST => AfterHostStart(w)
    case AWAITS_PREFLIGHT => AfterPreflight(w, throwsAt)
    case AWAITS_PREPARE => AfterPrepare(w)
    case AWAITS_READY => AfterReady(w)
    case AWAITS_DRAIN_STOPS =>
      if SomeStopFailed(w.app.dispatchers) then StartFailed(w)
      else if AllStopped(w.app.dispatchers) then StartLeaves(w)
      else w
    case AWAITS_HOST_DOWN => if w.host.stop.HOST_STOPPED? then AtStart(w, START_OVER) else w
    case AWAITS_FAILURE_SHUTDOWN =>
      if w.app.stop.STOP_OVER? || w.app.stop.STOP_FAILED? then AtStart(w, START_OVER) else w
    case _ => w
  }

  function ServerUp(w: Worker, ok: bool): Worker {
    if !w.app.start.AWAITS_SERVER? then w
    else if !ok || w.draining then AtStart(w, START_OVER)
    else
      AtStart(w.(host := w.host.(start := PENDING), chain := Persist(w.chain, HOST_START, STARTING)), AWAITS_HOST)
  }

  function PrepareEnds(ds: seq<DispatcherState>, i: nat, ok: bool): seq<DispatcherState> {
    if i >= |ds| || !ds[i].prepare.PENDING? then ds else ds[i := ds[i].(prepare := Outcome(ok))]
  }

  function StopEnds(ds: seq<DispatcherState>, i: nat, ok: bool): seq<DispatcherState> {
    if i >= |ds| || !ds[i].stop.PENDING? then ds else ds[i := ds[i].(stop := Outcome(ok))]
  }

  function WithMoved(w: Worker, moved: Moved): Worker { w.(host := moved.host, chain := moved.chain) }

  function WithDispatchers(w: Worker, ds: seq<DispatcherState>): Worker { w.(app := w.app.(dispatchers := ds)) }

  function Next(w: Worker, event: Event): Worker {
    match event
    case StartCalled => if w.app.start.START_IDLE? then AtStart(w, AWAITS_SERVER) else w
    case ShutdownCalled => Shutdown(w)
    case ServerStarted(ok) => ServerUp(w, ok)
    case StoreTakesWrite => w.(chain := TakeWrite(w.chain, w.readyAllowed))
    case StoreSettles(ok) => w.(chain := SettleWrite(w.chain, ok))
    case HostStartContinues => WithMoved(w, HostStartMoves(w.host, w.chain))
    case StartContinues(throwsAt) => StartMoves(w, throwsAt)
    case PreflightSettles(ok) => if w.app.preflight.PENDING? then w.(app := w.app.(preflight := Outcome(ok))) else w
    case PrepareSettles(i, ok) => WithDispatchers(w, PrepareEnds(w.app.dispatchers, i, ok))
    case StopSettles(i, ok) => WithDispatchers(w, StopEnds(w.app.dispatchers, i, ok))
    case MarkReadyContinues => WithMoved(w, ReadyMoves(w.host, w.chain))
    case HostStopContinues => WithMoved(w, HostStopMoves(w.host, w.chain))
    case TimerFires => w.(host := Tick(w.host))
    case BeatContinues(ok) => WithMoved(w, BeatMoves(w.host, w.chain, ok))
    case ShutdownContinues => ShutdownMoves(w)
  }

  function After(dispatchers: nat, events: seq<Event>): Worker {
    if events == [] then Initial(dispatchers) else Next(After(dispatchers, events[..|events| - 1]), events[|events| - 1])
  }
}
