/** What holds in every interleaving of a worker's start, heartbeats and shutdown. */
module WorkerSafety {
  import opened Prelude
  import opened WorkerLifecycle

  // ----- the host and its writes --------------------------------------------------------------------------

  predicate Awaits(h: Host, owner: Owner) {
    match owner
    case HOST_START => h.start.PENDING?
    case MARK_READY => h.ready.READY_WRITING?
    case BEAT => h.beat.BEAT_WRITING?
    case RECOVERY => h.beat.BEAT_RECOVERING?
    case HOST_STOP => h.stop.HOST_WRITING?
  }

  ghost predicate InChain(c: Chain, owner: Owner) { exists i :: 0 <= i < |c.writes| && c.writes[i].owner == owner }

  /** One write for each waiting caller whose result is not in yet, the final one at the end. */
  ghost predicate WritesOk(h: Host, c: Chain) {
    && (forall i, j :: 0 <= i < j < |c.writes| ==> c.writes[i].owner != c.writes[j].owner)
    && (forall i :: 0 <= i < |c.writes| ==> Awaits(h, c.writes[i].owner) && c.writes[i].owner !in c.delivered)
    && (forall owner :: owner in c.delivered ==> Awaits(h, owner))
    && (forall i :: 0 <= i < |c.writes| ==> (c.writes[i].owner.HOST_STOP? <==> c.writes[i].status.STOPPING?))
    && (forall i :: 0 <= i < |c.writes| - 1 ==> !c.writes[i].owner.HOST_STOP?)
    && (c.writing ==> c.writes != [])
  }

  predicate FinalWriteMade(h: Host, c: Chain) { HOST_STOP in c.delivered || h.stop.HOST_STOPPED? }

  predicate FinalWriteRuns(c: Chain) { c.writing && |c.writes| == 1 && c.writes[0].owner.HOST_STOP? }

  /** The store is asked for STOPPING once, by the final write, and then for nothing more. */
  ghost predicate AttemptedOk(h: Host, c: Chain, readyAllowed: bool) {
    && (READY in c.attempted ==> readyAllowed)
    && (forall i :: 0 <= i < |c.attempted| - 1 ==> !c.attempted[i].STOPPING?)
    && (c.attempted != [] && c.attempted[|c.attempted| - 1].STOPPING? <==> FinalWriteMade(h, c) || FinalWriteRuns(c))
    && (FinalWriteMade(h, c) ==> c.writes == [])
  }

  predicate HostOk(h: Host) {
    && (h.aborted <==> !h.stop.HOST_RUNS?) && (h.status.STOPPING? <==> h.aborted)
    && (h.aborted ==> h.start.RESOLVED? && h.loopStopped && !h.timer)
    && (h.stop.HOST_WRITING? || h.stop.HOST_STOPPED? ==> h.beat.NO_BEAT?)
    && (h.timer ==> h.beat.NO_BEAT? && !h.loopStopped)
    && (!h.beat.NO_BEAT? || h.timer || h.loopStopped || !h.ready.READY_IDLE? ==> h.start.RESOLVED?)
  }

  ghost predicate MovedOk(h: Host, c: Chain, readyAllowed: bool) {
    HostOk(h) && WritesOk(h, c) && AttemptedOk(h, c, readyAllowed)
  }

  lemma SameWrites(h: Host, c: Chain, g: Host)
    requires WritesOk(h, c)
    requires forall owner :: InChain(c, owner) || owner in c.delivered ==> Awaits(g, owner)
    ensures WritesOk(g, c)
  {
    forall i | 0 <= i < |c.writes| ensures Awaits(g, c.writes[i].owner) { assert InChain(c, c.writes[i].owner); }
  }

  lemma NotWaiting(h: Host, c: Chain, owner: Owner)
    requires WritesOk(h, c)
    ensures InChain(c, owner) || owner in c.delivered ==> Awaits(h, owner)
  {
  }

  /** A change of the host that leaves every caller waiting leaves the chain in order. */
  lemma StillMovedOk(h: Host, c: Chain, readyAllowed: bool, g: Host)
    requires MovedOk(h, c, readyAllowed) && HostOk(g) && g.stop.HOST_STOPPED? == h.stop.HOST_STOPPED?
    requires forall owner :: Awaits(h, owner) ==> Awaits(g, owner)
    ensures MovedOk(g, c, readyAllowed)
  {
    hide HostOk, Awaits;
    forall owner | InChain(c, owner) || owner in c.delivered ensures Awaits(g, owner) { NotWaiting(h, c, owner); }
    SameWrites(h, c, g);
  }

  /** A write is added for a caller that was not waiting and now is. */
  lemma PersistOk(h: Host, c: Chain, readyAllowed: bool, g: Host, owner: Owner, status: Presence)
    requires MovedOk(h, c, readyAllowed) && HostOk(g) && g.stop.HOST_STOPPED? == h.stop.HOST_STOPPED?
    requires forall other :: Awaits(h, other) ==> Awaits(g, other)
    requires !Awaits(h, owner) && Awaits(g, owner)
    requires owner.HOST_STOP? <==> status.STOPPING?
    requires !h.stop.HOST_WRITING? && !h.stop.HOST_STOPPED?
    ensures MovedOk(g, Persist(c, owner, status), readyAllowed)
  {
    StillMovedOk(h, c, readyAllowed, g);
    NotWaiting(h, c, owner);
    NotWaiting(h, c, HOST_STOP);
    Appended(g, c, readyAllowed, owner, status);
  }

  lemma Appended(g: Host, c: Chain, readyAllowed: bool, owner: Owner, status: Presence)
    requires WritesOk(g, c) && AttemptedOk(g, c, readyAllowed) && Awaits(g, owner)
    requires !InChain(c, owner) && owner !in c.delivered && !InChain(c, HOST_STOP) && !FinalWriteMade(g, c)
    requires owner.HOST_STOP? <==> status.STOPPING?
    ensures WritesOk(g, Persist(c, owner, status)) && AttemptedOk(g, Persist(c, owner, status), readyAllowed)
  {
    hide Awaits;
    var d := Persist(c, owner, status);
    forall i, j | 0 <= i < j < |d.writes| ensures d.writes[i].owner != d.writes[j].owner {
      assert InChain(c, d.writes[i].owner);
    }
    forall i | 0 <= i < |d.writes| - 1 ensures !d.writes[i].owner.HOST_STOP? { assert InChain(c, d.writes[i].owner); }
    assert c.writes != [] ==> InChain(c, c.writes[0].owner);
  }

  /** A caller other than the final one picks up its result and moves on. */
  lemma PickUpOk(h: Host, c: Chain, readyAllowed: bool, g: Host, owner: Owner)
    requires MovedOk(h, c, readyAllowed) && HostOk(g) && g.stop.HOST_STOPPED? == h.stop.HOST_STOPPED?
    requires owner in c.delivered && !owner.HOST_STOP?
    requires forall other :: other != owner && Awaits(h, other) ==> Awaits(g, other)
    ensures MovedOk(g, PickedUp(c, owner), readyAllowed)
  {
    hide HostOk, Awaits;
    var d := PickedUp(c, owner);
    assert WritesOk(h, d);
    forall other | InChain(d, other) || other in d.delivered ensures Awaits(g, other) {
      NotWaiting(h, d, other);
      if InChain(d, other) {
        var i :| 0 <= i < |d.writes| && d.writes[i].owner == other;
        assert c.writes[i].owner !in c.delivered;
      }
    }
    SameWrites(h, d, g);
  }

  /** What the rest of the worker sees of a host that moves by itself. */
  predicate HostAdvances(h: Host, g: Host) {
    && (h.start.PENDING? ==> !g.start.NOT_STARTED?) && (!h.start.PENDING? ==> g.start == h.start)
    && g.aborted == h.aborted
    && (h.stop.HOST_STOPPED? ==> g.stop.HOST_STOPPED?)
    && g.ready.READY_IDLE? == h.ready.READY_IDLE?
  }

  lemma HostStartOk(h: Host, c: Chain, readyAllowed: bool)
    requires MovedOk(h, c, readyAllowed)
    ensures var m := HostStartMoves(h, c); MovedOk(m.host, m.chain, readyAllowed) && HostAdvances(h, m.host)
  {
    hide WritesOk, AttemptedOk;
    var g := HostStartMoves(h, c).host;
    if h.start.PENDING? && HOST_START in c.delivered { PickUpOk(h, c, readyAllowed, g, HOST_START); }
  }

  lemma ReadyOk(h: Host, c: Chain, readyAllowed: bool)
    requires MovedOk(h, c, readyAllowed)
    ensures var m := ReadyMoves(h, c); MovedOk(m.host, m.chain, readyAllowed) && HostAdvances(h, m.host)
  {
    hide WritesOk, AttemptedOk;
    var g := ReadyMoves(h, c).host;
    if h.ready.READY_AWAITS_START? {
      if g.ready.READY_WRITING? {
        PersistOk(h, c, readyAllowed, g, MARK_READY, READY);
      } else {
        StillMovedOk(h, c, readyAllowed, g);
      }
    } else if h.ready.READY_WRITING? && MARK_READY in c.delivered {
      PickUpOk(h, c, readyAllowed, g, MARK_READY);
    }
  }

  lemma FinalPickUp(h: Host, c: Chain, readyAllowed: bool)
    requires MovedOk(h, c, readyAllowed) && HOST_STOP in c.delivered
    ensures MovedOk(h.(stop := HOST_STOPPED), PickedUp(c, HOST_STOP), readyAllowed)
  {
    NotWaiting(h, c, HOST_STOP);
    assert forall other :: Awaits(h, other) && !other.HOST_STOP? ==> Awaits(h.(stop := HOST_STOPPED), other);
  }

  lemma HostStopOk(h: Host, c: Chain, readyAllowed: bool)
    requires MovedOk(h, c, readyAllowed)
    ensures var m := HostStopMoves(h, c); MovedOk(m.host, m.chain, readyAllowed) && HostAdvances(h, m.host)
  {
    hide WritesOk, AttemptedOk;
    var g := HostStopMoves(h, c).host;
    if h.stop.HOST_WRITING? && HOST_STOP in c.delivered {
      FinalPickUp(h, c, readyAllowed);
    } else if h.stop.HOST_AWAITS_LOOP? && h.beat.NO_BEAT? {
      PersistOk(h, c, readyAllowed, g, HOST_STOP, STOPPING);
    } else {
      StillMovedOk(h, c, readyAllowed, g);
    }
  }

  lemma TickOk(h: Host, c: Chain, readyAllowed: bool)
    requires MovedOk(h, c, readyAllowed)
    ensures MovedOk(Tick(h), c, readyAllowed) && HostAdvances(h, Tick(h))
  {
    hide WritesOk, AttemptedOk;
    StillMovedOk(h, c, readyAllowed, Tick(h));
  }

  lemma BeatSucceededOk(h: Host, c: Chain, readyAllowed: bool)
    requires MovedOk(h, c, readyAllowed) && h.beat.BEAT_WRITING? && BEAT in c.delivered
    ensures var m := BeatSucceeded(h, PickedUp(c, BEAT)); MovedOk(m.host, m.chain, readyAllowed) && HostAdvances(h, m.host)
  {
    hide WritesOk, AttemptedOk;
    var g := BeatSucceeded(h, PickedUp(c, BEAT)).host;
    if g.beat.BEAT_RECOVERING? {
      var between := h.(beat := BEAT_QUEUED);
      PickUpOk(h, c, readyAllowed, between, BEAT);
      PersistOk(between, PickedUp(c, BEAT), readyAllowed, g, RECOVERY, READY);
    } else {
      PickUpOk(h, c, readyAllowed, g, BEAT);
    }
  }

  lemma BeatOk(h: Host, c: Chain, readyAllowed: bool, ok: bool)
    requires MovedOk(h, c, readyAllowed)
    ensures var m := BeatMoves(h, c, ok); MovedOk(m.host, m.chain, readyAllowed) && HostAdvances(h, m.host)
  {
    hide WritesOk, AttemptedOk;
    var g := BeatMoves(h, c, ok).host;
    match h.beat
    case NO_BEAT =>
    case BEAT_QUEUED =>
      if g.beat.BEAT_WRITING? {
        PersistOk(h, c, readyAllowed, g, BEAT, h.status);
      } else {
        StillMovedOk(h, c, readyAllowed, g);
      }
    case BEAT_WRITING =>
      if BEAT in c.delivered {
        if c.delivered[BEAT] { BeatSucceededOk(h, c, readyAllowed); } else { PickUpOk(h, c, readyAllowed, g, BEAT); }
      }
    case BEAT_RECOVERING =>
      if RECOVERY in c.delivered { PickUpOk(h, c, readyAllowed, g, RECOVERY); }
    case BEAT_REPORTING(_) =>
      StillMovedOk(h, c, readyAllowed, g);
  }

  lemma TakeWriteOk(h: Host, c: Chain, readyAllowed: bool)
    requires MovedOk(h, c, readyAllowed)
    ensures MovedOk(h, TakeWrite(c, readyAllowed), readyAllowed)
  {
    hide HostOk, Awaits;
    if c.writes != [] && !c.writing {
      assert c.writes[0].owner.HOST_STOP? ==> |c.writes| == 1;
      assert FinalWriteMade(h, c) ==> c.writes == [];
    }
  }

  lemma SettleWriteOk(h: Host, c: Chain, readyAllowed: bool, ok: bool)
    requires MovedOk(h, c, readyAllowed)
    ensures MovedOk(h, SettleWrite(c, ok), readyAllowed)
  {
    hide HostOk, Awaits;
    if c.writes != [] && c.writing {
      assert c.writes[0].owner.HOST_STOP? ==> |c.writes| == 1;
      assert FinalWriteMade(h, c) ==> c.writes == [];
      assert |c.writes| > 1 ==> !c.writes[0].owner.HOST_STOP?;
    }
  }

  lemma HostShutdownOk(h: Host, c: Chain, readyAllowed: bool)
    requires MovedOk(h, c, readyAllowed) && h.start.RESOLVED?
    ensures MovedOk(HostShutdown(h), c, readyAllowed)
    ensures HostShutdown(h).start == h.start && HostShutdown(h).aborted && HostShutdown(h).ready == h.ready
    ensures h.stop.HOST_STOPPED? ==> HostShutdown(h).stop.HOST_STOPPED?
  {
    hide WritesOk, AttemptedOk;
    StillMovedOk(h, c, readyAllowed, HostShutdown(h));
  }

  // ----- the application ------------------------------------------------------------------------------------

  predicate Untouched(ds: seq<DispatcherState>) { forall i :: 0 <= i < |ds| ==> ds[i].prepare.NOT_STARTED? }

  predicate SomeActivated(ds: seq<DispatcherState>) { exists i :: 0 <= i < |ds| && ds[i].activated }

  predicate BeforePrepare(stage: StartStage) {
    stage.START_IDLE? || stage.AWAITS_SERVER? || stage.AWAITS_HOST? || stage.AWAITS_PREFLIGHT?
  }

  predicate StartOk(w: Worker) {
    var stage, h := w.app.start, w.host;
    && (stage.START_IDLE? || stage.AWAITS_SERVER? ==> h.start.NOT_STARTED?)
    && (BeforePrepare(stage) ==> Untouched(w.app.dispatchers) && !w.app.prepareStarted && h.ready.READY_IDLE? && !w.readyAllowed)
    && (stage.AWAITS_HOST? ==> !h.start.NOT_STARTED?)
    && (stage.AWAITS_PREFLIGHT? || stage.AWAITS_PREPARE? ==> h.start.RESOLVED?)
    && (stage.AWAITS_PREPARE? ==> w.app.preflight.RESOLVED? && w.app.prepareStarted && h.ready.READY_IDLE?)
    && (stage.AWAITS_READY? ==> w.readyAllowed && (w.app.dispatchers == [] || w.app.dispatcherPrepared))
    && (stage.AWAITS_DRAIN_STOPS? || stage.AWAITS_HOST_DOWN? ==> h.start.RESOLVED? && w.draining)
    && (w.app.hostStarted ==> h.start.RESOLVED?)
    && (h.aborted ==> w.draining)
  }

  predicate DispatchersOk(w: Worker) {
    && (w.app.dispatcherPrepared ==> AllPrepared(w.app.dispatchers) && w.app.prepareStarted)
    && (w.readyAllowed ==> AllPrepared(w.app.dispatchers) && w.app.preflight.RESOLVED? && w.host.start.RESOLVED?)
    && (w.app.prepareStarted || SomePrepareFailed(w.app.dispatchers) || Untouched(w.app.dispatchers))
    && (SomeActivated(w.app.dispatchers) ==> w.app.dispatcherPrepared)
  }

  predicate PastDispatchers(stop: StopStage) {
    || stop.STOP_AWAITS_HOST_START? || stop.STOP_AWAITS_HOST? || stop.STOP_AWAITS_PREFLIGHT?
    || stop.STOP_AWAITS_SERVER? || stop.STOP_OVER?
  }

  predicate PastHost(stop: StopStage) { stop.STOP_AWAITS_PREFLIGHT? || stop.STOP_AWAITS_SERVER? || stop.STOP_OVER? }

  /** All that could be prepared is, or some preparation failed. */
  predicate PrepareDecided(app: App) { app.prepareStarted ==> app.dispatcherPrepared || SomePrepareFailed(app.dispatchers) }

  predicate StopOk(w: Worker) {
    var stage := w.app.stop;
    && (!stage.STOP_IDLE? ==> w.draining)
    && (stage.STOP_AWAITS_PREPARE? ==> w.app.prepareStarted)
    && (stage.STOP_AWAITS_DISPATCHERS? ==> w.app.dispatcherPrepared)
    && (!stage.STOP_IDLE? && !stage.STOP_AWAITS_PREPARE? ==> PrepareDecided(w.app))
    && (PastDispatchers(stage) && w.app.dispatcherPrepared ==> AllStopped(w.app.dispatchers))
    && (PastHost(stage) ==> !w.host.start.PENDING? && (w.host.start.RESOLVED? ==> w.host.stop.HOST_STOPPED?))
    && (stage.STOP_AWAITS_HOST? ==> w.host.start.RESOLVED?)
    && (w.app.disconnected <==> stage.STOP_OVER?)
  }

  ghost predicate Inv(w: Worker) {
    MovedOk(w.host, w.chain, w.readyAllowed) && StartOk(w) && DispatchersOk(w) && StopOk(w)
  }

  lemma InitialOk(dispatchers: nat)
    ensures Inv(Initial(dispatchers))
  {
  }

  lemma HostMovesOk(w: Worker, m: Moved)
    requires Inv(w) && MovedOk(m.host, m.chain, w.readyAllowed) && HostAdvances(w.host, m.host)
    ensures Inv(WithMoved(w, m))
  {
    hide MovedOk, AllPrepared, SomePrepareFailed, AllStopped, Untouched, SomeActivated;
  }

  lemma AtStopOk(w: Worker, stage: StopStage)
    requires Inv(w) && StopOk(AtStop(w, stage))
    ensures Inv(AtStop(w, stage))
  {
    hide MovedOk, AllPrepared, SomePrepareFailed, AllStopped, Untouched, SomeActivated;
  }

  lemma AtStartOk(w: Worker, stage: StartStage)
    requires Inv(w) && StartOk(AtStart(w, stage))
    ensures Inv(AtStart(w, stage))
  {
    hide MovedOk, AllPrepared, SomePrepareFailed, AllStopped, Untouched, SomeActivated;
  }

  /** Promises of dispatchers only settle, and none is activated. */
  predicate DispatchersAdvance(ds: seq<DispatcherState>, es: seq<DispatcherState>) {
    && |es| == |ds|
    && forall i :: 0 <= i < |ds| ==>
         && es[i].activated == ds[i].activated
         && (!ds[i].prepare.PENDING? ==> es[i].prepare == ds[i].prepare)
         && (ds[i].stop.RESOLVED? ==> es[i].stop.RESOLVED?)
  }

  lemma AdvanceKeeps(ds: seq<DispatcherState>, es: seq<DispatcherState>)
    requires DispatchersAdvance(ds, es)
    ensures AllPrepared(ds) ==> AllPrepared(es)
    ensures SomePrepareFailed(ds) ==> SomePrepareFailed(es)
    ensures AllStopped(ds) ==> AllStopped(es)
    ensures Untouched(ds) ==> Untouched(es)
    ensures SomeActivated(es) ==> SomeActivated(ds)
    ensures ds == [] ==> es == []
  {
    if SomePrepareFailed(ds) {
      var i :| 0 <= i < |ds| && ds[i].prepare.REJECTED?;
      assert es[i].prepare.REJECTED?;
    }
  }

  lemma DispatchersAdvanceOk(w: Worker, es: seq<DispatcherState>)
    requires Inv(w) && DispatchersAdvance(w.app.dispatchers, es)
    ensures Inv(WithDispatchers(w, es))
  {
    hide MovedOk, AllPrepared, SomePrepareFailed, AllStopped, Untouched, SomeActivated, DispatchersAdvance;
    AdvanceKeeps(w.app.dispatchers, es);
  }

  lemma HostShutDownOk(w: Worker)
    requires Inv(w) && w.host.start.RESOLVED?
    ensures Inv(HostShutDown(w)) && HostShutDown(w).draining && HostShutDown(w).app == w.app
    ensures HostShutDown(w).host.start.RESOLVED?
  {
    hide MovedOk, HostShutdown, AllPrepared, SomePrepareFailed, AllStopped, Untouched, SomeActivated;
    HostShutdownOk(w.host, w.chain, w.readyAllowed);
    AbortedMeans(w.host, w.chain, w.readyAllowed);
  }

  lemma AbortedMeans(h: Host, c: Chain, readyAllowed: bool)
    requires MovedOk(h, c, readyAllowed)
    ensures h.aborted <==> !h.stop.HOST_RUNS?
  {
  }

  lemma StopsCalledOk(w: Worker)
    requires Inv(w)
    ensures Inv(StopsCalled(w)) && StopsCalled(w) == WithDispatchers(w, StopsCalled(w).app.dispatchers)
  {
    hide MovedOk, AllPrepared, SomePrepareFailed, AllStopped, Untouched, SomeActivated;
    DispatchersAdvanceOk(w, StopsCalled(w).app.dispatchers);
  }

  lemma StopFromHostOk(w: Worker)
    requires Inv(w) && w.draining && !w.app.disconnected && PrepareDecided(w.app)
    requires w.app.dispatcherPrepared ==> AllStopped(w.app.dispatchers)
    requires !w.host.start.PENDING? && (w.host.start.RESOLVED? ==> w.app.hostStarted)
    ensures Inv(StopFromHost(w))
  {
    hide MovedOk, AllPrepared, SomePrepareFailed, AllStopped, Untouched, SomeActivated, HostShutDown;
    if w.app.hostStarted {
      HostShutDownOk(w);
      AtStopOk(HostShutDown(w), STOP_AWAITS_HOST);
    } else {
      AtStopOk(w, STOP_AWAITS_PREFLIGHT);
    }
  }

  lemma StopFromHostStartOk(w: Worker)
    requires Inv(w) && w.draining && !w.app.disconnected && PrepareDecided(w.app)
    requires w.app.dispatcherPrepared ==> AllStopped(w.app.dispatchers)
    ensures Inv(StopFromHostStart(w))
  {
    hide MovedOk, AllPrepared, SomePrepareFailed, AllStopped, Untouched, SomeActivated, StopFromHost;
    if w.host.start.NOT_STARTED? { StopFromHostOk(w); } else { AtStopOk(w, STOP_AWAITS_HOST_START); }
  }

  lemma StopFromDispatchersOk(w: Worker)
    requires Inv(w) && w.draining && !w.app.disconnected && PrepareDecided(w.app)
    ensures Inv(StopFromDispatchers(w))
  {
    hide MovedOk, AllPrepared, SomePrepareFailed, AllStopped, Untouched, SomeActivated, StopFromHostStart, StopsCalled;
    if w.app.dispatcherPrepared {
      StopsCalledOk(w);
      AtStopOk(StopsCalled(w), STOP_AWAITS_DISPATCHERS);
    } else {
      StopFromHostStartOk(w);
    }
  }

  lemma DrainOk(w: Worker)
    requires Inv(w)
    ensures Inv(w.(draining := true))
  {
    hide MovedOk, AllPrepared, SomePrepareFailed, AllStopped, Untouched, SomeActivated;
  }

  lemma ShutdownOk(w: Worker)
    requires Inv(w)
    ensures Inv(Shutdown(w))
  {
    hide MovedOk, AllPrepared, SomePrepareFailed, AllStopped, Untouched, SomeActivated, StopFromDispatchers;
    var v := w.(draining := true);
    DrainOk(w);
    if v.app.stop.STOP_IDLE? {
      if v.app.prepareStarted { AtStopOk(v, STOP_AWAITS_PREPARE); } else { StopFromDispatchersOk(v); }
    }
  }

  lemma WithPreparedOk(w: Worker)
    requires Inv(w) && AllPrepared(w.app.dispatchers) && w.app.prepareStarted
    requires !PastDispatchers(w.app.stop) || w.app.dispatcherPrepared
    ensures Inv(WithPrepared(w))
  {
    hide MovedOk, AllPrepared, SomePrepareFailed, AllStopped, Untouched, SomeActivated;
  }

  lemma ShutdownMovesOk(w: Worker)
    requires Inv(w)
    ensures Inv(ShutdownMoves(w))
  {
    hide MovedOk, AllPrepared, SomePrepareFailed, AllStopped, SomeStopFailed, Untouched, SomeActivated;
    hide StopFromDispatchers, StopFromHostStart, StopFromHost;
    match w.app.stop
    case STOP_AWAITS_PREPARE =>
      if AllPrepared(w.app.dispatchers) {
        WithPreparedOk(w);
        StopFromDispatchersOk(WithPrepared(w));
      } else if SomePrepareFailed(w.app.dispatchers) {
        StopFromDispatchersOk(w);
      }
    case STOP_AWAITS_DISPATCHERS =>
      if AllStopped(w.app.dispatchers) {
        StopFromHostStartOk(w);
      } else if SomeStopFailed(w.app.dispatchers) {
        AtStopOk(w, STOP_FAILED);
      }
    case STOP_AWAITS_HOST_START =>
      if w.host.start.RESOLVED? {
        HostStartedOk(w);
        StopFromHostOk(WithHostStarted(w));
      } else if w.host.start.REJECTED? {
        StopFromHostOk(w);
      }
    case STOP_AWAITS_HOST =>
      if w.host.stop.HOST_STOPPED? { AtStopOk(w, STOP_AWAITS_PREFLIGHT); }
    case STOP_AWAITS_PREFLIGHT =>
      if !w.app.preflight.PENDING? { AtStopOk(w, STOP_AWAITS_SERVER); }
    case _ =>
  }

  lemma HostStartedOk(w: Worker)
    requires Inv(w) && w.host.start.RESOLVED?
    ensures Inv(WithHostStarted(w))
  {
    hide MovedOk, AllPrepared, SomePrepareFailed, AllStopped, Untouched, SomeActivated;
  }

  // ----- the start ---------------------------------------------------------------------------------------------

  lemma StartFailedOk(w: Worker)
    requires Inv(w)
    ensures Inv(StartFailed(w))
  {
    hide MovedOk, AllPrepared, SomePrepareFailed, AllStopped, Untouched, SomeActivated, Shutdown;
    AtStartOk(w, AWAITS_FAILURE_SHUTDOWN);
    ShutdownOk(AtStart(w, AWAITS_FAILURE_SHUTDOWN));
  }

  lemma StartLeavesOk(w: Worker)
    requires Inv(w) && w.draining && w.host.start.RESOLVED?
    ensures Inv(StartLeaves(w))
  {
    hide MovedOk, AllPrepared, SomePrepareFailed, AllStopped, Untouched, SomeActivated, HostShutDown;
    AtStartOk(w, AWAITS_HOST_DOWN);
    HostShutDownOk(AtStart(w, AWAITS_HOST_DOWN));
  }

  lemma GateOpens(h: Host, c: Chain, readyAllowed: bool)
    requires MovedOk(h, c, readyAllowed) && h.ready.READY_IDLE? && h.start.RESOLVED?
    ensures MovedOk(h.(ready := READY_AWAITS_START), c, true)
  {
    hide WritesOk;
    assert MovedOk(h, c, true);
    StillMovedOk(h, c, true, h.(ready := READY_AWAITS_START));
  }

  lemma StartGetsReadyOk(w: Worker)
    requires Inv(w) && w.host.start.RESOLVED? && w.app.preflight.RESOLVED? && w.host.ready.READY_IDLE?
    requires AllPrepared(w.app.dispatchers) && (w.app.dispatchers == [] || w.app.dispatcherPrepared)
    ensures Inv(StartGetsReady(w))
  {
    hide MovedOk, AllPrepared, SomePrepareFailed, AllStopped, Untouched, SomeActivated;
    GateOpens(w.host, w.chain, w.readyAllowed);
  }

  lemma AfterHostStartOk(w: Worker)
    requires Inv(w) && w.app.start.AWAITS_HOST?
    ensures Inv(AfterHostStart(w))
  {
    hide MovedOk, AllPrepared, SomePrepareFailed, AllStopped, Untouched, SomeActivated, StartFailed, StartLeaves;
    if w.host.start.REJECTED? {
      StartFailedOk(w);
    } else if w.host.start.RESOLVED? {
      HostStartedOk(w);
      if w.draining { StartLeavesOk(WithHostStarted(w)); } else { PreflightBegins(WithHostStarted(w)); }
    }
  }

  lemma PreflightBegins(w: Worker)
    requires Inv(w) && w.app.start.AWAITS_HOST? && w.host.start.RESOLVED?
    requires !w.draining
    ensures Inv(AtStart(w.(app := w.app.(preflight := PENDING)), AWAITS_PREFLIGHT))
  {
    hide MovedOk, AllPrepared, SomePrepareFailed, AllStopped, Untouched, SomeActivated;
  }

  lemma PreparesBegin(w: Worker)
    requires Inv(w) && w.app.start.AWAITS_PREFLIGHT? && w.app.preflight.RESOLVED? && !w.draining
    ensures Inv(AtStart(w.(app := w.app.(dispatchers := PreparesCalled(w.app.dispatchers, None), prepareStarted := true)),
                        AWAITS_PREPARE))
  {
    hide MovedOk, AllPrepared, SomePrepareFailed, AllStopped, Untouched, SomeActivated, PreparesCalled;
    CallingPrepares(w.app.dispatchers, None);
  }

  lemma CallingPrepares(ds: seq<DispatcherState>, throwsAt: Option<nat>)
    ensures SomeActivated(PreparesCalled(ds, throwsAt)) ==> SomeActivated(ds)
    ensures throwsAt.Some? && throwsAt.value < |ds| ==> SomePrepareFailed(PreparesCalled(ds, throwsAt))
  {
    if throwsAt.Some? && throwsAt.value < |ds| { assert PreparesCalled(ds, throwsAt)[throwsAt.value].prepare.REJECTED?; }
  }

  lemma ThrownOk(w: Worker, throwsAt: Option<nat>)
    requires Inv(w) && w.app.start.AWAITS_PREFLIGHT? && !w.draining
    requires throwsAt.Some? && throwsAt.value < |w.app.dispatchers|
    ensures Inv(AtStart(w.(app := w.app.(dispatchers := PreparesCalled(w.app.dispatchers, throwsAt))), AWAITS_FAILURE_SHUTDOWN))
  {
    hide MovedOk, AllPrepared, SomePrepareFailed, AllStopped, Untouched, SomeActivated, PreparesCalled;
    CallingPrepares(w.app.dispatchers, throwsAt);
  }

  lemma PrepareThrowsOk(w: Worker, throwsAt: Option<nat>)
    requires Inv(w) && w.app.start.AWAITS_PREFLIGHT? && !w.draining
    requires throwsAt.Some? && throwsAt.value < |w.app.dispatchers|
    ensures Inv(StartFailed(w.(app := w.app.(dispatchers := PreparesCalled(w.app.dispatchers, throwsAt)))))
  {
    hide Inv, PreparesCalled, Shutdown;
    ThrownOk(w, throwsAt);
    ShutdownOk(AtStart(w.(app := w.app.(dispatchers := PreparesCalled(w.app.dispatchers, throwsAt))), AWAITS_FAILURE_SHUTDOWN));
  }

  lemma AfterPreflightOk(w: Worker, throwsAt: Option<nat>)
    requires Inv(w) && w.app.start.AWAITS_PREFLIGHT?
    ensures Inv(AfterPreflight(w, throwsAt))
  {
    hide MovedOk, AllPrepared, SomePrepareFailed, AllStopped, Untouched, SomeActivated, StartFailed, StartLeaves;
    hide StartGetsReady, PreparesCalled;
    if w.app.preflight.REJECTED? {
      StartFailedOk(w);
    } else if w.app.preflight.RESOLVED? {
      if w.draining {
        StartLeavesOk(w);
      } else if w.app.dispatchers == [] {
        NobodyToPrepare(w.app.dispatchers);
        StartGetsReadyOk(w);
      } else if throwsAt.Some? && throwsAt.value < |w.app.dispatchers| {
        PrepareThrowsOk(w, throwsAt);
      } else {
        PreparesBegin(w);
      }
    }
  }

  lemma NobodyToPrepare(ds: seq<DispatcherState>)
    requires ds == []
    ensures AllPrepared(ds) && !SomeActivated(ds)
  {
  }

  lemma FailedIsNotPrepared(ds: seq<DispatcherState>)
    ensures !(AllPrepared(ds) && SomePrepareFailed(ds))
  {
  }

  lemma AfterPrepareOk(w: Worker)
    requires Inv(w) && w.app.start.AWAITS_PREPARE?
    ensures Inv(AfterPrepare(w))
  {
    hide MovedOk, AllPrepared, SomePrepareFailed, AllStopped, Untouched, SomeActivated, StartFailed, StopsCalled, StartGetsReady;
    FailedIsNotPrepared(w.app.dispatchers);
    if SomePrepareFailed(w.app.dispatchers) {
      StartFailedOk(w);
    } else if AllPrepared(w.app.dispatchers) {
      var v := WithPrepared(w);
      WithPreparedOk(w);
      if w.draining {
        StopsCalledOk(v);
        AtStartOk(StopsCalled(v), AWAITS_DRAIN_STOPS);
      } else {
        StartGetsReadyOk(v);
      }
    }
  }

  lemma ActivationOk(w: Worker)
    requires Inv(w) && w.app.start.AWAITS_READY? && !w.draining
    ensures Inv(AtStart(w.(app := w.app.(dispatchers := AllActivated(w.app.dispatchers))), START_OVER))
  {
    hide MovedOk, AllPrepared, SomePrepareFailed, AllStopped, Untouched, SomeActivated, AllActivated;
    Activating(w.app.dispatchers);
  }

  lemma Activating(ds: seq<DispatcherState>)
    ensures AllPrepared(ds) ==> AllPrepared(AllActivated(ds))
    ensures SomePrepareFailed(ds) ==> SomePrepareFailed(AllActivated(ds))
    ensures Untouched(ds) ==> Untouched(AllActivated(ds))
    ensures ds == [] ==> !SomeActivated(AllActivated(ds))
  {
    if SomePrepareFailed(ds) {
      var i :| 0 <= i < |ds| && ds[i].prepare.REJECTED?;
      assert AllActivated(ds)[i].prepare.REJECTED?;
    }
  }

  lemma AfterReadyOk(w: Worker)
    requires Inv(w) && w.app.start.AWAITS_READY?
    ensures Inv(AfterReady(w))
  {
    hide MovedOk, AllPrepared, SomePrepareFailed, AllStopped, Untouched, SomeActivated, StartFailed, StopsCalled, StartLeaves;
    hide AllActivated;
    if w.host.ready.READY_FAILED? {
      StartFailedOk(w);
    } else if w.host.ready.READY_DONE? {
      if !w.draining {
        ActivationOk(w);
      } else if w.app.dispatcherPrepared {
        StopsCalledOk(w);
        AtStartOk(StopsCalled(w), AWAITS_DRAIN_STOPS);
      } else {
        StartLeavesOk(w);
      }
    }
  }

  lemma StartMovesOk(w: Worker, throwsAt: Option<nat>)
    requires Inv(w)
    ensures Inv(StartMoves(w, throwsAt))
  {
    hide MovedOk, AllPrepared, SomePrepareFailed, AllStopped, SomeStopFailed, Untouched, SomeActivated, StartFailed, StartLeaves;
    hide AfterHostStart, AfterPreflight, AfterPrepare, AfterReady;
    match w.app.start
    case AWAITS_HOST => AfterHostStartOk(w);
    case AWAITS_PREFLIGHT => AfterPreflightOk(w, throwsAt);
    case AWAITS_PREPARE => AfterPrepareOk(w);
    case AWAITS_READY => AfterReadyOk(w);
    case AWAITS_DRAIN_STOPS =>
      if SomeStopFailed(w.app.dispatchers) {
        StartFailedOk(w);
      } else if AllStopped(w.app.dispatchers) {
        StartLeavesOk(w);
      }
    case AWAITS_HOST_DOWN => if w.host.stop.HOST_STOPPED? { AtStartOk(w, START_OVER); }
    case AWAITS_FAILURE_SHUTDOWN => if w.app.stop.STOP_OVER? || w.app.stop.STOP_FAILED? { AtStartOk(w, START_OVER); }
    case _ =>
  }

  lemma HostStartBegins(h: Host, c: Chain, readyAllowed: bool)
    requires MovedOk(h, c, readyAllowed) && h.start.NOT_STARTED?
    ensures MovedOk(h.(start := PENDING), Persist(c, HOST_START, STARTING), readyAllowed)
    ensures !h.aborted
  {
    hide WritesOk, AttemptedOk;
    PersistOk(h, c, readyAllowed, h.(start := PENDING), HOST_START, STARTING);
  }

  lemma ServerUpOk(w: Worker, ok: bool)
    requires Inv(w)
    ensures Inv(ServerUp(w, ok))
  {
    hide MovedOk, AllPrepared, SomePrepareFailed, AllStopped, Untouched, SomeActivated, Persist;
    if w.app.start.AWAITS_SERVER? {
      if !ok || w.draining { AtStartOk(w, START_OVER); } else { HostStartBegins(w.host, w.chain, w.readyAllowed); }
    }
  }

  lemma PreflightEndsOk(w: Worker, ok: bool)
    requires Inv(w) && w.app.preflight.PENDING?
    ensures Inv(w.(app := w.app.(preflight := Outcome(ok))))
  {
    hide MovedOk, AllPrepared, SomePrepareFailed, AllStopped, Untouched, SomeActivated;
  }

  lemma ChainOk(w: Worker, c: Chain)
    requires Inv(w) && MovedOk(w.host, c, w.readyAllowed)
    ensures Inv(w.(chain := c))
  {
    hide MovedOk, AllPrepared, SomePrepareFailed, AllStopped, Untouched, SomeActivated;
  }

  lemma NextOk(w: Worker, event: Event)
    requires Inv(w)
    ensures Inv(Next(w, event))
  {
    hide MovedOk, StartOk, DispatchersOk, StopOk, Shutdown, ServerUp, TakeWrite, SettleWrite, HostStartMoves, StartMoves;
    hide ReadyMoves, HostStopMoves, Tick, BeatMoves, ShutdownMoves, HostAdvances;
    var h, c, r := w.host, w.chain, w.readyAllowed;
    match event
    case StartCalled => if w.app.start.START_IDLE? { ServerAwaited(w); }
    case ShutdownCalled => ShutdownOk(w);
    case ServerStarted(ok) => ServerUpOk(w, ok);
    case StoreTakesWrite => TakeWriteOk(h, c, r); ChainOk(w, TakeWrite(c, r));
    case StoreSettles(ok) => SettleWriteOk(h, c, r, ok); ChainOk(w, SettleWrite(c, ok));
    case HostStartContinues => HostStartOk(h, c, r); HostMovesOk(w, HostStartMoves(h, c));
    case StartContinues(throwsAt) => StartMovesOk(w, throwsAt);
    case PreflightSettles(ok) => if w.app.preflight.PENDING? { PreflightEndsOk(w, ok); }
    case PrepareSettles(i, ok) => DispatchersAdvanceOk(w, PrepareEnds(w.app.dispatchers, i, ok));
    case StopSettles(i, ok) => DispatchersAdvanceOk(w, StopEnds(w.app.dispatchers, i, ok));
    case MarkReadyContinues => ReadyOk(h, c, r); HostMovesOk(w, ReadyMoves(h, c));
    case HostStopContinues => HostStopOk(h, c, r); HostMovesOk(w, HostStopMoves(h, c));
    case TimerFires => TickOk(h, c, r); HostMovesOk(w, Moved(Tick(h), c));
    case BeatContinues(ok) => BeatOk(h, c, r, ok); HostMovesOk(w, BeatMoves(h, c, ok));
    case ShutdownContinues => ShutdownMovesOk(w);
  }

  lemma ServerAwaited(w: Worker)
    requires Inv(w) && w.app.start.START_IDLE?
    ensures Inv(AtStart(w, AWAITS_SERVER))
  {
    hide MovedOk, AllPrepared, SomePrepareFailed, AllStopped, Untouched, SomeActivated;
    AtStartOk(w, AWAITS_SERVER);
  }

  lemma {:induction false} AlwaysOk(dispatchers: nat, events: seq<Event>)
    ensures Inv(After(dispatchers, events))
    decreases |events|
  {
    hide Inv, Next;
    if events == [] {
      InitialOk(dispatchers);
    } else {
      AlwaysOk(dispatchers, events[..|events| - 1]);
      NextOk(After(dispatchers, events[..|events| - 1]), events[|events| - 1]);
    }
  }

  // ----- the theorems ------------------------------------------------------------------------------------------------

  /** READY does not reach the store before the gate is opened, and the gate opens only once the host is up, the
      preflight has passed and every dispatcher is prepared. */
  lemma ReadyWaitsForStartup(dispatchers: nat, events: seq<Event>)
    ensures var w := After(dispatchers, events);
            READY in w.chain.attempted ==>
              w.readyAllowed && w.host.start.RESOLVED? && w.app.preflight.RESOLVED? && AllPrepared(w.app.dispatchers)
  {
    AlwaysOk(dispatchers, events);
  }

  predicate SameActivations(ds: seq<DispatcherState>, es: seq<DispatcherState>) {
    |es| == |ds| && forall i :: 0 <= i < |ds| ==> es[i].activated == ds[i].activated
  }

  lemma ChangesActivateNobody(w: Worker, throwsAt: Option<nat>, i: nat, ok: bool)
    ensures var ds := w.app.dispatchers;
            && SameActivations(ds, ds) && SameActivations(ds, StopsCalled(w).app.dispatchers)
            && SameActivations(ds, PreparesCalled(ds, throwsAt))
            && SameActivations(ds, PrepareEnds(ds, i, ok)) && SameActivations(ds, StopEnds(ds, i, ok))
  {
  }

  /** A step of the application that writes nothing, activates nobody, and takes nothing back. */
  predicate Quiet(w: Worker, v: Worker) {
    && v.chain == w.chain
    && (w.draining ==> v.draining)
    && (w.app.disconnected ==> v.app.disconnected)
    && SameActivations(w.app.dispatchers, v.app.dispatchers)
  }

  lemma QuietTwice(u: Worker, v: Worker, w: Worker)
    requires Quiet(u, v) && Quiet(v, w)
    ensures Quiet(u, w)
  {
    SameTwice(u.app.dispatchers, v.app.dispatchers, w.app.dispatchers);
  }

  lemma SmallStepsAreQuiet(w: Worker, start: StartStage, stop: StopStage)
    ensures Quiet(w, w) && Quiet(w, AtStart(w, start)) && Quiet(w, AtStop(w, stop)) && Quiet(w, HostShutDown(w))
    ensures Quiet(w, StopsCalled(w)) && Quiet(w, WithPrepared(w)) && Quiet(w, WithHostStarted(w))
    ensures Quiet(w, w.(draining := true))
  {
    ChangesActivateNobody(w, None, 0, true);
  }

  lemma StopFromHostIsQuiet(w: Worker)
    ensures Quiet(w, StopFromHost(w)) && Quiet(w, StopFromHostStart(w))
  {
    hide Quiet, HostShutDown, AtStop;
    SmallStepsAreQuiet(w, START_IDLE, STOP_AWAITS_PREFLIGHT);
    SmallStepsAreQuiet(w, START_IDLE, STOP_AWAITS_HOST_START);
    SmallStepsAreQuiet(HostShutDown(w), START_IDLE, STOP_AWAITS_HOST);
    QuietTwice(w, HostShutDown(w), AtStop(HostShutDown(w), STOP_AWAITS_HOST));
  }

  lemma StopFromDispatchersIsQuiet(w: Worker)
    ensures Quiet(w, StopFromDispatchers(w))
  {
    hide Quiet, StopFromHostStart, StopsCalled, AtStop;
    StopFromHostIsQuiet(w);
    SmallStepsAreQuiet(w, START_IDLE, STOP_IDLE);
    SmallStepsAreQuiet(StopsCalled(w), START_IDLE, STOP_AWAITS_DISPATCHERS);
    QuietTwice(w, StopsCalled(w), AtStop(StopsCalled(w), STOP_AWAITS_DISPATCHERS));
  }

  lemma ShutdownIsQuiet(w: Worker)
    ensures Quiet(w, Shutdown(w)) && Shutdown(w).draining
  {
    hide Quiet, StopFromDispatchers;
    var v := w.(draining := true);
    SmallStepsAreQuiet(w, START_IDLE, STOP_IDLE);
    SmallStepsAreQuiet(v, START_IDLE, STOP_AWAITS_PREPARE);
    StopFromDispatchersIsQuiet(v);
    QuietTwice(w, v, AtStop(v, STOP_AWAITS_PREPARE));
    QuietTwice(w, v, StopFromDispatchers(v));
    QuietKeepsDraining(v, StopFromDispatchers(v));
  }

  lemma QuietKeepsDraining(w: Worker, v: Worker)
    requires Quiet(w, v) && w.draining
    ensures v.draining
  {
  }

  lemma ShutdownMovesIsQuiet(w: Worker)
    ensures Quiet(w, ShutdownMoves(w))
  {
    hide Quiet, StopFromDispatchers, StopFromHostStart, StopFromHost, AtStop, WithPrepared, WithHostStarted;
    hide AllPrepared, SomePrepareFailed, AllStopped, SomeStopFailed;
    SmallStepsAreQuiet(w, START_IDLE, STOP_FAILED);
    match w.app.stop
    case STOP_AWAITS_PREPARE =>
      StopFromDispatchersIsQuiet(w);
      StopFromDispatchersIsQuiet(WithPrepared(w));
      QuietTwice(w, WithPrepared(w), StopFromDispatchers(WithPrepared(w)));
    case STOP_AWAITS_DISPATCHERS => StopFromHostIsQuiet(w);
    case STOP_AWAITS_HOST_START =>
      StopFromHostIsQuiet(w);
      StopFromHostIsQuiet(WithHostStarted(w));
      QuietTwice(w, WithHostStarted(w), StopFromHost(WithHostStarted(w)));
    case STOP_AWAITS_HOST => SmallStepsAreQuiet(w, START_IDLE, STOP_AWAITS_PREFLIGHT);
    case STOP_AWAITS_PREFLIGHT => SmallStepsAreQuiet(w, START_IDLE, STOP_AWAITS_SERVER);
    case STOP_AWAITS_SERVER => DisconnectingIsQuiet(w);
    case _ =>
  }

  lemma DisconnectingIsQuiet(w: Worker)
    ensures Quiet(w, w.(app := w.app.(stop := STOP_OVER, disconnected := true)))
  {
  }

  lemma StartFailedIsQuiet(w: Worker)
    ensures Quiet(w, StartFailed(w)) && Quiet(w, StartLeaves(w))
  {
    hide Quiet, Shutdown, HostShutDown, AtStart;
    SmallStepsAreQuiet(w, AWAITS_FAILURE_SHUTDOWN, STOP_IDLE);
    SmallStepsAreQuiet(w, AWAITS_HOST_DOWN, STOP_IDLE);
    var failed, leaving := AtStart(w, AWAITS_FAILURE_SHUTDOWN), AtStart(w, AWAITS_HOST_DOWN);
    ShutdownIsQuiet(failed);
    SmallStepsAreQuiet(leaving, START_IDLE, STOP_IDLE);
    QuietTwice(w, failed, Shutdown(failed));
    QuietTwice(w, leaving, HostShutDown(leaving));
  }

  lemma CallingPreparesIsQuiet(w: Worker, throwsAt: Option<nat>)
    ensures var called := w.(app := w.app.(dispatchers := PreparesCalled(w.app.dispatchers, throwsAt)));
            Quiet(w, called) && Quiet(w, StartFailed(called))
            && Quiet(w, AtStart(called.(app := called.app.(prepareStarted := true)), AWAITS_PREPARE))
  {
    hide StartFailed, PreparesCalled, SameActivations;
    var called := w.(app := w.app.(dispatchers := PreparesCalled(w.app.dispatchers, throwsAt)));
    ChangesActivateNobody(w, throwsAt, 0, true);
    StartFailedIsQuiet(called);
    QuietTwice(w, called, StartFailed(called));
  }

  lemma GettingReadyIsQuiet(w: Worker)
    ensures Quiet(w, StartGetsReady(w)) && Quiet(w, StartGetsReady(WithPrepared(w)))
    ensures Quiet(w, AtStart(StopsCalled(WithPrepared(w)), AWAITS_DRAIN_STOPS)) && Quiet(w, AtStart(StopsCalled(w), AWAITS_DRAIN_STOPS))
    ensures Quiet(w, AtStart(w.(app := w.app.(hostStarted := true, preflight := PENDING)), AWAITS_PREFLIGHT))
  {
    hide SameActivations;
    ChangesActivateNobody(w, None, 0, true);
    ChangesActivateNobody(WithPrepared(w), None, 0, true);
  }

  lemma LeavingIsQuiet(w: Worker)
    ensures Quiet(w, StartLeaves(WithHostStarted(w)))
  {
    hide Quiet, StartLeaves, WithHostStarted;
    SmallStepsAreQuiet(w, START_IDLE, STOP_IDLE);
    StartFailedIsQuiet(WithHostStarted(w));
    QuietTwice(w, WithHostStarted(w), StartLeaves(WithHostStarted(w)));
  }

  lemma StartIsQuiet(w: Worker, throwsAt: Option<nat>)
    requires w.draining || !w.app.start.AWAITS_READY?
    ensures Quiet(w, StartMoves(w, throwsAt))
  {
    hide Quiet, StartFailed, StartLeaves, PreparesCalled, StartGetsReady, StopsCalled, WithPrepared;
    hide AllPrepared, SomePrepareFailed, AllStopped, SomeStopFailed;
    SmallStepsAreQuiet(w, START_OVER, STOP_IDLE);
    StartFailedIsQuiet(w);
    GettingReadyIsQuiet(w);
    match w.app.start
    case AWAITS_HOST => LeavingIsQuiet(w);
    case AWAITS_PREFLIGHT => CallingPreparesIsQuiet(w, throwsAt); CallingPreparesIsQuiet(w, None);
    case _ =>
  }

  lemma SameTwice(a: seq<DispatcherState>, b: seq<DispatcherState>, c: seq<DispatcherState>)
    ensures SameActivations(a, b) && SameActivations(b, c) ==> SameActivations(a, c)
  {
  }

  lemma DispatcherPromisesAreQuiet(w: Worker, i: nat, ok: bool)
    ensures Quiet(w, WithDispatchers(w, PrepareEnds(w.app.dispatchers, i, ok)))
    ensures Quiet(w, WithDispatchers(w, StopEnds(w.app.dispatchers, i, ok)))
  {
    ChangesActivateNobody(w, None, i, ok);
  }

  /** Once the worker is draining it stays so, and no step activates a dispatcher. */
  lemma NoActivationWhileDraining(w: Worker, event: Event)
    requires w.draining
    ensures Next(w, event).draining && SameActivations(w.app.dispatchers, Next(w, event).app.dispatchers)
  {
    hide StartMoves, ShutdownMoves, Shutdown, PrepareEnds, StopEnds, TakeWrite, SettleWrite;
    hide HostStartMoves, ReadyMoves, HostStopMoves, BeatMoves, Tick;
    match event
    case ShutdownCalled => ShutdownIsQuiet(w);
    case StartContinues(throwsAt) => StartIsQuiet(w, throwsAt);
    case ShutdownContinues => ShutdownMovesIsQuiet(w);
    case PrepareSettles(i, ok) => DispatcherPromisesAreQuiet(w, i, ok);
    case StopSettles(i, ok) => DispatcherPromisesAreQuiet(w, i, ok);
    case _ =>
  }

  /** When the timer fires no beat is under way, and there is never more than one write of a beat. */
  lemma BeatsNeverOverlap(dispatchers: nat, events: seq<Event>)
    ensures var w := After(dispatchers, events);
            && (w.host.timer ==> w.host.beat.NO_BEAT?)
            && (forall i, j :: 0 <= i < j < |w.chain.writes| ==>
                  !(w.chain.writes[i].owner in {BEAT, RECOVERY} && w.chain.writes[j].owner in {BEAT, RECOVERY}))
  {
    AlwaysOk(dispatchers, events);
    OneBeatWrite(After(dispatchers, events).host, After(dispatchers, events).chain);
  }

  lemma OneBeatWrite(h: Host, c: Chain)
    requires WritesOk(h, c)
    ensures forall i, j :: 0 <= i < j < |c.writes| ==>
              !(c.writes[i].owner in {BEAT, RECOVERY} && c.writes[j].owner in {BEAT, RECOVERY})
  {
  }

  /** STOPPING is the last status the store is ever asked for, and a host that has shut down has asked for it. */
  lemma StoppingIsLast(dispatchers: nat, events: seq<Event>)
    ensures var w := After(dispatchers, events); var attempted := w.chain.attempted;
            && (forall i :: 0 <= i < |attempted| && attempted[i].STOPPING? ==> i == |attempted| - 1)
            && (w.host.stop.HOST_STOPPED? ==> attempted != [] && attempted[|attempted| - 1].STOPPING?)
  {
    hide *;
    AlwaysOk(dispatchers, events);
    LastAttempt(After(dispatchers, events));
  }

  lemma LastAttempt(w: Worker)
    requires Inv(w)
    ensures forall i :: 0 <= i < |w.chain.attempted| && w.chain.attempted[i].STOPPING? ==> i == |w.chain.attempted| - 1
    ensures w.host.stop.HOST_STOPPED? ==> w.chain.attempted != [] && w.chain.attempted[|w.chain.attempted| - 1].STOPPING?
  {
    hide StartOk, DispatchersOk, StopOk, HostOk, WritesOk;
  }

  /** The database is disconnected only after every dispatcher that was activated has stopped; after every one that
      was prepared has stopped, if no preparation failed; and after the host has, if it was started. */
  lemma DisconnectIsLast(dispatchers: nat, events: seq<Event>)
    ensures var w := After(dispatchers, events);
            w.app.disconnected ==>
              && w.draining && w.app.stop.STOP_OVER?
              && (SomeActivated(w.app.dispatchers) ==> AllStopped(w.app.dispatchers))
              && (SomePrepareFailed(w.app.dispatchers) || Untouched(w.app.dispatchers) || AllStopped(w.app.dispatchers))
              && (w.host.start.RESOLVED? ==> w.host.stop.HOST_STOPPED?)
              && w.chain.writes == []
  {
    AlwaysOk(dispatchers, events);
    var w := After(dispatchers, events);
    if w.app.disconnected { NothingLeftToWrite(w.host, w.chain, w.readyAllowed); }
  }

  lemma NothingLeftToWrite(h: Host, c: Chain, readyAllowed: bool)
    requires MovedOk(h, c, readyAllowed) && !h.start.PENDING? && (h.start.RESOLVED? ==> h.stop.HOST_STOPPED?)
    ensures c.writes == []
  {
    if !h.start.RESOLVED? && c.writes != [] { NotWaiting(h, c, c.writes[0].owner); }
  }

  predicate NobodyAskedToStop(ds: seq<DispatcherState>) { forall i :: 0 <= i < |ds| ==> ds[i].stop.NOT_STARTED? }

  /** Dispatchers are asked to stop only after all of them were prepared. */
  predicate StopsFollowPrepares(app: App) { app.dispatcherPrepared || NobodyAskedToStop(app.dispatchers) }

  lemma StepStopsOnlyPrepared(w: Worker, event: Event)
    requires StopsFollowPrepares(w.app)
    ensures StopsFollowPrepares(Next(w, event).app)
  {
    hide AllPrepared, SomePrepareFailed, AllStopped, SomeStopFailed, TakeWrite, SettleWrite;
    hide HostStartMoves, ReadyMoves, HostStopMoves, BeatMoves, Tick, HostShutdown, Persist;
    match event
    case ShutdownCalled => ShutdownStopsOnlyPrepared(w);
    case StartContinues(throwsAt) => StartStopsOnlyPrepared(w, throwsAt);
    case ShutdownContinues => ShutdownMovesStopsOnlyPrepared(w);
    case _ =>
  }

  lemma ShutdownStopsOnlyPrepared(w: Worker)
    requires StopsFollowPrepares(w.app)
    ensures StopsFollowPrepares(Shutdown(w).app) && StopsFollowPrepares(StopFromDispatchers(w).app)
  {
    hide HostShutdown;
  }

  lemma HostStepsStopNobody(w: Worker)
    requires StopsFollowPrepares(w.app)
    ensures StopsFollowPrepares(StopFromHost(w).app) && StopsFollowPrepares(StopFromHostStart(w).app)
    ensures StopsFollowPrepares(StopFromHost(WithHostStarted(w)).app)
  {
    hide HostShutdown;
  }

  lemma ShutdownMovesStopsOnlyPrepared(w: Worker)
    requires StopsFollowPrepares(w.app)
    ensures StopsFollowPrepares(ShutdownMoves(w).app)
  {
    hide StopFromDispatchers, StopFromHostStart, StopFromHost, AllPrepared, SomePrepareFailed, AllStopped, SomeStopFailed;
    HostStepsStopNobody(w);
    ShutdownStopsOnlyPrepared(w);
    ShutdownStopsOnlyPrepared(WithPrepared(w));
  }

  lemma EndsStopOnlyPrepared(w: Worker)
    requires StopsFollowPrepares(w.app)
    ensures StopsFollowPrepares(StartFailed(w).app) && StopsFollowPrepares(StartLeaves(w).app)
    ensures StopsFollowPrepares(StartLeaves(WithHostStarted(w)).app)
  {
    hide HostShutdown, Shutdown;
    ShutdownStopsOnlyPrepared(AtStart(w, AWAITS_FAILURE_SHUTDOWN));
  }

  lemma PreparesStopNobody(w: Worker, throwsAt: Option<nat>)
    requires StopsFollowPrepares(w.app)
    ensures StopsFollowPrepares(w.app.(dispatchers := PreparesCalled(w.app.dispatchers, throwsAt)))
    ensures StopsFollowPrepares(StartFailed(w.(app := w.app.(dispatchers := PreparesCalled(w.app.dispatchers, throwsAt)))).app)
  {
    hide StartFailed;
    EndsStopOnlyPrepared(w.(app := w.app.(dispatchers := PreparesCalled(w.app.dispatchers, throwsAt))));
  }

  lemma StartStopsOnlyPrepared(w: Worker, throwsAt: Option<nat>)
    requires StopsFollowPrepares(w.app)
    ensures StopsFollowPrepares(StartMoves(w, throwsAt).app)
  {
    hide StartFailed, StartLeaves, PreparesCalled, NobodyAskedToStop, AllPrepared, SomePrepareFailed, AllStopped, SomeStopFailed;
    hide AfterPrepare, AfterReady;
    EndsStopOnlyPrepared(w);
    PreparesStopNobody(w, throwsAt);
    PreparesStopNobody(w, None);
    ReadyStopsOnlyPrepared(w);
  }

  lemma ReadyStopsOnlyPrepared(w: Worker)
    requires StopsFollowPrepares(w.app)
    ensures StopsFollowPrepares(AfterPrepare(w).app) && StopsFollowPrepares(AfterReady(w).app)
  {
    hide StartFailed, StartLeaves, NobodyAskedToStop, AllPrepared, SomePrepareFailed;
    EndsStopOnlyPrepared(w);
    ActivationStopsNobody(w.app.dispatchers);
  }

  lemma ActivationStopsNobody(ds: seq<DispatcherState>)
    ensures NobodyAskedToStop(ds) ==> NobodyAskedToStop(AllActivated(ds))
  {
  }

  lemma {:induction false} StopsAlwaysFollowPrepares(dispatchers: nat, events: seq<Event>)
    ensures StopsFollowPrepares(After(dispatchers, events).app)
    decreases |events|
  {
    hide Next;
    if events != [] {
      StopsAlwaysFollowPrepares(dispatchers, events[..|events| - 1]);
      StepStopsOnlyPrepared(After(dispatchers, events[..|events| - 1]), events[|events| - 1]);
    }
  }

  predicate PreparedAreStopped(ds: seq<DispatcherState>) {
    forall i :: 0 <= i < |ds| && ds[i].prepare.RESOLVED? ==> ds[i].stop.RESOLVED?
  }

  predicate NobodyPrepared(ds: seq<DispatcherState>) { forall i :: 0 <= i < |ds| ==> !ds[i].prepare.RESOLVED? }

  /** At the disconnection every dispatcher that was prepared has been stopped exactly when no preparation failed,
      or nobody was prepared at all. */
  lemma DisconnectExactly(dispatchers: nat, events: seq<Event>)
    ensures var w := After(dispatchers, events);
            w.app.disconnected ==>
              (PreparedAreStopped(w.app.dispatchers) <==>
                !SomePrepareFailed(w.app.dispatchers) || NobodyPrepared(w.app.dispatchers))
  {
    AlwaysOk(dispatchers, events);
    StopsAlwaysFollowPrepares(dispatchers, events);
    var w := After(dispatchers, events);
    if w.app.disconnected { DecidedExactly(w); }
  }

  lemma DecidedExactly(w: Worker)
    requires DispatchersOk(w) && StopOk(w) && w.app.disconnected && StopsFollowPrepares(w.app)
    ensures PreparedAreStopped(w.app.dispatchers) <==> !SomePrepareFailed(w.app.dispatchers) || NobodyPrepared(w.app.dispatchers)
  {
  }

  /** And nothing is written after the disconnection. */
  lemma SilenceAfterDisconnect(dispatchers: nat, events: seq<Event>, event: Event)
    requires After(dispatchers, events).app.disconnected
    ensures After(dispatchers, events + [event]).app.disconnected
    ensures After(dispatchers, events + [event]).chain.attempted == After(dispatchers, events).chain.attempted
  {
    hide Inv, Next;
    var w := After(dispatchers, events);
    assert (events + [event])[..|events|] == events;
    AlwaysOk(dispatchers, events);
    DisconnectIsLast(dispatchers, events);
    NobodyWrites(w, event);
  }

  lemma NobodyWrites(w: Worker, event: Event)
    requires w.chain.writes == [] && w.app.disconnected && w.draining
    ensures Next(w, event).chain.attempted == w.chain.attempted && Next(w, event).app.disconnected
  {
    hide StartMoves, ShutdownMoves, Shutdown, PrepareEnds, StopEnds, SameActivations;
    match event
    case ShutdownCalled => ShutdownIsQuiet(w);
    case StartContinues(throwsAt) => StartIsQuiet(w, throwsAt);
    case ShutdownContinues => ShutdownMovesIsQuiet(w);
    case _ =>
  }

  // ----- where a prepared dispatcher is never stopped ------------------------------------------------------------------

  lemma OneMore(dispatchers: nat, events: seq<Event>, event: Event)
    ensures After(dispatchers, events + [event]) == Next(After(dispatchers, events), event)
  {
    assert (events + [event])[..|events|] == events;
  }

  const FRESH := DispatcherState(NOT_STARTED, false, NOT_STARTED)
  const PREPARED := DispatcherState(RESOLVED, false, NOT_STARTED)
  const UNPREPARED := DispatcherState(REJECTED, false, NOT_STARTED)
  const UP := Host(STARTING, false, RESOLVED, READY_IDLE, HOST_RUNS, false, false, true, NO_BEAT)
  const WROTE := Chain([], false, map[], [STARTING])

  /** The first of two dispatchers is prepared and the preparation of the second has failed. */
  const HALF_PREPARED := Worker(false, false, UP, WROTE,
    App(AWAITS_PREPARE, STOP_IDLE, true, RESOLVED, true, false, [PREPARED, UNPREPARED], false))

  lemma HostComesUp() returns (events: seq<Event>)
    ensures After(2, events) ==
      Worker(false, false, UP, WROTE, App(AWAITS_HOST, STOP_IDLE, false, NOT_STARTED, false, false, [FRESH, FRESH], false))
  {
    events := [];
    assert Initial(2).app.dispatchers == [FRESH, FRESH];
    OneMore(2, events, StartCalled);
    events := events + [StartCalled];
    OneMore(2, events, ServerStarted(true));
    events := events + [ServerStarted(true)];
    assert After(2, events).chain == Chain([Write(HOST_START, STARTING)], false, map[], []);
    OneMore(2, events, StoreTakesWrite);
    events := events + [StoreTakesWrite];
    OneMore(2, events, StoreSettles(true));
    events := events + [StoreSettles(true)];
    assert After(2, events).chain == Chain([], false, map[HOST_START := true], [STARTING]);
    OneMore(2, events, HostStartContinues);
    events := events + [HostStartContinues];
    assert map[HOST_START := true] - {HOST_START} == map[];
  }

  lemma HalfPreparedHappens() returns (events: seq<Event>)
    ensures After(2, events) == HALF_PREPARED
  {
    events := HostComesUp();
    OneMore(2, events, StartContinues(None));
    events := events + [StartContinues(None)];
    OneMore(2, events, PreflightSettles(true));
    events := events + [PreflightSettles(true)];
    OneMore(2, events, StartContinues(None));
    events := events + [StartContinues(None)];
    var called := DispatcherState(PENDING, false, NOT_STARTED);
    assert After(2, events).app.dispatchers == [called, called];
    OneMore(2, events, PrepareSettles(0, true));
    events := events + [PrepareSettles(0, true)];
    assert After(2, events).app.dispatchers == [PREPARED, called];
    OneMore(2, events, PrepareSettles(1, false));
    events := events + [PrepareSettles(1, false)];
    assert After(2, events).app.dispatchers == [PREPARED, UNPREPARED];
  }

  const CLOSING := Host(STOPPING, true, RESOLVED, READY_IDLE, HOST_AWAITS_LOOP, true, false, false, NO_BEAT)

  function ClosingApp(stop: StopStage): App {
    App(AWAITS_FAILURE_SHUTDOWN, stop, true, RESOLVED, true, false, [PREPARED, UNPREPARED], stop.STOP_OVER?)
  }

  lemma ShutdownBegins(start: seq<Event>) returns (events: seq<Event>)
    requires After(2, start) == HALF_PREPARED
    ensures After(2, events) == Worker(true, false, CLOSING, WROTE, ClosingApp(STOP_AWAITS_HOST))
  {
    hide After;
    events := start;
    assert HALF_PREPARED.app.dispatchers[1].prepare.REJECTED?;
    OneMore(2, events, StartContinues(None));
    events := events + [StartContinues(None)];
    assert After(2, events) == Worker(true, false, UP, WROTE, ClosingApp(STOP_AWAITS_PREPARE));
    assert ClosingApp(STOP_AWAITS_PREPARE).dispatchers[1].prepare.REJECTED?;
    OneMore(2, events, ShutdownContinues);
    events := events + [ShutdownContinues];
    assert After(2, events) == Worker(true, false, UP, WROTE, ClosingApp(STOP_AWAITS_HOST_START));
    OneMore(2, events, ShutdownContinues);
    events := events + [ShutdownContinues];
    OneMore(2, events, HostStopContinues);
    events := events + [HostStopContinues];
  }

  lemma HostGoesDown(start: seq<Event>) returns (events: seq<Event>)
    requires After(2, start) == Worker(true, false, CLOSING, WROTE, ClosingApp(STOP_AWAITS_HOST))
    ensures After(2, events) == Worker(true, false, CLOSING.(stop := HOST_STOPPED), Chain([], false, map[], [STARTING, STOPPING]),
                                       ClosingApp(STOP_AWAITS_HOST))
  {
    hide After;
    events := start;
    OneMore(2, events, HostStopContinues);
    events := events + [HostStopContinues];
    assert After(2, events).chain == Chain([Write(HOST_STOP, STOPPING)], false, map[], [STARTING]);
    OneMore(2, events, StoreTakesWrite);
    events := events + [StoreTakesWrite];
    OneMore(2, events, StoreSettles(true));
    events := events + [StoreSettles(true)];
    assert After(2, events).chain == Chain([], false, map[HOST_STOP := true], [STARTING, STOPPING]);
    OneMore(2, events, HostStopContinues);
    events := events + [HostStopContinues];
    assert map[HOST_STOP := true] - {HOST_STOP} == map[];
  }

  /** If one of two preparations fails, the worker disconnects although the dispatcher that was prepared has not been
      asked to stop. */
  lemma PreparedButNeverStopped()
    ensures exists events: seq<Event> ::
              && After(2, events).app.disconnected
              && After(2, events).app.dispatchers == [PREPARED, UNPREPARED]
  {
    var events := HalfPreparedHappens();
    events := ShutdownBegins(events);
    events := HostGoesDown(events);
    hide After;
    OneMore(2, events, ShutdownContinues);
    OneMore(2, events + [ShutdownContinues], ShutdownContinues);
    OneMore(2, events + [ShutdownContinues] + [ShutdownContinues], ShutdownContinues);
    var all := events + [ShutdownContinues] + [ShutdownContinues] + [ShutdownContinues];
    assert After(2, all).app.disconnected && After(2, all).app.dispatchers == [PREPARED, UNPREPARED];
  }
}
