/** Nobody waits for something that cannot come: what a worker at rest has reached. */
module WorkerProgress {
  import opened Prelude
  import opened WorkerLifecycle
  import opened WorkerSafety

  // ----- what everyone who waits is owed -------------------------------------------------------------------

  /** Each caller waiting for a presence write has it in the chain or its result at hand. */
  ghost predicate Answered(h: Host, c: Chain) {
    forall owner :: Awaits(h, owner) ==> InChain(c, owner) || owner in c.delivered
  }

  /** The write of the readiness call asks for READY, with the gate open. */
  predicate ReadyAsked(h: Host, c: Chain, readyAllowed: bool) {
    && (!h.ready.READY_IDLE? ==> readyAllowed)
    && (forall i :: 0 <= i < |c.writes| && c.writes[i].owner.MARK_READY? ==> c.writes[i].status.READY?)
    && (c.writing && c.writes != [] && c.writes[0].owner.MARK_READY? ==> READY in c.attempted)
    && (MARK_READY in c.delivered || h.ready.READY_DONE? ==> READY in c.attempted)
  }

  /** The next beat is always coming, until the host is stopped. */
  predicate Beating(h: Host) {
    && (h.start.RESOLVED? && !h.aborted && h.beat.NO_BEAT? ==> h.timer)
    && (h.loopStopped ==> h.aborted)
  }

  predicate AllCalled(ds: seq<DispatcherState>) { forall i :: 0 <= i < |ds| ==> !ds[i].prepare.NOT_STARTED? }

  predicate AllAsked(ds: seq<DispatcherState>) { forall i :: 0 <= i < |ds| ==> !ds[i].stop.NOT_STARTED? }

  predicate AllActive(ds: seq<DispatcherState>) { forall i :: 0 <= i < |ds| ==> ds[i].activated }

  /** What each stage waits for has been started. */
  predicate StagesOwe(w: Worker) {
    var start, stop, h, ds := w.app.start, w.app.stop, w.host, w.app.dispatchers;
    && (start.AWAITS_PREFLIGHT? ==> !w.app.preflight.NOT_STARTED?)
    && (w.app.prepareStarted ==> AllCalled(ds))
    && (start.AWAITS_READY? ==> !h.ready.READY_IDLE?)
    && (start.AWAITS_DRAIN_STOPS? || stop.STOP_AWAITS_DISPATCHERS? ==> AllAsked(ds))
    && (start.AWAITS_HOST_DOWN? || stop.STOP_AWAITS_HOST? ==> h.aborted)
    && (stop.STOP_AWAITS_HOST_START? ==> !h.start.NOT_STARTED?)
    && (stop.STOP_FAILED? ==> SomeStopFailed(ds))
    && (start.START_OVER? && !w.draining && !h.start.NOT_STARTED? ==> h.ready.READY_DONE? && AllActive(ds))
  }

  /** Draining, and waiting for a shutdown, only once it has been called. */
  predicate Leaving(w: Worker) { w.draining || w.app.start.AWAITS_FAILURE_SHUTDOWN? ==> !w.app.stop.STOP_IDLE? }

  ghost predicate Owed(w: Worker) {
    Answered(w.host, w.chain) && ReadyAsked(w.host, w.chain, w.readyAllowed) && Beating(w.host) && StagesOwe(w)
  }

  // ----- the host ------------------------------------------------------------------------------------------

  ghost predicate HostOwed(h: Host, c: Chain, readyAllowed: bool) {
    Answered(h, c) && ReadyAsked(h, c, readyAllowed) && Beating(h)
  }

  lemma PersistAnswers(h: Host, c: Chain, g: Host, owner: Owner, status: Presence)
    requires Answered(h, c) && forall other :: Awaits(g, other) ==> Awaits(h, other) || other == owner
    ensures Answered(g, Persist(c, owner, status))
  {
    hide Awaits;
    var d := Persist(c, owner, status);
    assert d.writes[|c.writes|].owner == owner;
    forall other | Awaits(g, other) ensures InChain(d, other) || other in d.delivered {
      if InChain(c, other) {
        var i :| 0 <= i < |c.writes| && c.writes[i].owner == other;
        assert d.writes[i].owner == other;
      }
    }
  }

  lemma PickUpAnswers(h: Host, c: Chain, g: Host, owner: Owner)
    requires Answered(h, c) && forall other :: Awaits(g, other) ==> Awaits(h, other) && other != owner
    ensures Answered(g, PickedUp(c, owner))
  {
    hide Awaits;
    var d := PickedUp(c, owner);
    forall other | Awaits(g, other) ensures InChain(d, other) || other in d.delivered {
      if InChain(c, other) {
        var i :| 0 <= i < |c.writes| && c.writes[i].owner == other;
        assert d.writes[i].owner == other;
      }
    }
  }

  lemma StillAnswered(h: Host, c: Chain, g: Host)
    requires Answered(h, c) && forall other :: Awaits(g, other) ==> Awaits(h, other)
    ensures Answered(g, c)
  {
    hide Awaits;
  }

  predicate ReadyStays(h: Host, g: Host) { h.ready.READY_DONE? ==> g.ready.READY_DONE? }

  lemma HostStartOwed(h: Host, c: Chain, readyAllowed: bool)
    requires HostOwed(h, c, readyAllowed)
    ensures var m := HostStartMoves(h, c); HostOwed(m.host, m.chain, readyAllowed) && ReadyStays(h, m.host)
  {
    hide Answered;
    var g := HostStartMoves(h, c).host;
    if h.start.PENDING? && HOST_START in c.delivered { PickUpAnswers(h, c, g, HOST_START); }
  }

  lemma ReadyOwed(h: Host, c: Chain, readyAllowed: bool)
    requires HostOwed(h, c, readyAllowed) && WritesOk(h, c)
    ensures var m := ReadyMoves(h, c); HostOwed(m.host, m.chain, readyAllowed) && ReadyStays(h, m.host)
  {
    hide Answered;
    var g := ReadyMoves(h, c).host;
    if h.ready.READY_AWAITS_START? {
      if g.ready.READY_WRITING? { PersistAnswers(h, c, g, MARK_READY, READY); } else { StillAnswered(h, c, g); }
    } else if h.ready.READY_WRITING? && MARK_READY in c.delivered {
      PickUpAnswers(h, c, g, MARK_READY);
    }
  }

  lemma HostStopOwed(h: Host, c: Chain, readyAllowed: bool)
    requires HostOwed(h, c, readyAllowed) && HostOk(h)
    ensures var m := HostStopMoves(h, c); HostOwed(m.host, m.chain, readyAllowed) && ReadyStays(h, m.host)
  {
    hide Answered;
    var g := HostStopMoves(h, c).host;
    if h.stop.HOST_WRITING? && HOST_STOP in c.delivered {
      PickUpAnswers(h, c, g, HOST_STOP);
    } else if h.stop.HOST_AWAITS_LOOP? && h.beat.NO_BEAT? {
      PersistAnswers(h, c, g, HOST_STOP, STOPPING);
    } else {
      StillAnswered(h, c, g);
    }
  }

  lemma TickOwed(h: Host, c: Chain, readyAllowed: bool)
    requires HostOwed(h, c, readyAllowed) && HostOk(h)
    ensures HostOwed(Tick(h), c, readyAllowed) && ReadyStays(h, Tick(h))
  {
    hide Answered;
    StillAnswered(h, c, Tick(h));
  }

  lemma BeatWrittenOwed(h: Host, c: Chain, readyAllowed: bool, ok: bool)
    requires HostOwed(h, c, readyAllowed) && h.beat.BEAT_WRITING? && BEAT in c.delivered
    ensures var m := BeatMoves(h, c, ok); HostOwed(m.host, m.chain, readyAllowed) && ReadyStays(h, m.host)
  {
    hide Answered;
    var g, idle := BeatMoves(h, c, ok).host, h.(beat := NO_BEAT);
    PickUpAnswers(h, c, idle, BEAT);
    if g.beat.BEAT_RECOVERING? {
      PersistAnswers(idle, PickedUp(c, BEAT), g, RECOVERY, READY);
    } else {
      StillAnswered(idle, PickedUp(c, BEAT), g);
    }
  }

  lemma BeatOwed(h: Host, c: Chain, readyAllowed: bool, ok: bool)
    requires HostOwed(h, c, readyAllowed)
    ensures var m := BeatMoves(h, c, ok); HostOwed(m.host, m.chain, readyAllowed) && ReadyStays(h, m.host)
  {
    hide Answered, BeatSucceeded;
    var g := BeatMoves(h, c, ok).host;
    match h.beat
    case NO_BEAT =>
    case BEAT_QUEUED =>
      if g.beat.BEAT_WRITING? { PersistAnswers(h, c, g, BEAT, h.status); } else { StillAnswered(h, c, g); }
    case BEAT_WRITING =>
      if BEAT in c.delivered { BeatWrittenOwed(h, c, readyAllowed, ok); }
    case BEAT_RECOVERING =>
      if RECOVERY in c.delivered { PickUpAnswers(h, c, g, RECOVERY); }
    case BEAT_REPORTING(_) =>
      StillAnswered(h, c, g);
  }

  lemma TakeWriteOwed(h: Host, c: Chain, readyAllowed: bool)
    requires HostOwed(h, c, readyAllowed) && WritesOk(h, c)
    ensures HostOwed(h, TakeWrite(c, readyAllowed), readyAllowed)
  {
    var d := TakeWrite(c, readyAllowed);
    assert d.writes == c.writes && d.delivered == c.delivered;
    assert forall owner :: InChain(c, owner) <==> InChain(d, owner);
    if d != c { assert c.writes[0].owner.MARK_READY? ==> Awaits(h, MARK_READY); }
  }

  lemma SettleWriteOwed(h: Host, c: Chain, readyAllowed: bool, ok: bool)
    requires HostOwed(h, c, readyAllowed)
    ensures HostOwed(h, SettleWrite(c, ok), readyAllowed)
  {
    hide Awaits;
    var d := SettleWrite(c, ok);
    if d != c {
      forall owner | Awaits(h, owner) ensures InChain(d, owner) || owner in d.delivered {
        if InChain(c, owner) {
          var i :| 0 <= i < |c.writes| && c.writes[i].owner == owner;
          assert i > 0 ==> d.writes[i - 1].owner == owner;
        }
      }
    }
  }

  // ----- the application -----------------------------------------------------------------------------------

  lemma HostMovesOwed(w: Worker, m: Moved)
    requires Owed(w) && HostOwed(m.host, m.chain, w.readyAllowed) && HostAdvances(w.host, m.host) && ReadyStays(w.host, m.host)
    ensures Owed(WithMoved(w, m))
  {
    hide Answered, ReadyAsked, AllCalled, AllAsked, AllActive, SomeStopFailed;
  }

  lemma AppOwed(w: Worker, v: Worker)
    requires Owed(w) && v.host == w.host && v.chain == w.chain && v.readyAllowed == w.readyAllowed && StagesOwe(v)
    ensures Owed(v)
  {
    hide Answered, ReadyAsked, StagesOwe;
  }

  lemma HostShutDownOwed(w: Worker)
    requires Owed(w) && Inv(w) && w.host.start.RESOLVED? && w.draining
    ensures Owed(HostShutDown(w)) && HostShutDown(w).host.aborted && HostShutDown(w).draining
    ensures HostShutDown(w).app == w.app
  {
    hide Answered, AllCalled, AllAsked, AllActive, SomeStopFailed, MovedOk, StopOk, DispatchersOk, StartOk;
    StillAnswered(w.host, w.chain, HostShutDown(w).host);
    AbortedMeans(w.host, w.chain, w.readyAllowed);
  }

  lemma StopFromHostOwed(w: Worker)
    requires Owed(w) && Inv(w) && w.draining && (w.app.hostStarted ==> w.host.start.RESOLVED?)
    ensures Owed(StopFromHost(w)) && !StopFromHost(w).app.stop.STOP_IDLE?
    ensures StopFromHost(w).app.start == w.app.start
  {
    hide Inv, HostShutDown, Answered, ReadyAsked, AllCalled, AllAsked, AllActive, SomeStopFailed;
    if w.app.hostStarted {
      HostShutDownOwed(w);
      AppOwed(HostShutDown(w), AtStop(HostShutDown(w), STOP_AWAITS_HOST));
    } else {
      AppOwed(w, AtStop(w, STOP_AWAITS_PREFLIGHT));
    }
  }

  lemma StopFromHostStartOwed(w: Worker)
    requires Owed(w) && Inv(w) && w.draining
    ensures Owed(StopFromHostStart(w)) && !StopFromHostStart(w).app.stop.STOP_IDLE?
  {
    hide StopFromHost, Answered, ReadyAsked, AllCalled, AllAsked, AllActive, SomeStopFailed, MovedOk, StopOk, DispatchersOk;
    if w.host.start.NOT_STARTED? { StopFromHostOwed(w); } else { AppOwed(w, AtStop(w, STOP_AWAITS_HOST_START)); }
  }

  lemma AskingAll(ds: seq<DispatcherState>, es: seq<DispatcherState>)
    requires |es| == |ds|
    requires forall i :: 0 <= i < |ds| ==>
               es[i] == if ds[i].stop.NOT_STARTED? then ds[i].(stop := PENDING) else ds[i]
    ensures AllAsked(es) && (AllCalled(ds) ==> AllCalled(es)) && (AllActive(ds) ==> AllActive(es))
    ensures SomeStopFailed(ds) ==> SomeStopFailed(es)
  {
    if SomeStopFailed(ds) {
      var i :| 0 <= i < |ds| && ds[i].stop.REJECTED?;
      assert es[i].stop.REJECTED?;
    }
  }

  lemma StopsCalledOwed(w: Worker)
    requires Owed(w)
    ensures Owed(StopsCalled(w)) && AllAsked(StopsCalled(w).app.dispatchers)
  {
    hide Answered, ReadyAsked, AllCalled, AllAsked, AllActive, SomeStopFailed;
    AskingAll(w.app.dispatchers, StopsCalled(w).app.dispatchers);
  }

  lemma StopFromDispatchersOwed(w: Worker)
    requires Owed(w) && Inv(w) && w.draining
    ensures Owed(StopFromDispatchers(w)) && !StopFromDispatchers(w).app.stop.STOP_IDLE?
  {
    hide StopFromHostStart, Inv, Answered, ReadyAsked, AllCalled, AllAsked, AllActive, SomeStopFailed;
    if w.app.dispatcherPrepared {
      StopsCalledOwed(w);
      AppOwed(StopsCalled(w), AtStop(StopsCalled(w), STOP_AWAITS_DISPATCHERS));
    } else {
      StopFromHostStartOwed(w);
    }
  }

  lemma ShutdownOwed(w: Worker)
    requires Owed(w) && Inv(w)
    ensures Owed(Shutdown(w)) && !Shutdown(w).app.stop.STOP_IDLE?
  {
    hide StopFromDispatchers, Inv, Answered, ReadyAsked, AllCalled, AllAsked, AllActive, SomeStopFailed;
    var v := w.(draining := true);
    DrainOk(w);
    AppOwed(w, v);
    if v.app.stop.STOP_IDLE? {
      if v.app.prepareStarted { AppOwed(v, AtStop(v, STOP_AWAITS_PREPARE)); } else { StopFromDispatchersOwed(v); }
    }
  }

  lemma ShutdownMovesOwed(w: Worker)
    requires Owed(w) && Inv(w)
    ensures Owed(ShutdownMoves(w)) && (!w.app.stop.STOP_IDLE? ==> !ShutdownMoves(w).app.stop.STOP_IDLE?)
  {
    hide MovedOk, StartOk, DispatchersOk, AllPrepared, SomePrepareFailed, AllStopped, SomeStopFailed;
    hide Answered, ReadyAsked, AllCalled, AllAsked, AllActive;
    hide StopFromDispatchers, StopFromHostStart, StopFromHost;
    match w.app.stop
    case STOP_AWAITS_PREPARE =>
      if AllPrepared(w.app.dispatchers) {
        WithPreparedOk(w);
        AppOwed(w, WithPrepared(w));
        StopFromDispatchersOwed(WithPrepared(w));
      } else if SomePrepareFailed(w.app.dispatchers) {
        StopFromDispatchersOwed(w);
      }
    case STOP_AWAITS_DISPATCHERS =>
      if AllStopped(w.app.dispatchers) { StopFromHostStartOwed(w); }
    case STOP_AWAITS_HOST_START =>
      if w.host.start.RESOLVED? {
        HostStartedOk(w);
        AppOwed(w, WithHostStarted(w));
        StopFromHostOwed(WithHostStarted(w));
      } else if w.host.start.REJECTED? {
        HostStartedMeans(w);
        StopFromHostOwed(w);
      }
    case _ =>
  }

  lemma HostStartedMeans(w: Worker)
    requires Inv(w)
    ensures w.app.hostStarted ==> w.host.start.RESOLVED?
  {
  }

  lemma StartFailedOwed(w: Worker)
    requires Owed(w) && Inv(w)
    ensures Owed(StartFailed(w)) && Leaving(StartFailed(w))
  {
    hide Shutdown, MovedOk, DispatchersOk, StopOk, Answered, ReadyAsked, AllCalled, AllAsked, AllActive, SomeStopFailed;
    var v := AtStart(w, AWAITS_FAILURE_SHUTDOWN);
    AtStartOk(w, AWAITS_FAILURE_SHUTDOWN);
    AppOwed(w, v);
    ShutdownOwed(v);
  }

  lemma StartLeavesOwed(w: Worker)
    requires Owed(w) && Inv(w) && w.draining && w.host.start.RESOLVED? && Leaving(w)
    ensures Owed(StartLeaves(w)) && Leaving(StartLeaves(w))
  {
    hide HostShutDown, Inv, Answered, ReadyAsked, AllCalled, AllAsked, AllActive, SomeStopFailed;
    HostShutDownOwed(w);
    AppOwed(HostShutDown(w), AtStart(HostShutDown(w), AWAITS_HOST_DOWN));
    LeavesLast(w);
  }

  lemma LeavesLast(w: Worker)
    ensures StartLeaves(w) == AtStart(HostShutDown(w), AWAITS_HOST_DOWN)
  {
  }

  lemma StartGetsReadyOwed(w: Worker)
    requires Owed(w)
    ensures Owed(StartGetsReady(w))
  {
    hide AllCalled, AllAsked, AllActive, SomeStopFailed;
    var g := w.host.(ready := READY_AWAITS_START);
    StillAnswered(w.host, w.chain, g);
  }

  lemma CallingAll(ds: seq<DispatcherState>, throwsAt: Option<nat>)
    ensures AllCalled(PreparesCalled(ds, None))
    ensures AllAsked(ds) ==> AllAsked(PreparesCalled(ds, throwsAt))
    ensures AllActive(ds) ==> AllActive(PreparesCalled(ds, throwsAt))
    ensures SomeStopFailed(ds) ==> SomeStopFailed(PreparesCalled(ds, throwsAt))
  {
    var es := PreparesCalled(ds, throwsAt);
    if SomeStopFailed(ds) {
      var i :| 0 <= i < |ds| && ds[i].stop.REJECTED?;
      assert es[i].stop.REJECTED?;
    }
  }

  lemma PrepareThrowsOwed(w: Worker, throwsAt: Option<nat>)
    requires Owed(w) && Inv(w) && w.app.start.AWAITS_PREFLIGHT? && !w.draining
    requires throwsAt.Some? && throwsAt.value < |w.app.dispatchers|
    ensures var v := StartFailed(w.(app := w.app.(dispatchers := PreparesCalled(w.app.dispatchers, throwsAt)))); Owed(v) && Leaving(v)
  {
    hide PreparesCalled, Shutdown, MovedOk, DispatchersOk, StopOk, Answered, ReadyAsked, AllCalled, AllAsked, AllActive, SomeStopFailed;
    var v := AtStart(w.(app := w.app.(dispatchers := PreparesCalled(w.app.dispatchers, throwsAt))), AWAITS_FAILURE_SHUTDOWN);
    CallingAll(w.app.dispatchers, throwsAt);
    ThrownOk(w, throwsAt);
    AppOwed(w, v);
    ShutdownOwed(v);
  }

  lemma AfterHostStartOwed(w: Worker)
    requires Owed(w) && Inv(w) && Leaving(w) && w.app.start.AWAITS_HOST?
    ensures Owed(AfterHostStart(w)) && Leaving(AfterHostStart(w))
  {
    hide Inv, Answered, ReadyAsked, AllCalled, AllAsked, AllActive, SomeStopFailed, StartFailed, StartLeaves;
    if w.host.start.REJECTED? {
      StartFailedOwed(w);
    } else if w.host.start.RESOLVED? {
      var v := WithHostStarted(w);
      HostStartedOk(w);
      AppOwed(w, v);
      if w.draining {
        StartLeavesOwed(v);
      } else {
        AppOwed(v, AtStart(v.(app := v.app.(preflight := PENDING)), AWAITS_PREFLIGHT));
      }
    }
  }

  lemma UpAndReady(w: Worker)
    requires Inv(w)
    ensures w.app.start.AWAITS_PREFLIGHT? || w.app.start.AWAITS_PREPARE? || w.app.start.AWAITS_READY? ==> w.host.start.RESOLVED?
    ensures w.app.start.AWAITS_DRAIN_STOPS? || w.app.start.AWAITS_HOST_DOWN? ==> w.host.start.RESOLVED? && w.draining
    ensures w.app.start.AWAITS_PREPARE? ==> w.app.prepareStarted
    ensures w.app.start.START_IDLE? || w.app.start.AWAITS_SERVER? ==> w.host.start.NOT_STARTED?
    ensures w.app.stop.STOP_OVER? || w.app.stop.STOP_FAILED? ==> w.draining
    ensures PastDispatchers(w.app.stop) && w.app.dispatcherPrepared ==> AllStopped(w.app.dispatchers)
  {
  }

  lemma AfterPreflightOwed(w: Worker, throwsAt: Option<nat>)
    requires Owed(w) && Inv(w) && Leaving(w) && w.app.start.AWAITS_PREFLIGHT?
    ensures Owed(AfterPreflight(w, throwsAt)) && Leaving(AfterPreflight(w, throwsAt))
  {
    hide Inv, Answered, ReadyAsked, AllCalled, AllAsked, AllActive, SomeStopFailed, StartFailed, StartLeaves, PreparesCalled;
    UpAndReady(w);
    if w.app.preflight.REJECTED? {
      StartFailedOwed(w);
    } else if w.app.preflight.RESOLVED? {
      if w.draining {
        StartLeavesOwed(w);
      } else if w.app.dispatchers == [] {
        StartGetsReadyOwed(w);
      } else if throwsAt.Some? && throwsAt.value < |w.app.dispatchers| {
        PrepareThrowsOwed(w, throwsAt);
      } else {
        CallingAll(w.app.dispatchers, None);
        AppOwed(w, AfterPreflight(w, throwsAt));
      }
    }
  }

  lemma AfterPrepareOwed(w: Worker)
    requires Owed(w) && Inv(w) && Leaving(w) && w.app.start.AWAITS_PREPARE?
    ensures Owed(AfterPrepare(w)) && Leaving(AfterPrepare(w))
  {
    hide MovedOk, StartOk, StopOk, DispatchersOk, Answered, ReadyAsked, AllCalled, AllAsked, AllActive, SomeStopFailed, StartFailed;
    hide AllPrepared, SomePrepareFailed;
    if SomePrepareFailed(w.app.dispatchers) {
      StartFailedOwed(w);
    } else if AllPrepared(w.app.dispatchers) {
      var v := WithPrepared(w);
      AppOwed(w, v);
      if w.draining {
        StopsCalledOwed(v);
        AppOwed(StopsCalled(v), AtStart(StopsCalled(v), AWAITS_DRAIN_STOPS));
      } else {
        StartGetsReadyOwed(v);
      }
    }
  }

  lemma ActivatingAll(ds: seq<DispatcherState>)
    ensures AllActive(AllActivated(ds))
    ensures AllCalled(ds) ==> AllCalled(AllActivated(ds))
    ensures AllAsked(ds) ==> AllAsked(AllActivated(ds))
    ensures SomeStopFailed(ds) ==> SomeStopFailed(AllActivated(ds))
  {
    var es := AllActivated(ds);
    if SomeStopFailed(ds) {
      var i :| 0 <= i < |ds| && ds[i].stop.REJECTED?;
      assert es[i].stop.REJECTED?;
    }
  }

  lemma AfterReadyOwed(w: Worker)
    requires Owed(w) && Inv(w) && Leaving(w) && w.app.start.AWAITS_READY?
    ensures Owed(AfterReady(w)) && Leaving(AfterReady(w))
  {
    hide Inv, Answered, ReadyAsked, AllCalled, AllAsked, AllActive, SomeStopFailed, StartFailed, StartLeaves, AllActivated;
    UpAndReady(w);
    if w.host.ready.READY_FAILED? {
      StartFailedOwed(w);
    } else if w.host.ready.READY_DONE? {
      if !w.draining {
        ActivatingAll(w.app.dispatchers);
        AppOwed(w, AfterReady(w));
      } else if w.app.dispatcherPrepared {
        StopsCalledOwed(w);
        AppOwed(StopsCalled(w), AtStart(StopsCalled(w), AWAITS_DRAIN_STOPS));
      } else {
        StartLeavesOwed(w);
      }
    }
  }

  lemma StartMovesOwed(w: Worker, throwsAt: Option<nat>)
    requires Owed(w) && Inv(w) && Leaving(w)
    ensures Owed(StartMoves(w, throwsAt)) && Leaving(StartMoves(w, throwsAt))
  {
    hide Inv, Answered, ReadyAsked, AllCalled, AllAsked, AllActive, AllStopped, SomeStopFailed, StartFailed, StartLeaves;
    hide AfterHostStart, AfterPreflight, AfterPrepare, AfterReady;
    UpAndReady(w);
    match w.app.start
    case AWAITS_HOST => AfterHostStartOwed(w);
    case AWAITS_PREFLIGHT => AfterPreflightOwed(w, throwsAt);
    case AWAITS_PREPARE => AfterPrepareOwed(w);
    case AWAITS_READY => AfterReadyOwed(w);
    case AWAITS_DRAIN_STOPS =>
      if SomeStopFailed(w.app.dispatchers) {
        StartFailedOwed(w);
      } else if AllStopped(w.app.dispatchers) {
        StartLeavesOwed(w);
      }
    case AWAITS_HOST_DOWN => if w.host.stop.HOST_STOPPED? { AppOwed(w, AtStart(w, START_OVER)); }
    case AWAITS_FAILURE_SHUTDOWN => if w.app.stop.STOP_OVER? || w.app.stop.STOP_FAILED? { AppOwed(w, AtStart(w, START_OVER)); }
    case _ =>
  }

  lemma ServerUpOwed(w: Worker, ok: bool)
    requires Owed(w) && Inv(w)
    ensures Owed(ServerUp(w, ok))
  {
    hide Inv, StagesOwe, Answered, ReadyAsked, Persist;
    UpAndReady(w);
    StagesFromServer(w, ok);
    if w.app.start.AWAITS_SERVER? {
      if !ok || w.draining {
        AppOwed(w, AtStart(w, START_OVER));
      } else {
        PersistAnswers(w.host, w.chain, w.host.(start := PENDING), HOST_START, STARTING);
        StartingAsked(w.host, w.chain, w.readyAllowed);
      }
    }
  }

  lemma StagesFromServer(w: Worker, ok: bool)
    requires StagesOwe(w) && (w.app.start.AWAITS_SERVER? ==> w.host.start.NOT_STARTED?)
    ensures StagesOwe(ServerUp(w, ok))
    ensures w.app.start.AWAITS_SERVER? && (!ok || w.draining) ==> StagesOwe(AtStart(w, START_OVER))
  {
    hide AllCalled, AllAsked, AllActive, SomeStopFailed, Persist;
  }

  lemma StartingAsked(h: Host, c: Chain, readyAllowed: bool)
    requires ReadyAsked(h, c, readyAllowed)
    ensures ReadyAsked(h.(start := PENDING), Persist(c, HOST_START, STARTING), readyAllowed)
  {
  }

  lemma EndsOwed(w: Worker, i: nat, ok: bool)
    requires Owed(w)
    ensures Owed(WithDispatchers(w, PrepareEnds(w.app.dispatchers, i, ok)))
    ensures Owed(WithDispatchers(w, StopEnds(w.app.dispatchers, i, ok)))
  {
    hide Answered, ReadyAsked, SomeStopFailed;
    EndsKeepFailures(w.app.dispatchers, i, ok);
  }

  lemma EndsKeepFailures(ds: seq<DispatcherState>, i: nat, ok: bool)
    ensures SomeStopFailed(ds) ==> SomeStopFailed(PrepareEnds(ds, i, ok)) && SomeStopFailed(StopEnds(ds, i, ok))
  {
    if SomeStopFailed(ds) {
      var j :| 0 <= j < |ds| && ds[j].stop.REJECTED?;
      assert PrepareEnds(ds, i, ok)[j].stop.REJECTED? && StopEnds(ds, i, ok)[j].stop.REJECTED?;
    }
  }

  lemma NextOwed(w: Worker, event: Event)
    requires Inv(w) && Owed(w) && Leaving(w)
    ensures Owed(Next(w, event)) && Leaving(Next(w, event))
  {
    hide MovedOk, StartOk, DispatchersOk, StopOk, Answered, ReadyAsked, StagesOwe, Shutdown, TakeWrite, SettleWrite;
    hide HostStartMoves, StartMoves, ReadyMoves, HostStopMoves, Tick, BeatMoves, ShutdownMoves, HostAdvances, HostOk, WritesOk;
    hide AttemptedOk;
    var h, c, r := w.host, w.chain, w.readyAllowed;
    match event
    case StartCalled => if w.app.start.START_IDLE? { StartAsked(w); }
    case ShutdownCalled => ShutdownOwed(w);
    case ServerStarted(ok) => ServerUpOwed(w, ok);
    case StoreTakesWrite => ChainParts(w); TakeWriteOwed(h, c, r); SameStages(w, TakeWrite(c, r));
    case StoreSettles(ok) => SettleWriteOwed(h, c, r, ok); SameStages(w, SettleWrite(c, ok));
    case HostStartContinues => HostStartOk(h, c, r); HostStartOwed(h, c, r); HostMovesOwed(w, HostStartMoves(h, c));
    case StartContinues(throwsAt) => StartMovesOwed(w, throwsAt);
    case PreflightSettles(ok) => PreflightOwed(w, ok);
    case PrepareSettles(i, ok) => EndsOwed(w, i, ok);
    case StopSettles(i, ok) => EndsOwed(w, i, ok);
    case MarkReadyContinues => ChainParts(w); ReadyOk(h, c, r); ReadyOwed(h, c, r); HostMovesOwed(w, ReadyMoves(h, c));
    case HostStopContinues => ChainParts(w); HostStopOk(h, c, r); HostStopOwed(h, c, r); HostMovesOwed(w, HostStopMoves(h, c));
    case TimerFires => ChainParts(w); TickOk(h, c, r); TickOwed(h, c, r); HostMovesOwed(w, Moved(Tick(h), c));
    case BeatContinues(ok) => BeatOk(h, c, r, ok); BeatOwed(h, c, r, ok); HostMovesOwed(w, BeatMoves(h, c, ok));
    case ShutdownContinues => ShutdownMovesOwed(w); ShutdownMovesStays(w);
  }

  lemma StartAsked(w: Worker)
    requires Owed(w) && Leaving(w)
    ensures Owed(AtStart(w, AWAITS_SERVER)) && Leaving(AtStart(w, AWAITS_SERVER))
  {
    hide Answered, ReadyAsked, AllCalled, AllAsked, AllActive, SomeStopFailed;
    AppOwed(w, AtStart(w, AWAITS_SERVER));
  }

  lemma ChainParts(w: Worker)
    requires Inv(w)
    ensures WritesOk(w.host, w.chain) && HostOk(w.host)
  {
  }

  lemma SameStages(w: Worker, c: Chain)
    requires Owed(w) && HostOwed(w.host, c, w.readyAllowed)
    ensures Owed(w.(chain := c))
  {
    hide Answered, ReadyAsked, AllCalled, AllAsked, AllActive, SomeStopFailed;
  }

  lemma PreflightOwed(w: Worker, ok: bool)
    requires Owed(w) && Leaving(w)
    ensures Owed(Next(w, PreflightSettles(ok))) && Leaving(Next(w, PreflightSettles(ok)))
  {
    hide Answered, ReadyAsked, AllCalled, AllAsked, AllActive, SomeStopFailed;
  }

  lemma ShutdownMovesStays(w: Worker)
    ensures ShutdownMoves(w).app.start == w.app.start
    ensures w.draining ==> ShutdownMoves(w).draining
    ensures w.app.stop.STOP_IDLE? ==> ShutdownMoves(w) == w
  {
    hide HostShutdown, AllPrepared, SomePrepareFailed, AllStopped, SomeStopFailed, StopFromDispatchers, StopFromHostStart, StopFromHost;
    match w.app.stop
    case STOP_AWAITS_PREPARE => StopsStay(w); StopsStay(WithPrepared(w));
    case STOP_AWAITS_DISPATCHERS => StopsStay(w);
    case STOP_AWAITS_HOST_START => StopsStay(w); StopsStay(WithHostStarted(w));
    case _ =>
  }

  lemma StopsStay(w: Worker)
    ensures StopFromHost(w).app.start == StopFromHostStart(w).app.start == StopFromDispatchers(w).app.start == w.app.start
    ensures w.draining ==> StopFromHost(w).draining && StopFromHostStart(w).draining && StopFromDispatchers(w).draining
  {
    hide HostShutdown;
  }

  lemma {:induction false} AlwaysOwed(dispatchers: nat, events: seq<Event>)
    ensures Owed(After(dispatchers, events)) && Leaving(After(dispatchers, events)) && Inv(After(dispatchers, events))
    decreases |events|
  {
    hide Inv, Next;
    AlwaysOk(dispatchers, events);
    if events != [] {
      AlwaysOwed(dispatchers, events[..|events| - 1]);
      NextOwed(After(dispatchers, events[..|events| - 1]), events[|events| - 1]);
    }
  }

  // ----- a worker at rest ----------------------------------------------------------------------------------

  /** Calls from outside, and the timer, which wait for nobody here. */
  predicate FromOutside(event: Event) { event.StartCalled? || event.ShutdownCalled? || event.TimerFires? }

  /** Everything outstanding has been answered, and everyone who could go on has. */
  ghost predicate Resting(w: Worker) { forall event :: FromOutside(event) || Next(w, event) == w }

  lemma RestingChain(w: Worker)
    requires Resting(w)
    ensures w.chain.writes == []
  {
    assert Next(w, StoreTakesWrite) == w.(chain := TakeWrite(w.chain, w.readyAllowed));
    assert Next(w, StoreSettles(true)) == w.(chain := SettleWrite(w.chain, true));
    ChainGoesOn(w.chain, w.readyAllowed);
  }

  lemma ChainGoesOn(c: Chain, readyAllowed: bool)
    requires TakeWrite(c, readyAllowed) == SettleWrite(c, true) == c
    ensures c.writes == []
  {
    if !c.writing { assert |TakeWrite(c, readyAllowed).attempted| == |c.attempted|; }
    assert |SettleWrite(c, true).writes| == |c.writes|;
  }

  lemma OwedAtHand(w: Worker, owner: Owner)
    requires Resting(w) && Answered(w.host, w.chain)
    ensures Awaits(w.host, owner) ==> owner in w.chain.delivered
  {
    hide Awaits, Next;
    RestingChain(w);
  }

  lemma RestingHost(w: Worker)
    requires Resting(w) && Answered(w.host, w.chain) && HostOk(w.host)
    ensures !w.host.start.PENDING? && w.host.beat.NO_BEAT?
    ensures !w.host.ready.READY_AWAITS_START? && !w.host.ready.READY_WRITING?
    ensures w.host.stop.HOST_RUNS? || w.host.stop.HOST_STOPPED?
  {
    hide Answered;
    var h, c := w.host, w.chain;
    forall owner ensures Awaits(h, owner) ==> owner in c.delivered { OwedAtHand(w, owner); }
    assert Next(w, HostStartContinues) == WithMoved(w, HostStartMoves(h, c));
    assert Next(w, MarkReadyContinues) == WithMoved(w, ReadyMoves(h, c));
    assert Next(w, HostStopContinues) == WithMoved(w, HostStopMoves(h, c));
    assert Next(w, BeatContinues(true)) == WithMoved(w, BeatMoves(h, c, true));
    HostGoesOn(h, c);
  }

  lemma HostGoesOn(h: Host, c: Chain)
    requires HostStartMoves(h, c) == ReadyMoves(h, c) == HostStopMoves(h, c) == BeatMoves(h, c, true) == Moved(h, c)
    requires HostOk(h) && forall owner :: Awaits(h, owner) ==> owner in c.delivered
    ensures !h.start.PENDING? && h.beat.NO_BEAT? && !h.ready.READY_AWAITS_START? && !h.ready.READY_WRITING?
    ensures h.stop.HOST_RUNS? || h.stop.HOST_STOPPED?
  {
    assert Awaits(h, HOST_START) ==> HOST_START in c.delivered;
    assert Awaits(h, MARK_READY) ==> MARK_READY in c.delivered;
    assert Awaits(h, BEAT) ==> BEAT in c.delivered;
    assert Awaits(h, RECOVERY) ==> RECOVERY in c.delivered;
    assert Awaits(h, HOST_STOP) ==> HOST_STOP in c.delivered;
  }

  lemma RestingPromises(w: Worker)
    requires Resting(w)
    ensures !w.app.preflight.PENDING? && !w.app.start.AWAITS_SERVER?
    ensures forall i :: 0 <= i < |w.app.dispatchers| ==>
              !w.app.dispatchers[i].prepare.PENDING? && !w.app.dispatchers[i].stop.PENDING?
  {
    var ds := w.app.dispatchers;
    assert Next(w, PreflightSettles(true)) == w;
    assert Next(w, ServerStarted(false)) == w;
    forall i | 0 <= i < |ds| ensures !ds[i].prepare.PENDING? && !ds[i].stop.PENDING? {
      assert Next(w, PrepareSettles(i, true)) == WithDispatchers(w, PrepareEnds(ds, i, true));
      assert Next(w, StopSettles(i, true)) == WithDispatchers(w, StopEnds(ds, i, true));
    }
  }

  lemma Decided(ds: seq<DispatcherState>)
    requires forall i :: 0 <= i < |ds| ==> !ds[i].prepare.PENDING? && !ds[i].stop.PENDING?
    ensures AllCalled(ds) ==> AllPrepared(ds) || SomePrepareFailed(ds)
    ensures AllAsked(ds) ==> AllStopped(ds) || SomeStopFailed(ds)
  {
  }

  lemma RestingStop(w: Worker)
    requires Resting(w) && Owed(w) && Inv(w)
    ensures w.app.stop in {STOP_IDLE, STOP_OVER, STOP_FAILED}
  {
    hide Inv, MovedOk, Answered, ReadyAsked, AllCalled, AllAsked, AllPrepared, SomePrepareFailed, AllStopped, SomeStopFailed;
    ChainParts(w);
    RestingHost(w);
    RestingPromises(w);
    Decided(w.app.dispatchers);
    UpAndReady(w);
    assert Next(w, ShutdownContinues) == ShutdownMoves(w);
    StopGoesOn(w);
  }

  lemma StopGoesOn(w: Worker)
    requires ShutdownMoves(w) == w && Inv(w) && StagesOwe(w) && !w.host.start.PENDING? && !w.app.preflight.PENDING?
    requires w.host.stop.HOST_RUNS? || w.host.stop.HOST_STOPPED?
    requires AllCalled(w.app.dispatchers) ==> AllPrepared(w.app.dispatchers) || SomePrepareFailed(w.app.dispatchers)
    requires AllAsked(w.app.dispatchers) ==> AllStopped(w.app.dispatchers) || SomeStopFailed(w.app.dispatchers)
    ensures w.app.stop in {STOP_IDLE, STOP_OVER, STOP_FAILED}
  {
    hide MovedOk, AllCalled, AllAsked, AllPrepared, SomePrepareFailed, AllStopped, SomeStopFailed, HostShutdown, StopsCalled;
    AbortedMeans(w.host, w.chain, w.readyAllowed);
  }

  lemma RestingStart(w: Worker)
    requires Resting(w) && Owed(w) && Leaving(w) && Inv(w)
    ensures w.app.start in {START_IDLE, START_OVER}
  {
    hide Inv, Answered, ReadyAsked, AllCalled, AllAsked, AllPrepared, SomePrepareFailed, AllStopped, SomeStopFailed, StartMoves;
    RestingStop(w);
    ChainParts(w);
    RestingHost(w);
    RestingPromises(w);
    Decided(w.app.dispatchers);
    assert Next(w, StartContinues(None)) == StartMoves(w, None);
    StartGoesOn(w);
  }

  lemma StartGoesOn(w: Worker)
    requires StartMoves(w, None) == w && Inv(w) && StagesOwe(w) && Leaving(w)
    requires !w.host.start.PENDING? && !w.app.preflight.PENDING? && !w.app.start.AWAITS_SERVER?
    requires !w.host.ready.READY_AWAITS_START? && !w.host.ready.READY_WRITING?
    requires w.host.stop.HOST_RUNS? || w.host.stop.HOST_STOPPED?
    requires w.app.stop in {STOP_IDLE, STOP_OVER, STOP_FAILED}
    requires AllCalled(w.app.dispatchers) ==> AllPrepared(w.app.dispatchers) || SomePrepareFailed(w.app.dispatchers)
    requires AllAsked(w.app.dispatchers) ==> AllStopped(w.app.dispatchers) || SomeStopFailed(w.app.dispatchers)
    ensures w.app.start in {START_IDLE, START_OVER}
  {
    hide MovedOk, DispatchersOk, StopOk, AllCalled, AllAsked, AllPrepared, SomePrepareFailed, AllStopped, SomeStopFailed;
    hide Shutdown, HostShutDown, StopsCalled, PreparesCalled, AllActivated;
    AbortedMeans(w.host, w.chain, w.readyAllowed);
    UpAndReady(w);
    ShutdownKeepsStart(w);
  }

  lemma ShutdownKeepsStart(w: Worker)
    ensures forall v :: Shutdown(v).app.start == v.app.start
    ensures forall v :: HostShutDown(v).app == v.app
  {
    hide HostShutdown;
  }

  /** A worker at rest has come through its start: either it serves, with READY asked for and every dispatcher prepared
      and activated and the next beat due, or it never got its health server up, or it was told to leave.  And a worker told
      to leave has disconnected, unless a dispatcher failed to stop. */
  lemma NothingGetsStuck(dispatchers: nat, events: seq<Event>)
    requires Resting(After(dispatchers, events))
    ensures var w := After(dispatchers, events); var ds := w.app.dispatchers;
            && w.app.start in {START_IDLE, START_OVER}
            && (w.draining ==> w.app.disconnected || exists i :: 0 <= i < |ds| && ds[i].stop.REJECTED?)
            && (!w.draining && w.app.start.START_OVER? && !w.host.start.NOT_STARTED? ==>
                 READY in w.chain.attempted && w.host.timer && forall i :: 0 <= i < |ds| ==> ds[i].prepare.RESOLVED? && ds[i].activated)
  {
    hide After, Next, Answered;
    var w := After(dispatchers, events);
    AlwaysOwed(dispatchers, events);
    RestingStop(w);
    RestingStart(w);
    if w.draining {
      DisconnectedOrFailed(w);
    } else if w.app.start.START_OVER? && !w.host.start.NOT_STARTED? {
      StillBeating(w);
    }
  }

  lemma StillBeating(w: Worker)
    requires Resting(w) && Inv(w) && Owed(w) && !w.draining && w.app.start.START_OVER? && !w.host.start.NOT_STARTED?
    ensures w.host.timer
  {
    hide Next, Answered, MovedOk, DispatchersOk, StopOk;
    ChainParts(w);
    RestingHost(w);
  }

  lemma DisconnectedOrFailed(w: Worker)
    requires Inv(w) && StagesOwe(w) && Leaving(w) && w.draining && w.app.stop in {STOP_IDLE, STOP_OVER, STOP_FAILED}
    ensures w.app.disconnected || SomeStopFailed(w.app.dispatchers)
  {
  }

  // ----- what the beats report -----------------------------------------------------------------------------

  /** A beat asks for the status of the moment; one that fails degrades the worker, the next that gets through asks for READY
      again, and a worker that is stopping asks for nothing. */
  lemma BeatsReport(dispatchers: nat, events: seq<Event>, ok: bool)
    ensures var w := After(dispatchers, events); var v := Next(w, BeatContinues(ok)); var h, c := w.host, w.chain;
            && v.app == w.app && v.draining == w.draining
            && (h.aborted ==> v.chain.writes == c.writes && v.host.status == STOPPING)
            && (!h.aborted && h.beat == BEAT_QUEUED ==>
                 v.chain.writes == c.writes + [Write(BEAT, h.status)] && v.host == h.(beat := BEAT_WRITING))
            && (!h.aborted && h.beat == BEAT_WRITING && BEAT in c.delivered && !c.delivered[BEAT] ==>
                 v.chain.writes == c.writes && v.host.status == DEGRADED && v.host.unhealthy)
            && (!h.aborted && h.beat == BEAT_WRITING && BEAT in c.delivered && c.delivered[BEAT] && h.unhealthy && h.status == DEGRADED ==>
                 v.chain.writes == c.writes + [Write(RECOVERY, READY)] && v.host.status == READY && !v.host.unhealthy)
            && (!h.aborted && h.beat == BEAT_RECOVERING && RECOVERY in c.delivered && !c.delivered[RECOVERY] ==>
                 v.chain.writes == c.writes && v.host.status == DEGRADED && v.host.unhealthy)
  {
    hide Inv, Owed, After;
    AlwaysOwed(dispatchers, events);
    HostFacts(After(dispatchers, events));
  }

  lemma HostFacts(w: Worker)
    requires Inv(w) && Owed(w)
    ensures w.host.loopStopped <==> w.host.aborted
    ensures w.host.status.STOPPING? <==> w.host.aborted
  {
  }
}
