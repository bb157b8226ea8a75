/** The queue of keyframe jobs: discovery jobs look for videos, generation jobs work on one video each.  Every
    transaction takes the same advisory lock, so each is one step. */
module KeyframeQueue {
  import opened Prelude
  import Ops = QueueOperations

  datatype Kind = DISCOVERY | GENERATION

  datatype Stage = PENDING | RUNNING | PAUSING | PAUSED | CANCELLING | COMPLETED | FAILED | CANCELLED

  datatype Mode = AUTO_INCREMENTAL | MANUAL_INCREMENTAL | MANUAL_FORCE

  datatype KeyframeJob = KeyframeJob(
    kind: Kind, stage: Stage, image: Option<int>, mode: Mode, priority: int, availableAt: Option<int>, createdAt: int, attempt: int)

  type Jobs = map<nat, KeyframeJob>

  const CAPACITY := 100
  const AUTOMATIC_CAPACITY := 90
  const MANUAL_PRIORITY := 10
  const AUTOMATIC_PRIORITY := 100

  predicate Active(job: KeyframeJob) {
    job.kind.GENERATION? && !job.stage.COMPLETED? && !job.stage.FAILED? && !job.stage.CANCELLED?
  }

  predicate Automatic(job: KeyframeJob) { Active(job) && job.mode.AUTO_INCREMENTAL? }

  predicate Working(job: KeyframeJob) { job.stage.RUNNING? || job.stage.PAUSING? }

  function ActiveJobs(jobs: Jobs): set<nat> { set id | id in jobs && Active(jobs[id]) }

  function AutomaticJobs(jobs: Jobs): set<nat> { set id | id in jobs && Automatic(jobs[id]) }

  function ActiveFor(jobs: Jobs, image: int): set<nat> {
    set id | id in jobs && Active(jobs[id]) && jobs[id].image == Some(image)
  }

  datatype Outcome<+T> = Outcome(jobs: Jobs, reply: T)

  /** The queue is full, with the limit it names. */
  datatype Enqueued = Queued(id: nat, reused: bool) | Full(limit: int)

  // ----- the transactions ----------------------------------------------------------------------------------

  function Enqueue(jobs: Jobs, id: nat, image: int, mode: Mode, now: int): Outcome<Enqueued>
    requires id !in jobs
  {
    var manual, existing := !mode.AUTO_INCREMENTAL?, ActiveFor(jobs, image);
    var priority := if manual then MANUAL_PRIORITY else AUTOMATIC_PRIORITY;
    if existing != {} then
      var found := Ops.Least(existing);
      if manual && jobs[found].stage.PENDING? && jobs[found].priority > priority
      then Outcome(jobs[found := jobs[found].(priority := priority, mode := mode, availableAt := None)], Queued(found, true))
      else Outcome(jobs, Queued(found, true))
    else
      var limit := if manual then CAPACITY else AUTOMATIC_CAPACITY;
      var used := if manual then |ActiveJobs(jobs)| else |AutomaticJobs(jobs)|;
      if |ActiveJobs(jobs)| >= CAPACITY || used >= limit then Outcome(jobs, Full(limit))
      else Outcome(jobs[id := KeyframeJob(GENERATION, PENDING, Some(image), mode, priority, Some(now), now, 0)], Queued(id, false))
  }

  /** `retryVideoKeyframeJob`: None when there is no such generation job. */
  function Retry(jobs: Jobs, id: nat): Outcome<Option<Enqueued>> {
    if id !in jobs || !jobs[id].kind.GENERATION? then Outcome(jobs, None)
    else if !jobs[id].stage.FAILED? && !jobs[id].stage.CANCELLED? then Outcome(jobs, Some(Queued(id, true)))
    else if jobs[id].image.Some? && ActiveFor(jobs, jobs[id].image.value) - {id} != {} then
      Outcome(jobs, Some(Queued(Ops.Least(ActiveFor(jobs, jobs[id].image.value) - {id}), true)))
    else if |ActiveJobs(jobs)| >= CAPACITY then Outcome(jobs, Some(Full(CAPACITY)))
    else
      Outcome(jobs[id := jobs[id].(stage := PENDING, attempt := 0, availableAt := None, priority := MANUAL_PRIORITY,
                                   mode := MANUAL_FORCE)],
              Some(Queued(id, false)))
  }

  function Busy(jobs: Jobs): set<nat> {
    set id | id in jobs && (Working(jobs[id]) || jobs[id].stage.CANCELLING?)
  }

  /** Priority, then the time a job becomes available with jobs that were never delayed last, creation time, id. */
  function Order(id: nat, job: KeyframeJob): Ops.Rank {
    Ops.Rank(Some(job.priority), if job.availableAt.Some? then 0 else 1, job.availableAt, job.createdAt, id)
  }

  function Due(jobs: Jobs, now: int): (ranks: map<nat, Ops.Rank>)
    ensures Ops.OwnRanks(ranks)
  {
    map id | id in jobs && jobs[id].stage.PENDING? && (jobs[id].availableAt.None? || jobs[id].availableAt.value <= now)
      :: Order(id, jobs[id])
  }

  function Claim(jobs: Jobs, now: int, maintenanceBusy: bool): Outcome<Option<nat>> {
    if Busy(jobs) != {} || maintenanceBusy || Due(jobs, now) == map[] then Outcome(jobs, None)
    else
      var next := Ops.First(Due(jobs, now));
      Outcome(jobs[next := jobs[next].(stage := RUNNING, availableAt := None, attempt := jobs[next].attempt + 1)], Some(next))
  }

  datatype Action = PAUSE | RESUME | CANCEL

  /** `controlVideoKeyframeJob` up to the cleanup that follows a cancelled waiting job. */
  function Control(jobs: Jobs, id: nat, action: Action): Jobs {
    if id !in jobs || !jobs[id].kind.GENERATION? then jobs
    else
      match (action, jobs[id].stage)
      case (PAUSE, PENDING) => jobs[id := jobs[id].(stage := PAUSED)]
      case (PAUSE, RUNNING) => jobs[id := jobs[id].(stage := PAUSING)]
      case (RESUME, PAUSED) => jobs[id := jobs[id].(stage := PENDING, availableAt := None)]
      case (CANCEL, PENDING) => jobs[id := jobs[id].(stage := CANCELLING)]
      case (CANCEL, PAUSED) => jobs[id := jobs[id].(stage := CANCELLING)]
      case (CANCEL, RUNNING) => jobs[id := jobs[id].(stage := CANCELLING)]
      case (CANCEL, PAUSING) => jobs[id := jobs[id].(stage := CANCELLING)]
      case _ => jobs
  }

  /** The end of an attempt as its worker, or the recovery of a dead worker, reports it. */
  datatype Report =
    | Completed
    | Failed(recoverable: bool, retryAt: int)
    | PauseAcknowledged
    | CancelFinished
    | ShutDown
    | Deferred(retryAt: int)

  predicate Cancellable(stage: Stage) { stage.CANCELLING? || stage.RUNNING? || stage.PAUSING? || stage.PAUSED? }

  function ReportGeneration(job: KeyframeJob, report: Report): KeyframeJob {
    match report
    case Completed => if job.stage.RUNNING? then job.(stage := COMPLETED) else job
    case Failed(recoverable, retryAt) =>
      if job.stage.PAUSING? then job.(stage := PAUSED)
      else if job.stage.CANCELLING? then job.(stage := CANCELLED)
      else if !job.stage.RUNNING? then job
      else if recoverable && job.attempt < 3 then job.(stage := PENDING, availableAt := Some(retryAt))
      else job.(stage := FAILED)
    case PauseAcknowledged => if job.stage.PAUSING? then job.(stage := PAUSED) else job
    case CancelFinished => if Cancellable(job.stage) then job.(stage := CANCELLED) else job
    case ShutDown =>
      if job.stage.CANCELLING? then job.(stage := CANCELLED)
      else if job.stage.PAUSING? then job.(stage := PAUSED)
      else if job.stage.RUNNING? then job.(stage := PENDING, availableAt := None)
      else job
    case Deferred(_) => job
  }

  function ReportDiscovery(job: KeyframeJob, report: Report): KeyframeJob {
    if !job.stage.RUNNING? then job else
    match report
    case Completed => job.(stage := COMPLETED)
    case Failed(recoverable, retryAt) =>
      if recoverable && job.attempt < 3 then job.(stage := PENDING, availableAt := Some(retryAt)) else job.(stage := FAILED)
    case ShutDown => job.(stage := PENDING, availableAt := None)
    case Deferred(retryAt) => job.(stage := PENDING, availableAt := Some(retryAt), attempt := job.attempt - 1)
    case PauseAcknowledged => job
    case CancelFinished => job
  }

  /** A report counts only for the attempt it is about. */
  function Finish(jobs: Jobs, id: nat, attempt: int, report: Report): Jobs {
    if id !in jobs || jobs[id].attempt != attempt then jobs
    else if jobs[id].kind.GENERATION? then jobs[id := ReportGeneration(jobs[id], report)]
    else jobs[id := ReportDiscovery(jobs[id], report)]
  }

  function StartDiscovery(jobs: Jobs, id: nat, mode: Mode, now: int): Jobs
    requires id !in jobs
  {
    jobs[id := KeyframeJob(DISCOVERY, PENDING, None, mode,
                           if mode.AUTO_INCREMENTAL? then AUTOMATIC_PRIORITY else MANUAL_PRIORITY, Some(now), now, 0)]
  }

  // ----- what every run keeps ------------------------------------------------------------------------------------

  datatype Op =
    | OpEnqueue(id: nat, image: int, mode: Mode, now: int)
    | OpRetry(id: nat)
    | OpClaim(now: int, maintenanceBusy: bool)
    | OpControl(id: nat, action: Action)
    | OpFinish(id: nat, attempt: int, report: Report)
    | OpDiscover(id: nat, mode: Mode, now: int)

  /** New jobs get new ids; a step that would reuse one does not happen. */
  function Step(jobs: Jobs, op: Op): Jobs {
    match op
    case OpEnqueue(id, image, mode, now) => if id in jobs then jobs else Enqueue(jobs, id, image, mode, now).jobs
    case OpRetry(id) => Retry(jobs, id).jobs
    case OpClaim(now, busy) => Claim(jobs, now, busy).jobs
    case OpControl(id, action) => Control(jobs, id, action)
    case OpFinish(id, attempt, report) => Finish(jobs, id, attempt, report)
    case OpDiscover(id, mode, now) => if id in jobs then jobs else StartDiscovery(jobs, id, mode, now)
  }

  function Run(ops: seq<Op>): Jobs {
    if ops == [] then map[] else Step(Run(ops[..|ops| - 1]), ops[|ops| - 1])
  }

  ghost predicate OnePerImage(jobs: Jobs) {
    forall a, b :: a in jobs && b in jobs && Active(jobs[a]) && Active(jobs[b]) && jobs[a].image.Some? && jobs[a].image == jobs[b].image
      ==> a == b
  }

  ghost predicate OneWorking(jobs: Jobs) {
    forall a, b :: a in jobs && b in jobs && Working(jobs[a]) && Working(jobs[b]) ==> a == b
  }

  ghost predicate Bounded(jobs: Jobs) {
    |ActiveJobs(jobs)| <= CAPACITY && |AutomaticJobs(jobs)| <= AUTOMATIC_CAPACITY && OnePerImage(jobs) && OneWorking(jobs)
  }

  lemma {:induction false} SubsetIsSmaller(a: set<nat>, b: set<nat>)
    requires a <= b
    ensures |a| <= |b|
    decreases |a|
  {
    if a != {} {
      var x :| x in a;
      SubsetIsSmaller(a - {x}, b - {x});
    }
  }

  /** A change that makes no job active, automatic or working that was not. */
  predicate Calmer(job: KeyframeJob, later: KeyframeJob) {
    && (Active(later) ==> Active(job) && later.image == job.image)
    && (Automatic(later) ==> Automatic(job))
    && (Working(later) ==> Working(job))
  }

  lemma CalmerKeeps(jobs: Jobs, id: nat, later: KeyframeJob)
    requires Bounded(jobs) && id in jobs && Calmer(jobs[id], later)
    ensures Bounded(jobs[id := later])
  {
    SubsetIsSmaller(ActiveJobs(jobs[id := later]), ActiveJobs(jobs));
    SubsetIsSmaller(AutomaticJobs(jobs[id := later]), AutomaticJobs(jobs));
  }

  /** A job that becomes active where there is room, for an image no active job is for. */
  lemma RoomForOneMore(jobs: Jobs, id: nat, later: KeyframeJob)
    requires Bounded(jobs) && !Working(later)
    requires Active(later) ==> |ActiveJobs(jobs)| < CAPACITY
    requires Automatic(later) ==> |AutomaticJobs(jobs)| < AUTOMATIC_CAPACITY
    requires Active(later) && later.image.Some? ==> ActiveFor(jobs, later.image.value) - {id} == {}
    ensures Bounded(jobs[id := later])
  {
    RoomForActive(jobs, id, later);
    RoomForAutomatic(jobs, id, later);
    RoomForImage(jobs, id, later);
    StillOneWorking(jobs, id, later);
  }

  lemma RoomForActive(jobs: Jobs, id: nat, later: KeyframeJob)
    requires |ActiveJobs(jobs)| <= CAPACITY && (Active(later) ==> |ActiveJobs(jobs)| < CAPACITY)
    ensures |ActiveJobs(jobs[id := later])| <= CAPACITY
  {
    hide Active;
    if Active(later) {
      SubsetIsSmaller(ActiveJobs(jobs[id := later]), ActiveJobs(jobs) + {id});
    } else {
      SubsetIsSmaller(ActiveJobs(jobs[id := later]), ActiveJobs(jobs));
    }
  }

  lemma RoomForAutomatic(jobs: Jobs, id: nat, later: KeyframeJob)
    requires |AutomaticJobs(jobs)| <= AUTOMATIC_CAPACITY && (Automatic(later) ==> |AutomaticJobs(jobs)| < AUTOMATIC_CAPACITY)
    ensures |AutomaticJobs(jobs[id := later])| <= AUTOMATIC_CAPACITY
  {
    hide Automatic;
    if Automatic(later) {
      SubsetIsSmaller(AutomaticJobs(jobs[id := later]), AutomaticJobs(jobs) + {id});
    } else {
      SubsetIsSmaller(AutomaticJobs(jobs[id := later]), AutomaticJobs(jobs));
    }
  }

  lemma RoomForImage(jobs: Jobs, id: nat, later: KeyframeJob)
    requires OnePerImage(jobs)
    requires Active(later) && later.image.Some? ==> ActiveFor(jobs, later.image.value) - {id} == {}
    ensures OnePerImage(jobs[id := later])
  {
    hide Active;
    if Active(later) && later.image.Some? {
      forall other | other in jobs && other != id && Active(jobs[other]) ensures jobs[other].image != later.image {
        assert other !in ActiveFor(jobs, later.image.value) - {id};
      }
    }
  }

  lemma StillOneWorking(jobs: Jobs, id: nat, later: KeyframeJob)
    requires OneWorking(jobs) && !Working(later)
    ensures OneWorking(jobs[id := later])
  {
  }

  lemma ClaimKeeps(jobs: Jobs, now: int, maintenanceBusy: bool)
    requires Bounded(jobs)
    ensures Bounded(Claim(jobs, now, maintenanceBusy).jobs)
  {
    if Busy(jobs) == {} && !maintenanceBusy && Due(jobs, now) != map[] {
      var next := Ops.First(Due(jobs, now));
      var later := jobs[next].(stage := RUNNING, availableAt := None, attempt := jobs[next].attempt + 1);
      ClaimKeepsBounds(jobs, next, later);
    }
  }

  lemma ClaimKeepsBounds(jobs: Jobs, next: nat, later: KeyframeJob)
    requires Bounded(jobs) && next in jobs && jobs[next].stage.PENDING? && Busy(jobs) == {}
    requires later == jobs[next].(stage := RUNNING, availableAt := None, attempt := jobs[next].attempt + 1)
    ensures Bounded(jobs[next := later])
  {
    SubsetIsSmaller(ActiveJobs(jobs[next := later]), ActiveJobs(jobs));
    SubsetIsSmaller(AutomaticJobs(jobs[next := later]), AutomaticJobs(jobs));
    assert forall id :: id in jobs && Working(jobs[id]) ==> id in Busy(jobs);
  }

  lemma EnqueueKeeps(jobs: Jobs, id: nat, image: int, mode: Mode, now: int)
    requires Bounded(jobs) && id !in jobs
    ensures Bounded(Enqueue(jobs, id, image, mode, now).jobs)
  {
    hide Bounded;
    var existing := ActiveFor(jobs, image);
    if existing != {} {
      var found := Ops.Least(existing);
      assert found in existing;
      if Enqueue(jobs, id, image, mode, now).jobs != jobs {
        CalmerKeeps(jobs, found, jobs[found].(priority := MANUAL_PRIORITY, mode := mode, availableAt := None));
      }
    } else if Enqueue(jobs, id, image, mode, now).reply.Queued? {
      RoomForOneMore(jobs, id, Enqueue(jobs, id, image, mode, now).jobs[id]);
    }
  }

  lemma RetryKeeps(jobs: Jobs, id: nat)
    requires Bounded(jobs)
    ensures Bounded(Retry(jobs, id).jobs)
  {
    hide Bounded;
    if id in jobs && Retry(jobs, id).reply == Some(Queued(id, false)) { RoomForOneMore(jobs, id, Retry(jobs, id).jobs[id]); }
  }

  lemma FinishKeeps(jobs: Jobs, id: nat, attempt: int, report: Report)
    requires Bounded(jobs)
    ensures Bounded(Finish(jobs, id, attempt, report))
  {
    hide Bounded;
    if id in jobs && jobs[id].attempt == attempt { CalmerKeeps(jobs, id, Finish(jobs, id, attempt, report)[id]); }
  }

  lemma ControlKeeps(jobs: Jobs, id: nat, action: Action)
    requires Bounded(jobs)
    ensures Bounded(Control(jobs, id, action))
  {
    hide Bounded;
    if id in jobs && Control(jobs, id, action) != jobs { CalmerKeeps(jobs, id, Control(jobs, id, action)[id]); }
  }

  lemma StepKeeps(jobs: Jobs, op: Op)
    requires Bounded(jobs)
    ensures Bounded(Step(jobs, op))
  {
    hide Bounded, Enqueue, Retry, Claim, Control, Finish;
    match op
    case OpEnqueue(id, image, mode, now) => if id !in jobs { EnqueueKeeps(jobs, id, image, mode, now); }
    case OpRetry(id) => RetryKeeps(jobs, id);
    case OpClaim(now, busy) => ClaimKeeps(jobs, now, busy);
    case OpControl(id, action) => ControlKeeps(jobs, id, action);
    case OpFinish(id, attempt, report) => FinishKeeps(jobs, id, attempt, report);
    case OpDiscover(id, mode, now) => if id !in jobs { RoomForOneMore(jobs, id, StartDiscovery(jobs, id, mode, now)[id]); }
  }

  lemma {:induction false} RunIsBounded(ops: seq<Op>)
    ensures Bounded(Run(ops))
    decreases |ops|
  {
    hide Bounded, Step;
    if ops == [] { EmptyIsBounded(); } else {
      RunIsBounded(ops[..|ops| - 1]);
      StepKeeps(Run(ops[..|ops| - 1]), ops[|ops| - 1]);
    }
  }

  lemma EmptyIsBounded()
    ensures Bounded(map[])
  {
    assert ActiveJobs(map[]) == {} && AutomaticJobs(map[]) == {};
  }

  /** Automatic jobs alone never keep a manual request out: ten places are kept for those. */
  lemma ManualRequestsHaveRoom(ops: seq<Op>, id: nat, image: int, mode: Mode, now: int)
    requires id !in Run(ops) && !mode.AUTO_INCREMENTAL? && ActiveJobs(Run(ops)) == AutomaticJobs(Run(ops))
    ensures Enqueue(Run(ops), id, image, mode, now).reply.Queued?
  {
    RunIsBounded(ops);
  }

  /** Deferring a claimed discovery job gives back the attempt its claim took. */
  lemma DeferralKeepsAttempt(jobs: Jobs, now: int, busy: bool, retryAt: int)
    requires Claim(jobs, now, busy).reply.Some? && jobs[Claim(jobs, now, busy).reply.value].kind.DISCOVERY?
    ensures var claimed := Claim(jobs, now, busy); var id := claimed.reply.value;
            var later := Finish(claimed.jobs, id, claimed.jobs[id].attempt, Deferred(retryAt));
            later == jobs[id := jobs[id].(availableAt := Some(retryAt))]
  {
  }

  // ----- the same in columns -------------------------------------------------------------------------------------

  /** A generation job that has not ended. */
  predicate Open(job: KeyframeJob) { job.kind == GENERATION && job.stage in {PENDING, RUNNING, PAUSING, PAUSED, CANCELLING} }

  function OpenJobs(jobs: Jobs): set<nat> { set id | id in jobs && Open(jobs[id]) }

  function OpenAutomatic(jobs: Jobs): set<nat> { set id | id in jobs && Open(jobs[id]) && jobs[id].mode == AUTO_INCREMENTAL }

  function OpenFor(jobs: Jobs, image: int): set<nat> { set id | id in jobs && Open(jobs[id]) && jobs[id].image == Some(image) }

  lemma OpenIsActive(jobs: Jobs)
    ensures ActiveJobs(jobs) == OpenJobs(jobs) && AutomaticJobs(jobs) == OpenAutomatic(jobs)
    ensures forall image :: ActiveFor(jobs, image) == OpenFor(jobs, image)
  {
    forall id | id in jobs ensures Active(jobs[id]) <==> Open(jobs[id]) {}
  }

  /** At most 100 open generation jobs, at most 90 of them automatic, at most one for an image, and at most one job of either
      kind running or pausing. */
  ghost predicate WithinLimits(jobs: Jobs) {
    && |OpenJobs(jobs)| <= 100 && |OpenAutomatic(jobs)| <= 90
    && (forall a, b, image :: a in OpenFor(jobs, image) && b in OpenFor(jobs, image) ==> a == b)
    && (forall a, b :: a in jobs && b in jobs && jobs[a].stage in {RUNNING, PAUSING} && jobs[b].stage in {RUNNING, PAUSING} ==> a == b)
  }

  lemma BoundedIsWithinLimits(jobs: Jobs)
    ensures Bounded(jobs) <==> WithinLimits(jobs)
  {
    OpenIsActive(jobs);
    if WithinLimits(jobs) {
      forall a, b | a in jobs && b in jobs && Active(jobs[a]) && Active(jobs[b]) && jobs[a].image.Some? && jobs[a].image == jobs[b].image
        ensures a == b
      {
        assert a in OpenFor(jobs, jobs[a].image.value) && b in OpenFor(jobs, jobs[a].image.value);
      }
    }
  }

  /** Every run stays within the limits. */
  lemma QueueStaysBounded(ops: seq<Op>)
    ensures WithinLimits(Run(ops))
  {
    hide *;
    RunIsBounded(ops);
    BoundedIsWithinLimits(Run(ops));
  }

  // ----- what a caller is told -----------------------------------------------------------------------------------

  ghost predicate OthersSame(jobs: Jobs, later: Jobs, id: nat) {
    && later.Keys == jobs.Keys + {id}
    && forall other :: other in jobs && other != id ==> later[other] == jobs[other]
  }

  /** The queue admits no further request of this kind. */
  ghost predicate NoRoom(jobs: Jobs, mode: Mode) {
    |OpenJobs(jobs)| >= 100 || (mode == AUTO_INCREMENTAL && |OpenAutomatic(jobs)| >= 90)
  }

  /** A request is answered with the one open job of its image, a new one only when there was none; it is turned away
      exactly when there is none and no room.  A manual request takes over a less urgent job that still waits, and any other
      job is left as it is. */
  ghost predicate EnqueueMeans(jobs: Jobs, id: nat, image: int, mode: Mode, now: int, out: Outcome<Enqueued>) {
    && (out.reply.Full? <==> OpenFor(jobs, image) == {} && NoRoom(jobs, mode))
    && (out.reply.Full? ==> out.jobs == jobs && out.reply.limit == (if mode == AUTO_INCREMENTAL then 90 else 100))
    && (out.reply.Queued? ==>
          && OpenFor(out.jobs, image) == {out.reply.id} && OthersSame(jobs, out.jobs, out.reply.id)
          && (out.reply.reused <==> OpenFor(jobs, image) != {})
          && (out.reply.reused ==>
                && out.reply.id in OpenFor(jobs, image)
                && var job, later := jobs[out.reply.id], out.jobs[out.reply.id];
                   if mode != AUTO_INCREMENTAL && job.stage == PENDING && job.priority > 10
                   then later == job.(priority := 10, mode := mode, availableAt := None) else later == job)
          && (!out.reply.reused ==>
                && out.reply.id == id
                && out.jobs[id] == KeyframeJob(GENERATION, PENDING, Some(image), mode, if mode == AUTO_INCREMENTAL then 100 else 10,
                                               Some(now), now, 0)))
    && WithinLimits(out.jobs)
  }

  lemma EnqueueIsDecided(jobs: Jobs, id: nat, image: int, mode: Mode, now: int)
    requires WithinLimits(jobs) && id !in jobs
    ensures EnqueueMeans(jobs, id, image, mode, now, Enqueue(jobs, id, image, mode, now))
  {
    hide Bounded, WithinLimits, Active, Automatic, Open;
    var out := Enqueue(jobs, id, image, mode, now);
    BoundedIsWithinLimits(jobs);
    BoundedIsWithinLimits(out.jobs);
    OpenIsActive(jobs);
    OpenIsActive(out.jobs);
    EnqueueKeeps(jobs, id, image, mode, now);
    OneForImage(jobs, image);
    OneForImage(out.jobs, image);
    EnqueueStaysActive(jobs, id, image, mode, now);
    AutomaticFitsCapacity(jobs);
  }

  lemma AutomaticFitsCapacity(jobs: Jobs)
    ensures AutomaticJobs(jobs) <= ActiveJobs(jobs)
  {
  }

  lemma OneForImage(jobs: Jobs, image: int)
    requires Bounded(jobs)
    ensures forall a, b :: a in ActiveFor(jobs, image) && b in ActiveFor(jobs, image) ==> a == b
  {
  }

  lemma EnqueueStaysActive(jobs: Jobs, id: nat, image: int, mode: Mode, now: int)
    requires id !in jobs
    ensures var out := Enqueue(jobs, id, image, mode, now); out.reply.Queued? ==> out.reply.id in ActiveFor(out.jobs, image)
  {
  }

  /** Asking again for the same image is answered with the same job. */
  lemma RequestIsIdempotent(jobs: Jobs, id: nat, image: int, mode: Mode, now: int, id2: nat, mode2: Mode, now2: int)
    requires WithinLimits(jobs) && id !in jobs && Enqueue(jobs, id, image, mode, now).reply.Queued?
    requires id2 !in Enqueue(jobs, id, image, mode, now).jobs
    ensures var first := Enqueue(jobs, id, image, mode, now);
            Enqueue(first.jobs, id2, image, mode2, now2).reply == Queued(first.reply.id, true)
  {
    hide WithinLimits, Enqueue, Open;
    var first := Enqueue(jobs, id, image, mode, now);
    EnqueueIsDecided(jobs, id, image, mode, now);
    EnqueueIsDecided(first.jobs, id2, image, mode2, now2);
  }

  /** An ended job is put back unless its image has an open one or the queue is full, as a manual one with all its attempts;
      nothing else is changed. */
  ghost predicate RetryMeans(jobs: Jobs, id: nat, out: Outcome<Option<Enqueued>>) {
    && (out.reply.None? <==> id !in jobs || jobs[id].kind != GENERATION)
    && (out.jobs != jobs ==> out.reply == Some(Queued(id, false)))
    && (id in jobs && jobs[id].kind == GENERATION ==>
          var job := jobs[id];
          var ended := job.stage in {FAILED, CANCELLED};
          var siblings := if job.image.Some? then OpenFor(jobs, job.image.value) else {};
          && (!ended ==> out.reply == Some(Queued(id, true)))
          && (ended && siblings != {} ==>
                out.reply.Some? && out.reply.value.Queued? && out.reply.value.reused && siblings == {out.reply.value.id})
          && (ended && siblings == {} && |OpenJobs(jobs)| >= 100 ==> out.reply == Some(Full(100)))
          && (ended && siblings == {} && |OpenJobs(jobs)| < 100 ==>
                && out.reply == Some(Queued(id, false)) && OthersSame(jobs, out.jobs, id)
                && out.jobs[id] == job.(stage := PENDING, attempt := 0, availableAt := None, priority := 10, mode := MANUAL_FORCE)))
    && WithinLimits(out.jobs)
  }

  lemma RetryIsDecided(jobs: Jobs, id: nat)
    requires WithinLimits(jobs)
    ensures RetryMeans(jobs, id, Retry(jobs, id))
  {
    hide Bounded, WithinLimits, Automatic;
    BoundedIsWithinLimits(jobs);
    BoundedIsWithinLimits(Retry(jobs, id).jobs);
    OpenIsActive(jobs);
    RetryKeeps(jobs, id);
    if id in jobs && jobs[id].image.Some? {
      OneForImage(jobs, jobs[id].image.value);
      assert !Active(jobs[id]) ==> ActiveFor(jobs, jobs[id].image.value) - {id} == ActiveFor(jobs, jobs[id].image.value);
    }
  }

  /** A job of either kind that waits and whose time has come. */
  predicate DueNow(job: KeyframeJob, now: int) {
    job.stage == PENDING && (job.availableAt.None? || job.availableAt.value <= now)
  }

  ghost predicate SomeAtWork(jobs: Jobs) { exists id :: id in jobs && jobs[id].stage in {RUNNING, PAUSING, CANCELLING} }

  /** Lower number first, then the earlier date with undated jobs last, then the older job, then the smaller id. */
  predicate TakenBefore(a: KeyframeJob, i: nat, b: KeyframeJob, j: nat) {
    || a.priority < b.priority
    || (a.priority == b.priority && a.availableAt.Some? && (b.availableAt.None? || a.availableAt.value < b.availableAt.value))
    || (a.priority == b.priority && a.availableAt == b.availableAt && (a.createdAt < b.createdAt || (a.createdAt == b.createdAt && i < j)))
  }

  lemma TakingOrderIs(a: KeyframeJob, i: nat, b: KeyframeJob, j: nat)
    ensures Ops.Before(Order(i, a), Order(j, b)) <==> TakenBefore(a, i, b, j)
  {
  }

  /** A claim finds nothing exactly when something is at work, maintenance is, or nothing is due; else it takes the due job
      that comes before every other, and that is then the only one at work. */
  ghost predicate ClaimMeans(jobs: Jobs, now: int, maintenanceBusy: bool, out: Outcome<Option<nat>>) {
    && (out.reply.None? <==> maintenanceBusy || SomeAtWork(jobs) || !exists id :: id in jobs && DueNow(jobs[id], now))
    && (out.reply.None? ==> out.jobs == jobs)
    && (out.reply.Some? ==>
          && var id := out.reply.value;
          && id in jobs && DueNow(jobs[id], now) && OthersSame(jobs, out.jobs, id)
          && out.jobs[id] == jobs[id].(stage := RUNNING, availableAt := None, attempt := jobs[id].attempt + 1)
          && (forall other :: other in jobs && other != id && DueNow(jobs[other], now) ==> TakenBefore(jobs[id], id, jobs[other], other))
          && (forall other :: other in out.jobs && out.jobs[other].stage in {RUNNING, PAUSING, CANCELLING} ==> other == id))
    && WithinLimits(out.jobs)
  }

  lemma ClaimIsDecided(jobs: Jobs, now: int, maintenanceBusy: bool)
    requires WithinLimits(jobs)
    ensures ClaimMeans(jobs, now, maintenanceBusy, Claim(jobs, now, maintenanceBusy))
  {
    hide Bounded, WithinLimits, TakenBefore, Ops.Before;
    BoundedIsWithinLimits(jobs);
    BoundedIsWithinLimits(Claim(jobs, now, maintenanceBusy).jobs);
    ClaimKeeps(jobs, now, maintenanceBusy);
    forall id, other | id in jobs && other in jobs
      ensures Ops.Before(Order(id, jobs[id]), Order(other, jobs[other])) <==> TakenBefore(jobs[id], id, jobs[other], other)
    {
      TakingOrderIs(jobs[id], id, jobs[other], other);
    }
    assert forall id :: id in Due(jobs, now) <==> id in jobs && DueNow(jobs[id], now);
    assert SomeAtWork(jobs) <==> Busy(jobs) != {} by {
      if SomeAtWork(jobs) {
        var id :| id in jobs && jobs[id].stage in {RUNNING, PAUSING, CANCELLING};
        assert id in Busy(jobs);
      }
    }
    if id :| id in jobs && DueNow(jobs[id], now) { assert id in Due(jobs, now); }
  }

  /** What control makes of a generation job at each stage; anything else is ignored. */
  predicate ControlledAs(job: KeyframeJob, action: Action, later: KeyframeJob) {
    match job.stage
    case PENDING => later == job.(stage := (match action case PAUSE => PAUSED case CANCEL => CANCELLING case RESUME => PENDING))
    case RUNNING => later == job.(stage := (match action case PAUSE => PAUSING case CANCEL => CANCELLING case RESUME => RUNNING))
    case PAUSING => later == job.(stage := if action == CANCEL then CANCELLING else PAUSING)
    case PAUSED =>
      later == (match action
                case CANCEL => job.(stage := CANCELLING)
                case RESUME => job.(stage := PENDING, availableAt := None)
                case PAUSE => job)
    case _ => later == job
  }

  lemma ControlIsDecided(jobs: Jobs, id: nat, action: Action)
    ensures var later := Control(jobs, id, action);
            if id in jobs && jobs[id].kind == GENERATION
            then OthersSame(jobs, later, id) && ControlledAs(jobs[id], action, later[id])
            else later == jobs
  {
    if id in jobs { assert jobs[id := jobs[id]] == jobs; }
  }

  /** What the report on an attempt makes of its job: a request for pause or cancellation comes first, a recoverable failure
      of the first two attempts is tried again, and what is not at work is left alone. */
  predicate ReportedAs(job: KeyframeJob, report: Report, later: KeyframeJob) {
    match (job.kind, job.stage)
    case (GENERATION, RUNNING) =>
      later == (match report
                case Completed => job.(stage := COMPLETED)
                case Failed(recoverable, at) =>
                  if recoverable && job.attempt <= 2 then job.(stage := PENDING, availableAt := Some(at)) else job.(stage := FAILED)
                case CancelFinished => job.(stage := CANCELLED)
                case ShutDown => job.(stage := PENDING, availableAt := None)
                case PauseAcknowledged => job
                case Deferred(_) => job)
    case (GENERATION, PAUSING) =>
      later == job.(stage := if report == CancelFinished then CANCELLED
                             else if report.Failed? || report == ShutDown || report == PauseAcknowledged then PAUSED else PAUSING)
    case (GENERATION, CANCELLING) =>
      later == job.(stage := if report.Failed? || report == ShutDown || report == CancelFinished then CANCELLED else CANCELLING)
    case (GENERATION, PAUSED) => later == job.(stage := if report == CancelFinished then CANCELLED else PAUSED)
    case (DISCOVERY, RUNNING) =>
      later == (match report
                case Completed => job.(stage := COMPLETED)
                case Failed(recoverable, at) =>
                  if recoverable && job.attempt <= 2 then job.(stage := PENDING, availableAt := Some(at)) else job.(stage := FAILED)
                case ShutDown => job.(stage := PENDING, availableAt := None)
                case Deferred(at) => job.(stage := PENDING, availableAt := Some(at), attempt := job.attempt - 1)
                case PauseAcknowledged => job
                case CancelFinished => job)
    case _ => later == job
  }

  /** A report counts only for the attempt it is about. */
  lemma ReportIsDecided(jobs: Jobs, id: nat, attempt: int, report: Report)
    ensures var later := Finish(jobs, id, attempt, report);
            if id in jobs && jobs[id].attempt == attempt
            then OthersSame(jobs, later, id) && ReportedAs(jobs[id], report, later[id])
            else later == jobs
  {
  }

  // ----- the program ---------------------------------------------------------------------------------------------

  class VideoKeyframeQueue {
    var jobs: Jobs

    constructor ()
      ensures jobs == map[]
    {
      jobs := map[];
    }

    method EnqueueVideoKeyframeJob(id: nat, imageId: int, mode: Mode, now: int) returns (reply: Enqueued)
      requires id !in jobs
      modifies this
      ensures Outcome(jobs, reply) == Enqueue(old(jobs), id, imageId, mode, now)
      ensures old(WithinLimits(jobs)) ==> EnqueueMeans(old(jobs), id, imageId, mode, now, Outcome(jobs, reply))
    {
      hide WithinLimits, EnqueueMeans;
      if WithinLimits(jobs) { EnqueueIsDecided(jobs, id, imageId, mode, now); }
      var manual := !mode.AUTO_INCREMENTAL?;
      var queuePriority := if manual then MANUAL_PRIORITY else AUTOMATIC_PRIORITY;
      var existing := ActiveFor(jobs, imageId);
      if existing != {} {
        var found := Ops.Least(existing);
        if manual && jobs[found].stage.PENDING? && jobs[found].priority > queuePriority {
          jobs := jobs[found := jobs[found].(priority := queuePriority, mode := mode, availableAt := None)];
        }
        return Queued(found, true);
      }
      var activeCount := |ActiveJobs(jobs)|;
      var automaticCount := if manual then 0 else |AutomaticJobs(jobs)|;
      var limit := if manual then CAPACITY else AUTOMATIC_CAPACITY;
      var used := if manual then activeCount else automaticCount;
      if activeCount >= CAPACITY || used >= limit { return Full(limit); }
      jobs := jobs[id := KeyframeJob(GENERATION, PENDING, Some(imageId), mode, queuePriority, Some(now), now, 0)];
      return Queued(id, false);
    }

    method RetryVideoKeyframeJob(id: nat) returns (reply: Option<Enqueued>)
      modifies this
      ensures Outcome(jobs, reply) == Retry(old(jobs), id)
      ensures old(WithinLimits(jobs)) ==> RetryMeans(old(jobs), id, Outcome(jobs, reply))
    {
      hide WithinLimits, RetryMeans;
      if WithinLimits(jobs) { RetryIsDecided(jobs, id); }
      if id !in jobs || !jobs[id].kind.GENERATION? { return None; }
      if !jobs[id].stage.FAILED? && !jobs[id].stage.CANCELLED? { return Some(Queued(id, true)); }
      if jobs[id].image.Some? {
        var others := ActiveFor(jobs, jobs[id].image.value) - {id};
        if others != {} { return Some(Queued(Ops.Least(others), true)); }
      }
      if |ActiveJobs(jobs)| >= CAPACITY { return Some(Full(CAPACITY)); }
      jobs := jobs[id := jobs[id].(stage := PENDING, attempt := 0, availableAt := None, priority := MANUAL_PRIORITY,
                                   mode := MANUAL_FORCE)];
      return Some(Queued(id, false));
    }

    method ClaimNextVideoKeyframeJob(now: int, maintenanceBusy: bool) returns (claimed: Option<nat>)
      modifies this
      ensures Outcome(jobs, claimed) == Claim(old(jobs), now, maintenanceBusy)
      ensures old(WithinLimits(jobs)) ==> ClaimMeans(old(jobs), now, maintenanceBusy, Outcome(jobs, claimed))
    {
      hide WithinLimits, ClaimMeans;
      if WithinLimits(jobs) { ClaimIsDecided(jobs, now, maintenanceBusy); }
      if Busy(jobs) != {} { return None; }
      if maintenanceBusy { return None; }
      var due := Due(jobs, now);
      if due == map[] { return None; }
      var next := Ops.First(due);
      jobs := jobs[next := jobs[next].(stage := RUNNING, availableAt := None, attempt := jobs[next].attempt + 1)];
      return Some(next);
    }
  }
}
