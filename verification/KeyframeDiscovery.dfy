/** The discovery of videos that need keyframes.  A pass over the images stops where the queue is full and is taken up
    later from there; the counts of all passes add up. */
module KeyframeDiscovery {
  import opened Prelude

  datatype QueueReply = NEW_JOB | REUSED_JOB | QUEUE_FULL | QUEUE_ERROR

  /** What looking at one image finds: its path or its state may rule it out, its file may be unreadable, or it
      matches, and then the queue replies. */
  datatype Look = Filtered | UpToDate | Unreadable | Matches(reply: QueueReply)

  datatype Tally = Tally(
    discovered: nat, matched: nat, enqueued: nat, reused: nat, filtered: nat, current: nat, inaccessible: nat)

  datatype Request = Request(previewOnly: bool, afterImageId: Option<int>, accumulated: Option<Tally>)

  datatype PassEnd = Deferred(request: Request) | Finished(tally: Tally) | Aborted

  /** `id > after`, in the order of the table. */
  function Above(images: seq<int>, after: int): seq<int> {
    if images == [] then [] else (if images[0] > after then [images[0]] else []) + Above(images[1..], after)
  }

  function Remaining(images: seq<int>, after: Option<int>): seq<int> {
    if after.None? then images else Above(images, after.value)
  }

  predicate StopsPass(previewOnly: bool, look: Look) { !previewOnly && look.Matches? && look.reply.QUEUE_FULL? }

  function Counted(t: Tally, previewOnly: bool, look: Look): Tally {
    match look
    case Filtered => t.(filtered := t.filtered + 1)
    case UpToDate => t.(current := t.current + 1)
    case Unreadable => t.(inaccessible := t.inaccessible + 1)
    case Matches(reply) =>
      if previewOnly then t.(matched := t.matched + 1)
      else
        match reply
        case NEW_JOB => t.(matched := t.matched + 1, enqueued := t.enqueued + 1)
        case REUSED_JOB => t.(matched := t.matched + 1, reused := t.reused + 1)
        case QUEUE_ERROR => t.(inaccessible := t.inaccessible + 1)
        case QUEUE_FULL => t
  }

  /** The first position from i on where the pass stops, or the end. */
  function StopsAt(images: seq<int>, previewOnly: bool, look: int -> Look, i: nat): (k: nat)
    requires i <= |images|
    ensures i <= k <= |images| && (k < |images| ==> StopsPass(previewOnly, look(images[k])))
    ensures forall j :: i <= j < k ==> !StopsPass(previewOnly, look(images[j]))
    decreases |images| - i
  {
    if i == |images| || StopsPass(previewOnly, look(images[i])) then i else StopsAt(images, previewOnly, look, i + 1)
  }

  function Tallied(t: Tally, images: seq<int>, previewOnly: bool, look: int -> Look, n: nat): Tally
    requires n <= |images|
  {
    if n == 0 then t else Counted(Tallied(t, images, previewOnly, look, n - 1), previewOnly, look(images[n - 1]))
  }

  function StartTally(request: Request, images: seq<int>): Tally {
    if request.accumulated.Some? then request.accumulated.value else Tally(|images|, 0, 0, 0, 0, 0, 0)
  }

  /** One pass over an image table.  It may be given up before any of its images or after the last one, and then
      nothing is stored. */
  function Pass(table: seq<int>, request: Request, look: int -> Look, givenUpAt: Option<nat>): PassEnd {
    var images := Remaining(table, request.afterImageId);
    var stop := StopsAt(images, request.previewOnly, look, 0);
    if givenUpAt.Some? && givenUpAt.value <= stop then Aborted
    else
      var tally := Tallied(StartTally(request, images), images, request.previewOnly, look, stop);
      if stop == |images| then Finished(tally)
      else
        Deferred(request.(afterImageId := if stop > 0 then Some(images[stop - 1]) else request.afterImageId,
                          accumulated := Some(tally)))
  }

  /** `processVideoKeyframeDiscoveryJob` */
  method ProcessDiscovery(table: seq<int>, request: Request, look: int -> Look, givenUpAt: Option<nat>) returns (end: PassEnd)
    ensures end == Pass(table, request, look, givenUpAt)
  {
    var images := Remaining(table, request.afterImageId);
    var result := StartTally(request, images);
    var capacityLimited := 0;
    var index := 0;
    ghost var stop := StopsAt(images, request.previewOnly, look, 0);
    while index < |images|
      invariant 0 <= index <= stop && capacityLimited == 0
      invariant result == Tallied(StartTally(request, images), images, request.previewOnly, look, index)
      invariant !(givenUpAt.Some? && givenUpAt.value < index)
    {
      if givenUpAt == Some(index) { return Aborted; }
      var found := look(images[index]);
      if StopsPass(request.previewOnly, found) {
        capacityLimited := |images| - index;
        break;
      }
      result := Counted(result, request.previewOnly, found);
      index := index + 1;
    }
    if capacityLimited > 0 {
      var processed := |images| - capacityLimited;
      var after := if processed > 0 then Some(images[processed - 1]) else request.afterImageId;
      return Deferred(request.(afterImageId := after, accumulated := Some(result)));
    }
    if givenUpAt == Some(index) { return Aborted; }
    return Finished(result);
  }

  // ----- the counts add up --------------------------------------------------------------------------------------

  predicate Ascending(images: seq<int>) { forall i, j :: 0 <= i < j < |images| ==> images[i] < images[j] }

  function Sum(t: Tally): nat { t.filtered + t.current + t.matched + t.inaccessible }

  /** Of the matches, those that were not only shown in a preview were queued or found queued. */
  predicate MatchesQueued(t: Tally, previewOnly: bool) {
    if previewOnly then t.enqueued == 0 && t.reused == 0 else t.matched == t.enqueued + t.reused
  }

  /** A stored request: nothing counted yet, or every image up to the last one looked at counted once. */
  predicate Sound(table: seq<int>, request: Request) {
    match request.accumulated
    case None => request.afterImageId.None?
    case Some(t) =>
      && !request.previewOnly
      && t.discovered == |table|
      && (request.afterImageId.Some? ==> request.afterImageId.value in table)
      && |Remaining(table, request.afterImageId)| <= |table|
      && Sum(t) == |table| - |Remaining(table, request.afterImageId)|
      && MatchesQueued(t, false)
  }

  lemma {:induction false} TalliedSums(t: Tally, images: seq<int>, previewOnly: bool, look: int -> Look, n: nat)
    requires n <= |images| && forall i :: 0 <= i < n ==> !StopsPass(previewOnly, look(images[i]))
    ensures var later := Tallied(t, images, previewOnly, look, n);
            && Sum(later) == Sum(t) + n && later.discovered == t.discovered
            && (MatchesQueued(t, previewOnly) ==> MatchesQueued(later, previewOnly))
  {
    if n > 0 { TalliedSums(t, images, previewOnly, look, n - 1); }
  }

  lemma {:induction false} AboveSplits(images: seq<int>, k: nat)
    requires Ascending(images) && k < |images|
    ensures Above(images, images[k]) == images[k + 1..]
    decreases |images|
  {
    if k == 0 {
      AboveAll(images[1..], images[0]);
    } else {
      AboveSplits(images[1..], k - 1);
      assert images[1..][k - 1] == images[k];
    }
  }

  lemma {:induction false} AboveAll(images: seq<int>, after: int)
    requires forall i :: 0 <= i < |images| ==> images[i] > after
    ensures Above(images, after) == images
    decreases |images|
  {
    if images != [] { AboveAll(images[1..], after); }
  }

  /** What remains is the end of the table. */
  lemma RemainingIsSuffix(table: seq<int>, after: Option<int>) returns (m: nat)
    requires Ascending(table) && (after.Some? ==> after.value in table)
    ensures m <= |table| && Remaining(table, after) == table[m..]
  {
    if after.None? {
      m := 0;
    } else {
      var k :| 0 <= k < |table| && table[k] == after.value;
      AboveSplits(table, k);
      m := k + 1;
    }
  }

  /** A deferred pass continues exactly where it stopped: the images it counted and the images the next pass will see
      make up those it was given. */
  lemma NextPassContinues(table: seq<int>, request: Request, look: int -> Look, givenUpAt: Option<nat>)
    requires Ascending(table) && Sound(table, request) && Pass(table, request, look, givenUpAt).Deferred?
    ensures var images := Remaining(table, request.afterImageId); var stop := StopsAt(images, request.previewOnly, look, 0);
            var next := Pass(table, request, look, givenUpAt).request;
            && Remaining(table, next.afterImageId) == images[stop..]
            && (next.afterImageId.Some? ==> next.afterImageId.value in table)
  {
    var images := Remaining(table, request.afterImageId);
    var stop := StopsAt(images, request.previewOnly, look, 0);
    var m := RemainingIsSuffix(table, request.afterImageId);
    if stop > 0 {
      assert images[stop - 1] == table[m + stop - 1];
      AboveSplits(table, m + stop - 1);
      assert table[m + stop..] == images[stop..];
    }
  }

  /** A pass keeps the stored request sound, and when it is through, the counts are complete. */
  lemma PassConserves(table: seq<int>, request: Request, look: int -> Look, givenUpAt: Option<nat>)
    requires Ascending(table) && Sound(table, request)
    ensures var end := Pass(table, request, look, givenUpAt);
            && (end.Deferred? ==> Sound(table, end.request) && end.request.previewOnly == request.previewOnly)
            && (end.Finished? ==>
                  && end.tally.discovered == |table| == Sum(end.tally)
                  && MatchesQueued(end.tally, request.previewOnly))
  {
    hide *;
    var images := Remaining(table, request.afterImageId);
    var stop := StopsAt(images, request.previewOnly, look, 0);
    SoundMeans(table, request);
    var m := RemainingIsSuffix(table, request.afterImageId);
    TalliedSums(StartTally(request, images), images, request.previewOnly, look, stop);
    PassMeans(table, request, look, givenUpAt);
    var end := Pass(table, request, look, givenUpAt);
    if end.Deferred? {
      NextPassContinues(table, request, look, givenUpAt);
      PreviewNeverStops(request.previewOnly, look(images[stop]));
      SoundAgain(table, end.request);
    }
  }

  /** What a sound request says about the counts a pass starts with. */
  lemma SoundMeans(table: seq<int>, request: Request)
    requires Sound(table, request)
    ensures var images := Remaining(table, request.afterImageId); var t := StartTally(request, images);
            && (request.afterImageId.Some? ==> request.afterImageId.value in table)
            && t.discovered == |table| && Sum(t) == |table| - |images| && MatchesQueued(t, request.previewOnly)
  {
    hide Above;
  }

  lemma PassMeans(table: seq<int>, request: Request, look: int -> Look, givenUpAt: Option<nat>)
    ensures var images := Remaining(table, request.afterImageId);
            var stop := StopsAt(images, request.previewOnly, look, 0); var end := Pass(table, request, look, givenUpAt);
            var tally := Tallied(StartTally(request, images), images, request.previewOnly, look, stop);
            && (end.Finished? ==> stop == |images| && end.tally == tally)
            && (end.Deferred? ==> stop < |images| && end.request.accumulated == Some(tally)
                                  && end.request.previewOnly == request.previewOnly)
  {
    hide Remaining, StopsAt, Tallied, StartTally;
  }

  lemma SoundAgain(table: seq<int>, request: Request)
    requires request.accumulated.Some? && !request.previewOnly
    requires request.afterImageId.Some? ==> request.afterImageId.value in table
    requires var t := request.accumulated.value;
             && t.discovered == |table| && MatchesQueued(t, false)
             && |Remaining(table, request.afterImageId)| <= |table|
             && Sum(t) == |table| - |Remaining(table, request.afterImageId)|
    ensures Sound(table, request)
  {
    hide Remaining;
  }

  lemma PreviewNeverStops(previewOnly: bool, look: Look)
    ensures StopsPass(previewOnly, look) ==> !previewOnly
  {
  }

  datatype Attempt = Attempt(look: int -> Look, givenUpAt: Option<nat>)

  /** The job over any number of passes: deferred passes hand on their request, passes given up leave it as it was. */
  function Job(table: seq<int>, request: Request, attempts: seq<Attempt>): PassEnd
    decreases |attempts|
  {
    if attempts == [] then Deferred(request)
    else
      match Pass(table, request, attempts[0].look, attempts[0].givenUpAt)
      case Deferred(next) => Job(table, next, attempts[1..])
      case Aborted => Job(table, request, attempts[1..])
      case Finished(tally) => Finished(tally)
  }

  // ----- every image once --------------------------------------------------------------------------------------

  /** One image that entered the counts, with what looking at it found. */
  datatype Count = Count(image: int, look: Look)

  function ImagesOf(counts: seq<Count>): (images: seq<int>)
    ensures |images| == |counts| && forall i :: 0 <= i < |counts| ==> images[i] == counts[i].image
  {
    seq(|counts|, i requires 0 <= i < |counts| => counts[i].image)
  }

  function CountsOf(images: seq<int>, look: int -> Look): (counts: seq<Count>)
    ensures |counts| == |images| && forall i :: 0 <= i < |images| ==> counts[i] == Count(images[i], look(images[i]))
  {
    seq(|images|, i requires 0 <= i < |images| => Count(images[i], look(images[i])))
  }

  /** What the stored counts of the job are made of: what each pass that was not given up looked at before it stopped. */
  function JobCounts(table: seq<int>, request: Request, attempts: seq<Attempt>): seq<Count>
    decreases |attempts|
  {
    if attempts == [] then []
    else
      var images := Remaining(table, request.afterImageId);
      var look := attempts[0].look;
      match Pass(table, request, look, attempts[0].givenUpAt)
      case Deferred(next) =>
        CountsOf(images[..StopsAt(images, request.previewOnly, look, 0)], look) + JobCounts(table, next, attempts[1..])
      case Aborted => JobCounts(table, request, attempts[1..])
      case Finished(_) => CountsOf(images, look)
  }

  function TallyOf(t: Tally, previewOnly: bool, counts: seq<Count>): Tally {
    if counts == [] then t
    else Counted(TallyOf(t, previewOnly, counts[..|counts| - 1]), previewOnly, counts[|counts| - 1].look)
  }

  lemma {:induction false} TallyInTwo(t: Tally, previewOnly: bool, a: seq<Count>, b: seq<Count>)
    ensures TallyOf(t, previewOnly, a + b) == TallyOf(TallyOf(t, previewOnly, a), previewOnly, b)
    decreases |b|
  {
    if b == [] {
      assert a + b == a;
    } else {
      assert (a + b)[..|a + b| - 1] == a + b[..|b| - 1];
      TallyInTwo(t, previewOnly, a, b[..|b| - 1]);
    }
  }

  lemma {:induction false} TalliedIsTally(t: Tally, images: seq<int>, previewOnly: bool, look: int -> Look, n: nat)
    requires n <= |images|
    ensures Tallied(t, images, previewOnly, look, n) == TallyOf(t, previewOnly, CountsOf(images[..n], look))
  {
    if n > 0 {
      TalliedIsTally(t, images, previewOnly, look, n - 1);
      assert CountsOf(images[..n], look)[..n - 1] == CountsOf(images[..n - 1], look);
    }
  }

  /** The counts of a job so far are those of the images before the ones that remain, each counted once and in order,
      and the stored totals are their totals. */
  ghost predicate CountedOnce(table: seq<int>, request: Request, counts: seq<Count>, later: Request) {
    && ImagesOf(counts) + Remaining(table, later.afterImageId) == Remaining(table, request.afterImageId)
    && StartTally(later, Remaining(table, later.afterImageId))
         == TallyOf(StartTally(request, Remaining(table, request.afterImageId)), request.previewOnly, counts)
    && later.previewOnly == request.previewOnly
  }

  /** At the end nothing remains. */
  ghost predicate AllCountedOnce(table: seq<int>, request: Request, counts: seq<Count>, tally: Tally) {
    && ImagesOf(counts) == Remaining(table, request.afterImageId)
    && tally == TallyOf(StartTally(request, Remaining(table, request.afterImageId)), request.previewOnly, counts)
  }

  lemma NothingCounted(table: seq<int>, request: Request)
    ensures CountedOnce(table, request, [], request)
  {
  }

  lemma PassCountsOnce(table: seq<int>, request: Request, look: int -> Look, givenUpAt: Option<nat>)
    requires Ascending(table) && Sound(table, request)
    ensures var images := Remaining(table, request.afterImageId);
            var stop := StopsAt(images, request.previewOnly, look, 0); var end := Pass(table, request, look, givenUpAt);
            && (end.Deferred? ==> CountedOnce(table, request, CountsOf(images[..stop], look), end.request))
            && (end.Finished? ==> AllCountedOnce(table, request, CountsOf(images, look), end.tally))
  {
    hide Sound, Above, StopsAt, Pass;
    var images := Remaining(table, request.afterImageId);
    var stop := StopsAt(images, request.previewOnly, look, 0);
    PassMeans(table, request, look, givenUpAt);
    TalliedIsTally(StartTally(request, images), images, request.previewOnly, look, stop);
    if Pass(table, request, look, givenUpAt).Deferred? { NextPassContinues(table, request, look, givenUpAt); }
    assert images[..stop] + images[stop..] == images && images[..|images|] == images;
    assert ImagesOf(CountsOf(images[..stop], look)) == images[..stop] && ImagesOf(CountsOf(images, look)) == images;
  }

  lemma CountedOnceMore(table: seq<int>, request: Request, a: seq<Count>, mid: Request, b: seq<Count>)
    requires CountedOnce(table, request, a, mid)
    ensures forall later :: CountedOnce(table, mid, b, later) ==> CountedOnce(table, request, a + b, later)
    ensures forall tally :: AllCountedOnce(table, mid, b, tally) ==> AllCountedOnce(table, request, a + b, tally)
  {
    hide Remaining, StartTally, TallyOf;
    TallyInTwo(StartTally(request, Remaining(table, request.afterImageId)), request.previewOnly, a, b);
    assert ImagesOf(a + b) == ImagesOf(a) + ImagesOf(b);
  }

  /** However often the job is deferred or given up, every image enters the counts exactly once: when it is through,
      the images counted are the table, and its totals are theirs. */
  lemma {:induction false} EachImageCountedOnce(table: seq<int>, request: Request, attempts: seq<Attempt>)
    requires Ascending(table) && Sound(table, request)
    ensures var end, counts := Job(table, request, attempts), JobCounts(table, request, attempts);
            && (end.Deferred? ==> CountedOnce(table, request, counts, end.request))
            && (end.Finished? ==> AllCountedOnce(table, request, counts, end.tally))
    decreases |attempts|
  {
    hide Pass, Sound, CountedOnce, AllCountedOnce, CountsOf, Remaining;
    if attempts == [] {
      NothingCounted(table, request);
    } else {
      var first, rest := attempts[0], attempts[1..];
      var images := Remaining(table, request.afterImageId);
      PassConserves(table, request, first.look, first.givenUpAt);
      PassCountsOnce(table, request, first.look, first.givenUpAt);
      match Pass(table, request, first.look, first.givenUpAt)
      case Deferred(next) =>
        EachImageCountedOnce(table, next, rest);
        CountedOnceMore(table, request, CountsOf(images[..StopsAt(images, request.previewOnly, first.look, 0)], first.look),
                        next, JobCounts(table, next, rest));
      case Aborted => EachImageCountedOnce(table, request, rest);
      case Finished(_) =>
    }
  }

  /** Nothing that stopped a pass is among the counts. */
  lemma {:induction false} StopsAreNotCounted(table: seq<int>, request: Request, attempts: seq<Attempt>)
    ensures forall i :: 0 <= i < |JobCounts(table, request, attempts)| ==>
              !StopsPass(request.previewOnly, JobCounts(table, request, attempts)[i].look)
    decreases |attempts|
  {
    hide Remaining;
    if attempts != [] {
      match Pass(table, request, attempts[0].look, attempts[0].givenUpAt)
      case Deferred(next) => StopsAreNotCounted(table, next, attempts[1..]);
      case Aborted => StopsAreNotCounted(table, request, attempts[1..]);
      case Finished(_) =>
    }
  }

  /** What one look adds to the totals. */
  datatype Kind = FILTERED_OUT | CURRENT | SHOWN | QUEUED | ALREADY_QUEUED | INACCESSIBLE | NOTHING

  function KindOf(previewOnly: bool, look: Look): Kind {
    match look
    case Filtered => FILTERED_OUT
    case UpToDate => CURRENT
    case Unreadable => INACCESSIBLE
    case Matches(NEW_JOB) => if previewOnly then SHOWN else QUEUED
    case Matches(REUSED_JOB) => if previewOnly then SHOWN else ALREADY_QUEUED
    case Matches(QUEUE_ERROR) => if previewOnly then SHOWN else INACCESSIBLE
    case Matches(QUEUE_FULL) => if previewOnly then SHOWN else NOTHING
  }

  function HowMany(counts: seq<Count>, previewOnly: bool, kind: Kind): nat {
    if counts == [] then 0
    else HowMany(counts[..|counts| - 1], previewOnly, kind) + (if KindOf(previewOnly, counts[|counts| - 1].look) == kind then 1 else 0)
  }

  /** Each total is the number of images at which the pass found what the total is named after. */
  lemma {:induction false} TotalsAreNumbers(t: Tally, previewOnly: bool, counts: seq<Count>)
    ensures var later := TallyOf(t, previewOnly, counts);
            && later.discovered == t.discovered
            && later.filtered == t.filtered + HowMany(counts, previewOnly, FILTERED_OUT)
            && later.current == t.current + HowMany(counts, previewOnly, CURRENT)
            && later.inaccessible == t.inaccessible + HowMany(counts, previewOnly, INACCESSIBLE)
            && later.enqueued == t.enqueued + HowMany(counts, previewOnly, QUEUED)
            && later.reused == t.reused + HowMany(counts, previewOnly, ALREADY_QUEUED)
            && later.matched == t.matched + HowMany(counts, previewOnly, SHOWN) + HowMany(counts, previewOnly, QUEUED)
                                + HowMany(counts, previewOnly, ALREADY_QUEUED)
  {
    if counts != [] { TotalsAreNumbers(t, previewOnly, counts[..|counts| - 1]); }
  }

  lemma {:induction false} NoneIsNothing(counts: seq<Count>, previewOnly: bool)
    requires forall i :: 0 <= i < |counts| ==> !StopsPass(previewOnly, counts[i].look)
    ensures HowMany(counts, previewOnly, NOTHING) == 0
  {
    if counts != [] { NoneIsNothing(counts[..|counts| - 1], previewOnly); }
  }

  // ----- what the totals say -------------------------------------------------------------------------------------

  /** However often the job is deferred or given up, its totals balance at its completion. */
  lemma {:induction false} DiscoveryConserves(table: seq<int>, request: Request, attempts: seq<Attempt>)
    requires Ascending(table) && Sound(table, request)
    ensures var end := Job(table, request, attempts);
            && (end.Deferred? ==> Sound(table, end.request))
            && (end.Finished? ==>
                  && end.tally.discovered == |table|
                  && end.tally.discovered == end.tally.filtered + end.tally.current + end.tally.matched + end.tally.inaccessible
                  && MatchesQueued(end.tally, request.previewOnly))
    decreases |attempts|
  {
    hide Pass, Sound, MatchesQueued;
    if attempts != [] {
      var first := attempts[0];
      PassConserves(table, request, first.look, first.givenUpAt);
      match Pass(table, request, first.look, first.givenUpAt)
      case Deferred(next) => DiscoveryConserves(table, next, attempts[1..]);
      case Aborted => DiscoveryConserves(table, request, attempts[1..]);
      case Finished(_) =>
    }
  }

  lemma FreshRequestIsSound(table: seq<int>, previewOnly: bool)
    ensures Sound(table, Request(previewOnly, None, None))
  {
  }

  /** So a new discovery job that completes has counted exactly the images of the table, each once, whatever happened
      on the way, and its totals are what was found at them. */
  lemma NewDiscoveryConserves(table: seq<int>, previewOnly: bool, attempts: seq<Attempt>)
    requires Ascending(table) && Job(table, Request(previewOnly, None, None), attempts).Finished?
    ensures var request := Request(previewOnly, None, None);
            var tally, counts := Job(table, request, attempts).tally, JobCounts(table, request, attempts);
            && ImagesOf(counts) == table
            && HowMany(counts, previewOnly, NOTHING) == 0
            && tally.discovered == |table|
            && tally.filtered == HowMany(counts, previewOnly, FILTERED_OUT) && tally.current == HowMany(counts, previewOnly, CURRENT)
            && tally.inaccessible == HowMany(counts, previewOnly, INACCESSIBLE)
            && tally.enqueued == HowMany(counts, previewOnly, QUEUED) && tally.reused == HowMany(counts, previewOnly, ALREADY_QUEUED)
            && tally.matched == HowMany(counts, previewOnly, SHOWN) + tally.enqueued + tally.reused
            && tally.discovered == tally.filtered + tally.current + tally.matched + tally.inaccessible
            && MatchesQueued(tally, previewOnly)
  {
    hide *;
    var request := Request(previewOnly, None, None);
    FreshRequestIsSound(table, previewOnly);
    DiscoveryConserves(table, request, attempts);
    EachImageCountedOnce(table, request, attempts);
    StopsAreNotCounted(table, request, attempts);
    NoneIsNothing(JobCounts(table, request, attempts), previewOnly);
    FreshCounts(table, previewOnly, JobCounts(table, request, attempts), Job(table, request, attempts).tally);
    TotalsAreNumbers(Tally(|table|, 0, 0, 0, 0, 0, 0), previewOnly, JobCounts(table, request, attempts));
  }

  lemma FreshCounts(table: seq<int>, previewOnly: bool, counts: seq<Count>, tally: Tally)
    requires AllCountedOnce(table, Request(previewOnly, None, None), counts, tally)
    ensures ImagesOf(counts) == table && tally == TallyOf(Tally(|table|, 0, 0, 0, 0, 0, 0), previewOnly, counts)
  {
  }
}
