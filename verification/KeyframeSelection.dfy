/** The choice of representative frames: usable candidates are spread over time buckets, each bucket gives its best
    frame that looks unlike those already chosen, and what is still missing is filled in.  Times and scores are exact
    numbers. */
module KeyframeSelection {
  import opened Prelude
  import opened HexHamming
  import opened StableSorting

  datatype Candidate = Candidate(candidateIndex: int, captureTime: real, luma: real, sharpness: real, perceptualHash: string)

  predicate Usable(c: Candidate) { 8.0 <= c.luma <= 247.0 && c.sharpness >= 4.0 }

  function Abs(x: real): real { if x < 0.0 then -x else x }

  function Quality(c: Candidate): real { c.sharpness - Abs(c.luma - 128.0) * 0.05 }

  predicate NoLater(a: Candidate, b: Candidate) { a.captureTime <= b.captureTime }

  predicate NoWorse(a: Candidate, b: Candidate) { Quality(a) >= Quality(b) }

  predicate Far(a: Candidate, b: Candidate) {
    var distance := Distance(a.perceptualHash, b.perceptualHash);
    distance.None? || distance.value > 6
  }

  /** Unlike everything chosen so far. */
  predicate Distinct(c: Candidate, selected: seq<Candidate>) { forall i :: 0 <= i < |selected| ==> Far(c, selected[i]) }

  predicate Chosen(c: Candidate, selected: seq<Candidate>) {
    exists i :: 0 <= i < |selected| && selected[i].candidateIndex == c.candidateIndex
  }

  function UsableOf(candidates: seq<Candidate>): seq<Candidate> {
    if candidates == [] then []
    else (if Usable(candidates[0]) then [candidates[0]] else []) + UsableOf(candidates[1..])
  }

  /** The usable candidates in the order of their times. */
  function Valid(candidates: seq<Candidate>): seq<Candidate> { Sort(UsableOf(candidates), NoLater) }

  // ----- buckets ------------------------------------------------------------------------------------

  function CeilDiv(x: nat, d: nat): nat
    requires d > 0
  {
    (x + d - 1) / d
  }

  /** Where bucket b starts among n candidates. */
  function Start(n: nat, target: nat, b: nat): nat
    requires target > 0
  {
    CeilDiv(b * n, target)
  }

  lemma CeilLaw(x: nat, d: nat, i: nat)
    requires d > 0
    ensures CeilDiv(x, d) <= i <==> x <= i * d
  {
    var q := CeilDiv(x, d);
    assert q * d <= x + d - 1 < q * d + d;
    if q <= i { assert q * d <= i * d; } else { assert (i + 1) * d <= q * d; }
  }

  lemma StartLaw(n: nat, target: nat, b: nat, i: nat)
    requires target > 0
    ensures Start(n, target, b) <= i <==> b * n <= i * target
  {
    CeilLaw(b * n, target, i);
  }

  lemma StartsGrow(n: nat, target: nat, b: nat, c: nat)
    requires target > 0 && b <= c
    ensures Start(n, target, b) <= Start(n, target, c)
    ensures Start(n, target, 0) == 0 && Start(n, target, target) == n
  {
    StartLaw(n, target, c, Start(n, target, c));
    assert b * n <= c * n;
    StartLaw(n, target, b, Start(n, target, c));
    StartLaw(n, target, 0, 0);
    StartLaw(n, target, target, n);
    if n > 0 { StartLaw(n, target, target, n - 1); }
  }

  function BucketIndex(i: nat, n: nat, target: nat): nat
    requires i < n
  {
    i * target / n
  }

  lemma DivisionLaw(x: nat, n: nat)
    requires n > 0
    ensures x / n * n <= x < x / n * n + n
  {
  }

  lemma MultiplyBoth(a: nat, b: nat, c: nat)
    requires a <= b
    ensures a * c <= b * c
  {
  }

  lemma OneMoreTimes(b: nat, n: nat)
    ensures (b + 1) * n == b * n + n
  {
  }

  /** The computed bucket of a candidate is the one whose range holds it. */
  lemma BucketIndexFits(i: nat, n: nat, target: nat)
    requires i < n && target > 0
    ensures BucketIndex(i, n, target) < target
    ensures Start(n, target, BucketIndex(i, n, target)) <= i < Start(n, target, BucketIndex(i, n, target) + 1)
  {
    hide Start;
    var x, b := i * target, BucketIndex(i, n, target);
    DivisionLaw(x, n);
    MultiplyBoth(i + 1, n, target);
    OneMoreTimes(i, target);
    if b >= target {
      MultiplyBoth(target, b, n);
    } else {
      StartLaw(n, target, b, i);
      OneMoreTimes(b, n);
      StartLaw(n, target, b + 1, i);
    }
  }

  /** Bucket sizes differ by at most one: each is the quotient, rounded down or up. */
  lemma BucketsAreEven(n: nat, target: nat, b: nat)
    requires target > 0
    ensures n / target <= Start(n, target, b + 1) - Start(n, target, b) <= CeilDiv(n, target)
  {
    var low, q, c := Start(n, target, b), n / target, CeilDiv(n, target);
    StartLaw(n, target, b, low);
    CeilLaw(n, target, c);
    assert (b + 1) * n == b * n + n && (low + c) * target == low * target + c * target;
    StartLaw(n, target, b + 1, low + c);
    assert q * target <= n;
    if low + q > 0 {
      if low > 0 {
        StartLaw(n, target, b, low - 1);
        assert (low - 1) * target < b * n;
        assert (low + q - 1) * target == (low - 1) * target + q * target;
      } else {
        assert (q - 1) * target == q * target - target;
      }
      StartLaw(n, target, b + 1, low + q - 1);
    }
  }

  function Bucket(valid: seq<Candidate>, target: nat, b: nat): seq<Candidate>
    requires b < target
  {
    StartsGrow(|valid|, target, b, b + 1);
    StartsGrow(|valid|, target, b + 1, target);
    valid[Start(|valid|, target, b)..Start(|valid|, target, b + 1)]
  }

  // ----- the choice -----------------------------------------------------------------------------------

  function FirstDistinct(ranked: seq<Candidate>, selected: seq<Candidate>): Option<Candidate> {
    if ranked == [] then None
    else if Distinct(ranked[0], selected) then Some(ranked[0])
    else FirstDistinct(ranked[1..], selected)
  }

  /** What the first k buckets contribute. */
  function Picks(valid: seq<Candidate>, target: nat, k: nat): seq<Candidate>
    requires k <= target
  {
    if k == 0 then [] else
    var selected := Picks(valid, target, k - 1);
    var pick := FirstDistinct(Sort(Bucket(valid, target, k - 1), NoWorse), selected);
    if pick.Some? then selected + [pick.value] else selected
  }

  predicate Open(c: Candidate, selected: seq<Candidate>) { !Chosen(c, selected) && Distinct(c, selected) }

  function Remaining(valid: seq<Candidate>, selected: seq<Candidate>): seq<Candidate> {
    if valid == [] then []
    else (if Open(valid[0], selected) then [valid[0]] else []) + Remaining(valid[1..], selected)
  }

  /** The distance in time to the nearest chosen frame; None, without one, counts as infinite. */
  function Gap(c: Candidate, selected: seq<Candidate>): Option<real> {
    if selected == [] then None else
    var here, rest := Abs(c.captureTime - selected[0].captureTime), Gap(c, selected[1..]);
    if rest.None? || here <= rest.value then Some(here) else rest
  }

  /** Wider gap first, then higher quality, then earlier; two infinite gaps compare as equal. */
  predicate Preferred(a: Candidate, b: Candidate, selected: seq<Candidate>) {
    var left, right := Gap(a, selected), Gap(b, selected);
    if left.Some? && right.Some? && left.value != right.value then left.value > right.value
    else if Quality(a) != Quality(b) then Quality(a) > Quality(b)
    else a.captureTime <= b.captureTime
  }

  function FillOrder(selected: seq<Candidate>): (Candidate, Candidate) -> bool { (a, b) => Preferred(a, b, selected) }

  function Filled(valid: seq<Candidate>, selected: seq<Candidate>, target: nat): seq<Candidate>
    decreases target - |selected|
  {
    if |selected| >= target then selected else
    var remaining := Sort(Remaining(valid, selected), FillOrder(selected));
    if remaining == [] then selected else Filled(valid, selected + [remaining[0]], target)
  }

  function Selection(candidates: seq<Candidate>, target: int): seq<Candidate> {
    if target <= 0 || candidates == [] then [] else
    var valid := Valid(candidates);
    Sort(Filled(valid, Picks(valid, target, target), target), NoLater)
  }

  // ----- the program ----------------------------------------------------------------------------------

  function Reached(n: nat, target: nat, b: nat, i: nat): (k: nat)
    requires target > 0
    ensures k <= i
  {
    if Start(n, target, b) < i then Start(n, target, b) else i
  }

  /** Of the first `index` candidates, the bucket holds those in its range. */
  predicate HoldsRange(bucket: seq<Candidate>, valid: seq<Candidate>, target: nat, b: nat, index: nat)
    requires index <= |valid| && target > 0
  {
    var first, last := Reached(|valid|, target, b, index), Reached(|valid|, target, b + 1, index);
    first <= last && bucket == valid[first..last]
  }

  /** The bucket loop fills each bucket with its range of the candidates. */
  method FillBuckets(valid: seq<Candidate>, target: nat) returns (buckets: seq<seq<Candidate>>)
    requires target > 0
    ensures |buckets| == target && forall b :: 0 <= b < target ==> buckets[b] == Bucket(valid, target, b)
  {
    hide Start, BucketIndex;
    buckets := seq(target, _ => []);
    StartsGrow(|valid|, target, 0, 0);
    for index := 0 to |valid|
      invariant |buckets| == target
      invariant forall b :: 0 <= b < target ==> HoldsRange(buckets[b], valid, target, b, index)
    {
      var bucketIndex := BucketIndex(index, |valid|, target);
      BucketIndexFits(index, |valid|, target);
      ghost var before := buckets;
      buckets := buckets[bucketIndex := buckets[bucketIndex] + [valid[index]]];
      forall b | 0 <= b < target
        ensures HoldsRange(buckets[b], valid, target, b, index + 1)
      {
        StartsGrow(|valid|, target, b, b + 1);
        assert HoldsRange(before[b], valid, target, b, index);
        if b < bucketIndex { StartsGrow(|valid|, target, b + 1, bucketIndex); }
        if b > bucketIndex { StartsGrow(|valid|, target, bucketIndex + 1, b); }
      }
    }
    forall b | 0 <= b < target ensures buckets[b] == Bucket(valid, target, b) {
      StartsGrow(|valid|, target, b, b + 1);
      StartsGrow(|valid|, target, b + 1, target);
      assert HoldsRange(buckets[b], valid, target, b, |valid|);
    }
  }

  /** `selectRepresentativeKeyframes` */
  method SelectRepresentativeKeyframes(candidates: seq<Candidate>, targetCount: int) returns (frames: seq<Candidate>)
    ensures frames == Selection(candidates, targetCount)
  {
    hide Bucket, Sort, FirstDistinct, Valid, Remaining;
    if targetCount <= 0 || candidates == [] { return []; }
    var valid := Valid(candidates);
    var buckets := FillBuckets(valid, targetCount);
    var selected: seq<Candidate> := [];
    for b := 0 to targetCount
      invariant selected == Picks(valid, targetCount, b)
    {
      var ranked := Sort(buckets[b], NoWorse);
      var distinct := FirstDistinct(ranked, selected);
      if distinct.Some? { selected := selected + [distinct.value]; }
    }
    while |selected| < targetCount
      invariant Filled(valid, selected, targetCount) == Filled(valid, Picks(valid, targetCount, targetCount), targetCount)
      decreases targetCount - |selected|
    {
      var remaining := Sort(Remaining(valid, selected), FillOrder(selected));
      if remaining == [] { break; }
      selected := selected + [remaining[0]];
    }
    return Sort(selected, NoLater);
  }

  // ----- what the choice is worth -------------------------------------------------------------------------

  ghost predicate PairwiseFar(s: seq<Candidate>) { forall i, j :: 0 <= i < j < |s| ==> Far(s[i], s[j]) }

  lemma FarSymmetric(a: Candidate, b: Candidate)
    ensures Far(a, b) == Far(b, a)
  {
    hide Distance;
    DistanceSymmetric(a.perceptualHash, b.perceptualHash);
  }

  lemma AddingDistinct(s: seq<Candidate>, c: Candidate)
    requires PairwiseFar(s) && Distinct(c, s)
    ensures PairwiseFar(s + [c])
  {
    hide Far;
    forall i | 0 <= i < |s| ensures Far(s[i], c) { FarSymmetric(c, s[i]); }
  }

  lemma {:induction false} InsertFar(x: Candidate, s: seq<Candidate>, leq: (Candidate, Candidate) -> bool)
    requires PairwiseFar(s) && Distinct(x, s)
    ensures PairwiseFar(Insert(x, s, leq))
    decreases |s|
  {
    hide Far;
    if s == [] || leq(x, s[0]) {
    } else {
      var rest := Insert(x, s[1..], leq);
      InsertFar(x, s[1..], leq);
      InsertKeeps(x, s[1..], leq);
      forall j | 0 <= j < |rest| ensures Far(s[0], rest[j]) {
        assert rest[j] in multiset(rest);
        FarSymmetric(x, s[0]);
      }
    }
  }

  lemma {:induction false} SortFar(s: seq<Candidate>, leq: (Candidate, Candidate) -> bool)
    requires PairwiseFar(s)
    ensures PairwiseFar(Sort(s, leq))
    decreases |s|
  {
    hide Far, Insert;
    if s != [] {
      var rest := Sort(s[1..], leq);
      SortFar(s[1..], leq);
      SortKeeps(s[1..], leq);
      forall j | 0 <= j < |rest| ensures Far(s[0], rest[j]) {
        assert rest[j] in multiset(rest);
        assert rest[j] in s[1..];
      }
      InsertFar(s[0], rest, leq);
    }
  }

  lemma {:induction false} FirstDistinctIsFirst(ranked: seq<Candidate>, selected: seq<Candidate>)
    ensures var pick := FirstDistinct(ranked, selected);
            if pick.Some? then
              exists i :: 0 <= i < |ranked| && ranked[i] == pick.value && Distinct(pick.value, selected)
                          && forall j :: 0 <= j < i ==> !Distinct(ranked[j], selected)
            else forall j :: 0 <= j < |ranked| ==> !Distinct(ranked[j], selected)
    decreases |ranked|
  {
    hide Distinct;
    if ranked != [] && !Distinct(ranked[0], selected) {
      FirstDistinctIsFirst(ranked[1..], selected);
      var pick := FirstDistinct(ranked[1..], selected);
      if pick.Some? {
        var i :| 0 <= i < |ranked[1..]| && ranked[1..][i] == pick.value && forall j :: 0 <= j < i ==> !Distinct(ranked[1..][j], selected);
        assert ranked[i + 1] == pick.value;
        forall j | 0 <= j < i + 1 ensures !Distinct(ranked[j], selected) {
          if j > 0 { assert ranked[1..][j - 1] == ranked[j]; }
        }
      } else {
        forall j | 0 <= j < |ranked| ensures !Distinct(ranked[j], selected) {
          if j > 0 { assert ranked[1..][j - 1] == ranked[j]; }
        }
      }
    }
  }

  lemma QualityIsPreorder()
    ensures TotalPreorder(NoWorse)
  {
  }

  lemma TimeIsPreorder()
    ensures TotalPreorder(NoLater)
  {
  }

  lemma PreferenceIsPreorder(selected: seq<Candidate>)
    ensures TotalPreorder(FillOrder(selected))
  {
    hide Gap, Quality;
    forall c | true ensures Gap(c, selected).None? <==> selected == [] { GapSome(c, selected); }
  }

  lemma GapSome(c: Candidate, selected: seq<Candidate>)
    ensures Gap(c, selected).None? <==> selected == []
  {
  }

  lemma BucketGives(valid: seq<Candidate>, target: nat, k: nat, c: Candidate)
    requires k < target && c in Bucket(valid, target, k) && Distinct(c, Picks(valid, target, k))
    ensures var before, after := Picks(valid, target, k), Picks(valid, target, k + 1);
            && |after| == |before| + 1 && after[..|before|] == before
            && after[|before|] in Bucket(valid, target, k)
            && Quality(after[|before|]) >= Quality(c)
  {
    hide *;
    var before, bucket := Picks(valid, target, k), Bucket(valid, target, k);
    var ranked := Sort(bucket, NoWorse);
    SortMembers(bucket, NoWorse, c);
    QualityIsPreorder();
    SortOrders(bucket, NoWorse);
    var at := PlaceOf(ranked, c);
    FirstDistinctIsBest(ranked, before, at);
    PicksUnfold(valid, target, k + 1);
    SortMembers(bucket, NoWorse, FirstDistinct(ranked, before).value);
  }

  lemma PlaceOf(s: seq<Candidate>, c: Candidate) returns (at: nat)
    requires c in s
    ensures at < |s| && s[at] == c
  {
    at :| 0 <= at < |s| && s[at] == c;
  }

  lemma FirstDistinctIsBest(ranked: seq<Candidate>, before: seq<Candidate>, at: nat)
    requires Ordered(ranked, NoWorse) && TotalPreorder(NoWorse) && at < |ranked| && Distinct(ranked[at], before)
    ensures FirstDistinct(ranked, before).Some? && FirstDistinct(ranked, before).value in ranked
    ensures Quality(FirstDistinct(ranked, before).value) >= Quality(ranked[at])
  {
    hide Quality, Distinct, FirstDistinct;
    FirstDistinctIsFirst(ranked, before);
    var i :| 0 <= i < |ranked| && ranked[i] == FirstDistinct(ranked, before).value
             && forall j :: 0 <= j < i ==> !Distinct(ranked[j], before);
    assert i <= at;
    assert NoWorse(ranked[i], ranked[at]);
  }

  lemma PicksUnfold(valid: seq<Candidate>, target: nat, k: nat)
    requires 0 < k <= target
    ensures var selected := Picks(valid, target, k - 1);
            var pick := FirstDistinct(Sort(Bucket(valid, target, k - 1), NoWorse), selected);
            Picks(valid, target, k) == if pick.Some? then selected + [pick.value] else selected
  {
    hide Bucket, Sort, FirstDistinct;
  }

  lemma {:induction false} PicksAreSound(valid: seq<Candidate>, target: nat, k: nat)
    requires k <= target && target > 0
    ensures Start(|valid|, target, k) <= |valid|
    ensures multiset(Picks(valid, target, k)) <= multiset(valid[..Start(|valid|, target, k)])
    ensures PairwiseFar(Picks(valid, target, k)) && |Picks(valid, target, k)| <= k
    decreases k
  {
    hide *;
    StartsGrow(|valid|, target, k, target);
    if k == 0 {
      NoPicks(valid, target);
    } else {
      StartsGrow(|valid|, target, k - 1, k);
      PicksAreSound(valid, target, k - 1);
      PicksUnfold(valid, target, k);
      BucketMeans(valid, target, k - 1);
      var before, bucket := Picks(valid, target, k - 1), Bucket(valid, target, k - 1);
      var ranked := Sort(bucket, NoWorse);
      FirstDistinctIsFirst(ranked, before);
      var pick := FirstDistinct(ranked, before);
      if pick.Some? {
        SortMembers(bucket, NoWorse, pick.value);
        assert multiset{pick.value} <= multiset(bucket);
        AddingDistinct(before, pick.value);
      }
    }
  }

  lemma NoPicks(valid: seq<Candidate>, target: nat)
    ensures Picks(valid, target, 0) == [] && PairwiseFar([])
  {
  }

  lemma BucketMeans(valid: seq<Candidate>, target: nat, b: nat)
    requires b < target
    ensures Start(|valid|, target, b) <= Start(|valid|, target, b + 1) <= |valid|
    ensures valid[..Start(|valid|, target, b + 1)] == valid[..Start(|valid|, target, b)] + Bucket(valid, target, b)
  {
    hide Start;
    StartsGrow(|valid|, target, b, b + 1);
    StartsGrow(|valid|, target, b + 1, target);
  }

  lemma {:induction false} RemainingAreOpen(valid: seq<Candidate>, selected: seq<Candidate>, c: Candidate)
    ensures c in Remaining(valid, selected) <==> c in valid && Open(c, selected)
    decreases |valid|
  {
    hide Open;
    if valid != [] { RemainingAreOpen(valid[1..], selected, c); }
  }

  /** Filling up keeps what was chosen, adds only frames that are unlike everything chosen, and stops short only when
      no candidate is left that could be added. */
  lemma {:induction false} FilledIsSound(valid: seq<Candidate>, selected: seq<Candidate>, target: nat)
    requires multiset(selected) <= multiset(valid) && PairwiseFar(selected) && |selected| <= target
    ensures var all := Filled(valid, selected, target);
            && selected <= all && |all| <= target && multiset(all) <= multiset(valid) && PairwiseFar(all)
            && (|all| < target ==> forall c :: c in valid ==> !Open(c, all))
    decreases target - |selected|
  {
    hide Open, Remaining, Far, FillOrder, Sort;
    if |selected| < target {
      var open := Remaining(valid, selected);
      var remaining := Sort(open, FillOrder(selected));
      if remaining == [] {
        SortLength(open, FillOrder(selected));
        forall c | c in valid ensures !Open(c, selected) { RemainingAreOpen(valid, selected, c); }
      } else {
        var next := remaining[0];
        SortMembers(open, FillOrder(selected), next);
        RemainingAreOpen(valid, selected, next);
        OpenIsNew(next, selected);
        assert multiset(selected + [next]) <= multiset(valid) by {
          assert next in multiset(valid) && next !in multiset(selected);
        }
        AddingDistinct(selected, next);
        FilledIsSound(valid, selected + [next], target);
      }
    }
  }

  lemma OpenIsNew(c: Candidate, selected: seq<Candidate>)
    requires Open(c, selected)
    ensures c !in selected && Distinct(c, selected)
  {
    hide Far;
  }

  lemma FillTakesPreferred(valid: seq<Candidate>, selected: seq<Candidate>, target: nat, c: Candidate)
    requires |selected| < target && c in valid && Open(c, selected)
    ensures var all := Filled(valid, selected, target);
            |all| > |selected| && selected <= all && Preferred(all[|selected|], c, selected)
  {
    hide Open, Remaining, Preferred, Sort;
    var open := Remaining(valid, selected);
    RemainingAreOpen(valid, selected, c);
    SortMembers(open, FillOrder(selected), c);
    PreferenceIsPreorder(selected);
    SortOrders(open, FillOrder(selected));
    var remaining := Sort(open, FillOrder(selected));
    var at :| 0 <= at < |remaining| && remaining[at] == c;
    assert FillOrder(selected)(remaining[0], remaining[at]);
    FilledExtends(valid, selected + [remaining[0]], target);
  }

  lemma {:induction false} FilledExtends(valid: seq<Candidate>, selected: seq<Candidate>, target: nat)
    ensures selected <= Filled(valid, selected, target)
    decreases target - |selected|
  {
    hide Remaining, FillOrder, Sort;
    if |selected| < target {
      var remaining := Sort(Remaining(valid, selected), FillOrder(selected));
      if remaining != [] { FilledExtends(valid, selected + [remaining[0]], target); }
    }
  }

  lemma {:induction false} UsableOfMembers(candidates: seq<Candidate>, c: Candidate)
    ensures c in UsableOf(candidates) <==> c in candidates && Usable(c)
    ensures multiset(UsableOf(candidates)) <= multiset(candidates)
    decreases |candidates|
  {
    if candidates != [] {
      UsableOfMembers(candidates[1..], c);
      assert candidates == [candidates[0]] + candidates[1..];
    }
  }

  lemma ValidMembers(candidates: seq<Candidate>, c: Candidate)
    ensures c in Valid(candidates) <==> c in candidates && Usable(c)
    ensures multiset(Valid(candidates)) <= multiset(candidates)
  {
    UsableOfMembers(candidates, c);
    SortKeeps(UsableOf(candidates), NoLater);
    SortMembers(UsableOf(candidates), NoLater, c);
  }

  lemma FilledPicks(candidates: seq<Candidate>, target: nat)
    requires target > 0
    ensures var valid := Valid(candidates); var all := Filled(valid, Picks(valid, target, target), target);
            && |all| <= target && multiset(all) <= multiset(valid) && PairwiseFar(all)
            && (|all| < target ==> forall c :: c in valid ==> !Open(c, all))
  {
    hide Picks, Valid, Open, Far, Start;
    var valid := Valid(candidates);
    PicksAreSound(valid, target, target);
    StartsGrow(|valid|, target, target, target);
    assert valid[..|valid|] == valid;
    FilledIsSound(valid, Picks(valid, target, target), target);
  }

  lemma SelectionKeeps(candidates: seq<Candidate>, target: int)
    ensures var frames := Selection(candidates, target);
            && |frames| <= (if target <= 0 then 0 else target)
            && multiset(frames) <= multiset(candidates)
            && (forall i :: 0 <= i < |frames| ==> Usable(frames[i]))
            && Ordered(frames, NoLater)
            && PairwiseFar(frames)
  {
    hide Picks, Filled, Valid, Open, Far, Usable;
    if target > 0 && candidates != [] {
      var valid := Valid(candidates);
      var all := Filled(valid, Picks(valid, target, target), target);
      FilledPicks(candidates, target);
      SortKeeps(all, NoLater);
      SortLength(all, NoLater);
      TimeIsPreorder();
      SortOrders(all, NoLater);
      SortFar(all, NoLater);
      var frames := Sort(all, NoLater);
      forall i | 0 <= i < |frames| ensures Usable(frames[i]) {
        assert frames[i] in multiset(frames);
        assert frames[i] in multiset(valid);
        ValidMembers(candidates, frames[i]);
      }
      if frames != [] { ValidMembers(candidates, frames[0]); }
    }
  }

  /** When fewer frames are chosen than asked for, every usable candidate is chosen or looks like a chosen one. */
  lemma SelectionEnds(candidates: seq<Candidate>, target: int, c: Candidate)
    requires c in candidates && Usable(c) && |Selection(candidates, target)| < target
    ensures Chosen(c, Selection(candidates, target)) || !Distinct(c, Selection(candidates, target))
  {
    hide Picks, Filled, Valid, Far, Usable;
    var valid := Valid(candidates);
    var all := Filled(valid, Picks(valid, target, target), target);
    FilledPicks(candidates, target);
    SortLength(all, NoLater);
    ValidMembers(candidates, c);
    assert !Open(c, all);
    var frames := Sort(all, NoLater);
    if Chosen(c, all) {
      var i :| 0 <= i < |all| && all[i].candidateIndex == c.candidateIndex;
      SortMembers(all, NoLater, all[i]);
    } else {
      var i :| 0 <= i < |all| && !Far(c, all[i]);
      SortMembers(all, NoLater, all[i]);
    }
  }

  // ----- the same in columns ------------------------------------------------------------------------------

  predicate Good(c: Candidate) { c.luma >= 8.0 && c.luma <= 247.0 && c.sharpness >= 4.0 }

  predicate Alike(a: Candidate, b: Candidate) {
    var distance := Distance(a.perceptualHash, b.perceptualHash);
    distance.Some? && distance.value <= 6
  }

  /** Sharpness less a twentieth of how far the brightness is from the middle. */
  function Score(c: Candidate): real {
    if c.luma >= 128.0 then c.sharpness - (c.luma - 128.0) / 20.0 else c.sharpness - (128.0 - c.luma) / 20.0
  }

  function Apart(a: Candidate, b: Candidate): real {
    if a.captureTime >= b.captureTime then a.captureTime - b.captureTime else b.captureTime - a.captureTime
  }

  ghost predicate Nearest(c: Candidate, chosen: seq<Candidate>, gap: real) {
    && (exists i :: 0 <= i < |chosen| && Apart(c, chosen[i]) == gap)
    && (forall i :: 0 <= i < |chosen| ==> gap <= Apart(c, chosen[i]))
  }

  ghost predicate MayJoin(c: Candidate, chosen: seq<Candidate>) {
    forall i :: 0 <= i < |chosen| ==> chosen[i].candidateIndex != c.candidateIndex && !Alike(c, chosen[i])
  }

  predicate Better(a: Candidate, c: Candidate) {
    Score(a) > Score(c) || (Score(a) == Score(c) && a.captureTime <= c.captureTime)
  }

  /** Further from everything chosen, or as far and better. */
  ghost predicate GoesFirst(a: Candidate, c: Candidate, chosen: seq<Candidate>) {
    if chosen == [] then Better(a, c)
    else exists g, h :: Nearest(a, chosen, g) && Nearest(c, chosen, h) && (g > h || (g == h && Better(a, c)))
  }

  lemma ColumnsMean(a: Candidate, b: Candidate)
    ensures Usable(a) <==> Good(a)
    ensures Far(a, b) <==> !Alike(a, b)
    ensures Quality(a) == Score(a)
    ensures Apart(a, b) == Abs(a.captureTime - b.captureTime)
  {
    hide Distance;
  }

  lemma {:induction false} GapIsNearest(c: Candidate, chosen: seq<Candidate>)
    requires chosen != []
    ensures Gap(c, chosen).Some? && Nearest(c, chosen, Gap(c, chosen).value)
    decreases |chosen|
  {
    hide Abs;
    ColumnsMean(c, chosen[0]);
    var gap := Gap(c, chosen).value;
    if |chosen| == 1 {
      assert chosen[1..] == [];
    } else {
      GapIsNearest(c, chosen[1..]);
      if gap != Apart(c, chosen[0]) {
        var i :| 0 <= i < |chosen[1..]| && Apart(c, chosen[1..][i]) == gap;
        assert Apart(c, chosen[i + 1]) == gap;
      }
      forall i | 0 <= i < |chosen| ensures gap <= Apart(c, chosen[i]) {
        if i > 0 { assert chosen[1..][i - 1] == chosen[i]; }
      }
    }
  }

  lemma OpenMeans(c: Candidate, chosen: seq<Candidate>)
    ensures Open(c, chosen) <==> MayJoin(c, chosen)
    ensures Distinct(c, chosen) <==> forall i :: 0 <= i < |chosen| ==> !Alike(c, chosen[i])
  {
    hide Far, Alike;
    forall i | 0 <= i < |chosen| ensures Far(c, chosen[i]) <==> !Alike(c, chosen[i]) { ColumnsMean(c, chosen[i]); }
  }

  lemma PreferenceMeans(a: Candidate, c: Candidate, chosen: seq<Candidate>)
    requires Preferred(a, c, chosen)
    ensures GoesFirst(a, c, chosen)
  {
    hide Gap, Quality, Score, Nearest;
    ColumnsMean(a, c);
    ColumnsMean(c, a);
    if chosen != [] {
      GapIsNearest(a, chosen);
      GapIsNearest(c, chosen);
    } else {
      GapSome(a, chosen);
      GapSome(c, chosen);
    }
  }

  /** A bucket is the stretch of candidates whose places divide to its number. */
  lemma BucketIsStretch(valid: seq<Candidate>, target: nat, b: nat) returns (low: nat, high: nat)
    requires b < target
    ensures low <= high <= |valid| && Bucket(valid, target, b) == valid[low..high]
    ensures forall i :: 0 <= i < |valid| ==> (low <= i < high <==> i * target / |valid| == b)
  {
    hide Start;
    var n := |valid|;
    StartsGrow(n, target, b, b + 1);
    StartsGrow(n, target, b + 1, target);
    low, high := Start(n, target, b), Start(n, target, b + 1);
    forall i | 0 <= i < n ensures low <= i < high <==> i * target / n == b {
      BucketIndexFits(i, n, target);
      var at := BucketIndex(i, n, target);
      if at < b { StartsGrow(n, target, at + 1, b); }
      if at > b { StartsGrow(n, target, b + 1, at); }
    }
  }

  /** A bucket gives the best of its frames that are unlike what the buckets before it gave, and nothing without one. */
  lemma BucketGivesItsBest(valid: seq<Candidate>, target: nat, k: nat)
    requires k < target
    ensures var before, after := Picks(valid, target, k), Picks(valid, target, k + 1);
            var unlike := set c | c in Bucket(valid, target, k) && (forall i :: 0 <= i < |before| ==> !Alike(c, before[i]));
            if unlike == {} then after == before
            else exists best :: best in unlike && after == before + [best] && forall c :: c in unlike ==> Score(best) >= Score(c)
  {
    hide Bucket, Sort, FirstDistinct, Distinct, Quality, Score, Alike, NoWorse;
    var before, after := Picks(valid, target, k), Picks(valid, target, k + 1);
    var bucket := Bucket(valid, target, k);
    PicksUnfold(valid, target, k + 1);
    var pick := FirstDistinct(Sort(bucket, NoWorse), before);
    FirstDistinctIsFirst(Sort(bucket, NoWorse), before);
    forall c | c in bucket ensures c in Sort(bucket, NoWorse) { SortMembers(bucket, NoWorse, c); }
    forall c ensures Distinct(c, before) <==> forall i :: 0 <= i < |before| ==> !Alike(c, before[i]) { OpenMeans(c, before); }
    var unlike := set c | c in bucket && (forall i :: 0 <= i < |before| ==> !Alike(c, before[i]));
    if pick.Some? {
      SortMembers(bucket, NoWorse, pick.value);
      assert pick.value in unlike;
      forall c | c in bucket && Distinct(c, before) ensures Score(pick.value) >= Score(c) {
        BucketGives(valid, target, k, c);
        ColumnsMean(c, c);
        ColumnsMean(pick.value, c);
      }
    }
  }

  /** No more frames than asked for, none twice, all of them usable, in the order of time, and no two alike. */
  lemma SelectionIsSound(candidates: seq<Candidate>, target: int)
    ensures var frames := Selection(candidates, target);
            && |frames| <= (if target <= 0 then 0 else target)
            && multiset(frames) <= multiset(candidates)
            && (forall i :: 0 <= i < |frames| ==> Good(frames[i]))
            && (forall i, j :: 0 <= i < j < |frames| ==> frames[i].captureTime <= frames[j].captureTime)
            && (forall i, j :: 0 <= i < j < |frames| ==> !Alike(frames[i], frames[j]))
  {
    hide Selection, Far, Alike, Usable, Good;
    SelectionKeeps(candidates, target);
    var frames := Selection(candidates, target);
    forall i | 0 <= i < |frames| ensures Good(frames[i]) { ColumnsMean(frames[i], frames[i]); }
    forall i, j | 0 <= i < j < |frames| ensures frames[i].captureTime <= frames[j].captureTime && !Alike(frames[i], frames[j]) {
      assert NoLater(frames[i], frames[j]);
      ColumnsMean(frames[i], frames[j]);
    }
  }

  /** When fewer frames are chosen than asked for, no usable candidate is left that could join them. */
  lemma SelectionIsMaximal(candidates: seq<Candidate>, target: int, c: Candidate)
    requires c in candidates && Good(c) && |Selection(candidates, target)| < target
    ensures !MayJoin(c, Selection(candidates, target))
  {
    hide Selection, Usable, Good, Chosen, Distinct, MayJoin;
    ColumnsMean(c, c);
    SelectionEnds(candidates, target, c);
    OpenMeans(c, Selection(candidates, target));
  }

  /** The frames are what the buckets give, and then, one after the other until there are enough, a candidate that may
      join and goes before every other that may. */
  lemma SelectionIsGreedy(candidates: seq<Candidate>, target: int) returns (valid: seq<Candidate>, all: seq<Candidate>)
    requires target > 0 && candidates != []
    ensures forall c :: multiset(valid)[c] == if Good(c) then multiset(candidates)[c] else 0
    ensures forall i, j :: 0 <= i < j < |valid| ==> valid[i].captureTime <= valid[j].captureTime
    ensures Picks(valid, target, target) <= all && multiset(all) == multiset(Selection(candidates, target))
    ensures forall k :: |Picks(valid, target, target)| <= k < |all| ==>
              all[k] in valid && MayJoin(all[k], all[..k])
              && forall c :: c in valid && MayJoin(c, all[..k]) ==> GoesFirst(all[k], c, all[..k])
  {
    hide Picks, Filled, Sort, UsableOf, MayJoin, GoesFirst, Usable, Good;
    valid := Valid(candidates);
    var picks := Picks(valid, target, target);
    all := Filled(valid, picks, target);
    SortKeeps(all, NoLater);
    SortKeeps(UsableOf(candidates), NoLater);
    TimeIsPreorder();
    SortOrders(UsableOf(candidates), NoLater);
    forall c ensures multiset(valid)[c] == if Good(c) then multiset(candidates)[c] else 0 { UsableOfCounts(candidates, c); }
    forall i, j | 0 <= i < j < |valid| ensures valid[i].captureTime <= valid[j].captureTime { assert NoLater(valid[i], valid[j]); }
    FilledExtends(valid, picks, target);
    forall k | |picks| <= k < |all|
      ensures all[k] in valid && MayJoin(all[k], all[..k])
      ensures forall c :: c in valid && MayJoin(c, all[..k]) ==> GoesFirst(all[k], c, all[..k])
    {
      FilledStep(valid, picks, target, k);
    }
  }

  lemma {:induction false} UsableOfCounts(candidates: seq<Candidate>, c: Candidate)
    ensures multiset(UsableOf(candidates))[c] == if Good(c) then multiset(candidates)[c] else 0
    decreases |candidates|
  {
    hide Usable, Good;
    if candidates != [] {
      UsableOfCounts(candidates[1..], c);
      ColumnsMean(candidates[0], candidates[0]);
      assert candidates == [candidates[0]] + candidates[1..];
    }
  }

  lemma {:induction false} FilledStep(valid: seq<Candidate>, selected: seq<Candidate>, target: nat, k: nat)
    requires |selected| <= k < |Filled(valid, selected, target)|
    ensures var all := Filled(valid, selected, target);
            && all[k] in valid && MayJoin(all[k], all[..k])
            && forall c :: c in valid && MayJoin(c, all[..k]) ==> GoesFirst(all[k], c, all[..k])
    decreases target - |selected|
  {
    hide Open, Remaining, FillOrder, Preferred, Sort, MayJoin, GoesFirst;
    FilledExtends(valid, selected, target);
    var all := Filled(valid, selected, target);
    var open := Remaining(valid, selected);
    var remaining := Sort(open, FillOrder(selected));
    assert |selected| < target && remaining != [];
    var next := remaining[0];
    FilledExtends(valid, selected + [next], target);
    if k == |selected| {
      assert all[..k] == selected && all[k] == next;
      SortMembers(open, FillOrder(selected), next);
      RemainingAreOpen(valid, selected, next);
      OpenMeans(next, selected);
      forall c | c in valid && MayJoin(c, selected) ensures GoesFirst(next, c, selected) {
        OpenMeans(c, selected);
        FillTakesPreferred(valid, selected, target, c);
        PreferenceMeans(next, c, selected);
      }
    } else {
      FilledStep(valid, selected + [next], target, k);
    }
  }
}
