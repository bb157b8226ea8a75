/** The tags that follow from an artwork's files, brought up to date page by page, against what each tag means. */
module DerivedTags {
  import opened Prelude
  import opened MediaPaths
  import KeyframeDiscovery

  datatype TagKey = WEBP_TAG | VIDEO_TAG | IMAGE_TAG

  datatype Image = Image(id: int, artworkId: Option<int>, path: string)

  const IMAGE_PAGE: nat := 1000
  const ARTWORK_PAGE: nat := 500
  const BATCH: nat := 1000

  // ----- what the tags mean --------------------------------------------------------------------------------

  predicate HasVideo(images: seq<Image>, artwork: int) {
    exists i :: 0 <= i < |images| && images[i].artworkId == Some(artwork) && IsVideo(images[i].path)
  }

  predicate HasWebp(images: seq<Image>, artwork: int) {
    exists i :: 0 <= i < |images| && images[i].artworkId == Some(artwork) && IsWebp(images[i].path)
  }

  predicate Expects(images: seq<Image>, key: TagKey, artwork: int) {
    match key
    case WEBP_TAG => HasWebp(images, artwork)
    case VIDEO_TAG => HasVideo(images, artwork)
    case IMAGE_TAG => !HasVideo(images, artwork)
  }

  // ----- pages ---------------------------------------------------------------------------------------------

  /** The rows of a query over the images of some artworks, in the order of their ids. */
  function Rows(images: seq<Image>, artworks: set<int>): (rows: seq<Image>)
    ensures forall row :: row in rows <==> row in images && row.artworkId.Some? && row.artworkId.value in artworks && Listed(row.path)
  {
    if images == [] then []
    else
      (if images[0].artworkId.Some? && images[0].artworkId.value in artworks && Listed(images[0].path) then [images[0]] else [])
      + Rows(images[1..], artworks)
  }

  predicate Ascending(rows: seq<Image>) { forall i, j :: 0 <= i < j < |rows| ==> rows[i].id < rows[j].id }

  function After(rows: seq<Image>, cursor: int): seq<Image> {
    if rows == [] then [] else (if rows[0].id > cursor then [rows[0]] else []) + After(rows[1..], cursor)
  }

  function Page<T>(rows: seq<T>, size: nat): (page: seq<T>)
    ensures |page| == (if |rows| < size then |rows| else size) && page <= rows
  {
    if |rows| < size then rows else rows[..size]
  }

  lemma {:induction false} RowsAscend(images: seq<Image>, artworks: set<int>)
    requires Ascending(images)
    ensures Ascending(Rows(images, artworks))
    decreases |images|
  {
    hide Listed;
    if images != [] {
      RowsAscend(images[1..], artworks);
      var rest := Rows(images[1..], artworks);
      forall j | 0 <= j < |rest| ensures images[0].id < rest[j].id {
        assert rest[j] in images[1..];
      }
    }
  }

  lemma {:induction false} AfterAll(rows: seq<Image>, cursor: int)
    requires forall i :: 0 <= i < |rows| ==> rows[i].id > cursor
    ensures After(rows, cursor) == rows
    decreases |rows|
  {
    if rows != [] { AfterAll(rows[1..], cursor); }
  }

  lemma {:induction false} AfterRow(rows: seq<Image>, k: nat)
    requires Ascending(rows) && k < |rows|
    ensures After(rows, rows[k].id) == rows[k + 1..]
    decreases |rows|
  {
    if k == 0 {
      AfterAll(rows[1..], rows[0].id);
    } else {
      AfterRow(rows[1..], k - 1);
      assert rows[1..][k - 1] == rows[k];
    }
  }

  /** The artworks of the rows that pass a test. */
  function Owners(rows: seq<Image>, test: string -> bool): set<int> {
    if rows == [] then {}
    else
      var last := rows[|rows| - 1];
      Owners(rows[..|rows| - 1], test)
      + (if last.artworkId.Some? && test(last.path) then {last.artworkId.value} else {})
  }

  lemma {:induction false} OwnersMean(rows: seq<Image>, test: string -> bool, a: int)
    ensures a in Owners(rows, test) <==> exists i :: 0 <= i < |rows| && rows[i].artworkId == Some(a) && test(rows[i].path)
    decreases |rows|
  {
    if rows != [] {
      var n := |rows| - 1;
      OwnersMean(rows[..n], test, a);
      if i :| 0 <= i < n && rows[..n][i].artworkId == Some(a) && test(rows[..n][i].path) {
        assert rows[i].artworkId == Some(a) && test(rows[i].path);
      }
      if i :| 0 <= i < |rows| && rows[i].artworkId == Some(a) && test(rows[i].path) {
        if i < n { assert rows[..n][i] == rows[i]; }
      }
    }
  }

  lemma OneMoreOwner(rows: seq<Image>, n: nat, test: string -> bool)
    requires n < |rows|
    ensures Owners(rows[..n + 1], test)
         == Owners(rows[..n], test) + (if rows[n].artworkId.Some? && test(rows[n].path) then {rows[n].artworkId.value} else {})
  {
    assert rows[..n + 1][..n] == rows[..n];
  }

  lemma OwnersAreExpected(rows: seq<Image>)
    ensures forall a :: a in Owners(rows, IsVideo) <==> HasVideo(rows, a)
    ensures forall a :: a in Owners(rows, IsWebp) <==> HasWebp(rows, a)
  {
    hide IsVideo, IsWebp, Owners;
    forall a ensures a in Owners(rows, IsVideo) <==> HasVideo(rows, a) { OwnersMean(rows, IsVideo, a); }
    forall a ensures a in Owners(rows, IsWebp) <==> HasWebp(rows, a) { OwnersMean(rows, IsWebp, a); }
  }

  lemma {:induction false} OwnersInTwo(a: seq<Image>, b: seq<Image>, test: string -> bool)
    ensures Owners(a + b, test) == Owners(a, test) + Owners(b, test)
    decreases |b|
  {
    if b == [] {
      assert a + b == a;
    } else {
      var n := |b| - 1;
      assert (a + b)[..|a| + n] == a + b[..n];
      OwnersInTwo(a, b[..n], test);
    }
  }

  /** The loop over one page. */
  method CollectPage(page: seq<Image>, video: set<int>, webp: set<int>) returns (idsWithVideo: set<int>, idsWithWebp: set<int>)
    ensures idsWithVideo == video + Owners(page, IsVideo) && idsWithWebp == webp + Owners(page, IsWebp)
  {
    hide IsVideo, IsWebp, Owners;
    idsWithVideo, idsWithWebp := video, webp;
    NoOwners(page, IsVideo);
    NoOwners(page, IsWebp);
    for i := 0 to |page|
      invariant idsWithVideo == video + Owners(page[..i], IsVideo) && idsWithWebp == webp + Owners(page[..i], IsWebp)
    {
      OneMoreOwner(page, i, IsVideo);
      OneMoreOwner(page, i, IsWebp);
      if page[i].artworkId.Some? {
        if IsVideo(page[i].path) { idsWithVideo := idsWithVideo + {page[i].artworkId.value}; }
        if IsWebp(page[i].path) { idsWithWebp := idsWithWebp + {page[i].artworkId.value}; }
      }
    }
    assert page[..|page|] == page;
  }

  lemma NoOwners(rows: seq<Image>, test: string -> bool)
    ensures Owners(rows[..0], test) == {}
  {
  }

  lemma PageIs<T>(rows: seq<T>, size: nat)
    ensures var n := |Page(rows, size)|; n <= |rows| && Page(rows, size) == rows[..n] && (n < size ==> n == |rows|)
  {
  }

  /** A page from position k on: where the next page starts, and what it adds. */
  lemma PageAt(rows: seq<Image>, k: nat, page: seq<Image>)
    requires Ascending(rows) && k <= |rows| && page == Page(rows[k..], IMAGE_PAGE)
    ensures k + |page| <= |rows| && (|page| < IMAGE_PAGE ==> k + |page| == |rows|)
    ensures page != [] ==> After(rows, page[|page| - 1].id) == rows[k + |page|..]
    ensures Owners(rows[..k + |page|], IsVideo) == Owners(rows[..k], IsVideo) + Owners(page, IsVideo)
    ensures Owners(rows[..k + |page|], IsWebp) == Owners(rows[..k], IsWebp) + Owners(page, IsWebp)
  {
    hide IsVideo, IsWebp, Owners, After, Ascending, Page;
    PageIs(rows[k..], IMAGE_PAGE);
    assert page == rows[k..k + |page|];
    assert rows[..k + |page|] == rows[..k] + page;
    OwnersInTwo(rows[..k], page, IsVideo);
    OwnersInTwo(rows[..k], page, IsWebp);
    if page != [] {
      assert page[|page| - 1] == rows[k + |page| - 1];
      AfterRow(rows, k + |page| - 1);
    }
  }

  /** `loadExpectedTagArtworkIds` before it sorts the artworks into the three lists. */
  method LoadExpected(images: seq<Image>, artworks: set<int>) returns (idsWithVideo: set<int>, idsWithWebp: set<int>)
    requires Ascending(images) && forall i :: 0 <= i < |images| ==> images[i].id > 0
    ensures forall a :: a in idsWithVideo <==> HasVideo(Rows(images, artworks), a)
    ensures forall a :: a in idsWithWebp <==> HasWebp(Rows(images, artworks), a)
  {
    hide Rows, IsVideo, IsWebp, HasVideo, HasWebp, After, Owners, Ascending, Page;
    idsWithVideo, idsWithWebp := {}, {};
    var cursor := 0;
    ghost var rows, k := Rows(images, artworks), 0;
    FirstPage(images, artworks);
    while true
      invariant 0 <= k <= |rows| && After(rows, cursor) == rows[k..]
      invariant idsWithVideo == Owners(rows[..k], IsVideo) && idsWithWebp == Owners(rows[..k], IsWebp)
      decreases |rows| - k
    {
      var page := Page(After(Rows(images, artworks), cursor), IMAGE_PAGE);
      PageAt(rows, k, page);
      if |page| == 0 { break; }
      cursor := page[|page| - 1].id;
      idsWithVideo, idsWithWebp := CollectPage(page, idsWithVideo, idsWithWebp);
      k := k + |page|;
      if |page| < IMAGE_PAGE { break; }
    }
    assert rows[..k] == rows;
    OwnersAreExpected(rows);
  }

  lemma FirstPage(images: seq<Image>, artworks: set<int>)
    requires Ascending(images) && forall i :: 0 <= i < |images| ==> images[i].id > 0
    ensures var rows := Rows(images, artworks);
            && Ascending(rows) && After(rows, 0) == rows[0..]
            && Owners(rows[..0], IsVideo) == {} && Owners(rows[..0], IsWebp) == {}
  {
    hide IsVideo, IsWebp;
    var rows := Rows(images, artworks);
    RowsAscend(images, artworks);
    RowsPositive(images, artworks);
    AfterAll(rows, 0);
    assert rows[..0] == [];
  }

  lemma RowsPositive(images: seq<Image>, artworks: set<int>)
    requires forall i :: 0 <= i < |images| ==> images[i].id > 0
    ensures forall i :: 0 <= i < |Rows(images, artworks)| ==> Rows(images, artworks)[i].id > 0
  {
    hide Listed;
    var rows := Rows(images, artworks);
    forall i | 0 <= i < |rows| ensures rows[i].id > 0 { assert rows[i] in images; }
  }

  predicate NoQuestionMarks(images: seq<Image>) { forall i :: 0 <= i < |images| ==> '?' !in images[i].path }

  /** The images the query lets through, for any artwork. */
  function ListedOnly(images: seq<Image>): (rows: seq<Image>)
    ensures forall row :: row in rows <==> row in images && Listed(row.path)
  {
    if images == [] then [] else (if Listed(images[0].path) then [images[0]] else []) + ListedOnly(images[1..])
  }

  lemma SameOwners(rows: seq<Image>, others: seq<Image>, a: int)
    requires forall row: Image :: row.artworkId == Some(a) && (IsVideo(row.path) || IsWebp(row.path)) ==> (row in rows <==> row in others)
    ensures HasVideo(rows, a) <==> HasVideo(others, a)
    ensures HasWebp(rows, a) <==> HasWebp(others, a)
  {
    hide IsVideo, IsWebp;
    FoundAlso(rows, others, a);
    FoundAlso(others, rows, a);
  }

  lemma FoundAlso(rows: seq<Image>, others: seq<Image>, a: int)
    requires forall row: Image :: row.artworkId == Some(a) && (IsVideo(row.path) || IsWebp(row.path)) && row in rows ==> row in others
    ensures HasVideo(rows, a) ==> HasVideo(others, a)
    ensures HasWebp(rows, a) ==> HasWebp(others, a)
  {
    hide IsVideo, IsWebp;
    if i :| 0 <= i < |rows| && rows[i].artworkId == Some(a) && IsVideo(rows[i].path) {
      var j :| 0 <= j < |others| && others[j] == rows[i];
    }
    if i :| 0 <= i < |rows| && rows[i].artworkId == Some(a) && IsWebp(rows[i].path) {
      var j :| 0 <= j < |others| && others[j] == rows[i];
    }
  }

  lemma RowsSuffice(images: seq<Image>, artworks: set<int>, a: int)
    requires a in artworks
    ensures HasVideo(Rows(images, artworks), a) <==> HasVideo(ListedOnly(images), a)
    ensures HasWebp(Rows(images, artworks), a) <==> HasWebp(ListedOnly(images), a)
  {
    hide Listed, IsVideo, IsWebp, Rows, ListedOnly, HasVideo, HasWebp;
    SameOwners(Rows(images, artworks), ListedOnly(images), a);
  }

  /** Some video of the artwork is one the query lets through. */
  predicate HasListedVideo(images: seq<Image>, artwork: int) {
    exists i :: 0 <= i < |images| && images[i].artworkId == Some(artwork) && IsVideo(images[i].path) && Listed(images[i].path)
  }

  lemma ListedVideos(images: seq<Image>, a: int)
    ensures HasVideo(ListedOnly(images), a) <==> HasListedVideo(images, a)
    ensures HasListedVideo(images, a) ==> HasVideo(images, a)
  {
    hide Listed, IsVideo, ListedOnly;
    var rows := ListedOnly(images);
    if HasVideo(rows, a) {
      var i :| 0 <= i < |rows| && rows[i].artworkId == Some(a) && IsVideo(rows[i].path);
      assert rows[i] in rows;
      var j :| 0 <= j < |images| && images[j] == rows[i];
    }
    if HasListedVideo(images, a) {
      var j :| 0 <= j < |images| && images[j].artworkId == Some(a) && IsVideo(images[j].path) && Listed(images[j].path);
      assert images[j] in rows;
      var i :| 0 <= i < |rows| && rows[i] == images[j];
    }
  }

  /** The query never misses a WebP file. */
  lemma ListedWebps(images: seq<Image>, a: int)
    ensures HasWebp(ListedOnly(images), a) <==> HasWebp(images, a)
  {
    hide EndsWith, ListedOnly;
    var rows := ListedOnly(images);
    if HasWebp(rows, a) {
      var i :| 0 <= i < |rows| && rows[i].artworkId == Some(a) && IsWebp(rows[i].path);
      assert rows[i] in rows;
      var j :| 0 <= j < |images| && images[j] == rows[i];
    }
    if HasWebp(images, a) {
      var j :| 0 <= j < |images| && images[j].artworkId == Some(a) && IsWebp(images[j].path);
      assert images[j] in rows;
      var i :| 0 <= i < |rows| && rows[i] == images[j];
    }
  }

  // ----- the relations ---------------------------------------------------------------------------------------

  function SetOf(s: seq<int>): set<int> { set x | x in s }

  predicate Distinct(s: seq<int>) { forall i, j :: 0 <= i < j < |s| ==> s[i] != s[j] }

  lemma {:induction false} DistinctSize(s: seq<int>)
    requires Distinct(s)
    ensures |SetOf(s)| == |s|
    decreases |s|
  {
    if s != [] {
      var n := |s| - 1;
      DistinctSize(s[..n]);
      assert s == s[..n] + [s[n]];
      assert SetOf(s) == SetOf(s[..n]) + {s[n]};
    }
  }

  function Without(s: seq<int>, out: set<int>): (r: seq<int>)
    ensures forall x :: x in r <==> x in s && x !in out
    ensures Distinct(s) ==> Distinct(r)
  {
    if s == [] then []
    else
      var rest := Without(s[1..], out);
      assert Distinct(s) ==> s[0] !in s[1..] && Distinct(s[1..]);
      (if s[0] in out then [] else [s[0]]) + rest
  }

  function Least(a: nat, b: nat): nat { if a < b then a else b }

  datatype Changes = Changes(expected: nat, existing: nat, added: nat, removed: nat)

  /** The rows of the relation table for one tag. */
  class TagRelations {
    var artworks: set<int>

    constructor (artworks: set<int>)
      ensures this.artworks == artworks
    {
      this.artworks := artworks;
    }

    /** `createMany` that skips what is there; the count is of what was not. */
    method CreateMany(ids: seq<int>) returns (count: nat)
      modifies this
      ensures artworks == old(artworks) + SetOf(ids) && count == |SetOf(ids) - old(artworks)|
    {
      count := |SetOf(ids) - artworks|;
      artworks := artworks + SetOf(ids);
    }

    method DeleteMany(ids: seq<int>) returns (count: nat)
      modifies this
      ensures artworks == old(artworks) - SetOf(ids) && count == |SetOf(ids) * old(artworks)|
    {
      count := |SetOf(ids) * artworks|;
      artworks := artworks - SetOf(ids);
    }

    /** The batches of `createMany` over artworks that do not carry the tag yet. */
    method AddInBatches(ids: seq<int>) returns (added: nat)
      requires Distinct(ids) && SetOf(ids) !! artworks
      modifies this
      ensures artworks == old(artworks) + SetOf(ids) && added == |ids|
    {
      hide SetOf, Distinct;
      added := 0;
      var i := 0;
      ghost var before := artworks;
      SetOfNothing(ids);
      while i < |ids|
        invariant 0 <= i <= |ids| && added == i && artworks == before + SetOf(ids[..i])
      {
        var next := Least(i + BATCH, |ids|);
        BatchIsNew(ids, i, next, before);
        var count := CreateMany(ids[i..next]);
        added := added + count;
        i := next;
      }
      assert ids[..i] == ids;
    }

    method RemoveInBatches(ids: seq<int>) returns (removed: nat)
      requires Distinct(ids) && SetOf(ids) <= artworks
      modifies this
      ensures artworks == old(artworks) - SetOf(ids) && removed == |ids|
    {
      hide SetOf, Distinct;
      removed := 0;
      var i := 0;
      ghost var before := artworks;
      SetOfNothing(ids);
      while i < |ids|
        invariant 0 <= i <= |ids| && removed == i && artworks == before - SetOf(ids[..i])
      {
        var next := Least(i + BATCH, |ids|);
        BatchIsThere(ids, i, next, before);
        var count := DeleteMany(ids[i..next]);
        removed := removed + count;
        i := next;
      }
      assert ids[..i] == ids;
    }

    /** `syncTagRelations` for one tag and one page of artworks, of which `current` carry the tag. */
    method SyncTagRelations(expectedIds: seq<int>, current: seq<int>) returns (changes: Changes)
      requires Distinct(expectedIds) && Distinct(current)
      requires SetOf(current) <= artworks && SetOf(expectedIds) * artworks <= SetOf(current)
      modifies this
      ensures artworks == old(artworks) - SetOf(current) + SetOf(expectedIds)
      ensures changes.expected == |expectedIds| && changes.existing == |current|
      ensures changes.added == |SetOf(expectedIds) - SetOf(current)| && changes.removed == |SetOf(current) - SetOf(expectedIds)|
      ensures |artworks| == |old(artworks)| + changes.added - changes.removed
    {
      hide SetOf, Distinct, Without;
      ghost var before := artworks;
      var idsToAdd, idsToRemove := Without(expectedIds, SetOf(current)), Without(current, SetOf(expectedIds));
      WithoutSets(expectedIds, SetOf(current));
      WithoutSets(current, SetOf(expectedIds));
      var added := AddInBatches(idsToAdd);
      var removed := RemoveInBatches(idsToRemove);
      SwapIsDiff(before, SetOf(current), SetOf(expectedIds));
      changes := Changes(|expectedIds|, |current|, added, removed);
    }
  }

  lemma WithoutSets(s: seq<int>, out: set<int>)
    requires Distinct(s)
    ensures SetOf(Without(s, out)) == SetOf(s) - out && Distinct(Without(s, out)) && |Without(s, out)| == |SetOf(s) - out|
  {
    DistinctSize(Without(s, out));
    assert SetOf(Without(s, out)) == SetOf(s) - out;
  }

  lemma SetOfNothing(ids: seq<int>)
    ensures SetOf(ids[..0]) == {}
  {
  }

  lemma BatchOf(ids: seq<int>, i: nat, next: nat)
    requires Distinct(ids) && i <= next <= |ids|
    ensures SetOf(ids[..next]) == SetOf(ids[..i]) + SetOf(ids[i..next])
    ensures SetOf(ids[..i]) !! SetOf(ids[i..next]) && |SetOf(ids[i..next])| == next - i
    ensures SetOf(ids[i..next]) <= SetOf(ids)
  {
    assert ids[..next] == ids[..i] + ids[i..next];
    DistinctSize(ids[i..next]);
  }

  lemma BatchIsNew(ids: seq<int>, i: nat, next: nat, before: set<int>)
    requires Distinct(ids) && i <= next <= |ids| && SetOf(ids) !! before
    ensures |SetOf(ids[i..next]) - (before + SetOf(ids[..i]))| == next - i
    ensures before + SetOf(ids[..next]) == before + SetOf(ids[..i]) + SetOf(ids[i..next])
  {
    hide SetOf, Distinct;
    BatchOf(ids, i, next);
    assert SetOf(ids[i..next]) - (before + SetOf(ids[..i])) == SetOf(ids[i..next]);
  }

  lemma BatchIsThere(ids: seq<int>, i: nat, next: nat, before: set<int>)
    requires Distinct(ids) && i <= next <= |ids| && SetOf(ids) <= before
    ensures |SetOf(ids[i..next]) * (before - SetOf(ids[..i]))| == next - i
    ensures before - SetOf(ids[..next]) == before - SetOf(ids[..i]) - SetOf(ids[i..next])
  {
    hide SetOf, Distinct;
    BatchOf(ids, i, next);
    assert SetOf(ids[i..next]) * (before - SetOf(ids[..i])) == SetOf(ids[i..next]);
  }

  lemma SwapIsDiff(before: set<int>, current: set<int>, expected: set<int>)
    requires current <= before && expected * before <= current
    ensures before + (expected - current) - (current - expected) == before - current + expected
    ensures |before - current + expected| == |before| + |expected - current| - |current - expected|
    ensures (expected - current) !! before && current - expected <= before + (expected - current)
  {
    var grown := before + (expected - current);
    assert grown - (current - expected) == before - current + expected;
    assert |grown| == |before| + |expected - current|;
    assert grown == (grown - (current - expected)) + (current - expected);
  }

  // ----- the whole run -------------------------------------------------------------------------------------------

  datatype Stats = Stats(expectedArtworks: nat, existing: nat, added: nat, removed: nat, finalRelations: nat)

  function Within(s: seq<int>, kept: set<int>): (r: seq<int>)
    ensures forall x :: x in r <==> x in s && x in kept
    ensures Distinct(s) ==> Distinct(r)
  {
    if s == [] then []
    else
      var rest := Within(s[1..], kept);
      assert Distinct(s) ==> s[0] !in s[1..] && Distinct(s[1..]);
      (if s[0] in kept then [s[0]] else []) + rest
  }

  /** Of the artworks seen so far the tag is on those it is expected on; the others are as they were. */
  function Updated(before: set<int>, seen: set<int>, expected: set<int>): set<int> { (before - seen) + seen * expected }

  lemma UpdatedFurther(before: set<int>, seen: set<int>, page: set<int>, expected: set<int>, rel: set<int>)
    requires rel == Updated(before, seen, expected) && seen !! page
    ensures rel - (rel * page) + page * expected == Updated(before, seen + page, expected)
  {
  }

  /** A tag and its counts after the artworks seen so far. */
  predicate UpToDate(rel: set<int>, stats: Stats, before: set<int>, seen: set<int>, expected: set<int>) {
    && rel == Updated(before, seen, expected)
    && |rel| == |before| + stats.added - stats.removed
    && stats.existing == |before|
    && stats.expectedArtworks == |seen * expected|
  }

  /** One tag on one page. */
  method SyncPage(rel: TagRelations, page: seq<int>, expectedIds: seq<int>, stats: Stats, ghost before: set<int>,
                  ghost seen: set<int>, ghost expected: set<int>)
    returns (next: Stats)
    requires Distinct(page) && Distinct(expectedIds) && SetOf(expectedIds) == SetOf(page) * expected
    requires seen !! SetOf(page) && UpToDate(rel.artworks, stats, before, seen, expected)
    modifies rel
    ensures UpToDate(rel.artworks, next, before, seen + SetOf(page), expected)
  {
    hide SetOf, Distinct, Within, Updated;
    var current := Within(page, rel.artworks);
    WithinSets(page, rel.artworks);
    UpdatedFurther(before, seen, SetOf(page), expected, rel.artworks);
    var changes := rel.SyncTagRelations(expectedIds, current);
    ExpectedGrows(seen, page, expected, expectedIds);
    next := stats.(expectedArtworks := stats.expectedArtworks + changes.expected, added := stats.added + changes.added,
                   removed := stats.removed + changes.removed);
  }

  lemma ExpectedGrows(seen: set<int>, page: seq<int>, expected: set<int>, expectedIds: seq<int>)
    requires Distinct(expectedIds) && SetOf(expectedIds) == SetOf(page) * expected && seen !! SetOf(page)
    ensures |(seen + SetOf(page)) * expected| == |seen * expected| + |expectedIds|
  {
    DistinctSize(expectedIds);
    assert (seen + SetOf(page)) * expected == seen * expected + SetOf(expectedIds);
  }

  lemma WithinSets(s: seq<int>, kept: set<int>)
    requires Distinct(s)
    ensures SetOf(Within(s, kept)) == kept * SetOf(s) && Distinct(Within(s, kept))
  {
    assert SetOf(Within(s, kept)) == kept * SetOf(s);
  }

  /** The artworks a tag is expected on, as far as the query shows them. */
  ghost function ExpectedSet(images: seq<Image>, key: TagKey, artworks: set<int>): (r: set<int>)
    ensures forall a :: a in r <==> a in artworks && Expects(ListedOnly(images), key, a)
    ensures r <= artworks
  {
    set a | a in artworks && Expects(ListedOnly(images), key, a)
  }

  lemma ExpectedOnPage(images: seq<Image>, page: seq<int>, all: set<int>, video: set<int>, webp: set<int>)
    requires Distinct(page) && SetOf(page) <= all
    requires forall a :: a in video <==> HasVideo(Rows(images, SetOf(page)), a)
    requires forall a :: a in webp <==> HasWebp(Rows(images, SetOf(page)), a)
    ensures SetOf(Within(page, video)) == SetOf(page) * ExpectedSet(images, VIDEO_TAG, all) && Distinct(Within(page, video))
    ensures SetOf(Within(page, webp)) == SetOf(page) * ExpectedSet(images, WEBP_TAG, all) && Distinct(Within(page, webp))
    ensures SetOf(Without(page, video)) == SetOf(page) * ExpectedSet(images, IMAGE_TAG, all) && Distinct(Without(page, video))
  {
    hide HasVideo, HasWebp, Rows, ListedOnly, Within, Without;
    forall a | a in page
      ensures a in video <==> HasVideo(ListedOnly(images), a)
      ensures a in webp <==> HasWebp(ListedOnly(images), a)
    {
      RowsSuffice(images, SetOf(page), a);
    }
  }

  lemma PageIsPart<T>(rows: seq<T>, k: nat, page: seq<T>)
    requires k <= |rows| && page == Page(rows[k..], ARTWORK_PAGE)
    ensures k + |page| <= |rows| && page == rows[k..k + |page|]
  {
  }

  lemma PageOf(artworks: seq<int>, k: nat, page: seq<int>)
    requires KeyframeDiscovery.Ascending(artworks) && k <= |artworks| && page == Page(artworks[k..], ARTWORK_PAGE) && page != []
    ensures k + |page| <= |artworks| && page == artworks[k..k + |page|]
    ensures Distinct(page) && SetOf(page) <= SetOf(artworks) && SetOf(artworks[..k]) !! SetOf(page)
    ensures SetOf(artworks[..k + |page|]) == SetOf(artworks[..k]) + SetOf(page)
    ensures KeyframeDiscovery.Above(artworks, page[|page| - 1]) == artworks[k + |page|..]
  {
    hide *;
    PageIsPart(artworks, k, page);
    var next := k + |page|;
    assert page[|page| - 1] == artworks[next - 1];
    KeyframeDiscovery.AboveSplits(artworks, next - 1);
    AscendingIsDistinct(artworks);
    PartIsDistinct(artworks, k, next);
    BatchOf(artworks, k, next);
  }

  lemma AscendingIsDistinct(s: seq<int>)
    requires KeyframeDiscovery.Ascending(s)
    ensures Distinct(s)
  {
  }

  lemma PartIsDistinct(s: seq<int>, i: nat, j: nat)
    requires Distinct(s) && i <= j <= |s|
    ensures Distinct(s[i..j])
  {
  }

  /** `syncAllMediaDerivedTags` over tables nobody else changes.  Afterwards each tag is on exactly the artworks it is
      expected on, and its counts balance. */
  method SyncAllMediaDerivedTags(artworks: seq<int>, images: seq<Image>, webp: TagRelations, video: TagRelations, image: TagRelations)
    returns (webpStats: Stats, videoStats: Stats, imageStats: Stats)
    requires KeyframeDiscovery.Ascending(artworks) && forall i :: 0 <= i < |artworks| ==> artworks[i] > 0
    requires Ascending(images) && forall i :: 0 <= i < |images| ==> images[i].id > 0
    requires webp != video && video != image && webp != image
    requires webp.artworks + video.artworks + image.artworks <= SetOf(artworks)
    modifies webp, video, image
    ensures webp.artworks == ExpectedSet(images, WEBP_TAG, SetOf(artworks))
    ensures video.artworks == ExpectedSet(images, VIDEO_TAG, SetOf(artworks))
    ensures image.artworks == ExpectedSet(images, IMAGE_TAG, SetOf(artworks))
    ensures Balanced(webpStats, old(webp.artworks), webp.artworks)
    ensures Balanced(videoStats, old(video.artworks), video.artworks)
    ensures Balanced(imageStats, old(image.artworks), image.artworks)
  {
    hide *;
    webpStats := Stats(0, |webp.artworks|, 0, 0, 0);
    videoStats := Stats(0, |video.artworks|, 0, 0, 0);
    imageStats := Stats(0, |image.artworks|, 0, 0, 0);
    var lastSeenId := 0;
    ghost var k, all := 0, SetOf(artworks);
    ghost var w, v, m := webp.artworks, video.artworks, image.artworks;
    ghost var ew, ev, em := ExpectedSet(images, WEBP_TAG, all), ExpectedSet(images, VIDEO_TAG, all), ExpectedSet(images, IMAGE_TAG, all);
    NothingSeen(artworks, w, ew);
    NothingSeen(artworks, v, ev);
    NothingSeen(artworks, m, em);
    while true
      invariant 0 <= k <= |artworks| && KeyframeDiscovery.Above(artworks, lastSeenId) == artworks[k..]
      invariant UpToDate(webp.artworks, webpStats, w, SetOf(artworks[..k]), ew)
      invariant UpToDate(video.artworks, videoStats, v, SetOf(artworks[..k]), ev)
      invariant UpToDate(image.artworks, imageStats, m, SetOf(artworks[..k]), em)
      decreases |artworks| - k
    {
      var page := Page(KeyframeDiscovery.Above(artworks, lastSeenId), ARTWORK_PAGE);
      if |page| == 0 { break; }
      PageOf(artworks, k, page);
      lastSeenId := page[|page| - 1];
      var idsWithVideo, idsWithWebp := LoadExpected(images, SetOf(page));
      ExpectedOnPage(images, page, all, idsWithVideo, idsWithWebp);
      ghost var seen := SetOf(artworks[..k]);
      webpStats := SyncPage(webp, page, Within(page, idsWithWebp), webpStats, w, seen, ew);
      videoStats := SyncPage(video, page, Within(page, idsWithVideo), videoStats, v, seen, ev);
      imageStats := SyncPage(image, page, Without(page, idsWithVideo), imageStats, m, seen, em);
      k := k + |page|;
    }
    PageEmpty(artworks, k);
    EverythingSeen(artworks, webp.artworks, w, ew, webpStats);
    EverythingSeen(artworks, video.artworks, v, ev, videoStats);
    EverythingSeen(artworks, image.artworks, m, em, imageStats);
    webpStats := webpStats.(finalRelations := |webp.artworks|);
    videoStats := videoStats.(finalRelations := |video.artworks|);
    imageStats := imageStats.(finalRelations := |image.artworks|);
  }

  predicate Balanced(stats: Stats, before: set<int>, after: set<int>) {
    && stats.existing == |before| && stats.finalRelations == |after| == stats.expectedArtworks
    && stats.finalRelations == stats.existing + stats.added - stats.removed
  }

  lemma NothingSeen(artworks: seq<int>, before: set<int>, expected: set<int>)
    requires forall i :: 0 <= i < |artworks| ==> artworks[i] > 0
    ensures UpToDate(before, Stats(0, |before|, 0, 0, 0), before, SetOf(artworks[..0]), expected)
    ensures KeyframeDiscovery.Above(artworks, 0) == artworks[0..]
  {
    KeyframeDiscovery.AboveAll(artworks, 0);
    assert SetOf(artworks[..0]) * expected == {} && Updated(before, SetOf(artworks[..0]), expected) == before;
  }

  lemma PageEmpty(artworks: seq<int>, k: nat)
    requires k <= |artworks| && |Page(artworks[k..], ARTWORK_PAGE)| == 0
    ensures artworks[..k] == artworks
  {
  }

  lemma EverythingSeen(artworks: seq<int>, rel: set<int>, before: set<int>, expected: set<int>, stats: Stats)
    requires before <= SetOf(artworks) && expected <= SetOf(artworks)
    requires UpToDate(rel, stats, before, SetOf(artworks), expected)
    ensures rel == expected && Balanced(stats.(finalRelations := |rel|), before, rel)
  {
    assert SetOf(artworks) * expected == expected;
    assert Updated(before, SetOf(artworks), expected) == expected;
  }

  /** The webp tag is always right; the video and the image tag are right on an artwork exactly when it has no video,
      or has one that the query lets through. */
  lemma TagsAreRightExactly(images: seq<Image>, key: TagKey, artworks: set<int>, a: int)
    requires a in artworks
    ensures (a in ExpectedSet(images, key, artworks) <==> Expects(images, key, a))
       <==> (key.WEBP_TAG? || !HasVideo(images, a) || HasListedVideo(images, a))
  {
    hide HasVideo, HasWebp, HasListedVideo, ListedOnly;
    ListedVideos(images, a);
    ListedWebps(images, a);
  }

  /** For paths without question marks: video is on the artworks with a video file, webp on those with a WebP file,
      image on those without a video. */
  lemma TagsMeanWhatTheySay(images: seq<Image>, key: TagKey, artworks: set<int>, a: int)
    requires NoQuestionMarks(images) && a in artworks
    ensures a in ExpectedSet(images, key, artworks) <==> Expects(images, key, a)
  {
    hide Expects, ListedOnly, IsVideo, Listed, IsWebp;
    TagsAreRightExactly(images, key, artworks, a);
    forall i | 0 <= i < |images| ensures IsVideo(images[i].path) ==> Listed(images[i].path) { QueryMatchesProgram(images[i].path); }
    if HasVideo(images, a) {
      var i :| 0 <= i < |images| && images[i].artworkId == Some(a) && IsVideo(images[i].path);
      assert Listed(images[i].path);
    }
  }

  /** A question mark can make an artwork with a video look like one without. */
  lemma QuestionMarkMistags(artworks: set<int>, a: int)
    requires a in artworks
    ensures var images := [Image(1, Some(a), "a.mp4?x")];
            && Expects(images, VIDEO_TAG, a) && a !in ExpectedSet(images, VIDEO_TAG, artworks)
            && a in ExpectedSet(images, IMAGE_TAG, artworks)
  {
    hide IsVideo, Listed, IsWebp;
    QuestionMarkHidesVideo();
    var images := [Image(1, Some(a), "a.mp4?x")];
    assert images[0].artworkId == Some(a) && IsVideo(images[0].path);
    NothingListed(images);
  }

  lemma NothingListed(images: seq<Image>)
    requires |images| == 1 && !Listed(images[0].path)
    ensures ListedOnly(images) == []
  {
    hide Listed;
    assert ListedOnly(images[1..]) == [];
  }
}
