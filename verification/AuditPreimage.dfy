/** The preimage that binds the inputs of an audit to its digest: which inputs it accepts, and when two of them give
    the same text. */
module AuditPreimage {
  import opened Prelude
  import opened JsonText
  import opened Permutations
  import opened StableSorting

  datatype DifferenceKind = NEW | CHANGED

  datatype Evidence = Evidence(
    ordinal: int,
    sourceAuditItemId: Text,
    auditDifferenceKind: DifferenceKind,
    relativePath: Text,
    expectedExternalId: Text,
    observedExternalId: Text,
    expectedInventoryId: Option<Text>,
    expectedExternalRefId: Option<Text>,
    expectedArtworkId: Option<int>,
    observedContentHash: Text,
    processedContentHash: Option<Text>,
    sizeBytes: int,
    mtimeMs: int,
    ctimeMs: Option<int>,
    deviceId: Option<int>,
    inode: Option<int>)

  datatype AuditError = InvalidRunId | InvalidRows | DuplicateOrdinal | DuplicateItem | OrdinalGap

  // ----- one row ----------------------------------------------------------------------------------------

  /** White space and line ends of the language, which `trim` removes from both sides. */
  predicate IsSpace(u: Unit) {
    || 9 <= u <= 13 || u == 32 || u == 0xa0 || u == 0x1680 || 0x2000 <= u <= 0x200a
    || u == 0x2028 || u == 0x2029 || u == 0x202f || u == 0x205f || u == 0x3000 || u == 0xfeff
  }

  function TrimStart(s: Text): Text { if s != [] && IsSpace(s[0]) then TrimStart(s[1..]) else s }

  function TrimEnd(s: Text): Text { if s != [] && IsSpace(s[|s| - 1]) then TrimEnd(s[..|s| - 1]) else s }

  function Trim(s: Text): Text { TrimEnd(TrimStart(s)) }

  function TrimOption(s: Option<Text>): Option<Text> { if s.Some? then Some(Trim(s.value)) else None }

  const MAX_SAFE_INTEGER := 9_007_199_254_740_991

  predicate IdOk(s: Text, max: nat) { 1 <= |Trim(s)| <= max }

  predicate OptionalIdOk(s: Option<Text>) { s.Some? ==> IdOk(s.value, 255) }

  predicate IsSlash(u: Unit) { u == 47 || u == 92 }

  predicate IsLetter(u: Unit) { 65 <= u <= 90 || 97 <= u <= 122 }

  /** Two dots between separators or the ends of the path. */
  predicate HasParent(s: Text) { exists i :: 0 <= i <= |s| && ParentAt(s, i) }

  predicate ParentAt(s: Text, i: nat) {
    && i + 1 < |s| && s[i] == 46 && s[i + 1] == 46
    && (i == 0 || IsSlash(s[i - 1])) && (i + 2 == |s| || IsSlash(s[i + 2]))
  }

  predicate PathOk(raw: Text) {
    var s := Trim(raw);
    && 1 <= |s| <= 4096 && !IsSlash(s[0])
    && !(|s| >= 2 && IsLetter(s[0]) && s[1] == 58)
    && !HasParent(s)
  }

  predicate DigestOk(s: Text) { |s| == 64 && forall i :: 0 <= i < 64 ==> IsDigit(s[i]) || 97 <= s[i] <= 102 }

  predicate OptionalNonnegative(n: Option<int>) { n.Some? ==> n.value >= 0 }

  predicate RowOk(row: Evidence) {
    && 0 <= row.ordinal <= MAX_SAFE_INTEGER
    && IdOk(row.sourceAuditItemId, 128)
    && PathOk(row.relativePath)
    && IdOk(row.expectedExternalId, 255) && IdOk(row.observedExternalId, 255)
    && OptionalIdOk(row.expectedInventoryId) && OptionalIdOk(row.expectedExternalRefId)
    && (row.expectedArtworkId.Some? ==> 1 <= row.expectedArtworkId.value <= MAX_SAFE_INTEGER)
    && DigestOk(row.observedContentHash) && (row.processedContentHash.Some? ==> DigestOk(row.processedContentHash.value))
    && row.sizeBytes >= 0 && row.mtimeMs >= 0
    && OptionalNonnegative(row.ctimeMs) && OptionalNonnegative(row.deviceId) && OptionalNonnegative(row.inode)
  }

  /** The row as its schema hands it on. */
  function Parsed(row: Evidence): Evidence {
    row.(sourceAuditItemId := Trim(row.sourceAuditItemId),
         relativePath := Trim(row.relativePath),
         expectedExternalId := Trim(row.expectedExternalId),
         observedExternalId := Trim(row.observedExternalId),
         expectedInventoryId := TrimOption(row.expectedInventoryId),
         expectedExternalRefId := TrimOption(row.expectedExternalRefId))
  }

  function ParsedAll(rows: seq<Evidence>): (parsed: seq<Evidence>)
    ensures |parsed| == |rows| && forall i :: 0 <= i < |rows| ==> parsed[i] == Parsed(rows[i])
  {
    seq(|rows|, i requires 0 <= i < |rows| => Parsed(rows[i]))
  }

  // ----- the text ---------------------------------------------------------------------------------------

  const NEW_TEXT: Text := Chars("NEW")
  const CHANGED_TEXT: Text := Chars("CHANGED")
  const DOMAIN: Text := Chars("pixishelf:audit-apply-inputs:v1")

  function Natural(n: int): nat { if n < 0 then 0 else n }

  function TextOrNull(s: Option<Text>): Json { if s.Some? then JString(s.value) else JNull }

  function BigOrNull(n: Option<int>): Json { if n.Some? then JString(Decimal(Natural(n.value))) else JNull }

  function RowJson(row: Evidence): Json {
    JArray([
      JNumber(Natural(row.ordinal)),
      JString(row.sourceAuditItemId),
      JString(if row.auditDifferenceKind.NEW? then NEW_TEXT else CHANGED_TEXT),
      JString(row.relativePath),
      JString(row.expectedExternalId),
      JString(row.observedExternalId),
      TextOrNull(row.expectedInventoryId),
      TextOrNull(row.expectedExternalRefId),
      if row.expectedArtworkId.Some? then JNumber(Natural(row.expectedArtworkId.value)) else JNull,
      JString(row.observedContentHash),
      TextOrNull(row.processedContentHash),
      JString(Decimal(Natural(row.sizeBytes))),
      JString(Decimal(Natural(row.mtimeMs))),
      BigOrNull(row.ctimeMs),
      BigOrNull(row.deviceId),
      BigOrNull(row.inode)])
  }

  function RowsJson(rows: seq<Evidence>): (items: seq<Json>)
    ensures |items| == |rows| && forall i :: 0 <= i < |rows| ==> items[i] == RowJson(rows[i])
  {
    seq(|rows|, i requires 0 <= i < |rows| => RowJson(rows[i]))
  }

  function Document(runId: Text, rows: seq<Evidence>): Json {
    JArray([JString(DOMAIN), JString(runId), JArray(RowsJson(rows))])
  }

  // ----- acceptance ---------------------------------------------------------------------------------------

  predicate ByOrdinal(a: Evidence, b: Evidence) { a.ordinal <= b.ordinal }

  function SortedRows(rows: seq<Evidence>): seq<Evidence> { Sort(ParsedAll(rows), ByOrdinal) }

  function Ordinals(rows: seq<Evidence>): (ordinals: seq<int>)
    ensures |ordinals| == |rows| && forall i :: 0 <= i < |rows| ==> ordinals[i] == rows[i].ordinal
  {
    seq(|rows|, i requires 0 <= i < |rows| => rows[i].ordinal)
  }

  function ItemIds(rows: seq<Evidence>): (ids: seq<Text>)
    ensures |ids| == |rows| && forall i :: 0 <= i < |rows| ==> ids[i] == rows[i].sourceAuditItemId
  {
    seq(|rows|, i requires 0 <= i < |rows| => rows[i].sourceAuditItemId)
  }

  /** The first complaint of the loop over the first n rows. */
  function Repeated(rows: seq<Evidence>, n: nat): Option<AuditError>
    requires n <= |rows|
  {
    if n == 0 then None
    else if Repeated(rows, n - 1).Some? then Repeated(rows, n - 1)
    else if rows[n - 1].ordinal in Ordinals(rows[..n - 1]) then Some(DuplicateOrdinal)
    else if rows[n - 1].sourceAuditItemId in ItemIds(rows[..n - 1]) then Some(DuplicateItem)
    else None
  }

  predicate Contiguous(rows: seq<Evidence>) { forall i :: 0 <= i < |rows| ==> rows[i].ordinal == i }

  predicate InputOk(runId: Text, rows: seq<Evidence>) {
    IdOk(runId, 128) && 1 <= |rows| <= 10_000 && forall i :: 0 <= i < |rows| ==> RowOk(rows[i])
  }

  function Canonical(runId: Text, rows: seq<Evidence>): Result<Text, AuditError> {
    if !IdOk(runId, 128) then Err(InvalidRunId)
    else if !InputOk(runId, rows) then Err(InvalidRows)
    else
      var sorted := SortedRows(rows);
      if Repeated(sorted, |sorted|).Some? then Err(Repeated(sorted, |sorted|).value)
      else if !Contiguous(sorted) then Err(OrdinalGap)
      else Ok(Write(Document(Trim(runId), sorted)))
  }

  /** `canonicalizeAuditApplyInputs` */
  method CanonicalizeAuditApplyInputs(auditRunId: Text, rows: seq<Evidence>) returns (preimage: Result<Text, AuditError>)
    ensures preimage == Canonical(auditRunId, rows)
  {
    hide SortedRows, RowOk, IdOk, Write, Document, Trim;
    if !IdOk(auditRunId, 128) { return Err(InvalidRunId); }
    if !(1 <= |rows| <= 10_000 && forall i :: 0 <= i < |rows| ==> RowOk(rows[i])) { return Err(InvalidRows); }
    var sortedRows := SortedRows(rows);
    var ordinals: set<int> := {};
    var auditItemIds: set<Text> := {};
    for i := 0 to |sortedRows|
      invariant Repeated(sortedRows, i).None?
      invariant forall x :: x in ordinals <==> x in Ordinals(sortedRows[..i])
      invariant forall x :: x in auditItemIds <==> x in ItemIds(sortedRows[..i])
    {
      var row := sortedRows[i];
      assert Ordinals(sortedRows[..i + 1]) == Ordinals(sortedRows[..i]) + [row.ordinal];
      assert ItemIds(sortedRows[..i + 1]) == ItemIds(sortedRows[..i]) + [row.sourceAuditItemId];
      if row.ordinal in ordinals {
        RepeatedStays(sortedRows, i + 1, |sortedRows|);
        return Err(DuplicateOrdinal);
      }
      if row.sourceAuditItemId in auditItemIds {
        RepeatedStays(sortedRows, i + 1, |sortedRows|);
        return Err(DuplicateItem);
      }
      ordinals := ordinals + {row.ordinal};
      auditItemIds := auditItemIds + {row.sourceAuditItemId};
    }
    if exists i :: 0 <= i < |sortedRows| && sortedRows[i].ordinal != i { return Err(OrdinalGap); }
    return Ok(Write(Document(Trim(auditRunId), sortedRows)));
  }

  lemma {:induction false} RepeatedStays(rows: seq<Evidence>, m: nat, n: nat)
    requires m <= n <= |rows| && Repeated(rows, m).Some?
    ensures Repeated(rows, n) == Repeated(rows, m)
    decreases n
  {
    if m < n { RepeatedStays(rows, m, n - 1); }
  }

  // ----- which inputs are accepted ---------------------------------------------------------------------------

  function UpTo(n: nat): (s: seq<int>)
    ensures |s| == n && forall i :: 0 <= i < n ==> s[i] == i
  {
    seq(n, i => i)
  }

  lemma SameRowsSameColumns(a: seq<Evidence>, b: seq<Evidence>)
    requires multiset(a) == multiset(b)
    ensures multiset(Ordinals(a)) == multiset(Ordinals(b)) && multiset(ItemIds(a)) == multiset(ItemIds(b))
    ensures multiset(ParsedAll(a)) == multiset(ParsedAll(b))
  {
    hide Parsed;
    var ordinal, itemId := (row: Evidence) => row.ordinal, (row: Evidence) => row.sourceAuditItemId;
    MappedAlike(a, b, ordinal);
    MappedAlike(a, b, itemId);
    MappedAlike(a, b, Parsed);
    assert Ordinals(a) == Mapped(a, ordinal) && Ordinals(b) == Mapped(b, ordinal);
    assert ItemIds(a) == Mapped(a, itemId) && ItemIds(b) == Mapped(b, itemId);
    assert ParsedAll(a) == Mapped(a, Parsed) && ParsedAll(b) == Mapped(b, Parsed);
  }

  lemma {:induction false} RepeatsExactly(rows: seq<Evidence>, n: nat)
    requires n <= |rows|
    ensures Repeated(rows, n).None? <==> Unique(Ordinals(rows[..n])) && Unique(ItemIds(rows[..n]))
  {
    if n > 0 {
      RepeatsExactly(rows, n - 1);
      var row := rows[n - 1];
      var ordinals, ids := Ordinals(rows[..n - 1]), ItemIds(rows[..n - 1]);
      assert Ordinals(rows[..n]) == ordinals + [row.ordinal];
      assert ItemIds(rows[..n]) == ids + [row.sourceAuditItemId];
      UniqueMore(ordinals, row.ordinal);
      UniqueMore(ids, row.sourceAuditItemId);
    }
  }

  lemma OrdinalOrder()
    ensures TotalPreorder(ByOrdinal)
  {
  }

  lemma SortedColumns(rows: seq<Evidence>)
    ensures var sorted, parsed := SortedRows(rows), ParsedAll(rows);
            && |sorted| == |rows| && Ascending(Ordinals(sorted)) && multiset(sorted) == multiset(parsed)
            && multiset(Ordinals(sorted)) == multiset(Ordinals(rows))
            && multiset(ItemIds(sorted)) == multiset(ItemIds(parsed))
  {
    var parsed := ParsedAll(rows);
    OrdinalOrder();
    SortOrders(parsed, ByOrdinal);
    SortKeeps(parsed, ByOrdinal);
    SortLength(parsed, ByOrdinal);
    SameRowsSameColumns(SortedRows(rows), parsed);
    assert Ordinals(parsed) == Ordinals(rows);
  }

  lemma AcceptsSorted(runId: Text, rows: seq<Evidence>)
    ensures Canonical(runId, rows).Ok? <==>
              && InputOk(runId, rows)
              && multiset(Ordinals(rows)) == multiset(UpTo(|rows|))
              && Unique(ItemIds(ParsedAll(rows)))
  {
    hide InputOk, IdOk, SortedRows, Write, Document, Parsed;
    LimitsMean(runId, rows);
    var sorted := SortedRows(rows);
    SortedColumns(rows);
    SortedRepeats(rows);
    if multiset(Ordinals(rows)) == multiset(UpTo(|rows|)) {
      AscendingIsUnique(Ordinals(sorted), UpTo(|rows|));
      UniqueBoth(Ordinals(rows), UpTo(|rows|));
    }
    ContiguousMeans(sorted);
  }

  /** The loop complains exactly about a repeated ordinal or a repeated item id, in whatever order the rows are. */
  lemma SortedRepeats(rows: seq<Evidence>)
    ensures var sorted := SortedRows(rows);
            && (Repeated(sorted, |sorted|).None? <==> Unique(Ordinals(rows)) && Unique(ItemIds(ParsedAll(rows))))
            && (Unique(Ordinals(rows)) ==> Repeated(sorted, |sorted|) in {None, Some(DuplicateItem)})
            && (Unique(ItemIds(ParsedAll(rows))) ==> Repeated(sorted, |sorted|) in {None, Some(DuplicateOrdinal)})
  {
    hide SortedRows, Parsed;
    var sorted := SortedRows(rows);
    SortedColumns(rows);
    assert sorted[..|sorted|] == sorted;
    RepeatsExactly(sorted, |sorted|);
    UniqueBoth(Ordinals(sorted), Ordinals(rows));
    UniqueBoth(ItemIds(sorted), ItemIds(ParsedAll(rows)));
    RepeatedIsOf(sorted, |sorted|);
  }

  lemma UniqueBoth<T>(a: seq<T>, b: seq<T>)
    requires multiset(a) == multiset(b)
    ensures Unique(a) <==> Unique(b)
  {
    if Unique(a) { UniqueAlike(a, b); } else if Unique(b) { UniqueAlike(b, a); }
  }

  lemma {:induction false} RepeatedIsOf(rows: seq<Evidence>, n: nat)
    requires n <= |rows|
    ensures Repeated(rows, n) in {None, Some(DuplicateOrdinal), Some(DuplicateItem)}
    ensures Repeated(rows, n) == Some(DuplicateOrdinal) ==> !Unique(Ordinals(rows))
    ensures Repeated(rows, n) == Some(DuplicateItem) ==> !Unique(ItemIds(rows))
  {
    if n > 0 {
      RepeatedIsOf(rows, n - 1);
      var ordinals, ids := Ordinals(rows[..n - 1]), ItemIds(rows[..n - 1]);
      if rows[n - 1].ordinal in ordinals {
        var i :| 0 <= i < n - 1 && ordinals[i] == rows[n - 1].ordinal;
        assert Ordinals(rows)[i] == Ordinals(rows)[n - 1];
      }
      if rows[n - 1].sourceAuditItemId in ids {
        var i :| 0 <= i < n - 1 && ids[i] == rows[n - 1].sourceAuditItemId;
        assert ItemIds(rows)[i] == ItemIds(rows)[n - 1];
      }
    }
  }

  /** Trimming takes white space from both ends and stops at the first character that is none. */
  lemma {:induction false} TrimTakesSpace(s: Text) returns (front: Text, back: Text)
    ensures s == front + Trim(s) + back
    ensures (forall u :: u in front + back ==> IsSpace(u))
    ensures Trim(s) != [] ==> !IsSpace(Trim(s)[0]) && !IsSpace(Trim(s)[|Trim(s)| - 1])
  {
    hide IsSpace;
    front := TrimStartTakes(s);
    back := TrimEndTakes(TrimStart(s));
  }

  lemma {:induction false} TrimStartTakes(s: Text) returns (front: Text)
    ensures s == front + TrimStart(s) && (forall u :: u in front ==> IsSpace(u))
    ensures TrimStart(s) != [] ==> !IsSpace(TrimStart(s)[0])
    decreases |s|
  {
    hide IsSpace;
    front := [];
    if s != [] && IsSpace(s[0]) {
      front := TrimStartTakes(s[1..]);
      front := [s[0]] + front;
      assert s == [s[0]] + s[1..];
    }
  }

  lemma {:induction false} TrimEndTakes(s: Text) returns (back: Text)
    ensures s == TrimEnd(s) + back && (forall u :: u in back ==> IsSpace(u))
    ensures TrimEnd(s) != [] ==> !IsSpace(TrimEnd(s)[|TrimEnd(s)| - 1]) && TrimEnd(s)[0] == s[0]
    decreases |s|
  {
    hide IsSpace;
    back := [];
    if s != [] && IsSpace(s[|s| - 1]) {
      var n := |s| - 1;
      back := TrimEndTakes(s[..n]);
      back := back + [s[n]];
      assert s == s[..n] + [s[n]];
    }
  }

  /** What a row has to meet, column by column. */
  ghost predicate Within(row: Evidence) {
    && 0 <= row.ordinal < 0x20_0000_0000_0000
    && 1 <= |Trim(row.sourceAuditItemId)| <= 128
    && Relative(Trim(row.relativePath))
    && 1 <= |Trim(row.expectedExternalId)| <= 255 && 1 <= |Trim(row.observedExternalId)| <= 255
    && (row.expectedInventoryId.Some? ==> 1 <= |Trim(row.expectedInventoryId.value)| <= 255)
    && (row.expectedExternalRefId.Some? ==> 1 <= |Trim(row.expectedExternalRefId.value)| <= 255)
    && (row.expectedArtworkId.Some? ==> 0 < row.expectedArtworkId.value < 0x20_0000_0000_0000)
    && Sha256(row.observedContentHash) && (row.processedContentHash.Some? ==> Sha256(row.processedContentHash.value))
    && row.sizeBytes >= 0 && row.mtimeMs >= 0
    && (forall n :: Some(n) in [row.ctimeMs, row.deviceId, row.inode] ==> n >= 0)
  }

  predicate Slash(u: Unit) { u == '/' as int || u == '\\' as int }

  /** A path below where it is read from: no leading slash, no drive letter, and no part between slashes of either kind
      that is two dots. */
  ghost predicate Relative(path: Text) {
    && 1 <= |path| <= 4096 && !Slash(path[0])
    && !(|path| > 1 && path[1] == ':' as int && ('a' as int <= path[0] <= 'z' as int || 'A' as int <= path[0] <= 'Z' as int))
    && forall i, j :: Between(path, i, j) ==> path[i..j] != ['.' as int, '.' as int]
  }

  predicate Between(path: Text, i: int, j: int): (between: bool)
    ensures between ==> 0 <= i <= j <= |path|
  {
    0 <= i <= j <= |path| && (i == 0 || Slash(path[i - 1])) && (j == |path| || Slash(path[j]))
  }

  predicate Sha256(digest: Text) {
    |digest| == 64 && forall u :: u in digest ==> '0' as int <= u <= '9' as int || 'a' as int <= u <= 'f' as int
  }

  lemma RelativeExactly(raw: Text)
    ensures PathOk(raw) <==> Relative(Trim(raw))
  {
    hide Trim;
    ParentsExactly(Trim(raw));
  }

  lemma ParentsExactly(path: Text)
    ensures HasParent(path) <==> exists i, j :: Between(path, i, j) && path[i..j] == ['.' as int, '.' as int]
  {
    hide HasParent, Between;
    if HasParent(path) {
      var i := ParentFound(path);
    }
    if i, j :| Between(path, i, j) && path[i..j] == ['.' as int, '.' as int] {
      ParentThere(path, i, j);
    }
  }

  lemma ParentFound(path: Text) returns (i: int)
    requires HasParent(path)
    ensures Between(path, i, i + 2) && path[i..i + 2] == ['.' as int, '.' as int]
  {
    i :| 0 <= i <= |path| && ParentAt(path, i);
  }

  lemma ParentThere(path: Text, i: int, j: int)
    requires Between(path, i, j) && path[i..j] == ['.' as int, '.' as int]
    ensures HasParent(path)
  {
    hide IsSlash, Slash;
    SlashExactly();
    TwoDots(path, i, j);
    assert ParentAt(path, i);
  }

  lemma SlashExactly()
    ensures forall u :: IsSlash(u) <==> Slash(u)
  {
  }

  lemma TwoDots(path: Text, i: int, j: int)
    requires 0 <= i <= j <= |path| && path[i..j] == ['.' as int, '.' as int]
    ensures j == i + 2 && path[i] == 46 && path[i + 1] == 46
  {
    assert |path[i..j]| == 2;
    assert path[i..j][0] == path[i] && path[i..j][1] == path[i + 1];
  }

  lemma DigestExactly(digest: Text)
    ensures DigestOk(digest) <==> Sha256(digest)
  {
    forall i | 0 <= i < |digest| ensures digest[i] in digest {}
  }

  lemma NumbersMean(row: Evidence)
    ensures (forall n :: Some(n) in [row.ctimeMs, row.deviceId, row.inode] ==> n >= 0) <==>
              OptionalNonnegative(row.ctimeMs) && OptionalNonnegative(row.deviceId) && OptionalNonnegative(row.inode)
  {
    if forall n :: Some(n) in [row.ctimeMs, row.deviceId, row.inode] ==> n >= 0 {
      forall t | t in [row.ctimeMs, row.deviceId, row.inode] ensures OptionalNonnegative(t) {
        if t.Some? { assert Some(t.value) in [row.ctimeMs, row.deviceId, row.inode]; }
      }
      var all := [row.ctimeMs, row.deviceId, row.inode];
      assert all[0] in all && all[1] in all && all[2] in all;
    }
  }

  lemma RowExactly(row: Evidence)
    ensures RowOk(row) <==> Within(row)
  {
    hide Trim, PathOk, Relative, DigestOk, Sha256;
    RelativeExactly(row.relativePath);
    DigestExactly(row.observedContentHash);
    if row.processedContentHash.Some? { DigestExactly(row.processedContentHash.value); }
    NumbersMean(row);
  }

  ghost predicate AllWithin(runId: Text, rows: seq<Evidence>) {
    1 <= |Trim(runId)| <= 128 && 1 <= |rows| <= 10_000 && forall i :: 0 <= i < |rows| ==> Within(rows[i])
  }

  lemma InputExactly(runId: Text, rows: seq<Evidence>)
    ensures InputOk(runId, rows) <==> AllWithin(runId, rows)
  {
    hide RowOk, Within, Trim;
    forall i | 0 <= i < |rows| ensures RowOk(rows[i]) <==> Within(rows[i]) { RowExactly(rows[i]); }
  }

  ghost predicate OrdinalsDiffer(rows: seq<Evidence>) { forall i, j :: 0 <= i < j < |rows| ==> rows[i].ordinal != rows[j].ordinal }

  ghost predicate ItemsDiffer(rows: seq<Evidence>) {
    forall i, j :: 0 <= i < j < |rows| ==> Trim(rows[i].sourceAuditItemId) != Trim(rows[j].sourceAuditItemId)
  }

  lemma DifferingMeans(rows: seq<Evidence>)
    ensures Unique(Ordinals(rows)) <==> OrdinalsDiffer(rows)
    ensures Unique(ItemIds(ParsedAll(rows))) <==> ItemsDiffer(rows)
  {
    hide Trim;
    var ordinals, ids := Ordinals(rows), ItemIds(ParsedAll(rows));
    assert |ids| == |rows| && forall i :: 0 <= i < |rows| ==> ids[i] == Trim(rows[i].sourceAuditItemId);
    if Unique(ordinals) {
      forall i, j | 0 <= i < j < |rows| ensures rows[i].ordinal != rows[j].ordinal { assert ordinals[i] != ordinals[j]; }
    }
    if Unique(ids) {
      forall i, j | 0 <= i < j < |rows| ensures Trim(rows[i].sourceAuditItemId) != Trim(rows[j].sourceAuditItemId) {
        assert ids[i] != ids[j];
      }
    }
  }

  /** Accepted are exactly the inputs within the limits whose ordinals are 0 to n - 1 in some order and whose item ids,
      once trimmed, are all different. */
  lemma AcceptsExactly(runId: Text, rows: seq<Evidence>)
    ensures Canonical(runId, rows).Ok? <==>
              && AllWithin(runId, rows)
              && multiset(Ordinals(rows)) == multiset(UpTo(|rows|))
              && ItemsDiffer(rows)
  {
    hide *;
    AcceptsSorted(runId, rows);
    InputExactly(runId, rows);
    DifferingMeans(rows);
  }

  /** Which complaint an input draws: the run id's limits come first, then the rows', then repeated ordinals and ids, and
      a gap is complained about only when nothing repeats. */
  lemma RefusesExactly(runId: Text, rows: seq<Evidence>)
    ensures Canonical(runId, rows) == Err(InvalidRunId) <==> !(1 <= |Trim(runId)| <= 128)
    ensures Canonical(runId, rows) == Err(InvalidRows) <==> 1 <= |Trim(runId)| <= 128 && !AllWithin(runId, rows)
    ensures Canonical(runId, rows) in {Err(DuplicateOrdinal), Err(DuplicateItem)} <==>
              AllWithin(runId, rows) && !(OrdinalsDiffer(rows) && ItemsDiffer(rows))
    ensures Canonical(runId, rows) == Err(DuplicateOrdinal) ==> !OrdinalsDiffer(rows)
    ensures Canonical(runId, rows) == Err(DuplicateItem) ==> !ItemsDiffer(rows)
    ensures Canonical(runId, rows) == Err(OrdinalGap) <==>
              && AllWithin(runId, rows) && OrdinalsDiffer(rows) && ItemsDiffer(rows)
              && multiset(Ordinals(rows)) != multiset(UpTo(|rows|))
  {
    hide RowOk, SortedRows, Write, Document, Trim, Within, Repeated, Contiguous, OrdinalsDiffer, ItemsDiffer;
    AcceptsExactly(runId, rows);
    InputExactly(runId, rows);
    DifferingMeans(rows);
    SortedRepeats(rows);
    RepeatedIsOf(SortedRows(rows), |SortedRows(rows)|);
  }

  lemma ContiguousMeans(rows: seq<Evidence>)
    ensures Contiguous(rows) <==> Ordinals(rows) == UpTo(|rows|)
  {
    if Ordinals(rows) == UpTo(|rows|) {
      forall i | 0 <= i < |rows| ensures rows[i].ordinal == i { assert Ordinals(rows)[i] == i; }
    }
  }

  lemma LimitsMean(runId: Text, rows: seq<Evidence>)
    ensures InputOk(runId, rows) ==> IdOk(runId, 128)
  {
  }

  // ----- when two inputs give the same text ---------------------------------------------------------------

  lemma AcceptedMeans(runId: Text, rows: seq<Evidence>)
    requires Canonical(runId, rows).Ok?
    ensures InputOk(runId, rows) && Contiguous(SortedRows(rows))
    ensures Canonical(runId, rows) == Ok(Write(Document(Trim(runId), SortedRows(rows))))
    ensures multiset(SortedRows(rows)) == multiset(ParsedAll(rows))
  {
    hide InputOk, IdOk, Write, Document, SortedRows;
    LimitsMean(runId, rows);
    SortedColumns(rows);
  }

  lemma ContiguousIsUnique(a: seq<Evidence>, b: seq<Evidence>)
    requires Contiguous(a) && Contiguous(b) && multiset(a) == multiset(b)
    ensures a == b
  {
    assert |multiset(a)| == |multiset(b)|;
    forall i | 0 <= i < |a| ensures a[i] == b[i] {
      assert a[i] in multiset(b);
      var j :| 0 <= j < |b| && b[j] == a[i];
    }
  }

  lemma DecimalIsInjective(m: nat, n: nat)
    requires Decimal(m) == Decimal(n)
    ensures m == n
  {
    DecimalReads(m);
    DecimalReads(n);
  }

  /** A parsed row of an accepted input: every number in it is natural. */
  predicate NumbersOk(row: Evidence) {
    && row.ordinal >= 0 && row.sizeBytes >= 0 && row.mtimeMs >= 0
    && OptionalNonnegative(row.expectedArtworkId)
    && OptionalNonnegative(row.ctimeMs) && OptionalNonnegative(row.deviceId) && OptionalNonnegative(row.inode)
  }

  lemma BigIsInjective(m: Option<int>, n: Option<int>)
    requires OptionalNonnegative(m) && OptionalNonnegative(n) && BigOrNull(m) == BigOrNull(n)
    ensures m == n
  {
    if m.Some? { DecimalIsInjective(m.value, n.value); }
  }

  /** The columns that are no numbers in decimal notation. */
  lemma PlainColumns(a: Evidence, b: Evidence)
    requires NumbersOk(a) && NumbersOk(b) && RowJson(a) == RowJson(b)
    ensures a.ordinal == b.ordinal && a.sourceAuditItemId == b.sourceAuditItemId
    ensures a.auditDifferenceKind == b.auditDifferenceKind && a.relativePath == b.relativePath
    ensures a.expectedExternalId == b.expectedExternalId && a.observedExternalId == b.observedExternalId
    ensures a.expectedInventoryId == b.expectedInventoryId && a.expectedExternalRefId == b.expectedExternalRefId
    ensures a.expectedArtworkId == b.expectedArtworkId && a.observedContentHash == b.observedContentHash
    ensures a.processedContentHash == b.processedContentHash
  {
    hide Decimal;
    var left, right := RowJson(a).items, RowJson(b).items;
    assert left[0] == right[0] && left[1] == right[1] && left[2] == right[2] && left[3] == right[3];
    assert left[4] == right[4] && left[5] == right[5] && left[6] == right[6] && left[7] == right[7];
    assert left[8] == right[8] && left[9] == right[9] && left[10] == right[10];
    assert NEW_TEXT[0] != CHANGED_TEXT[0];
  }

  lemma RowJsonIsInjective(a: Evidence, b: Evidence)
    requires NumbersOk(a) && NumbersOk(b) && RowJson(a) == RowJson(b)
    ensures a == b
  {
    hide Decimal;
    PlainColumns(a, b);
    var left, right := RowJson(a).items, RowJson(b).items;
    assert left[11] == right[11] && left[12] == right[12] && left[13] == right[13] && left[14] == right[14] && left[15] == right[15];
    DecimalIsInjective(a.sizeBytes, b.sizeBytes);
    DecimalIsInjective(a.mtimeMs, b.mtimeMs);
    BigIsInjective(a.ctimeMs, b.ctimeMs);
    BigIsInjective(a.deviceId, b.deviceId);
    BigIsInjective(a.inode, b.inode);
  }

  lemma DocumentIsInjective(runId: Text, a: seq<Evidence>, runId': Text, b: seq<Evidence>)
    requires Document(runId, a) == Document(runId', b)
    requires forall i :: 0 <= i < |a| ==> NumbersOk(a[i])
    requires forall i :: 0 <= i < |b| ==> NumbersOk(b[i])
    ensures runId == runId' && a == b
  {
    hide RowJson, NumbersOk;
    var left, right := Document(runId, a).items, Document(runId', b).items;
    assert left[1] == right[1] && left[2] == right[2];
    assert RowsJson(a) == RowsJson(b);
    forall i | 0 <= i < |a| ensures a[i] == b[i] {
      assert RowsJson(a)[i] == RowsJson(b)[i];
      RowJsonIsInjective(a[i], b[i]);
    }
  }

  lemma SortedNumbersOk(runId: Text, rows: seq<Evidence>)
    requires InputOk(runId, rows)
    ensures forall i :: 0 <= i < |SortedRows(rows)| ==> NumbersOk(SortedRows(rows)[i])
  {
    hide Trim;
    var sorted := SortedRows(rows);
    forall i | 0 <= i < |sorted| ensures NumbersOk(sorted[i]) {
      SortMembers(ParsedAll(rows), ByOrdinal, sorted[i]);
      var j :| 0 <= j < |rows| && ParsedAll(rows)[j] == sorted[i];
      assert RowOk(rows[j]);
    }
  }

  /** Two accepted inputs give the same text exactly when they have the same run id and the same rows, whatever the
      order of the rows, where both are compared as their schemas hand them on. */
  lemma SameTextExactlyWhen(runId: Text, rows: seq<Evidence>, runId': Text, rows': seq<Evidence>)
    requires Canonical(runId, rows).Ok? && Canonical(runId', rows').Ok?
    ensures Canonical(runId, rows) == Canonical(runId', rows') <==>
              Trim(runId) == Trim(runId') && multiset(ParsedAll(rows)) == multiset(ParsedAll(rows'))
  {
    hide *;
    AcceptedMeans(runId, rows);
    AcceptedMeans(runId', rows');
    if Canonical(runId, rows) == Canonical(runId', rows') {
      WriteIsInjective(Document(Trim(runId), SortedRows(rows)), Document(Trim(runId'), SortedRows(rows')));
      SortedNumbersOk(runId, rows);
      SortedNumbersOk(runId', rows');
      DocumentIsInjective(Trim(runId), SortedRows(rows), Trim(runId'), SortedRows(rows'));
    } else if multiset(ParsedAll(rows)) == multiset(ParsedAll(rows')) {
      ContiguousIsUnique(SortedRows(rows), SortedRows(rows'));
    }
  }

  /** The order of the rows never matters. */
  lemma OrderDoesNotMatter(runId: Text, rows: seq<Evidence>, rows': seq<Evidence>)
    requires multiset(rows) == multiset(rows') && Canonical(runId, rows).Ok?
    ensures Canonical(runId, rows') == Canonical(runId, rows)
  {
    hide *;
    SameRowsSameColumns(rows, rows');
    SameRowsSameColumns(ParsedAll(rows), ParsedAll(rows'));
    AcceptsSorted(runId, rows);
    UniqueAlike(ItemIds(ParsedAll(rows)), ItemIds(ParsedAll(rows')));
    AcceptsSorted(runId, rows');
    SameLimits(runId, rows, rows');
    SameTextExactlyWhen(runId, rows, runId, rows');
  }

  lemma SameLimits(runId: Text, rows: seq<Evidence>, rows': seq<Evidence>)
    requires multiset(rows) == multiset(rows') && InputOk(runId, rows)
    ensures InputOk(runId, rows') && |rows| == |rows'|
  {
    hide RowOk, IdOk;
    assert |multiset(rows)| == |multiset(rows')|;
    forall i | 0 <= i < |rows'| ensures RowOk(rows'[i]) {
      assert rows'[i] in multiset(rows);
      var j :| 0 <= j < |rows| && rows[j] == rows'[i];
    }
  }

  /** The text is not injective on the inputs as given: a space in front of the run id makes no difference. */
  lemma PaddingIsInvisible(runId: Text, rows: seq<Evidence>)
    ensures [32] + runId != runId
    ensures Canonical([32] + runId, rows) == Canonical(runId, rows)
  {
    hide TrimEnd, RowOk, SortedRows, Write, Document;
    assert ([32] + runId)[1..] == runId;
    assert TrimStart([32] + runId) == TrimStart(runId);
    assert |[32] + runId| != |runId|;
  }

  /** The text never contains half of a surrogate pair, so encoding it as UTF-8 before hashing loses nothing. */
  lemma TextIsWellFormed(runId: Text, rows: seq<Evidence>)
    requires Canonical(runId, rows).Ok?
    ensures WellFormed(Canonical(runId, rows).value)
  {
    hide *;
    AcceptedMeans(runId, rows);
    WriteIsWellFormed(Document(Trim(runId), SortedRows(rows)));
  }

  // ----- the text itself ----------------------------------------------------------------------------------

  function Quoted(s: Text): Text { ['"' as int] + Escaped(s) + ['"' as int] }

  function QuotedOrNull(s: Option<Text>): Text { if s.Some? then Quoted(s.value) else NULL }

  function QuotedNumber(n: int): Text
    requires n >= 0
  {
    ['"' as int] + Decimal(n) + ['"' as int]
  }

  function QuotedNumberOrNull(n: Option<int>): Text
    requires n.Some? ==> n.value >= 0
  {
    if n.Some? then QuotedNumber(n.value) else NULL
  }

  /** The sixteen columns of a row in their order: the ordinal and the artwork are numbers, sizes, times and file numbers
      are in quotes, and the texts are trimmed. */
  function RowText(row: Evidence): Text
    requires NumbersOk(row)
  {
    Bracketed(RowTexts(row))
  }

  function Bracketed(texts: seq<Text>): Text { ['[' as int] + Join(texts, ',' as int) + [']' as int] }

  function AllRowTexts(rows: seq<Evidence>): (texts: seq<Text>)
    requires forall i :: 0 <= i < |rows| ==> NumbersOk(rows[i])
    ensures |texts| == |rows| && forall i :: 0 <= i < |rows| ==> texts[i] == RowText(rows[i])
  {
    seq(|rows|, i requires 0 <= i < |rows| => RowText(rows[i]))
  }

  function RowTexts(row: Evidence): (texts: seq<Text>)
    requires NumbersOk(row)
    ensures |texts| == 16
  {
    [ Decimal(row.ordinal),
      Quoted(Trim(row.sourceAuditItemId)),
      Quoted(if row.auditDifferenceKind.NEW? then NEW_TEXT else CHANGED_TEXT),
      Quoted(Trim(row.relativePath)),
      Quoted(Trim(row.expectedExternalId)),
      Quoted(Trim(row.observedExternalId)),
      QuotedOrNull(TrimOption(row.expectedInventoryId)),
      QuotedOrNull(TrimOption(row.expectedExternalRefId)),
      if row.expectedArtworkId.Some? then Decimal(row.expectedArtworkId.value) else NULL,
      Quoted(row.observedContentHash),
      QuotedOrNull(row.processedContentHash),
      QuotedNumber(row.sizeBytes),
      QuotedNumber(row.mtimeMs),
      QuotedNumberOrNull(row.ctimeMs),
      QuotedNumberOrNull(row.deviceId),
      QuotedNumberOrNull(row.inode)]
  }

  lemma StringIsWritten(s: Text)
    ensures Write(JString(s)) == Quoted(s)
    ensures Write(TextOrNull(Some(s))) == QuotedOrNull(Some(s)) && Write(TextOrNull(None)) == QuotedOrNull(None)
  {
    hide Escaped;
  }

  lemma OptionIsWritten(s: Option<Text>)
    ensures Write(TextOrNull(s)) == QuotedOrNull(s)
  {
    hide Escaped, Quoted, QuotedOrNull;
    if s.Some? { StringIsWritten(s.value); } else { StringIsWritten([]); }
  }

  lemma NumberIsWritten(n: Option<int>)
    requires n.Some? ==> n.value >= 0
    ensures Write(BigOrNull(n)) == QuotedNumberOrNull(n)
    ensures n.Some? ==> Write(JString(Decimal(Natural(n.value)))) == QuotedNumber(n.value)
    ensures n.Some? ==> Write(JNumber(Natural(n.value))) == Decimal(n.value)
  {
    hide Escaped, Decimal, Quoted;
    if n.Some? {
      StringIsWritten(Decimal(n.value));
      DigitsAreWritten(Decimal(n.value));
    }
  }

  lemma {:induction false} DigitsAreWritten(t: Text)
    requires forall i :: 0 <= i < |t| ==> IsDigit(t[i])
    ensures Escaped(t) == t
    decreases |t|
  {
    if t != [] {
      DigitsAreWritten(t[1..]);
      assert t == [t[0]] + t[1..];
    }
  }

  lemma RowIsWritten(row: Evidence)
    requires NumbersOk(row)
    ensures Write(RowJson(Parsed(row))) == RowText(row)
  {
    hide Escaped, Decimal, Quoted, QuotedOrNull, QuotedNumber, QuotedNumberOrNull, TextOrNull, BigOrNull, Trim, Write, Join, WriteItems;
    var items := RowJson(Parsed(row)).items;
    var texts := RowTexts(row);
    forall i | 0 <= i < 16 ensures Write(items[i]) == texts[i] { ColumnIsWritten(row, i); }
    ItemsForm(items, texts);
    WriteUnfold(RowJson(Parsed(row)));
  }

  lemma ColumnIsWritten(row: Evidence, i: nat)
    requires NumbersOk(row) && i < 16
    ensures Write(RowJson(Parsed(row)).items[i]) == RowTexts(row)[i]
  {
    hide Escaped, Decimal, Quoted, QuotedOrNull, QuotedNumber, QuotedNumberOrNull, TextOrNull, BigOrNull, Trim, Write, Natural;
    StringIsWritten(Trim(row.sourceAuditItemId));
    StringIsWritten(if row.auditDifferenceKind.NEW? then NEW_TEXT else CHANGED_TEXT);
    StringIsWritten(Trim(row.relativePath));
    StringIsWritten(Trim(row.expectedExternalId));
    StringIsWritten(Trim(row.observedExternalId));
    StringIsWritten(row.observedContentHash);
    OptionIsWritten(TrimOption(row.expectedInventoryId));
    OptionIsWritten(TrimOption(row.expectedExternalRefId));
    OptionIsWritten(row.processedContentHash);
    NumberIsWritten(Some(row.ordinal));
    NumberIsWritten(row.expectedArtworkId);
    NumberIsWritten(Some(row.sizeBytes));
    NumberIsWritten(Some(row.mtimeMs));
    NumberIsWritten(row.ctimeMs);
    NumberIsWritten(row.deviceId);
    NumberIsWritten(row.inode);
    WriteUnfold(JNull);
  }

  lemma {:induction false} InsertParsed(row: Evidence, rows: seq<Evidence>)
    ensures Insert(Parsed(row), ParsedAll(rows), ByOrdinal) == ParsedAll(Insert(row, rows, ByOrdinal))
    decreases |rows|
  {
    hide Trim;
    if rows == [] || ByOrdinal(row, rows[0]) {
    } else {
      InsertParsed(row, rows[1..]);
      assert ParsedAll(rows)[1..] == ParsedAll(rows[1..]);
    }
  }

  lemma {:induction false} SortParsed(rows: seq<Evidence>)
    ensures Sort(ParsedAll(rows), ByOrdinal) == ParsedAll(Sort(rows, ByOrdinal))
    decreases |rows|
  {
    hide Parsed, Insert;
    if rows != [] {
      SortParsed(rows[1..]);
      InsertParsed(rows[0], Sort(rows[1..], ByOrdinal));
      assert ParsedAll(rows)[1..] == ParsedAll(rows[1..]);
    }
  }

  lemma RowsAreWritten(rows: seq<Evidence>)
    requires forall i :: 0 <= i < |rows| ==> NumbersOk(rows[i])
    ensures Write(JArray(RowsJson(ParsedAll(rows)))) == Bracketed(AllRowTexts(rows))
  {
    hide RowText, NumbersOk, Write, WriteItems, RowJson, Parsed, Join;
    var items := RowsJson(ParsedAll(rows));
    forall i | 0 <= i < |rows| ensures Write(items[i]) == RowText(rows[i]) { RowIsWritten(rows[i]); }
    ItemsForm(items, AllRowTexts(rows));
    WriteUnfold(JArray(items));
  }

  lemma DocumentIsWritten(runId: Text, rows: seq<Evidence>)
    requires forall i :: 0 <= i < |rows| ==> NumbersOk(rows[i])
    ensures Write(Document(runId, ParsedAll(rows))) == Bracketed([Quoted(DOMAIN), Quoted(runId), Bracketed(AllRowTexts(rows))])
  {
    hide RowText, NumbersOk, Write, WriteItems, RowsJson, AllRowTexts, Parsed, Quoted, Join;
    RowsAreWritten(rows);
    StringIsWritten(DOMAIN);
    StringIsWritten(runId);
    ItemsForm(Document(runId, ParsedAll(rows)).items, [Quoted(DOMAIN), Quoted(runId), Bracketed(AllRowTexts(rows))]);
    WriteUnfold(Document(runId, ParsedAll(rows)));
  }

  /** The text of an accepted input: the domain, the trimmed run id and, in the order of their ordinals, the rows. */
  lemma TextForm(runId: Text, rows: seq<Evidence>) returns (order: seq<Evidence>)
    requires Canonical(runId, rows).Ok?
    ensures multiset(order) == multiset(rows)
    ensures forall i :: 0 <= i < |order| ==> order[i].ordinal == i && NumbersOk(order[i])
    ensures Canonical(runId, rows) == Ok(Bracketed([Quoted(DOMAIN), Quoted(Trim(runId)), Bracketed(AllRowTexts(order))]))
  {
    hide RowText, Bracketed, Quoted, Trim, Write, Document, InputOk, Canonical;
    order := Sort(rows, ByOrdinal);
    AcceptedMeans(runId, rows);
    SortKeeps(rows, ByOrdinal);
    SortParsed(rows);
    SortedNumbersOk(runId, rows);
    forall i | 0 <= i < |order| ensures order[i].ordinal == i && NumbersOk(order[i]) {
      assert ParsedAll(order)[i] == SortedRows(rows)[i];
    }
    DocumentIsWritten(Trim(runId), order);
  }
}
