/** The public address of a derived media file: its printer and its parser. */
module DerivedMedia {
  import opened Prelude
  import opened JsonText
  import opened UriComponent

  datatype DerivedMediaKind = VIDEO_POSTER | VIDEO_CHAPTER_PREVIEW | VIDEO_KEYFRAME

  const BACKSLASH_UNIT: Unit := 92
  const QUESTION: Unit := 63
  const AMPERSAND: Unit := 38
  const EQUALS: Unit := 61
  const DOT: Unit := 46
  const LETTER_V: Unit := 118
  const MINUS: Unit := 45

  function PublicPrefix(kind: DerivedMediaKind): Text {
    match kind
    case VIDEO_POSTER => Chars("/_video-posters/")
    case VIDEO_CHAPTER_PREVIEW => Chars("/_video-chapter-previews/")
    case VIDEO_KEYFRAME => Chars("/_video-keyframes/")
  }

  function ImgproxyPrefix(kind: DerivedMediaKind): Text {
    match kind
    case VIDEO_POSTER => Chars("/derived-media/video/posters")
    case VIDEO_CHAPTER_PREVIEW => Chars("/derived-media/video/chapters")
    case VIDEO_KEYFRAME => Chars("/derived-media/video/keyframes")
  }

  datatype Source = Source(kind: DerivedMediaKind, relativePath: Text, imgproxySourcePath: Text, version: Option<Text>)

  datatype BuildError = InvalidPath | MalformedText

  // ----- splitting and joining ------------------------------------------------------------------------

  /** `split` on one character; there is always a first part. */
  function Split(t: Text, separator: Unit): (parts: seq<Text>)
    ensures parts != []
    decreases |t|
  {
    if t == [] then [[]]
    else
      var others := Split(t[1..], separator);
      if t[0] == separator then [[]] + others else [[t[0]] + others[0]] + others[1..]
  }

  predicate Free(parts: seq<Text>, separator: Unit) { forall i :: 0 <= i < |parts| ==> separator !in parts[i] }

  lemma JoinUnfold(parts: seq<Text>, separator: Unit)
    requires parts != []
    ensures Join(parts, separator) == if |parts| == 1 then parts[0] else parts[0] + [separator] + Join(parts[1..], separator)
  {
  }

  lemma SplitUnfold(t: Text, separator: Unit)
    requires t != []
    ensures var others := Split(t[1..], separator);
            Split(t, separator) == if t[0] == separator then [[]] + others else [[t[0]] + others[0]] + others[1..]
  {
  }

  lemma {:induction false} JoinSplit(t: Text, separator: Unit)
    ensures Join(Split(t, separator), separator) == t && Free(Split(t, separator), separator)
    decreases |t|
  {
    hide Join, Split;
    if t == [] {
      SplitNothing(separator);
      JoinUnfold([[]], separator);
    } else {
      JoinSplit(t[1..], separator);
      SplitUnfold(t, separator);
      var others, parts := Split(t[1..], separator), Split(t, separator);
      JoinUnfold(parts, separator);
      JoinUnfold(others, separator);
      assert parts[1..] == if t[0] == separator then others else others[1..];
      assert t == [t[0]] + t[1..];
    }
  }

  lemma SplitNothing(separator: Unit)
    ensures Split([], separator) == [[]]
  {
  }

  lemma {:induction false} SplitFirst(first: Text, rest: Text, separator: Unit)
    requires separator !in first
    ensures Split(first + [separator] + rest, separator) == [first] + Split(rest, separator)
    ensures Split(first, separator) == [first]
    decreases |first|
  {
    var t := first + [separator] + rest;
    if first == [] {
      assert t[1..] == rest;
    } else {
      SplitFirst(first[1..], rest, separator);
      assert t[1..] == first[1..] + [separator] + rest;
      assert first == [first[0]] + first[1..];
      assert ([first[1..]] + Split(rest, separator))[1..] == Split(rest, separator);
    }
  }

  lemma {:induction false} SplitJoin(parts: seq<Text>, separator: Unit)
    requires parts != [] && Free(parts, separator)
    ensures Split(Join(parts, separator), separator) == parts
    decreases |parts|
  {
    if |parts| == 1 {
      SplitFirst(parts[0], [], separator);
      assert parts == [parts[0]];
    } else {
      SplitJoin(parts[1..], separator);
      SplitFirst(parts[0], Join(parts[1..], separator), separator);
      assert parts == [parts[0]] + parts[1..];
    }
  }

  // ----- paths ------------------------------------------------------------------------------------------

  predicate SegmentOk(segment: Text) { segment != [] && segment != [DOT] && segment != [DOT, DOT] }

  predicate HasControl(path: Text) { exists i :: 0 <= i < |path| && (path[i] <= 31 || path[i] == 127) }

  function Normalize(path: Text): Option<Text> {
    if path == [] || BACKSLASH_UNIT in path || HasControl(path) then None
    else if exists i :: 0 <= i < |Split(path, SLASH)| && !SegmentOk(Split(path, SLASH)[i]) then None
    else Some(Join(Split(path, SLASH), SLASH))
  }

  lemma NormalizeKeeps(path: Text)
    ensures Normalize(path).Some? ==> Normalize(path).value == path
  {
    JoinSplit(path, SLASH);
  }

  /** Part of a path: something, no slash in it, and neither of the two names for a directory itself. */
  predicate Part(t: Text) { t != [] && '/' as int !in t && t != Chars(".") && t != Chars("..") }

  /** Parts with slashes between them, without control characters, backslashes and the deletion character. */
  ghost predicate NormalPath(path: Text) {
    && (forall i :: 0 <= i < |path| ==> path[i] >= ' ' as int && path[i] != 127 && path[i] != '\\' as int)
    && exists parts: seq<Text> ::
         parts != [] && (forall i :: 0 <= i < |parts| ==> Part(parts[i])) && path == Join(parts, '/' as int)
  }

  lemma PartMeans(t: Text)
    ensures Part(t) <==> SegmentOk(t) && SLASH !in t
  {
    assert Chars(".") == [DOT] && Chars("..") == [DOT, DOT];
  }

  lemma {:induction false} PartsMean(parts: seq<Text>)
    ensures (forall i :: 0 <= i < |parts| ==> Part(parts[i])) <==>
              Free(parts, SLASH) && forall i :: 0 <= i < |parts| ==> SegmentOk(parts[i])
  {
    hide Part, SegmentOk;
    forall i | 0 <= i < |parts| ensures Part(parts[i]) <==> SegmentOk(parts[i]) && SLASH !in parts[i] { PartMeans(parts[i]); }
  }

  /** The normalizer accepts the normal paths and no others. */
  lemma NormalizesExactly(path: Text)
    ensures Normalize(path).Some? <==> NormalPath(path)
  {
    hide Split, Join, SegmentOk, Part;
    var segments := Split(path, SLASH);
    JoinSplit(path, SLASH);
    PartsMean(segments);
    if Normalize(path).Some? {
      assert path == Join(segments, '/' as int);
    } else if NormalPath(path) {
      var parts :| parts != [] && (forall i :: 0 <= i < |parts| ==> Part(parts[i])) && path == Join(parts, '/' as int);
      PartsMean(parts);
      SplitJoin(parts, SLASH);
      PartMeans(parts[0]);
      JoinIsNonempty(parts);
    }
  }

  lemma JoinIsNonempty(parts: seq<Text>)
    requires parts != [] && SegmentOk(parts[0])
    ensures Join(parts, SLASH) != []
  {
  }

  function EncodeAll(segments: seq<Text>): Option<seq<Text>>
    decreases |segments|
  {
    if segments == [] then Some([])
    else if Encode(segments[0]).None? || EncodeAll(segments[1..]).None? then None
    else Some([Encode(segments[0]).value] + EncodeAll(segments[1..]).value)
  }

  function DecodeAll(segments: seq<Text>): (r: Option<seq<Text>>)
    ensures r.Some? ==> |r.value| == |segments|
    decreases |segments|
  {
    if segments == [] then Some([])
    else if Decode(segments[0]).None? || DecodeAll(segments[1..]).None? then None
    else Some([Decode(segments[0]).value] + DecodeAll(segments[1..]).value)
  }

  /** `encodeDerivedMediaRelativePath` */
  function EncodePath(path: Text): Result<Text, BuildError> {
    var normalized := Normalize(path);
    if normalized.None? then Err(InvalidPath) else
    var encoded := EncodeAll(Split(normalized.value, SLASH));
    if encoded.None? || encoded.value == [] then Err(MalformedText) else Ok(Join(encoded.value, SLASH))
  }

  /** A timestamp as the language prints it. */
  function PrintTime(time: int): Text { if time < 0 then [MINUS] + Decimal(-time) else Decimal(time) }

  /** `buildDerivedMediaPublicUrl`; None stands for a missing or unusable time. */
  function Build(kind: DerivedMediaKind, path: Text, updatedAt: Option<int>): Result<Text, BuildError> {
    var encoded := EncodePath(path);
    if encoded.Err? then encoded
    else
      var base := PublicPrefix(kind) + encoded.value;
      Ok(if updatedAt.None? then base else base + [QUESTION, LETTER_V, EQUALS] + PrintTime(updatedAt.value))
  }

  // ----- the query ----------------------------------------------------------------------------------------

  /** Plus signs and percent escapes of a query component, decoded. */
  type FormDecoder = Text -> Text

  /** Letters, digits and minus signs stand for themselves. */
  predicate FormPlain(t: Text) { forall i :: 0 <= i < |t| ==> IsDigit(t[i]) || t[i] == MINUS || 97 <= t[i] <= 122 }

  ghost predicate KeepsPlain(form: FormDecoder) { forall t :: FormPlain(t) ==> form(t) == t }

  /** The text before and after the first separator; without one, all of it and nothing. */
  function Cut(t: Text, separator: Unit): (Text, Option<Text>) {
    if t == [] then ([], None)
    else if t[0] == separator then ([], Some(t[1..]))
    else ([t[0]] + Cut(t[1..], separator).0, Cut(t[1..], separator).1)
  }

  function FirstNamed(pairs: seq<Text>, name: Text, form: FormDecoder): Option<Text> {
    if pairs == [] then None
    else
      var (key, value) := Cut(pairs[0], EQUALS);
      if pairs[0] != [] && form(key) == name then Some(if value.Some? then form(value.value) else form([]))
      else FirstNamed(pairs[1..], name, form)
  }

  /** `new URLSearchParams(query).get(name)` */
  function QueryGet(query: Text, name: Text, form: FormDecoder): Option<Text> {
    var stripped := if query != [] && query[0] == QUESTION then query[1..] else query;
    FirstNamed(Split(stripped, AMPERSAND), name, form)
  }

  // ----- the parser -----------------------------------------------------------------------------------------

  function RouteOf(src: Text): Option<DerivedMediaKind> {
    if PublicPrefix(VIDEO_POSTER) <= src then Some(VIDEO_POSTER)
    else if PublicPrefix(VIDEO_CHAPTER_PREVIEW) <= src then Some(VIDEO_CHAPTER_PREVIEW)
    else if PublicPrefix(VIDEO_KEYFRAME) <= src then Some(VIDEO_KEYFRAME)
    else None
  }

  predicate HidesSeparator(segments: seq<Text>) {
    exists i :: 0 <= i < |segments| && (SLASH in segments[i] || BACKSLASH_UNIT in segments[i])
  }

  /** `resolveDerivedMediaSource` */
  function Resolve(src: Text, form: FormDecoder): Option<Source> {
    var kind := RouteOf(src);
    if kind.None? || |src| < |PublicPrefix(kind.value)| then None else
    var (encodedPath, query) := Cut(src[|PublicPrefix(kind.value)|..], QUESTION);
    var decoded := DecodeAll(Split(encodedPath, SLASH));
    if decoded.None? || decoded.value == [] || HidesSeparator(decoded.value) then None else
    var path := Normalize(Join(decoded.value, SLASH));
    if path.None? then None
    else
      Some(Source(kind.value, path.value, ImgproxyPrefix(kind.value) + [SLASH] + path.value,
                  QueryGet(if query.Some? then query.value else [], [LETTER_V], form)))
  }

  // ----- building succeeds ------------------------------------------------------------------------------------

  lemma WellFormedJoins(a: Text, separator: Unit, b: Text)
    requires !HighSurrogate(separator) && !LowSurrogate(separator)
    ensures WellFormed(a + [separator] + b) <==> WellFormed(a) && WellFormed(b)
    decreases |a|
  {
    var t := a + [separator] + b;
    if a == [] {
      assert t[1..] == b;
    } else if HighSurrogate(a[0]) {
      if |a| > 1 {
        assert t[2..] == a[2..] + [separator] + b;
        WellFormedJoins(a[2..], separator, b);
      } else {
        assert t[1] == separator;
      }
    } else {
      assert t[1..] == a[1..] + [separator] + b;
      WellFormedJoins(a[1..], separator, b);
    }
  }

  lemma {:induction false} EncodeAllExactly(segments: seq<Text>)
    requires segments != []
    ensures EncodeAll(segments).Some? <==> WellFormed(Join(segments, SLASH))
    decreases |segments|
  {
    hide Encode, WellFormed;
    EncodesExactly(segments[0]);
    if |segments| == 1 {
      assert EncodeAll(segments[1..]) == Some([]);
    } else {
      EncodeAllExactly(segments[1..]);
      WellFormedJoins(segments[0], SLASH, Join(segments[1..], SLASH));
    }
  }

  lemma {:induction false} EncodedAll(segments: seq<Text>)
    requires EncodeAll(segments).Some?
    ensures var encoded := EncodeAll(segments).value;
            && |encoded| == |segments| && DecodeAll(encoded) == Some(segments)
            && forall i :: 0 <= i < |encoded| ==> Plain(encoded[i])
    decreases |segments|
  {
    hide Encode, Decode, Plain;
    if segments != [] {
      EncodedAll(segments[1..]);
      EncodedDecodes(segments[0]);
      EncodedIsPlain(segments[0]);
      var encoded := EncodeAll(segments).value;
      assert encoded[1..] == EncodeAll(segments[1..]).value;
      assert segments == [segments[0]] + segments[1..];
    }
  }

  /** An address can be built exactly for paths the normalizer accepts and that have no half of a surrogate pair. */
  lemma BuildsExactly(kind: DerivedMediaKind, path: Text, updatedAt: Option<int>)
    ensures Build(kind, path, updatedAt).Ok? <==> NormalPath(path) && WellFormed(path)
  {
    hide Normalize, NormalPath, EncodeAll, WellFormed, PrintTime;
    NormalizesExactly(path);
    NormalizeKeeps(path);
    JoinSplit(path, SLASH);
    EncodeAllExactly(Split(path, SLASH));
    if EncodeAll(Split(path, SLASH)).Some? { EncodedAll(Split(path, SLASH)); }
  }

  // ----- and resolves --------------------------------------------------------------------------------------------

  lemma {:induction false} PlainJoins(parts: seq<Text>)
    requires parts != [] && forall i :: 0 <= i < |parts| ==> Plain(parts[i])
    ensures QUESTION !in Join(parts, SLASH) && Free(parts, SLASH)
    decreases |parts|
  {
    PlainMeans(parts[0]);
    if |parts| > 1 { PlainJoins(parts[1..]); }
  }

  lemma PlainMeans(t: Text)
    requires Plain(t)
    ensures QUESTION !in t && SLASH !in t
  {
  }

  lemma {:induction false} CutAt(first: Text, rest: Text, separator: Unit)
    requires separator !in first
    ensures Cut(first + [separator] + rest, separator) == (first, Some(rest))
    ensures Cut(first, separator) == (first, None)
    decreases |first|
  {
    var t := first + [separator] + rest;
    if first == [] {
      assert t[1..] == rest;
    } else {
      assert t[1..] == first[1..] + [separator] + rest;
      CutAt(first[1..], rest, separator);
      assert first == [first[0]] + first[1..];
    }
  }

  lemma PrefixesDiffer(kind: DerivedMediaKind, rest: Text)
    ensures RouteOf(PublicPrefix(kind) + rest) == Some(kind)
    ensures (PublicPrefix(kind) + rest)[|PublicPrefix(kind)|..] == rest
  {
    var src := PublicPrefix(kind) + rest;
    assert src[8] == PublicPrefix(kind)[8];
    assert PublicPrefix(VIDEO_POSTER)[8] == 112 && PublicPrefix(VIDEO_CHAPTER_PREVIEW)[8] == 99
        && PublicPrefix(VIDEO_KEYFRAME)[8] == 107;
  }

  lemma TimeIsPlain(time: int)
    ensures FormPlain(PrintTime(time)) && AMPERSAND !in PrintTime(time) && PrintTime(time) != []
  {
  }

  lemma QueryHasVersion(time: int, form: FormDecoder)
    requires KeepsPlain(form)
    ensures QueryGet([LETTER_V, EQUALS] + PrintTime(time), [LETTER_V], form) == Some(PrintTime(time))
  {
    hide PrintTime, FormPlain;
    var query := [LETTER_V, EQUALS] + PrintTime(time);
    TimeIsPlain(time);
    NameIsPlain();
    SplitFirst(query, [], AMPERSAND);
    assert query == [LETTER_V] + [EQUALS] + PrintTime(time);
    CutAt([LETTER_V], PrintTime(time), EQUALS);
  }

  lemma NameIsPlain()
    ensures FormPlain([LETTER_V])
  {
  }

  function VersionOf(updatedAt: Option<int>): Option<Text> {
    if updatedAt.Some? then Some(PrintTime(updatedAt.value)) else None
  }

  lemma EmptyQuery(form: FormDecoder)
    ensures QueryGet([], [LETTER_V], form) == None
  {
    var pairs := Split([], AMPERSAND);
    assert pairs == [[]] && pairs[1..] == [];
    assert FirstNamed(pairs[1..], [LETTER_V], form) == None;
  }

  /** The path part of a built address decodes to the segments of the path. */
  lemma PathDecodes(path: Text)
    requires EncodePath(path).Ok?
    ensures QUESTION !in EncodePath(path).value
    ensures DecodeAll(Split(EncodePath(path).value, SLASH)) == Some(Split(path, SLASH))
  {
    hide Normalize, EncodeAll, DecodeAll, Plain, Join;
    NormalizeKeeps(path);
    EncodedAll(Split(path, SLASH));
    var encoded := EncodeAll(Split(path, SLASH)).value;
    PlainJoins(encoded);
    SplitJoin(encoded, SLASH);
  }

  lemma CutsBack(kind: DerivedMediaKind, path: Text, updatedAt: Option<int>)
    requires Build(kind, path, updatedAt).Ok?
    ensures EncodePath(path).Ok? && RouteOf(Build(kind, path, updatedAt).value) == Some(kind)
    ensures var src := Build(kind, path, updatedAt).value;
            |src| >= |PublicPrefix(kind)|
            && Cut(src[|PublicPrefix(kind)|..], QUESTION)
                 == (EncodePath(path).value,
                     if updatedAt.Some? then Some([LETTER_V, EQUALS] + PrintTime(updatedAt.value)) else None)
  {
    hide EncodePath, PrintTime, PublicPrefix, RouteOf;
    PathDecodes(path);
    var encoded := EncodePath(path).value;
    if updatedAt.Some? {
      var query := [LETTER_V, EQUALS] + PrintTime(updatedAt.value);
      assert Build(kind, path, updatedAt).value == PublicPrefix(kind) + (encoded + [QUESTION] + query);
      PrefixesDiffer(kind, encoded + [QUESTION] + query);
      CutAt(encoded, query, QUESTION);
    } else {
      PrefixesDiffer(kind, encoded);
      CutAt(encoded, [], QUESTION);
    }
  }

  /** An address that is built resolves to the kind, the path and the version it was built from. */
  lemma BuiltResolves(kind: DerivedMediaKind, path: Text, updatedAt: Option<int>, form: FormDecoder)
    requires Build(kind, path, updatedAt).Ok? && KeepsPlain(form)
    ensures Resolve(Build(kind, path, updatedAt).value, form)
         == Some(Source(kind, path, ImgproxyPrefix(kind) + [SLASH] + path, VersionOf(updatedAt)))
  {
    hide Build, EncodePath, PrintTime, PublicPrefix, RouteOf, Normalize, NormalPath, DecodeAll, Join, Cut, QueryGet, WellFormed, Split;
    BuildsExactly(kind, path, updatedAt);
    NormalizesExactly(path);
    CutsBack(kind, path, updatedAt);
    PathDecodes(path);
    JoinSplit(path, SLASH);
    NormalizeKeeps(path);
    NoHiddenSeparator(path);
    EmptyQuery(form);
    if updatedAt.Some? { QueryHasVersion(updatedAt.value, form); }
  }

  lemma NoHiddenSeparator(path: Text)
    requires Normalize(path).Some?
    ensures !HidesSeparator(Split(path, SLASH))
  {
    JoinSplit(path, SLASH);
    PartsWithin(path, SLASH, BACKSLASH_UNIT);
  }

  lemma {:induction false} PartsWithin(t: Text, separator: Unit, u: Unit)
    requires u !in t
    ensures Free(Split(t, separator), u)
    decreases |t|
  {
    if t != [] { PartsWithin(t[1..], separator, u); }
  }

  lemma PrintTimeIsInjective(s: int, t: int)
    requires PrintTime(s) == PrintTime(t)
    ensures s == t
  {
    hide Decimal;
    DecimalReads(if s < 0 then -s else s);
    DecimalReads(if t < 0 then -t else t);
    assert IsDigit(Decimal(if s < 0 then -s else s)[0]) && IsDigit(Decimal(if t < 0 then -t else t)[0]);
    assert PrintTime(s)[0] == PrintTime(t)[0];
    if s < 0 { assert PrintTime(s)[1..] == Decimal(-s) && PrintTime(t)[1..] == Decimal(-t); }
  }

  /** Different arguments never give the same address. */
  lemma BuildIsInjective(kind: DerivedMediaKind, path: Text, updatedAt: Option<int>,
                         kind': DerivedMediaKind, path': Text, updatedAt': Option<int>, form: FormDecoder)
    requires KeepsPlain(form)
    requires Build(kind, path, updatedAt).Ok? && Build(kind, path, updatedAt) == Build(kind', path', updatedAt')
    ensures kind == kind' && path == path' && updatedAt == updatedAt'
  {
    hide Build, Resolve, PrintTime;
    BuiltResolves(kind, path, updatedAt, form);
    BuiltResolves(kind', path', updatedAt', form);
    if updatedAt.Some? { PrintTimeIsInjective(updatedAt.value, updatedAt'.value); }
  }

  // ----- any address that resolves ----------------------------------------------------------------------------------

  lemma ResolvedMeans(src: Text, form: FormDecoder)
    requires Resolve(src, form).Some?
    ensures exists path :: Normalize(path) == Some(Resolve(src, form).value.relativePath)
    ensures Resolve(src, form).value.imgproxySourcePath
         == ImgproxyPrefix(Resolve(src, form).value.kind) + [SLASH] + Resolve(src, form).value.relativePath
  {
    hide Normalize, DecodeAll, Join, Cut, QueryGet, Split, RouteOf, PublicPrefix, ImgproxyPrefix;
  }

  /** Whatever address resolves, its path is one the normalizer accepts as it is, and the source lies below the root
      of its kind. */
  lemma ResolvedIsNormal(src: Text, form: FormDecoder)
    requires Resolve(src, form).Some?
    ensures var source := Resolve(src, form).value;
            && NormalPath(source.relativePath)
            && source.imgproxySourcePath == ImgproxyPrefix(source.kind) + [SLASH] + source.relativePath
  {
    hide Resolve, Normalize, NormalPath, ImgproxyPrefix;
    ResolvedMeans(src, form);
    var path :| Normalize(path) == Some(Resolve(src, form).value.relativePath);
    NormalizeKeeps(path);
    NormalizesExactly(path);
  }

  // ----- which addresses resolve ------------------------------------------------------------------------------------

  /** The address is the public root of the kind, segments with slashes between them, and perhaps a query; each segment
      decodes to one part of the path, and no part brings a separator of its own. */
  ghost predicate Reads(src: Text, kind: DerivedMediaKind, segments: seq<Text>, parts: seq<Text>, query: Text) {
    && segments != [] && |parts| == |segments| && (query == [] || query[0] == '?' as int)
    && src == PublicPrefix(kind) + Join(segments, '/' as int) + query
    && (forall i :: 0 <= i < |segments| ==> '?' as int !in segments[i] && '/' as int !in segments[i])
    && (forall i :: 0 <= i < |segments| ==> Decode(segments[i]) == Some(parts[i]))
    && (forall i :: 0 <= i < |parts| ==> '/' as int !in parts[i] && '\\' as int !in parts[i])
    && NormalPath(Join(parts, '/' as int))
  }

  lemma {:induction false} DecodesAll(segments: seq<Text>, parts: seq<Text>)
    ensures DecodeAll(segments) == Some(parts) <==>
              |parts| == |segments| && forall i :: 0 <= i < |segments| ==> Decode(segments[i]) == Some(parts[i])
    decreases |segments|
  {
    hide Decode;
    if segments != [] && parts != [] {
      DecodesAll(segments[1..], parts[1..]);
      assert parts == [parts[0]] + parts[1..];
    }
  }

  lemma {:induction false} CutParts(t: Text, separator: Unit)
    ensures var (first, rest) := Cut(t, separator);
            separator !in first && t == first + (if rest.Some? then [separator] + rest.value else [])
    decreases |t|
  {
    if t != [] { CutParts(t[1..], separator); }
  }

  lemma {:induction false} FreeOf(parts: seq<Text>, separator: Unit, u: Unit)
    requires u != separator && parts != []
    ensures u !in Join(parts, separator) <==> Free(parts, u)
    decreases |parts|
  {
    if |parts| > 1 { FreeOf(parts[1..], separator, u); }
  }

  /** The steps of the parser on an address it accepts. */
  lemma ResolveSteps(src: Text, form: FormDecoder)
    requires Resolve(src, form).Some?
    ensures var kind := Resolve(src, form).value.kind;
            && PublicPrefix(kind) <= src
            && var (path, after) := Cut(src[|PublicPrefix(kind)|..], QUESTION);
               var parts := DecodeAll(Split(path, SLASH));
               && parts.Some? && parts.value != [] && !HidesSeparator(parts.value)
               && Normalize(Join(parts.value, SLASH)) == Some(Resolve(src, form).value.relativePath)
  {
    hide DecodeAll, Cut, Split, Join, Normalize, QueryGet, ImgproxyPrefix, PublicPrefix, HidesSeparator;
  }

  lemma ResolvedReads(src: Text, form: FormDecoder) returns (segments: seq<Text>, parts: seq<Text>, query: Text)
    requires Resolve(src, form).Some?
    ensures Reads(src, Resolve(src, form).value.kind, segments, parts, query)
    ensures Resolve(src, form).value.relativePath == Join(parts, '/' as int)
  {
    hide Decode, DecodeAll, Cut, Split, Join, Normalize, NormalPath, Resolve, PublicPrefix;
    ResolveSteps(src, form);
    var kind := Resolve(src, form).value.kind;
    var rest := src[|PublicPrefix(kind)|..];
    var (path, after) := Cut(rest, QUESTION);
    CutParts(rest, QUESTION);
    segments, parts := Split(path, SLASH), DecodeAll(Split(path, SLASH)).value;
    query := if after.Some? then [QUESTION] + after.value else [];
    JoinSplit(path, SLASH);
    FreeOf(segments, SLASH, QUESTION);
    DecodesAll(segments, parts);
    NormalizeKeeps(Join(parts, SLASH));
    NormalizesExactly(Join(parts, SLASH));
    assert src == PublicPrefix(kind) + rest;
  }

  lemma ReadingResolves(src: Text, kind: DerivedMediaKind, segments: seq<Text>, parts: seq<Text>, query: Text, form: FormDecoder)
    requires Reads(src, kind, segments, parts, query)
    ensures Resolve(src, form).Some?
    ensures Resolve(src, form).value.kind == kind && Resolve(src, form).value.relativePath == Join(parts, '/' as int)
  {
    hide Decode, DecodeAll, Cut, Split, Join, Normalize, NormalPath, QueryGet, ImgproxyPrefix, PublicPrefix, RouteOf;
    var path := Join(segments, SLASH);
    PrefixesDiffer(kind, path + query);
    assert src == PublicPrefix(kind) + (path + query);
    FreeOf(segments, SLASH, QUESTION);
    if query == [] {
      CutAt(path, [], QUESTION);
      assert path + query == path;
    } else {
      CutAt(path, query[1..], QUESTION);
      assert path + query == path + [QUESTION] + query[1..];
    }
    SplitJoin(segments, SLASH);
    DecodesAll(segments, parts);
    NormalizeKeeps(Join(parts, SLASH));
    NormalizesExactly(Join(parts, SLASH));
  }

  /** Which addresses resolve, and to what: an encoded slash or backslash is as bad as a dot segment. */
  lemma ResolvesExactly(src: Text, kind: DerivedMediaKind, path: Text, form: FormDecoder)
    ensures Resolve(src, form).Some? && Resolve(src, form).value.kind == kind && Resolve(src, form).value.relativePath == path <==>
              exists segments, parts, query :: Reads(src, kind, segments, parts, query) && path == Join(parts, '/' as int)
  {
    hide Resolve, Reads, Join;
    if Resolve(src, form).Some? {
      var segments, parts, query := ResolvedReads(src, form);
    }
    if segments, parts, query :| Reads(src, kind, segments, parts, query) && path == Join(parts, '/' as int) {
      ReadingResolves(src, kind, segments, parts, query, form);
    }
  }

  // ----- the form of an address -------------------------------------------------------------------------------------

  /** A path that needs no encoding follows the public root as it is, and the time follows a question mark. */
  lemma PlainForm(kind: DerivedMediaKind, path: Text, time: int)
    requires NormalPath(path)
    requires forall i :: 0 <= i < |path| ==> path[i] == '/' as int || (path[i] < 128 && Unreserved(path[i] as char))
    ensures Build(kind, path, None) == Ok(PublicPrefix(kind) + path)
    ensures Build(kind, path, Some(time))
         == Ok(PublicPrefix(kind) + path + ['?' as int, 'v' as int, '=' as int]
               + (if time < 0 then ['-' as int] + Decimal(-time) else Decimal(time)))
  {
    hide Normalize, NormalPath, Encode, EncodeAll, Join, Split, Decimal, Unreserved, PublicPrefix;
    NormalizesExactly(path);
    NormalizeKeeps(path);
    JoinSplit(path, SLASH);
    SplitKeepsPlain(path);
    PlainEncodes(Split(path, SLASH));
  }

  predicate NeedsNoCode(t: Text) { forall i :: 0 <= i < |t| ==> t[i] < 128 && Unreserved(t[i] as char) }

  lemma {:induction false} SplitKeepsPlain(path: Text)
    requires forall i :: 0 <= i < |path| ==> path[i] == '/' as int || (path[i] < 128 && Unreserved(path[i] as char))
    ensures forall i :: 0 <= i < |Split(path, SLASH)| ==> NeedsNoCode(Split(path, SLASH)[i])
    decreases |path|
  {
    hide Unreserved;
    if path != [] { SplitKeepsPlain(path[1..]); }
  }

  lemma {:induction false} PlainEncodes(segments: seq<Text>)
    requires forall i :: 0 <= i < |segments| ==> NeedsNoCode(segments[i])
    ensures EncodeAll(segments) == Some(segments)
    decreases |segments|
  {
    hide Unreserved, Encode;
    if segments != [] {
      PlainEncodes(segments[1..]);
      NoCodeIsWritten(segments[0]);
      assert segments == [segments[0]] + segments[1..];
    }
  }

  lemma {:induction false} NoCodeIsWritten(t: Text)
    requires NeedsNoCode(t)
    ensures Encode(t) == Some(t)
    decreases |t|
  {
    hide Unreserved, EncodePoint;
    if t != [] {
      NoCodeIsWritten(t[1..]);
      UnreservedStands(t[0]);
      assert t == [t[0]] + t[1..];
    }
  }

  lemma UnreservedStands(u: Unit)
    requires u < 128 && Unreserved(u as char)
    ensures EncodePoint(u) == [u]
  {
    hide Unreserved, PercentByte;
    UnreservedExactly(u);
  }

  /** Rebuilding a resolved address gives one that resolves to the same kind and path exactly when the path has no
      half of a surrogate pair; otherwise it cannot be rebuilt. */
  lemma RebuildIsStable(src: Text, updatedAt: Option<int>, form: FormDecoder)
    requires Resolve(src, form).Some? && KeepsPlain(form)
    ensures var source := Resolve(src, form).value; var rebuilt := Build(source.kind, source.relativePath, updatedAt);
            if WellFormed(source.relativePath) then
              rebuilt.Ok? && Resolve(rebuilt.value, form) == Some(source.(version := VersionOf(updatedAt)))
            else rebuilt.Err?
  {
    hide *;
    var source := Resolve(src, form).value;
    ResolvedIsNormal(src, form);
    BuildsExactly(source.kind, source.relativePath, updatedAt);
    if WellFormed(source.relativePath) { BuiltResolves(source.kind, source.relativePath, updatedAt, form); }
  }

  /** There are such addresses: a lone surrogate that is not escaped passes the parser. */
  lemma LoneSurrogateResolves(form: FormDecoder)
    ensures var src := PublicPrefix(VIDEO_POSTER) + [0xd800];
            && Resolve(src, form).Some? && Resolve(src, form).value.relativePath == [0xd800]
            && Build(VIDEO_POSTER, [0xd800], None).Err?
  {
    hide PublicPrefix, RouteOf, ImgproxyPrefix, Build, QueryGet;
    PrefixesDiffer(VIDEO_POSTER, [0xd800]);
    CutAt([0xd800], [], QUESTION);
    SplitFirst([0xd800], [], SLASH);
    assert Decode([0xd800]) == Some([0xd800] + []);
    assert DecodeAll([[0xd800]]) == Some([[0xd800]]);
    assert Normalize([0xd800]) == Some([0xd800]);
    BuildsExactly(VIDEO_POSTER, [0xd800], None);
  }
}
