/** Which paths name a video or a WebP image: the test of the database query against the tests of the program. */
module MediaPaths {

  const VIDEO_EXTENSIONS: seq<string> := [".mp4", ".avi", ".mov", ".wmv", ".flv", ".webm", ".mkv", ".m4v"]
  const WEBP: string := ".webp"

  function LowerChar(c: char): char { if 'A' <= c <= 'Z' then (c as int + 32) as char else c }

  function Lower(s: string): (t: string)
    ensures |t| == |s| && forall i :: 0 <= i < |s| ==> t[i] == LowerChar(s[i])
  {
    seq(|s|, i requires 0 <= i < |s| => LowerChar(s[i]))
  }

  /** `endsWith` without regard to case */
  predicate EndsWith(path: string, extension: string) {
    |path| >= |extension| && Lower(path[|path| - |extension|..]) == extension
  }

  predicate EndsWithVideo(path: string) { exists k :: 0 <= k < |VIDEO_EXTENSIONS| && EndsWith(path, VIDEO_EXTENSIONS[k]) }

  /** The rows the query lets through. */
  predicate Listed(path: string) { EndsWith(path, WEBP) || EndsWithVideo(path) }

  predicate LineBreak(c: char) { c == '\n' || c == '\r' || c == '\U{2028}' || c == '\U{2029}' }

  predicate OneLine(s: string) { forall i :: 0 <= i < |s| ==> !LineBreak(s[i]) }

  /** Without the first question mark that no line break follows, and all after it. */
  function StripQuery(path: string): string {
    if path == "" then "" else if path[0] == '?' && OneLine(path) then "" else [path[0]] + StripQuery(path[1..])
  }

  function FromLastDot(path: string): string {
    if path == "" then "" else if path[|path| - 1] == '.' then "."
    else
      var shorter := FromLastDot(path[..|path| - 1]);
      if shorter == "" then "" else shorter + [path[|path| - 1]]
  }

  /** `getFileExtension` */
  function Extension(path: string): string { Lower(FromLastDot(StripQuery(path))) }

  predicate IsVideo(path: string) { Extension(path) in VIDEO_EXTENSIONS }

  predicate IsWebp(path: string) { EndsWith(path, WEBP) }

  lemma {:induction false} NothingToStrip(path: string)
    requires '?' !in path
    ensures StripQuery(path) == path
    decreases |path|
  {
    if path != "" { NothingToStrip(path[1..]); }
  }

  /** An extension: a dot and characters that are none. */
  predicate DotFirst(s: string) { s != "" && s[0] == '.' && forall i :: 0 < i < |s| ==> s[i] != '.' }

  lemma {:induction false} LastDotShape(path: string)
    ensures var s := FromLastDot(path);
            if s == "" then '.' !in path else DotFirst(s) && |s| <= |path| && path[|path| - |s|..] == s
    decreases |path|
  {
    if path != "" && path[|path| - 1] != '.' { LastDotShape(path[..|path| - 1]); }
  }

  lemma {:induction false} LastDotIs(path: string, s: string)
    requires DotFirst(s) && |s| <= |path| && path[|path| - |s|..] == s
    ensures FromLastDot(path) == s
    decreases |path|
  {
    var n := |path| - 1;
    assert path[n] == s[|s| - 1];
    if |s| > 1 {
      assert path[..n][n - (|s| - 1)..] == s[..|s| - 1];
      LastDotIs(path[..n], s[..|s| - 1]);
      assert s == s[..|s| - 1] + [path[n]];
    } else {
      assert s == ".";
    }
  }

  lemma LowerKeepsDots(s: string)
    ensures DotFirst(Lower(s)) <==> DotFirst(s)
  {
    if DotFirst(Lower(s)) {
      assert LowerChar(s[0]) == '.';
      forall i | 0 < i < |s| ensures s[i] != '.' { assert Lower(s)[i] != '.'; }
    } else if DotFirst(s) {
      assert Lower(s)[0] == '.';
      forall i | 0 < i < |s| ensures Lower(s)[i] != '.' {}
    }
  }

  lemma ExtensionsStartWithDot(k: nat)
    requires k < |VIDEO_EXTENSIONS|
    ensures DotFirst(VIDEO_EXTENSIONS[k])
  {
  }

  lemma ExtensionMatches(path: string, extension: string)
    requires DotFirst(extension)
    ensures Lower(FromLastDot(path)) == extension <==> EndsWith(path, extension)
  {
    LastDotShape(path);
    if EndsWith(path, extension) {
      var s := path[|path| - |extension|..];
      LowerKeepsDots(s);
      LastDotIs(path, s);
    }
  }

  /** For a path without a question mark the query lets through exactly what the program then takes for a video or a
      WebP image. */
  lemma QueryMatchesProgram(path: string)
    requires '?' !in path
    ensures IsVideo(path) <==> EndsWithVideo(path)
    ensures Listed(path) <==> IsVideo(path) || IsWebp(path)
  {
    hide IsVideo, EndsWithVideo, StripQuery;
    NothingToStrip(path);
    VideoByStripped(path);
  }

  /** Where the stripped query begins: at the first question mark that no line break follows, or at the end. */
  function QueryAt(path: string): (q: nat)
    ensures q <= |path| && StripQuery(path) == path[..q]
    ensures q < |path| ==> path[q] == '?' && OneLine(path[q..])
    ensures forall i :: 0 <= i < q ==> !(path[i] == '?' && OneLine(path[i..]))
  {
    if path == "" || (path[0] == '?' && OneLine(path)) then 0
    else
      var q := QueryAt(path[1..]);
      assert forall i :: 0 < i <= |path| ==> path[i..] == path[1..][i - 1..];
      q + 1
  }

  lemma EndsAfterQuery(path: string, q: nat, extension: string)
    requires q < |path| && path[q] == '?' && '?' !in extension
    ensures EndsWith(path, extension) <==> EndsWith(path[q..], extension)
  {
    if |extension| <= |path| {
      var tail := path[|path| - |extension|..];
      if |extension| <= |path| - q {
        assert tail == path[q..][|path| - q - |extension|..];
      } else {
        assert tail[q - (|path| - |extension|)] == '?' && Lower(tail)[q - (|path| - |extension|)] == '?';
      }
    }
  }

  lemma ExtensionsHaveNoQuery(k: nat)
    requires k < |VIDEO_EXTENSIONS|
    ensures '?' !in VIDEO_EXTENSIONS[k] && '?' !in WEBP
  {
  }

  lemma ListedByQuery(path: string, q: nat)
    requires q < |path| && path[q] == '?'
    ensures Listed(path) <==> Listed(path[q..])
  {
    hide EndsWith;
    forall k | 0 <= k < |VIDEO_EXTENSIONS|
      ensures EndsWith(path, VIDEO_EXTENSIONS[k]) <==> EndsWith(path[q..], VIDEO_EXTENSIONS[k])
    {
      ExtensionsHaveNoQuery(k);
      EndsAfterQuery(path, q, VIDEO_EXTENSIONS[k]);
    }
    ExtensionsHaveNoQuery(0);
    EndsAfterQuery(path, q, WEBP);
  }

  lemma VideoByStripped(path: string)
    ensures IsVideo(path) <==> EndsWithVideo(StripQuery(path))
  {
    hide Lower, FromLastDot, EndsWith, StripQuery;
    forall k | 0 <= k < |VIDEO_EXTENSIONS|
      ensures Extension(path) == VIDEO_EXTENSIONS[k] <==> EndsWith(StripQuery(path), VIDEO_EXTENSIONS[k])
    {
      ExtensionsStartWithDot(k);
      ExtensionMatches(StripQuery(path), VIDEO_EXTENSIONS[k]);
    }
  }

  /** A video is hidden from the program exactly when its path has a query, a video extension stands before it, and
      the query itself does not end in one of the extensions. */
  lemma HiddenVideoExactly(path: string)
    ensures var q := QueryAt(path);
            IsVideo(path) && !Listed(path) <==> q < |path| && EndsWithVideo(path[..q]) && !Listed(path[q..])
  {
    hide EndsWithVideo, IsVideo, StripQuery;
    var q := QueryAt(path);
    VideoByStripped(path);
    if q < |path| {
      ListedByQuery(path, q);
    } else {
      assert path[..q] == path;
    }
  }

  /** With one it need not: this path names a video to the program and is never shown to it. */
  lemma QuestionMarkHidesVideo()
    ensures IsVideo("a.mp4?x") && !Listed("a.mp4?x")
  {
    hide *;
    VideoWithQuery();
    NotListed("a.mp4?x");
  }

  lemma StripKeeps(c: char, rest: string)
    requires c != '?'
    ensures StripQuery([c] + rest) == [c] + StripQuery(rest)
  {
    assert ([c] + rest)[1..] == rest;
  }

  lemma StripFrom(rest: string)
    requires rest != "" && rest[0] == '?' && OneLine(rest)
    ensures StripQuery(rest) == ""
  {
  }

  lemma VideoWithQuery()
    ensures IsVideo("a.mp4?x")
  {
    hide StripQuery, FromLastDot;
    StripFrom("?x");
    StripKeeps('4', "?x");
    StripKeeps('p', "4?x");
    StripKeeps('m', "p4?x");
    StripKeeps('.', "mp4?x");
    StripKeeps('a', ".mp4?x");
    assert "4?x" == ['4'] + "?x" && "p4?x" == ['p'] + "4?x" && "mp4?x" == ['m'] + "p4?x";
    assert ".mp4?x" == ['.'] + "mp4?x" && "a.mp4?x" == ['a'] + ".mp4?x";
    assert StripQuery("a.mp4?x") == "a.mp4";
    LastDotIs("a.mp4", ".mp4");
    assert Lower(".mp4") == VIDEO_EXTENSIONS[0];
  }

  lemma NotListed(path: string)
    requires path != "" && path[|path| - 1] == 'x'
    ensures !Listed(path)
  {
    hide EndsWith;
    forall k | 0 <= k < |VIDEO_EXTENSIONS| ensures !EndsWith(path, VIDEO_EXTENSIONS[k]) {
      assert VIDEO_EXTENSIONS[k][|VIDEO_EXTENSIONS[k]| - 1] != 'x';
      EndsInX(path, VIDEO_EXTENSIONS[k]);
    }
    EndsInX(path, WEBP);
  }

  lemma EndsInX(path: string, extension: string)
    requires path != "" && path[|path| - 1] == 'x' && extension != "" && extension[|extension| - 1] != 'x'
    ensures !EndsWith(path, extension)
  {
    if |path| >= |extension| {
      var s := path[|path| - |extension|..];
      assert s[|s| - 1] == 'x' && Lower(s)[|s| - 1] == 'x';
    }
  }
}
