/** Percent-encoding of section 2.1 of RFC 3986 over UTF-16 strings, as the language's encodeURIComponent and
    decodeURIComponent do it; None stands for the error they throw. */
module UriComponent {
  import opened Prelude
  import opened JsonText

  const PERCENT: Unit := 37
  const SLASH: Unit := 47

  /** Letters, digits and - _ . ! ~ * ' ( ) are written as they are. */
  predicate Unescaped(u: int) {
    || 48 <= u <= 57 || 65 <= u <= 90 || 97 <= u <= 122
    || u == 45 || u == 95 || u == 46 || u == 33 || u == 126 || u == 42 || u == 39 || u == 40 || u == 41
  }

  function UpperHex(n: int): Unit
    requires 0 <= n < 16
  {
    if n < 10 then 48 + n else 55 + n
  }

  function PercentByte(b: int): (t: Text)
    requires 0 <= b < 256
    ensures |t| == 3
  {
    [PERCENT, UpperHex(b / 16), UpperHex(b % 16)]
  }

  function PairValue(high: Unit, low: Unit): (cp: int)
    requires HighSurrogate(high) && LowSurrogate(low)
    ensures 0x1_0000 <= cp <= 0x10_ffff
  {
    0x1_0000 + (high - 0xd800) * 0x400 + (low - 0xdc00)
  }

  /** UTF-16 of a code point. */
  function Units(cp: int): (t: Text)
    requires 0 <= cp <= 0x10_ffff
    ensures t != []
  {
    if cp < 0x1_0000 then [cp] else [0xd800 + (cp - 0x1_0000) / 0x400, 0xdc00 + (cp - 0x1_0000) % 0x400]
  }

  /** The bytes of a code point in UTF-8, each percent-encoded. */
  function EncodePoint(cp: int): (t: Text)
    requires 0 <= cp <= 0x10_ffff
    ensures t != []
  {
    if Unescaped(cp) then [cp]
    else if cp < 0x80 then PercentByte(cp)
    else if cp < 0x800 then PercentByte(0xc0 + cp / 64) + PercentByte(0x80 + cp % 64)
    else if cp < 0x1_0000 then
      PercentByte(0xe0 + cp / 4096) + PercentByte(0x80 + cp / 64 % 64) + PercentByte(0x80 + cp % 64)
    else
      PercentByte(0xf0 + cp / 262144) + PercentByte(0x80 + cp / 4096 % 64) + PercentByte(0x80 + cp / 64 % 64)
      + PercentByte(0x80 + cp % 64)
  }

  function Encode(s: Text): Option<Text>
    decreases |s|
  {
    if s == [] then Some([])
    else if LowSurrogate(s[0]) then None
    else if HighSurrogate(s[0]) then
      if |s| < 2 || !LowSurrogate(s[1]) then None else
      var others := Encode(s[2..]);
      if others.None? then None else Some(EncodePoint(PairValue(s[0], s[1])) + others.value)
    else
      var others := Encode(s[1..]);
      if others.None? then None else Some(EncodePoint(s[0]) + others.value)
  }

  /** The byte an escape at the front of the text stands for. */
  function ReadByte(t: Text): (b: Option<int>)
    ensures b.Some? ==> 0 <= b.value < 256 && |t| >= 3
  {
    if |t| < 3 || t[0] != PERCENT || HexValue(t[1]).None? || HexValue(t[2]).None? then None
    else Some(Nibble(t[1]) * 16 + Nibble(t[2]))
  }

  function Nibble(u: Unit): (n: int)
    requires HexValue(u).Some?
    ensures 0 <= n < 16
  {
    HexValue(u).value
  }

  /** The six bits a continuation byte at the front of the text carries. */
  function ReadContinuation(t: Text): (bits: Option<int>)
    ensures bits.Some? ==> 0 <= bits.value < 64 && |t| >= 3
  {
    var b := ReadByte(t);
    if b.Some? && 0x80 <= b.value <= 0xbf then Some(b.value - 0x80) else None
  }

  /** The code point that an escaped UTF-8 sequence with the given first byte stands for, and how many escapes it
      takes: shortest form only, no surrogates, nothing above 10FFFF. */
  function ReadSequence(t: Text, lead: int): (r: Option<(int, nat)>)
    requires |t| >= 3 && 0 <= lead < 256
    ensures r.Some? ==> 0 <= r.value.0 <= 0x10_ffff && 1 <= r.value.1 && 3 * r.value.1 <= |t|
  {
    if lead < 0x80 then Some((lead, 1))
    else if 0xc0 <= lead <= 0xdf then
      var a := ReadContinuation(t[3..]);
      if a.None? then None else
      var cp := (lead - 0xc0) * 64 + a.value;
      if cp < 0x80 then None else Some((cp, 2))
    else if 0xe0 <= lead <= 0xef then
      var a := ReadContinuation(t[3..]);
      if a.None? then None else
      var b := ReadContinuation(t[6..]);
      if b.None? then None else
      var cp := ((lead - 0xe0) * 64 + a.value) * 64 + b.value;
      if cp < 0x800 || 0xd800 <= cp <= 0xdfff then None else Some((cp, 3))
    else if 0xf0 <= lead <= 0xf7 then
      var a := ReadContinuation(t[3..]);
      if a.None? then None else
      var b := ReadContinuation(t[6..]);
      if b.None? then None else
      var c := ReadContinuation(t[9..]);
      if c.None? then None else
      var cp := (((lead - 0xf0) * 64 + a.value) * 64 + b.value) * 64 + c.value;
      if cp < 0x1_0000 || cp > 0x10_ffff then None else Some((cp, 4))
    else None
  }

  /** The next character, and the text after it.  A character that is not an escape stands for itself, whatever it is. */
  function DecodeNext(t: Text): (r: Option<(Text, Text)>)
    requires t != []
    ensures r.Some? ==> |r.value.1| < |t|
  {
    if t[0] != PERCENT then Some((t[..1], t[1..])) else
    var lead := ReadByte(t);
    if lead.None? then None else
    var point := ReadSequence(t, lead.value);
    if point.None? then None else Some((Units(point.value.0), t[3 * point.value.1..]))
  }

  function Decode(t: Text): Option<Text>
    decreases |t|
  {
    if t == [] then Some([]) else
    var next := DecodeNext(t);
    if next.None? then None else
    var others := Decode(next.value.1);
    if others.None? then None else Some(next.value.0 + others.value)
  }

  // ----- the round trip -------------------------------------------------------------------------------

  /** Encoding fails exactly on text with half of a surrogate pair in it. */
  lemma {:induction false} EncodesExactly(s: Text)
    ensures Encode(s).Some? <==> WellFormed(s)
    decreases |s|
  {
    hide EncodePoint;
    if s == [] {
    } else if HighSurrogate(s[0]) {
      if |s| > 1 { EncodesExactly(s[2..]); }
    } else {
      EncodesExactly(s[1..]);
    }
  }

  lemma UpperHexReads(n: int)
    requires 0 <= n < 16
    ensures HexValue(UpperHex(n)) == Some(n)
  {
  }

  lemma ByteReads(b: int, rest: Text)
    requires 0 <= b < 256
    ensures ReadByte(PercentByte(b) + rest) == Some(b)
  {
    UpperHexReads(b / 16);
    UpperHexReads(b % 16);
  }

  lemma ContinuationReads(bits: int, rest: Text)
    requires 0 <= bits < 64
    ensures ReadContinuation(PercentByte(0x80 + bits) + rest) == Some(bits)
  {
    ByteReads(0x80 + bits, rest);
  }

  lemma TwoBytesRead(cp: int, rest: Text)
    requires 0x80 <= cp < 0x800
    ensures DecodeNext(EncodePoint(cp) + rest) == Some((Units(cp), rest))
  {
    hide PercentByte, ReadByte, ReadContinuation;
    var lead, a := 0xc0 + cp / 64, cp % 64;
    var tail := PercentByte(0x80 + a) + rest;
    var t := EncodePoint(cp) + rest;
    assert t == PercentByte(lead) + tail;
    ByteReads(lead, tail);
    PercentFirst(lead);
    ContinuationReads(a, rest);
    assert t[3..] == tail && t[6..] == rest;
  }

  lemma ThreeParts(cp: int)
    requires 0x800 <= cp < 0x1_0000
    ensures 0 <= cp / 4096 <= 15 && (cp / 4096 * 64 + cp / 64 % 64) * 64 + cp % 64 == cp
  {
  }

  lemma FourParts(cp: int)
    requires 0x1_0000 <= cp <= 0x10_ffff
    ensures 0 <= cp / 262144 <= 4 && ((cp / 262144 * 64 + cp / 4096 % 64) * 64 + cp / 64 % 64) * 64 + cp % 64 == cp
  {
  }

  lemma SequenceOfThree(t: Text, lead: int, a: int, b: int)
    requires |t| >= 9 && 0 <= lead - 0xe0 <= 15 && ReadContinuation(t[3..]) == Some(a) && ReadContinuation(t[6..]) == Some(b)
    requires var cp := ((lead - 0xe0) * 64 + a) * 64 + b; 0x800 <= cp < 0x1_0000 && !(0xd800 <= cp <= 0xdfff)
    ensures ReadSequence(t, lead) == Some((((lead - 0xe0) * 64 + a) * 64 + b, 3))
  {
    hide ReadContinuation;
  }

  lemma SequenceOfFour(t: Text, lead: int, a: int, b: int, c: int)
    requires |t| >= 12 && 0 <= lead - 0xf0 <= 7 && ReadContinuation(t[3..]) == Some(a) && ReadContinuation(t[6..]) == Some(b)
    requires ReadContinuation(t[9..]) == Some(c)
    requires 0x1_0000 <= (((lead - 0xf0) * 64 + a) * 64 + b) * 64 + c <= 0x10_ffff
    ensures ReadSequence(t, lead) == Some(((((lead - 0xf0) * 64 + a) * 64 + b) * 64 + c, 4))
  {
    hide ReadContinuation;
  }

  lemma ThreeBytesRead(cp: int, rest: Text)
    requires 0x800 <= cp < 0x1_0000 && !(0xd800 <= cp <= 0xdfff)
    ensures DecodeNext(EncodePoint(cp) + rest) == Some((Units(cp), rest))
  {
    hide PercentByte, ReadByte, ReadContinuation, ReadSequence, Units;
    ThreeParts(cp);
    var lead, a, b := 0xe0 + cp / 4096, cp / 64 % 64, cp % 64;
    var last := PercentByte(0x80 + b) + rest;
    var tail := PercentByte(0x80 + a) + last;
    var t := EncodePoint(cp) + rest;
    assert t == PercentByte(lead) + tail;
    ByteReads(lead, tail);
    PercentFirst(lead);
    ContinuationReads(a, last);
    ContinuationReads(b, rest);
    assert t[3..] == tail && t[6..] == last && t[9..] == rest;
    SequenceOfThree(t, lead, a, b);
  }

  lemma FourBytesRead(cp: int, rest: Text)
    requires 0x1_0000 <= cp <= 0x10_ffff
    ensures DecodeNext(EncodePoint(cp) + rest) == Some((Units(cp), rest))
  {
    hide PercentByte, ReadByte, ReadContinuation, ReadSequence, Units;
    FourParts(cp);
    var lead, a, b, c := 0xf0 + cp / 262144, cp / 4096 % 64, cp / 64 % 64, cp % 64;
    var last := PercentByte(0x80 + c) + rest;
    var middle := PercentByte(0x80 + b) + last;
    var tail := PercentByte(0x80 + a) + middle;
    var t := EncodePoint(cp) + rest;
    assert t == PercentByte(lead) + tail;
    ByteReads(lead, tail);
    PercentFirst(lead);
    ContinuationReads(a, middle);
    ContinuationReads(b, last);
    ContinuationReads(c, rest);
    assert t[3..] == tail && t[6..] == middle && t[9..] == last && t[12..] == rest;
    SequenceOfFour(t, lead, a, b, c);
  }

  lemma PercentFirst(b: int)
    requires 0 <= b < 256
    ensures PercentByte(b)[0] == PERCENT
  {
  }

  lemma PointReads(cp: int, rest: Text)
    requires 0 <= cp <= 0x10_ffff && !(0xd800 <= cp <= 0xdfff)
    ensures DecodeNext(EncodePoint(cp) + rest) == Some((Units(cp), rest))
  {
    hide PercentByte, ReadByte, ReadContinuation;
    var t := EncodePoint(cp) + rest;
    if Unescaped(cp) {
      assert t[1..] == rest && t[..1] == [cp];
    } else if cp < 0x80 {
      ByteReads(cp, rest);
      PercentFirst(cp);
      assert t[3..] == rest;
    } else if cp < 0x800 {
      TwoBytesRead(cp, rest);
    } else if cp < 0x1_0000 {
      ThreeBytesRead(cp, rest);
    } else {
      FourBytesRead(cp, rest);
    }
  }

  lemma PairIsUnits(high: Unit, low: Unit)
    requires HighSurrogate(high) && LowSurrogate(low)
    ensures Units(PairValue(high, low)) == [high, low]
  {
  }

  /** Whatever can be encoded is decoded to what it was. */
  lemma {:induction false} EncodedDecodes(s: Text)
    requires Encode(s).Some?
    ensures Decode(Encode(s).value) == Some(s)
    decreases |s|
  {
    hide EncodePoint, DecodeNext, Units, PairValue;
    if s == [] {
    } else if HighSurrogate(s[0]) {
      EncodedDecodes(s[2..]);
      PointReads(PairValue(s[0], s[1]), Encode(s[2..]).value);
      PairIsUnits(s[0], s[1]);
      assert s == [s[0], s[1]] + s[2..];
    } else {
      EncodedDecodes(s[1..]);
      PointReads(s[0], Encode(s[1..]).value);
      SingleUnit(s[0]);
      assert s == [s[0]] + s[1..];
    }
  }

  lemma SingleUnit(u: Unit)
    ensures Units(u) == [u]
  {
  }

  /** What encoding writes: unescaped characters and percent signs only. */
  predicate Plain(t: Text) { forall i :: 0 <= i < |t| ==> Unescaped(t[i]) || t[i] == PERCENT }

  lemma PointIsPlain(cp: int)
    requires 0 <= cp <= 0x10_ffff
    ensures Plain(EncodePoint(cp))
  {
    hide PercentByte;
    forall b | 0 <= b < 256 ensures Plain(PercentByte(b)) { ByteIsPlain(b); }
  }

  lemma ByteIsPlain(b: int)
    requires 0 <= b < 256
    ensures Plain(PercentByte(b))
  {
  }

  lemma {:induction false} EncodedIsPlain(s: Text)
    requires Encode(s).Some?
    ensures Plain(Encode(s).value) && (s != [] ==> Encode(s).value != [])
    decreases |s|
  {
    hide EncodePoint, PairValue;
    if s == [] {
    } else if HighSurrogate(s[0]) {
      EncodedIsPlain(s[2..]);
      PointIsPlain(PairValue(s[0], s[1]));
    } else {
      EncodedIsPlain(s[1..]);
      PointIsPlain(s[0]);
    }
  }

  // ----- the form it writes ---------------------------------------------------------------------------------

  const UPPER_DIGITS: string := "0123456789ABCDEF"

  /** The characters section 2.3 of RFC 3986 reserves nothing for, and five more of the language's own. */
  predicate Unreserved(c: char) { 'A' <= c <= 'Z' || 'a' <= c <= 'z' || '0' <= c <= '9' || c in "-_.!~*'()" }

  /** Of the ASCII characters the unreserved ones stand for themselves and the others are a percent sign and two upper-case
      digits. */
  lemma AsciiForm(u: Unit)
    requires u < 128
    ensures Encode([u]) == Some(if Unreserved(u as char) then [u]
                                else ['%' as int, UPPER_DIGITS[u / 16] as int, UPPER_DIGITS[u % 16] as int])
  {
    hide UpperHex, Unescaped, Unreserved;
    UnreservedExactly(u);
    DigitForm(u / 16);
    DigitForm(u % 16);
    assert [u][1..] == [];
    assert EncodePoint(u) + [] == EncodePoint(u);
  }

  lemma UnreservedExactly(u: Unit)
    requires u < 128
    ensures Unescaped(u) <==> Unreserved(u as char)
  {
    var marks := "-_.!~*'()";
    assert marks[0] as int == 45 && marks[1] as int == 95 && marks[2] as int == 46 && marks[3] as int == 33 && marks[4] as int == 126;
    assert marks[5] as int == 42 && marks[6] as int == 39 && marks[7] as int == 40 && marks[8] as int == 41;
  }

  lemma DigitForm(n: int)
    requires 0 <= n < 16
    ensures UpperHex(n) == UPPER_DIGITS[n] as int
  {
  }

  /** An escape that is read stands for a character, no half of a pair, in as few bytes as UTF-8 has for it. */
  lemma EscapesAreShortest(t: Text)
    requires t != [] && t[0] == '%' as int && DecodeNext(t).Some?
    ensures exists cp :: 0 <= cp <= 0x10_ffff && !(0xd800 <= cp <= 0xdfff) && DecodeNext(t).value.0 == Units(cp)
                         && |t| - |DecodeNext(t).value.1|
                              == 3 * (if cp < 0x80 then 1 else if cp < 0x800 then 2 else if cp < 0x1_0000 then 3 else 4)
  {
    hide ReadByte, ReadContinuation, Units;
    var cp := ReadSequence(t, ReadByte(t).value).value.0;
    assert DecodeNext(t).value.0 == Units(cp);
  }
}
