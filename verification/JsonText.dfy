/** JSON text as the language's serializer writes it, over UTF-16 code units, and a reader for it. */
module JsonText {
  import opened Prelude

  /** A UTF-16 code unit. */
  type Unit = u: int | 0 <= u < 0x1_0000

  type Text = seq<Unit>

  predicate HighSurrogate(u: Unit) { 0xd800 <= u <= 0xdbff }

  predicate LowSurrogate(u: Unit) { 0xdc00 <= u <= 0xdfff }

  /** Every surrogate is half of a pair. */
  predicate WellFormed(t: Text) {
    if t == [] then true
    else if HighSurrogate(t[0]) then |t| > 1 && LowSurrogate(t[1]) && WellFormed(t[2..])
    else !LowSurrogate(t[0]) && WellFormed(t[1..])
  }

  lemma {:induction false} WellFormedInTwo(a: Text, b: Text)
    requires WellFormed(a) && WellFormed(b)
    ensures WellFormed(a + b)
    decreases |a|
  {
    if a == [] {
      assert a + b == b;
    } else if HighSurrogate(a[0]) {
      assert (a + b)[2..] == a[2..] + b;
      WellFormedInTwo(a[2..], b);
    } else {
      assert (a + b)[1..] == a[1..] + b;
      WellFormedInTwo(a[1..], b);
    }
  }

  /** A text given by its characters. */
  function Chars(s: string): (t: Text)
    requires forall i :: 0 <= i < |s| ==> s[i] as int < 0x1_0000
    ensures |t| == |s| && forall i :: 0 <= i < |s| ==> t[i] == s[i] as int
  {
    seq(|s|, i requires 0 <= i < |s| => s[i] as int)
  }

  /** Texts with a separator between them. */
  function Join(texts: seq<Text>, separator: Unit): Text
    decreases |texts|
  {
    if texts == [] then [] else if |texts| == 1 then texts[0] else texts[0] + [separator] + Join(texts[1..], separator)
  }

  // ----- numbers ------------------------------------------------------------------------------------

  predicate IsDigit(u: Unit) { 48 <= u <= 57 }

  function Decimal(n: nat): (t: Text)
    ensures t != [] && forall i :: 0 <= i < |t| ==> IsDigit(t[i])
  {
    if n < 10 then [48 + n] else Decimal(n / 10) + [48 + n % 10]
  }

  function DecimalValue(t: Text): nat
    requires forall i :: 0 <= i < |t| ==> IsDigit(t[i])
  {
    if t == [] then 0 else
    assert IsDigit(t[|t| - 1]);
    DecimalValue(t[..|t| - 1]) * 10 + (t[|t| - 1] as int - 48)
  }

  lemma {:induction false} DecimalReads(n: nat)
    ensures DecimalValue(Decimal(n)) == n
  {
    if n < 10 {
      assert Decimal(n)[..0] == [];
    } else {
      DecimalReads(n / 10);
      assert Decimal(n)[..|Decimal(n)| - 1] == Decimal(n / 10);
    }
  }

  function DigitCount(t: Text): (n: nat)
    ensures n <= |t| && (forall i :: 0 <= i < n ==> IsDigit(t[i])) && (n < |t| ==> !IsDigit(t[n]))
  {
    if t == [] || !IsDigit(t[0]) then 0 else 1 + DigitCount(t[1..])
  }

  lemma {:induction false} DigitsEnd(digits: Text, rest: Text)
    requires forall i :: 0 <= i < |digits| ==> IsDigit(digits[i])
    requires rest == [] || !IsDigit(rest[0])
    ensures DigitCount(digits + rest) == |digits|
    decreases |digits|
  {
    if digits == [] {
      assert digits + rest == rest;
    } else {
      assert (digits + rest)[1..] == digits[1..] + rest;
      DigitsEnd(digits[1..], rest);
    }
  }

  // ----- strings ------------------------------------------------------------------------------------

  const QUOTE: Unit := 34
  const BACKSLASH: Unit := 92

  function HexDigit(n: int): Unit
    requires 0 <= n < 16
  {
    if n < 10 then 48 + n else 87 + n
  }

  function HexValue(u: Unit): Option<nat> {
    if 48 <= u <= 57 then Some(u - 48)
    else if 97 <= u <= 102 then Some(u - 87)
    else if 65 <= u <= 70 then Some(u - 55)
    else None
  }

  function UnicodeEscape(u: Unit): (t: Text)
    ensures |t| == 6
  {
    [BACKSLASH, 117, HexDigit(u / 4096), HexDigit(u / 256 % 16), HexDigit(u / 16 % 16), HexDigit(u % 16)]
  }

  /** The letter of a two-character escape. */
  function ShortEscape(u: Unit): Option<Unit> {
    if u == 8 then Some(98) else if u == 9 then Some(116) else if u == 10 then Some(110) else if u == 12 then Some(102)
    else if u == 13 then Some(114) else if u == QUOTE || u == BACKSLASH then Some(u) else None
  }

  function Escaped(s: Text): Text {
    if s == [] then []
    else if HighSurrogate(s[0]) && |s| > 1 && LowSurrogate(s[1]) then s[..2] + Escaped(s[2..])
    else EscapedUnit(s[0]) + Escaped(s[1..])
  }

  /** A unit that is not part of a pair: controls and lone surrogates are escaped. */
  function EscapedUnit(u: Unit): (t: Text)
    ensures t != []
  {
    if ShortEscape(u).Some? then [BACKSLASH, ShortEscape(u).value]
    else if u < 32 || HighSurrogate(u) || LowSurrogate(u) then UnicodeEscape(u)
    else [u]
  }

  function ReadShort(u: Unit): Option<Unit> {
    if u == 98 then Some(8) else if u == 116 then Some(9) else if u == 110 then Some(10) else if u == 102 then Some(12)
    else if u == 114 then Some(13) else if u == QUOTE || u == BACKSLASH || u == 47 then Some(u) else None
  }

  function ReadHex(t: Text): Option<Unit>
    requires |t| == 4
  {
    var a, b, c, d := HexValue(t[0]), HexValue(t[1]), HexValue(t[2]), HexValue(t[3]);
    if a.None? || b.None? || c.None? || d.None? || a.value > 15 || b.value > 15 || c.value > 15 || d.value > 15 then None
    else Some(((a.value * 16 + b.value) * 16 + c.value) * 16 + d.value)
  }

  /** One character of a string, which must not be its closing quote, and the text after it. */
  function ReadUnit(t: Text): (r: Option<(Unit, Text)>)
    requires t != []
    ensures r.Some? ==> |r.value.1| < |t|
  {
    if t[0] < 32 then None
    else if t[0] != BACKSLASH then Some((t[0], t[1..]))
    else if |t| >= 6 && t[1] == 117 then
      var u := ReadHex(t[2..6]);
      if u.None? then None else Some((u.value, t[6..]))
    else if |t| >= 2 && ReadShort(t[1]).Some? then Some((ReadShort(t[1]).value, t[2..]))
    else None
  }

  /** The rest of a string after its opening quote, and the text after its closing one. */
  function ReadString(t: Text): (r: Option<(Text, Text)>)
    ensures r.Some? ==> |r.value.1| < |t|
    decreases |t|
  {
    if t == [] then None
    else if t[0] == QUOTE then Some(([], t[1..]))
    else
      var first := ReadUnit(t);
      if first.None? then None else
      var others := ReadString(first.value.1);
      if others.None? then None else Some(([first.value.0] + others.value.0, others.value.1))
  }

  lemma FourDigits(u: Unit)
    ensures 0 <= u / 4096 < 16 && u % 16 < 16
    ensures ((u / 4096 * 16 + u / 256 % 16) * 16 + u / 16 % 16) * 16 + u % 16 == u
  {
  }

  lemma HexReads(u: Unit)
    ensures ReadHex(UnicodeEscape(u)[2..]) == Some(u)
  {
    hide HexDigit, HexValue;
    FourDigits(u);
    var a, b, c, d := u / 4096, u / 256 % 16, u / 16 % 16, u % 16;
    HexDigitReads(a);
    HexDigitReads(b);
    HexDigitReads(c);
    HexDigitReads(d);
    assert UnicodeEscape(u)[2..] == [HexDigit(a), HexDigit(b), HexDigit(c), HexDigit(d)];
  }

  lemma HexDigitReads(n: int)
    requires 0 <= n < 16
    ensures HexValue(HexDigit(n)) == Some(n)
  {
  }

  lemma UnitReads(u: Unit, rest: Text)
    ensures EscapedUnit(u)[0] != QUOTE && ReadUnit(EscapedUnit(u) + rest) == Some((u, rest))
  {
    hide UnicodeEscape, ReadHex;
    var t := EscapedUnit(u) + rest;
    if ShortEscape(u).Some? {
      assert t[2..] == rest;
    } else if u < 32 || HighSurrogate(u) || LowSurrogate(u) {
      HexReads(u);
      EscapeShape(u);
      assert t[2..6] == UnicodeEscape(u)[2..] && t[6..] == rest;
    } else {
      assert t[1..] == rest;
    }
  }

  lemma EscapeShape(u: Unit)
    ensures UnicodeEscape(u)[0] == BACKSLASH && UnicodeEscape(u)[1] == 117
  {
  }

  lemma {:induction false} EscapedReads(s: Text, rest: Text)
    ensures ReadString(Escaped(s) + [QUOTE] + rest) == Some((s, rest))
    decreases |s|
  {
    hide EscapedUnit, ReadUnit;
    var t := Escaped(s) + [QUOTE] + rest;
    if s == [] {
      assert t[1..] == rest;
    } else if HighSurrogate(s[0]) && |s| > 1 && LowSurrogate(s[1]) {
      EscapedReads(s[2..], rest);
      var after := Escaped(s[2..]) + [QUOTE] + rest;
      assert t == [s[0]] + ([s[1]] + after);
      RawReads(s[0], [s[1]] + after);
      RawReads(s[1], after);
      assert s == [s[0]] + ([s[1]] + s[2..]);
    } else {
      EscapedReads(s[1..], rest);
      UnitReads(s[0], Escaped(s[1..]) + [QUOTE] + rest);
      assert t == EscapedUnit(s[0]) + (Escaped(s[1..]) + [QUOTE] + rest);
      assert s == [s[0]] + s[1..];
    }
  }

  lemma RawReads(u: Unit, rest: Text)
    requires u >= 32 && u != BACKSLASH
    ensures ReadUnit([u] + rest) == Some((u, rest))
  {
    assert ([u] + rest)[1..] == rest;
  }

  lemma {:induction false} EscapedIsWellFormed(s: Text)
    ensures WellFormed(Escaped(s))
    decreases |s|
  {
    if s == [] {
    } else if HighSurrogate(s[0]) && |s| > 1 && LowSurrogate(s[1]) {
      EscapedIsWellFormed(s[2..]);
      assert Escaped(s)[2..] == Escaped(s[2..]);
    } else {
      EscapedIsWellFormed(s[1..]);
      UnitIsWellFormed(s[0]);
      WellFormedInTwo(EscapedUnit(s[0]), Escaped(s[1..]));
    }
  }

  lemma UnitIsWellFormed(u: Unit)
    ensures WellFormed(EscapedUnit(u))
  {
    PlainIsWellFormed(EscapedUnit(u));
  }

  lemma {:induction false} PlainIsWellFormed(t: Text)
    requires forall i :: 0 <= i < |t| ==> !HighSurrogate(t[i]) && !LowSurrogate(t[i])
    ensures WellFormed(t)
    decreases |t|
  {
    if t != [] { PlainIsWellFormed(t[1..]); }
  }

  // ----- values -------------------------------------------------------------------------------------

  datatype Json = JNull | JNumber(n: nat) | JString(s: Text) | JArray(items: seq<Json>)

  const NULL: Text := Chars("null")
  const OPEN: Unit := 91
  const CLOSE: Unit := 93
  const COMMA: Unit := 44

  /** `JSON.stringify` of a value built from null, natural numbers, strings and arrays. */
  function Write(v: Json): Text
    decreases v, 0
  {
    match v
    case JNull => NULL
    case JNumber(n) => Decimal(n)
    case JString(s) => [QUOTE] + Escaped(s) + [QUOTE]
    case JArray(items) => [OPEN] + WriteItems(items) + [CLOSE]
  }

  function WriteItems(items: seq<Json>): Text
    decreases items, |items|
  {
    if items == [] then []
    else if |items| == 1 then Write(items[0])
    else Write(items[0]) + [COMMA] + WriteItems(items[1..])
  }

  function Read(t: Text): (r: Option<(Json, Text)>)
    ensures r.Some? ==> |r.value.1| < |t|
    decreases |t|, 0
  {
    if t == [] then None
    else if t[0] == QUOTE then
      var s := ReadString(t[1..]);
      if s.None? then None else Some((JString(s.value.0), s.value.1))
    else if t[0] == OPEN then
      if |t| > 1 && t[1] == CLOSE then Some((JArray([]), t[2..]))
      else
        var items := ReadItems(t[1..]);
        if items.None? then None else Some((JArray(items.value.0), items.value.1))
    else if |t| >= 4 && t[..4] == NULL then Some((JNull, t[4..]))
    else if IsDigit(t[0]) then Some((JNumber(DecimalValue(t[..DigitCount(t)])), t[DigitCount(t)..]))
    else None
  }

  /** The items of an array that has some, up to and including its closing bracket. */
  function ReadItems(t: Text): (r: Option<(seq<Json>, Text)>)
    ensures r.Some? ==> |r.value.1| < |t|
    decreases |t|, 1
  {
    var first := Read(t);
    if first.None? || first.value.1 == [] then None
    else if first.value.1[0] == CLOSE then Some(([first.value.0], first.value.1[1..]))
    else if first.value.1[0] != COMMA then None
    else
      var others := ReadItems(first.value.1[1..]);
      if others.None? then None else Some(([first.value.0] + others.value.0, others.value.1))
  }

  lemma NullReads(rest: Text)
    ensures Read(NULL + rest) == Some((JNull, rest))
  {
    var t := NULL + rest;
    assert t[..4] == NULL && t[4..] == rest && t[0] == 110;
  }

  lemma NumberReads(n: nat, rest: Text)
    requires rest == [] || !IsDigit(rest[0])
    ensures Read(Decimal(n) + rest) == Some((JNumber(n), rest)) && Decimal(n)[0] != CLOSE
  {
    hide ReadString, DecimalValue, DigitCount, Decimal;
    var t := Decimal(n) + rest;
    DigitsEnd(Decimal(n), rest);
    DecimalReads(n);
    assert t[..|Decimal(n)|] == Decimal(n) && t[|Decimal(n)|..] == rest;
    assert t[0] == Decimal(n)[0] && IsDigit(t[0]);
    assert |t| >= 4 ==> t[..4][0] == t[0] && NULL[0] == 110;
  }

  lemma StringReads(s: Text, rest: Text)
    ensures Read([QUOTE] + Escaped(s) + [QUOTE] + rest) == Some((JString(s), rest))
  {
    hide ReadString, Escaped;
    var t := [QUOTE] + Escaped(s) + [QUOTE] + rest;
    EscapedReads(s, rest);
    assert t[1..] == Escaped(s) + [QUOTE] + rest && t[0] == QUOTE;
  }

  lemma EmptyArrayReads(rest: Text)
    ensures Read([OPEN, CLOSE] + rest) == Some((JArray([]), rest))
  {
    var t := [OPEN, CLOSE] + rest;
    assert t[0] == OPEN && t[1] == CLOSE && t[2..] == rest;
  }

  lemma ArrayReads(items: seq<Json>, inner: Text, rest: Text)
    requires inner != [] && inner[0] != CLOSE && ReadItems(inner) == Some((items, rest))
    ensures Read([OPEN] + inner) == Some((JArray(items), rest))
  {
    hide ReadItems;
    var t := [OPEN] + inner;
    assert t[0] == OPEN && t[1] == inner[0] && t[1..] == inner;
  }

  lemma WriteUnfold(v: Json)
    ensures v.JNull? ==> Write(v) == NULL
    ensures v.JNumber? ==> Write(v) == Decimal(v.n)
    ensures v.JString? ==> Write(v) == [QUOTE] + Escaped(v.s) + [QUOTE]
    ensures v.JArray? ==> Write(v) == [OPEN] + WriteItems(v.items) + [CLOSE]
    ensures v.JArray? && v.items == [] ==> Write(v) == [OPEN, CLOSE]
    ensures NULL[0] != CLOSE && QUOTE != CLOSE && OPEN != CLOSE
  {
    hide Escaped, Decimal;
  }

  /** What is written reads back as it was, whatever follows it. */
  lemma {:induction false} WriteReads(v: Json, rest: Text)
    requires rest == [] || !IsDigit(rest[0])
    ensures Write(v) != [] && Read(Write(v) + rest) == Some((v, rest)) && Write(v)[0] != CLOSE
    decreases v, 0
  {
    hide *;
    WriteUnfold(v);
    match v
    case JNull => NullReads(rest);
    case JNumber(n) => NumberReads(n, rest);
    case JString(s) => StringReads(s, rest);
    case JArray(items) =>
      if items == [] {
        EmptyArrayReads(rest);
      } else {
        ItemsRead(items, rest);
        var inner := WriteItems(items) + [CLOSE] + rest;
        assert Write(v) + rest == [OPEN] + inner && inner[0] == WriteItems(items)[0];
        ArrayReads(items, inner, rest);
      }
  }

  lemma {:induction false} ItemsRead(items: seq<Json>, rest: Text)
    requires items != []
    ensures ReadItems(WriteItems(items) + [CLOSE] + rest) == Some((items, rest))
    ensures WriteItems(items) != [] && WriteItems(items)[0] != CLOSE
    decreases items, |items|
  {
    hide *;
    WriteItemsUnfold(items);
    WrittenIsNonempty(items[0]);
    var t := WriteItems(items) + [CLOSE] + rest;
    if |items| == 1 {
      WriteReads(items[0], [CLOSE] + rest);
      assert t == Write(items[0]) + ([CLOSE] + rest);
      LastItemReads(t, items[0], [CLOSE] + rest);
      assert ([CLOSE] + rest)[1..] == rest;
      assert items == [items[0]];
    } else {
      var after := [COMMA] + (WriteItems(items[1..]) + [CLOSE] + rest);
      WriteReads(items[0], after);
      ItemsRead(items[1..], rest);
      assert t == Write(items[0]) + after;
      assert after[1..] == WriteItems(items[1..]) + [CLOSE] + rest;
      OneMoreItemReads(t, items[0], after, items[1..], rest);
      assert items == [items[0]] + items[1..];
    }
  }

  lemma WriteItemsUnfold(items: seq<Json>)
    requires items != []
    ensures WriteItems(items) == if |items| == 1 then Write(items[0]) else Write(items[0]) + [COMMA] + WriteItems(items[1..])
    ensures !IsDigit(CLOSE) && !IsDigit(COMMA)
  {
    hide Write;
  }

  lemma LastItemReads(t: Text, first: Json, after: Text)
    requires Read(t) == Some((first, after)) && after != [] && after[0] == CLOSE
    ensures ReadItems(t) == Some(([first], after[1..]))
  {
    hide Read;
  }

  lemma OneMoreItemReads(t: Text, first: Json, after: Text, others: seq<Json>, rest: Text)
    requires Read(t) == Some((first, after)) && after != [] && after[0] == COMMA
    requires ReadItems(after[1..]) == Some((others, rest))
    ensures ReadItems(t) == Some(([first] + others, rest))
  {
    hide Read;
  }

  lemma WrittenIsNonempty(v: Json)
    ensures Write(v) != []
  {
  }

  lemma WriteIsInjective(v: Json, w: Json)
    requires Write(v) == Write(w)
    ensures v == w
  {
    hide *;
    WriteReads(v, []);
    WriteReads(w, []);
    assert Write(v) + [] == Write(v) && Write(w) + [] == Write(w);
  }

  lemma {:induction false} WriteIsWellFormed(v: Json)
    ensures WellFormed(Write(v))
    decreases v, 0
  {
    hide Escaped, WellFormed;
    match v
    case JNull =>
      PlainIsWellFormed(NULL);
    case JNumber(n) =>
      PlainIsWellFormed(Decimal(n));
    case JString(s) =>
      EscapedIsWellFormed(s);
      PlainIsWellFormed([QUOTE]);
      WellFormedInTwo([QUOTE], Escaped(s));
      WellFormedInTwo([QUOTE] + Escaped(s), [QUOTE]);
    case JArray(items) =>
      ItemsAreWellFormed(items);
      PlainIsWellFormed([OPEN]);
      PlainIsWellFormed([CLOSE]);
      WellFormedInTwo([OPEN], WriteItems(items));
      WellFormedInTwo([OPEN] + WriteItems(items), [CLOSE]);
  }

  lemma {:induction false} ItemsAreWellFormed(items: seq<Json>)
    ensures WellFormed(WriteItems(items))
    decreases items, |items|
  {
    hide Write, WellFormed;
    if items == [] {
      PlainIsWellFormed([]);
    } else if |items| == 1 {
      WriteIsWellFormed(items[0]);
    } else {
      WriteIsWellFormed(items[0]);
      ItemsAreWellFormed(items[1..]);
      PlainIsWellFormed([COMMA]);
      WellFormedInTwo(Write(items[0]), [COMMA]);
      WellFormedInTwo(Write(items[0]) + [COMMA], WriteItems(items[1..]));
    }
  }

  // ----- the form it writes ---------------------------------------------------------------------------------

  const LOWER_DIGITS: string := "0123456789abcdef"

  /** How one unit of a string is written: most stand for themselves; quotes, backslashes, controls and lone surrogates are
      escaped, in two characters where there is a letter for it and else by number in lower case. */
  lemma UnitForm(u: Unit)
    ensures var number := Chars("\\u") + [LOWER_DIGITS[u / 4096] as int, LOWER_DIGITS[u / 256 % 16] as int,
                                          LOWER_DIGITS[u / 16 % 16] as int, LOWER_DIGITS[u % 16] as int];
            Escaped([u]) == if u == '"' as int then Chars("\\\"") else if u == '\\' as int then Chars("\\\\")
                            else if u == 8 then Chars("\\b") else if u == 9 then Chars("\\t") else if u == 10 then Chars("\\n")
                            else if u == 12 then Chars("\\f") else if u == 13 then Chars("\\r")
                            else if u < 32 || 0xd800 <= u <= 0xdfff then number else [u]
  {
    hide HexDigit;
    DigitForm(u / 4096);
    DigitForm(u / 256 % 16);
    DigitForm(u / 16 % 16);
    DigitForm(u % 16);
    assert [u][1..] == [];
    assert Escaped([u]) == EscapedUnit(u) + [];
  }

  lemma DigitForm(n: int)
    requires 0 <= n < 16
    ensures HexDigit(n) == LOWER_DIGITS[n] as int
  {
  }

  /** Whole pairs are written as they are. */
  lemma PairForm(high: Unit, low: Unit)
    requires 0xd800 <= high <= 0xdbff && 0xdc00 <= low <= 0xdfff
    ensures Escaped([high, low]) == [high, low]
  {
    assert [high, low][2..] == [] && [high, low][..2] == [high, low];
  }

  /** An array is written as its items between brackets with commas between them, and no space. */
  lemma {:induction false} ItemsForm(items: seq<Json>, texts: seq<Text>)
    requires |texts| == |items| && forall i :: 0 <= i < |items| ==> texts[i] == Write(items[i])
    ensures WriteItems(items) == Join(texts, ',' as int)
    decreases |items|
  {
    if |items| > 1 {
      WriteItemsUnfold(items);
      ItemsForm(items[1..], texts[1..]);
    }
  }
}
