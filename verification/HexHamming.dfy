/** The distance of two perceptual hashes, which are strings of hexadecimal digits. */
module HexHamming {
  import opened Prelude

  /** `Number.parseInt(c, 16)` of one character. */
  function Nibble(c: char): Option<bv4> {
    if '0' <= c <= '9' then Some(Digit(c as int - '0' as int))
    else if 'a' <= c <= 'f' then Some(Digit(c as int - 'a' as int + 10))
    else if 'A' <= c <= 'F' then Some(Digit(c as int - 'A' as int + 10))
    else None
  }

  function Digit(n: int): bv4
    requires 0 <= n < 16
  {
    n as bv4
  }

  const DIGITS: string := "0123456789abcdef"
  const CAPITAL_DIGITS: string := "0123456789ABCDEF"

  /** A digit stands for its place in the list of digits, in either case, and no other character is one. */
  lemma NibbleIs(c: char)
    ensures forall n :: 0 <= n < 16 ==> Nibble(DIGITS[n]) == Nibble(CAPITAL_DIGITS[n]) == Some(n as bv4)
    ensures Nibble(c).None? <==> c !in DIGITS && c !in CAPITAL_DIGITS
  {
    forall n | 0 <= n < 16 ensures Nibble(DIGITS[n]) == Nibble(CAPITAL_DIGITS[n]) == Some(n as bv4) {
      assert DIGITS[n] as int == if n < 10 then 48 + n else 87 + n;
      assert CAPITAL_DIGITS[n] as int == if n < 10 then 48 + n else 55 + n;
    }
    if '0' <= c <= '9' { assert DIGITS[c as int - 48] == c; }
    if 'a' <= c <= 'f' { assert DIGITS[c as int - 87] == c; }
    if 'A' <= c <= 'F' { assert CAPITAL_DIGITS[c as int - 55] == c; }
  }

  predicate IsHex(s: string) { forall i :: 0 <= i < |s| ==> Nibble(s[i]).Some? }

  function NibbleBits(x: bv4): (bits: seq<bool>)
    ensures |bits| == 4
  {
    [x & 8 == 8, x & 4 == 4, x & 2 == 2, x & 1 == 1]
  }

  function HexBits(s: string): (bits: seq<bool>)
    requires IsHex(s)
    ensures |bits| == 4 * |s|
  {
    if s == [] then [] else HexBits(s[..|s| - 1]) + NibbleBits(Nibble(s[|s| - 1]).value)
  }

  /** Hamming distance: the number of places where two bit strings differ. */
  function Differences(a: seq<bool>, b: seq<bool>): (n: nat)
    requires |a| == |b|
    ensures n <= |a| && (n == 0 <==> a == b)
  {
    if a == [] then 0
    else Differences(a[..|a| - 1], b[..|a| - 1]) + (if a[|a| - 1] != b[|a| - 1] then 1 else 0)
  }

  /** None stands for an infinite distance. */
  function Distance(left: string, right: string): Option<nat> {
    if |left| != |right| || !IsHex(left) || !IsHex(right) then None
    else Some(Differences(HexBits(left), HexBits(right)))
  }

  lemma {:induction false} DifferencesSymmetric(a: seq<bool>, b: seq<bool>)
    requires |a| == |b|
    ensures Differences(a, b) == Differences(b, a)
  {
    if a != [] { DifferencesSymmetric(a[..|a| - 1], b[..|b| - 1]); }
  }

  lemma DistanceSymmetric(left: string, right: string)
    ensures Distance(left, right) == Distance(right, left)
  {
    if |left| == |right| && IsHex(left) && IsHex(right) { DifferencesSymmetric(HexBits(left), HexBits(right)); }
  }

  lemma LastDifference(a: seq<bool>, b: seq<bool>, n: nat)
    requires |a| == |b| == n + 1
    ensures Differences(a, b) == Differences(a[..n], b[..n]) + (if a[n] != b[n] then 1 else 0)
  {
  }

  lemma {:induction false} DifferencesInTwo(a: seq<bool>, b: seq<bool>, c: seq<bool>, d: seq<bool>)
    requires |a| == |b| && |c| == |d|
    ensures Differences(a + c, b + d) == Differences(a, b) + Differences(c, d)
    decreases |c|
  {
    hide *;
    if c == [] {
      assert a + c == a && b + d == b;
    } else {
      var n := |c| - 1;
      assert (a + c)[..|a| + n] == a + c[..n] && (b + d)[..|b| + n] == b + d[..n];
      LastDifference(a + c, b + d, |a| + n);
      LastDifference(c, d, n);
      DifferencesInTwo(a, b, c[..n], d[..n]);
    }
  }

  function OnesIn(x: bv4): nat {
    (if x & 8 == 8 then 1 else 0) + (if x & 4 == 4 then 1 else 0) + (if x & 2 == 2 then 1 else 0) + (if x & 1 == 1 then 1 else 0)
  }

  lemma OneBitLess(x: bv4)
    ensures OnesIn(x) == (if x & 1 == 1 then 1 else 0) + OnesIn(x >> 1)
    ensures x != 0 ==> (x >> 1) < x
    ensures OnesIn(0) == 0
  {
  }

  lemma NibbleDifferences(x: bv4, y: bv4)
    ensures Differences(NibbleBits(x), NibbleBits(y)) == OnesIn(x ^ y)
  {
    BitByBit(x, y);
    FourPlaces(NibbleBits(x), NibbleBits(y));
  }

  lemma FourPlaces(a: seq<bool>, b: seq<bool>)
    requires |a| == 4 && |b| == 4
    ensures Differences(a, b) == (if a[0] != b[0] then 1 else 0) + (if a[1] != b[1] then 1 else 0)
                               + (if a[2] != b[2] then 1 else 0) + (if a[3] != b[3] then 1 else 0)
  {
    hide *;
    LastDifference(a, b, 3);
    LastDifference(a[..3], b[..3], 2);
    LastDifference(a[..3][..2], b[..3][..2], 1);
    LastDifference(a[..3][..2][..1], b[..3][..2][..1], 0);
    NoDifference(a[..3][..2][..1][..0], b[..3][..2][..1][..0]);
  }

  lemma NoDifference(a: seq<bool>, b: seq<bool>)
    requires |a| == |b| == 0
    ensures Differences(a, b) == 0
  {
  }

  lemma BitByBit(x: bv4, y: bv4)
    ensures ((x ^ y) & 8 == 8 <==> (x & 8 == 8) != (y & 8 == 8)) && ((x ^ y) & 4 == 4 <==> (x & 4 == 4) != (y & 4 == 4))
    ensures ((x ^ y) & 2 == 2 <==> (x & 2 == 2) != (y & 2 == 2)) && ((x ^ y) & 1 == 1 <==> (x & 1 == 1) != (y & 1 == 1))
  {
  }

  lemma OneMoreDigit(left: string, right: string, i: nat)
    requires |left| == |right| && i < |left| && IsHex(left[..i]) && IsHex(right[..i])
    requires Nibble(left[i]).Some? && Nibble(right[i]).Some?
    ensures IsHex(left[..i + 1]) && IsHex(right[..i + 1])
    ensures Differences(HexBits(left[..i + 1]), HexBits(right[..i + 1]))
         == Differences(HexBits(left[..i]), HexBits(right[..i])) + OnesIn(Nibble(left[i]).value ^ Nibble(right[i]).value)
  {
    hide Nibble, NibbleBits, OnesIn;
    assert left[..i + 1][..i] == left[..i] && right[..i + 1][..i] == right[..i];
    NibbleDifferences(Nibble(left[i]).value, Nibble(right[i]).value);
    DifferencesInTwo(HexBits(left[..i]), HexBits(right[..i]), NibbleBits(Nibble(left[i]).value), NibbleBits(Nibble(right[i]).value));
  }

  /** `hammingDistanceHex`: counting the bits of each digit's difference gives the Hamming distance of the hashes. */
  method HammingDistanceHex(left: string, right: string) returns (distance: Option<nat>)
    ensures distance == Distance(left, right)
  {
    hide Nibble, NibbleBits, OnesIn, Differences;
    if |left| != |right| { return None; }
    var counted: nat := 0;
    assert left[..0] == [] && right[..0] == [];
    for index := 0 to |left|
      invariant IsHex(left[..index]) && IsHex(right[..index])
      invariant counted == Differences(HexBits(left[..index]), HexBits(right[..index]))
    {
      var leftNibble, rightNibble := Nibble(left[index]), Nibble(right[index]);
      if leftNibble.None? || rightNibble.None? { return None; }
      OneMoreDigit(left, right, index);
      var value := leftNibble.value ^ rightNibble.value;
      ghost var total := counted + OnesIn(value);
      while value > 0
        invariant counted + OnesIn(value) == total
        decreases value
      {
        OneBitLess(value);
        counted := counted + (if value & 1 == 1 then 1 else 0);
        value := value >> 1;
      }
      OneBitLess(0);
    }
    assert left[..|left|] == left && right[..|right|] == right;
    return Some(counted);
  }
}
