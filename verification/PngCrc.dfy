/** The CRC of a PNG chunk: the bitwise register loop against the division of polynomials over GF(2) that section
    3.4 of RFC 2083 defines it by. */
module PngCrc {

  // ----- polynomials -----------------------------------------------------------------------------

  /** Coefficients, highest degree first. */
  type Poly = seq<bool>

  function Zeros(n: nat): (p: Poly)
    ensures |p| == n && forall i :: 0 <= i < n ==> !p[i]
  {
    seq(n, _ => false)
  }

  /** Addition over GF(2). */
  function Sum(a: Poly, b: Poly): (c: Poly)
    requires |a| == |b|
    ensures |c| == |a| && forall i :: 0 <= i < |a| ==> c[i] == (a[i] != b[i])
  {
    seq(|a|, i requires 0 <= i < |a| => a[i] != b[i])
  }

  const POLYNOMIAL: bv32 := 0xedb88320

  function Half(x: bv32): bv32 { x >> 1 }

  predicate Low(x: bv32) { x & 1 == 1 }

  function Xor(x: bv32, y: bv32): bv32 { x ^ y }

  /** The coefficients a register holds; its lowest bit is the highest coefficient. */
  function Bits(x: bv32, n: nat): (p: Poly)
    ensures |p| == n
  {
    if n == 0 then [] else [Low(x)] + Bits(Half(x), n - 1)
  }

  /** The divisor, of degree 32. */
  function Generator(): (g: Poly)
    ensures |g| == 33 && g[0]
  {
    [true] + Bits(POLYNOMIAL, 32)
  }

  /** The product of a polynomial and the generator, by schoolbook multiplication. */
  function Product(q: Poly): (p: Poly)
    ensures |p| == |q| + 32
  {
    if q == [] then Zeros(32)
    else Sum(if q[0] then Generator() + Zeros(|q| - 1) else Zeros(|q| + 32), [false] + Product(q[1..]))
  }

  ghost predicate Divides(p: Poly, q: Poly, r: Poly) {
    |r| == 32 && |p| == |q| + 32 && p == Sum(Product(q), Zeros(|q|) + r)
  }

  ghost predicate IsRemainder(p: Poly, r: Poly) { exists q :: Divides(p, q, r) }

  lemma {:induction false} RemainderIsUnique(p: Poly, q: Poly, r: Poly, q': Poly, r': Poly)
    requires Divides(p, q, r) && Divides(p, q', r')
    ensures q == q' && r == r'
    decreases |q|
  {
    if q == [] {
      assert r == p && r' == p by {
        assert forall i :: 0 <= i < 32 ==> p[i] == r[i] && p[i] == r'[i];
      }
    } else {
      assert p[0] == q[0] && p[0] == q'[0];
      var head := if q[0] then Generator() + Zeros(|q| - 1) else Zeros(|q| + 32);
      var rest := Sum(p, head)[1..];
      DividesTail(p, q, r, head, rest);
      DividesTail(p, q', r', head, rest);
      RemainderIsUnique(rest, q[1..], r, q'[1..], r');
    }
  }

  lemma DividesTail(p: Poly, q: Poly, r: Poly, head: Poly, rest: Poly)
    requires q != [] && Divides(p, q, r)
    requires head == (if q[0] then Generator() + Zeros(|q| - 1) else Zeros(|q| + 32)) && rest == Sum(p, head)[1..]
    ensures Divides(rest, q[1..], r)
  {
    var tail := Sum(Product(q[1..]), Zeros(|q| - 1) + r);
    forall i | 0 <= i < |rest| ensures rest[i] == tail[i] {
      assert p[i + 1] == (Product(q)[i + 1] != (Zeros(|q|) + r)[i + 1]);
      assert Product(q)[i + 1] == (head[i + 1] != Product(q[1..])[i]);
    }
  }

  // ----- the register ------------------------------------------------------------------------------

  /** One turn of the inner loop. */
  function Shifted(x: bv32): bv32 { Xor(Half(x), POLYNOMIAL & -(x & 1)) }

  function Fed(x: bv32, bit: bool): bv32 { Shifted(if bit then Xor(x, 1) else x) }

  function FedAll(x: bv32, bits: seq<bool>): bv32
    decreases bits
  {
    if bits == [] then x else FedAll(Fed(x, bits[0]), bits[1..])
  }

  /** The quotient's coefficients are the bits that leave the register. */
  function Quotient(x: bv32, bits: seq<bool>): (q: Poly)
    ensures |q| == |bits|
    decreases bits
  {
    if bits == [] then [] else [Low(x) != bits[0]] + Quotient(Fed(x, bits[0]), bits[1..])
  }

  /** What the register divides: the message times x^32, with the register's contents added to its front. */
  function Dividend(x: bv32, bits: seq<bool>): (p: Poly)
    ensures |p| == |bits| + 32
  {
    Sum(bits + Zeros(32), Bits(x, 32) + Zeros(|bits|))
  }

  // ----- registers as polynomials ------------------------------------------------------------------

  function Grown(mask: bv32): bv32 { (mask << 1) | 1 }

  function Mask(n: nat): bv32 { if n == 0 then 0 else Grown(Mask(n - 1)) }

  /** Only bits of the mask may be set. */
  predicate Under(x: bv32, mask: bv32) { x & mask == x }

  lemma HalfUnder(x: bv32, mask: bv32)
    requires Under(x, Grown(mask))
    ensures Under(Half(x), mask)
  {
  }

  lemma Masks()
    ensures Mask(8) == 0xff && Mask(31) == 0x7fff_ffff && Mask(32) == 0xffff_ffff
  {
    assert Mask(4) == 0xf;
    assert Mask(8) == 0xff;
    assert Mask(12) == 0xfff;
    assert Mask(16) == 0xffff;
    assert Mask(20) == 0xf_ffff;
    assert Mask(24) == 0xff_ffff;
    assert Mask(28) == 0xfff_ffff;
    assert Mask(31) == 0x7fff_ffff;
  }

  lemma AllUnder(x: bv32)
    ensures Under(x, Mask(32)) && Under(Half(x), Mask(31))
  {
    Masks();
    EverythingUnder(x);
  }

  lemma EverythingUnder(x: bv32)
    ensures Under(x, 0xffff_ffff) && Under(Half(x), 0x7fff_ffff)
  {
  }

  lemma {:induction false} BitsDetermine(x: bv32, y: bv32, n: nat)
    requires Under(x, Mask(n)) && Under(y, Mask(n)) && Bits(x, n) == Bits(y, n)
    ensures x == y
    decreases n
  {
    hide *;
    BitsUnfold(x, n);
    BitsUnfold(y, n);
    if n > 0 {
      assert Bits(x, n)[0] == Bits(y, n)[0] && Bits(x, n)[1..] == Bits(y, n)[1..];
      MaskUnfold(n);
      HalfUnder(x, Mask(n - 1));
      HalfUnder(y, Mask(n - 1));
      BitsDetermine(Half(x), Half(y), n - 1);
      SameHalves(x, y);
    } else {
      MaskUnfold(n);
      NothingUnder(x);
      NothingUnder(y);
    }
  }

  lemma BitsUnfold(x: bv32, n: nat)
    ensures Bits(x, n) == if n == 0 then [] else [Low(x)] + Bits(Half(x), n - 1)
  {
    hide Low, Half;
  }

  lemma MaskUnfold(n: nat)
    ensures Mask(n) == if n == 0 then 0 else Grown(Mask(n - 1))
  {
    hide Grown;
  }

  lemma NothingUnder(x: bv32)
    requires Under(x, 0)
    ensures x == 0
  {
  }

  lemma SameHalves(x: bv32, y: bv32)
    requires Half(x) == Half(y) && Low(x) == Low(y)
    ensures x == y
  {
  }

  lemma {:induction false} BitsOfXor(x: bv32, y: bv32, n: nat)
    ensures Bits(Xor(x, y), n) == Sum(Bits(x, n), Bits(y, n))
    decreases n
  {
    hide *;
    BitsUnfold(x, n);
    BitsUnfold(y, n);
    BitsUnfold(Xor(x, y), n);
    if n > 0 {
      XorHalves(x, y);
      BitsOfXor(Half(x), Half(y), n - 1);
    }
  }

  lemma XorHalves(x: bv32, y: bv32)
    ensures Half(Xor(x, y)) == Xor(Half(x), Half(y))
    ensures Low(Xor(x, y)) == (Low(x) != Low(y))
  {
  }

  lemma {:induction false} BitsExtend(x: bv32, n: nat)
    requires Under(x, Mask(n))
    ensures Bits(x, n + 1) == Bits(x, n) + [false]
    decreases n
  {
    hide *;
    BitsUnfold(x, n + 1);
    BitsUnfold(x, n);
    MaskUnfold(n);
    if n == 0 {
      NothingUnder(x);
      ZeroHalves();
      BitsUnfold(Half(x), 0);
    } else {
      HalfUnder(x, Mask(n - 1));
      BitsExtend(Half(x), n - 1);
    }
  }

  lemma ZeroHalves()
    ensures Half(0) == 0 && !Low(0)
  {
  }

  lemma {:induction false} BitsOfZero(n: nat)
    ensures Bits(0, n) == Zeros(n)
  {
    ZeroHalves();
    if n > 0 { BitsOfZero(n - 1); }
  }

  lemma ShiftedMeans(x: bv32)
    ensures Shifted(x) == Xor(Half(x), if Low(x) then POLYNOMIAL else 0)
  {
  }

  lemma BitsOfShifted(x: bv32)
    ensures Bits(Shifted(x), 32) == Sum(Bits(x, 32)[1..] + [false], if Low(x) then Bits(POLYNOMIAL, 32) else Zeros(32))
  {
    hide *;
    ShiftedMeans(x);
    AllUnder(x);
    BitsUnfold(x, 32);
    BitsExtend(Half(x), 31);
    BitsOfXor(Half(x), if Low(x) then POLYNOMIAL else 0, 32);
    BitsOfZero(32);
  }

  lemma BitsOfFed(x: bv32, bit: bool)
    ensures Bits(Fed(x, bit), 32)
         == Sum(Bits(x, 32)[1..] + [false], if Low(x) != bit then Bits(POLYNOMIAL, 32) else Zeros(32))
  {
    hide *;
    FedMeans(x, bit);
    LowBitFlips(x);
    BitsOfShifted(if bit then Xor(x, 1) else x);
    BitsUnfold(x, 32);
    BitsUnfold(Xor(x, 1), 32);
  }

  lemma FedMeans(x: bv32, bit: bool)
    ensures Fed(x, bit) == Shifted(if bit then Xor(x, 1) else x)
  {
    hide Shifted, Xor;
  }

  lemma LowBitFlips(x: bv32)
    ensures Half(Xor(x, 1)) == Half(x) && Low(Xor(x, 1)) == !Low(x)
  {
  }

  /** Feeding a message to the register leaves the remainder of the dividend. */
  lemma {:induction false} FeedingDivides(x: bv32, bits: seq<bool>)
    ensures Divides(Dividend(x, bits), Quotient(x, bits), Bits(FedAll(x, bits), 32))
    decreases bits
  {
    hide Fed, Low, Bits;
    if bits == [] {
      assert Dividend(x, bits) == Sum(Product([]), Zeros(0) + Bits(x, 32));
    } else {
      var next := Fed(x, bits[0]);
      FeedingDivides(next, bits[1..]);
      BitsOfFed(x, bits[0]);
      BitsUnfold(x, 32);
      assert Generator()[1..] == Bits(POLYNOMIAL, 32);
      OneDivisionStep(Bits(x, 32), Bits(next, 32), bits, Quotient(next, bits[1..]), Bits(FedAll(x, bits), 32), Low(x));
    }
  }

  lemma OneDivisionStep(x: Poly, next: Poly, bits: seq<bool>, q: Poly, r: Poly, low: bool)
    requires |x| == 32 && |next| == 32 && bits != [] && x[0] == low && |q| == |bits| - 1
    requires next == Sum(x[1..] + [false], if low != bits[0] then Generator()[1..] else Zeros(32))
    requires Divides(Sum(bits[1..] + Zeros(32), next + Zeros(|bits| - 1)), q, r)
    ensures Divides(Sum(bits + Zeros(32), x + Zeros(|bits|)), [low != bits[0]] + q, r)
  {
    hide *;
    var out, n := low != bits[0], |q|;
    var p, rest := Sum(bits + Zeros(32), x + Zeros(|bits|)), Sum(bits[1..] + Zeros(32), next + Zeros(n));
    var more, head := [out] + q, if out then Generator() + Zeros(n) else Zeros(n + 33);
    DividesMeans(rest, q, r);
    assert more[1..] == q;
    ProductUnfold(more);
    var whole := Sum(Product(more), Zeros(n + 1) + r);
    assert p[0] == (bits[0] != x[0]) && whole[0] == (head[0] != false);
    forall i | 1 <= i < |p| ensures p[i] == whole[i] {
      RestIsShifted(x, next, bits, out, i, p, rest, head);
      assert whole[i] == ((head[i] != ([false] + Product(q))[i]) != (Zeros(n + 1) + r)[i]);
      assert rest[i - 1] == (Product(q)[i - 1] != (Zeros(n) + r)[i - 1]);
    }
    assert p == whole;
    DividesMeans(p, more, r);
  }

  lemma DividesMeans(p: Poly, q: Poly, r: Poly)
    ensures Divides(p, q, r) <==> |r| == 32 && |p| == |q| + 32 && p == Sum(Product(q), Zeros(|q|) + r)
  {
    hide Product, Sum;
  }

  lemma ProductUnfold(q: Poly)
    requires q != []
    ensures Product(q) == Sum(if q[0] then Generator() + Zeros(|q| - 1) else Zeros(|q| + 32), [false] + Product(q[1..]))
  {
    hide Generator, Sum;
  }

  /** What is left to divide after one step is the dividend with the generator taken off where a bit left. */
  lemma RestIsShifted(x: Poly, next: Poly, bits: seq<bool>, out: bool, i: nat, p: Poly, rest: Poly, head: Poly)
    requires |x| == 32 && |next| == 32 && bits != [] && 1 <= i < |bits| + 32
    requires next == Sum(x[1..] + [false], if out then Generator()[1..] else Zeros(32))
    requires p == Sum(bits + Zeros(32), x + Zeros(|bits|))
    requires rest == Sum(bits[1..] + Zeros(32), next + Zeros(|bits| - 1))
    requires head == if out then Generator() + Zeros(|bits| - 1) else Zeros(|bits| + 32)
    ensures p[i] == (rest[i - 1] != head[i])
  {
    hide *;
    assert (bits + Zeros(32))[i] == (bits[1..] + Zeros(32))[i - 1];
    if i < 32 {
      assert next[i - 1] == ((x[1..] + [false])[i - 1] != (if out then Generator()[1..] else Zeros(32))[i - 1]);
      assert (x + Zeros(|bits|))[i] == (x[1..] + [false])[i - 1] && (next + Zeros(|bits| - 1))[i - 1] == next[i - 1];
    } else if i == 32 {
      assert next[31] == ((x[1..] + [false])[31] != (if out then Generator()[1..] else Zeros(32))[31]);
      assert !(x + Zeros(|bits|))[i] && (next + Zeros(|bits| - 1))[i - 1] == next[31];
    } else {
      assert !(x + Zeros(|bits|))[i] && !(next + Zeros(|bits| - 1))[i - 1];
    }
  }

  // ----- the checksum -------------------------------------------------------------------------------

  const ALL: bv32 := 0xffff_ffff

  function Wide(byte: bv8): bv32 { byte as bv32 }

  /** The bits of a message in the order the register takes them: each byte from its lowest bit. */
  function MessageBits(data: seq<bv8>): (bits: seq<bool>)
    ensures |bits| == 8 * |data|
  {
    if data == [] then [] else Bits(Wide(data[0]), 8) + MessageBits(data[1..])
  }

  function Register(x: bv32, data: seq<bv8>): bv32 { FedAll(x, MessageBits(data)) }

  function Crc32(data: seq<bv8>): bv32 { Xor(Register(ALL, data), ALL) }

  function Turned(x: bv32, n: nat): bv32
    decreases n
  {
    if n == 0 then x else Turned(Shifted(x), n - 1)
  }

  lemma {:induction false} FedInTwo(x: bv32, a: seq<bool>, b: seq<bool>)
    ensures FedAll(x, a + b) == FedAll(FedAll(x, a), b)
    decreases a
  {
    hide Fed;
    if a == [] {
      assert a + b == b;
    } else {
      assert (a + b)[1..] == a[1..] + b;
      FedInTwo(Fed(x, a[0]), a[1..], b);
    }
  }

  lemma XorSwaps(a: bv32, b: bv32)
    ensures Xor(a, b) == Xor(b, a)
  {
  }

  lemma XorRegroups(a: bv32, b: bv32, c: bv32)
    ensures Xor(Xor(a, b), c) == Xor(a, Xor(b, c))
  {
  }

  lemma XorShuffle(a: bv32, b: bv32, c: bv32, d: bv32)
    ensures Xor(Xor(a, b), Xor(c, d)) == Xor(Xor(a, c), Xor(b, d))
    ensures Xor(Xor(a, b), c) == Xor(a, Xor(b, c))
  {
    hide *;
    XorRegroups(a, b, c);
    XorRegroups(a, b, Xor(c, d));
    XorRegroups(b, c, d);
    XorSwaps(b, c);
    XorRegroups(c, b, d);
    XorRegroups(a, c, Xor(b, d));
  }

  lemma ShiftedIsLinear(x: bv32, y: bv32)
    ensures Shifted(Xor(x, y)) == Xor(Shifted(x), Shifted(y))
  {
    hide *;
    ShiftedMeans(x);
    ShiftedMeans(y);
    ShiftedMeans(Xor(x, y));
    XorHalves(x, y);
    XorShuffle(Half(x), Half(y), if Low(x) then POLYNOMIAL else 0, if Low(y) then POLYNOMIAL else 0);
    XorZero(POLYNOMIAL);
    XorZero(0);
  }

  lemma FedByBit(x: bv32, rest: bv32)
    ensures Fed(Xor(x, rest), Low(rest)) == Xor(Shifted(x), Half(rest))
  {
    hide *;
    FedMeans(Xor(x, rest), Low(rest));
    var even := if Low(rest) then Xor(rest, 1) else rest;
    LowBitFlips(rest);
    XorShuffle(x, rest, 1, 0);
    ShiftedIsLinear(x, even);
    ShiftedMeans(even);
    XorZero(Half(even));
  }

  /** Adding a whole byte and turning eight times is feeding its bits one by one. */
  lemma {:induction false} TurningFeeds(x: bv32, rest: bv32, n: nat)
    requires Under(rest, Mask(n))
    ensures FedAll(Xor(x, rest), Bits(rest, n)) == Turned(x, n)
    decreases n
  {
    hide *;
    BitsUnfold(rest, n);
    MaskUnfold(n);
    TurnedUnfold(x, n);
    FedUnfold(Xor(x, rest), Bits(rest, n));
    if n == 0 {
      NothingUnder(rest);
      XorZero(x);
    } else {
      HalfUnder(rest, Mask(n - 1));
      FedByBit(x, rest);
      TurningFeeds(Shifted(x), Half(rest), n - 1);
    }
  }

  lemma TurnedUnfold(x: bv32, n: nat)
    ensures Turned(x, n) == if n == 0 then x else Turned(Shifted(x), n - 1)
  {
    hide Shifted;
  }

  lemma FedUnfold(x: bv32, bits: seq<bool>)
    ensures FedAll(x, bits) == if bits == [] then x else FedAll(Fed(x, bits[0]), bits[1..])
  {
    hide Fed;
  }

  lemma XorZero(x: bv32)
    ensures Xor(x, 0) == x && Xor(0, x) == x && Xor(x, x) == 0
  {
  }

  lemma ByteUnder(byte: bv8)
    ensures Under(Wide(byte), Mask(8))
  {
    Masks();
    ByteBelow(byte);
  }

  lemma ByteBelow(byte: bv8)
    ensures Under(Wide(byte), 0xff)
  {
  }

  lemma XorBack(x: bv32, y: bv32)
    ensures Xor(Xor(x, y), y) == x
  {
  }

  lemma RegisterUnfold(x: bv32, data: seq<bv8>)
    ensures Register(x, data) == if data == [] then x else Register(Turned(Xor(x, Wide(data[0])), 8), data[1..])
  {
    hide Xor, Bits, FedAll, Turned, Wide;
    if data == [] {
      FedUnfold(x, []);
    } else {
      var byte := Wide(data[0]);
      ByteUnder(data[0]);
      TurningFeeds(Xor(x, byte), byte, 8);
      XorBack(x, byte);
      FedInTwo(x, Bits(byte, 8), MessageBits(data[1..]));
    }
  }

  /** The checksum is the one number whose complement, read as a polynomial, is the remainder of the message
      preceded by ones. */
  lemma CrcIsRemainder(data: seq<bv8>, c: bv32)
    ensures IsRemainder(Dividend(ALL, MessageBits(data)), Bits(Xor(c, ALL), 32)) <==> c == Crc32(data)
  {
    hide *;
    var bits := MessageBits(data);
    FeedingDivides(ALL, bits);
    CrcMeans(data);
    XorBack(Register(ALL, data), ALL);
    XorBack(c, ALL);
    DividesIsRemainder(Dividend(ALL, bits), Quotient(ALL, bits), Bits(FedAll(ALL, bits), 32));
    if IsRemainder(Dividend(ALL, bits), Bits(Xor(c, ALL), 32)) {
      var q := RemainderHasQuotient(Dividend(ALL, bits), Bits(Xor(c, ALL), 32));
      RemainderIsUnique(Dividend(ALL, bits), Quotient(ALL, bits), Bits(FedAll(ALL, bits), 32), q, Bits(Xor(c, ALL), 32));
      AllUnder(FedAll(ALL, bits));
      AllUnder(Xor(c, ALL));
      BitsDetermine(FedAll(ALL, bits), Xor(c, ALL), 32);
    }
  }

  lemma CrcMeans(data: seq<bv8>)
    ensures Crc32(data) == Xor(Register(ALL, data), ALL) && Register(ALL, data) == FedAll(ALL, MessageBits(data))
  {
    hide Xor, FedAll;
  }

  lemma DividesIsRemainder(p: Poly, q: Poly, r: Poly)
    requires Divides(p, q, r)
    ensures IsRemainder(p, r)
  {
  }

  lemma RemainderHasQuotient(p: Poly, r: Poly) returns (q: Poly)
    requires IsRemainder(p, r)
    ensures Divides(p, q, r)
  {
    q :| Divides(p, q, r);
  }

  // ----- what the checksum notices ------------------------------------------------------------------

  lemma {:induction false} TurnedIsLinear(x: bv32, y: bv32, n: nat)
    ensures Turned(Xor(x, y), n) == Xor(Turned(x, n), Turned(y, n))
    decreases n
  {
    hide *;
    TurnedUnfold(x, n);
    TurnedUnfold(y, n);
    TurnedUnfold(Xor(x, y), n);
    if n > 0 {
      ShiftedIsLinear(x, y);
      TurnedIsLinear(Shifted(x), Shifted(y), n - 1);
    }
  }

  function XorByte(a: bv8, b: bv8): bv8 { a ^ b }

  function SumBytes(a: seq<bv8>, b: seq<bv8>): (c: seq<bv8>)
    requires |a| == |b|
    ensures |c| == |a| && forall i :: 0 <= i < |a| ==> c[i] == XorByte(a[i], b[i])
  {
    seq(|a|, i requires 0 <= i < |a| => XorByte(a[i], b[i]))
  }

  lemma BytesWiden(a: bv8, b: bv8)
    ensures Wide(XorByte(a, b)) == Xor(Wide(a), Wide(b))
  {
  }

  lemma {:induction false} RegisterIsLinear(x: bv32, y: bv32, a: seq<bv8>, b: seq<bv8>)
    requires |a| == |b|
    ensures Register(Xor(x, y), SumBytes(a, b)) == Xor(Register(x, a), Register(y, b))
    decreases a
  {
    hide *;
    RegisterUnfold(x, a);
    RegisterUnfold(y, b);
    RegisterUnfold(Xor(x, y), SumBytes(a, b));
    if a != [] {
      var s, t := Xor(x, Wide(a[0])), Xor(y, Wide(b[0]));
      BytesWiden(a[0], b[0]);
      XorShuffle(x, y, Wide(a[0]), Wide(b[0]));
      TurnedIsLinear(s, t, 8);
      assert SumBytes(a, b)[1..] == SumBytes(a[1..], b[1..]);
      RegisterIsLinear(Turned(s, 8), Turned(t, 8), a[1..], b[1..]);
    }
  }

  /** The checksum is affine: on messages of one length, the checksum of a sum is the sum of the checksums, up to
      the checksum of the zero message. */
  lemma CrcIsAffine(a: seq<bv8>, b: seq<bv8>)
    requires |a| == |b|
    ensures Crc32(SumBytes(a, b)) == Xor(Xor(Crc32(a), Crc32(b)), Crc32(SumBytes(a, a)))
  {
    hide Register, Xor, XorByte;
    var ra, rb, none := Register(ALL, a), Register(ALL, b), SumBytes(a, a);
    RegisterIsLinear(ALL, ALL, a, b);
    RegisterIsLinear(ALL, 0, none, SumBytes(a, b));
    XorZero(ALL);
    AddingNothing(a, SumBytes(a, b));
    AffineArithmetic(ra, rb, Register(ALL, none), Register(ALL, SumBytes(a, b)), Register(0, SumBytes(a, b)));
  }

  lemma AddingNothing(a: seq<bv8>, b: seq<bv8>)
    requires |a| == |b|
    ensures SumBytes(SumBytes(a, a), b) == b
  {
  }

  lemma AffineArithmetic(ra: bv32, rb: bv32, rn: bv32, rs: bv32, z: bv32)
    requires z == Xor(ra, rb) && rs == Xor(rn, z)
    ensures Xor(rs, ALL) == Xor(Xor(Xor(ra, ALL), Xor(rb, ALL)), Xor(rn, ALL))
  {
  }

  /** `calculatePngCrc32` */
  method CalculatePngCrc32(data: seq<bv8>) returns (crc: bv32)
    ensures crc == Crc32(data)
    ensures IsRemainder(Dividend(ALL, MessageBits(data)), Bits(Xor(crc, ALL), 32))
  {
    hide *;
    var register := ALL;
    for i := 0 to |data|
      invariant Register(register, data[i..]) == Register(ALL, data)
    {
      RegisterUnfold(register, data[i..]);
      assert data[i..][1..] == data[i + 1..];
      ghost var added := Xor(register, Wide(data[i]));
      register := Xor(register, Wide(data[i]));
      for bit := 0 to 8
        invariant Turned(register, 8 - bit) == Turned(added, 8)
      {
        TurnedUnfold(register, 8 - bit);
        register := Shifted(register);
      }
      TurnedUnfold(register, 0);
    }
    RegisterUnfold(register, data[|data|..]);
    crc := Xor(register, ALL);
    CrcMeans(data);
    CrcIsRemainder(data, crc);
  }
}
