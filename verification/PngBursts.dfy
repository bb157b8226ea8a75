/** Damage that stays within four consecutive bytes always changes the checksum. */
module PngBursts {
  import opened PngCrc

  function Raised(x: bv32): bv32 { x << 8 }

  function Twice(x: bv32): bv32 { x << 1 }

  lemma EvenTurns(y: bv32)
    requires Under(y, 0x7fff_ffff)
    ensures Shifted(Twice(y)) == y
  {
    hide Shifted;
    ShiftedMeans(Twice(y));
    XorZero(y);
    TwiceHalves(y);
  }

  lemma TwiceHalves(y: bv32)
    requires Under(y, 0x7fff_ffff)
    ensures Half(Twice(y)) == y && !Low(Twice(y))
  {
  }

  lemma TwiceUnder(x: bv32, mask: bv32)
    requires Under(x, mask)
    ensures Under(Twice(x), Twice(mask))
  {
  }

  lemma RaisedIsTwiceAgain(x: bv32)
    ensures Raised(x) == Twice(Twice(Twice(Twice(Twice(Twice(Twice(Twice(x))))))))
  {
  }

  lemma Masks()
    ensures Twice(0xff_ffff) == 0x1ff_fffe && Twice(0x1ff_fffe) == 0x3ff_fffc && Twice(0x3ff_fffc) == 0x7ff_fff8
    ensures Twice(0x7ff_fff8) == 0xfff_fff0 && Twice(0xfff_fff0) == 0x1fff_ffe0 && Twice(0x1fff_ffe0) == 0x3fff_ffc0
    ensures Twice(0x3fff_ffc0) == 0x7fff_ff80
  {
  }

  lemma StillUnder(x: bv32, mask: bv32)
    requires Under(x, mask) && Under(mask, 0x7fff_ffff)
    ensures Under(x, 0x7fff_ffff)
  {
  }

  lemma OneTurnLowers(y: bv32, mask: bv32, n: nat)
    requires Under(y, mask) && Under(mask, 0x7fff_ffff) && n > 0
    ensures Turned(Twice(y), n) == Turned(y, n - 1)
    ensures Under(Twice(y), Twice(mask))
  {
    hide *;
    StillUnder(y, mask);
    EvenTurns(y);
    TwiceUnder(y, mask);
    TurnedUnfold(Twice(y), n);
  }

  lemma MasksUnder()
    ensures Under(0xff_ffff, 0x7fff_ffff) && Under(0x1ff_fffe, 0x7fff_ffff) && Under(0x3ff_fffc, 0x7fff_ffff)
    ensures Under(0x7ff_fff8, 0x7fff_ffff) && Under(0xfff_fff0, 0x7fff_ffff) && Under(0x1fff_ffe0, 0x7fff_ffff)
    ensures Under(0x3fff_ffc0, 0x7fff_ffff) && Under(0x7fff_ff80, 0x7fff_ffff)
  {
  }

  /** Eight turns undo a raise by eight. */
  lemma TurningLowers(x: bv32)
    requires Under(x, 0xff_ffff)
    ensures Turned(Raised(x), 8) == x
  {
    hide *;
    RaisedIsTwiceAgain(x);
    Masks();
    MasksUnder();
    var x1 := Twice(x);
    var x2 := Twice(x1);
    var x3 := Twice(x2);
    var x4 := Twice(x3);
    var x5 := Twice(x4);
    var x6 := Twice(x5);
    var x7 := Twice(x6);
    OneTurnLowers(x, 0xff_ffff, 1);
    OneTurnLowers(x1, 0x1ff_fffe, 2);
    OneTurnLowers(x2, 0x3ff_fffc, 3);
    OneTurnLowers(x3, 0x7ff_fff8, 4);
    OneTurnLowers(x4, 0xfff_fff0, 5);
    OneTurnLowers(x5, 0x1fff_ffe0, 6);
    OneTurnLowers(x6, 0x3fff_ffc0, 7);
    OneTurnLowers(x7, 0x7fff_ff80, 8);
    TurnedUnfold(x, 0);
  }

  lemma ShiftedIsInjective(x: bv32)
    requires Shifted(x) == 0
    ensures x == 0
  {
  }

  lemma {:induction false} TurnedIsInjective(x: bv32, y: bv32, n: nat)
    requires Turned(x, n) == Turned(y, n)
    ensures x == y
    decreases n
  {
    hide *;
    TurnedUnfold(x, n);
    TurnedUnfold(y, n);
    if n > 0 {
      TurnedIsInjective(Shifted(x), Shifted(y), n - 1);
      ShiftedIsLinear(x, y);
      XorZero(Shifted(x));
      ShiftedIsInjective(Xor(x, y));
      XorBack(x, y);
      XorZero(y);
    }
  }

  // ----- the register over a whole message -----------------------------------------------------------

  lemma {:induction false} RegisterInTwo(x: bv32, a: seq<bv8>, b: seq<bv8>)
    ensures Register(x, a + b) == Register(Register(x, a), b)
    decreases a
  {
    hide *;
    RegisterUnfold(x, a);
    RegisterUnfold(x, a + b);
    if a == [] {
      assert a + b == b;
    } else {
      assert (a + b)[1..] == a[1..] + b;
      RegisterInTwo(Turned(Xor(x, Wide(a[0])), 8), a[1..], b);
    }
  }

  predicate Blank(data: seq<bv8>) { forall i :: 0 <= i < |data| ==> data[i] == 0 }

  lemma {:induction false} BlankKeepsZero(data: seq<bv8>)
    requires Blank(data)
    ensures Register(0, data) == 0
    decreases data
  {
    hide Register, Turned, Wide, Xor;
    RegisterUnfold(0, data);
    if data != [] {
      WideZero();
      XorZero(0);
      TurnedZero(8);
      BlankKeepsZero(data[1..]);
    }
  }

  lemma WideZero()
    ensures Wide(0) == 0
  {
  }

  lemma {:induction false} TurnedZero(n: nat)
    ensures Turned(0, n) == 0
  {
    hide *;
    TurnedUnfold(0, n);
    if n > 0 {
      ShiftedZero();
      TurnedZero(n - 1);
    }
  }

  lemma ShiftedZero()
    ensures Shifted(0) == 0
  {
  }

  lemma {:induction false} OnlyZeroBecomesZero(x: bv32, data: seq<bv8>)
    requires Blank(data) && Register(x, data) == 0
    ensures x == 0
    decreases data
  {
    hide Register, Turned, Wide, Xor;
    RegisterUnfold(x, data);
    if data != [] {
      WideZero();
      XorZero(x);
      OnlyZeroBecomesZero(Turned(x, 8), data[1..]);
      TurnedZero(8);
      TurnedIsInjective(x, 0, 8);
    }
  }

  // ----- a short burst ---------------------------------------------------------------------------------

  /** The bits a register can have in its lowest 4 - n bytes. */
  function LowBytes(n: nat): bv32
    requires n <= 4
  {
    if n == 0 then 0xffff_ffff else if n == 1 then 0xff_ffff else if n == 2 then 0xffff else if n == 3 then 0xff else 0
  }

  lemma RaisedUnder(z: bv32, byte: bv8, n: nat)
    requires 1 <= n <= 4 && Under(z, LowBytes(n))
    ensures Under(z, 0xff_ffff) && Under(Xor(Raised(z), Wide(byte)), LowBytes(n - 1))
  {
  }

  lemma RaisedMeetsByte(z: bv32, byte: bv8)
    requires Under(z, 0xff_ffff) && Xor(Raised(z), Wide(byte)) == 0
    ensures z == 0 && byte == 0
  {
  }

  /** From an empty register, up to four bytes leave something in the highest places unless they are all zero. */
  lemma {:induction false} ShortBurstShows(w: seq<bv8>)
    requires |w| <= 4 && Under(Register(0, w), LowBytes(|w|))
    ensures Register(0, w) == 0 && Blank(w)
    decreases |w|
  {
    hide Register, Turned, Wide, Xor, Under, LowBytes, Raised;
    if w == [] {
      RegisterUnfold(0, w);
    } else {
      var n := |w| - 1;
      var before, byte, z := Register(0, w[..n]), w[n], Register(0, w);
      assert w == w[..n] + [byte] && [byte][1..] == [];
      RegisterInTwo(0, w[..n], [byte]);
      RegisterUnfold(before, [byte]);
      RegisterUnfold(Turned(Xor(before, Wide(byte)), 8), []);
      RaisedUnder(z, byte, |w|);
      TurningLowers(z);
      TurnedIsInjective(Xor(before, Wide(byte)), Raised(z), 8);
      XorBack(before, Wide(byte));
      ShortBurstShows(w[..n]);
      XorZero(Wide(byte));
      XorCancel(before, Wide(byte), Raised(z));
      RaisedMeetsByte(z, byte);
    }
  }

  lemma XorCancel(x: bv32, y: bv32, z: bv32)
    requires Xor(x, y) == z && x == 0
    ensures Xor(z, y) == 0
  {
  }

  /** The two messages are equal except perhaps in the four bytes from position `at`. */
  predicate DifferWithin(a: seq<bv8>, b: seq<bv8>, at: nat) {
    |a| == |b| && forall i :: 0 <= i < |a| && (i < at || i >= at + 4) ==> a[i] == b[i]
  }

  lemma SumShowsDifference(a: seq<bv8>, b: seq<bv8>)
    requires |a| == |b|
    ensures forall i :: 0 <= i < |a| ==> (SumBytes(a, b)[i] == 0 <==> a[i] == b[i])
  {
  }

  /** Two messages of one length that can only differ within four consecutive bytes have the same checksum exactly
      when they are the same. */
  lemma BurstIsDetected(a: seq<bv8>, b: seq<bv8>, at: nat)
    requires DifferWithin(a, b, at)
    ensures Crc32(a) == Crc32(b) <==> a == b
  {
    hide Register, Turned, Wide, Xor, Under, SumBytes;
    if Crc32(a) == Crc32(b) {
      XorBack(Register(ALL, a), ALL);
      XorBack(Register(ALL, b), ALL);
      RegisterIsLinear(ALL, ALL, a, b);
      XorZero(ALL);
      XorZero(Register(ALL, a));
      var d := SumBytes(a, b);
      SumShowsDifference(a, b);
      var start := if at < |d| then at else |d|;
      var end := if at + 4 < |d| then at + 4 else |d|;
      var head, w, tail := d[..start], d[start..end], d[end..];
      assert d == head + (w + tail);
      RegisterInTwo(0, head, w + tail);
      RegisterInTwo(0, w, tail);
      BlankKeepsZero(head);
      OnlyZeroBecomesZero(Register(0, w), tail);
      ZeroUnder(LowBytes(|w|));
      ShortBurstShows(w);
      forall i | 0 <= i < |a| ensures a[i] == b[i] {
        if start <= i < end { assert w[i - start] == 0; }
      }
    }
  }

  lemma ZeroUnder(mask: bv32)
    ensures Under(0, mask)
  {
  }
}
