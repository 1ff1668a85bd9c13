/** CRC-32C (section 12.1 of RFC 3720): the table-driven loop and its bit-by-bit definition.
    Registers are integers; masking and shifting by whole bits are `%` and `/`. */
module Crc {
  import opened Basics

  const POLY: u32 := 0x82F6_3B78

  /** Bitwise exclusive or. */
  function Xor(a: nat, b: nat): nat
    decreases a + b
  {
    if a == 0 && b == 0 then 0 else (a % 2 + b % 2) % 2 + 2 * Xor(a / 2, b / 2)
  }

  lemma {:induction false} XorCommutes(a: nat, b: nat)
    ensures Xor(a, b) == Xor(b, a)
    decreases a + b
  {
    if a + b > 0 {
      XorCommutes(a / 2, b / 2);
    }
  }

  lemma XorParts(a: nat, b: nat)
    ensures Xor(a, b) % 2 == (a % 2 + b % 2) % 2 && Xor(a, b) / 2 == Xor(a / 2, b / 2)
  {}

  lemma Parity(p: nat, q: nat, r: nat)
    requires p < 2 && q < 2 && r < 2
    ensures ((p + q) % 2 + r) % 2 == (p + (q + r) % 2) % 2
  {}

  lemma SameParts(x: nat, y: nat)
    requires x % 2 == y % 2 && x / 2 == y / 2
    ensures x == y
  {}

  lemma {:induction false} XorAssociates(a: nat, b: nat, c: nat)
    ensures Xor(Xor(a, b), c) == Xor(a, Xor(b, c))
    decreases a + b + c
  {
    hide Xor;
    if a + b + c == 0 {
      XorZero(0);
    } else {
      XorAssociates(a / 2, b / 2, c / 2);
      XorParts(a, b);
      XorParts(b, c);
      XorParts(Xor(a, b), c);
      XorParts(a, Xor(b, c));
      Parity(a % 2, b % 2, c % 2);
      SameParts(Xor(Xor(a, b), c), Xor(a, Xor(b, c)));
    }
  }

  lemma {:induction false} XorZero(a: nat)
    ensures Xor(a, 0) == a && Xor(a, a) == 0
  {
    if a > 0 {
      XorZero(a / 2);
    }
  }

  lemma XorCancels(a: nat, b: nat)
    ensures Xor(Xor(a, b), b) == a
  {
    XorAssociates(a, b, b);
    XorZero(a);
    XorZero(b);
  }

  lemma XorBoth(a: nat, b: nat, p: nat)
    ensures Xor(Xor(a, p), Xor(b, p)) == Xor(a, b)
  {
    XorAssociates(a, p, Xor(b, p));
    XorCommutes(p, Xor(b, p));
    XorCancels(b, p);
  }

  lemma {:induction false} XorBound(a: nat, b: nat, n: nat)
    requires a < Pow2(n) && b < Pow2(n)
    ensures Xor(a, b) < Pow2(n)
    decreases n
  {
    if n > 0 {
      XorBound(a / 2, b / 2, n - 1);
    }
  }

  function Pow2(n: nat): nat { if n == 0 then 1 else 2 * Pow2(n - 1) }

  lemma Pow2Widths()
    ensures Pow2(8) == 256 && Pow2(31) == 0x8000_0000 && Pow2(32) == TWO32
  {
    assert Pow2(12) == 0x1000;
    assert Pow2(16) == 0x1_0000;
    assert Pow2(20) == 0x10_0000;
    assert Pow2(24) == 0x100_0000;
    assert Pow2(28) == 0x1000_0000;
  }

  function Xor32(a: u32, b: u32): (c: u32)
    ensures c == Xor(a, b)
  {
    Pow2Widths();
    XorBound(a, b, 32);
    Xor(a, b)
  }

  /** One reflected division step. */
  function Bit(c: u32): u32 {
    if c % 2 == 1 then Xor32(c / 2, POLY) else c / 2
  }

  function Bits(c: u32, n: nat): u32
    decreases n
  {
    if n == 0 then c else Bits(Bit(c), n - 1)
  }

  /** The reference update: exclusive-or the byte in, then eight division steps. */
  function Update(c: u32, b: byte): u32 { Bits(Xor32(c, b), 8) }

  function Fold(c: u32, s: seq<byte>): u32
    decreases |s|
  {
    if s == [] then c else Fold(Update(c, s[0]), s[1..])
  }

  /** The checksum by definition: initial value and final exclusive or are all ones. */
  function Crc32c(s: seq<byte>): u32 { Xor32(Fold(MAX32, s), MAX32) }

  // The table-driven loop

  method TableEntry(i: byte) returns (c: u32)
    ensures c == Bits(i, 8)
  {
    hide Xor, Xor32;
    c := i;
    for k := 0 to 8
      invariant Bits(c, 8 - k) == Bits(i, 8)
    {
      c := if c % 2 == 1 then Xor32(c / 2, POLY) else c / 2;
    }
  }

  method MakeCrcTable() returns (t: array<u32>)
    ensures fresh(t) && t.Length == 256
    ensures forall i | 0 <= i < 256 :: t[i] == Bits(i, 8)
  {
    hide Bits;
    t := new u32[256];
    for i := 0 to 256
      invariant forall j | 0 <= j < i :: t[j] == Bits(j, 8)
    {
      t[i] := TableEntry(i);
    }
  }

  method TableCrc32c(t: array<u32>, data: seq<byte>) returns (crc: u32)
    requires t.Length == 256 && forall i | 0 <= i < 256 :: t[i] == Bits(i, 8)
    ensures crc == Crc32c(data)
  {
    var c := MAX32;
    for i := 0 to |data|
      invariant Fold(c, data[i..]) == Fold(MAX32, data)
    {
      TableStep(c, data[i]);
      assert data[i..][1..] == data[i + 1..];
      c := Xor32(t[Xor32(c, data[i]) % 256], c / 256);
    }
    crc := Xor32(c, MAX32);
  }

  lemma {:induction false} BitsLinear(a: u32, b: u32, n: nat)
    ensures Bits(Xor32(a, b), n) == Xor(Bits(a, n), Bits(b, n))
    decreases n
  {
    hide Xor;
    if n > 0 {
      BitLinear(a, b);
      BitsLinear(Bit(a), Bit(b), n - 1);
    }
  }

  lemma BitLinear(a: u32, b: u32)
    ensures Bit(Xor32(a, b)) == Xor(Bit(a), Bit(b))
  {
    hide Xor;
    var x, y := a / 2, b / 2;
    XorParts(a, b);
    if b % 2 == 1 {
      if a % 2 == 1 {
        assert Xor(Xor(x, POLY), Xor(y, POLY)) == Xor(x, y) by { XorBoth(x, y, POLY); }
      } else {
        XorAssociates(x, y, POLY);
      }
    } else if a % 2 == 1 {
      assert Xor(Xor(x, POLY), y) == Xor(Xor(x, y), POLY) by {
        XorAssociates(x, POLY, y);
        XorCommutes(POLY, y);
        XorAssociates(x, y, POLY);
      }
    }
  }

  lemma Doubled(c: nat, p: nat)
    ensures c * (2 * p) == 2 * (c * p)
  {}

  lemma BitOfEven(y: nat)
    requires 2 * y <= MAX32
    ensures Bit(2 * y) == y
  {
    hide Xor, Xor32;
  }

  /** Low zero bits are only shifted out. */
  lemma {:induction false} ZeroBitsShift(c: nat, n: nat)
    requires c * Pow2(n) <= MAX32
    ensures Bits(c * Pow2(n), n) == c
    decreases n
  {
    hide Xor, Xor32, Bit;
    if n > 0 {
      Doubled(c, Pow2(n - 1));
      BitOfEven(c * Pow2(n - 1));
      ZeroBitsShift(c, n - 1);
    }
  }

  lemma XorDoubled(low: nat, y: nat)
    requires Xor(low / 2, y) == low / 2 + y
    ensures Xor(low, 2 * y) == low + 2 * y
  {
    hide Xor;
    XorParts(low, 2 * y);
    SameParts(Xor(low, 2 * y), low + 2 * y);
  }

  /** Numbers with no common bit position add. */
  lemma {:induction false} XorDisjoint(low: nat, high: nat, n: nat)
    requires low < Pow2(n)
    ensures Xor(low, high * Pow2(n)) == low + high * Pow2(n)
    decreases n
  {
    hide Xor;
    if n == 0 {
      XorZero(high);
      XorCommutes(0, high);
    } else {
      Doubled(high, Pow2(n - 1));
      XorDisjoint(low / 2, high, n - 1);
      XorDoubled(low, high * Pow2(n - 1));
    }
  }

  /** The low byte only touches the low byte. */
  lemma XorByte(c: u32, b: byte)
    ensures Xor(c, b) / 256 == c / 256
  {
    hide Xor;
    var low, high := c % 256, c / 256;
    Pow2Widths();
    XorDisjoint(low, high, 8);
    XorCommutes(low, high * 256);
    XorAssociates(high * 256, low, b);
    XorBound(low, b, 8);
    XorDisjoint(Xor(low, b), high, 8);
    XorCommutes(Xor(low, b), high * 256);
  }

  /** The table step of the loop is the eight-step update. */
  lemma TableStep(c: u32, b: byte)
    ensures Xor(Bits(Xor(c, b) % 256, 8), c / 256) == Update(c, b)
  {
    hide Xor;
    var x := Xor32(c, b);
    var low: u32, high: u32 := x % 256, x / 256 * 256;
    Pow2Widths();
    XorDisjoint(low, x / 256, 8);
    assert x == Xor32(low, high);
    BitsLinear(low, high, 8);
    ZeroBitsShift(x / 256, 8);
    XorByte(c, b);
  }

  // Injectivity, and what it says about corruption

  /** The polynomial's top bit marks whether a one was shifted out, so a step can be undone. */
  lemma BitInjective(a: u32, b: u32)
    requires Bit(a) == Bit(b)
    ensures a == b
  {
    TopBit(a / 2);
    TopBit(b / 2);
    XorCancels(a / 2, POLY);
    XorCancels(b / 2, POLY);
  }

  lemma TopBit(h: nat)
    requires h < 0x8000_0000
    ensures Xor(h, POLY) >= 0x8000_0000
  {
    var rest := POLY - 0x8000_0000;
    Pow2Widths();
    XorDisjoint(rest, 1, 31);
    XorAssociates(h, rest, 0x8000_0000);
    XorBound(h, rest, 31);
    XorDisjoint(Xor(h, rest), 1, 31);
  }

  lemma {:induction false} BitsInjective(a: u32, b: u32, n: nat)
    requires Bits(a, n) == Bits(b, n)
    ensures a == b
    decreases n
  {
    if n > 0 {
      BitsInjective(Bit(a), Bit(b), n - 1);
      BitInjective(a, b);
    }
  }

  lemma UpdateInjective(c: u32, d: u32, a: byte, b: byte)
    requires Update(c, a) == Update(d, b)
    ensures a == b <==> c == d
  {
    BitsInjective(Xor32(c, a), Xor32(d, b), 8);
    XorCancels(c, a);
    XorCancels(d, b);
    XorCommutes(c, a);
    XorCommutes(d, b);
    XorCancels(a, c);
    XorCancels(b, d);
  }

  lemma {:induction false} FoldInjective(c: u32, d: u32, s: seq<byte>)
    requires Fold(c, s) == Fold(d, s)
    ensures c == d
    decreases |s|
  {
    if s != [] {
      FoldInjective(Update(c, s[0]), Update(d, s[0]), s[1..]);
      UpdateInjective(c, d, s[0], s[0]);
    }
  }

  lemma {:induction false} FoldAppend(c: u32, s: seq<byte>, t: seq<byte>)
    ensures Fold(c, s + t) == Fold(Fold(c, s), t)
    decreases |s|
  {
    if s == [] {
      assert s + t == t;
    } else {
      assert (s + t)[1..] == s[1..] + t;
      FoldAppend(Update(c, s[0]), s[1..], t);
    }
  }

  /** Changing one byte, and no other, always changes the checksum. */
  lemma OneByteChange(s: seq<byte>, i: nat, b: byte)
    requires i < |s| && s[i] != b
    ensures Crc32c(s) != Crc32c(s[i := b])
  {
    var pre, post := s[..i], s[i + 1..];
    var c := Fold(MAX32, pre);
    assert s == pre + ([s[i]] + post) && s[i := b] == pre + ([b] + post);
    FoldAppend(MAX32, pre, [s[i]] + post);
    FoldAppend(MAX32, pre, [b] + post);
    assert ([s[i]] + post)[1..] == post && ([b] + post)[1..] == post;
    XorCancels(Fold(MAX32, s), MAX32);
    XorCancels(Fold(MAX32, s[i := b]), MAX32);
    if Crc32c(s) == Crc32c(s[i := b]) {
      FoldInjective(Update(c, s[i]), Update(c, b), post);
      UpdateInjective(c, c, s[i], b);
    }
  }

  // A known checksum

  lemma {:induction false} XorOnes(x: nat, n: nat)
    requires x < Pow2(n)
    ensures Xor(x, Pow2(n) - 1) == Pow2(n) - 1 - x
    decreases n
  {
    hide Xor;
    if n == 0 {
      XorZero(0);
    } else {
      XorOnes(x / 2, n - 1);
      XorParts(x, Pow2(n) - 1);
      SameParts(Xor(x, Pow2(n) - 1), Pow2(n) - 1 - x);
    }
  }

  /** A byte of ones clears the ones it meets. */
  lemma OnesClear(h: nat)
    requires 256 * h + 255 <= MAX32
    ensures Update(256 * h + 255, 255) == h
  {
    hide Xor;
    Pow2Widths();
    XorDisjoint(255, h, 8);
    XorCommutes(255, h * 256);
    XorCancels(h * 256, 255);
    ZeroBitsShift(h, 8);
  }

  lemma {:induction false} BitsThen(c: u32, m: nat, n: nat)
    ensures Bits(c, m + n) == Bits(Bits(c, m), n)
    decreases m
  {
    hide Bit;
    if m > 0 {
      BitsThen(Bit(c), m - 1, n);
    }
  }

  /** The single one of 0x80 comes out with the eighth step, and leaves the polynomial. */
  lemma LastBit()
    ensures Update(0, 0x80) == POLY
  {
    hide Xor;
    XorCommutes(0, 0x80);
    XorZero(0x80);
    assert Pow2(7) == 0x80;
    ZeroBitsShift(1, 7);
    BitsThen(0x80, 7, 1);
    XorCommutes(0, POLY);
    XorZero(POLY);
    assert Bits(1, 1) == Bits(Bit(1), 0) == POLY;
  }

  lemma FoldFour(c: u32)
    requires c == MAX32
    ensures Fold(c, [255, 255, 255, 255]) == 0
  {
    hide Update;
    OnesClear(0xff_ffff);
    OnesClear(0xffff);
    OnesClear(0xff);
    OnesClear(0);
    var s := [255, 255, 255, 255];
    assert s[1..] == [255, 255, 255] && [255, 255, 255][1..] == [255, 255] && [255, 255][1..] == [255];
  }

  /** Four bytes of ones have the checksum 0xffff_ffff; with 0x80 behind them it is 0x7d09_c487. */
  lemma KnownChecksums()
    ensures Crc32c([0xff, 0xff, 0xff, 0xff]) == 0xffff_ffff
    ensures Crc32c([0xff, 0xff, 0xff, 0xff, 0x80]) == 0x7d09_c487
  {
    hide Xor, Update;
    FoldFour(MAX32);
    XorCommutes(0, MAX32);
    XorZero(MAX32);
    var s := [255, 255, 255, 255];
    assert s + [0x80] == [0xff, 0xff, 0xff, 0xff, 0x80];
    FoldAppend(MAX32, s, [0x80]);
    LastBit();
    assert Fold(0, [0x80]) == Fold(Update(0, 0x80), []);
    Pow2Widths();
    XorOnes(POLY, 32);
  }
}
