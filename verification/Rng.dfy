/** SplitMix64 and the named streams. Words are integers; masking to 64 bits is `% TWO64`. */
module Rng {
  import opened Basics
  import opened Crc

  const GOLDEN: u64 := 0x9E37_79B9_7F4A_7C15
  const GOLDEN_INVERSE: u64 := 0xF1DE_83E1_9937_733D
  const MIX1: u64 := 0xBF58_476D_1CE4_E5B9
  const MIX1_INVERSE: u64 := 0x96DE_1B17_3F11_9089
  const MIX2: u64 := 0x94D0_49BB_1331_11EB
  const MIX2_INVERSE: u64 := 0x3196_42B2_D24D_8EC3

  const STREAMS := ["link.loss.up", "link.loss.down", "sensor.noise", "actuator.fault",
                    "environment.disturbance", "parameter.sampling", "scenario"]

  function Xor64(a: u64, b: u64): (c: u64)
    ensures c == Xor(a, b)
  {
    Pow2Is64();
    XorBound(a, b, 64);
    Xor(a, b)
  }

  lemma Pow2Is64()
    ensures Pow2(64) == TWO64
  {
    Pow2Widths();
    assert Pow2(36) == 0x10_0000_0000;
    assert Pow2(40) == 0x100_0000_0000;
    assert Pow2(44) == 0x1000_0000_0000;
    assert Pow2(48) == 0x1_0000_0000_0000;
    assert Pow2(52) == 0x10_0000_0000_0000;
    assert Pow2(56) == 0x100_0000_0000_0000;
    assert Pow2(60) == 0x1000_0000_0000_0000;
  }

  /** `x >> n` */
  function Shr(x: nat, n: nat): (y: nat)
    ensures y <= x
    decreases n
  {
    if n == 0 then x else Shr(x / 2, n - 1)
  }

  /** `x ^ (x >> k)` */
  function ShiftXor(x: u64, k: nat): u64 { Xor64(x, Shr(x, k)) }

  function Mul(a: u64, b: u64): u64 { a * b % TWO64 }

  function Mix(value: u64): u64 {
    var a := Mul(ShiftXor(value, 30), MIX1);
    var b := Mul(ShiftXor(a, 27), MIX2);
    ShiftXor(b, 31)
  }

  /** `y ^ (y >> k) ^ (y >> 2k)`, which undoes a shift-xor whose three shifts clear the word. */
  function UnshiftXor(y: u64, k: nat): u64 { Xor64(y, Xor64(Shr(y, k), Shr(y, 2 * k))) }

  function Unmix(value: u64): u64 {
    var b := UnshiftXor(value, 31);
    var a := UnshiftXor(Mul(b, MIX2_INVERSE), 27);
    UnshiftXor(Mul(a, MIX1_INVERSE), 30)
  }

  lemma {:induction false} XorShift(a: nat, b: nat, n: nat)
    ensures Shr(Xor(a, b), n) == Xor(Shr(a, n), Shr(b, n))
    decreases n
  {
    hide Xor;
    if n > 0 {
      XorParts(a, b);
      XorShift(a / 2, b / 2, n - 1);
    }
  }

  lemma {:induction false} ShiftTwice(x: nat, k: nat, m: nat)
    ensures Shr(Shr(x, k), m) == Shr(x, k + m)
    decreases k
  {
    if k > 0 {
      ShiftTwice(x / 2, k - 1, m);
    }
  }

  lemma {:induction false} ShiftedOut(x: nat, n: nat)
    requires x < Pow2(n)
    ensures Shr(x, n) == 0
    decreases n
  {
    if n > 0 {
      ShiftedOut(x / 2, n - 1);
    }
  }

  lemma UnshiftInverts(x: u64, k: nat)
    requires 22 <= k
    ensures UnshiftXor(ShiftXor(x, k), k) == x
  {
    hide Xor, Shr;
    var x1, x2 := Shr(x, k), Shr(x, 2 * k);
    XorShift(x, x1, k);
    ShiftTwice(x, k, k);
    XorShift(x, x1, 2 * k);
    ShiftTwice(x, k, 2 * k);
    Pow2Is64();
    ShiftedOut(x, 64);
    ShiftTwice(x, 64, 3 * k - 64);
    ShiftZero(3 * k - 64);
    XorZero(x2);
    XorCancels(x1, x2);
    XorCancels(x, x1);
  }

  lemma ShiftInverts(y: u64, k: nat)
    requires 22 <= k
    ensures ShiftXor(UnshiftXor(y, k), k) == y
  {
    hide Xor, Shr;
    var y1, y2 := Shr(y, k), Shr(y, 2 * k);
    XorShift(y, Xor64(y1, y2), k);
    XorShift(y1, y2, k);
    ShiftTwice(y, k, k);
    ShiftTwice(y, 2 * k, k);
    Pow2Is64();
    ShiftedOut(y, 64);
    ShiftTwice(y, 64, 3 * k - 64);
    ShiftZero(3 * k - 64);
    XorZero(y2);
    XorCancels(y, Xor(y1, y2));
  }

  lemma ShiftZero(n: nat)
    ensures Shr(0, n) == 0
  {}

  lemma MulInverts(x: u64, m: u64, inverse: u64)
    requires m * inverse % TWO64 == 1
    ensures Mul(Mul(x, m), inverse) == x
  {
    var p := x * m;
    var q := p / TWO64;
    assert Mul(x, m) == p - TWO64 * q;
    var r := m * inverse / TWO64;
    assert m * inverse == TWO64 * r + 1;
    assert p * inverse == x * (m * inverse) by { assert (x * m) * inverse == x * (m * inverse); }
    assert x * (TWO64 * r + 1) == TWO64 * (x * r) + x;
    assert (p - TWO64 * q) * inverse == p * inverse - TWO64 * (q * inverse);
    assert Mul(x, m) * inverse == TWO64 * (x * r - q * inverse) + x;
    ModIs(Mul(x, m) * inverse, x * r - q * inverse, x);
  }

  lemma ModIs(a: int, k: int, x: u64)
    requires a == TWO64 * k + x
    ensures a % TWO64 == x
  {}

  /** The mixer is a bijection: this is its inverse. */
  lemma UnmixInvertsMix(v: u64)
    ensures Unmix(Mix(v)) == v
  {
    hide ShiftXor, UnshiftXor, Mul;
    var a := Mul(ShiftXor(v, 30), MIX1);
    var b := Mul(ShiftXor(a, 27), MIX2);
    Inverses();
    UnshiftInverts(b, 31);
    MulInverts(ShiftXor(a, 27), MIX2, MIX2_INVERSE);
    UnshiftInverts(a, 27);
    MulInverts(ShiftXor(v, 30), MIX1, MIX1_INVERSE);
    UnshiftInverts(v, 30);
  }

  lemma MixInvertsUnmix(v: u64)
    ensures Mix(Unmix(v)) == v
  {
    hide ShiftXor, UnshiftXor, Mul;
    var b := UnshiftXor(v, 31);
    var a := UnshiftXor(Mul(b, MIX2_INVERSE), 27);
    Inverses();
    ShiftInverts(Mul(a, MIX1_INVERSE), 30);
    MulInverts(a, MIX1_INVERSE, MIX1);
    ShiftInverts(Mul(b, MIX2_INVERSE), 27);
    MulInverts(b, MIX2_INVERSE, MIX2);
    ShiftInverts(v, 31);
  }

  lemma Inverses()
    ensures MIX1 * MIX1_INVERSE % TWO64 == 1 && MIX2 * MIX2_INVERSE % TWO64 == 1
    ensures GOLDEN * GOLDEN_INVERSE % TWO64 == 1
  {}

  lemma MixInjective(a: u64, b: u64)
    requires Mix(a) == Mix(b)
    ensures a == b
  {
    UnmixInvertsMix(a);
    UnmixInvertsMix(b);
  }

  // Streams

  function StreamState(master: u64, index: nat): u64 { Mix((master + (index + 1) * GOLDEN) % TWO64) }

  class SplitMix64 {
    var state: u64

    constructor (start: u64)
      ensures state == start
    {
      state := start;
    }

    method NextU64() returns (value: u64)
      modifies this
      ensures state == NextState(old(state)) && value == Mix(state)
    {
      state := (state + GOLDEN) % TWO64;
      value := Mix(state);
    }
  }

  function NextState(state: u64): u64 { (state + GOLDEN) % TWO64 }

  /** The state after `n` draws. */
  function StateAfter(start: u64, n: nat): u64 {
    if n == 0 then start else NextState(StateAfter(start, n - 1))
  }

  lemma {:induction false} StateIsLinear(start: u64, n: nat)
    ensures StateAfter(start, n) == (start + n * GOLDEN) % TWO64
  {
    if n > 0 {
      StateIsLinear(start, n - 1);
      AddThenReduce(start + (n - 1) * GOLDEN, GOLDEN);
    }
  }

  lemma AddThenReduce(a: nat, b: nat)
    ensures (a % TWO64 + b) % TWO64 == (a + b) % TWO64
  {}

  /** Fewer than 2^64 steps never come back to the same state. */
  lemma StepsApart(start: u64, m: nat, n: nat)
    requires m < n < m + TWO64
    ensures (start + m * GOLDEN) % TWO64 != (start + n * GOLDEN) % TWO64
  {
    hide Mul;
    if (start + m * GOLDEN) % TWO64 == (start + n * GOLDEN) % TWO64 {
      SameResidue(start + m * GOLDEN, start + n * GOLDEN);
      MultipleApart(start, m, n);
      StepsInvert(n - m);
    }
  }

  lemma MultipleApart(start: nat, m: nat, n: nat)
    requires m <= n
    ensures (start + n * GOLDEN) - (start + m * GOLDEN) == (n - m) * GOLDEN
  {}

  lemma StepsInvert(d: u64)
    requires d > 0
    ensures d * GOLDEN % TWO64 != 0
  {
    Inverses();
    MulInverts(d, GOLDEN, GOLDEN_INVERSE);
  }

  function Draw(start: u64, n: nat): u64 { Mix(StateAfter(start, n + 1)) }

  /** A stream does not repeat a value within 2^64 draws. */
  lemma DrawsDistinct(start: u64, i: nat, j: nat)
    requires i < j < TWO64
    ensures Draw(start, i) != Draw(start, j)
  {
    hide Mix;
    if Draw(start, i) == Draw(start, j) {
      MixInjective(StateAfter(start, i + 1), StateAfter(start, j + 1));
      StateIsLinear(start, i + 1);
      StateIsLinear(start, j + 1);
      StepsApart(start, i + 1, j + 1);
    }
  }

  lemma SameResidue(a: nat, b: nat)
    requires a % TWO64 == b % TWO64
    ensures (b - a) % TWO64 == 0
  {}

  /** Whatever the seed, the named streams start in different states. */
  lemma StreamsDistinct(master: u64, i: nat, j: nat)
    requires i < j < |STREAMS|
    ensures StreamState(master, i) != StreamState(master, j)
  {
    hide Mix;
    if StreamState(master, i) == StreamState(master, j) {
      MixInjective((master + (i + 1) * GOLDEN) % TWO64, (master + (j + 1) * GOLDEN) % TWO64);
      StepsApart(master, i + 1, j + 1);
    }
  }

  /** `next_double() < p`: the draw of a loss decision and the state it leaves. */
  function DrawDrop(state: u64, p: real): (bool, u64) {
    var s := NextState(state);
    (Shr(Mix(s), 11) as real / 9007199254740992.0 < p, s)
  }

  // Loss decisions, and a known draw

  lemma ShiftThree(x: nat)
    ensures Shr(x, 3) == x / 8
  {
    assert Shr(x, 3) == Shr(x / 2, 2) == Shr(x / 2 / 2, 1) == Shr(x / 2 / 2 / 2, 0);
  }

  lemma ShiftNine(x: nat)
    ensures Shr(x, 9) == x / 512
  {
    hide Shr;
    ShiftTwice(x, 3, 6);
    ShiftTwice(x / 8, 3, 3);
    ShiftThree(x);
    ShiftThree(x / 8);
    ShiftThree(x / 64);
  }

  lemma FarShifts(x: nat)
    ensures Shr(x, 27) == x / 0x800_0000 && Shr(x, 30) == x / 0x4000_0000 && Shr(x, 31) == x / 0x8000_0000
  {
    hide Shr;
    ShiftTwice(x, 9, 18);
    ShiftTwice(x / 512, 9, 9);
    ShiftNine(x);
    ShiftNine(x / 512);
    ShiftNine(x / 0x4_0000);
    ShiftTwice(x, 27, 3);
    ShiftThree(x / 0x800_0000);
    ShiftTwice(x, 30, 1);
    ShiftOne(x / 0x4000_0000);
  }

  lemma ShiftOne(x: nat)
    ensures Shr(x, 1) == x / 2
  {
    assert Shr(x, 1) == Shr(x / 2, 0);
  }

  lemma DrawFits(v: u64)
    ensures Shr(v, 11) < 9007199254740992
  {
    ShiftTwice(v, 9, 2);
    ShiftNine(v);
    assert Shr(v / 512, 2) == Shr(v / 1024, 1) == Shr(v / 2048, 0);
  }

  /** Probability zero never drops, one always does, and a higher one drops whatever a lower one does. */
  lemma DropChances(state: u64, p: real, q: real)
    requires p <= q
    ensures !DrawDrop(state, 0.0).0 && DrawDrop(state, 1.0).0
    ensures DrawDrop(state, p).0 ==> DrawDrop(state, q).0
  {
    hide Mix, Shr;
    DrawFits(Mix(NextState(state)));
  }

  lemma BitNext(a: nat, b: nat, p: nat, q: nat)
    requires p < 2 && q < 2
    ensures Xor(2 * a + p, 2 * b + q) == 2 * Xor(a, b) + (p + q) % 2
  {
    hide Xor;
    XorParts(2 * a + p, 2 * b + q);
    SameParts(Xor(2 * a + p, 2 * b + q), 2 * Xor(a, b) + (p + q) % 2);
  }

  lemma BitsNext(a: nat, b: nat, p: nat, q: nat, r: nat, s: nat, t: nat, u: nat, v: nat, w: nat)
    requires p < 2 && q < 2 && r < 2 && s < 2 && t < 2 && u < 2 && v < 2 && w < 2
    ensures Xor(16 * a + 8 * p + 4 * q + 2 * r + s, 16 * b + 8 * t + 4 * u + 2 * v + w)
         == 16 * Xor(a, b) + 8 * ((p + t) % 2) + 4 * ((q + u) % 2) + 2 * ((r + v) % 2) + (s + w) % 2
  {
    hide Xor;
    BitNext(a, b, p, t);
    BitNext(2 * a + p, 2 * b + t, q, u);
    BitNext(4 * a + 2 * p + q, 4 * b + 2 * t + u, r, v);
    BitNext(8 * a + 4 * p + 2 * q + r, 8 * b + 4 * t + 2 * u + v, s, w);
  }

  lemma DigitBits(x: nat)
    requires x < 16
    ensures x / 8 < 2 && x / 8 % 2 == x / 8 && x == 8 * (x / 8) + 4 * (x / 4 % 2) + 2 * (x / 2 % 2) + x % 2
  {}

  /** One more digit. */
  lemma HexNext(a: nat, b: nat, c: nat, x: nat, y: nat, z: nat)
    requires Xor(a, b) == c && x < 16 && y < 16
    requires z == 8 * ((x / 8 + y / 8) % 2) + 4 * ((x / 4 % 2 + y / 4 % 2) % 2) + 2 * ((x / 2 % 2 + y / 2 % 2) % 2)
                  + (x % 2 + y % 2) % 2
    ensures Xor(16 * a + x, 16 * b + y) == 16 * c + z
  {
    hide Xor;
    DigitBits(x);
    DigitBits(y);
    BitsNext(a, b, x / 8, x / 4 % 2, x / 2 % 2, x % 2, y / 8, y / 4 % 2, y / 2 % 2, y % 2);
  }

  lemma FirstDigits()
    ensures Xor(0x9e3779b97f4a7c15, 0x278dde6e5) == 0x9e3779bb07979af0
  {
    hide Xor;
    XorZero(0x9e3779b);
    HexNext(0x9e3779b, 0x0, 0x9e3779b, 0x9, 0x2, 0xb); HexNext(0x9e3779b9, 0x2, 0x9e3779bb, 0x7, 0x7, 0x0);
    HexNext(0x9e3779b97, 0x27, 0x9e3779bb0, 0xf, 0x8, 0x7); HexNext(0x9e3779b97f, 0x278, 0x9e3779bb07, 0x4, 0xd, 0x9);
    HexNext(0x9e3779b97f4, 0x278d, 0x9e3779bb079, 0xa, 0xd, 0x7);
    HexNext(0x9e3779b97f4a, 0x278dd, 0x9e3779bb0797, 0x7, 0xe, 0x9);
    HexNext(0x9e3779b97f4a7, 0x278dde, 0x9e3779bb07979, 0xc, 0x6, 0xa);
    HexNext(0x9e3779b97f4a7c, 0x278dde6, 0x9e3779bb07979a, 0x1, 0xe, 0xf);
    HexNext(0x9e3779b97f4a7c1, 0x278dde6e, 0x9e3779bb07979af, 0x5, 0x5, 0x0);
  }

  lemma SecondDigits()
    ensures Xor(0x6f68261b57e7a770, 0xded04c36a) == 0x6f682616bae3641a
  {
    hide Xor;
    XorZero(0x6f68261);
    HexNext(0x6f68261, 0x0, 0x6f68261, 0xb, 0xd, 0x6); HexNext(0x6f68261b, 0xd, 0x6f682616, 0x5, 0xe, 0xb);
    HexNext(0x6f68261b5, 0xde, 0x6f682616b, 0x7, 0xd, 0xa); HexNext(0x6f68261b57, 0xded, 0x6f682616ba, 0xe, 0x0, 0xe);
    HexNext(0x6f68261b57e, 0xded0, 0x6f682616bae, 0x7, 0x4, 0x3);
    HexNext(0x6f68261b57e7, 0xded04, 0x6f682616bae3, 0xa, 0xc, 0x6);
    HexNext(0x6f68261b57e7a, 0xded04c, 0x6f682616bae36, 0x7, 0x3, 0x4);
    HexNext(0x6f68261b57e7a7, 0xded04c3, 0x6f682616bae364, 0x7, 0x6, 0x1);
    HexNext(0x6f68261b57e7a77, 0xded04c36, 0x6f682616bae3641, 0x0, 0xa, 0xa);
  }

  lemma ThirdDigits()
    ensures Xor(0xe220a838bf5c9dde, 0x1c4415071) == 0xe220a8397b1dcdaf
  {
    hide Xor;
    XorZero(0xe220a83);
    HexNext(0xe220a83, 0x0, 0xe220a83, 0x8, 0x1, 0x9); HexNext(0xe220a838, 0x1, 0xe220a839, 0xb, 0xc, 0x7);
    HexNext(0xe220a838b, 0x1c, 0xe220a8397, 0xf, 0x4, 0xb); HexNext(0xe220a838bf, 0x1c4, 0xe220a8397b, 0x5, 0x4, 0x1);
    HexNext(0xe220a838bf5, 0x1c44, 0xe220a8397b1, 0xc, 0x1, 0xd);
    HexNext(0xe220a838bf5c, 0x1c441, 0xe220a8397b1d, 0x9, 0x5, 0xc);
    HexNext(0xe220a838bf5c9, 0x1c4415, 0xe220a8397b1dc, 0xd, 0x0, 0xd);
    HexNext(0xe220a838bf5c9d, 0x1c44150, 0xe220a8397b1dcd, 0xd, 0x7, 0xa);
    HexNext(0xe220a838bf5c9dd, 0x1c441507, 0xe220a8397b1dcda, 0xe, 0x1, 0xf);
  }

  lemma Shifted()
    ensures ShiftXor(0x9e3779b97f4a7c15, 30) == 0x9e3779bb07979af0
    ensures ShiftXor(0x6f68261b57e7a770, 27) == 0x6f682616bae3641a
    ensures ShiftXor(0xe220a838bf5c9dde, 31) == 0xe220a8397b1dcdaf
  {
    hide Xor, Shr;
    FarShifts(0x9e3779b97f4a7c15);
    FirstDigits();
    FarShifts(0x6f68261b57e7a770);
    SecondDigits();
    FarShifts(0xe220a838bf5c9dde);
    ThirdDigits();
  }

  lemma Products()
    ensures Mul(0x9e3779bb07979af0, MIX1) == 0x6f68261b57e7a770
    ensures Mul(0x6f682616bae3641a, MIX2) == 0xe220a838bf5c9dde
  {}

  /** The first draw from state zero, and the first stream's start under seed zero. */
  lemma KnownDraw()
    ensures Draw(0, 0) == StreamState(0, 0) == 0xe220a8397b1dcdaf
  {
    hide ShiftXor, Mul;
    Shifted();
    Products();
    assert Mix(GOLDEN) == 0xe220a8397b1dcdaf;
    assert StateAfter(0, 1) == NextState(StateAfter(0, 0)) == GOLDEN;
  }
}
