/** Scalars shared by both programs: machine integers, binary64 words and little-endian bytes. */
module Basics {

  datatype Option<+T> = None | Some(value: T)

  type byte = x: int | 0 <= x < 256
  type u32 = x: int | 0 <= x < 0x1_0000_0000
  type u64 = x: int | 0 <= x < 0x1_0000_0000_0000_0000

  /** A binary64 value, carried as its IEEE 754 bit pattern. */
  type word = u64

  const TWO32: int := 0x1_0000_0000
  const TWO63: int := 0x8000_0000_0000_0000
  const TWO64: int := 0x1_0000_0000_0000_0000
  const MAX32: u32 := 0xffff_ffff
  const MAX64: u64 := 0xffff_ffff_ffff_ffff

  const INFINITY: word := 0x7ff0_0000_0000_0000

  /** The bit pattern of |x|; for non-NaN values patterns are ordered like the values. */
  function Magnitude(x: word): word { x % TWO63 }

  predicate IsFinite(x: word) { Magnitude(x) < INFINITY }

  predicate IsNaN(x: word) { Magnitude(x) > INFINITY }

  /** `abs(x) <= bound` for a positive finite bound. */
  predicate AbsAtMost(x: word, bound: word) { Magnitude(x) <= bound }

  /** `abs(x) > bound` for a positive finite bound; false for NaN. */
  predicate AbsExceeds(x: word, bound: word) { !IsNaN(x) && Magnitude(x) > bound }

  predicate Negative(x: word) { x >= TWO63 }

  function Min(a: int, b: int): int { if a <= b then a else b }

  function Max(a: int, b: int): int { if a <= b then b else a }

  /** The little-endian bytes of `v`, truncated to `width` bytes. */
  function LE(width: nat, v: nat): (s: seq<byte>)
    ensures |s| == width
  {
    if width == 0 then [] else [v % 256] + LE(width - 1, v / 256)
  }

  /** The unsigned value of little-endian bytes. */
  function UnLE(s: seq<byte>): nat {
    if s == [] then 0 else s[0] + 256 * UnLE(s[1..])
  }

  function Pow256(n: nat): (p: nat)
    ensures p >= 1
  {
    if n == 0 then 1 else 256 * Pow256(n - 1)
  }

  lemma {:induction false} UnLEBound(s: seq<byte>)
    ensures UnLE(s) < Pow256(|s|)
  {
    if s != [] {
      UnLEBound(s[1..]);
    }
  }

  /** Reading back what a `put_*_le` wrote loses exactly the truncated high bytes. */
  lemma {:induction false} LERoundTrip(width: nat, v: nat)
    requires v < Pow256(width)
    ensures UnLE(LE(width, v)) == v
  {
    if width > 0 {
      LERoundTrip(width - 1, v / 256);
      assert LE(width, v)[1..] == LE(width - 1, v / 256);
    }
  }

  lemma {:induction false} UnLERoundTrip(s: seq<byte>)
    ensures LE(|s|, UnLE(s)) == s
  {
    if s != [] {
      UnLERoundTrip(s[1..]);
      assert UnLE(s) % 256 == s[0] && UnLE(s) / 256 == UnLE(s[1..]);
    }
  }

  lemma Pow256Widths()
    ensures Pow256(1) == 256
    ensures Pow256(2) == 0x1_0000
    ensures Pow256(4) == TWO32
    ensures Pow256(8) == TWO64
  {
    assert Pow256(3) == 0x100_0000;
    assert Pow256(5) == 0x100_0000_0000;
    assert Pow256(6) == 0x1_0000_0000_0000;
    assert Pow256(7) == 0x100_0000_0000_0000;
  }

  function Get16(s: seq<byte>, o: nat): (v: nat)
    requires o + 2 <= |s|
    ensures v < 0x1_0000
  {
    (s[o] as int) + 256 * (s[o + 1] as int)
  }

  function Get32(s: seq<byte>, o: nat): (v: u32)
    requires o + 4 <= |s|
  {
    (s[o] as int) + 0x100 * (s[o + 1] as int) + 0x1_0000 * (s[o + 2] as int) + 0x100_0000 * (s[o + 3] as int)
  }

  lemma Get16LE(s: seq<byte>, o: nat, v: nat)
    requires o + 2 <= |s| && v < 0x1_0000
    requires s[o..o + 2] == LE(2, v)
    ensures Get16(s, o) == v
  {
    assert LE(2, v) == [v % 256, v / 256 % 256];
    assert s[o] == s[o..o + 2][0] && s[o + 1] == s[o..o + 2][1];
  }

  lemma Get32LE(s: seq<byte>, o: nat, v: u32)
    requires o + 4 <= |s|
    requires s[o..o + 4] == LE(4, v)
    ensures Get32(s, o) == v
  {
    var t := s[o..o + 4];
    assert LE(3, v / 256) == [v / 256 % 256] + LE(2, v / 256 / 256);
    assert LE(2, v / 256 / 256) == [v / 256 / 256 % 256, v / 256 / 256 / 256 % 256];
    assert s[o] == t[0] && s[o + 1] == t[1] && s[o + 2] == t[2] && s[o + 3] == t[3];
  }
}
