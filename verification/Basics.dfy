/** Types and machine constants shared by every component. */
module Basics {

  type u8 = x: int | 0 <= x < 0x100
  type u16 = x: int | 0 <= x < 0x1_0000
  type u32 = x: int | 0 <= x < 0x1_0000_0000
  type u64 = x: int | 0 <= x < 0x1_0000_0000_0000_0000

  const U32_MODULUS: nat := 0x1_0000_0000
  const U32_MAX: nat := 0xFFFF_FFFF
  const U64_MODULUS: nat := 0x1_0000_0000_0000_0000
  const U64_MAX: nat := 0xFFFF_FFFF_FFFF_FFFF

  /** The largest block either Virtual ASIO bus accepts. */
  const MAX_FRAMES_PER_BLOCK: nat := 8192

  /** A 32-bit float, as its bit pattern, is finite when its exponent field is not all ones
      (section 3.4 of IEEE 754-2019). */
  predicate Finite32(bits: u32) {
    (bits / 0x80_0000) % 0x100 != 0xFF
  }

  function PowerOfTwo(n: nat): (p: real)
    ensures p > 0.0
  {
    if n == 0 then 1.0 else 2.0 * PowerOfTwo(n - 1)
  }

  /** The number a finite pattern stands for: sign, then exponent, then fraction. */
  function RealOf(bits: u32): real {
    var exponent := (bits / 0x80_0000) % 0x100;
    var fraction := bits % 0x80_0000;
    var significand := if exponent == 0 then fraction else 0x80_0000 + fraction;
    var scale := if exponent == 0 then 1 else exponent;
    var magnitude := (significand as real) * PowerOfTwo(scale) / (2.0 * PowerOfTwo(149));
    if bits >= 0x8000_0000 then -magnitude else magnitude
  }

  /** A C++ byte string. */
  type Text = seq<u8>

  /** The life cycle of a bus slot. */
  datatype Status = Idle | Claiming | Active

  /** The bytes of a string literal of plain characters. */
  function Ascii(s: string): (t: Text)
    ensures |t| == |s| && forall k :: 0 <= k < |s| ==> t[k] == s[k] as int % 0x100
  {
    seq(|s|, k requires 0 <= k < |s| => s[k] as int % 0x100)
  }

  function Zeros(n: nat): (z: seq<u8>)
    ensures |z| == n && forall k :: 0 <= k < n ==> z[k] == 0
  {
    seq(n, _ => 0)
  }

  datatype Option<+T> = None | Some(value: T)

  function Min(a: int, b: int): int {
    if a <= b then a else b
  }

  function Max(a: int, b: int): int {
    if a <= b then b else a
  }

  lemma DivModUnique(x: int, q: int, r: int, d: nat)
    requires d > 0 && x == q * d + r && 0 <= r < d
    ensures x / d == q && x % d == r
  {
    var e := x / d - q;
    assert r - x % d == e * d;
    assert e >= 1 ==> e * d >= d;
    assert e <= -1 ==> e * d + d <= 0;
  }

  lemma SubsetSize<T>(small: set<T>, large: set<T>)
    requires small <= large
    ensures |small| <= |large|
  {
    assert large == small + (large - small);
  }
}
