/** Machine-level numeric behaviour the renderer relies on: 32-bit words,
    the float-to-int cast (truncation toward zero), and small helpers. */
module Numeric {

  /** The `int32_t` of the frame buffer's cells and colour arguments. */
  newtype Int32 = x: int | -0x8000_0000 <= x < 0x8000_0000

  const TwoTo32: int := 0x1_0000_0000

  /** Conversion of an integer constant to `int32_t` on a two's-complement
      target: the value is reduced modulo 2^32 into the signed range. */
  function WrapToInt32(n: int): (r: Int32)
    ensures (r as int - n) % TwoTo32 == 0
    ensures -0x8000_0000 <= n < 0x8000_0000 ==> r as int == n
  {
    var m := n % TwoTo32;
    if m < 0x8000_0000 then m as Int32 else (m - TwoTo32) as Int32
  }

  /** The default colour of `cleanScreen`, the ARGB word 0xFF000000 (opaque black)
      as an `int32_t`. */
  const OpaqueBlack: Int32 := WrapToInt32(0xFF00_0000)

  /** `static_cast<int32_t>` of a floating-point value: truncation toward zero. */
  function Trunc(r: real): (n: int)
    ensures 0.0 <= r ==> n as real <= r < n as real + 1.0
    ensures r < 0.0 ==> n as real - 1.0 < r <= n as real
  {
    if r >= 0.0 then r.Floor else -((-r).Floor)
  }

  /** Truncation maps a real lying between two integers to an integer between them. */
  lemma TruncBetween(lo: int, hi: int, r: real)
    requires lo as real <= r <= hi as real
    ensures lo <= Trunc(r) <= hi
  {
    if r >= 0.0 {
      assert Trunc(r) as real <= r;
      assert r < Trunc(r) as real + 1.0;
    } else {
      assert Trunc(r) as real - 1.0 < r;
      assert r <= Trunc(r) as real;
    }
  }

  /** A non-negative real below an integer bound truncates to below that bound. */
  lemma TruncBelow(r: real, hi: int)
    requires 0.0 <= r < hi as real
    ensures 0 <= Trunc(r) < hi
  {
    assert Trunc(r) as real <= r;
  }

  /** Truncation leaves an integral value unchanged. */
  lemma TruncOfInteger(k: int)
    ensures Trunc(k as real) == k
  {
    TruncBetween(k, k, k as real);
  }

  /** Truncation is monotone. */
  lemma TruncMonotone(a: real, b: real)
    requires a <= b
    ensures Trunc(a) <= Trunc(b)
  {
  }

  /** Scaling by a non-negative factor preserves order. */
  lemma MulLeq(a: real, b: real, c: real)
    requires a <= b && 0.0 <= c
    ensures a * c <= b * c
  {
  }

  /** Scaling by a positive factor preserves strict order. */
  lemma MulLess(a: real, b: real, c: real)
    requires a < b && 0.0 < c
    ensures a * c < b * c
  {
  }

  function Abs(r: real): real {
    if r < 0.0 then -r else r
  }

  function AbsInt(n: int): nat {
    if n < 0 then -n else n
  }

  function Min(a: int, b: int): int {
    if a <= b then a else b
  }

  function Max(a: int, b: int): int {
    if a <= b then b else a
  }
}
