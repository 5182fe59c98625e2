/**
 * Java's 32-bit `int` and the float-to-int cast, written out over Dafny's
 * unbounded `int` and exact `real`.
 *
 * - `(int) f` truncates toward zero and saturates at the ends of the int range;
 *   a NaN casts to 0.
 * - A float division by (positive) zero yields +Infinity, -Infinity or NaN
 *   depending on the sign of the numerator.
 * - `i + 1`, `i++` and `i--` on an int wrap around modulo 2^32.
 */
module JavaNum {

  const IntMin: int := -0x8000_0000
  const IntMax: int := 0x7fff_ffff
  const TwoTo32: int := 0x1_0000_0000

  /** A value of Java's `int`. */
  type Int32 = x: int | IntMin <= x <= IntMax

  /** Rounding toward zero, the rounding of Java's float-to-int cast. */
  function Trunc(r: real): (t: int)
    ensures 0.0 <= r ==> 0 <= t && t as real <= r < t as real + 1.0
    ensures r <= 0.0 ==> t <= 0 && t as real - 1.0 < r <= t as real
  {
    if r >= 0.0 then r.Floor else -((-r).Floor)
  }

  /** `(int) f` for a finite float `f`: truncation, then saturation. */
  function FloatToInt(r: real): (n: Int32)
    ensures IntMin <= Trunc(r) <= IntMax ==> n == Trunc(r)
    ensures IntMax < Trunc(r) ==> n == IntMax
    ensures Trunc(r) < IntMin ==> n == IntMin
  {
    var t := Trunc(r);
    if t > IntMax then IntMax else if t < IntMin then IntMin else t
  }

  /**
   * `(int) (num / den)` evaluated in float arithmetic. A zero denominator makes
   * the quotient infinite (or NaN when the numerator is zero too); the cast
   * then saturates (or yields 0 for NaN).
   */
  function DivToInt(num: real, den: real): (n: Int32)
    ensures den != 0.0 ==> n == FloatToInt(num / den)
    ensures den == 0.0 && num > 0.0 ==> n == IntMax
    ensures den == 0.0 && num < 0.0 ==> n == IntMin
    ensures den == 0.0 && num == 0.0 ==> n == 0
  {
    if den != 0.0 then FloatToInt(num / den)
    else if num > 0.0 then IntMax
    else if num < 0.0 then IntMin
    else 0
  }

  /** Two's-complement wrap-around of an exact integer result into the int range. */
  function Wrap(x: int): (r: Int32)
    ensures (r - x) % TwoTo32 == 0
    ensures IntMin <= x <= IntMax ==> r == x
  {
    if IntMin <= x <= IntMax then x else (x - IntMin) % TwoTo32 + IntMin
  }

  /** Truncation is monotone. */
  lemma TruncMonotone(a: real, b: real)
    requires a <= b
    ensures Trunc(a) <= Trunc(b)
  {
  }

  /** The saturating cast is monotone. */
  lemma FloatToIntMonotone(a: real, b: real)
    requires a <= b
    ensures FloatToInt(a) <= FloatToInt(b)
  {
    TruncMonotone(a, b);
  }

  /** Stepping past either end of the int range lands on the other end. */
  lemma WrapPastTop()
    ensures Wrap(IntMax + 1) == IntMin
    ensures Wrap(IntMin - 1) == IntMax
  {
  }
}
