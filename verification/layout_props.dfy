/**
 * What the line-budget estimate means: how many lines of a given height fit
 * between the margins, with the float-to-int cast's truncation toward zero,
 * its monotonicity in the page and line heights, and the wrap-around once
 * the cast saturates.
 */
module LayoutProps {
  import opened JavaNum
  import opened Optional
  import opened Attributes
  import opened Pages
  import opened Builder

  // ---------------------------------------------------------------------
  // The line-budget estimate
  // ---------------------------------------------------------------------

  lemma MulLeq(a: real, b: real, d: real)
    requires a <= b && 0.0 < d
    ensures a * d <= b * d
  {
  }

  lemma MulLess(a: real, b: real, d: real)
    requires a < b && 0.0 < d
    ensures a * d < b * d
  {
  }

  /** A quotient between `n - 1` and `n` puts the numerator between `n - 1` and `n` steps. */
  lemma Bracket(num: real, step: real, n: int)
    requires 0.0 < step
    requires (n - 1) as real <= num / step < n as real
    ensures (n - 1) as real * step <= num < n as real * step
  {
    var q := num / step;
    assert q * step == num;
    MulLeq((n - 1) as real, q, step);
    MulLess(q, n as real, step);
  }

  lemma QuotientNonNegative(num: real, step: real)
    requires 0.0 <= num && 0.0 < step
    ensures 0.0 <= num / step
  {
    var q := num / step;
    assert q * step == num;
    if q < 0.0 {
      MulLess(q, 0.0, step);
      assert false;
    }
  }

  /**
   * With a positive line step and a non-negative height, the estimate is at
   * least one, and one less than it is exactly the number of whole line steps
   * that fit in the height: the first line is free.
   */
  lemma EstimateCapacity(lineSpace: real, maxHeight: real, fontHeight: real, top: real, bottom: real)
    requires 0.0 < fontHeight + lineSpace
    requires 0.0 <= maxHeight - top - bottom
    requires (maxHeight - top - bottom) / (fontHeight + lineSpace) < IntMax as real
    ensures var n := EstimateMaxLines(lineSpace, maxHeight, fontHeight, top, bottom);
      && 1 <= n
      && (n - 1) as real * (fontHeight + lineSpace) <= maxHeight - top - bottom
      && maxHeight - top - bottom < n as real * (fontHeight + lineSpace)
  {
    var num := maxHeight - top - bottom;
    var step := fontHeight + lineSpace;
    var q := num / step;
    var t := Trunc(q);
    var n := EstimateMaxLines(lineSpace, maxHeight, fontHeight, top, bottom);
    QuotientNonNegative(num, step);
    assert 0 <= t && t as real <= q < t as real + 1.0;
    assert DivToInt(num, step) == t;
    assert n == t + 1;
    Bracket(maxHeight - top - bottom, fontHeight + lineSpace, n);
  }

  /**
   * Truncation, not flooring: a height that falls short of the margins by
   * less than one line step still reports one line.
   */
  lemma EstimateTruncatesTowardZero(lineSpace: real, maxHeight: real, fontHeight: real, top: real, bottom: real)
    requires 0.0 < fontHeight + lineSpace
    requires -(fontHeight + lineSpace) < maxHeight - top - bottom < 0.0
    ensures EstimateMaxLines(lineSpace, maxHeight, fontHeight, top, bottom) == 1
  {
    var num := maxHeight - top - bottom;
    var step := fontHeight + lineSpace;
    var q := num / step;
    assert q * step == num;
    if q <= -1.0 {
      MulLeq(q, -1.0, step);
      assert false;
    }
    assert Trunc(q) == 0;
  }

  /** The quotient of a fixed non-negative height shrinks as the step grows. */
  lemma QuotientAntitone(num: real, d1: real, d2: real)
    requires 0.0 <= num && 0.0 < d1 <= d2
    ensures num / d2 <= num / d1
  {
    var q1 := num / d1;
    var q2 := num / d2;
    assert q1 * d1 == num && q2 * d2 == num;
    if q1 < q2 {
      MulLess(q1, q2, d1);
      MulLeq(d1, d2, q2);
      assert false;
    }
  }

  /** More height never means fewer lines, short of the int range's end. */
  lemma EstimateMonotoneInHeight(lineSpace: real, h1: real, h2: real, fontHeight: real, top: real, bottom: real)
    requires 0.0 < fontHeight + lineSpace
    requires h1 <= h2
    requires (h2 - top - bottom) / (fontHeight + lineSpace) < IntMax as real
    ensures EstimateMaxLines(lineSpace, h1, fontHeight, top, bottom)
         <= EstimateMaxLines(lineSpace, h2, fontHeight, top, bottom)
  {
    var step := fontHeight + lineSpace;
    var q1 := (h1 - top - bottom) / step;
    var q2 := (h2 - top - bottom) / step;
    MulLeq(q1 * step, q2 * step, 1.0 / step);
    assert q1 <= q2;
    FloatToIntMonotone(q1, q2);
    assert Trunc(q2) < IntMax;
  }

  /** A taller line never means more lines, for a non-negative height. */
  lemma EstimateAntitoneInFontHeight(lineSpace: real, maxHeight: real, fh1: real, fh2: real, top: real, bottom: real)
    requires 0.0 < fh1 + lineSpace && fh1 <= fh2
    requires 0.0 <= maxHeight - top - bottom
    requires (maxHeight - top - bottom) / (fh1 + lineSpace) < IntMax as real
    ensures EstimateMaxLines(lineSpace, maxHeight, fh2, top, bottom)
         <= EstimateMaxLines(lineSpace, maxHeight, fh1, top, bottom)
  {
    var num := maxHeight - top - bottom;
    QuotientAntitone(num, fh1 + lineSpace, fh2 + lineSpace);
    FloatToIntMonotone(num / (fh2 + lineSpace), num / (fh1 + lineSpace));
    assert Trunc(num / (fh1 + lineSpace)) < IntMax;
  }

  /**
   * The one place the +1 escapes the int range: a quotient at or beyond the
   * top of the range saturates and then wraps to the most negative int.
   */
  lemma EstimateWrapsWhenSaturated(lineSpace: real, maxHeight: real, fontHeight: real, top: real, bottom: real)
    requires 0.0 < fontHeight + lineSpace
    requires IntMax as real <= (maxHeight - top - bottom) / (fontHeight + lineSpace)
    ensures EstimateMaxLines(lineSpace, maxHeight, fontHeight, top, bottom) == IntMin
  {
    var q := (maxHeight - top - bottom) / (fontHeight + lineSpace);
    TruncMonotone(IntMax as real, q);
    assert Trunc(IntMax as real) == IntMax;
    WrapPastTop();
  }
}
