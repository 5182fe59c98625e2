/**
 * Changing the text font size on a page that has no line yet.
 *
 * The builder re-estimates the remaining line budget below `usedHeight`. On a
 * page without a line that field still holds the "no line yet" value -1, so
 * the budget is measured from one point below the page's bottom edge and
 * comes out as zero or less for any ordinary font: the next line opens
 * another page and the current one gets no line.
 */
module FontSizeChange {
  import opened JavaNum
  import opened Optional
  import opened Attributes
  import opened Pages
  import opened Builder
  import opened LayoutProps

  /** A numerator at most minus one step gives a quotient at most minus one. */
  lemma QuotientAtMostMinusOne(num: real, step: real)
    requires 0.0 < step && num <= -step
    ensures num / step <= -1.0
  {
    var q := num / step;
    assert q * step == num;
    if -1.0 < q {
      MulLess(-1.0, q, step);
      assert false;
    }
  }

  /** A budget estimated from a quotient at most minus one is zero or less. */
  lemma EstimateFromNegative(lineSpace: real, maxHeight: real, fontHeight: real)
    requires 0.0 < fontHeight + lineSpace
    requires maxHeight / (fontHeight + lineSpace) <= -1.0
    ensures EstimateMaxLines(lineSpace, maxHeight, fontHeight, 0.0, 0.0) <= 0
  {
    var q := (maxHeight - 0.0 - 0.0) / (fontHeight + lineSpace);
    assert maxHeight - 0.0 - 0.0 == maxHeight;
    assert Trunc(q) <= -1;
  }

  /**
   * As written: on a page with no line yet, whenever the new line height is
   * at most one point more than the margin, the re-estimated budget is zero
   * or less, so the very next line opens a new page and the page that was
   * current receives no line at all.
   */
  lemma AsWrittenEmptiesFreshPage(s: Session, size: Int32, text: string, fg: Color, bg: Color, alignment: Alignment)
    requires s.page.Some? && s.usedHeight == NoLineYet
    requires 0.0 < FontHeight(s.font, size) + s.lineSpace
    requires FontHeight(s.font, size) <= 1.0 + s.pageMargin
    ensures var r := SetTextFontSizeAsWritten(s, size);
      && r.availableLines <= 0
      && CheckNewPage(r, false).created
      && PrintLine(r, text, fg, bg, alignment).pageNumber == Wrap(s.pageNumber + 1)
  {
    var fontHeight := FontHeight(s.font, size);
    var num := s.usedHeight - s.lineSpace - s.pageMargin;
    QuotientAtMostMinusOne(num, fontHeight + s.lineSpace);
    EstimateFromNegative(s.lineSpace, num, fontHeight);
  }

  /** The 1000-unit-high font the scenarios below use: a line is exactly as high as the font size. */
  function UnitFont(width: Label -> real): Font
  {
    Font(1000.0, width)
  }

  /**
   * The skipped page, concretely: a new builder, an explicit new page, the
   * font size set (even to the size it already has), one line. The line
   * lands on page 2; page 1 gets no line, only its page number.
   */
  lemma LineOnNextPageScenario(width: Label -> real, sizes: SizeTable, text: string)
    requires 80.0 <= sizes.letter.width < 1000000.0
    ensures var s1 := ForceNewPage(NewSession(UnitFont(width), sizes));
      var s3 := PrintAligned(SetTextFontSizeAsWritten(s1, 12), text, Left);
      && s1.pageNumber == 1 && s1.curLines == 0
      && s3.pageNumber == 2 && s3.curLines == 1
  {
    var s0 := NewSession(UnitFont(width), sizes);
    var s1 := ForceNewPage(s0);
    assert s1.pageNumber == 1 && s1.usedHeight == NoLineYet && s1.page.Some?;
    assert FontHeight(s1.font, 12) == 12.0;
    AsWrittenEmptiesFreshPage(s1, 12, text, Black, White, Left);
  }

  /**
   * Corrected: on a page with no line yet, the new budget is that of a fresh
   * page at the new size, and, when such a page holds a line at all, the next
   * line goes onto the current page, on its top line.
   */
  lemma CorrectedFontChangeOnFreshPage(s: Session, size: Int32, text: string, fg: Color, bg: Color, alignment: Alignment)
    requires s.page == Some(CreatePage(s.sizes, s.pageSize, s.pageOrientation))
    requires s.usedHeight == NoLineYet && s.curLines == 0
    ensures var r := SetTextFontSize(s, size);
      r.availableLines == PageCapacity(r)
    ensures var r := SetTextFontSize(s, size);
      1 <= PageCapacity(r) ==>
        var p := PrintLine(r, text, fg, bg, alignment);
        && p.pageNumber == s.pageNumber && p.page == s.page && p.curLines == 1
        && p.usedHeight == EffectiveHeight(s.page.value) - s.pageMargin
  {
    hide StringWidth, AlignX, Print, PageNumberEvents, EstimateMaxLines, FontHeight;
  }

  /** The same scenario with the corrected setter keeps the line on page 1. */
  lemma CorrectedScenario(width: Label -> real, sizes: SizeTable, text: string)
    requires 80.0 <= sizes.letter.width < 1000000.0
    ensures var s1 := ForceNewPage(NewSession(UnitFont(width), sizes));
      var s3 := PrintAligned(SetTextFontSize(s1, 12), text, Left);
      s3.pageNumber == 1 && s3.curLines == 1
  {
    var s0 := NewSession(UnitFont(width), sizes);
    var s1 := ForceNewPage(s0);
    var r := SetTextFontSize(s1, 12);
    assert s1.pageNumber == 1 && s1.usedHeight == NoLineYet;
    assert FontHeight(s1.font, 12) == 12.0;
    var page := CreatePage(sizes, Letter, Landscape);
    assert EffectiveHeight(page) == sizes.letter.width;
    EstimateCapacity(DefaultLineSpace, EffectiveHeight(page), 12.0, DefaultPageMargin, DefaultPageMargin);
    assert 1 <= PageCapacity(r);
    CorrectedFontChangeOnFreshPage(s1, 12, text, Black, White, Left);
  }
}
