/**
 * What ends up in the draw log: the background rectangle only when the
 * attributes ask for one, the page number centred at the foot of each new
 * page, a text line's rectangle and text, and its placement according to its
 * alignment on a baseline that does not depend on it.
 */
module DrawingProps {
  import opened JavaNum
  import opened Optional
  import opened Attributes
  import opened Pages
  import opened Builder

  /**
   * Drawing a text always ends with the text itself, at the given position,
   * size and foreground colour; it is preceded by a filled rectangle of the
   * attributes' background geometry and colour exactly when the fill guard
   * holds, and by nothing otherwise.
   */
  lemma PrintPaintsOnlyWhenGuarded(x: real, y: real, content: Label, a: TextAttributes)
    ensures var events := Print(x, y, content, a);
      && 1 <= |events| <= 2
      && events[|events| - 1] == DrawText(x, y, a.fontSize, a.fgColor, content)
      && (|events| == 2 <==> a.PaintsBackground())
      && (|events| == 2 ==> events[0] == FillRect(a.bgX, a.bgY, a.bgWidth, a.bgHeight, a.bgColor))
  {
  }

  /** A text in default attributes (whatever its size) never gets a background rectangle. */
  lemma DefaultAttributesPaintNothing(x: real, y: real, content: Label, n: Int32)
    ensures Print(x, y, content, Default().SetFontSize(n)) == [DrawText(x, y, n, Black, content)]
  {
  }

  /**
   * Opening a page logs the page, then (when page numbers are on) the new
   * page's number: a bare text, half a margin above the bottom edge, centred
   * on the page's effective width, in the page-number font size. Nothing
   * else is drawn.
   */
  lemma PageNumberPlacement(s: Session)
    ensures var r := OpenPage(s);
      var page := CreatePage(s.sizes, s.pageSize, s.pageOrientation);
      && r.page == Some(page)
      && r.log[..|s.log| + 1] == s.log + [PageOpened(page)]
      && (!s.outputPageNumber ==> |r.log| == |s.log| + 1)
      && (s.outputPageNumber ==>
            var number := PageNumberText(s.pageNumberPattern, r.pageNumber);
            var width := StringWidth(s.font, number, s.pageNumberFontSize);
            && |r.log| == |s.log| + 2
            && r.log[|s.log| + 1].DrawText?
            && r.log[|s.log| + 1].y == s.pageMargin / 2.0
            && r.log[|s.log| + 1].x + width / 2.0 == EffectiveWidth(page) / 2.0
            && r.log[|s.log| + 1].fontSize == s.pageNumberFontSize
            && r.log[|s.log| + 1].content == number)
  {
    var page := CreatePage(s.sizes, s.pageSize, s.pageOrientation);
    var r := OpenPage(s);
    assert r.log[..|s.log| + 1] == s.log + [PageOpened(page)];
    if s.outputPageNumber {
      var number := PageNumberText(s.pageNumberPattern, r.pageNumber);
      var width := StringWidth(s.font, number, s.pageNumberFontSize);
      var x := (EffectiveWidth(page) - width) / 2.0;
      DefaultAttributesPaintNothing(x, s.pageMargin / 2.0, number, s.pageNumberFontSize);
    }
  }

  /**
   * A text line is placed according to its alignment: left aligned at the
   * margin, right aligned so that it ends at the right margin, centred on the
   * page's middle. Its baseline, its page and its counters do not depend on
   * the alignment.
   */
  lemma AlignmentPlacement(s: Session, text: string, fg: Color, bg: Color, alignment: Alignment, other: Alignment)
    ensures var c := CheckNewPage(s, false).session;
      var r := PrintLine(s, text, fg, bg, alignment);
      var width := EffectiveWidth(c.page.value);
      var textWidth := StringWidth(c.font, Text(text), c.textFontSize);
      && (alignment == Left ==> r.curX == c.pageMargin)
      && (alignment == Right ==> r.curX + textWidth == width - c.pageMargin)
      && (alignment == Middle ==> r.curX + textWidth / 2.0 == width / 2.0)
    ensures var r := PrintLine(s, text, fg, bg, alignment);
      var q := PrintLine(s, text, fg, bg, other);
      && r.curY == q.curY && r.usedHeight == q.usedHeight
      && r.page == q.page && r.pageNumber == q.pageNumber
      && r.curLines == q.curLines && r.availableLines == q.availableLines && r.maxLines == q.maxLines
  {
    hide PrintLine, CheckNewPage, NextLineY, StringWidth, AlignX;
    LinePosition(s, text, fg, bg, alignment);
    LinePosition(s, text, fg, bg, other);
  }

  /**
   * What a text line draws: after whatever opening a page drew, a rectangle
   * in the background colour spanning the drawable width between the margins
   * at the line's baseline, one line high, unless the background is white or
   * one of its geometry values happens to be the "not set" -1; then the text
   * itself, at the line's start and baseline, in the text font size and the
   * foreground colour.
   */
  lemma LineEvents(s: Session, text: string, fg: Color, bg: Color, alignment: Alignment)
    ensures var c := CheckNewPage(s, false).session;
      var r := PrintLine(s, text, fg, bg, alignment);
      var y := NextLineY(c);
      var w := EffectiveWidth(c.page.value) - c.pageMargin * 2.0;
      var painted := bg != White && c.pageMargin != Unset && y != Unset && w != Unset && c.fontHeight != Unset;
      && r.curY == y
      && r.log == c.log + (if painted then [FillRect(c.pageMargin, y, w, c.fontHeight, bg)] else [])
                        + [DrawText(r.curX, y, c.textFontSize, fg, Text(text))]
  {
    hide EstimateMaxLines, FontHeight, PageNumberEvents, OpenPage, NextLineY, StringWidth, AlignX;
  }

  /** A text line is committed at its aligned start on the next line's baseline. */
  lemma LinePosition(s: Session, text: string, fg: Color, bg: Color, alignment: Alignment)
    ensures var c := CheckNewPage(s, false).session;
      var r := PrintLine(s, text, fg, bg, alignment);
      && r.curX == AlignX(alignment, EffectiveWidth(c.page.value), c.pageMargin,
                          StringWidth(c.font, Text(text), c.textFontSize))
      && r == Commit(c.(log := r.log), r.curX, NextLineY(c))
  {
    hide EstimateMaxLines, FontHeight, PageNumberEvents, Print, OpenPage, NextLineY, StringWidth, Make, AlignX;
  }
}
