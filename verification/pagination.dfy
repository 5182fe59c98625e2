/**
 * The line counters and the vertical flow: what every committed line does
 * to the counters, where the k-th line of a page lands, and when the next
 * page is opened.
 */
module Pagination {
  import opened JavaNum
  import opened Optional
  import opened Attributes
  import opened Pages
  import opened Builder

  /**
   * On an open page the consumed and the remaining lines add up to the
   * page's budget. A budget of `IntMin` (a saturated estimate) is exempt:
   * decrementing it wraps around.
   */
  ghost predicate CountersAgree(s: Session)
  {
    s.page.Some? && s.maxLines != IntMin ==>
      0 <= s.curLines && s.curLines + s.availableLines == s.maxLines
  }

  /** The line height matches the current text font size. */
  ghost predicate FontHeightCurrent(s: Session)
  {
    s.fontHeight == FontHeight(s.font, s.textFontSize)
  }

  lemma NewSessionInvariants(font: Font, sizes: SizeTable)
    ensures CountersAgree(NewSession(font, sizes)) && FontHeightCurrent(NewSession(font, sizes))
  {
  }

  /** Either outcome of the page-break decision keeps the counters consistent. */
  lemma CheckNewPageKeepsCounters(s: Session, force: bool)
    requires CountersAgree(s)
    ensures CountersAgree(CheckNewPage(s, force).session)
  {
  }

  /**
   * A committed text line advances the counters of the page it was placed
   * on by one line, records its baseline as the used height, and keeps the
   * counters consistent.
   */
  lemma PrintLineCommits(s: Session, text: string, fg: Color, bg: Color, alignment: Alignment)
    requires CountersAgree(s)
    ensures var c := CheckNewPage(s, false).session;
      var r := PrintLine(s, text, fg, bg, alignment);
      && CountersAgree(r)
      && r.page == c.page && r.pageNumber == c.pageNumber && r.maxLines == c.maxLines
      && r.usedHeight == r.curY == NextLineY(c)
      && (c.maxLines != IntMin ==> r.curLines == c.curLines + 1 && r.availableLines == c.availableLines - 1)
  {
    hide StringWidth, FontHeight, EstimateMaxLines, AlignX, NextLineY, Print, PageNumberEvents, OpenPage, Make, PageCapacity;
    var checked := CheckNewPage(s, false);
    var c := checked.session;
    assert CountersAgree(c);
    if c.maxLines != IntMin {
      if !checked.created {
        assert 0 < c.availableLines;
        assert c.curLines + 1 <= IntMax;
      }
    }
  }

  /** A configuration setter does not touch the counters. */
  lemma ConfigureKeepsCounters(s: Session, setting: Setting)
    requires CountersAgree(s) && FontHeightCurrent(s)
    ensures CountersAgree(Configure(s, setting)) && FontHeightCurrent(Configure(s, setting))
  {
  }

  // ---------------------------------------------------------------------
  // Lines on a page of fixed geometry
  // ---------------------------------------------------------------------

  /** Baseline of the first line of the current page. */
  function TopLineY(s: Session): real
    requires s.page.Some?
  {
    EffectiveHeight(s.page.value) - s.pageMargin
  }

  /** Baseline of the `k`-th line (counting from 0) of the current page. */
  function LineY(s: Session, k: int): real
    requires s.page.Some?
  {
    TopLineY(s) - k as real * (s.fontHeight + s.lineSpace)
  }

  /**
   * The session sits on a page of its configured size whose budget is `n`
   * lines, has used `curLines` of them, and placed the last one on the
   * `curLines - 1`-th line position.
   */
  ghost predicate OnSteadyPage(s: Session, n: int)
  {
    && s.page == Some(CreatePage(s.sizes, s.pageSize, s.pageOrientation))
    && FontHeightCurrent(s)
    && n == PageCapacity(s) && 1 <= n
    && s.maxLines == n && 0 <= s.curLines <= n && s.availableLines == n - s.curLines
    && s.usedHeight == (if s.curLines == 0 then NoLineYet else LineY(s, s.curLines - 1))
  }

  /** Line positions depend only on the page, the margin, the line height and the spacing. */
  lemma SameGeometry(a: Session, b: Session, k: int)
    requires a.page.Some? && a.page == b.page && a.pageMargin == b.pageMargin
    requires a.fontHeight == b.fontHeight && a.lineSpace == b.lineSpace
    ensures LineY(a, k) == LineY(b, k)
  {
  }

  lemma StepDown(top: real, k: int, step: real)
    ensures top - (k - 1) as real * step - step == top - k as real * step
  {
  }

  /**
   * The two ways of placing the next line agree on a steady page: from the
   * top margin or one step below the previous line, it is the `curLines`-th
   * line position. This holds even when a line's baseline happens to equal
   * the "no line yet" value.
   */
  lemma NextLineYOnSteadyPage(s: Session, n: int)
    requires OnSteadyPage(s, n)
    ensures NextLineY(s) == LineY(s, s.curLines)
  {
    if s.curLines > 0 && s.usedHeight != NoLineYet {
      StepDown(TopLineY(s), s.curLines, s.fontHeight + s.lineSpace);
    }
  }

  /** Forcing a page under a configuration whose pages hold `n >= 1` lines starts a steady, empty page. */
  lemma OpenedPageIsSteady(s: Session, force: bool)
    requires FontHeightCurrent(s)
    requires 1 <= PageCapacity(s)
    requires force || s.page.None? || s.availableLines <= 0
    ensures var r := CheckNewPage(s, force).session;
      OnSteadyPage(r, PageCapacity(s)) && r.curLines == 0
  {
  }

  /** Committing a line at the next line position keeps the page steady, one line further down. */
  lemma CommitOnSteadyPage(c: Session, n: int, log: seq<Event>, x: real)
    requires OnSteadyPage(c, n) && c.curLines < n
    ensures var r := Commit(c.(log := log), x, NextLineY(c));
      OnSteadyPage(r, n) && r.curLines == c.curLines + 1 && r.usedHeight == LineY(c, c.curLines)
      && r.pageNumber == c.pageNumber
  {
    NextLineYOnSteadyPage(c, n);
  }

  /**
   * One line on a steady page of `n` lines: while the page has room the line
   * goes to the next line position; on a full page exactly one new page is
   * opened and the line goes to its top.
   */
  lemma PrintLineOnSteadyPage(s: Session, n: int, text: string, fg: Color, bg: Color, alignment: Alignment)
    requires OnSteadyPage(s, n)
    requires s.pageNumber < IntMax
    ensures var r := PrintLine(s, text, fg, bg, alignment);
      && OnSteadyPage(r, n) && SameConfig(r, s) && r.page == s.page
      && (s.curLines < n ==>
            r.pageNumber == s.pageNumber && r.curLines == s.curLines + 1 && r.usedHeight == LineY(s, s.curLines))
      && (s.curLines == n ==>
            r.pageNumber == s.pageNumber + 1 && r.curLines == 1 && r.usedHeight == LineY(s, 0))
  {
    hide StringWidth, FontHeight, EstimateMaxLines, AlignX, Print, PageNumberEvents;
    var c := CheckNewPage(s, false).session;
    if s.curLines == n {
      OpenedPageIsSteady(s, false);
    }
    var width := EffectiveWidth(c.page.value);
    var textWidth := StringWidth(c.font, Text(text), c.textFontSize);
    var x := AlignX(alignment, width, c.pageMargin, textWidth);
    var y := NextLineY(c);
    var attrs := Make(c.textFontSize, fg, bg, width - c.pageMargin * 2.0, c.fontHeight, alignment)
                 .SetBgX(c.pageMargin).SetBgY(y);
    CommitOnSteadyPage(c, n, c.log + Print(x, y, Text(text), attrs), x);
  }
}
