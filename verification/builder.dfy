/**
 * The line-flow state machine of the PDF builder: the session record and the
 * transitions that decide page breaks, place each line, lay out table rows
 * and keep the line counters.
 *
 * Everything the builder hands to the rendering library is recorded in an
 * append-only log of events instead of being drawn; the font's metrics are
 * supplied with the session.
 */
module Builder {
  import opened JavaNum
  import opened Optional
  import opened Attributes
  import opened Pages

  const DefaultPageMargin: real := 40.0
  const DefaultLineSpace: real := 5.0
  const DefaultTextFontSize: Int32 := 12
  const DefaultPageNumberFontSize: Int32 := 6
  const DefaultPageNumberPattern: string := "Page Number %d"

  /** The `usedHeight` of a page on which no line has been committed yet. */
  const NoLineYet: real := -1.0

  /** A text handed to the renderer: a literal, or the page-number pattern formatted with a number. */
  datatype Label = Text(text: string) | PageNumberText(pattern: string, number: Int32)

  /**
   * The metrics of the builder's default font, as the rendering library
   * reports them: the height of its bounding box and the width of a text,
   * both in thousandths of a unit of font size.
   */
  datatype Font = Font(bboxHeight: real, stringWidth: Label -> real)

  /** What the builder asks the renderer to do. */
  datatype Event =
    | PageOpened(page: Page)
    | FillRect(x: real, y: real, width: real, height: real, color: Color)
    | DrawText(x: real, y: real, fontSize: Int32, color: Color, content: Label)

  datatype Session = Session(
    font: Font,
    sizes: SizeTable,
    // configuration
    pageOrientation: Orientation,
    textFontSize: Int32,
    pageMargin: real,
    lineSpace: real,
    pageSize: PageSize,
    pageNumber: Int32,
    pageNumberPattern: string,
    outputPageNumber: bool,
    pageNumberFontSize: Int32,
    // layout state of the current page
    fontHeight: real,
    maxLines: Int32,
    availableLines: Int32,
    curLines: Int32,
    page: Option<Page>,
    curX: real,
    curY: real,
    usedHeight: real,
    // everything drawn so far
    log: seq<Event>)

  function Min(a: int, b: int): int
  {
    if a <= b then a else b
  }

  /** Line height of the font at a size. */
  function FontHeight(font: Font, size: Int32): real
  {
    font.bboxHeight / 1000.0 * size as real
  }

  /** Rendered width of a text at a size. */
  function StringWidth(font: Font, content: Label, size: Int32): real
  {
    font.stringWidth(content) * size as real / 1000.0
  }

  /** A fresh builder: landscape Letter pages, size 12, margin 40, spacing 5, no page yet. */
  function NewSession(font: Font, sizes: SizeTable): (s: Session)
    ensures s.font == font && s.sizes == sizes
    ensures s.page.None? && s.pageNumber == 0 && s.log == []
    ensures s.pageOrientation == Landscape && s.pageSize == Letter
    ensures s.textFontSize == 12 && s.pageMargin == 40.0 && s.lineSpace == 5.0
    ensures s.outputPageNumber && s.pageNumberFontSize == 6 && s.pageNumberPattern == "Page Number %d"
    ensures s.maxLines == -1 && s.availableLines == -1 && s.curLines == 0
    ensures s.curX == 0.0 && s.curY == 0.0 && s.usedHeight == 0.0
    ensures s.fontHeight == FontHeight(font, s.textFontSize)
  {
    Session(
      font, sizes,
      Landscape, DefaultTextFontSize, DefaultPageMargin, DefaultLineSpace, Letter,
      0, DefaultPageNumberPattern, true, DefaultPageNumberFontSize,
      FontHeight(font, DefaultTextFontSize), -1, -1, 0, None, 0.0, 0.0, 0.0,
      [])
  }

  /**
   * How many lines fit in `maxHeight` once both margins are taken away, at
   * one line every `fontHeight + lineSpace`. The quotient is cast to an int
   * by truncation and one is added, because the first line sits on the top
   * margin and uses up no step.
   */
  function EstimateMaxLines(lineSpace: real, maxHeight: real, fontHeight: real,
                            marginTop: real, marginBottom: real): Int32
  {
    Wrap(DivToInt(maxHeight - marginTop - marginBottom, fontHeight + lineSpace) + 1)
  }

  /** The line budget of a freshly created page under the session's configuration. */
  function PageCapacity(s: Session): Int32
  {
    EstimateMaxLines(s.lineSpace,
      EffectiveHeight(CreatePage(s.sizes, s.pageSize, s.pageOrientation)),
      FontHeight(s.font, s.textFontSize), s.pageMargin, s.pageMargin)
  }

  /**
   * What drawing one text amounts to: a background rectangle when the
   * attributes ask for one, then the text itself at `(x, y)`.
   */
  function Print(x: real, y: real, content: Label, a: TextAttributes): seq<Event>
  {
    (if a.PaintsBackground() then [FillRect(a.bgX, a.bgY, a.bgWidth, a.bgHeight, a.bgColor)] else [])
    + [DrawText(x, y, a.fontSize, a.fgColor, content)]
  }

  /** Horizontal start of a line of text of width `textWidth`. */
  function AlignX(alignment: Alignment, pageWidth: real, margin: real, textWidth: real): (x: real)
    ensures alignment == Left ==> x == margin
    ensures alignment == Right ==> x + textWidth == pageWidth - margin
    ensures alignment == Middle ==> x + textWidth / 2.0 == pageWidth / 2.0
  {
    match alignment
    case Left => margin
    case Right => pageWidth - margin - textWidth
    case Middle => (pageWidth - textWidth) / 2.0
  }

  /**
   * Baseline of the next line: measured from the top margin while the page
   * has no line yet, otherwise one line step below the last line.
   */
  function NextLineY(s: Session): real
    requires s.page.Some?
  {
    if s.usedHeight == NoLineYet then
      EffectiveHeight(s.page.value) - s.pageMargin - s.curLines as real * (s.fontHeight + s.lineSpace)
    else
      s.usedHeight - s.fontHeight - s.lineSpace
  }

  /** The page number drawn centred at the foot of a newly opened page. */
  function PageNumberEvents(s: Session): (events: seq<Event>)
    requires s.page.Some?
    ensures var number := PageNumberText(s.pageNumberPattern, s.pageNumber);
      && |events| == 1 && events[0].DrawText?
      && events[0].content == number && events[0].fontSize == s.pageNumberFontSize && events[0].color == Black
      && events[0].y == s.pageMargin / 2.0
      && events[0].x + StringWidth(s.font, number, s.pageNumberFontSize) / 2.0 == EffectiveWidth(s.page.value) / 2.0
  {
    var number := PageNumberText(s.pageNumberPattern, s.pageNumber);
    var textWidth := StringWidth(s.font, number, s.pageNumberFontSize);
    var x := (EffectiveWidth(s.page.value) - textWidth) / 2.0;
    var y := s.pageMargin / 2.0;
    Print(x, y, number, Default().SetFontSize(s.pageNumberFontSize))
  }

  /** The session, with the first line of a new page the next to be placed. */
  function OpenPage(s: Session): (r: Session)
    ensures var page := CreatePage(s.sizes, s.pageSize, s.pageOrientation);
      && r.page == Some(page) && r.pageNumber == Wrap(s.pageNumber + 1)
      && r.curLines == 0 && r.maxLines == r.availableLines == PageCapacity(s) && r.usedHeight == NoLineYet
      && r.log == s.log + [PageOpened(page)] + (if s.outputPageNumber then PageNumberEvents(r) else [])
      && SameConfig(r, s)
  {
    var page := CreatePage(s.sizes, s.pageSize, s.pageOrientation);
    var lines := EstimateMaxLines(s.lineSpace, EffectiveHeight(page),
                                  FontHeight(s.font, s.textFontSize), s.pageMargin, s.pageMargin);
    var started := s.(page := Some(page), pageNumber := Wrap(s.pageNumber + 1),
                     maxLines := lines, availableLines := lines, curLines := 0,
                     log := s.log + [PageOpened(page)]);
    var numbered := if s.outputPageNumber then started.(log := started.log + PageNumberEvents(started))
                    else started;
    numbered.(curX := 0.0, curY := EffectiveHeight(page), usedHeight := NoLineYet)
  }

  datatype Checked = Checked(created: bool, session: Session)

  /**
   * The page-break decision: a new page is opened when one is forced, when
   * there is no page yet, or when the current page has no line left.
   */
  function CheckNewPage(s: Session, force: bool): (r: Checked)
    ensures r.created <==> force || s.page.None? || s.availableLines <= 0
    ensures !r.created ==> r.session == s
    ensures r.session.page.Some?
    ensures r.created ==>
      && r.session.page == Some(CreatePage(s.sizes, s.pageSize, s.pageOrientation))
      && r.session.pageNumber == Wrap(s.pageNumber + 1)
      && r.session.curLines == 0
      && r.session.maxLines == r.session.availableLines == PageCapacity(s)
      && r.session.usedHeight == NoLineYet
      && r.session.fontHeight == s.fontHeight
      && r.session.textFontSize == s.textFontSize
      && r.session.pageMargin == s.pageMargin
      && r.session.lineSpace == s.lineSpace
      && s.log + [PageOpened(r.session.page.value)] <= r.session.log
  {
    if force || s.page.None? || s.availableLines <= 0 then Checked(true, OpenPage(s))
    else Checked(false, s)
  }

  /** An explicit page break: a new page, whatever the state of the current one. */
  function ForceNewPage(s: Session): (r: Session)
    ensures r.page == Some(CreatePage(s.sizes, s.pageSize, s.pageOrientation))
    ensures r.pageNumber == Wrap(s.pageNumber + 1)
    ensures r.curLines == 0 && r.maxLines == r.availableLines == PageCapacity(s)
    ensures r.usedHeight == NoLineYet && SameConfig(r, s)
  {
    CheckNewPage(s, true).session
  }

  /** Book-keeping after a line (or a row) has been drawn at `(x, y)`. */
  function Commit(s: Session, x: real, y: real): Session
  {
    s.(curX := x, curY := y, usedHeight := y,
       curLines := Wrap(s.curLines + 1), availableLines := Wrap(s.availableLines - 1))
  }

  /** True when the two sessions agree on everything but the layout state and the log. */
  ghost predicate SameConfig(a: Session, b: Session)
  {
    && a.font == b.font && a.sizes == b.sizes
    && a.pageOrientation == b.pageOrientation && a.textFontSize == b.textFontSize
    && a.pageMargin == b.pageMargin && a.lineSpace == b.lineSpace && a.pageSize == b.pageSize
    && a.pageNumberPattern == b.pageNumberPattern && a.outputPageNumber == b.outputPageNumber
    && a.pageNumberFontSize == b.pageNumberFontSize && a.fontHeight == b.fontHeight
  }

  /**
   * One line of text in the given colours and alignment, opening a new page
   * first if needed. The background rectangle, when painted, spans the
   * drawable width at the line's baseline.
   */
  function PrintLine(s: Session, text: string, fg: Color, bg: Color, alignment: Alignment): (r: Session)
    ensures r.page.Some?
    ensures SameConfig(r, s)
    ensures s.log <= r.log
    ensures r.usedHeight == r.curY
    ensures |s.log| < |r.log|
    ensures r.log[|r.log| - 1] == DrawText(r.curX, r.curY, s.textFontSize, fg, Text(text))
    ensures r.pageNumber != s.pageNumber ==> s.page.None? || s.availableLines <= 0
  {
    var c := CheckNewPage(s, false).session;
    var width := EffectiveWidth(c.page.value);
    var textWidth := StringWidth(c.font, Text(text), c.textFontSize);
    var x := AlignX(alignment, width, c.pageMargin, textWidth);
    var y := NextLineY(c);
    var attrs := Make(c.textFontSize, fg, bg, width - c.pageMargin * 2.0, c.fontHeight, alignment)
                 .SetBgX(c.pageMargin).SetBgY(y);
    Commit(c.(log := c.log + Print(x, y, Text(text), attrs)), x, y)
  }

  /** A line of text in black on white: white is never filled, so the text is all it draws. */
  function PrintAligned(s: Session, text: string, alignment: Alignment): (r: Session)
    ensures r.log == CheckNewPage(s, false).session.log + [DrawText(r.curX, r.curY, s.textFontSize, Black, Text(text))]
  {
    PrintLine(s, text, Black, White, alignment)
  }

  /** An empty line: the empty text drawn at the left margin. */
  function PrintBlank(s: Session): (r: Session)
    ensures r.log == CheckNewPage(s, false).session.log + [DrawText(s.pageMargin, r.curY, s.textFontSize, Black, Text(""))]
  {
    PrintLine(s, "", Black, White, Left)
  }

  /**
   * Drawing one text at an absolute position, outside the line flow. Without
   * a page there is no content stream to draw on, which fails.
   */
  function PrintAt(s: Session, x: real, y: real, text: string, a: TextAttributes): (r: Option<Session>)
    ensures r.Some? <==> s.page.Some?
    ensures r.Some? ==> r.value == s.(log := r.value.log) && s.log < r.value.log
    ensures r.Some? ==> r.value.log == s.log + Print(x, y, Text(text), a)
  {
    if s.page.None? then None
    else Some(s.(log := s.log + Print(x, y, Text(text), a)))
  }

  // ---------------------------------------------------------------------
  // Table rows
  // ---------------------------------------------------------------------

  /** The sum of the weights, taken over the whole weight array. */
  function WeightSum(ws: seq<Int32>): int
  {
    if |ws| == 0 then 0 else WeightSum(ws[..|ws| - 1]) + ws[|ws| - 1]
  }

  /** The horizontal extent of one cell. */
  datatype CellBox = CellBox(x: real, width: real)

  /** The part of `total` that weight `w` gets out of the weight sum `sum`. */
  function Share(total: real, w: int, sum: real): real
    requires sum != 0.0
  {
    total * w as real / sum
  }

  /**
   * The prorating loop from cell `i` on: each cell gets its weight's share
   * of `total` and starts where the cells before it, `taken` wide in all, end.
   */
  function ProrateFrom(total: real, margin: real, weights: seq<Int32>, sum: real,
                       n: nat, i: nat, taken: real): (boxes: seq<CellBox>)
    requires i <= n <= |weights|
    requires sum != 0.0
    ensures |boxes| == n - i
    decreases n - i
  {
    if i == n then []
    else
      var width := Share(total, weights[i], sum);
      [CellBox(margin + taken, width)] + ProrateFrom(total, margin, weights, sum, n, i + 1, taken + width)
  }

  /** The boxes of the first `n` cells of a row `total` wide starting at `margin`. */
  function Prorate(total: real, margin: real, weights: seq<Int32>, sum: real, n: nat): (boxes: seq<CellBox>)
    requires n <= |weights|
    requires sum != 0.0
    ensures |boxes| == n
  {
    ProrateFrom(total, margin, weights, sum, n, 0, 0.0)
  }

  /**
   * The attributes a cell is drawn with. The background height is taken
   * from the attribute's own font size before that size is overwritten by
   * the session's.
   */
  function CellAttributes(a: TextAttributes, box: CellBox, y: real, font: Font, textFontSize: Int32): (r: TextAttributes)
    ensures r.bgHeight == FontHeight(font, a.fontSize)
    ensures r.fontSize == textFontSize
    ensures r.bgX == box.x && r.bgY == y && r.bgWidth == box.width
    ensures r.fgColor == a.fgColor && r.bgColor == a.bgColor && r.alignment == a.alignment
  {
    a.SetBgX(box.x).SetBgY(y).SetBgHeight(FontHeight(font, a.fontSize)).SetBgWidth(box.width)
     .SetFontSize(textFontSize)
  }

  /** The attribute used for a cell when the caller passed none. */
  function DefaultCellAttributes(textFontSize: Int32): TextAttributes
  {
    Default().SetFontSize(textFontSize)
  }

  datatype Drawn = Drawn(session: Session, attributes: Option<seq<TextAttributes>>)

  /** The attributes cell `j` starts from. */
  function SourceAttributes(attributes: Option<seq<TextAttributes>>, j: nat, textFontSize: Int32): TextAttributes
  {
    if attributes.Some? && j < |attributes.value| then attributes.value[j] else DefaultCellAttributes(textFontSize)
  }

  /**
   * The drawing loop over cells `i` to `m - 1`, all on baseline `y`. The
   * caller's attribute objects are updated in place, so the updated array is
   * handed back.
   */
  function DrawCells(s: Session, cells: seq<string>, boxes: seq<CellBox>, y: real,
                     attributes: Option<seq<TextAttributes>>, i: nat, m: nat): (r: Drawn)
    requires i <= m <= |cells| && m <= |boxes|
    requires attributes.Some? ==> m <= |attributes.value|
    ensures r.session == s.(log := r.session.log)
    ensures s.log <= r.session.log
    ensures r.attributes.Some? <==> attributes.Some?
    ensures attributes.Some? ==> |r.attributes.value| == |attributes.value|
    decreases m - i
  {
    if i == m then Drawn(s, attributes)
    else
      var a := CellAttributes(SourceAttributes(attributes, i, s.textFontSize), boxes[i], y, s.font, s.textFontSize);
      var s' := s.(log := s.log + Print(boxes[i].x, y, Text(cells[i]), a));
      var attributes' := if attributes.Some? then Some(attributes.value[i := a]) else None;
      DrawCells(s', cells, boxes, y, attributes', i + 1, m)
  }

  datatype RowError = CellWidthIndexOutOfBounds | AttributeIndexOutOfBounds | ZeroWeightSum

  /**
   * The outcome of printing a row. A failure carries the state reached when
   * it happened: pages opened and cells drawn before it stay, the line
   * counters are not advanced.
   */
  datatype RowOutcome =
    | RowDone(session: Session, attributes: Option<seq<TextAttributes>>)
    | RowFailed(session: Session, attributes: Option<seq<TextAttributes>>, error: RowError)

  /**
   * One row of cells across the drawable width of the page `c` is on, each
   * cell as wide as its share of the weights, all on one baseline and
   * consuming one line.
   */
  function RowOnPage(c: Session, cells: seq<string>, weights: seq<Int32>,
                     attributes: Option<seq<TextAttributes>>): (r: RowOutcome)
    requires c.page.Some?
    ensures r.session.page == c.page
    ensures SameConfig(r.session, c)
    ensures c.log <= r.session.log
    ensures r.RowDone? <==>
      && |cells| <= |weights|
      && (|cells| == 0 || WeightSum(weights) != 0)
      && (attributes.Some? ==> |cells| <= |attributes.value|)
    ensures r.RowFailed? && r.error == CellWidthIndexOutOfBounds ==> |weights| < |cells|
    ensures r.RowFailed? && r.error == CellWidthIndexOutOfBounds && attributes.Some? ==> |weights| <= |attributes.value|
    ensures r.RowFailed? && r.error == AttributeIndexOutOfBounds ==>
      attributes.Some? && |attributes.value| < |weights| && |attributes.value| < |cells|
    ensures r.RowFailed? && r.error == ZeroWeightSum ==> 0 < |cells| && 0 < |weights| && WeightSum(weights) == 0
  {
    var total := EffectiveWidth(c.page.value) - c.pageMargin * 2.0;
    var y := NextLineY(c);
    var sum := WeightSum(weights) as real;
    var k := Min(|cells|, |weights|);
    if k > 0 && sum == 0.0 then RowFailed(c, attributes, ZeroWeightSum)
    else
      var boxes := if sum == 0.0 then [] else Prorate(total, c.pageMargin, weights, sum, |weights|);
      var m := if attributes.Some? then Min(k, |attributes.value|) else k;
      if m < |cells| then
        var drawn := DrawCells(c, cells, boxes, y, attributes, 0, m);
        RowFailed(drawn.session, drawn.attributes,
                  if m == |weights| then CellWidthIndexOutOfBounds else AttributeIndexOutOfBounds)
      else
        var drawn := DrawCells(c, cells, boxes, y, attributes, 0, |cells|);
        var x := if |cells| == 0 then c.pageMargin else boxes[|cells| - 1].x;
        RowDone(Commit(drawn.session, x, y), drawn.attributes)
  }

  /** A row of cells, opening a new page first if needed. */
  function PrintRow(s: Session, cells: seq<string>, weights: seq<Int32>,
                    attributes: Option<seq<TextAttributes>>): (r: RowOutcome)
    ensures r.session.page.Some?
    ensures SameConfig(r.session, s)
    ensures s.log <= r.session.log
    ensures r.RowDone? <==>
      && |cells| <= |weights|
      && (|cells| == 0 || WeightSum(weights) != 0)
      && (attributes.Some? ==> |cells| <= |attributes.value|)
  {
    RowOnPage(CheckNewPage(s, false).session, cells, weights, attributes)
  }

  // ---------------------------------------------------------------------
  // Font size and configuration
  // ---------------------------------------------------------------------

  /**
   * Changing the text font size as the builder does it: the line height is
   * recomputed and, on an open page, the remaining budget is re-estimated
   * below `usedHeight`, even while that still holds the "no line yet" value.
   */
  function SetTextFontSizeAsWritten(s: Session, size: Int32): (r: Session)
    ensures r.textFontSize == size && r.fontHeight == FontHeight(s.font, size)
    ensures s.page.Some? ==>
      r.availableLines == EstimateMaxLines(s.lineSpace, s.usedHeight - s.lineSpace - s.pageMargin,
                                           FontHeight(s.font, size), 0.0, 0.0)
    ensures s.page.None? ==> r.availableLines == s.availableLines
    ensures r.(textFontSize := s.textFontSize, fontHeight := s.fontHeight, availableLines := s.availableLines) == s
  {
    var fontHeight := FontHeight(s.font, size);
    var r := s.(textFontSize := size, fontHeight := fontHeight);
    if s.page.Some? then
      r.(availableLines := EstimateMaxLines(s.lineSpace, s.usedHeight - s.lineSpace - s.pageMargin, fontHeight, 0.0, 0.0))
    else r
  }

  /**
   * Changing the text font size with the remaining budget of a page that has
   * no line yet taken to be that of a fresh page at the new size.
   */
  function SetTextFontSize(s: Session, size: Int32): (r: Session)
    ensures r.textFontSize == size && r.fontHeight == FontHeight(s.font, size)
    ensures s.page.Some? && s.usedHeight == NoLineYet ==>
      r.availableLines == EstimateMaxLines(s.lineSpace, EffectiveHeight(s.page.value),
                                           FontHeight(s.font, size), s.pageMargin, s.pageMargin)
    ensures s.usedHeight != NoLineYet ==> r == SetTextFontSizeAsWritten(s, size)
    ensures r.(textFontSize := s.textFontSize, fontHeight := s.fontHeight, availableLines := s.availableLines) == s
  {
    if s.page.Some? && s.usedHeight == NoLineYet then
      var fontHeight := FontHeight(s.font, size);
      s.(textFontSize := size, fontHeight := fontHeight,
         availableLines := EstimateMaxLines(s.lineSpace, EffectiveHeight(s.page.value), fontHeight,
                                            s.pageMargin, s.pageMargin))
    else SetTextFontSizeAsWritten(s, size)
  }

  /** The plain configuration setters. */
  datatype Setting =
    | ChangeOrientation(orientation: Orientation)
    | ChangeMargin(margin: real)
    | ChangeLineSpace(lineSpace: real)
    | ChangePageSize(size: PageSize)
    | ChangeOutputPageNumber(on: bool)
    | ChangePageNumberPattern(pattern: string)
    | ChangePageNumberFontSize(fontSize: Int32)
    | ChangePageNumber(number: Int32)

  /** A configuration setter takes effect from the next page or line on and leaves the layout state alone. */
  function Configure(s: Session, setting: Setting): (r: Session)
    ensures r.page == s.page && r.maxLines == s.maxLines && r.availableLines == s.availableLines
    ensures r.curLines == s.curLines && r.usedHeight == s.usedHeight && r.fontHeight == s.fontHeight
    ensures r.textFontSize == s.textFontSize && r.log == s.log && r.font == s.font
    ensures setting.ChangeMargin? ==> r.pageMargin == setting.margin
    ensures setting.ChangeLineSpace? ==> r.lineSpace == setting.lineSpace
    ensures setting.ChangePageNumber? ==> r.pageNumber == setting.number
    ensures !setting.ChangePageNumber? ==> r.pageNumber == s.pageNumber
    ensures setting.ChangeOrientation? ==> r == s.(pageOrientation := setting.orientation)
    ensures setting.ChangeMargin? ==> r == s.(pageMargin := setting.margin)
    ensures setting.ChangeLineSpace? ==> r == s.(lineSpace := setting.lineSpace)
    ensures setting.ChangePageSize? ==> r == s.(pageSize := setting.size)
    ensures setting.ChangeOutputPageNumber? ==> r == s.(outputPageNumber := setting.on)
    ensures setting.ChangePageNumberPattern? ==> r == s.(pageNumberPattern := setting.pattern)
    ensures setting.ChangePageNumberFontSize? ==> r == s.(pageNumberFontSize := setting.fontSize)
    ensures setting.ChangePageNumber? ==> r == s.(pageNumber := setting.number)
  {
    match setting
    case ChangeOrientation(o) => s.(pageOrientation := o)
    case ChangeMargin(m) => s.(pageMargin := m)
    case ChangeLineSpace(l) => s.(lineSpace := l)
    case ChangePageSize(p) => s.(pageSize := p)
    case ChangeOutputPageNumber(on) => s.(outputPageNumber := on)
    case ChangePageNumberPattern(p) => s.(pageNumberPattern := p)
    case ChangePageNumberFontSize(n) => s.(pageNumberFontSize := n)
    case ChangePageNumber(n) => s.(pageNumber := n)
  }
}
