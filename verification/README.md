# PDFBoxPrintln line-flow model

A Dafny model of the layout core of PDFBoxPrintln's `PDFBuilder`. The builder is a thin wrapper
over a PDF renderer that turns `println` calls into text placed line by line on pages, and opens
a new page when the current one is full. The model covers:

- the builder's state: configuration, current page, line budget `maxLines` / `availableLines`,
  lines used `curLines`, and the last baseline `used_height` with its `-1` "no line yet" value;
- the page-break decision `checkNewPage` and the page set-up that follows it, including the
  page number drawn at the foot;
- the text `println`: alignment, next-line baseline, counter updates;
- the row `println`: prorated cell widths, the per-cell drawing loop, its failure modes, and the
  caller's attribute objects it updates;
- `setTextFontSize`, the plain configuration setters, and the background-fill guard of `print`;
- `TextAttributes`, as an immutable record whose setters return the updated record.

The builder's mutable fields become one immutable `Session` record. Every public operation is a
pure function from session to session. Whatever the builder asks the renderer to do is appended
to a draw log of `PageOpened`, `FillRect` and `DrawText` events. Java's `int` is `Int32`, and the
float-to-int cast and integer overflow are written out in `JavaNum`. Geometry is exact `real`.
The font metrics and the page-size table are parameters: they belong to the rendering library.

Files:
- `java_num.dfy`: Java's `int`, its wrap-around, and the float-to-int cast.
- `text_attributes.dfy`: `TextAttributes`.
- `pages.dfy`: `Optional`, plus page sizes and the orientation-corrected dimensions.
- `builder.dfy`: the session and every operation.
- `layout_props.dfy`: the line-budget estimate.
- `pagination.dfy`: counters, line positions, and one text line on a page.
- `flow.dfy`: runs of text lines and table rows, and where they break onto new pages.
- `row_props.dfy`: table rows.
- `drawing_props.dfy`: the draw log of a line and of a new page.
- `font_size_change.dfy`: the font-size change on a page without a line.

Two behaviours of the code are worth stating up front:
- There is no word wrapping. A row draws every cell on one baseline and uses exactly one line.
- A row fails part-way with an index error when it has more cells than weights, or more cells
  than attribute objects. The cells before the failing one are already drawn. A row with fewer
  cells than weights completes: the weight sum runs over all the weights, so its cells cover
  only their share of the drawable width.

## Model

| member | source | states |
|---|---|---|
| JavaNum.Trunc | src/main/java/com/github/momogentoo/pdfboxprintln/core/PDFBuilder.java:234 | the `(int)` cast rounds toward zero: a non-negative quotient gives the largest int not above it, a non-positive one the smallest int not below it |
| JavaNum.FloatToInt | src/main/java/com/github/momogentoo/pdfboxprintln/core/PDFBuilder.java:234 | the cast keeps a truncated value inside the int range and saturates at IntMax or IntMin beyond it |
| JavaNum.DivToInt | src/main/java/com/github/momogentoo/pdfboxprintln/core/PDFBuilder.java:234 | a float quotient cast to int: with a non-zero divisor the saturating cast of the quotient; dividing by zero gives IntMax, IntMin or 0 (for NaN) by the numerator's sign |
| JavaNum.Wrap | src/main/java/com/github/momogentoo/pdfboxprintln/core/PDFBuilder.java:544 | an int increment agrees with the exact result modulo 2^32 and equals it whenever it fits the int range |
| JavaNum.FloatToIntMonotone | src/main/java/com/github/momogentoo/pdfboxprintln/core/PDFBuilder.java:234 | the saturating cast never decreases as its argument grows |
| JavaNum.WrapPastTop | src/main/java/com/github/momogentoo/pdfboxprintln/core/PDFBuilder.java:234 | one past IntMax wraps to IntMin, and one below IntMin wraps to IntMax |
| Attributes.Default | src/main/java/com/github/momogentoo/pdfboxprintln/core/TextAttributes.java:9-20 | the no-argument constructor; its field values are stated by Attributes.DefaultValues |
| Attributes.TextAttributes.SetFontSize | src/main/java/com/github/momogentoo/pdfboxprintln/core/TextAttributes.java:35-38 | the setter sets the font size to the given value and leaves every other field as it was |
| Attributes.TextAttributes.SetFgColor | src/main/java/com/github/momogentoo/pdfboxprintln/core/TextAttributes.java:44-47 | the setter sets the foreground colour and leaves every other field as it was |
| Attributes.TextAttributes.SetBgColor | src/main/java/com/github/momogentoo/pdfboxprintln/core/TextAttributes.java:53-56 | the setter sets the background colour and leaves every other field as it was |
| Attributes.TextAttributes.SetBgWidth | src/main/java/com/github/momogentoo/pdfboxprintln/core/TextAttributes.java:62-65 | the setter sets the background width and leaves every other field as it was |
| Attributes.TextAttributes.SetBgHeight | src/main/java/com/github/momogentoo/pdfboxprintln/core/TextAttributes.java:71-74 | the setter sets the background height and leaves every other field as it was |
| Attributes.TextAttributes.SetAlignment | src/main/java/com/github/momogentoo/pdfboxprintln/core/TextAttributes.java:80-83 | the setter sets the alignment and leaves every other field as it was |
| Attributes.TextAttributes.SetBgX | src/main/java/com/github/momogentoo/pdfboxprintln/core/TextAttributes.java:89-92 | the setter sets the background x and leaves every other field as it was |
| Attributes.TextAttributes.SetBgY | src/main/java/com/github/momogentoo/pdfboxprintln/core/TextAttributes.java:98-101 | the setter sets the background y and leaves every other field as it was |
| Attributes.Make | src/main/java/com/github/momogentoo/pdfboxprintln/core/TextAttributes.java:22-29 | the six-argument constructor sets exactly its six fields and leaves bgX and bgY at the "unset" -1 |
| Attributes.DefaultValues | src/main/java/com/github/momogentoo/pdfboxprintln/core/TextAttributes.java:9-17 | defaults are size 12, black on white, all four geometry fields -1, left aligned, so no background is painted |
| Attributes.DefaultPaintsOnlyWhenFullySet | src/main/java/com/github/momogentoo/pdfboxprintln/core/TextAttributes.java:12-16 | from the defaults, a background is painted if and only if a non-white colour and all four geometry fields have been set to values other than -1 |
| Attributes.MadeNeedsPosition | src/main/java/com/github/momogentoo/pdfboxprintln/core/TextAttributes.java:22-29 | a constructed attribute paints nothing. Once x and y are set to any values, it paints exactly when its colour is not white and none of x, y, width and height is -1 |
| Attributes.LastSetWins | src/main/java/com/github/momogentoo/pdfboxprintln/core/TextAttributes.java:35-101 | for every one of the eight setters, a second set of the same field keeps only the last value, and repeating a set changes nothing |
| Attributes.DistinctSettersCommute | src/main/java/com/github/momogentoo/pdfboxprintln/core/TextAttributes.java:35-101 | any two setters of different fields, over all 28 pairs, commute, so the order inside a fluent chain does not matter |
| Pages.CreatePage | src/main/java/com/github/momogentoo/pdfboxprintln/core/PDFBuilder.java:165-204 | a new page has its size's media box and is rotated by 90 degrees exactly when the orientation is landscape |
| Pages.EffectiveDimensions | src/main/java/com/github/momogentoo/pdfboxprintln/core/PDFBuilder.java:269-295 | effective width and height are the media box's, swapped exactly when the rotation is 90 and unchanged otherwise, including a missing rotation |
| Pages.EffectiveWidth | src/main/java/com/github/momogentoo/pdfboxprintln/core/PDFBuilder.java:286-295 | the page width as laid out: the media box's height on a page rotated by 90, its width otherwise; stated by Pages.EffectiveDimensions |
| Pages.EffectiveHeight | src/main/java/com/github/momogentoo/pdfboxprintln/core/PDFBuilder.java:269-278 | the page height as laid out: the media box's width on a page rotated by 90, its height otherwise; stated by Pages.EffectiveDimensions |
| Pages.CreatedPageDimensions | src/main/java/com/github/momogentoo/pdfboxprintln/core/PDFBuilder.java:199-201 | a landscape page reports its size's height as its width and its size's width as its height; a portrait page reports them as they are |
| Builder.NewSession | src/main/java/com/github/momogentoo/pdfboxprintln/core/PDFBuilder.java:21-71 | a new builder has landscape Letter pages, text size 12, margin 40, line spacing 5, page numbers on with size 6 and pattern "Page Number %d", no page, page number 0, budget and maximum -1, no lines used, cursor and used height 0, an empty log, and the line height of size 12 |
| Builder.FontHeight | src/main/java/com/github/momogentoo/pdfboxprintln/core/PDFBuilder.java:251-253 | the line height of a font at a size: the bounding-box height in thousandths of the size; used by every baseline lemma |
| Builder.StringWidth | src/main/java/com/github/momogentoo/pdfboxprintln/core/PDFBuilder.java:237-239 | the width of a text at a size: its width in thousandths of the size; it places aligned lines and the page number |
| Builder.EstimateMaxLines | src/main/java/com/github/momogentoo/pdfboxprintln/core/PDFBuilder.java:232-235 | the line budget of a height: the float quotient of the height between the margins by one line step, cast to int, plus one with int wrap-around; what it means is stated by LayoutProps.EstimateCapacity and the lemmas after it |
| Builder.NextLineY | src/main/java/com/github/momogentoo/pdfboxprintln/core/PDFBuilder.java:352-364 | the next baseline: from the top margin while the page has no line, else one line step below the last; Pagination.NextLineYOnSteadyPage states that both give the curLines-th line position |
| Builder.Print | src/main/java/com/github/momogentoo/pdfboxprintln/core/PDFBuilder.java:437-463 | drawing one text: a guarded background rectangle, then the text; DrawingProps.PrintPaintsOnlyWhenGuarded states when the rectangle is there |
| Builder.PageNumberEvents | src/main/java/com/github/momogentoo/pdfboxprintln/core/PDFBuilder.java:509-517 | the page number is one black text in the page-number size, half a margin above the bottom edge, centred on the effective width, and nothing else |
| Builder.OpenPage | src/main/java/com/github/momogentoo/pdfboxprintln/core/PDFBuilder.java:536-567 | a new page of the configured size and orientation, numbered one higher, with a fresh page's budget as both maximum and remaining lines, no line used, "no line yet", and the configuration kept. The log gets the page and then, when page numbers are on, the number |
| Builder.ForceNewPage | src/main/java/com/github/momogentoo/pdfboxprintln/core/PDFBuilder.java:523-525 | an explicit break always opens a new page, whatever the state of the current one, with a fresh budget and the configuration kept |
| Builder.AlignX | src/main/java/com/github/momogentoo/pdfboxprintln/core/PDFBuilder.java:397-408 | left text starts at the margin, right text ends at the right margin, centred text has its middle at the page's middle |
| Builder.CheckNewPage | src/main/java/com/github/momogentoo/pdfboxprintln/core/PDFBuilder.java:532-571 | a page is created if and only if forced, absent or out of lines. A new page has the configured size, a page number one higher, 0 lines used, budget and maximum both equal to a fresh page's capacity, "no line yet", and a logged PageOpened. Otherwise the session is unchanged |
| Builder.PrintLine | src/main/java/com/github/momogentoo/pdfboxprintln/core/PDFBuilder.java:391-426 | a text line always leaves an open page, keeps the configuration, only appends to the log, and ends it with its text at the committed cursor. The page number changes only when there was no page or no line left |
| Builder.PrintAligned | src/main/java/com/github/momogentoo/pdfboxprintln/core/PDFBuilder.java:379-381 | a black-on-white line draws no rectangle: the log is what the page-break check left, then just the text at the line's cursor |
| Builder.PrintBlank | src/main/java/com/github/momogentoo/pdfboxprintln/core/PDFBuilder.java:370-372 | an empty line draws only the empty text, at the left margin, on the next baseline |
| Builder.PrintAt | src/main/java/com/github/momogentoo/pdfboxprintln/core/PDFBuilder.java:437-467 | drawing at an absolute position fails exactly when no page is open. Otherwise it appends exactly the drawing of that text in those attributes to the log and changes nothing else |
| Builder.CellAttributes | src/main/java/com/github/momogentoo/pdfboxprintln/core/PDFBuilder.java:333-338 | a cell's attributes take the box's x and width and the row's baseline. The background height is the line height of the attribute's own size, and the size is then overwritten by the session's. Colours and alignment are kept |
| Builder.DrawCells | src/main/java/com/github/momogentoo/pdfboxprintln/core/PDFBuilder.java:319-342 | the drawing loop only appends to the log, changes nothing else in the session, and hands back an attribute array of the same length |
| Builder.RowOnPage | src/main/java/com/github/momogentoo/pdfboxprintln/core/PDFBuilder.java:304-350 | a row completes if and only if the weights cover the cells, the weight sum is non-zero when there are cells, and the attributes (if given) cover the cells. A missing width is reported exactly when the weights run out no later than the attributes, since the width is read first; a missing attribute only when the attributes run out strictly first. The page and configuration are kept |
| Builder.PrintRow | src/main/java/com/github/momogentoo/pdfboxprintln/core/PDFBuilder.java:304-306 | after the page-break check, the same completion condition; the page is always open afterwards |
| Builder.SetTextFontSizeAsWritten | src/main/java/com/github/momogentoo/pdfboxprintln/core/PDFBuilder.java:92-103 | the size and line height are updated. On an open page the budget is re-estimated from the used height minus one spacing and one margin, with no margins. Without a page it is kept. Nothing else changes |
| Builder.SetTextFontSize | src/main/java/com/github/momogentoo/pdfboxprintln/core/PDFBuilder.java:92-103 | corrected setter: on a page with no line yet, the budget is a fresh page's estimate at the new size. Otherwise it behaves exactly like the setter as written |
| Builder.Configure | src/main/java/com/github/momogentoo/pdfboxprintln/core/PDFBuilder.java:77-163 | each of the eight configuration setters changes its own field to the given value and nothing else: the page, counters, used height, line height, font size and log are left alone |
| LayoutProps.EstimateCapacity | src/main/java/com/github/momogentoo/pdfboxprintln/core/PDFBuilder.java:232-235 | with a positive step and a non-negative height, the estimate n is at least 1, and n - 1 whole line steps fit in the height while n do not, when the quotient is below IntMax |
| LayoutProps.EstimateTruncatesTowardZero | src/main/java/com/github/momogentoo/pdfboxprintln/core/PDFBuilder.java:234 | a height short of the margins by less than one step still gives 1 line, because the cast truncates rather than floors |
| LayoutProps.EstimateMonotoneInHeight | src/main/java/com/github/momogentoo/pdfboxprintln/core/PDFBuilder.java:232-235 | more height never gives fewer lines, when the quotient is below IntMax |
| LayoutProps.EstimateAntitoneInFontHeight | src/main/java/com/github/momogentoo/pdfboxprintln/core/PDFBuilder.java:232-235 | a taller line never gives more lines, for a non-negative height, when the quotient is below IntMax |
| LayoutProps.EstimateWrapsWhenSaturated | src/main/java/com/github/momogentoo/pdfboxprintln/core/PDFBuilder.java:234 | a quotient at or past IntMax saturates, and the `+ 1` then wraps the estimate to IntMin |
| Pagination.NewSessionInvariants | src/main/java/com/github/momogentoo/pdfboxprintln/core/PDFBuilder.java:42-71 | a new builder satisfies the counter invariant and its line height matches its font size |
| Pagination.CheckNewPageKeepsCounters | src/main/java/com/github/momogentoo/pdfboxprintln/core/PDFBuilder.java:546-550 | both outcomes of the page-break check keep curLines + availableLines == maxLines |
| Pagination.PrintLineCommits | src/main/java/com/github/momogentoo/pdfboxprintln/core/PDFBuilder.java:420-425 | a text line stays on the page the check left open, records its baseline as the used height and cursor, adds one line used, removes one line left, and keeps the invariant |
| Pagination.ConfigureKeepsCounters | src/main/java/com/github/momogentoo/pdfboxprintln/core/PDFBuilder.java:113-163 | configuration setters keep the counter invariant and the line height current |
| Pagination.NextLineYOnSteadyPage | src/main/java/com/github/momogentoo/pdfboxprintln/core/PDFBuilder.java:352-364 | both ways of computing the next baseline (from the top margin, or one step below the last line) give the curLines-th line position |
| Pagination.OpenedPageIsSteady | src/main/java/com/github/momogentoo/pdfboxprintln/core/PDFBuilder.java:536-567 | a page opened under a configuration whose pages hold at least one line is a steady empty page of that capacity |
| Pagination.CommitOnSteadyPage | src/main/java/com/github/momogentoo/pdfboxprintln/core/PDFBuilder.java:420-425 | committing at the next baseline keeps the page steady, one line further down, on the same page number |
| Pagination.PrintLineOnSteadyPage | src/main/java/com/github/momogentoo/pdfboxprintln/core/PDFBuilder.java:391-426 | with room left, a line goes to the next line position on the same page. On a full page exactly one new page opens and the line goes to its top |
| Flow.StepOnSteadyPage | src/main/java/com/github/momogentoo/pdfboxprintln/core/PDFBuilder.java:304-426 | on a steady page, any text line (whatever its text, colours and alignment) or complete row takes the next line position while there is room, and the top of exactly one new page when the page is full |
| Flow.StaysOnPage | src/main/java/com/github/momogentoo/pdfboxprintln/core/PDFBuilder.java:352-364 | while the page has room, any k lines and complete rows stay on it and move the counters by k. The last sits on line position curLines + k - 1, with lines one `fontHeight + lineSpace` step apart |
| Flow.FullPageThenBreak | src/main/java/com/github/momogentoo/pdfboxprintln/core/PDFBuilder.java:536-550 | from an empty page of N lines, any N lines and complete rows fill it without a break; whatever comes next opens exactly one page and lands on its top line |
| Flow.Paginate | src/main/java/com/github/momogentoo/pdfboxprintln/core/PDFBuilder.java:532-571 | any k lines and complete rows on pages of n lines open p pages and leave c lines on the last, where curLines + k == p * n + c and 1 <= c whenever k > 0 |
| RowProps.ProrateCell | src/main/java/com/github/momogentoo/pdfboxprintln/core/PDFBuilder.java:319-321 | cell j is its weight's share of the drawable width wide, and starts at the margin plus the shares of the cells before it |
| RowProps.ProrateCellClosedForm | src/main/java/com/github/momogentoo/pdfboxprintln/core/PDFBuilder.java:319-341 | cell j's box, computed by the accumulating loop, equals the box from the share of the weights before it |
| RowProps.ProrateLayout | src/main/java/com/github/momogentoo/pdfboxprintln/core/PDFBuilder.java:317-342 | every box is its closed-form box, and consecutive boxes touch without overlapping |
| RowProps.ProratePartitions | src/main/java/com/github/momogentoo/pdfboxprintln/core/PDFBuilder.java:307-320 | when every weight has a cell, the widths add up to exactly the drawable width |
| RowProps.ProrateEndsAtRightMargin | src/main/java/com/github/momogentoo/pdfboxprintln/core/PDFBuilder.java:307-342 | when every weight has a cell, the last cell ends exactly at the right margin |
| RowProps.ProrateWidthSum | src/main/java/com/github/momogentoo/pdfboxprintln/core/PDFBuilder.java:317-341 | the first n boxes together are as wide as the share of the first n weights |
| RowProps.ThirtySeventy | src/main/java/com/github/momogentoo/pdfboxprintln/core/PDFBuilder.java:320 | weights 30 and 70 give 30% and 70% of the width, the second cell starting where the first ends |
| RowProps.SharedDefaultIsFresh | src/main/java/com/github/momogentoo/pdfboxprintln/core/PDFBuilder.java:311-331 | reusing one default attribute object for all cells gives each cell the attributes a fresh default would |
| RowProps.CellPrint | src/main/java/com/github/momogentoo/pdfboxprintln/core/PDFBuilder.java:322-341 | one cell draws a rectangle at its box (x, baseline, box width, line height of the attribute's own size) in its background colour exactly when the fill guard holds, then its text at the box's left edge in the session's size and its foreground colour |
| RowProps.DrawCellsLog | src/main/java/com/github/momogentoo/pdfboxprintln/core/PDFBuilder.java:318-342 | the drawing loop appends exactly the cells' events, in cell order, each from the attribute the caller passed for it, although the loop writes each updated attribute back into the array |
| RowProps.DrawCellsDraws | src/main/java/com/github/momogentoo/pdfboxprintln/core/PDFBuilder.java:319-342 | every cell in the loop's range is drawn by this call: its text, at its box's left edge on the row's baseline, is among the events the call appends |
| RowProps.DrawCellsAttributes | src/main/java/com/github/momogentoo/pdfboxprintln/core/PDFBuilder.java:325-338 | the caller's attribute array comes back with the cells in the loop's range set to their boxes and every other entry untouched |
| RowProps.RowLayout | src/main/java/com/github/momogentoo/pdfboxprintln/core/PDFBuilder.java:304-350 | a well-formed row completes. It appends exactly its cells' events, each cell's text among them at its prorated box on the next line's baseline. The used height is set to that baseline, and each caller attribute is set to its cell's box |
| RowProps.RowUnfold | src/main/java/com/github/momogentoo/pdfboxprintln/core/PDFBuilder.java:317-349 | a well-formed row is its cells drawn at the prorated boxes, then one committed line |
| RowProps.EmptyRow | src/main/java/com/github/momogentoo/pdfboxprintln/core/PDFBuilder.java:309 | a row without cells draws nothing and commits one line at the margin |
| RowProps.PrintRowLayout | src/main/java/com/github/momogentoo/pdfboxprintln/core/PDFBuilder.java:304-342 | the same row layout after the page-break check: the log is whatever the check drew, then exactly the cells' events, on the page it leaves open |
| RowProps.RowFailureKeepsCounters | src/main/java/com/github/momogentoo/pdfboxprintln/core/PDFBuilder.java:319-342 | a row that stops part-way leaves the counters, cursor and page as they were; only drawn cells stay |
| RowProps.RowCommits | src/main/java/com/github/momogentoo/pdfboxprintln/core/PDFBuilder.java:344-349 | a completed row commits exactly one line at the next baseline; the cursor stays at the last cell's start, or the margin for no cells |
| RowProps.PrintRowCommits | src/main/java/com/github/momogentoo/pdfboxprintln/core/PDFBuilder.java:344-349 | a completed row moves the counters by one on the page the check left open and keeps the invariant, as does a failed one |
| RowProps.PrintRowOnSteadyPage | src/main/java/com/github/momogentoo/pdfboxprintln/core/PDFBuilder.java:304-350 | on a steady page a completed row takes the next line position, or the top of exactly one new page when the page is full, just like a text line |
| DrawingProps.PrintPaintsOnlyWhenGuarded | src/main/java/com/github/momogentoo/pdfboxprintln/core/PDFBuilder.java:437-463 | drawing ends with the text at the given position, size and colour; a background rectangle comes first exactly when the fill guard holds |
| DrawingProps.DefaultAttributesPaintNothing | src/main/java/com/github/momogentoo/pdfboxprintln/core/PDFBuilder.java:516 | text in default attributes of any size is drawn black and without a rectangle |
| DrawingProps.PageNumberPlacement | src/main/java/com/github/momogentoo/pdfboxprintln/core/PDFBuilder.java:509-517 | a new page logs the page, then (if page numbers are on) just its number: half a margin up, centred on the effective width, in the page-number size |
| DrawingProps.LineEvents | src/main/java/com/github/momogentoo/pdfboxprintln/core/PDFBuilder.java:391-426 | a text line draws, after any page opening, a rectangle in its background colour spanning the width between the margins at its baseline and one line high (unless the background is white or a geometry value is -1), then its text at its start and baseline in the text size and foreground colour |
| DrawingProps.LinePosition | src/main/java/com/github/momogentoo/pdfboxprintln/core/PDFBuilder.java:391-426 | a text line is committed at its aligned start and on the next line's baseline of the page the check left open |
| DrawingProps.AlignmentPlacement | src/main/java/com/github/momogentoo/pdfboxprintln/core/PDFBuilder.java:397-410 | each alignment places the line as promised. The baseline, page and counters are the same whatever the alignment |
| FontSizeChange.AsWrittenEmptiesFreshPage | src/main/java/com/github/momogentoo/pdfboxprintln/core/PDFBuilder.java:99 | as written, on a page with no line yet and a line height at most margin + 1, the re-estimated budget is at most 0, so the next line opens another page |
| FontSizeChange.LineOnNextPageScenario | src/main/java/com/github/momogentoo/pdfboxprintln/core/PDFBuilder.java:92-103 | as written: new builder, forced page, font size set to 12, one line. The line lands on page 2, and page 1 gets no line (only its page number) |
| FontSizeChange.CorrectedFontChangeOnFreshPage | src/main/java/com/github/momogentoo/pdfboxprintln/core/PDFBuilder.java:92-103 | corrected: on a page with no line yet the budget is that of a fresh page at the new size. When such a page holds a line, the next line goes to the current page's top line |
| FontSizeChange.CorrectedScenario | src/main/java/com/github/momogentoo/pdfboxprintln/core/PDFBuilder.java:92-103 | corrected: the same sequence keeps the line on page 1 |

## Left out

- PDF rendering is not modelled. The document, content streams, page addition, the landscape transformation matrix, `save` and `close` are left out. The draw log records what would be drawn, not how.
- The example program is left out: it is a demo `main` that writes files.
- Font metrics are parameters: the bounding-box height and a string-width function of the `Font` value. Page sizes are parameters too: the `SizeTable` of media boxes. Both are library constants that are not part of this model.
- The page-number text is the pair (pattern, number) rather than the `String.format` result.
- Logging is left out.
- Float rounding is not modelled: geometry uses exact reals. The row width total `totalCellWidth` is the exact integer sum of the weights, not a float accumulation.
- Java `Color` objects are identities (`White`, `Black`, others). The guard's reference comparison is modelled by identity.
- Null arrays and null cells (the null-dereference paths) are not modelled: sequences are never null; only the attribute array may be absent, as `None`.
- Builder.RowOnPage: the same attribute object appearing twice in the array is treated as two separate values, so aliasing is not modelled.
- Builder.RowOnPage: when at least one cell has a weight and the weights sum to zero, the code goes on drawing with infinite or NaN widths. The model instead stops with `ZeroWeightSum` before drawing anything.
- Builder.PrintRow: inherits that stop. Its completion condition requires a non-zero weight sum when there are cells, where the code completes such a row with infinite or NaN boxes.
- Builder.RowOnPage: the code computes each cell's box inside the drawing loop. The model computes all boxes first; the boxes are the same.
- Pagination.CountersAgree: exempts a budget of IntMin, which only a saturated estimate produces, because decrementing it wraps around.
- Pagination.PrintLineOnSteadyPage: requires the page number to be below IntMax, so page-number wrap-around is excluded. The same holds for RowProps.PrintRowOnSteadyPage and for Flow.StepOnSteadyPage, Flow.StaysOnPage and Flow.FullPageThenBreak; Flow.Paginate requires that the page number plus the number of items stays within the int range.
- Builder.SetTextFontSizeAsWritten: `maxLines` is not re-estimated, exactly as in the code. So after a font change on a page that already has lines, `curLines + availableLines == maxLines` no longer holds, and the page-flow lemmas assume no font change since the page opened.
- Getters are not modelled as members: they are the record's fields.

## Findings

| source | as written | input that shows it | evidently intended | confidence | as-written member | corrected member |
|---|---|---|---|---|---|---|
| src/main/java/com/github/momogentoo/pdfboxprintln/core/PDFBuilder.java:99 | `setTextFontSize` re-estimates the remaining lines from `used_height`, even while it still holds the `-1` "no line yet" value. The budget then counts from below the page's bottom edge and comes out at most 0 whenever the line height is at most margin + 1 | new builder, `forceNewPage()`, `setTextFontSize(12)` with a font 1000 units high (line height 12), then `println("x", LEFT)`. The budget is (int)(-46 / 17) + 1 = -1, so the line opens page 2 and page 1 gets no line, only its page number | on a page without a line, measure the remaining lines like a fresh page at the new size | high (not executed) | FontSizeChange.AsWrittenEmptiesFreshPage, FontSizeChange.LineOnNextPageScenario | Builder.SetTextFontSize, FontSizeChange.CorrectedFontChangeOnFreshPage, FontSizeChange.CorrectedScenario |
