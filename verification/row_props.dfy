/**
 * Properties of table rows: the prorated cell boxes partition the drawable
 * width, a row appends exactly its cells' events, each on the same baseline
 * at its box, and a row consumes exactly one line.
 */
module RowProps {
  import opened JavaNum
  import opened Optional
  import opened Attributes
  import opened Pages
  import opened Builder
  import opened Pagination

  lemma WeightSumStep(ws: seq<Int32>, i: nat)
    requires i < |ws|
    ensures WeightSum(ws[..i + 1]) == WeightSum(ws[..i]) + ws[i]
  {
    assert ws[..i + 1][..i] == ws[..i];
  }

  /** Shares of one total over one weight sum add up like the weights. */
  lemma ShareAdd(total: real, a: int, b: int, sum: real)
    requires sum != 0.0
    ensures Share(total, a, sum) + Share(total, b, sum) == Share(total, a + b, sum)
  {
    calc {
      Share(total, a, sum) + Share(total, b, sum);
      total * a as real / sum + total * b as real / sum;
      (total * a as real + total * b as real) / sum;
      { assert total * a as real + total * b as real == total * (a + b) as real; }
      total * (a + b) as real / sum;
    }
  }

  /** The shares of cells `i` to `k - 1` of a total divided over `sum`, added up front to back. */
  function ShareSum(total: real, weights: seq<Int32>, sum: real, i: nat, k: nat): real
    requires i <= k <= |weights|
    requires sum != 0.0
    decreases k - i
  {
    if i == k then 0.0 else Share(total, weights[i], sum) + ShareSum(total, weights, sum, i + 1, k)
  }

  /** Adding the next cell's share at the back. */
  lemma {:induction false} ShareSumAppend(total: real, weights: seq<Int32>, sum: real, i: nat, k: nat)
    requires i <= k < |weights|
    requires sum != 0.0
    ensures ShareSum(total, weights, sum, i, k + 1) == ShareSum(total, weights, sum, i, k) + Share(total, weights[k], sum)
    decreases k - i
  {
    if i < k {
      ShareSumAppend(total, weights, sum, i + 1, k);
    }
  }

  /** The shares of the first `k` cells are the share of the first `k` weights' sum. */
  lemma {:induction false} ShareSumClosedForm(total: real, weights: seq<Int32>, sum: real, k: nat)
    requires k <= |weights|
    requires sum != 0.0
    ensures ShareSum(total, weights, sum, 0, k) == Share(total, WeightSum(weights[..k]), sum)
  {
    if k == 0 {
      assert weights[..0] == [];
    } else {
      ShareSumClosedForm(total, weights, sum, k - 1);
      ShareSumAppend(total, weights, sum, 0, k - 1);
      WeightSumStep(weights, k - 1);
      ShareAdd(total, WeightSum(weights[..k - 1]), weights[k - 1], sum);
    }
  }

  /** Cell `k`'s box, from the prorating loop run from cell `i` on, is cell `k`'s share of the total. */
  lemma {:induction false} ProrateFromWidth(total: real, margin: real, weights: seq<Int32>, sum: real,
                                            n: nat, i: nat, taken: real, k: nat)
    requires i <= k < n <= |weights|
    requires sum != 0.0
    ensures ProrateFrom(total, margin, weights, sum, n, i, taken)[k - i].width == Share(total, weights[k], sum)
    decreases k - i
  {
    var boxes := ProrateFrom(total, margin, weights, sum, n, i, taken);
    var width := Share(total, weights[i], sum);
    var rest := ProrateFrom(total, margin, weights, sum, n, i + 1, taken + width);
    assert boxes == [CellBox(margin + taken, width)] + rest;
    if i < k {
      ProrateFromWidth(total, margin, weights, sum, n, i + 1, taken + width, k);
      assert boxes[k - i] == rest[k - (i + 1)];
    }
  }

  /**
   * Cell `k`'s box, from the prorating loop run from cell `i` on, starts at
   * `margin + taken` plus the shares of cells `i` to `k - 1`.
   */
  lemma {:induction false} ProrateFromPosition(total: real, margin: real, weights: seq<Int32>, sum: real,
                                               n: nat, i: nat, taken: real, k: nat)
    requires i <= k < n <= |weights|
    requires sum != 0.0
    ensures ProrateFrom(total, margin, weights, sum, n, i, taken)[k - i].x
         == margin + taken + ShareSum(total, weights, sum, i, k)
    decreases k - i
  {
    var boxes := ProrateFrom(total, margin, weights, sum, n, i, taken);
    var width := Share(total, weights[i], sum);
    var rest := ProrateFrom(total, margin, weights, sum, n, i + 1, taken + width);
    assert boxes == [CellBox(margin + taken, width)] + rest;
    if i < k {
      ProrateFromPosition(total, margin, weights, sum, n, i + 1, taken + width, k);
      assert boxes[k - i] == rest[k - (i + 1)];
    }
  }

  /** Cell `j` of a row: its box is its weight's share wide and starts after the shares of the cells before it. */
  lemma ProrateCell(total: real, margin: real, weights: seq<Int32>, sum: real, n: nat, j: nat)
    requires j < n <= |weights|
    requires sum != 0.0
    ensures var boxes := Prorate(total, margin, weights, sum, n);
      && boxes[j].width == Share(total, weights[j], sum)
      && boxes[j].x == margin + ShareSum(total, weights, sum, 0, j)
  {
    ProrateFromWidth(total, margin, weights, sum, n, 0, 0.0, j);
    ProrateFromPosition(total, margin, weights, sum, n, 0, 0.0, j);
  }

  /**
   * The box a cell gets by the closed form: its weight's share of the total
   * wide, starting at the margin plus the share of the weights before it.
   */
  function ShareBox(total: real, margin: real, weights: seq<Int32>, sum: real, j: nat): CellBox
    requires j < |weights|
    requires sum != 0.0
  {
    CellBox(margin + Share(total, WeightSum(weights[..j]), sum), Share(total, weights[j], sum))
  }

  lemma ProrateCellClosedForm(total: real, margin: real, weights: seq<Int32>, sum: real, n: nat, j: nat)
    requires j < n <= |weights|
    requires sum != 0.0
    ensures Prorate(total, margin, weights, sum, n)[j] == ShareBox(total, margin, weights, sum, j)
  {
    ProrateCell(total, margin, weights, sum, n, j);
    ShareSumClosedForm(total, weights, sum, j);
  }

  lemma ProrateAdjacent(total: real, margin: real, weights: seq<Int32>, sum: real, n: nat, j: nat)
    requires j + 1 < n <= |weights|
    requires sum != 0.0
    ensures var boxes := Prorate(total, margin, weights, sum, n);
      boxes[j + 1].x == boxes[j].x + boxes[j].width
  {
    ProrateCell(total, margin, weights, sum, n, j);
    ProrateCell(total, margin, weights, sum, n, j + 1);
    ShareSumAppend(total, weights, sum, 0, j);
  }

  /**
   * The row's boxes are the closed-form boxes: cell `j` is its weight's share
   * wide and starts at the margin plus the share of the weights before it,
   * so consecutive boxes touch and never overlap.
   */
  lemma ProrateLayout(total: real, margin: real, weights: seq<Int32>, sum: real, n: nat)
    requires n <= |weights|
    requires sum != 0.0
    ensures var boxes := Prorate(total, margin, weights, sum, n);
      forall j :: 0 <= j < n ==> boxes[j] == ShareBox(total, margin, weights, sum, j)
    ensures var boxes := Prorate(total, margin, weights, sum, n);
      forall j :: 0 <= j < n - 1 ==> boxes[j + 1].x == boxes[j].x + boxes[j].width
  {
    forall j: nat | j < n {
      ProrateCellClosedForm(total, margin, weights, sum, n, j);
    }
    forall j: nat | j < n - 1 {
      ProrateAdjacent(total, margin, weights, sum, n, j);
    }
  }

  /** The summed widths of a row's boxes. */
  function WidthSum(boxes: seq<CellBox>): real
  {
    if |boxes| == 0 then 0.0 else WidthSum(boxes[..|boxes| - 1]) + boxes[|boxes| - 1].width
  }

  /** The first `m` of a row's boxes together are as wide as the shares of the first `m` cells. */
  lemma {:induction false} WidthSumIsShareSum(total: real, margin: real, weights: seq<Int32>, sum: real, n: nat, m: nat)
    requires m <= n <= |weights|
    requires sum != 0.0
    ensures WidthSum(Prorate(total, margin, weights, sum, n)[..m]) == ShareSum(total, weights, sum, 0, m)
    ensures m == n ==> WidthSum(Prorate(total, margin, weights, sum, n)) == ShareSum(total, weights, sum, 0, m)
  {
    var boxes := Prorate(total, margin, weights, sum, n);
    if m > 0 {
      WidthSumIsShareSum(total, margin, weights, sum, n, m - 1);
      assert boxes[..m][..m - 1] == boxes[..m - 1];
      ProrateCell(total, margin, weights, sum, n, m - 1);
      ShareSumAppend(total, weights, sum, 0, m - 1);
    }
    assert boxes[..n] == boxes;
  }

  /** A weight equal to the whole weight sum takes the whole total. */
  lemma WholeShare(total: real, a: int, sum: real)
    requires sum != 0.0 && a as real == sum
    ensures Share(total, a, sum) == total
  {
  }

  /** The boxes of the first `n` cells together are as wide as the share of the first `n` weights. */
  lemma ProrateWidthSum(total: real, margin: real, weights: seq<Int32>, sum: real, n: nat)
    requires n <= |weights|
    requires sum != 0.0
    ensures WidthSum(Prorate(total, margin, weights, sum, n)) == Share(total, WeightSum(weights[..n]), sum)
  {
    WidthSumIsShareSum(total, margin, weights, sum, n, n);
    ShareSumClosedForm(total, weights, sum, n);
  }

  /** The shares of all cells add up to the whole total when `sum` is the weights' sum. */
  lemma AllShares(total: real, weights: seq<Int32>, sum: real)
    requires sum != 0.0 && sum == WeightSum(weights) as real
    ensures ShareSum(total, weights, sum, 0, |weights|) == total
  {
    var n := |weights|;
    ShareSumClosedForm(total, weights, sum, n);
    assert weights[..n] == weights;
    WholeShare(total, WeightSum(weights[..n]), sum);
  }

  /**
   * When every weight has a cell and `sum` is the weights' sum, the boxes
   * fill the total width exactly: their widths add up to `total`.
   */
  lemma ProratePartitions(total: real, margin: real, weights: seq<Int32>, sum: real)
    requires sum != 0.0 && sum == WeightSum(weights) as real
    ensures WidthSum(Prorate(total, margin, weights, sum, |weights|)) == total
  {
    WidthSumIsShareSum(total, margin, weights, sum, |weights|, |weights|);
    AllShares(total, weights, sum);
  }

  /** The last of `n` boxes ends after the shares of all `n` cells. */
  lemma ProrateLastEnd(total: real, margin: real, weights: seq<Int32>, sum: real, n: nat)
    requires 0 < n <= |weights|
    requires sum != 0.0
    ensures var last := Prorate(total, margin, weights, sum, n)[n - 1];
      last.x + last.width == margin + ShareSum(total, weights, sum, 0, n)
  {
    ProrateCell(total, margin, weights, sum, n, n - 1);
    ShareSumAppend(total, weights, sum, 0, n - 1);
  }

  /** ... and the last box ends exactly at the right margin, `margin + total`. */
  lemma ProrateEndsAtRightMargin(total: real, margin: real, weights: seq<Int32>, sum: real)
    requires sum != 0.0 && sum == WeightSum(weights) as real
    requires 0 < |weights|
    ensures var last := Prorate(total, margin, weights, sum, |weights|)[|weights| - 1];
      last.x + last.width == margin + total
  {
    ProrateLastEnd(total, margin, weights, sum, |weights|);
    AllShares(total, weights, sum);
  }

  /** Weights 30 and 70 give the first cell 30% and the second 70% of the width, the second starting where the first ends. */
  lemma ThirtySeventy(total: real, margin: real)
    ensures Prorate(total, margin, [30, 70], 100.0, 2)
         == [CellBox(margin, 0.3 * total), CellBox(margin + 0.3 * total, 0.7 * total)]
  {
    var weights: seq<Int32> := [30, 70];
    var boxes := Prorate(total, margin, weights, 100.0, 2);
    assert boxes[0] == CellBox(margin, 0.3 * total) by {
      ProrateCellClosedForm(total, margin, weights, 100.0, 2, 0);
      assert weights[..0] == [];
    }
    assert boxes[1] == CellBox(margin + 0.3 * total, 0.7 * total) by {
      ProrateCellClosedForm(total, margin, weights, 100.0, 2, 1);
      assert weights[..1] == [30];
      assert WeightSum([30]) == 30;
    }
  }

  /**
   * Reusing one default attribute object for every cell, as the builder
   * does when the caller passes none, gives each cell the same attributes as
   * a fresh default would: every field it carries over is overwritten.
   */
  lemma SharedDefaultIsFresh(a: TextAttributes, box: CellBox, y: real, font: Font, textFontSize: Int32)
    requires a.fgColor == Black && a.bgColor == White && a.alignment == Left
    ensures CellAttributes(a.SetFontSize(textFontSize), box, y, font, textFontSize)
         == CellAttributes(DefaultCellAttributes(textFontSize), box, y, font, textFontSize)
  {
  }

  /**
   * What drawing cells `i` to `m - 1` amounts to, cell after cell, each
   * from the attribute the caller passed for it (or the default): a
   * reference for the drawing loop, which instead threads the updated
   * attribute array and the session through its iterations.
   */
  function CellPrints(font: Font, size: Int32, cells: seq<string>, boxes: seq<CellBox>, y: real,
                      attributes: Option<seq<TextAttributes>>, i: nat, m: nat): seq<Event>
    requires i <= m <= |cells| && m <= |boxes|
    decreases m - i
  {
    if i == m then []
    else
      Print(boxes[i].x, y, Text(cells[i]), CellAttributes(SourceAttributes(attributes, i, size), boxes[i], y, font, size))
      + CellPrints(font, size, cells, boxes, y, attributes, i + 1, m)
  }

  /**
   * One cell's events: a rectangle at its box (x, baseline, box width, the
   * line height of the attribute's own font size) in its background colour
   * when the fill guard holds, then its text at the box's left edge on the
   * baseline, in the session's size and the attribute's foreground colour.
   */
  lemma CellPrint(font: Font, size: Int32, cell: string, box: CellBox, y: real, src: TextAttributes)
    ensures var height := FontHeight(font, src.fontSize);
      var painted := src.bgColor != White && box.x != Unset && y != Unset && height != Unset && box.width != Unset;
      Print(box.x, y, Text(cell), CellAttributes(src, box, y, font, size))
        == (if painted then [FillRect(box.x, y, box.width, height, src.bgColor)] else [])
           + [DrawText(box.x, y, size, src.fgColor, Text(cell))]
  {
  }

  /** Cells whose source attributes agree are drawn alike. */
  lemma {:induction false} CellPrintsFrame(font: Font, size: Int32, cells: seq<string>, boxes: seq<CellBox>, y: real,
                                           a1: Option<seq<TextAttributes>>, a2: Option<seq<TextAttributes>>, i: nat, m: nat)
    requires i <= m <= |cells| && m <= |boxes|
    requires forall j :: i <= j < m ==> SourceAttributes(a1, j, size) == SourceAttributes(a2, j, size)
    ensures CellPrints(font, size, cells, boxes, y, a1, i, m) == CellPrints(font, size, cells, boxes, y, a2, i, m)
    decreases m - i
  {
    if i < m {
      CellPrintsFrame(font, size, cells, boxes, y, a1, a2, i + 1, m);
    }
  }

  /** Every cell of the range has its text among the range's events. */
  lemma {:induction false} CellPrintsDraws(font: Font, size: Int32, cells: seq<string>, boxes: seq<CellBox>, y: real,
                                           attributes: Option<seq<TextAttributes>>, i: nat, m: nat)
    requires i <= m <= |cells| && m <= |boxes|
    ensures forall j :: i <= j < m ==>
      DrawText(boxes[j].x, y, size, SourceAttributes(attributes, j, size).fgColor, Text(cells[j]))
        in CellPrints(font, size, cells, boxes, y, attributes, i, m)
    decreases m - i
  {
    if i < m {
      var head := Print(boxes[i].x, y, Text(cells[i]),
                        CellAttributes(SourceAttributes(attributes, i, size), boxes[i], y, font, size));
      var rest := CellPrints(font, size, cells, boxes, y, attributes, i + 1, m);
      assert CellPrints(font, size, cells, boxes, y, attributes, i, m) == head + rest;
      assert head[|head| - 1] == DrawText(boxes[i].x, y, size, SourceAttributes(attributes, i, size).fgColor, Text(cells[i]));
      CellPrintsDraws(font, size, cells, boxes, y, attributes, i + 1, m);
      forall j | i <= j < m
        ensures DrawText(boxes[j].x, y, size, SourceAttributes(attributes, j, size).fgColor, Text(cells[j])) in head + rest
      {
        if j == i {
          assert (head + rest)[|head| - 1] == head[|head| - 1];
        } else {
          var e := DrawText(boxes[j].x, y, size, SourceAttributes(attributes, j, size).fgColor, Text(cells[j]));
          var k :| 0 <= k < |rest| && rest[k] == e;
          assert (head + rest)[|head| + k] == e;
        }
      }
    }
  }

  /**
   * The drawing loop appends exactly the reference events of its range to
   * the log: even though it writes each updated attribute back into the
   * array, a later cell is drawn from the attribute the caller passed.
   */
  lemma {:induction false} DrawCellsLog(s: Session, cells: seq<string>, boxes: seq<CellBox>, y: real,
                                        attributes: Option<seq<TextAttributes>>, i: nat, m: nat)
    requires i <= m <= |cells| && m <= |boxes|
    requires attributes.Some? ==> m <= |attributes.value|
    ensures DrawCells(s, cells, boxes, y, attributes, i, m).session.log
            == s.log + CellPrints(s.font, s.textFontSize, cells, boxes, y, attributes, i, m)
    decreases m - i
  {
    hide Print, CellAttributes, FontHeight, StringWidth, EstimateMaxLines;
    if i < m {
      var a := CellAttributes(SourceAttributes(attributes, i, s.textFontSize), boxes[i], y, s.font, s.textFontSize);
      var head := Print(boxes[i].x, y, Text(cells[i]), a);
      var s' := s.(log := s.log + head);
      var attributes' := if attributes.Some? then Some(attributes.value[i := a]) else None;
      assert DrawCells(s, cells, boxes, y, attributes, i, m) == DrawCells(s', cells, boxes, y, attributes', i + 1, m);
      var rest := CellPrints(s.font, s.textFontSize, cells, boxes, y, attributes, i + 1, m);
      assert CellPrints(s.font, s.textFontSize, cells, boxes, y, attributes, i, m) == head + rest;
      {
        hide DrawCells, CellPrints;
        forall j | i + 1 <= j < m
          ensures SourceAttributes(attributes', j, s.textFontSize) == SourceAttributes(attributes, j, s.textFontSize)
        {
        }
        CellPrintsFrame(s.font, s.textFontSize, cells, boxes, y, attributes', attributes, i + 1, m);
        DrawCellsLog(s', cells, boxes, y, attributes', i + 1, m);
        assert s.log + head + rest == s.log + (head + rest);
      }
    }
  }

  /**
   * Every cell of the drawing loop's range is drawn, at its box's left edge,
   * on the common baseline, by this call: its text is among the events the
   * call appends.
   */
  lemma DrawCellsDraws(s: Session, cells: seq<string>, boxes: seq<CellBox>, y: real,
                       attributes: Option<seq<TextAttributes>>, i: nat, m: nat)
    requires i <= m <= |cells| && m <= |boxes|
    requires attributes.Some? ==> m <= |attributes.value|
    ensures var r := DrawCells(s, cells, boxes, y, attributes, i, m);
      forall j :: i <= j < m ==>
        DrawText(boxes[j].x, y, s.textFontSize, SourceAttributes(attributes, j, s.textFontSize).fgColor,
                 Text(cells[j])) in r.session.log[|s.log|..]
  {
    var r := DrawCells(s, cells, boxes, y, attributes, i, m);
    DrawCellsLog(s, cells, boxes, y, attributes, i, m);
    CellPrintsDraws(s.font, s.textFontSize, cells, boxes, y, attributes, i, m);
    assert r.session.log[|s.log|..] == CellPrints(s.font, s.textFontSize, cells, boxes, y, attributes, i, m);
  }

  /**
   * The drawing loop hands back the caller's attributes with exactly the
   * cells of its range updated to their boxes; the others are untouched.
   */
  lemma {:induction false} DrawCellsAttributes(s: Session, cells: seq<string>, boxes: seq<CellBox>, y: real,
                                               attributes: Option<seq<TextAttributes>>, i: nat, m: nat)
    requires i <= m <= |cells| && m <= |boxes|
    requires attributes.Some? ==> m <= |attributes.value|
    ensures var r := DrawCells(s, cells, boxes, y, attributes, i, m);
      attributes.Some? ==> forall j :: 0 <= j < |attributes.value| ==>
        r.attributes.value[j] ==
          if i <= j < m then CellAttributes(attributes.value[j], boxes[j], y, s.font, s.textFontSize)
          else attributes.value[j]
    decreases m - i
  {
    if i < m && attributes.Some? {
      var a := CellAttributes(SourceAttributes(attributes, i, s.textFontSize), boxes[i], y, s.font, s.textFontSize);
      var s' := s.(log := s.log + Print(boxes[i].x, y, Text(cells[i]), a));
      var attributes' := Some(attributes.value[i := a]);
      var r := DrawCells(s', cells, boxes, y, attributes', i + 1, m);
      assert DrawCells(s, cells, boxes, y, attributes, i, m) == r;
      DrawCellsAttributes(s', cells, boxes, y, attributes', i + 1, m);
    }
  }

  /**
   * A row whose weights cover its cells, whose weights do not sum to zero
   * and whose attributes (if any) cover its cells is printed completely: it
   * appends exactly the events of its cells, each drawn at its prorated box
   * on the baseline of the next line, and the caller's attributes come back
   * carrying each cell's box, with the background height taken from the
   * attribute's own font size. Where the boxes lie is `ProrateLayout`'s
   * business.
   */
  lemma RowLayout(c: Session, cells: seq<string>, weights: seq<Int32>, attributes: Option<seq<TextAttributes>>)
    requires c.page.Some?
    requires |cells| <= |weights| && WeightSum(weights) != 0
    requires attributes.Some? ==> |cells| <= |attributes.value|
    ensures var y := NextLineY(c);
      var boxes := Prorate(EffectiveWidth(c.page.value) - c.pageMargin * 2.0, c.pageMargin, weights,
                           WeightSum(weights) as real, |weights|);
      var r := RowOnPage(c, cells, weights, attributes);
      && r.RowDone?
      && r.session.usedHeight == y
      && r.session.log == c.log + CellPrints(c.font, c.textFontSize, cells, boxes, y, attributes, 0, |cells|)
      && (forall j :: 0 <= j < |cells| ==>
            DrawText(boxes[j].x, y, c.textFontSize, SourceAttributes(attributes, j, c.textFontSize).fgColor,
                     Text(cells[j])) in r.session.log[|c.log|..])
      && (attributes.Some? ==> forall j :: 0 <= j < |cells| ==>
            r.attributes.value[j] == CellAttributes(attributes.value[j], boxes[j], y, c.font, c.textFontSize))
  {
    hide Share, NextLineY, Prorate, DrawCells, FontHeight, StringWidth, EstimateMaxLines, CellPrints;
    RowUnfold(c, cells, weights, attributes);
    var boxes := Prorate(EffectiveWidth(c.page.value) - c.pageMargin * 2.0, c.pageMargin, weights,
                         WeightSum(weights) as real, |weights|);
    var r := RowOnPage(c, cells, weights, attributes);
    DrawCellsLog(c, cells, boxes, NextLineY(c), attributes, 0, |cells|);
    CellPrintsDraws(c.font, c.textFontSize, cells, boxes, NextLineY(c), attributes, 0, |cells|);
    assert r.session.log[|c.log|..] == CellPrints(c.font, c.textFontSize, cells, boxes, NextLineY(c), attributes, 0, |cells|);
    DrawCellsAttributes(c, cells, boxes, NextLineY(c), attributes, 0, |cells|);
  }

  /** A complete row is the cells drawn at the prorated boxes, then one committed line. */
  lemma RowUnfold(c: Session, cells: seq<string>, weights: seq<Int32>, attributes: Option<seq<TextAttributes>>)
    requires c.page.Some?
    requires |cells| <= |weights| && WeightSum(weights) != 0
    requires attributes.Some? ==> |cells| <= |attributes.value|
    ensures var boxes := Prorate(EffectiveWidth(c.page.value) - c.pageMargin * 2.0, c.pageMargin, weights,
                                 WeightSum(weights) as real, |weights|);
      var d := DrawCells(c, cells, boxes, NextLineY(c), attributes, 0, |cells|);
      var x := if |cells| == 0 then c.pageMargin else boxes[|cells| - 1].x;
      RowOnPage(c, cells, weights, attributes) == RowDone(Commit(d.session, x, NextLineY(c)), d.attributes)
  {
    hide NextLineY, Prorate, DrawCells, Commit, Share, FontHeight, StringWidth, EstimateMaxLines, CellPrints, OpenPage;
    assert Min(|cells|, |weights|) == |cells|;
    assert attributes.Some? ==> Min(|cells|, |attributes.value|) == |cells|;
  }

  /** A row without cells draws nothing and commits one line at the margin. */
  lemma EmptyRow(c: Session, weights: seq<Int32>, attributes: Option<seq<TextAttributes>>)
    requires c.page.Some?
    ensures RowOnPage(c, [], weights, attributes) == RowDone(Commit(c, c.pageMargin, NextLineY(c)), attributes)
  {
  }

  /**
   * The same for a row printed after the page-break check: its cells' events
   * come after whatever opening a page drew, on the page that check leaves
   * open.
   */
  lemma PrintRowLayout(s: Session, cells: seq<string>, weights: seq<Int32>, attributes: Option<seq<TextAttributes>>)
    requires |cells| <= |weights| && WeightSum(weights) != 0
    requires attributes.Some? ==> |cells| <= |attributes.value|
    ensures var c := CheckNewPage(s, false).session;
      var boxes := Prorate(EffectiveWidth(c.page.value) - c.pageMargin * 2.0, c.pageMargin, weights,
                           WeightSum(weights) as real, |weights|);
      var r := PrintRow(s, cells, weights, attributes);
      && r.RowDone?
      && r.session.usedHeight == NextLineY(c)
      && r.session.log == c.log + CellPrints(c.font, c.textFontSize, cells, boxes, NextLineY(c), attributes, 0, |cells|)
      && (forall j :: 0 <= j < |cells| ==>
            DrawText(boxes[j].x, NextLineY(c), c.textFontSize, SourceAttributes(attributes, j, c.textFontSize).fgColor,
                     Text(cells[j])) in r.session.log[|c.log|..])
  {
    hide Share, EstimateMaxLines, FontHeight, StringWidth, RowOnPage, Prorate, NextLineY, DrawCells, OpenPage, Commit, CellPrints;
    RowLayout(CheckNewPage(s, false).session, cells, weights, attributes);
  }

  /** A row that stops part-way leaves the line counters and the page exactly as it found them. */
  lemma RowFailureKeepsCounters(c: Session, cells: seq<string>, weights: seq<Int32>,
                                attributes: Option<seq<TextAttributes>>)
    requires c.page.Some?
    ensures var r := RowOnPage(c, cells, weights, attributes);
      r.RowFailed? ==> r.session == c.(log := r.session.log)
  {
  }

  /**
   * A completed row commits exactly one line at the next line position,
   * like a single text line, and leaves the horizontal position at the
   * start of its last cell (at the margin for a row without cells).
   */
  lemma RowCommits(c: Session, cells: seq<string>, weights: seq<Int32>, attributes: Option<seq<TextAttributes>>)
    requires c.page.Some?
    ensures var r := RowOnPage(c, cells, weights, attributes);
      r.RowDone? ==>
        && r.session == Commit(c.(log := r.session.log), r.session.curX, NextLineY(c))
        && (|cells| == 0 ==> r.session.curX == c.pageMargin)
        && (0 < |cells| ==> r.session.curX == Prorate(EffectiveWidth(c.page.value) - c.pageMargin * 2.0, c.pageMargin,
                                                      weights, WeightSum(weights) as real, |weights|)[|cells| - 1].x)
  {
    var r := RowOnPage(c, cells, weights, attributes);
    if r.RowDone? && 0 < |cells| {
      RowUnfold(c, cells, weights, attributes);
    }
  }

  /** Completed rows advance the counters by one and keep them consistent. */
  lemma PrintRowCommits(s: Session, cells: seq<string>, weights: seq<Int32>, attributes: Option<seq<TextAttributes>>)
    requires CountersAgree(s)
    ensures var c := CheckNewPage(s, false).session;
      var r := PrintRow(s, cells, weights, attributes);
      && CountersAgree(r.session)
      && (r.RowDone? ==>
            && r.session.page == c.page && r.session.pageNumber == c.pageNumber
            && r.session.usedHeight == r.session.curY == NextLineY(c)
            && (c.maxLines != IntMin ==>
                  r.session.curLines == c.curLines + 1 && r.session.availableLines == c.availableLines - 1))
  {
    var checked := CheckNewPage(s, false);
    var c := checked.session;
    CheckNewPageKeepsCounters(s, false);
    RowFailureKeepsCounters(c, cells, weights, attributes);
    RowCommits(c, cells, weights, attributes);
    if c.maxLines != IntMin && !checked.created {
      assert 0 < c.availableLines;
      assert c.curLines + 1 <= IntMax;
    }
  }

  /** On a steady page a completed row moves down one line position, exactly like a text line. */
  lemma PrintRowOnSteadyPage(s: Session, n: int, cells: seq<string>, weights: seq<Int32>,
                             attributes: Option<seq<TextAttributes>>)
    requires OnSteadyPage(s, n)
    requires s.pageNumber < IntMax
    requires PrintRow(s, cells, weights, attributes).RowDone?
    ensures var r := PrintRow(s, cells, weights, attributes).session;
      && OnSteadyPage(r, n)
      && (s.curLines < n ==>
            r.pageNumber == s.pageNumber && r.curLines == s.curLines + 1 && r.usedHeight == LineY(s, s.curLines))
      && (s.curLines == n ==>
            r.pageNumber == s.pageNumber + 1 && r.curLines == 1 && r.usedHeight == LineY(s, 0))
  {
    var c := CheckNewPage(s, false).session;
    if s.curLines == n {
      OpenedPageIsSteady(s, false);
    }
    var r := RowOnPage(c, cells, weights, attributes);
    RowCommits(c, cells, weights, attributes);
    CommitOnSteadyPage(c, n, r.session.log, r.session.curX);
  }
}
