/**
 * Runs of calls: any sequence of text lines and table rows, each with its
 * own text, colours, alignment or cells, printed one after another on pages
 * of a fixed configuration. Where each lands and when pages break depends
 * only on how many there are.
 */
module Flow {
  import opened JavaNum
  import opened Optional
  import opened Attributes
  import opened Pages
  import opened Builder
  import opened Pagination
  import opened RowProps

  /** One call that consumes a line: a text `println` or a row `println`. */
  datatype Item =
    | TextLine(text: string, fg: Color, bg: Color, alignment: Alignment)
    | TableRow(cells: seq<string>, weights: seq<Int32>, attributes: Option<seq<TextAttributes>>)

  /** A row whose weights and attributes cover its cells, with a non-zero weight sum when it has cells. */
  predicate Completes(item: Item)
  {
    item.TableRow? ==>
      && |item.cells| <= |item.weights|
      && (|item.cells| == 0 || WeightSum(item.weights) != 0)
      && (item.attributes.Some? ==> |item.cells| <= |item.attributes.value|)
  }

  function Step(s: Session, item: Item): Session
  {
    match item
    case TextLine(text, fg, bg, alignment) => PrintLine(s, text, fg, bg, alignment)
    case TableRow(cells, weights, attributes) => PrintRow(s, cells, weights, attributes).session
  }

  /** The items, one after another. */
  function Run(s: Session, items: seq<Item>): Session
    decreases |items|
  {
    if |items| == 0 then s else Run(Step(s, items[0]), items[1..])
  }

  /** A run of a prefix followed by the rest is the run of the whole. */
  lemma {:induction false} RunSplit(s: Session, items: seq<Item>, k: nat)
    requires k <= |items|
    ensures Run(Run(s, items[..k]), items[k..]) == Run(s, items)
    decreases k
  {
    hide Step;
    if k > 0 {
      assert items[..k][0] == items[0];
      assert items[..k][1..] == items[1..][..k - 1];
      assert items[1..][k - 1..] == items[k..];
      RunSplit(Step(s, items[0]), items[1..], k - 1);
    }
  }

  /**
   * Any line or complete row on a steady page of `n` lines: while the page
   * has room it takes the next line position; on a full page exactly one new
   * page is opened and it goes to its top line.
   */
  lemma StepOnSteadyPage(s: Session, n: int, item: Item)
    requires OnSteadyPage(s, n) && Completes(item)
    requires s.pageNumber < IntMax
    ensures var r := Step(s, item);
      && OnSteadyPage(r, n) && SameConfig(r, s) && r.page == s.page
      && (s.curLines < n ==>
            r.pageNumber == s.pageNumber && r.curLines == s.curLines + 1 && r.usedHeight == LineY(s, s.curLines))
      && (s.curLines == n ==>
            r.pageNumber == s.pageNumber + 1 && r.curLines == 1 && r.usedHeight == LineY(s, 0))
  {
    hide PrintLine, PrintRow, LineY, PageCapacity;
    match item
    case TextLine(text, fg, bg, alignment) =>
      PrintLineOnSteadyPage(s, n, text, fg, bg, alignment);
    case TableRow(cells, weights, attributes) =>
      PrintRowOnSteadyPage(s, n, cells, weights, attributes);
  }

  /**
   * As long as the page has room, the items stay on it, the counters advance
   * by their number, and the last of them sits on the line position
   * `curLines + k - 1`: lines step down by `fontHeight + lineSpace`.
   */
  lemma {:induction false} StaysOnPage(s: Session, n: int, items: seq<Item>)
    requires OnSteadyPage(s, n)
    requires forall i :: 0 <= i < |items| ==> Completes(items[i])
    requires s.curLines + |items| <= n
    requires s.pageNumber < IntMax
    ensures var r := Run(s, items);
      && OnSteadyPage(r, n) && SameConfig(r, s)
      && r.page == s.page && r.pageNumber == s.pageNumber
      && r.pageMargin == s.pageMargin && r.fontHeight == s.fontHeight && r.lineSpace == s.lineSpace
      && r.curLines == s.curLines + |items| && r.availableLines == s.availableLines - |items|
      && (0 < |items| ==> r.usedHeight == LineY(s, s.curLines + |items| - 1))
    decreases |items|
  {
    hide Step, LineY, PageCapacity;
    if 0 < |items| {
      var s1 := Step(s, items[0]);
      StepOnSteadyPage(s, n, items[0]);
      StaysOnPage(s1, n, items[1..]);
      if 1 < |items| {
        SameGeometry(s1, s, s.curLines + |items| - 1);
      }
    }
  }

  /**
   * From an empty page that holds `n` lines, any `n` items fill it without a
   * page break, and whatever item comes next opens exactly one new page and
   * lands on its top line.
   */
  lemma FullPageThenBreak(s: Session, n: int, items: seq<Item>)
    requires OnSteadyPage(s, n) && s.curLines == 0
    requires forall i :: 0 <= i < |items| ==> Completes(items[i])
    requires |items| == n + 1
    requires s.pageNumber < IntMax
    ensures var full := Run(s, items[..n]);
      full.pageNumber == s.pageNumber && full.curLines == n && full.availableLines == 0
    ensures var next := Run(s, items);
      next.pageNumber == s.pageNumber + 1 && next.curLines == 1 && next.availableLines == n - 1
      && next.usedHeight == LineY(s, 0)
  {
    hide Step, PageCapacity;
    var first := items[..n];
    assert forall i :: 0 <= i < |first| ==> first[i] == items[i];
    StaysOnPage(s, n, first);
    var full := Run(s, first);
    RunSplit(s, items, n);
    assert items[n..] == [items[n]];
    StepOnSteadyPage(full, n, items[n]);
    var next := Step(full, items[n]);
    assert Run(full, items[n..]) == Run(next, []) == next;
    SameGeometry(full, s, 0);
  }

  lemma ShiftPages(a: int, n: int)
    ensures (a - 1) * n + n == a * n
  {
  }

  /**
   * Any items on pages of `n` lines: starting from `curLines` used, `k` more
   * items open `p` new pages and leave `c` lines on the last one, where
   * `curLines + k == p * n + c` and `1 <= c <= n` (for `k > 0`); that is,
   * `p` and `c` are the quotient and the remainder of the line count by the
   * page budget, shifted so that a full page is not yet a break.
   */
  lemma {:induction false} Paginate(s: Session, n: int, items: seq<Item>)
    requires OnSteadyPage(s, n)
    requires forall i :: 0 <= i < |items| ==> Completes(items[i])
    requires s.pageNumber + |items| <= IntMax
    ensures var r := Run(s, items);
      && OnSteadyPage(r, n)
      && s.pageNumber <= r.pageNumber <= s.pageNumber + |items|
      && s.curLines + |items| == (r.pageNumber - s.pageNumber) * n + r.curLines
      && (0 < |items| ==> 1 <= r.curLines)
    decreases |items|
  {
    hide Step, LineY, PageCapacity;
    if 0 < |items| {
      var s1 := Step(s, items[0]);
      StepOnSteadyPage(s, n, items[0]);
      Paginate(s1, n, items[1..]);
      var r := Run(s1, items[1..]);
      if s.curLines == n {
        ShiftPages(r.pageNumber - s.pageNumber, n);
      }
    }
  }
}
