/**
 * The per-call text attributes: font size, foreground and background colour,
 * background rectangle geometry and alignment. The source class is a mutable
 * bean whose setters return `this`; here it is an immutable record and each
 * setter returns the updated record, so a fluent chain is a chain of updates.
 */
module Attributes {
  import opened JavaNum

  /**
   * A `java.awt.Color` object. The source compares colours by reference
   * (`!=`), so a colour is its identity: the shared constants `Color.white`
   * and `Color.black`, or some other object told apart by `id`.
   */
  datatype Color = White | Black | OtherColor(id: nat)

  datatype Alignment = Left | Middle | Right

  /** The "not set" value of every background geometry field. */
  const Unset: real := -1.0

  const DefaultFontSize: Int32 := 12

  datatype TextAttributes = Attrs(
    fontSize: Int32,
    fgColor: Color,
    bgColor: Color,
    bgX: real,
    bgY: real,
    bgWidth: real,
    bgHeight: real,
    alignment: Alignment)
  {
    function SetFontSize(n: Int32): (r: TextAttributes)
      ensures r.fontSize == n
      ensures r.(fontSize := fontSize) == this
    {
      this.(fontSize := n)
    }

    function SetFgColor(c: Color): (r: TextAttributes)
      ensures r.fgColor == c
      ensures r.(fgColor := fgColor) == this
    {
      this.(fgColor := c)
    }

    function SetBgColor(c: Color): (r: TextAttributes)
      ensures r.bgColor == c
      ensures r.(bgColor := bgColor) == this
    {
      this.(bgColor := c)
    }

    function SetBgWidth(w: real): (r: TextAttributes)
      ensures r.bgWidth == w
      ensures r.(bgWidth := bgWidth) == this
    {
      this.(bgWidth := w)
    }

    function SetBgHeight(h: real): (r: TextAttributes)
      ensures r.bgHeight == h
      ensures r.(bgHeight := bgHeight) == this
    {
      this.(bgHeight := h)
    }

    function SetAlignment(a: Alignment): (r: TextAttributes)
      ensures r.alignment == a
      ensures r.(alignment := alignment) == this
    {
      this.(alignment := a)
    }

    function SetBgX(x: real): (r: TextAttributes)
      ensures r.bgX == x
      ensures r.(bgX := bgX) == this
    {
      this.(bgX := x)
    }

    function SetBgY(y: real): (r: TextAttributes)
      ensures r.bgY == y
      ensures r.(bgY := bgY) == this
    {
      this.(bgY := y)
    }

    /**
     * The guard in front of the background fill: a rectangle is painted only
     * when the background is not the shared white object and none of the four
     * geometry fields holds the -1 "not set" value.
     */
    predicate PaintsBackground()
    {
      && bgColor != White
      && bgX != Unset
      && bgY != Unset
      && bgHeight != Unset
      && bgWidth != Unset
    }
  }

  /** The no-argument constructor. */
  function Default(): TextAttributes
  {
    Attrs(DefaultFontSize, Black, White, Unset, Unset, Unset, Unset, Left)
  }

  /** The six-argument constructor; `bgX` and `bgY` keep their defaults. */
  function Make(fontSize: Int32, fg: Color, bg: Color, bgWidth: real, bgHeight: real,
                alignment: Alignment): (a: TextAttributes)
    ensures a.fontSize == fontSize && a.fgColor == fg && a.bgColor == bg
    ensures a.bgWidth == bgWidth && a.bgHeight == bgHeight && a.alignment == alignment
    ensures a.bgX == Default().bgX && a.bgY == Default().bgY
  {
    Default().(fontSize := fontSize, fgColor := fg, bgColor := bg,
               bgWidth := bgWidth, bgHeight := bgHeight, alignment := alignment)
  }

  /** The defaults: size 12, black on white, no background geometry, left aligned. */
  lemma DefaultValues()
    ensures Default().fontSize == 12
    ensures Default().fgColor == Black && Default().bgColor == White
    ensures Default().bgX == -1.0 && Default().bgY == -1.0
    ensures Default().bgWidth == -1.0 && Default().bgHeight == -1.0
    ensures Default().alignment == Left
    ensures !Default().PaintsBackground()
  {
  }

  /**
   * Starting from the defaults, the background is painted exactly when a
   * non-white colour and all four geometry fields have been given real values.
   */
  lemma DefaultPaintsOnlyWhenFullySet(c: Color, x: real, y: real, w: real, h: real)
    ensures Default().SetBgColor(c).SetBgX(x).SetBgY(y).SetBgWidth(w).SetBgHeight(h).PaintsBackground()
            <==> c != White && x != -1.0 && y != -1.0 && w != -1.0 && h != -1.0
  {
  }

  /**
   * An attribute made by the six-argument constructor has no position, so it
   * paints nothing; once a position is set it paints exactly when its colour
   * is not white and its position, width and height all differ from -1.
   */
  lemma MadeNeedsPosition(n: Int32, fg: Color, bg: Color, w: real, h: real, al: Alignment, x: real, y: real)
    ensures !Make(n, fg, bg, w, h, al).PaintsBackground()
    ensures Make(n, fg, bg, w, h, al).SetBgX(x).SetBgY(y).PaintsBackground()
            <==> bg != White && x != -1.0 && y != -1.0 && w != -1.0 && h != -1.0
  {
  }

  /** One call of a fluent setter, with its argument. */
  datatype Update =
    | FontSizeTo(n: Int32)
    | FgColorTo(c: Color)
    | BgColorTo(c: Color)
    | BgWidthTo(w: real)
    | BgHeightTo(h: real)
    | AlignmentTo(al: Alignment)
    | BgXTo(x: real)
    | BgYTo(y: real)

  /** Calling the setter an update names. */
  function Apply(a: TextAttributes, u: Update): TextAttributes
  {
    match u
    case FontSizeTo(n) => a.SetFontSize(n)
    case FgColorTo(c) => a.SetFgColor(c)
    case BgColorTo(c) => a.SetBgColor(c)
    case BgWidthTo(w) => a.SetBgWidth(w)
    case BgHeightTo(h) => a.SetBgHeight(h)
    case AlignmentTo(al) => a.SetAlignment(al)
    case BgXTo(x) => a.SetBgX(x)
    case BgYTo(y) => a.SetBgY(y)
  }

  /** True when two updates call the same setter, whatever their arguments. */
  predicate SameField(u: Update, v: Update)
  {
    match u
    case FontSizeTo(_) => v.FontSizeTo?
    case FgColorTo(_) => v.FgColorTo?
    case BgColorTo(_) => v.BgColorTo?
    case BgWidthTo(_) => v.BgWidthTo?
    case BgHeightTo(_) => v.BgHeightTo?
    case AlignmentTo(_) => v.AlignmentTo?
    case BgXTo(_) => v.BgXTo?
    case BgYTo(_) => v.BgYTo?
  }

  /**
   * Setting a field twice keeps the last value, for every one of the eight
   * setters; in particular repeating the same call changes nothing.
   */
  lemma LastSetWins(a: TextAttributes, u: Update, v: Update)
    ensures SameField(u, v) ==> Apply(Apply(a, u), v) == Apply(a, v)
    ensures Apply(Apply(a, u), u) == Apply(a, u)
  {
  }

  /**
   * Any two setters of different fields commute, so the order of the calls
   * inside a fluent chain does not matter.
   */
  lemma DistinctSettersCommute(a: TextAttributes, u: Update, v: Update)
    ensures !SameField(u, v) ==> Apply(Apply(a, u), v) == Apply(Apply(a, v), u)
  {
  }
}
