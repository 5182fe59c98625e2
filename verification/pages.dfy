/** An optional value, standing in for a Java reference that may be null. */
module Optional {
  datatype Option<+T> = None | Some(value: T)
}

/**
 * Pages as the builder sees them: a media box of a configured size and an
 * optional rotation, and the orientation-corrected ("effective") width and
 * height that all layout arithmetic reads.
 */
module Pages {
  import opened Optional

  datatype Orientation = Portrait | Landscape

  datatype PageSize = A0 | A1 | A2 | A3 | A4 | A5 | A6 | Letter

  datatype MediaBox = MediaBox(width: real, height: real)

  /**
   * The rectangle the rendering library defines for each page size. Its
   * values belong to the library and are left as parameters here.
   */
  datatype SizeTable = SizeTable(
    a0: MediaBox, a1: MediaBox, a2: MediaBox, a3: MediaBox,
    a4: MediaBox, a5: MediaBox, a6: MediaBox, letter: MediaBox)

  /** A page: its media box and its rotation in degrees, which may be absent. */
  datatype Page = Page(box: MediaBox, rotation: Option<int>)

  function Lookup(table: SizeTable, size: PageSize): MediaBox
  {
    match size
    case A0 => table.a0
    case A1 => table.a1
    case A2 => table.a2
    case A3 => table.a3
    case A4 => table.a4
    case A5 => table.a5
    case A6 => table.a6
    case Letter => table.letter
  }

  /** True when the page is turned by 90 degrees; a page without a rotation is not. */
  predicate Rotated(page: Page)
  {
    page.rotation == Some(90)
  }

  /** A new page of the given size, rotated by 90 degrees exactly for landscape orientation. */
  function CreatePage(table: SizeTable, size: PageSize, orientation: Orientation): (page: Page)
    ensures page.box == Lookup(table, size)
    ensures Rotated(page) <==> orientation == Landscape
  {
    Page(Lookup(table, size), if orientation == Landscape then Some(90) else None)
  }

  function EffectiveWidth(page: Page): real
  {
    if Rotated(page) then page.box.height else page.box.width
  }

  function EffectiveHeight(page: Page): real
  {
    if Rotated(page) then page.box.width else page.box.height
  }

  /**
   * The effective dimensions are the media box's, swapped when and only when
   * the rotation is 90 degrees.
   */
  lemma EffectiveDimensions(page: Page)
    ensures page.rotation == Some(90) ==>
      EffectiveWidth(page) == page.box.height && EffectiveHeight(page) == page.box.width
    ensures page.rotation != Some(90) ==>
      EffectiveWidth(page) == page.box.width && EffectiveHeight(page) == page.box.height
  {
  }

  /** A created page reports its size's dimensions, swapped for landscape. */
  lemma CreatedPageDimensions(table: SizeTable, size: PageSize, orientation: Orientation)
    ensures var page := CreatePage(table, size, orientation);
      orientation == Landscape ==>
        EffectiveWidth(page) == Lookup(table, size).height && EffectiveHeight(page) == Lookup(table, size).width
    ensures var page := CreatePage(table, size, orientation);
      orientation == Portrait ==>
        EffectiveWidth(page) == Lookup(table, size).width && EffectiveHeight(page) == Lookup(table, size).height
  {
  }
}
