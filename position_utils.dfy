/** Conversion between grid units and pixels, and the reading of an
    element's position and size from either of its two storage shapes. */
module PositionUtils {
  import opened Wrappers

  datatype Point = Point(x: int, y: int)
  datatype Size = Size(width: int, height: int)

  /** A garden element. Its position and size are stored either nested
      (`position`, `dimensions`) or flat (`x`/`y`, `width`/`height`); every
      field may be absent. Coordinates and sizes are in grid units. */
  datatype Element = Element(
    id: Option<string>,
    elementType: Option<string>,
    name: Option<string>,
    color: Option<string>,
    fill: Option<string>,
    locked: Option<bool>,
    position: Option<Point>,
    dimensions: Option<Size>,
    x: Option<int>,
    y: Option<int>,
    width: Option<int>,
    height: Option<int>)

  /** Grid units to pixels; a missing position is the origin. A grid point
      lands on a grid line, and dividing by the cell size gives it back. */
  function GridToPixel(gridPosition: Option<Point>, gridSize: int): (r: Point)
    ensures gridPosition.None? ==> r == Point(0, 0)
    ensures gridSize > 0 && gridPosition.Some? ==>
      r.x % gridSize == 0 && r.y % gridSize == 0 &&
      r.x / gridSize == gridPosition.value.x && r.y / gridSize == gridPosition.value.y
  {
    match gridPosition
    case None => Point(0, 0)
    case Some(p) =>
      MultipleDividesExactly(p.x, gridSize);
      MultipleDividesExactly(p.y, gridSize);
      Point(p.x * gridSize, p.y * gridSize)
  }

  /** A multiple of a positive `g` divides by `g` exactly, back to its factor. */
  lemma MultipleDividesExactly(a: int, g: int)
    ensures g > 0 ==> (a * g) % g == 0 && (a * g) / g == a
  {
    if g > 0 {
      var q := (a * g) / g;
      var m := (a * g) % g;
      assert (a - q) * g == m;
      if a - q >= 1 {
        assert false;
      } else if a - q <= -1 {
        assert false;
      }
    }
  }

  /** Multiples of a positive `g` at distinct indices lie at least `g` apart. */
  lemma MultiplesApart(g: int, a: int, b: int)
    requires g > 0 && a < b
    ensures g * a + g <= g * b
  {
    var d := b - a;
    assert d >= 1;
    assert g * d >= g * 1 by {
      assert g * d - g == g * (d - 1);
    }
    assert g * b == g * a + g * d;
  }

  /** `Math.round(p / g)` for a positive cell size: the nearest integer,
      halves rounded upward. */
  function RoundDiv(p: int, g: int): (r: int)
    requires g > 0
    ensures 2 * (g * r) - g <= 2 * p < 2 * (g * r) + g
  {
    var q := (2 * p + g) / (2 * g);
    assert 2 * p + g == q * (2 * g) + (2 * p + g) % (2 * g);
    assert q * (2 * g) == 2 * (g * q);
    q
  }

  /** The rounding is the only integer within half a cell of `p / g`. */
  lemma RoundDivUnique(p: int, g: int, r: int)
    requires g > 0
    requires 2 * (g * r) - g <= 2 * p < 2 * (g * r) + g
    ensures RoundDiv(p, g) == r
  {
    var q := RoundDiv(p, g);
    if q < r {
      MultiplesApart(g, q, r);
    } else if q > r {
      MultiplesApart(g, r, q);
    }
  }

  /** Rounding never crosses a grid line: a pixel coordinate at or beyond
      grid line `k` rounds to a cell index at or beyond `k`, and likewise
      below. */
  lemma RoundDivKeepsSide(p: int, g: int, k: int)
    requires g > 0
    ensures p >= g * k ==> RoundDiv(p, g) >= k
    ensures p <= g * k ==> RoundDiv(p, g) <= k
  {
    var r := RoundDiv(p, g);
    if p >= g * k && r < k {
      MultiplesApart(g, r, k);
    }
    if p <= g * k && r > k {
      MultiplesApart(g, k, r);
    }
  }

  /** Pixels to grid units; a missing position is the origin. */
  function PixelToGrid(pixelPosition: Option<Point>, gridSize: int): (r: Point)
    requires gridSize > 0
    ensures pixelPosition.None? ==> r == Point(0, 0)
    ensures pixelPosition.Some? ==>
      2 * (gridSize * r.x) - gridSize <= 2 * pixelPosition.value.x < 2 * (gridSize * r.x) + gridSize &&
      2 * (gridSize * r.y) - gridSize <= 2 * pixelPosition.value.y < 2 * (gridSize * r.y) + gridSize
  {
    match pixelPosition
    case None => Point(0, 0)
    case Some(p) => Point(RoundDiv(p.x, gridSize), RoundDiv(p.y, gridSize))
  }

  /** Converting a grid point to pixels and back gives the same point. */
  lemma GridPixelRoundTrip(p: Point, gridSize: int)
    requires gridSize > 0
    ensures PixelToGrid(Some(GridToPixel(Some(p), gridSize)), gridSize) == p
  {
    assert p.x * gridSize == gridSize * p.x && p.y * gridSize == gridSize * p.y;
    RoundDivUnique(p.x * gridSize, gridSize, p.x);
    RoundDivUnique(p.y * gridSize, gridSize, p.y);
  }

  /** The worked conversions: (3,4) is pixel (90,120) and pixel (91,119)
      rounds to (3,4) at cell size 30. */
  lemma ConversionExamples()
    ensures GridToPixel(Some(Point(3, 4)), 30) == Point(90, 120)
    ensures GridToPixel(None, 30) == Point(0, 0)
    ensures PixelToGrid(Some(Point(91, 119)), 30) == Point(3, 4)
    ensures PixelToGrid(None, 30) == Point(0, 0)
  {
    RoundDivUnique(91, 30, 3);
    RoundDivUnique(119, 30, 4);
  }

  /** The grid position an element's stored fields describe: the nested
      position, else the flat x/y when both are defined, else the origin. */
  function GridPosition(e: Element): Point {
    if e.position.Some? then e.position.value
    else if e.x.Some? && e.y.Some? then Point(e.x.value, e.y.value)
    else Point(0, 0)
  }

  /** The grid size an element's stored fields describe: the nested
      dimensions, else the flat width/height when both are defined, else one
      cell. */
  function GridDimensions(e: Element): Size {
    if e.dimensions.Some? then e.dimensions.value
    else if e.width.Some? && e.height.Some? then Size(e.width.value, e.height.value)
    else Size(1, 1)
  }

  /** The element's position in pixels; a missing element is at the origin. */
  function ElementPixelPosition(element: Option<Element>, gridSize: int): (r: Point)
    ensures element.None? ==> r == Point(0, 0)
    ensures element.Some? ==> r == GridToPixel(Some(GridPosition(element.value)), gridSize)
  {
    if element.None? then Point(0, 0)
    else
      var e := element.value;
      if e.position.Some? then GridToPixel(e.position, gridSize)
      else if e.x.Some? && e.y.Some? then GridToPixel(Some(Point(e.x.value, e.y.value)), gridSize)
      else Point(0, 0)
  }

  /** The element's size in pixels; a missing element is one cell. */
  function ElementPixelDimensions(element: Option<Element>, gridSize: int): (r: Size)
    ensures element.None? ==> r == Size(gridSize, gridSize)
    ensures element.Some? ==>
      r == Size(GridDimensions(element.value).width * gridSize,
                GridDimensions(element.value).height * gridSize)
  {
    if element.None? then Size(gridSize, gridSize)
    else
      var e := element.value;
      if e.dimensions.Some? then
        Size(e.dimensions.value.width * gridSize, e.dimensions.value.height * gridSize)
      else if e.width.Some? && e.height.Some? then
        Size(e.width.value * gridSize, e.height.value * gridSize)
      else Size(gridSize, gridSize)
  }

  /** The element with new grid coordinates, written in the shape the element
      already uses: a nested element gets a new `position`, any other element
      new flat x/y. A missing element or position leaves the input as it is. */
  function UpdateElementPosition(element: Option<Element>, newPosition: Option<Point>): (r: Option<Element>)
    ensures element.None? || newPosition.None? ==> r == element
    ensures element.Some? && newPosition.Some? ==>
      var e, p := element.value, newPosition.value;
      && r.Some?
      && r.value.(position := e.position, x := e.x, y := e.y) == e
      && (e.position.Some? ==> r.value.position == Some(p) && r.value.x == e.x && r.value.y == e.y)
      && (e.position.None? ==> r.value.position == None && r.value.x == Some(p.x) && r.value.y == Some(p.y))
  {
    if element.None? || newPosition.None? then element
    else
      var e, p := element.value, newPosition.value;
      if e.position.Some? then Some(e.(position := Some(Point(p.x, p.y))))
      else Some(e.(x := Some(p.x), y := Some(p.y)))
  }

  /** After an update the element reads back at the new position, whatever its
      shape, and its size is unchanged. */
  lemma UpdateThenRead(e: Element, p: Point, gridSize: int)
    ensures ElementPixelPosition(UpdateElementPosition(Some(e), Some(p)), gridSize) == GridToPixel(Some(p), gridSize)
    ensures ElementPixelDimensions(UpdateElementPosition(Some(e), Some(p)), gridSize) == ElementPixelDimensions(Some(e), gridSize)
  {
  }

  /** An element stored in the nested shape and the same element stored flat
      occupy the same pixels. */
  lemma ShapesAgree(e: Element, p: Point, s: Size, gridSize: int)
    ensures
      var nested := e.(position := Some(p), dimensions := Some(s), x := None, y := None, width := None, height := None);
      var flat := e.(position := None, dimensions := None, x := Some(p.x), y := Some(p.y), width := Some(s.width), height := Some(s.height));
      ElementPixelPosition(Some(nested), gridSize) == ElementPixelPosition(Some(flat), gridSize) &&
      ElementPixelDimensions(Some(nested), gridSize) == ElementPixelDimensions(Some(flat), gridSize)
  {
  }

  /** The worked reads: both shapes of (3,4) read as (90,120); a missing
      element is at the origin and one cell large; an element with only `x`
      falls back to the origin. */
  lemma ReadExamples(e: Element)
    requires e.position.None? && e.dimensions.None?
    ensures ElementPixelPosition(Some(e.(position := Some(Point(3, 4)))), 30) == Point(90, 120)
    ensures ElementPixelPosition(Some(e.(x := Some(3), y := Some(4))), 30) == Point(90, 120)
    ensures ElementPixelPosition(Some(e.(x := Some(3), y := None)), 30) == Point(0, 0)
    ensures ElementPixelDimensions(Some(e.(dimensions := Some(Size(3, 4)))), 30) == Size(90, 120)
    ensures ElementPixelDimensions(Some(e.(width := Some(3), height := Some(4))), 30) == Size(90, 120)
    ensures ElementPixelDimensions(None, 30) == Size(30, 30)
  {
  }
}
