/** Axis-aligned rectangle overlap and the check whether a moved element
    would overlap any other element of the garden. */
module CollisionUtils {
  import opened Wrappers
  import opened PositionUtils

  /** A rectangle in pixels. */
  datatype Rect = Rect(x: int, y: int, width: int, height: int)

  /** Whether the open intervals (lo1, hi1) and (lo2, hi2) share a point. */
  predicate IntervalsOverlap(lo1: int, hi1: int, lo2: int, hi2: int) {
    (if lo1 < lo2 then lo2 else lo1) < (if hi1 < hi2 then hi1 else hi2)
  }

  /** Strict overlap on both axes: rectangles that only share an edge do not
      intersect. For rectangles of positive size this is the overlap of
      their open extents on each axis. */
  predicate RectIntersect(a: Rect, b: Rect): (r: bool)
    ensures a.width > 0 && b.width > 0 && a.height > 0 && b.height > 0 ==>
      (r <==> IntervalsOverlap(a.x, a.x + a.width, b.x, b.x + b.width) &&
              IntervalsOverlap(a.y, a.y + a.height, b.y, b.y + b.height))
  {
    a.x < b.x + b.width &&
    a.x + a.width > b.x &&
    a.y < b.y + b.height &&
    a.y + a.height > b.y
  }

  /** Overlap does not depend on the order of the two rectangles. */
  lemma RectIntersectSymmetric(a: Rect, b: Rect)
    ensures RectIntersect(a, b) == RectIntersect(b, a)
  {
  }

  /** The worked cases: overlapping, apart, and touching along an edge. */
  lemma RectIntersectExamples()
    ensures RectIntersect(Rect(0, 0, 10, 10), Rect(5, 5, 10, 10))
    ensures !RectIntersect(Rect(0, 0, 10, 10), Rect(20, 20, 10, 10))
    ensures !RectIntersect(Rect(0, 0, 10, 10), Rect(10, 0, 10, 10))
  {
  }

  /** The box of the moving element placed at a pixel position, with its own
      pixel size. */
  function MovedRect(element: Element, newPixelPosition: Point, gridSize: int): Rect {
    var d := ElementPixelDimensions(Some(element), gridSize);
    Rect(newPixelPosition.x, newPixelPosition.y, d.width, d.height)
  }

  /** The pixel box of an element where it is stored. */
  function ElementRect(other: Element, gridSize: int): Rect {
    var p := ElementPixelPosition(Some(other), gridSize);
    var d := ElementPixelDimensions(Some(other), gridSize);
    Rect(p.x, p.y, d.width, d.height)
  }

  /** Whether `other` is one the moving element may not overlap: not the
      element itself (same id), not the background, and intersecting the
      moved box. */
  predicate Blocks(element: Element, newPixelPosition: Point, other: Element, gridSize: int) {
    other.id != element.id &&
    other.elementType != Some("background") &&
    RectIntersect(MovedRect(element, newPixelPosition, gridSize), ElementRect(other, gridSize))
  }

  /** The `some` scan over the other elements, callback included. */
  function AnyBlocks(element: Element, newPixelPosition: Point, others: seq<Element>, gridSize: int): (r: bool)
    ensures r <==> exists i :: 0 <= i < |others| && Blocks(element, newPixelPosition, others[i], gridSize)
  {
    if others == [] then false
    else if others[0].id == element.id || others[0].elementType == Some("background") then
      AnyBlocks(element, newPixelPosition, others[1..], gridSize)
    else
      var movedRect := MovedRect(element, newPixelPosition, gridSize);
      RectIntersect(movedRect, ElementRect(others[0], gridSize)) ||
      AnyBlocks(element, newPixelPosition, others[1..], gridSize)
  }

  /** True exactly when the element is given, the list is given, and some
      other non-background element's box overlaps the moved box; a missing
      element, a missing list and an empty list never collide. */
  function CheckElementCollision(element: Option<Element>, newPixelPosition: Point,
                                 otherElements: Option<seq<Element>>, gridSize: int): (r: bool)
    ensures r <==>
      element.Some? && otherElements.Some? &&
      exists i :: 0 <= i < |otherElements.value| &&
        Blocks(element.value, newPixelPosition, otherElements.value[i], gridSize)
  {
    if element.None? || otherElements.None? || |otherElements.value| == 0 then false
    else AnyBlocks(element.value, newPixelPosition, otherElements.value, gridSize)
  }

  /** Elements sharing the mover's id and background elements never cause a
      collision, wherever they are. */
  lemma SelfAndBackgroundIgnored(element: Element, p: Point, others: seq<Element>, gridSize: int)
    requires forall i :: 0 <= i < |others| ==>
      others[i].id == element.id || others[i].elementType == Some("background")
    ensures !CheckElementCollision(Some(element), p, Some(others), gridSize)
  {
  }

  /** The worked collision cases: a 2x2 element dropped at (150,150)
      overlaps the element at grid (6,6); dropped at (240,240), (90,90) with
      itself in the list, or (30,30) over the background, it overlaps nothing. */
  lemma CollisionExamples()
    ensures
      var none: Element := Element(None, None, None, None, None, None, None, None, None, None, None, None);
      var e1 := none.(id := Some("1"), dimensions := Some(Size(2, 2)), position := Some(Point(3, 3)));
      var e2 := none.(id := Some("2"), dimensions := Some(Size(2, 2)), position := Some(Point(6, 6)));
      var e3 := none.(id := Some("3"), dimensions := Some(Size(2, 2)), position := Some(Point(3, 6)));
      var bg := none.(id := Some("background"), elementType := Some("background"),
                      dimensions := Some(Size(50, 50)), position := Some(Point(0, 0)));
      var others := [e2, e3, bg];
      && CheckElementCollision(Some(e1), Point(150, 150), Some(others), 30)
      && !CheckElementCollision(Some(e1), Point(240, 240), Some(others), 30)
      && !CheckElementCollision(Some(e1), Point(90, 90), Some([e1] + others), 30)
      && !CheckElementCollision(Some(e1), Point(30, 30), Some(others), 30)
      && !CheckElementCollision(Some(e1), Point(30, 30), Some([]), 30)
      && !CheckElementCollision(None, Point(30, 30), Some(others), 30)
  {
  }
}
