/** The drag-end decision of the garden canvas: refuse the move without a
    saved garden or when the dropped element would overlap another one;
    otherwise snap the drop position to the grid and store it. */
module ElementDrag {
  import opened Wrappers
  import opened JsValue
  import opened GridConfig
  import opened PositionUtils
  import opened CollisionUtils

  /** The parts of the current garden the drag handler looks at. */
  datatype DragGarden = DragGarden(id: Option<string>, elements: Option<seq<Element>>)

  /** The grid position handed to the store's update callback, or `None`
      when the callback is not called. */
  function HandleDragEnd(element: Element, newPixelPosition: Point, garden: Option<DragGarden>): (r: Option<Point>)
    ensures garden.None? || !Present(garden.value.id) ==> r.None?
    ensures garden.Some? && Present(garden.value.id) ==>
      (r.None? <==> CheckElementCollision(Some(element), newPixelPosition, garden.value.elements, GridSize))
    ensures r.Some? ==> r.value == PixelToGrid(Some(newPixelPosition), GridSize)
  {
    if garden.None? || !Present(garden.value.id) then None
    else if CheckElementCollision(Some(element), newPixelPosition, garden.value.elements, GridSize) then None
    else Some(PixelToGrid(Some(newPixelPosition), GridSize))
  }

  /** One axis of the snapping argument: a moving span of `len` cells
      starting at pixel `a` that does not overlap the obstacle span of `olen`
      cells starting at cell `o` still does not overlap it once `a` is
      rounded to the nearest grid line. */
  lemma SnapKeepsApart(a: int, len: int, o: int, olen: int, g: int)
    requires g > 0
    requires !(a < o * g + olen * g && a + len * g > o * g)
    ensures
      var s := RoundDiv(a, g) * g;
      !(s < o * g + olen * g && s + len * g > o * g)
  {
    var r := RoundDiv(a, g);
    if a >= o * g + olen * g {
      assert o * g + olen * g == g * (o + olen);
      RoundDivKeepsSide(a, g, o + olen);
      if r > o + olen { MultiplesApart(g, o + olen, r); }
      assert r * g == g * r;
    } else {
      assert a <= g * (o - len) by { assert o * g - len * g == g * (o - len); }
      RoundDivKeepsSide(a, g, o - len);
      if r < o - len { MultiplesApart(g, r, o - len); }
      assert r * g == g * r;
      assert o * g - len * g == g * (o - len);
    }
  }

  /** Snapping a non-blocking drop position to the grid keeps it non-blocking
      against `other`, because every element's box lies on grid lines. */
  lemma SnapKeepsClear(element: Element, p: Point, other: Element, g: int)
    requires g > 0
    requires !Blocks(element, p, other, g)
    ensures !Blocks(element, GridToPixel(Some(PixelToGrid(Some(p), g)), g), other, g)
  {
    var s := PixelToGrid(Some(p), g);
    var op, od, md := GridPosition(other), GridDimensions(other), GridDimensions(element);
    if other.id != element.id && other.elementType != Some("background") {
      var m := MovedRect(element, p, g);
      var o := ElementRect(other, g);
      assert m == Rect(p.x, p.y, md.width * g, md.height * g);
      assert o == Rect(op.x * g, op.y * g, od.width * g, od.height * g);
      if !(m.x < o.x + o.width && m.x + m.width > o.x) {
        SnapKeepsApart(p.x, md.width, op.x, od.width, g);
      } else {
        SnapKeepsApart(p.y, md.height, op.y, od.height, g);
      }
    }
  }

  /** A move the handler accepts stays collision-free after snapping: the
      element placed at its stored grid position overlaps no other
      non-background element of the garden. This is what refusing
      overlapping drops is for, given that the check runs on the raw drop
      position and the store receives the snapped one. */
  lemma AcceptedMoveStaysClear(element: Element, newPixelPosition: Point, garden: Option<DragGarden>)
    requires HandleDragEnd(element, newPixelPosition, garden).Some?
    ensures
      var stored := HandleDragEnd(element, newPixelPosition, garden).value;
      var moved := UpdateElementPosition(Some(element), Some(stored));
      !CheckElementCollision(moved, ElementPixelPosition(moved, GridSize), garden.value.elements, GridSize)
  {
    var stored := HandleDragEnd(element, newPixelPosition, garden).value;
    var moved := UpdateElementPosition(Some(element), Some(stored));
    UpdateThenRead(element, stored, GridSize);
    if garden.value.elements.Some? {
      var others := garden.value.elements.value;
      forall i | 0 <= i < |others|
        ensures !Blocks(moved.value, GridToPixel(Some(stored), GridSize), others[i], GridSize)
      {
        SnapKeepsClear(element, newPixelPosition, others[i], GridSize);
      }
    }
  }

  /** Without a saved garden nothing is stored, wherever the element is
      dropped. */
  lemma NoGardenNoUpdate(element: Element, p: Point, elements: Option<seq<Element>>)
    ensures HandleDragEnd(element, p, None).None?
    ensures HandleDragEnd(element, p, Some(DragGarden(None, elements))).None?
    ensures HandleDragEnd(element, p, Some(DragGarden(Some(""), elements))).None?
  {
  }
}
