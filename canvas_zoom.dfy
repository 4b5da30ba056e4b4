/** Zoom and pan state of the garden canvas. Numbers are exact reals, not
    IEEE doubles. */
module CanvasZoom {
  import opened Wrappers
  import opened GridConfig

  datatype Vec = Vec(x: real, y: real)

  /** What the wheel handler reads from the canvas stage: the stage's own
      position and the pointer position, both in screen pixels. */
  datatype StageView = StageView(position: Vec, pointer: Vec)

  function Min(a: real, b: real): real { if a <= b then a else b }
  function Max(a: real, b: real): real { if a >= b then a else b }

  /** `Math.max(MIN_ZOOM, Math.min(MAX_ZOOM, s))`: the scale forced into the
      zoom range, and left alone when already inside it. */
  function Clamp(s: real): (r: real)
    ensures MinZoom <= r <= MaxZoom
    ensures MinZoom <= s <= MaxZoom ==> r == s
    ensures s < MinZoom ==> r == MinZoom
    ensures s > MaxZoom ==> r == MaxZoom
  {
    Max(MinZoom, Min(MaxZoom, s))
  }

  /** The scale after one wheel step: scrolling up (negative `deltaY`)
      multiplies by the zoom factor, anything else divides by it, and the
      result is clamped to the zoom range. */
  function WheelScale(oldScale: real, deltaY: real): (r: real)
    ensures MinZoom <= r <= MaxZoom
    ensures deltaY < 0.0 ==> r == Clamp(oldScale * ZoomFactor)
    ensures deltaY >= 0.0 ==> r == Clamp(oldScale / ZoomFactor)
  {
    Clamp(if deltaY < 0.0 then oldScale * ZoomFactor else oldScale / ZoomFactor)
  }

  /** One wheel step out followed by one step in restores any scale that
      neither step had to clamp. */
  lemma WheelOutThenIn(s: real)
    requires MinZoom * ZoomFactor <= s <= MaxZoom
    ensures WheelScale(WheelScale(s, 1.0), -1.0) == s
  {
    var down := s / ZoomFactor;
    assert MinZoom <= down <= MaxZoom;
    assert WheelScale(s, 1.0) == down;
    assert down * ZoomFactor == s;
  }

  class ZoomState {
    var scale: real
    var position: Vec
    var isDragging: bool
    const initialScale: real
    const initialPosition: Vec

    /** The scale stays positive, so the wheel handler can divide by it. */
    ghost predicate Valid()
      reads this
    {
      scale > 0.0 && initialScale > 0.0
    }

    constructor (initialScale: real, initialPosition: Vec)
      requires initialScale > 0.0
      ensures Valid()
      ensures this.initialScale == initialScale && this.initialPosition == initialPosition
      ensures scale == initialScale && position == initialPosition && !isDragging
    {
      this.initialScale := initialScale;
      this.initialPosition := initialPosition;
      scale := initialScale;
      position := initialPosition;
      isDragging := false;
    }

    /** Zoom toward the pointer: the new scale is the clamped wheel step, and
      the new position keeps the canvas point under the pointer in place.
      Without a stage nothing changes. */
    method HandleWheel(deltaY: real, stage: Option<StageView>)
      requires Valid()
      modifies this
      ensures Valid() && isDragging == old(isDragging)
      ensures stage.None? ==> scale == old(scale) && position == old(position)
      ensures stage.Some? ==> scale == WheelScale(old(scale), deltaY) && MinZoom <= scale <= MaxZoom
      ensures stage.Some? ==>
        var st := stage.value;
        var mousePointTo := Vec((st.pointer.x - st.position.x) / old(scale),
                                (st.pointer.y - st.position.y) / old(scale));
        && position.x + mousePointTo.x * scale == st.pointer.x
        && position.y + mousePointTo.y * scale == st.pointer.y
        && (st.pointer.x - position.x) / scale == mousePointTo.x
        && (st.pointer.y - position.y) / scale == mousePointTo.y
    {
      if stage.None? {
        return;
      }
      var st := stage.value;
      var oldScale := scale;
      var mousePointTo := Vec((st.pointer.x - st.position.x) / oldScale,
                              (st.pointer.y - st.position.y) / oldScale);
      var newScale := if deltaY < 0.0 then oldScale * ZoomFactor else oldScale / ZoomFactor;
      var limitedScale := Max(MinZoom, Min(MaxZoom, newScale));
      var newPos := Vec(st.pointer.x - mousePointTo.x * limitedScale,
                        st.pointer.y - mousePointTo.y * limitedScale);
      scale := limitedScale;
      position := newPos;
      assert st.pointer.x - position.x == mousePointTo.x * scale;
      assert st.pointer.y - position.y == mousePointTo.y * scale;
    }

    /** One step in, never beyond the largest scale. */
    method HandleZoomIn()
      requires Valid()
      modifies this
      ensures Valid() && position == old(position) && isDragging == old(isDragging)
      ensures scale == Min(MaxZoom, old(scale) * ZoomFactor) && scale <= MaxZoom
    {
      scale := Min(MaxZoom, scale * ZoomFactor);
    }

    /** One step out, never below the smallest scale. */
    method HandleZoomOut()
      requires Valid()
      modifies this
      ensures Valid() && position == old(position) && isDragging == old(isDragging)
      ensures scale == Max(MinZoom, old(scale) / ZoomFactor) && scale >= MinZoom
    {
      scale := Max(MinZoom, scale / ZoomFactor);
    }

    /** Back to the scale and position the canvas started with. */
    method HandleResetView()
      requires Valid()
      modifies this
      ensures Valid() && isDragging == old(isDragging)
      ensures scale == initialScale && position == initialPosition
    {
      scale := initialScale;
      position := initialPosition;
    }

    method HandleStageDragStart()
      requires Valid()
      modifies this
      ensures Valid() && scale == old(scale) && position == old(position)
      ensures isDragging
    {
      isDragging := true;
    }

    /** The stage was dropped at `target`: store that position and end the drag. */
    method HandleStageDragEnd(target: Vec)
      requires Valid()
      modifies this
      ensures Valid() && scale == old(scale)
      ensures position == target && !isDragging
    {
      position := target;
      isDragging := false;
    }
  }
}
