/** Display rules for garden elements: fill colour by type, aspect ratio,
    stroke width and colour by selection, and copying a palette template
    into a new element. */
module ElementUtils {
  import opened Wrappers
  import opened JsValue
  import opened PositionUtils

  const DefaultColor: string := "#BDBDBD"
  const DefaultPlantColor: string := "#4CAF50"
  const SelectedStroke: string := "#FF9800"
  const UnselectedStroke: string := "#757575"

  /** The fixed colour of each listed type other than `plant`. */
  function TypeColor(t: string): Option<string> {
    if t == "raisedBed" then Some("#8D6E63")
    else if t == "flatBed" then Some("#A5D6A7")
    else if t == "path" then Some("#E0E0E0")
    else if t == "tree" then Some("#43A047")
    else if t == "bush" then Some("#66BB6A")
    else if t == "structure" then Some("#90A4AE")
    else None
  }

  /** The seven types with a colour of their own. */
  predicate ListedType(t: string) {
    t in ["raisedBed", "flatBed", "path", "plant", "tree", "bush", "structure"]
  }

  /** The fill colour of an element: grey for a missing element and for any
      type outside the seven listed ones; a plant's own colour when it has a
      non-empty one, else plant green; the fixed colour of the type otherwise. */
  function ElementColor(element: Option<Element>): (r: string)
    ensures element.None? ==> r == DefaultColor
    ensures element.Some? && (element.value.elementType.None? || !ListedType(element.value.elementType.value)) ==>
      r == DefaultColor
    ensures element.Some? && element.value.elementType == Some("plant") ==>
      r == OrStr(element.value.color, DefaultPlantColor)
    ensures (element.Some? && element.value.elementType.Some? && element.value.elementType.value != "plant" &&
             ListedType(element.value.elementType.value)) ==>
      Some(r) == TypeColor(element.value.elementType.value)
  {
    if element.None? then DefaultColor
    else match element.value.elementType
      case None => DefaultColor
      case Some(t) =>
        if t == "raisedBed" then "#8D6E63"
        else if t == "flatBed" then "#A5D6A7"
        else if t == "path" then "#E0E0E0"
        else if t == "plant" then OrStr(element.value.color, DefaultPlantColor)
        else if t == "tree" then "#43A047"
        else if t == "bush" then "#66BB6A"
        else if t == "structure" then "#90A4AE"
        else DefaultColor
  }

  /** Only a plant's colour depends on anything but its type. */
  lemma ColorDependsOnlyOnType(a: Element, b: Element)
    requires a.elementType == b.elementType && a.elementType != Some("plant")
    ensures ElementColor(Some(a)) == ElementColor(Some(b))
  {
  }

  /** Division as JavaScript does it, with `None` for the non-finite result of
      dividing by zero. */
  function Ratio(a: int, b: int): (r: Option<real>)
    ensures b == 0 <==> r.None?
    ensures r.Some? ==> r.value * (b as real) == a as real
  {
    if b == 0 then None else Some((a as real) / (b as real))
  }

  /** Width over height, read from the nested dimensions, else the flat
      width/height when both are defined, else 1 (also for a missing
      element). */
  function ElementAspectRatio(element: Option<Element>): (r: Option<real>)
    ensures element.None? ==> r == Some(1.0)
    ensures element.Some? && element.value.dimensions.Some? ==>
      r == Ratio(element.value.dimensions.value.width, element.value.dimensions.value.height)
    ensures (element.Some? && element.value.dimensions.None? &&
             element.value.width.Some? && element.value.height.Some?) ==>
      r == Ratio(element.value.width.value, element.value.height.value)
    ensures (element.Some? && element.value.dimensions.None? &&
             !(element.value.width.Some? && element.value.height.Some?)) ==> r == Some(1.0)
  {
    if element.None? then Some(1.0)
    else
      var e := element.value;
      if e.dimensions.Some? then Ratio(e.dimensions.value.width, e.dimensions.value.height)
      else if e.width.Some? && e.height.Some? then Ratio(e.width.value, e.height.value)
      else Some(1.0)
  }

  /** The aspect ratio is the ratio of the element's grid size, whichever
      shape stores it. */
  lemma AspectRatioMatchesDimensions(e: Element)
    ensures ElementAspectRatio(Some(e)) == Ratio(GridDimensions(e).width, GridDimensions(e).height)
  {
  }

  /** A new element from a palette template: a missing template gives
      nothing; otherwise every field of the template is kept except that the
      id becomes `<template id>-<stamp>` and a missing position becomes
      the origin. `stamp` stands for the current time in milliseconds. */
  function CreateNewElement(template: Option<Element>, stamp: string): (r: Option<Element>)
    ensures template.None? <==> r.None?
    ensures template.Some? ==>
      var t := template.value;
      && r.value.(id := t.id, position := t.position) == t
      && r.value.id == Some(t.id.GetOr("undefined") + "-" + stamp)
      && r.value.position == Some(t.position.GetOr(Point(0, 0)))
      && r.value.name == t.name
  {
    if template.None? then None
    else
      var t := template.value;
      Some(t.(id := Some(t.id.GetOr("undefined") + "-" + stamp),
              position := Some(t.position.GetOr(Point(0, 0))),
              name := t.name))
  }

  /** The outline width at a zoom scale: twice as thick when selected. */
  function ElementStrokeWidth(isSelected: bool, scale: real): (r: real)
    requires scale != 0.0
    ensures r * scale == if isSelected then 2.0 else 1.0
  {
    if isSelected then 2.0 / scale else 1.0 / scale
  }

  /** The selected width is exactly twice the unselected width at every scale. */
  lemma SelectedStrokeIsDouble(scale: real)
    requires scale != 0.0
    ensures ElementStrokeWidth(true, scale) == 2.0 * ElementStrokeWidth(false, scale)
  {
  }

  /** Orange outline when selected, grey otherwise. */
  function ElementStrokeColor(isSelected: bool): (r: string)
    ensures isSelected ==> r == SelectedStroke
    ensures !isSelected ==> r == UnselectedStroke
  {
    if isSelected then SelectedStroke else UnselectedStroke
  }
}
