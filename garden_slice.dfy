/** The client-side garden store: the mock request functions that produce
    the payloads, and the reducer, one method per case, over a state object
    whose fields are updated in place. */
module GardenSlice {
  import opened Wrappers
  import opened JsValue
  import opened PositionUtils

  /** A garden as the client holds it; `id` is the server's `_id`. */
  datatype ClientGarden = ClientGarden(id: Option<string>, name: string, dimensions: Size, elements: seq<Element>)

  /** The garden fields a caller may supply when creating or updating. */
  datatype GardenPatch = GardenPatch(id: Option<string>, name: Option<string>,
                                     dimensions: Option<Size>, elements: Option<seq<Element>>)

  /** The whole store state as one value. */
  datatype SliceState = SliceState(
    gardens: seq<ClientGarden>,
    gardenDetails: Option<ClientGarden>,
    loading: bool,
    error: Option<string>,
    success: bool,
    selectedElement: Option<Element>,
    elements: seq<Element>)

  const InitialState: SliceState := SliceState([], None, false, None, false, None, [])

  /** The locked background element every mock garden starts with. */
  const Background: Element :=
    Element(Some("background"), Some("background"), None, None, Some("#8FBC8F"), Some(true),
            None, None, Some(0), Some(0), Some(1000), Some(600))

  const MockGarden: ClientGarden :=
    ClientGarden(Some("garden1"), "My Test Garden", Size(1000, 600), [Background])

  // ----- payloads of the mock request functions -----

  /** The list of gardens the mock returns for the current user: one garden,
      "garden1", whose only element is the locked background. */
  function UserGardensPayload(): (r: seq<ClientGarden>)
    ensures |r| == 1 && r[0].id == Some("garden1")
    ensures r[0].elements == [Background] && Background.elementType == Some("background")
    ensures Background.locked == Some(true)
  {
    [MockGarden]
  }

  /** A new garden: id `garden-<stamp>`, the given name or "New Garden" when
      it is missing or empty, and only the background element. `stamp` stands
      for the current time in milliseconds. */
  function CreateGardenPayload(gardenData: GardenPatch, stamp: string): (r: ClientGarden)
    ensures r.id == Some("garden-" + stamp)
    ensures Present(gardenData.name) ==> r.name == gardenData.name.value
    ensures !Present(gardenData.name) ==> r.name == "New Garden"
    ensures r.elements == [Background] && Background.elementType == Some("background")
    ensures r.dimensions == MockGarden.dimensions
  {
    MockGarden.(id := Some("garden-" + stamp),
                name := OrStr(gardenData.name, "New Garden"),
                elements := [Background])
  }

  /** The mock garden with every supplied field of the patch spread over it.
      The requested garden's id is not used: without an `_id` in the patch
      the result is always "garden1". */
  function UpdateGardenPayload(gardenData: GardenPatch): (r: ClientGarden)
    ensures gardenData == GardenPatch(None, None, None, None) ==> r == MockGarden
    ensures gardenData.id.None? ==> r.id == Some("garden1")
    ensures gardenData.id.Some? ==> r.id == gardenData.id
    ensures gardenData.name.Some? ==> r.name == gardenData.name.value
    ensures gardenData.name.None? ==> r.name == MockGarden.name
    ensures gardenData.dimensions.Some? ==> r.dimensions == gardenData.dimensions.value
    ensures gardenData.dimensions.None? ==> r.dimensions == MockGarden.dimensions
    ensures gardenData.elements.Some? ==> r.elements == gardenData.elements.value
    ensures gardenData.elements.None? ==> r.elements == MockGarden.elements
  {
    ClientGarden(if gardenData.id.Some? then gardenData.id else MockGarden.id,
                 gardenData.name.GetOr(MockGarden.name),
                 gardenData.dimensions.GetOr(MockGarden.dimensions),
                 gardenData.elements.GetOr(MockGarden.elements))
  }

  /** The element as given, with the id `element-<stamp>`. */
  function AddElementPayload(element: Element, stamp: string): (r: Element)
    ensures r.id == Some("element-" + stamp)
    ensures r.(id := element.id) == element
  {
    element.(id := Some("element-" + stamp))
  }

  // ----- the list operations the reducer applies -----

  /** `s.map(x => matches(x) ? v : x)`. */
  function ReplaceWhere<T>(s: seq<T>, matches: T -> bool, v: T): (r: seq<T>)
    ensures |r| == |s|
    ensures forall i :: 0 <= i < |s| ==> r[i] == if matches(s[i]) then v else s[i]
  {
    if s == [] then [] else [if matches(s[0]) then v else s[0]] + ReplaceWhere(s[1..], matches, v)
  }

  /** `s.filter(keep)`: exactly the kept items. That they keep their order
      is stated by `FilterAppend` and `FilterAllKept`. */
  function Filter<T>(s: seq<T>, keep: T -> bool): (r: seq<T>)
    ensures |r| <= |s|
    ensures forall i :: 0 <= i < |r| ==> r[i] in s && keep(r[i])
    ensures forall i :: 0 <= i < |s| && keep(s[i]) ==> s[i] in r
  {
    if s == [] then [] else (if keep(s[0]) then [s[0]] else []) + Filter(s[1..], keep)
  }

  /** Filtering distributes over concatenation, so the kept items stay in
      their original order. */
  lemma {:induction false} FilterAppend<T>(a: seq<T>, b: seq<T>, keep: T -> bool)
    ensures Filter(a + b, keep) == Filter(a, keep) + Filter(b, keep)
  {
    if a == [] {
      assert a + b == b;
    } else {
      assert (a + b)[1..] == a[1..] + b;
      FilterAppend(a[1..], b, keep);
    }
  }

  /** Filtering keeps everything when every item is kept. */
  lemma {:induction false} FilterAllKept<T>(s: seq<T>, keep: T -> bool)
    requires forall i :: 0 <= i < |s| ==> keep(s[i])
    ensures Filter(s, keep) == s
  {
    if s != [] {
      FilterAllKept(s[1..], keep);
    }
  }

  /** The gardens after an update: every garden whose id equals the payload's
      is the payload, the rest are unchanged. */
  function ReplaceGarden(gardens: seq<ClientGarden>, payload: ClientGarden): seq<ClientGarden> {
    ReplaceWhere(gardens, (g: ClientGarden) => g.id == payload.id, payload)
  }

  /** The gardens after a deletion: those whose id differs from `id`. */
  function RemoveGarden(gardens: seq<ClientGarden>, id: Option<string>): seq<ClientGarden> {
    Filter(gardens, (g: ClientGarden) => g.id != id)
  }

  /** The elements after an update: every element whose id equals the
      payload's is the payload. */
  function ReplaceElement(elements: seq<Element>, payload: Element): seq<Element> {
    ReplaceWhere(elements, (e: Element) => e.id == payload.id, payload)
  }

  /** The elements after a deletion: those whose id differs from `id`. */
  function RemoveElement(elements: seq<Element>, id: Option<string>): seq<Element> {
    Filter(elements, (e: Element) => e.id != id)
  }

  /** An update replaces exactly the gardens that share the payload's id and
      keeps the length. */
  lemma ReplaceGardenSpec(gardens: seq<ClientGarden>, payload: ClientGarden)
    ensures |ReplaceGarden(gardens, payload)| == |gardens|
    ensures forall i :: 0 <= i < |gardens| && gardens[i].id == payload.id ==> ReplaceGarden(gardens, payload)[i] == payload
    ensures forall i :: 0 <= i < |gardens| && gardens[i].id != payload.id ==> ReplaceGarden(gardens, payload)[i] == gardens[i]
  {
  }

  /** A deletion leaves exactly the gardens with another id, in order: deleting
      a garden that was just appended gives back the deletion of the list
      without it. */
  lemma RemoveGardenSpec(gardens: seq<ClientGarden>, g: ClientGarden, id: Option<string>)
    ensures forall x :: x in RemoveGarden(gardens, id) <==> x in gardens && x.id != id
    ensures RemoveGarden(gardens + [g], g.id) == RemoveGarden(gardens, g.id)
    ensures (forall i :: 0 <= i < |gardens| ==> gardens[i].id != id) ==> RemoveGarden(gardens, id) == gardens
  {
    var keep := (x: ClientGarden) => x.id != g.id;
    FilterAppend(gardens, [g], keep);
    assert Filter([g], keep) == [];
    if forall i :: 0 <= i < |gardens| ==> gardens[i].id != id {
      FilterAllKept(gardens, (x: ClientGarden) => x.id != id);
    }
  }

  /** An update whose patch has no `_id` replaces the gardens with the mock
      id "garden1", whichever garden was asked for; when the list has no
      such garden, as after only `createGarden`, it changes nothing. */
  lemma UpdateWithoutIdTargetsMock(gardens: seq<ClientGarden>, patch: GardenPatch)
    requires patch.id.None?
    ensures forall i :: 0 <= i < |gardens| && gardens[i].id == Some("garden1") ==>
      ReplaceGarden(gardens, UpdateGardenPayload(patch))[i] == UpdateGardenPayload(patch)
    ensures (forall i :: 0 <= i < |gardens| ==> gardens[i].id != Some("garden1")) ==>
      ReplaceGarden(gardens, UpdateGardenPayload(patch)) == gardens
  {
  }

  /** Element updates keep the element count and replace by id; deletions
      remove exactly the elements with that id and keep the others in order. */
  lemma ElementListSpec(elements: seq<Element>, payload: Element, more: seq<Element>, id: Option<string>)
    ensures |ReplaceElement(elements, payload)| == |elements|
    ensures forall i :: 0 <= i < |elements| ==>
      ReplaceElement(elements, payload)[i] == if elements[i].id == payload.id then payload else elements[i]
    ensures forall x :: x in RemoveElement(elements, id) <==> x in elements && x.id != id
    ensures RemoveElement(elements + more, id) == RemoveElement(elements, id) + RemoveElement(more, id)
  {
    FilterAppend(elements, more, (e: Element) => e.id != id);
  }

  /** The store. Each method is one reducer case and states the complete new
      state in terms of the old one. */
  class GardenStore {
    var gardens: seq<ClientGarden>
    var gardenDetails: Option<ClientGarden>
    var loading: bool
    var error: Option<string>
    var success: bool
    var selectedElement: Option<Element>
    var elements: seq<Element>

    function State(): SliceState
      reads this
    {
      SliceState(gardens, gardenDetails, loading, error, success, selectedElement, elements)
    }

    constructor ()
      ensures State() == InitialState
    {
      gardens, gardenDetails, loading, error := [], None, false, None;
      success, selectedElement, elements := false, None, [];
    }

    // ----- plain reducers -----

    method ClearGardenError()
      modifies this
      ensures State() == old(State()).(error := None)
    {
      error := None;
    }

    method ResetGardenSuccess()
      modifies this
      ensures State() == old(State()).(success := false)
    {
      success := false;
    }

    method SetSelectedElement(payload: Option<Element>)
      modifies this
      ensures State() == old(State()).(selectedElement := payload)
    {
      selectedElement := payload;
    }

    method ClearSelectedElement()
      modifies this
      ensures State() == old(State()).(selectedElement := None)
    {
      selectedElement := None;
    }

    method ResetGardenDetails()
      modifies this
      ensures State() == old(State()).(gardenDetails := None)
    {
      gardenDetails := None;
    }

    // ----- loading the user's gardens -----

    method GetUserGardensPending()
      modifies this
      ensures State() == old(State()).(loading := true, error := None)
    {
      loading := true;
      error := None;
    }

    method GetUserGardensFulfilled(payload: seq<ClientGarden>)
      modifies this
      ensures State() == old(State()).(loading := false, gardens := payload)
    {
      loading := false;
      gardens := payload;
    }

    method GetUserGardensRejected(payload: Option<string>)
      modifies this
      ensures State() == old(State()).(loading := false, error := payload)
    {
      loading := false;
      error := payload;
    }

    // ----- loading one garden -----

    method GetGardenDetailsPending()
      modifies this
      ensures State() == old(State()).(loading := true, error := None)
    {
      loading := true;
      error := None;
    }

    method GetGardenDetailsFulfilled(payload: ClientGarden)
      modifies this
      ensures State() == old(State()).(loading := false, gardenDetails := Some(payload))
    {
      loading := false;
      gardenDetails := Some(payload);
    }

    method GetGardenDetailsRejected(payload: Option<string>)
      modifies this
      ensures State() == old(State()).(loading := false, error := payload)
    {
      loading := false;
      error := payload;
    }

    // ----- creating a garden -----

    method CreateGardenPending()
      modifies this
      ensures State() == old(State()).(loading := true, error := None, success := false)
    {
      loading := true;
      error := None;
      success := false;
    }

    method CreateGardenFulfilled(payload: ClientGarden)
      modifies this
      ensures State() == old(State()).(loading := false, success := true, gardens := old(gardens) + [payload])
    {
      loading := false;
      success := true;
      gardens := gardens + [payload];
    }

    method CreateGardenRejected(payload: Option<string>)
      modifies this
      ensures State() == old(State()).(loading := false, error := payload)
    {
      loading := false;
      error := payload;
    }

    // ----- updating a garden -----

    method UpdateGardenPending()
      modifies this
      ensures State() == old(State()).(loading := true, error := None, success := false)
    {
      loading := true;
      error := None;
      success := false;
    }

    method UpdateGardenFulfilled(payload: ClientGarden)
      modifies this
      ensures State() == old(State()).(loading := false, success := true,
                                       gardens := ReplaceGarden(old(gardens), payload),
                                       gardenDetails := Some(payload))
    {
      loading := false;
      success := true;
      gardens := ReplaceGarden(gardens, payload);
      gardenDetails := Some(payload);
    }

    method UpdateGardenRejected(payload: Option<string>)
      modifies this
      ensures State() == old(State()).(loading := false, error := payload)
    {
      loading := false;
      error := payload;
    }

    // ----- deleting a garden -----

    method DeleteGardenPending()
      modifies this
      ensures State() == old(State()).(loading := true, error := None, success := false)
    {
      loading := true;
      error := None;
      success := false;
    }

    method DeleteGardenFulfilled(payload: Option<string>)
      modifies this
      ensures State() == old(State()).(loading := false, success := true,
                                       gardens := RemoveGarden(old(gardens), payload),
                                       gardenDetails := None)
    {
      loading := false;
      success := true;
      gardens := RemoveGarden(gardens, payload);
      gardenDetails := None;
    }

    method DeleteGardenRejected(payload: Option<string>)
      modifies this
      ensures State() == old(State()).(loading := false, error := payload)
    {
      loading := false;
      error := payload;
    }

    // ----- element changes on the open garden -----

    method AddElementFulfilled(payload: Element)
      modifies this
      ensures old(gardenDetails).None? ==> State() == old(State())
      ensures old(gardenDetails).Some? ==>
        State() == old(State()).(gardenDetails :=
          Some(old(gardenDetails).value.(elements := old(gardenDetails).value.elements + [payload])))
    {
      if gardenDetails.Some? {
        var details := gardenDetails.value;
        gardenDetails := Some(details.(elements := details.elements + [payload]));
      }
    }

    method UpdateElementFulfilled(payload: Element)
      modifies this
      ensures old(gardenDetails).None? ==> State() == old(State())
      ensures old(gardenDetails).Some? ==>
        State() == old(State()).(gardenDetails :=
          Some(old(gardenDetails).value.(elements := ReplaceElement(old(gardenDetails).value.elements, payload))))
    {
      if gardenDetails.Some? {
        var details := gardenDetails.value;
        gardenDetails := Some(details.(elements := ReplaceElement(details.elements, payload)));
      }
    }

    method DeleteElementFulfilled(payload: Option<string>)
      modifies this
      ensures old(gardenDetails).None? ==> State() == old(State())
      ensures old(gardenDetails).Some? ==>
        State() == old(State()).(gardenDetails :=
          Some(old(gardenDetails).value.(elements := RemoveElement(old(gardenDetails).value.elements, payload))))
    {
      if gardenDetails.Some? {
        var details := gardenDetails.value;
        gardenDetails := Some(details.(elements := RemoveElement(details.elements, payload)));
      }
    }
  }

  /** A client of the store: creating a garden and then deleting it by its id
      leaves the garden list as it was when no stored garden shared that id. */
  method CreateThenDelete(store: GardenStore, gardenData: GardenPatch, stamp: string)
    requires forall i :: 0 <= i < |store.gardens| ==> store.gardens[i].id != Some("garden-" + stamp)
    modifies store
    ensures store.gardens == old(store.gardens)
    ensures store.gardenDetails.None? && store.success && !store.loading
  {
    store.CreateGardenPending();
    var created := CreateGardenPayload(gardenData, stamp);
    store.CreateGardenFulfilled(created);
    store.DeleteGardenPending();
    store.DeleteGardenFulfilled(created.id);
    RemoveGardenSpec(old(store.gardens), created, created.id);
  }
}
