/** The garden routes over the garden document loaded for a request: who may
    see or change it, the field-by-field update, and the operations on its
    element list. Loading and saving the document are not modelled; a route
    receives the loaded document, or `null` when none has the requested id. */
module GardenRoutes {
  import opened Wrappers
  import opened JsValue
  import opened Http

  const GardenNotFound: string := "Garden not found"
  const ElementNotFound: string := "Garden element not found"
  const NotAuthorizedAccess: string := "Not authorized to access this garden"
  const NotAuthorizedUpdate: string := "Not authorized to update this garden"
  const NotAuthorizedDelete: string := "Not authorized to delete this garden"

  /** A JSON request body. */
  type Body = map<string, Value>

  /** A garden element as a plain object; its `_id` is assigned by the store. */
  type ElementDoc = map<string, Value>

  /** All fields of a garden document as one value. */
  datatype GardenRecord = GardenRecord(
    user: string,
    name: Value,
    description: Value,
    dimensions: Value,
    location: Value,
    elements: seq<ElementDoc>,
    isPublic: Value,
    tags: Value,
    weatherData: Value)

  /** An array body value as element objects; anything that is not an array
      of objects is not something the schema accepts, and reads as empty. */
  function ElementsOf(v: Value): (r: seq<ElementDoc>)
    ensures v.Arr? ==> |r| == |v.items|
    ensures v.Arr? ==> forall i :: 0 <= i < |r| && v.items[i].Obj? ==> r[i] == v.items[i].fields
    ensures !v.Arr? ==> r == []
  {
    if v.Arr? then seq(|v.items|, i requires 0 <= i < |v.items| => if v.items[i].Obj? then v.items[i].fields else map[])
    else []
  }

  // ----- creating and reading -----

  /** The garden the create route stores for `userId`: the body's fields, with
      no elements, not public, no tags and no weather data by default. */
  function NewGarden(userId: string, body: Body): (r: GardenRecord)
    ensures r.user == userId
    ensures r.name == Get(body, "name") && r.description == Get(body, "description")
    ensures r.dimensions == Get(body, "dimensions") && r.location == Get(body, "location")
    ensures !Truthy(Get(body, "elements")) ==> r.elements == []
    ensures Truthy(Get(body, "elements")) ==> r.elements == ElementsOf(Get(body, "elements"))
    ensures Truthy(r.isPublic) <==> Truthy(Get(body, "isPublic"))
    ensures Truthy(Get(body, "isPublic")) ==> r.isPublic == Get(body, "isPublic")
    ensures !Truthy(Get(body, "isPublic")) ==> r.isPublic == Bool(false)
    ensures Truthy(Get(body, "tags")) ==> r.tags == Get(body, "tags")
    ensures !Truthy(Get(body, "tags")) ==> r.tags == Arr([])
    ensures Truthy(Get(body, "weatherData")) ==> r.weatherData == Get(body, "weatherData")
    ensures !Truthy(Get(body, "weatherData")) ==> r.weatherData == Obj(map[])
  {
    GardenRecord(userId, Get(body, "name"), Get(body, "description"), Get(body, "dimensions"),
                 Get(body, "location"), ElementsOf(Or(Get(body, "elements"), Arr([]))),
                 Or(Get(body, "isPublic"), Bool(false)), Or(Get(body, "tags"), Arr([])),
                 Or(Get(body, "weatherData"), Obj(map[])))
  }

  /** Who may read a garden: its owner, or anyone when it is public. */
  predicate CanView(g: GardenRecord, userId: string) {
    g.user == userId || Truthy(g.isPublic)
  }

  /** A new garden is visible to others exactly when the body made it
      public. */
  lemma NewGardenVisibility(userId: string, other: string, body: Body)
    ensures CanView(NewGarden(userId, body), userId)
    ensures other != userId ==> (CanView(NewGarden(userId, body), other) <==> Truthy(Get(body, "isPublic")))
  {
  }

  /** The gardens of one user, in store order. */
  function UserGardens(all: seq<GardenRecord>, userId: string): (r: seq<GardenRecord>)
    ensures forall g :: g in r <==> g in all && g.user == userId
  {
    if all == [] then []
    else (if all[0].user == userId then [all[0]] else []) + UserGardens(all[1..], userId)
  }

  // ----- the update -----

  /** The update route's rule: each field takes the body's value when that is
      truthy, except `isPublic`, which takes any value that is not
      `undefined`. The owner never changes. */
  function ApplyUpdate(g: GardenRecord, body: Body): (r: GardenRecord)
    ensures r.user == g.user
  {
    g.(name := Or(Get(body, "name"), g.name),
       description := Or(Get(body, "description"), g.description),
       dimensions := Or(Get(body, "dimensions"), g.dimensions),
       location := Or(Get(body, "location"), g.location),
       elements := if Truthy(Get(body, "elements")) then ElementsOf(Get(body, "elements")) else g.elements,
       isPublic := if Get(body, "isPublic") != Undefined then Get(body, "isPublic") else g.isPublic,
       tags := Or(Get(body, "tags"), g.tags),
       weatherData := Or(Get(body, "weatherData"), g.weatherData))
  }

  /** A truthy body value replaces its field and a falsy one keeps the
      stored value; `isPublic` takes any defined value, so an explicit
      `false` does make a garden private. */
  lemma UpdateFieldRules(g: GardenRecord, body: Body)
    ensures Truthy(Get(body, "name")) ==> ApplyUpdate(g, body).name == Get(body, "name")
    ensures !Truthy(Get(body, "name")) ==> ApplyUpdate(g, body).name == g.name
    ensures Truthy(Get(body, "description")) ==> ApplyUpdate(g, body).description == Get(body, "description")
    ensures !Truthy(Get(body, "description")) ==> ApplyUpdate(g, body).description == g.description
    ensures Truthy(Get(body, "dimensions")) ==> ApplyUpdate(g, body).dimensions == Get(body, "dimensions")
    ensures !Truthy(Get(body, "dimensions")) ==> ApplyUpdate(g, body).dimensions == g.dimensions
    ensures Truthy(Get(body, "location")) ==> ApplyUpdate(g, body).location == Get(body, "location")
    ensures !Truthy(Get(body, "location")) ==> ApplyUpdate(g, body).location == g.location
    ensures Truthy(Get(body, "tags")) ==> ApplyUpdate(g, body).tags == Get(body, "tags")
    ensures !Truthy(Get(body, "tags")) ==> ApplyUpdate(g, body).tags == g.tags
    ensures Truthy(Get(body, "weatherData")) ==> ApplyUpdate(g, body).weatherData == Get(body, "weatherData")
    ensures !Truthy(Get(body, "weatherData")) ==> ApplyUpdate(g, body).weatherData == g.weatherData
    ensures Truthy(Get(body, "elements")) ==> ApplyUpdate(g, body).elements == ElementsOf(Get(body, "elements"))
    ensures !Truthy(Get(body, "elements")) ==> ApplyUpdate(g, body).elements == g.elements
    ensures Get(body, "isPublic") != Undefined ==> ApplyUpdate(g, body).isPublic == Get(body, "isPublic")
    ensures Get(body, "isPublic") == Bool(false) ==> forall other :: other != g.user ==> !CanView(ApplyUpdate(g, body), other)
    ensures "isPublic" !in body ==> ApplyUpdate(g, body).isPublic == g.isPublic
  {
  }

  /** Sending the same update twice has the effect of sending it once. */
  lemma UpdateIdempotent(g: GardenRecord, body: Body)
    ensures ApplyUpdate(ApplyUpdate(g, body), body) == ApplyUpdate(g, body)
  {
  }

  /** An empty body changes nothing. */
  lemma EmptyUpdateChangesNothing(g: GardenRecord)
    ensures ApplyUpdate(g, map[]) == g
  {
  }

  // ----- the element list -----

  /** Whether an element is the one named by the route's `elementId`. */
  predicate HasId(e: ElementDoc, elementId: string) {
    "_id" in e && e["_id"] == Str(elementId)
  }

  /** `findIndex`: the position of the first element with the given id. */
  function FirstMatch(es: seq<ElementDoc>, elementId: string): (r: Option<nat>)
    ensures r.Some? ==> r.value < |es| && HasId(es[r.value], elementId)
    ensures r.Some? ==> forall j :: 0 <= j < r.value ==> !HasId(es[j], elementId)
    ensures r.None? ==> forall j :: 0 <= j < |es| ==> !HasId(es[j], elementId)
  {
    if es == [] then None
    else if HasId(es[0], elementId) then Some(0)
    else match FirstMatch(es[1..], elementId)
      case None => None
      case Some(k) => Some(k + 1)
  }

  /** `{...old, ...body, _id: old._id}`: the body's fields over the old ones,
      with the old `_id` kept. */
  function Merge(prev: ElementDoc, body: Body): (r: ElementDoc)
    ensures Get(r, "_id") == Get(prev, "_id")
    ensures forall k :: k in r <==> k in prev || k in body || k == "_id"
    ensures forall k :: k in r && k != "_id" && k in body ==> r[k] == body[k]
    ensures forall k :: k in r && k != "_id" && k !in body ==> r[k] == prev[k]
  {
    (prev + body)["_id" := Get(prev, "_id")]
  }

  /** `splice(i, 1)`: the list without its `i`-th element. */
  function RemoveAt(es: seq<ElementDoc>, i: nat): (r: seq<ElementDoc>)
    requires i < |es|
    ensures |r| == |es| - 1
    ensures forall j :: 0 <= j < i ==> r[j] == es[j]
    ensures forall j :: i <= j < |r| ==> r[j] == es[j + 1]
  {
    es[..i] + es[i + 1..]
  }

  /** The merged element keeps its place and is still the one the id finds. */
  lemma MergeKeepsLookup(es: seq<ElementDoc>, elementId: string, body: Body)
    requires FirstMatch(es, elementId).Some?
    ensures
      var i := FirstMatch(es, elementId).value;
      var es' := es[i := Merge(es[i], body)];
      |es'| == |es| && FirstMatch(es', elementId) == Some(i) &&
      forall j :: 0 <= j < |es| && j != i ==> es'[j] == es[j]
  {
    var i := FirstMatch(es, elementId).value;
    var es' := es[i := Merge(es[i], body)];
    FirstMatchUnique(es', elementId, i);
  }

  /** An element with the id and none before it is the first match. */
  lemma {:induction false} FirstMatchUnique(es: seq<ElementDoc>, elementId: string, i: nat)
    requires i < |es| && HasId(es[i], elementId)
    requires forall j :: 0 <= j < i ==> !HasId(es[j], elementId)
    ensures FirstMatch(es, elementId) == Some(i)
  {
    if i > 0 {
      FirstMatchUnique(es[1..], elementId, i - 1);
    }
  }

  /** Adding an element with a new id and then deleting that id gives back
      the original list. */
  lemma AddThenDeleteElement(es: seq<ElementDoc>, e: ElementDoc, elementId: string)
    requires FirstMatch(es, elementId).None? && HasId(e, elementId)
    ensures FirstMatch(es + [e], elementId) == Some(|es|)
    ensures RemoveAt(es + [e], |es|) == es
  {
    FirstMatchUnique(es + [e], elementId, |es|);
  }

  /** A loaded garden document, whose fields the routes assign in place. */
  class Garden {
    var user: string
    var name: Value
    var description: Value
    var dimensions: Value
    var location: Value
    var elements: seq<ElementDoc>
    var isPublic: Value
    var tags: Value
    var weatherData: Value

    function State(): GardenRecord
      reads this
    {
      GardenRecord(user, name, description, dimensions, location, elements, isPublic, tags, weatherData)
    }

    /** The document the create route builds for `userId`. */
    constructor (userId: string, body: Body)
      ensures State() == NewGarden(userId, body)
    {
      user := userId;
      name, description := Get(body, "name"), Get(body, "description");
      dimensions, location := Get(body, "dimensions"), Get(body, "location");
      elements := ElementsOf(Or(Get(body, "elements"), Arr([])));
      isPublic := Or(Get(body, "isPublic"), Bool(false));
      tags := Or(Get(body, "tags"), Arr([]));
      weatherData := Or(Get(body, "weatherData"), Obj(map[]));
    }

    /** Assign each field from the body in turn. */
    method Update(body: Body)
      modifies this
      ensures State() == ApplyUpdate(old(State()), body)
    {
      name := Or(Get(body, "name"), name);
      description := Or(Get(body, "description"), description);
      dimensions := Or(Get(body, "dimensions"), dimensions);
      location := Or(Get(body, "location"), location);
      if Truthy(Get(body, "elements")) {
        elements := ElementsOf(Get(body, "elements"));
      }
      if Get(body, "isPublic") != Undefined {
        isPublic := Get(body, "isPublic");
      }
      tags := Or(Get(body, "tags"), tags);
      weatherData := Or(Get(body, "weatherData"), weatherData);
    }

    method PushElement(element: ElementDoc)
      modifies this
      ensures State() == old(State()).(elements := old(elements) + [element])
    {
      elements := elements + [element];
    }

    method SetElement(i: nat, element: ElementDoc)
      requires i < |elements|
      modifies this
      ensures State() == old(State()).(elements := old(elements)[i := element])
    {
      elements := elements[i := element];
    }

    method SpliceElement(i: nat)
      requires i < |elements|
      modifies this
      ensures State() == old(State()).(elements := RemoveAt(old(elements), i))
    {
      elements := elements[..i] + elements[i + 1..];
    }
  }

  // ----- the routes -----

  /** GET /:id — the garden for its owner or, when public, for anyone. */
  function GetGardenRoute(garden: Garden?, userId: string): (r: Response<GardenRecord>)
    reads garden
    ensures garden == null ==> r == Fail(404, GardenNotFound)
    ensures garden != null ==> (r.Ok? <==> CanView(garden.State(), userId))
    ensures garden != null && !CanView(garden.State(), userId) ==> r == Fail(403, NotAuthorizedAccess)
    ensures r.Ok? ==> garden != null && r.value == garden.State()
  {
    if garden == null then Fail(404, GardenNotFound)
    else if CanView(garden.State(), userId) then Ok(garden.State())
    else Fail(403, NotAuthorizedAccess)
  }

  /** DELETE /:id — only the owner may delete; removing the stored document
      is not modelled. */
  function DeleteGardenRoute(garden: Garden?, userId: string): (r: Response<string>)
    reads garden
    ensures garden == null ==> r == Fail(404, GardenNotFound)
    ensures garden != null ==> (r.Ok? <==> garden.user == userId)
    ensures garden != null && garden.user != userId ==> r == Fail(403, NotAuthorizedDelete)
    ensures r.Ok? ==> r.value == "Garden removed"
  {
    if garden == null then Fail(404, GardenNotFound)
    else if garden.user != userId then Fail(403, NotAuthorizedDelete)
    else Ok("Garden removed")
  }

  /** PUT /:id — the owner's update; anyone else gets 403 and nothing
      changes. */
  method UpdateGardenRoute(garden: Garden?, userId: string, body: Body) returns (r: Response<GardenRecord>)
    modifies garden
    ensures garden == null ==> r == Fail(404, GardenNotFound)
    ensures garden != null && old(garden.user) != userId ==>
      r == Fail(403, NotAuthorizedUpdate) && garden.State() == old(garden.State())
    ensures garden != null && old(garden.user) == userId ==>
      garden.State() == ApplyUpdate(old(garden.State()), body) && r == Ok(garden.State())
  {
    if garden == null {
      return Fail(404, GardenNotFound);
    }
    if garden.user != userId {
      return Fail(403, NotAuthorizedUpdate);
    }
    garden.Update(body);
    r := Ok(garden.State());
  }

  /** POST /:id/elements — the body is appended as a new element. */
  method AddElementRoute(garden: Garden?, userId: string, element: ElementDoc) returns (r: Response<GardenRecord>)
    modifies garden
    ensures garden == null ==> r == Fail(404, GardenNotFound)
    ensures garden != null && old(garden.user) != userId ==>
      r == Fail(403, NotAuthorizedUpdate) && garden.State() == old(garden.State())
    ensures garden != null && old(garden.user) == userId ==>
      garden.State() == old(garden.State()).(elements := old(garden.elements) + [element]) &&
      r == Ok(garden.State())
  {
    if garden == null {
      return Fail(404, GardenNotFound);
    }
    if garden.user != userId {
      return Fail(403, NotAuthorizedUpdate);
    }
    garden.PushElement(element);
    r := Ok(garden.State());
  }

  /** PUT /:id/elements/:elementId — the body merged over the first element
      with that id, keeping its `_id`; 404 when there is none. */
  method UpdateElementRoute(garden: Garden?, userId: string, elementId: string, body: Body)
    returns (r: Response<GardenRecord>)
    modifies garden
    ensures garden == null ==> r == Fail(404, GardenNotFound)
    ensures garden != null && old(garden.user) != userId ==>
      r == Fail(403, NotAuthorizedUpdate) && garden.State() == old(garden.State())
    ensures garden != null && old(garden.user) == userId && FirstMatch(old(garden.elements), elementId).None? ==>
      r == Fail(404, ElementNotFound) && garden.State() == old(garden.State())
    ensures garden != null && old(garden.user) == userId && FirstMatch(old(garden.elements), elementId).Some? ==>
      var i := FirstMatch(old(garden.elements), elementId).value;
      garden.State() == old(garden.State()).(elements := old(garden.elements)[i := Merge(old(garden.elements)[i], body)]) &&
      r == Ok(garden.State())
  {
    if garden == null {
      return Fail(404, GardenNotFound);
    }
    if garden.user != userId {
      return Fail(403, NotAuthorizedUpdate);
    }
    var index := FirstMatch(garden.elements, elementId);
    if index.None? {
      return Fail(404, ElementNotFound);
    }
    garden.SetElement(index.value, Merge(garden.elements[index.value], body));
    r := Ok(garden.State());
  }

  /** DELETE /:id/elements/:elementId — the first element with that id is
      spliced out; 404 when there is none. */
  method DeleteElementRoute(garden: Garden?, userId: string, elementId: string) returns (r: Response<GardenRecord>)
    modifies garden
    ensures garden == null ==> r == Fail(404, GardenNotFound)
    ensures garden != null && old(garden.user) != userId ==>
      r == Fail(403, NotAuthorizedUpdate) && garden.State() == old(garden.State())
    ensures garden != null && old(garden.user) == userId && FirstMatch(old(garden.elements), elementId).None? ==>
      r == Fail(404, ElementNotFound) && garden.State() == old(garden.State())
    ensures garden != null && old(garden.user) == userId && FirstMatch(old(garden.elements), elementId).Some? ==>
      garden.State() == old(garden.State()).(elements :=
        RemoveAt(old(garden.elements), FirstMatch(old(garden.elements), elementId).value)) &&
      r == Ok(garden.State())
  {
    if garden == null {
      return Fail(404, GardenNotFound);
    }
    if garden.user != userId {
      return Fail(403, NotAuthorizedUpdate);
    }
    var index := FirstMatch(garden.elements, elementId);
    if index.None? {
      return Fail(404, ElementNotFound);
    }
    garden.SpliceElement(index.value);
    r := Ok(garden.State());
  }
}
