/** The plant routes without the database: pagination arithmetic, the
    listing filter, the defaults of a new plant, who may change a plant, the
    fields an update sets, and the month check of the season route. */
module PlantRoutes {
  import opened Wrappers
  import opened JsValue
  import opened Http

  const PageSize: int := 20
  const PlantNotFound: string := "Plant not found"
  const NotAuthorizedUpdate: string := "Not authorized to update this plant"
  const NotAuthorizedDelete: string := "Not authorized to delete this plant"
  const InvalidMonth: string := "Invalid month. Please provide a number between 1 and 12."

  /** A stored plant as a plain object. */
  type Plant = map<string, Value>

  /** The authenticated requester. */
  datatype Requester = Requester(id: string, isAdmin: bool)

  // ----- listing -----

  /** `Number(pageNumber) || 1`, with `None` standing for NaN: a zero or
      unparsable page number means page 1. */
  function PageNumber(parsed: Option<int>): (r: int)
    ensures r != 0
    ensures parsed.Some? && parsed.value != 0 ==> r == parsed.value
    ensures parsed.None? || parsed.value == 0 ==> r == 1
  {
    match parsed
    case Some(n) => if n != 0 then n else 1
    case None => 1
  }

  /** How many plants the query skips for a page: whole pages of 20 before
      it, none for page 1, and a negative count for a page below 1. */
  function Skip(page: int): (r: int)
    ensures r % PageSize == 0 && r / PageSize == page - 1
    ensures r >= 0 <==> page >= 1
  {
    PageSize * (page - 1)
  }

  /** `Math.ceil(count / 20)`: the fewest pages that hold `count` plants. */
  function Pages(count: nat): (r: nat)
    ensures PageSize * (r - 1) < count <= PageSize * r || (count == 0 && r == 0)
  {
    (count + PageSize - 1) / PageSize
  }

  /** Every plant of a listing lies on exactly one page between 1 and
      `Pages(count)`. */
  lemma PagesCoverListing(count: nat, k: nat)
    requires k < count
    ensures var page := k / PageSize + 1;
      1 <= page <= Pages(count) && Skip(page) <= k < Skip(page) + PageSize
  {
    var page := k / PageSize + 1;
    assert PageSize * (page - 1) <= k;
  }

  /** The first page starts at the first plant, and pages follow one another
      without gap or overlap. */
  lemma PagesAreConsecutive(page: int)
    ensures Skip(PageNumber(None)) == 0
    ensures Skip(page + 1) == Skip(page) + PageSize
  {
  }

  /** The query filter: a case-insensitive name match when a keyword is
      given, the plant type when one is given, and always public plants
      only. */
  function ListingFilter(keyword: Option<string>, plantType: Option<string>): (r: map<string, Value>)
    ensures "isPublic" in r && r["isPublic"] == Bool(true)
    ensures "name" in r <==> Present(keyword)
    ensures Present(keyword) ==> r["name"] == Obj(map["$regex" := Str(keyword.value), "$options" := Str("i")])
    ensures "plantType" in r <==> Present(plantType)
    ensures Present(plantType) ==> r["plantType"] == Str(plantType.value)
    ensures forall k :: k in r ==> k == "name" || k == "plantType" || k == "isPublic"
  {
    var byName: map<string, Value> :=
      if Present(keyword) then map["name" := Obj(map["$regex" := Str(keyword.value), "$options" := Str("i")])]
      else map[];
    var byType: map<string, Value> := if Present(plantType) then map["plantType" := Str(plantType.value)] else map[];
    (byName + byType)["isPublic" := Bool(true)]
  }

  // ----- reading, creating -----

  /** GET /:id. */
  function GetPlantRoute(plant: Option<Plant>): (r: Response<Plant>)
    ensures plant.None? <==> r == Fail(404, PlantNotFound)
    ensures plant.Some? ==> r == Ok(plant.value)
  {
    match plant
    case None => Fail(404, PlantNotFound)
    case Some(p) => Ok(p)
  }

  /** The defaults of the optional plant fields, used when the body's value
      is falsy. */
  const Defaults: map<string, Value> := map[
    "scientificName" := Str(""), "description" := Str(""), "growingInfo" := Obj(map[]),
    "timeToMaturity" := Num(0), "sowingPeriod" := Arr([]), "harvestPeriod" := Arr([]),
    "companionPlants" := Arr([]), "careInstructions" := Obj(map[]), "harvestInstructions" := Str(""),
    "expectedYield" := Str(""), "storage" := Str(""), "culinaryUses" := Arr([]),
    "medicinalUses" := Arr([]), "images" := Arr([]), "tags" := Arr([])]

  /** The plant the create route stores: name and type as given, every
      optional field from the body or its default, public unless the body
      says otherwise, created by the requester. */
  function NewPlant(body: map<string, Value>, userId: string): (r: Plant)
    ensures forall k :: k in r <==> k in Defaults || k in {"name", "plantType", "isPublic", "createdBy"}
    ensures forall k :: k in Defaults && Truthy(Get(body, k)) ==> k in r && r[k] == body[k]
    ensures forall k :: k in Defaults && !Truthy(Get(body, k)) ==> k in r && r[k] == Defaults[k]
  {
    var given := map[
      "name" := Get(body, "name"),
      "plantType" := Get(body, "plantType"),
      "isPublic" := if Get(body, "isPublic") != Undefined then Get(body, "isPublic") else Bool(true),
      "createdBy" := Str(userId)];
    given + map k | k in Defaults :: Or(Get(body, k), Defaults[k])
  }

  lemma GivenKeysHaveNoDefault()
    ensures "name" !in Defaults && "plantType" !in Defaults
    ensures "isPublic" !in Defaults && "createdBy" !in Defaults
  {
  }

  /** Name and type are taken as given, the creator is the requester, and
      the plant is public unless the body gives a visibility. */
  lemma NewPlantFields(body: map<string, Value>, userId: string)
    ensures Get(NewPlant(body, userId), "name") == Get(body, "name")
    ensures Get(NewPlant(body, userId), "plantType") == Get(body, "plantType")
    ensures Get(NewPlant(body, userId), "createdBy") == Str(userId)
    ensures Get(body, "isPublic") == Undefined ==> Get(NewPlant(body, userId), "isPublic") == Bool(true)
    ensures Get(body, "isPublic") != Undefined ==> Get(NewPlant(body, userId), "isPublic") == body["isPublic"]
  {
    GivenKeysHaveNoDefault();
  }

  /** An explicit `false` keeps a new plant private, which the `||` idiom of
      the other fields would not. */
  lemma NewPlantExplicitFalseKept(body: map<string, Value>, userId: string)
    requires Get(body, "isPublic") == Bool(false)
    ensures Get(NewPlant(body, userId), "isPublic") == Bool(false)
    ensures Or(Get(body, "isPublic"), Bool(true)) == Bool(true)
  {
    NewPlantFields(body, userId);
  }

  // ----- changing and deleting -----

  /** Who may change or delete a plant: an admin, or the user recorded as its
      creator. */
  predicate MayModify(plant: Plant, user: Requester) {
    user.isAdmin || (Truthy(Get(plant, "createdBy")) && Get(plant, "createdBy") == Str(user.id))
  }

  /** The check before an update or a delete: 404 for a missing plant, 403
      unless the requester may modify it. */
  function ModifyOutcome(plant: Option<Plant>, user: Requester, denied: string): (r: Outcome)
    ensures plant.None? ==> r == Reject(404, PlantNotFound)
    ensures plant.Some? ==> (r == Proceed <==> MayModify(plant.value, user))
    ensures plant.Some? && !MayModify(plant.value, user) ==> r == Reject(403, denied)
  {
    match plant
    case None => Reject(404, PlantNotFound)
    case Some(p) =>
      if !user.isAdmin && (!Truthy(Get(p, "createdBy")) || Get(p, "createdBy") != Str(user.id)) then Reject(403, denied)
      else Proceed
  }

  /** A plant with no recorded creator can only be changed by an admin. */
  lemma OrphanPlantAdminOnly(plant: Plant, user: Requester)
    requires !Truthy(Get(plant, "createdBy"))
    ensures MayModify(plant, user) <==> user.isAdmin
  {
  }

  /** The fields an update sets: the body's keys whose value is not
      `undefined`, collected one key at a time. */
  method UpdatedFields(body: map<string, Value>) returns (acc: map<string, Value>)
    ensures forall k :: k in acc <==> k in body && body[k] != Undefined
    ensures forall k :: k in acc ==> acc[k] == body[k]
  {
    acc := map[];
    var keys := body.Keys;
    while keys != {}
      invariant keys <= body.Keys
      invariant forall k :: k in acc <==> k in body && k !in keys && body[k] != Undefined
      invariant forall k :: k in acc ==> acc[k] == body[k]
      decreases keys
    {
      var key :| key in keys;
      if body[key] != Undefined {
        acc := acc[key := body[key]];
      }
      keys := keys - {key};
    }
  }

  /** PUT /:id — the allowed requester's body fields set over the plant. */
  method UpdatePlantRoute(plant: Option<Plant>, user: Requester, body: map<string, Value>) returns (r: Response<Plant>)
    ensures plant.None? ==> r == Fail(404, PlantNotFound)
    ensures plant.Some? && !MayModify(plant.value, user) ==> r == Fail(403, NotAuthorizedUpdate)
    ensures plant.Some? && MayModify(plant.value, user) ==> (r.Ok? &&
      (forall k :: k in r.value <==> k in plant.value || (k in body && body[k] != Undefined)) &&
      (forall k :: k in body && body[k] != Undefined ==> r.value[k] == body[k]) &&
      (forall k :: k in plant.value && (k !in body || body[k] == Undefined) ==> r.value[k] == plant.value[k]))
  {
    var outcome := ModifyOutcome(plant, user, NotAuthorizedUpdate);
    if outcome.Reject? {
      return Fail(outcome.status, outcome.message);
    }
    var fields := UpdatedFields(body);
    r := Ok(plant.value + fields);
  }

  /** DELETE /:id. */
  function DeletePlantRoute(plant: Option<Plant>, user: Requester): (r: Response<string>)
    ensures plant.None? ==> r == Fail(404, PlantNotFound)
    ensures plant.Some? ==> (r.Ok? <==> MayModify(plant.value, user))
    ensures plant.Some? && !MayModify(plant.value, user) ==> r == Fail(403, NotAuthorizedDelete)
    ensures r.Ok? ==> r.value == "Plant removed"
  {
    match ModifyOutcome(plant, user, NotAuthorizedDelete)
    case Reject(status, message) => Fail(status, message)
    case Proceed => Ok("Plant removed")
  }

  // ----- season -----

  /** The month check of GET /season/:month, with `None` standing for a
      month `parseInt` could not read. */
  function MonthOutcome(parsed: Option<int>): (r: Outcome)
    ensures r == Proceed <==> parsed.Some? && 1 <= parsed.value <= 12
    ensures r != Proceed ==> r == Reject(400, InvalidMonth)
  {
    if parsed.None? || parsed.value < 1 || parsed.value > 12 then Reject(400, InvalidMonth) else Proceed
  }
}
