# Allotment planner — a verified model of its core

The allotment planner is a web app for laying out a garden on a grid. Its
client keeps elements (beds, paths, plants, trees, structures) in grid
units, converts them to canvas pixels, refuses drags that would overlap
another element, snaps accepted drags to the grid, and zooms the canvas
around the mouse pointer. A client-side store holds the user's gardens and
has one reducer case per state transition. The server offers routes for
gardens and their elements, a plant catalogue, and weather data from which
it derives gardening alerts. Three pages handle sign-up, sign-in and the
profile form.

The model keeps each of these in its source's own form:

- The pure helpers are functions over datatypes: grid conversion, collision,
  the drag decision, element styling, the listing arithmetic and the alert
  rules.
- The parts that update state in place are classes with `modifies` clauses:
  - the store reducer, one method per case;
  - the zoom state;
  - a loaded garden document, whose fields the routes assign;
  - the registration and profile forms.
- The loops become methods with invariants, each proved against a
  specification function:
  - grouping the forecast by day;
  - collecting the fields an update sets.
- Deriving the alerts is a method too, a chain of rule checks with no loop,
  as in the source. It is proved equal to the alert specification.

The main results proved:

- Snapping an accepted drag to the grid never creates an overlap.
- Grid-to-pixel conversion round-trips.
- Each alert appears exactly when its rule fires, and in a fixed order.
- Each date group holds exactly that date's forecast entries.
- Only the owner (or, for plants, an admin or the creator) can change
  anything, and a refused request changes nothing.

JavaScript values the server reads from request bodies are modelled by
`JsValue.Value`, together with JavaScript truthiness and `a || b`. Numbers
in bodies, and canvas and grid coordinates, are integers. Zoom and aspect
ratios use exact reals.

Files, one module each:
- `wrappers.dfy`, `js_value.dfy`, `http.dfy`, `session.dfy`: shared value
  types;
- `grid_config.dfy`: the grid and zoom constants;
- `position_utils.dfy`, `collision_utils.dfy`, `element_drag.dfy`,
  `element_utils.dfy`, `canvas_zoom.dfy`, `garden_slice.dfy`: the client
  logic;
- `weather_routes.dfy`, `garden_routes.dfy`, `plant_routes.dfy`: the server
  routes;
- `register_page.dfy`, `profile_page.dfy`, `login_page.dfy`: the pages.

## Model

| member | source | states |
|---|---|---|
| PositionUtils.GridToPixel | client/src/utils/positionUtils.js:11-18 | a missing position is the origin; a grid point lands on a grid line, and dividing by the cell size gives the grid index back |
| PositionUtils.RoundDiv | client/src/utils/positionUtils.js:29-32 | `Math.round(p / g)` for a positive grid size: the result is the integer nearest to p/g, with halves rounded up |
| PositionUtils.RoundDivUnique | client/src/utils/positionUtils.js:29-32 | any integer within half a grid cell of the pixel is the rounded result, so rounding has one answer |
| PositionUtils.RoundDivKeepsSide | client/src/utils/positionUtils.js:29-32 | rounding never crosses a grid line: a pixel at or beyond `g*k` rounds to at least `k`, and one at or before it rounds to at most `k` |
| PositionUtils.PixelToGrid | client/src/utils/positionUtils.js:26-33 | a missing position gives (0,0); otherwise each coordinate is the nearest grid index to pixel/gridSize |
| PositionUtils.GridPixelRoundTrip | client/src/utils/positionUtils.js:11-33 | converting a grid point to pixels and back gives the same grid point |
| PositionUtils.ConversionExamples | client/src/utils/__tests__/positionUtils.test.js:16-34 | the conversion cases of the test file: (3,4)→(90,120), (91,119)→(3,4), missing input → (0,0) |
| PositionUtils.ElementPixelPosition | client/src/utils/positionUtils.js:41-52 | no element gives (0,0); otherwise the pixel position of the nested `position`, else of flat x/y when both are defined, else (0,0) |
| PositionUtils.ElementPixelDimensions | client/src/utils/positionUtils.js:60-77 | no element gives one grid cell; otherwise nested dimensions, else flat width/height when both are defined, else one cell, each scaled by gridSize |
| PositionUtils.UpdateElementPosition | client/src/utils/positionUtils.js:85-102 | a missing element or position returns the input; otherwise only the position fields change, in the element's own shape (nested or flat) |
| PositionUtils.UpdateThenRead | client/src/utils/positionUtils.js:41-102 | after an update, the pixel position read back is the new grid position scaled, and the dimensions are unchanged |
| PositionUtils.ShapesAgree | client/src/utils/positionUtils.js:41-77 | a nested-shape and a flat-shape element with the same grid values give the same pixel position and dimensions |
| PositionUtils.ReadExamples | client/src/utils/__tests__/positionUtils.test.js:38-68 | the read cases of the test file for both shapes, a half-defined flat position, and a missing element |
| CollisionUtils.RectIntersect | client/src/utils/collisionUtils.js:12-19 | strict overlap on both axes; for rectangles of positive size, exactly the overlap of their open extents on each axis |
| CollisionUtils.RectIntersectSymmetric | client/src/utils/collisionUtils.js:12-19 | rectangles overlap symmetrically |
| CollisionUtils.RectIntersectExamples | client/src/utils/__tests__/collisionUtils.test.js:20-24 | overlapping, disjoint and edge-touching test rectangles: touching edges do not intersect |
| CollisionUtils.AnyBlocks | client/src/utils/collisionUtils.js:46-66 | `some`: true exactly when some other element blocks the moved one |
| CollisionUtils.CheckElementCollision | client/src/utils/collisionUtils.js:29-66 | no collision without an element or an element list; otherwise a collision iff some element with another id, not a background, overlaps the moved rectangle |
| CollisionUtils.SelfAndBackgroundIgnored | client/src/utils/collisionUtils.js:48-50 | the element itself and background elements never cause a collision |
| CollisionUtils.CollisionExamples | client/src/utils/__tests__/collisionUtils.test.js:54-72 | the collision cases of the test file |
| ElementDrag.HandleDragEnd | client/src/hooks/useElementDrag.js:29-56 | no update without a garden that has an id, none when the move collides; otherwise the update stores the snapped grid position |
| ElementDrag.SnapKeepsApart | client/src/hooks/useElementDrag.js:52-55 | on one axis, a span that does not overlap a grid-aligned span still does not after its start is snapped to the nearest grid line |
| ElementDrag.SnapKeepsClear | client/src/hooks/useElementDrag.js:38-52 | an element that does not block at the dropped pixel position does not block at the snapped position either |
| ElementDrag.AcceptedMoveStaysClear | client/src/hooks/useElementDrag.js:29-56 | whenever a drag is accepted, the element placed at the stored grid position overlaps no other non-background element of the garden |
| ElementDrag.NoGardenNoUpdate | client/src/hooks/useElementDrag.js:32-35 | no garden, or a garden without an id, never updates |
| ElementUtils.ElementColor | client/src/utils/elementUtils.js:10-31 | grey for no element or an unlisted type; a plant's own colour when truthy, else green; each listed type its fixed colour |
| ElementUtils.ColorDependsOnlyOnType | client/src/utils/elementUtils.js:13-30 | for every type but plant, the colour depends on the type alone |
| ElementUtils.Ratio | client/src/utils/elementUtils.js:42-44 | a width/height quotient, absent exactly when the height is 0 |
| ElementUtils.ElementAspectRatio | client/src/utils/elementUtils.js:38-48 | 1 for no element; nested dimensions first, then flat width/height when both are defined, otherwise 1 |
| ElementUtils.AspectRatioMatchesDimensions | client/src/utils/elementUtils.js:38-48 | the aspect ratio is the ratio of the dimensions the grid read uses |
| ElementUtils.CreateNewElement | client/src/utils/elementUtils.js:55-64 | null for no template; otherwise the template with id `<id>-<stamp>`, its name, and its position or (0,0) |
| ElementUtils.ElementStrokeWidth | client/src/utils/elementUtils.js:72-74 | the width times the scale is 2 when selected, 1 otherwise |
| ElementUtils.SelectedStrokeIsDouble | client/src/utils/elementUtils.js:72-74 | a selected element's stroke is twice an unselected one's |
| ElementUtils.ElementStrokeColor | client/src/utils/elementUtils.js:81-83 | orange when selected, grey otherwise |
| CanvasZoom.Clamp | client/src/hooks/useCanvasZoom.js:44 | the scale forced into [0.1, 5], unchanged inside it |
| CanvasZoom.WheelScale | client/src/hooks/useCanvasZoom.js:39-44 | scrolling up multiplies by the factor and anything else divides, then the result is clamped, so a wheel step stays within the zoom range |
| CanvasZoom.WheelOutThenIn | client/src/hooks/useCanvasZoom.js:39-44 | a step out then a step in restores any scale neither step clamps |
| CanvasZoom.ZoomState.constructor | client/src/hooks/useCanvasZoom.js:18-21 | the state starts at the initial scale and position, not dragging |
| CanvasZoom.ZoomState.HandleWheel | client/src/hooks/useCanvasZoom.js:25-54 | without a stage nothing changes; otherwise the new scale is the clamped step, and the canvas point under the pointer stays under it |
| CanvasZoom.ZoomState.HandleZoomIn | client/src/hooks/useCanvasZoom.js:57-60 | the scale grows by the factor, capped at the maximum; nothing else changes |
| CanvasZoom.ZoomState.HandleZoomOut | client/src/hooks/useCanvasZoom.js:63-66 | the scale shrinks by the factor, floored at the minimum; nothing else changes |
| CanvasZoom.ZoomState.HandleResetView | client/src/hooks/useCanvasZoom.js:69-72 | scale and position return to their initial values |
| CanvasZoom.ZoomState.HandleStageDragStart | client/src/hooks/useCanvasZoom.js:75-78 | dragging starts; scale and position are unchanged |
| CanvasZoom.ZoomState.HandleStageDragEnd | client/src/hooks/useCanvasZoom.js:81-88 | the position becomes the stage's and dragging stops |
| GardenSlice.UserGardensPayload | client/src/slices/gardenSlice.js:37-48 | the mock returns one garden, "garden1", whose only element is the locked background |
| GardenSlice.CreateGardenPayload | client/src/slices/gardenSlice.js:65-92 | a created garden has id `garden-<stamp>`, the given name or "New Garden", and only the background element |
| GardenSlice.UpdateGardenPayload | client/src/slices/gardenSlice.js:95-109 | the supplied fields spread over the mock garden: each given field (name, dimensions, elements) replaces the mock's and each absent one keeps it; without an `_id` the result is "garden1" whichever garden was asked for |
| GardenSlice.AddElementPayload | client/src/slices/gardenSlice.js:126-140 | the element unchanged except for its id `element-<stamp>` |
| GardenSlice.ReplaceWhere | client/src/slices/gardenSlice.js:246-248 | `map`: same length, each matching item replaced by the payload, the others kept |
| GardenSlice.Filter | client/src/slices/gardenSlice.js:265 | `filter`: exactly the kept items remain |
| GardenSlice.FilterAppend | client/src/slices/gardenSlice.js:265 | filtering distributes over concatenation, so the kept items keep their order |
| GardenSlice.FilterAllKept | client/src/slices/gardenSlice.js:265 | a filter that keeps every item returns the list unchanged |
| GardenSlice.ReplaceGardenSpec | client/src/slices/gardenSlice.js:243-250 | an update replaces exactly the gardens with the payload's id and keeps the count |
| GardenSlice.RemoveGardenSpec | client/src/slices/gardenSlice.js:262-267 | a deletion keeps exactly the gardens with another id; deleting a just-appended garden undoes the append; deleting an absent id changes nothing |
| GardenSlice.UpdateWithoutIdTargetsMock | client/src/slices/gardenSlice.js:95-109 | an update whose patch has no `_id` replaces the gardens with id "garden1", and changes nothing when the list has none, as after only `createGarden` |
| GardenSlice.ElementListSpec | client/src/slices/gardenSlice.js:281-296 | element updates replace by id and keep the count; deletions keep exactly the elements with another id, in order |
| GardenSlice.GardenStore.constructor | client/src/slices/gardenSlice.js:4-12 | the store starts in the initial state |
| GardenSlice.GardenStore.ClearGardenError | client/src/slices/gardenSlice.js:175-177 | only the error is cleared |
| GardenSlice.GardenStore.ResetGardenSuccess | client/src/slices/gardenSlice.js:178-180 | only the success flag is cleared |
| GardenSlice.GardenStore.SetSelectedElement | client/src/slices/gardenSlice.js:181-183 | only the selection changes, to the payload |
| GardenSlice.GardenStore.ClearSelectedElement | client/src/slices/gardenSlice.js:184-186 | only the selection is cleared |
| GardenSlice.GardenStore.ResetGardenDetails | client/src/slices/gardenSlice.js:187-189 | only the loaded garden details are cleared |
| GardenSlice.GardenStore.GetUserGardensPending | client/src/slices/gardenSlice.js:194-197 | loading starts and the error is cleared |
| GardenSlice.GardenStore.GetUserGardensFulfilled | client/src/slices/gardenSlice.js:198-201 | loading stops and the gardens become the payload |
| GardenSlice.GardenStore.GetUserGardensRejected | client/src/slices/gardenSlice.js:202-205 | loading stops and the error becomes the payload |
| GardenSlice.GardenStore.GetGardenDetailsPending | client/src/slices/gardenSlice.js:208-211 | loading starts and the error is cleared |
| GardenSlice.GardenStore.GetGardenDetailsFulfilled | client/src/slices/gardenSlice.js:212-215 | loading stops and the details become the payload |
| GardenSlice.GardenStore.GetGardenDetailsRejected | client/src/slices/gardenSlice.js:216-219 | loading stops and the error becomes the payload |
| GardenSlice.GardenStore.CreateGardenPending | client/src/slices/gardenSlice.js:222-226 | loading starts; error and success are cleared |
| GardenSlice.GardenStore.CreateGardenFulfilled | client/src/slices/gardenSlice.js:227-231 | the payload is appended to the gardens and success is set |
| GardenSlice.GardenStore.CreateGardenRejected | client/src/slices/gardenSlice.js:232-235 | loading stops and the error becomes the payload |
| GardenSlice.GardenStore.UpdateGardenPending | client/src/slices/gardenSlice.js:238-242 | loading starts; error and success are cleared |
| GardenSlice.GardenStore.UpdateGardenFulfilled | client/src/slices/gardenSlice.js:243-250 | the gardens with the payload's id are replaced, and the details become the payload |
| GardenSlice.GardenStore.UpdateGardenRejected | client/src/slices/gardenSlice.js:251-254 | loading stops and the error becomes the payload |
| GardenSlice.GardenStore.DeleteGardenPending | client/src/slices/gardenSlice.js:257-261 | loading starts; error and success are cleared |
| GardenSlice.GardenStore.DeleteGardenFulfilled | client/src/slices/gardenSlice.js:262-267 | the gardens with that id are removed and the details are cleared |
| GardenSlice.GardenStore.DeleteGardenRejected | client/src/slices/gardenSlice.js:268-271 | loading stops and the error becomes the payload |
| GardenSlice.GardenStore.AddElementFulfilled | client/src/slices/gardenSlice.js:274-279 | with details loaded, the element is appended to their elements; otherwise nothing changes |
| GardenSlice.GardenStore.UpdateElementFulfilled | client/src/slices/gardenSlice.js:281-288 | with details loaded, their elements with the payload's id are replaced; otherwise nothing changes |
| GardenSlice.GardenStore.DeleteElementFulfilled | client/src/slices/gardenSlice.js:290-296 | with details loaded, their elements with that id are removed; otherwise nothing changes |
| GardenSlice.CreateThenDelete | client/src/slices/gardenSlice.js:222-267 | creating a garden and then deleting it leaves the gardens list as it was |
| WeatherRoutes.CurrentTry | server/routes/weatherRoutes.js:51-62 | the current-weather `try` proceeds iff the call succeeded and `cod` is falsy or the number 200; a failed call is 500, an unknown location 404 |
| WeatherRoutes.ForecastTry | server/routes/weatherRoutes.js:104-115 | the forecast `try` proceeds iff the call succeeded and `cod` is falsy or the string "200"; a failed call is 500, an unknown location 404 |
| WeatherRoutes.AlertsTry | server/routes/weatherRoutes.js:183-196 | the alerts `try` proceeds iff both calls succeeded with `cod` exactly 200 and "200"; a failed call is 500, otherwise 404 "Location not found" |
| WeatherRoutes.RouteOutcome | server/routes/weatherRoutes.js:46-62 | a missing location is 400; otherwise the decision taken in the `try` block, kept as is |
| WeatherRoutes.RouteOutcomeAsWritten | server/routes/weatherRoutes.js:82-86 | as written: a missing location is 400, any error raised inside the `try` becomes a 500 with the generic message, and a `try` that proceeds proceeds |
| WeatherRoutes.NotFoundMaskedAsServerError | server/routes/weatherRoutes.js:59-62 | as written, an unknown location gets 500, not 404, from all three routes, the current-weather route itself included |
| WeatherRoutes.NotFoundReported | server/routes/weatherRoutes.js:112-115 | as intended, an unknown location is 404 on every route, with the service's message where one is given |
| WeatherRoutes.CurrentWeatherRoute | server/routes/weatherRoutes.js:44-86 | as written: 400 without a location; the service's data exactly when the call succeeded and `cod` is falsy or 200; every other case 500 "Failed to fetch weather data" |
| WeatherRoutes.DatesSpec | server/routes/weatherRoutes.js:138-145 | the group dates are distinct and are exactly the dates of the entries |
| WeatherRoutes.BucketSpec | server/routes/weatherRoutes.js:138-145 | a date's group holds exactly the entries of that date |
| WeatherRoutes.GroupByDay | server/routes/weatherRoutes.js:138-145 | one group per date in order of first appearance, each holding that date's entries in input order |
| WeatherRoutes.SliceEnd | server/routes/weatherRoutes.js:97 | `slice(0, parseInt(days))`: 5 by default, 0 for NaN, counted back from the end when negative (0 at the least), at most the length |
| WeatherRoutes.LimitDays | server/routes/weatherRoutes.js:148-153 | the reply is the first `SliceEnd` date groups, unchanged |
| WeatherRoutes.LimitKeepsEarliest | server/routes/weatherRoutes.js:148-153 | the groups kept are the earliest dates, in order |
| WeatherRoutes.ForecastRoute | server/routes/weatherRoutes.js:97-165 | as written: 400 without a location; any failure inside the `try` is 500 "Failed to fetch weather forecast"; otherwise the grouped entries, cut to the requested number of dates |
| WeatherRoutes.AlertKindsSpec | server/routes/weatherRoutes.js:199-255 | frost iff some temp ≤ 0; heat iff some temp ≥ 30; drought iff no rain > 0; heavy rain iff some rain > 10; wind iff some speed > 10; each at most once, in that order |
| WeatherRoutes.RaisedKindsMembers | server/routes/weatherRoutes.js:199-255 | a kind is reported exactly when its rule fires |
| WeatherRoutes.RaisedKindsOrdered | server/routes/weatherRoutes.js:199-255 | the alerts come in the fixed rule order |
| WeatherRoutes.DroughtExcludesHeavyRain | server/routes/weatherRoutes.js:220-240 | drought and heavy rain are never reported together |
| WeatherRoutes.EmptyForecastIsDrought | server/routes/weatherRoutes.js:199-229 | an empty forecast gives only the drought alert |
| WeatherRoutes.AlertsOf | server/routes/weatherRoutes.js:205-252 | each alert carries its kind's fixed type, severity, message and action |
| WeatherRoutes.GenerateAlerts | server/routes/weatherRoutes.js:199-255 | the alerts pushed rule by rule are those of the raised kinds, in order |
| WeatherRoutes.AlertsRoute | server/routes/weatherRoutes.js:176-269 | as written: 400 without a location; any failure inside the `try` is 500 "Failed to generate weather alerts"; otherwise the alerts derived from the forecast |
| GardenRoutes.ElementsOf | server/routes/gardenRoutes.js:52 | an array body value as element objects |
| GardenRoutes.NewGarden | server/routes/gardenRoutes.js:44-56 | the body's fields for `userId`: name, description, dimensions and location as given; truthy elements, isPublic, tags and weatherData passed through, and otherwise `[]`, false, `[]` and `{}` |
| GardenRoutes.CanView | server/routes/gardenRoutes.js:86 | the read rule: the owner, or anyone when the garden is public. Its consequences are stated by NewGardenVisibility and GetGardenRoute |
| GardenRoutes.NewGardenVisibility | server/routes/gardenRoutes.js:44-95 | the owner always sees a new garden; others see it only when the body made it public |
| GardenRoutes.UserGardens | server/routes/gardenRoutes.js:70 | exactly the gardens of the requesting user |
| GardenRoutes.ApplyUpdate | server/routes/gardenRoutes.js:116-123 | the update rule; it never changes the owner. Its field-by-field behaviour is stated by UpdateFieldRules |
| GardenRoutes.UpdateFieldRules | server/routes/gardenRoutes.js:116-123 | for name, description, dimensions, location, elements, tags and weatherData, a truthy body value replaces the field and a falsy one keeps it; isPublic takes any defined value, so an explicit false makes the garden private; a body without isPublic keeps it |
| GardenRoutes.UpdateIdempotent | server/routes/gardenRoutes.js:116-123 | repeating an update changes nothing more |
| GardenRoutes.EmptyUpdateChangesNothing | server/routes/gardenRoutes.js:116-123 | an empty body keeps every field |
| GardenRoutes.FirstMatch | server/routes/gardenRoutes.js:203-205 | `findIndex`: the first element whose `_id` is the requested id, or none when no element has it |
| GardenRoutes.FirstMatchUnique | server/routes/gardenRoutes.js:203-205 | an element with the id that has no match before it is the one found |
| GardenRoutes.Merge | server/routes/gardenRoutes.js:208-212 | the body's fields over the element's, keeping its `_id` |
| GardenRoutes.RemoveAt | server/routes/gardenRoutes.js:248 | `splice(i, 1)`: the list without its i-th element, the rest in order |
| GardenRoutes.MergeKeepsLookup | server/routes/gardenRoutes.js:203-212 | an element update keeps the length and the other elements, and the merged element is still found by its id |
| GardenRoutes.AddThenDeleteElement | server/routes/gardenRoutes.js:166-259 | adding an element with a new id and deleting that id restores the list |
| GardenRoutes.Garden.constructor | server/routes/gardenRoutes.js:46-56 | the new document is the created garden |
| GardenRoutes.Garden.Update | server/routes/gardenRoutes.js:116-123 | the fields assigned in turn give the update rule's result |
| GardenRoutes.Garden.PushElement | server/routes/gardenRoutes.js:176 | the element is appended; nothing else changes |
| GardenRoutes.Garden.SetElement | server/routes/gardenRoutes.js:208 | one position of the list is replaced; nothing else changes |
| GardenRoutes.Garden.SpliceElement | server/routes/gardenRoutes.js:248 | one position of the list is removed; nothing else changes |
| GardenRoutes.GetGardenRoute | server/routes/gardenRoutes.js:84-95 | the garden iff the requester owns it or it is public; else 403, or 404 when missing |
| GardenRoutes.DeleteGardenRoute | server/routes/gardenRoutes.js:143-155 | removal iff the requester is the owner; else 403, or 404 when missing |
| GardenRoutes.UpdateGardenRoute | server/routes/gardenRoutes.js:106-131 | 404 when missing; 403 with no change for a non-owner; otherwise the update rule applied |
| GardenRoutes.AddElementRoute | server/routes/gardenRoutes.js:166-184 | 404 when missing; 403 with no change for a non-owner; otherwise the body appended |
| GardenRoutes.UpdateElementRoute | server/routes/gardenRoutes.js:194-224 | 404 when missing; 403 with no change for a non-owner; 404 "Garden element not found" with no change for an unknown id; otherwise the first match merged |
| GardenRoutes.DeleteElementRoute | server/routes/gardenRoutes.js:234-259 | 404 when missing; 403 with no change for a non-owner; 404 with no change for an unknown id; otherwise exactly the first match removed |
| PlantRoutes.PageNumber | server/routes/plantRoutes.js:54 | a zero or unparsable page number is page 1; any other is kept |
| PlantRoutes.Skip | server/routes/plantRoutes.js:78 | whole pages of 20 before the requested one: none for page 1, a negative count below page 1 |
| PlantRoutes.Pages | server/routes/plantRoutes.js:84 | `ceil(count / 20)`: the fewest pages of 20 that hold the count |
| PlantRoutes.PagesCoverListing | server/routes/plantRoutes.js:53-84 | every plant lies on one page between 1 and the page count, within that page's window of 20 |
| PlantRoutes.PagesAreConsecutive | server/routes/plantRoutes.js:53-84 | the default page starts at the first plant, and windows follow one another without gap |
| PlantRoutes.ListingFilter | server/routes/plantRoutes.js:57-73 | always public plants only; a case-insensitive name match iff a keyword is given; the type iff one is given |
| PlantRoutes.GetPlantRoute | server/routes/plantRoutes.js:96-103 | the plant, or 404 when missing |
| PlantRoutes.NewPlant | server/routes/plantRoutes.js:135-155 | every optional field from the body when truthy, else its stated default; no other fields |
| PlantRoutes.NewPlantFields | server/routes/plantRoutes.js:136-153 | name and type as given, created by the requester, public when isPublic is undefined and as given otherwise |
| PlantRoutes.NewPlantExplicitFalseKept | server/routes/plantRoutes.js:152 | an explicit false keeps a new plant private, unlike the `||` idiom |
| PlantRoutes.MayModify | server/routes/plantRoutes.js:173-176 | the modify rule: an admin, or the user recorded as creator. Stated by ModifyOutcome and OrphanPlantAdminOnly |
| PlantRoutes.ModifyOutcome | server/routes/plantRoutes.js:169-179 | 404 when missing; otherwise allowed iff the user is an admin or the recorded creator, else 403 |
| PlantRoutes.OrphanPlantAdminOnly | server/routes/plantRoutes.js:173-176 | a plant with no recorded creator can be changed only by an admin |
| PlantRoutes.UpdatedFields | server/routes/plantRoutes.js:182-187 | exactly the body keys whose value is not undefined, with their values |
| PlantRoutes.UpdatePlantRoute | server/routes/plantRoutes.js:165-201 | 404 or 403 as decided; otherwise those fields are set and every other field is kept |
| PlantRoutes.DeletePlantRoute | server/routes/plantRoutes.js:206-228 | removal iff an admin or the creator asks; else 403, or 404 when missing |
| PlantRoutes.MonthOutcome | server/routes/plantRoutes.js:237-242 | accepted iff the month parsed and lies in 1..12; otherwise 400 |
| Session.RedirectOnLoad | client/src/pages/LoginPage.js:139-143 | an already signed-in user is sent to the planner |
| RegisterPage.CheckPasswords | client/src/pages/RegisterPage.js:176-189 | mismatch iff the passwords differ; too short iff they match with fewer than 6 characters; accepted otherwise |
| RegisterPage.ShortMismatchReportsMismatch | client/src/pages/RegisterPage.js:176-189 | a short mismatched pair reports the mismatch |
| RegisterPage.Banner | client/src/pages/RegisterPage.js:210-213 | the server error in preference to the form's error, no banner when neither is set |
| RegisterPage.RegisterForm.constructor | client/src/pages/RegisterPage.js:147-152 | all fields start empty |
| RegisterPage.RegisterForm.HandleSubmit | client/src/pages/RegisterPage.js:172-200 | the error field is set by the checks and nothing else changes; the request is sent iff both checks pass, carrying name, email, password and location |
| ProfilePage.SubscriptionLabel | client/src/pages/ProfilePage.js:385 | "free" → Free Plan, "premium" → Premium Plan, anything else → Annual Plan |
| ProfilePage.Submission | client/src/pages/ProfilePage.js:343-358 | nothing when a non-empty password differs from its confirmation; otherwise name, email and location as entered, with an empty password sent as no change |
| ProfilePage.EmptyPasswordSkipsCheck | client/src/pages/ProfilePage.js:343-358 | an empty password is sent as no change whatever the confirmation holds |
| ProfilePage.ProfileForm.constructor | client/src/pages/ProfilePage.js:300-305 | not editing, all fields empty |
| ProfilePage.ProfileForm.InitFromUser | client/src/pages/ProfilePage.js:309-315 | with a user, name, email and location come from it, with "" for a missing one; without a user nothing changes |
| ProfilePage.ProfileForm.HandleSubmit | client/src/pages/ProfilePage.js:343-369 | the request is the submission for the entered values; the mismatch toast is shown exactly when no request is sent |
| ProfilePage.ProfileForm.OnUpdateSucceeded | client/src/pages/ProfilePage.js:360-364 | edit mode ends and both password fields are cleared |
| LoginPage.HandleSubmit | client/src/pages/LoginPage.js:152-170 | an error message iff either field is empty; otherwise login with exactly email and password |
| LoginPage.AfterLogin | client/src/pages/LoginPage.js:163-166 | a successful login goes to the planner |
| LoginPage.SignedInLandsOnPlanner | client/src/pages/LoginPage.js:139-166 | signing in and arriving signed in end on the same page |

## Left out

- Rendering, styling and canvas drawing are not modelled. Nor are `useSelection`, `ProtectedRoute` and the palette's drag-and-drop handlers, which depend on the router and the DOM.
- Network calls, the database and persistence are not modelled. Routes receive the loaded document, or its absence, as a parameter. `save`, `deleteOne` and `findByIdAndUpdate` are the identity on the modelled value. The plant listing's query, count and sort are not modelled either.
- The weather service responses are given already parsed. Their field-by-field reshaping, and the `toISOString` date split, are not modelled. Forecast entries arrive with their date extracted.
- The plant season query, with its date arithmetic and query operators, is not modelled. Only its month check is.
- The `protect` and `admin` middleware (token checking and user lookup) are not modelled. Routes receive the authenticated user.
- Asynchronous sequencing is not modelled. Each pending, fulfilled and rejected step of the client store is an independent transition. Dispatch and navigation are outputs of the submit steps. So are the toasts of the login and profile forms' validation failures. The success toasts are not modelled.
- Time-based ids become a `stamp` parameter.
- The `getGardenDetails`, `deleteGarden`, `updateElement` and `deleteElement` thunks are not modelled separately. They return the mock garden or their own argument unchanged, and their fulfilled reducers take that value as the payload. No thunk body can fail, so the rejected cases receive any error as their payload.
- Numbers are not IEEE doubles:
  - Pixel and grid coordinates are integers, so fractional drag positions are not modelled.
  - Body numbers are integers.
  - Zoom and aspect ratios are exact reals.
  - A division by zero, which gives `Infinity` or `NaN` in JavaScript, is an absent value.
- Password lengths count characters, not UTF-16 code units.
- All seven fields of the client store are modelled. Its `elements` field is kept, but no reducer reads or sets it, as in the source.
- Element ids that the database assigns on `push` are not modelled. An element without a string `_id` matches no request. In the source, reading its id would throw.
- GardenRoutes.ElementsOf: a truthy `elements` body value that is not an array of objects, which the schema would reject, becomes an empty list or empty objects.
- PlantRoutes.Skip: a page below 1 gives a negative skip count, as in the source. How the database answers a negative skip is not modelled.
- PlantRoutes.UpdatePlantRoute: `$set` is applied as a plain field overwrite. Dotted paths and the schema's casting are not modelled.
- ElementUtils.ElementStrokeWidth: requires a non-zero scale. In JavaScript a zero scale gives `Infinity`.
- CanvasZoom.ZoomState.constructor: requires a positive initial scale. The hook's default is 1, and a non-positive scale would make the wheel handler divide by zero or flip the canvas.
- WeatherRoutes.GenerateAlerts: pushes the alert kinds rule by rule and attaches each kind's fixed texts at the end. The source pushes the full alert objects.

## Findings

| source | as written | input that shows it | evidently intended | confidence | as-written member | corrected member |
|---|---|---|---|---|---|---|
| server/routes/weatherRoutes.js:59-62 | `res.status(404); throw` inside the `try`, whose `catch` (82-86) sets 500 and rethrows a generic message | location "Atlantis", service answers `cod: "404"`: the reply is 500 "Failed to fetch weather data" (lemma NotFoundMaskedAsServerError) | 404 with the service's message (lemma NotFoundReported) | not executed | WeatherRoutes.RouteOutcomeAsWritten | WeatherRoutes.RouteOutcome |
| server/routes/weatherRoutes.js:112-115 | the same 404 inside the forecast `try`, turned into 500 by the `catch` (161-165) | location "Atlantis", forecast `cod: "404"`: 500 "Failed to fetch weather forecast" | 404 with the service's message | not executed | WeatherRoutes.RouteOutcomeAsWritten | WeatherRoutes.RouteOutcome |
| server/routes/weatherRoutes.js:193-196 | the same 404 inside the alerts `try`, turned into 500 by the `catch` (265-269) | location "Atlantis", current `cod: 200`, forecast `cod: "404"`: 500 "Failed to generate weather alerts" | 404 "Location not found" | not executed | WeatherRoutes.RouteOutcomeAsWritten | WeatherRoutes.RouteOutcome |

The three route members (`CurrentWeatherRoute`, `ForecastRoute`, `AlertsRoute`) model the code as written, on top of `RouteOutcomeAsWritten`. `RouteOutcome` is the corrected decision, and `NotFoundReported` proves the intended 404 for it.
