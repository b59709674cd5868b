# Traffic clipping by road closures: a Dafny model

This project models the decision logic of a browser map viewer that shows
live traffic over Washington State and hides the traffic imagery around
active road closures. The logic has five parts:

- **Road-closure lines.** The viewer keeps the closure features whose
  geometry is a polyline, in feature order.
- **Per-zoom masks.** For each entry of a fixed zoom table, the viewer
  buffers the lines at that entry's distance in feet, simplifies the
  buffer, and subtracts it from the state's extent. The results go into a
  `Map` from zoom level to mask. Either every mask is built or the whole
  operation fails.
- **The `clipping` parameter.** The mask for the current zoom is turned
  into the traffic service's `clipping` export parameter: a type name, the
  serialised geometry, and optionally a list of excluded layers.
- **Interceptor hooks on the traffic service.** The `before` hook writes
  the serialised parameter into the request query. The `after` hook forces
  `ssl` to true.
- **The traffic layer catalogue.** A constant list of the traffic service's
  layers, with two filter methods.

The modules follow the source files:

| module | file | models |
|---|---|---|
| `ZoomLevelBufferMap` | `zoom_level_buffer_map.dfy` | the zoom/buffer table and a lookup by zoom level |
| `CustomParameters` | `custom_parameters.dfy` | geometry classification, `objectHasAllProperties`, `createClippingParameter` |
| `Closures` | `closures.dfy` | `getClippingMask`, and `getClosures` once the feature set is decoded |
| `TrafficLayers` | `traffic_layers.dfy` | the layer records, `TrafficLayerInfoArray`, the `layerInfos` constant |
| `ClosureMasking` | `closure_masking.dfy` | the state in `main.ts`: the mask map, the view, the interceptor callbacks, the update event |
| `JsMaps` | `js_maps.dfy` | the JavaScript `Map`: construction from entries, `get`, key insertion order |
| `Geometries` | `geometries.dfy` | the geometry classes as one datatype; thrown errors |
| `ClippingJson` | `clipping_json.dfy` | `JSON.stringify` of the clipping parameter |
| `Wrappers` | `wrappers.dfy` | `Option` for nullable values, `Result` for code that may throw |

How the model represents the program:

- **Geometries.** A geometry is a variant of `Geometry`: Point, Multipoint,
  Polyline, Polygon, Extent or Mesh carry their serialised JSON.
  `PlainObject` is known only by its own property names.
- **Geometry engine.** The engine's asynchronous `buffer`, `simplify` and
  `difference` are fields of `GeometryEngine`. They are arbitrary functions
  that may fail.
- **Extent.** The state extent is an opaque parameter.
- **Thrown errors.** A thrown error is a `Failure` of a `Result`.
- **Mutable state.** What `main.ts` updates in place is a class field:
  the query object's fields, the response's `ssl`, and the module-level
  `closureMap`.

Behaviour of the code that the model keeps as it is:

- **Empty `excludedLayers`.** `excludedLayers` is attached whenever an
  array is supplied, even an empty one, because every array is truthy
  (`src/CustomParameters.ts:95-97`).
- **Point, multipoint and polyline.** Instances of these types are not
  rejected. Their names come from `typeNameMapping` and are cast to the
  clipping type without a check (`src/CustomParameters.ts:61-65`, `:92`).
- **The mask pipeline.** The mask is `buffer(lines, size, "feet", true)`,
  then `simplify`, then `difference(extent, …)`, and nothing else
  (`src/closures.ts:16-18`).
- **Test expectations.** `src/CustomParameters.spec.ts:10` expects
  `"esriGeometryExtent"` for an extent. The code produces
  `"esriGeometryEnvelope"` (`src/CustomParameters.ts:17`).
  `src/closures.spec.ts:6` imports a `getFeatureSet` that does not exist.

Observations about the source that the model records but does not repair:

- **Missing default export.** `src/closures.ts:6` imports a default export
  from `./WAExtent`, which has none. `src/WAExtent.ts:11` exports
  `waExtentWebMercator` by name only.
- **Swapped bounds.** In `src/WAExtent.ts:9` the `xmin` and `xmax` values
  appear swapped.
- **Missing types.** `src/main.ts:10` imports `ChangedClosuresOutput` and
  `UnchangedClosuresOutput`, which `src/closures.ts` does not export.
- **No update as written.** `getClosures` returns a plain `Map`, whose
  `hasChanged` is undefined. So `triggerWindowsClosureUpdateEvent` as
  written would never install a map. The model gives the result the shape
  `main.ts` reads from it: `hasChanged`, then `mapping` and
  `closureFeatureSet` on a changed result (`src/main.ts:77`, `:94-100`).

## Model

| member | source | states |
|---|---|---|
| `JsMaps.JsMap.Get` | src/main.ts:48 | `map.get(k)` returns a value exactly when `k` is a key, and then the value stored under `k` |
| `JsMaps.JsMap.Set` | src/closures.ts:51 | `map.set(k, v)` on a well-formed map keeps it well-formed, stores `v` under `k`, leaves every other key's value alone, and appends `k` to the key order only when it is new, so a repeated key keeps its first position |
| `JsMaps.FromEntries` | src/closures.ts:51 | `new Map(entries)` gives a well-formed map: each key is listed once, and the keys listed are exactly the keys that have values |
| `JsMaps.FromEntriesKeys` | src/closures.ts:51 | a key is in `new Map(entries)` iff it is the key of some entry |
| `JsMaps.FromEntriesLastWins` | src/CustomParameters.ts:12-21 | a key that occurs several times gets the value of its last entry |
| `JsMaps.FromEntriesDistinct` | src/closures.ts:46-51 | with distinct keys, the key order is the entry order and every entry's key maps to that entry's value |
| `Geometries.Geometry.ToJson` | src/CustomParameters.ts:93 | `toJSON()` succeeds exactly on geometry instances and gives their serialisation; a plain object has no `toJSON` |
| `ZoomLevelBufferMap.FindByZoom` | src/ZoomLevelBufferMap.ts:7-38 | the lookup finds nothing iff no entry has the zoom level; otherwise it returns the first entry with it |
| `ZoomLevelBufferMap.Lookup` | src/ZoomLevelBufferMap.ts:7-38 | the program's table has no entry for a zoom level iff no row lists it; an entry found is a row of the table with that zoom level |
| `ZoomLevelBufferMap.FindByZoomDistinct` | src/ZoomLevelBufferMap.ts:9-34 | when zoom levels are distinct, looking up an entry's zoom level returns that very entry |
| `ZoomLevelBufferMap.BufferMapZoomLevels` | src/ZoomLevelBufferMap.ts:7-38 | the table has six entries, for zoom levels 6, 7, 8, 9, 10 and 11 in that order |
| `ZoomLevelBufferMap.BufferMapDistinct` | src/ZoomLevelBufferMap.ts:9-34 | no zoom level occurs twice |
| `ZoomLevelBufferMap.BufferSizesPositive` | src/ZoomLevelBufferMap.ts:10-35 | every buffer distance is a positive whole number of feet |
| `ZoomLevelBufferMap.OnlyZoom6Visible` | src/ZoomLevelBufferMap.ts:11-36 | an entry is visible iff its zoom level is 6 |
| `ZoomLevelBufferMap.BufferSizeNotMonotone` | src/ZoomLevelBufferMap.ts:15-20 | the zoom-8 distance is larger than the zoom-7 distance, so distance is not monotone in zoom |
| `ZoomLevelBufferMap.LookupRange` | src/ZoomLevelBufferMap.ts:7-38 | a zoom level has an entry iff it lies in 6..11, and that entry is the table's row for it |
| `CustomParameters.TypeNameMappingContents` | src/CustomParameters.ts:12-21 | the name table maps point, multipoint, extent, polygon and polyline to their `esriGeometry*` names (extent to envelope); the repeated "point" is harmless; "mesh" is absent |
| `CustomParameters.TypeNamePoint` | src/CustomParameters.ts:14-16 | `get("point")` is `esriGeometryPoint`: the later of the two equal entries wins |
| `CustomParameters.TypeNameMultipoint` | src/CustomParameters.ts:15 | `get("multipoint")` is `esriGeometryMultipoint` |
| `CustomParameters.TypeNameExtent` | src/CustomParameters.ts:17 | `get("extent")` is `esriGeometryEnvelope` |
| `CustomParameters.TypeNamePolygon` | src/CustomParameters.ts:18 | `get("polygon")` is `esriGeometryPolygon` |
| `CustomParameters.TypeNamePolyline` | src/CustomParameters.ts:19 | `get("polyline")` is `esriGeometryPolyline` |
| `CustomParameters.TypeNameMesh` | src/CustomParameters.ts:12-21 | `get("mesh")` is `undefined`: no entry has that key |
| `CustomParameters.HasAllPropertiesIff` | src/CustomParameters.ts:38-45 | the check holds iff every listed name is an own property; it holds for an empty list |
| `CustomParameters.HasAllPropertiesStopsAtMissing` | src/CustomParameters.ts:39-42 | once a name is missing the answer is false, whatever names follow |
| `CustomParameters.ObjectHasAllProperties` | src/CustomParameters.ts:38-45 | the loop with early return gives the specified answer: true iff every listed name is an own property |
| `CustomParameters.InstanceGeometryType` | src/CustomParameters.ts:57-65 | a mesh instance throws "Unsupported geometry type: mesh"; every other instance type maps through the table to its own name |
| `CustomParameters.PlainObjectGeometryType` | src/CustomParameters.ts:66-72 | a plain object with `rings` is a polygon, whatever else it has; without `rings` but with all four bounds it is an envelope; otherwise a TypeError is thrown |
| `CustomParameters.GetEsriGeometryType` | src/CustomParameters.ts:53-76 | the classification for every geometry variant, joining the instance branch and the plain-object branch |
| `CustomParameters.CreateClippingParameter` | src/CustomParameters.ts:87-99 | null for no geometry, with or without excluded layers; otherwise it fails iff classification or `toJSON` fails, with classification errors first; on success the record holds the type, the serialisation and exactly the supplied `excludedLayers` (absent iff not supplied; an empty array is kept) |
| `CustomParameters.ExtentClipping` | src/CustomParameters.ts:89-97 | an extent gives an `esriGeometryEnvelope` record with its serialisation and the supplied layers |
| `CustomParameters.PolygonClipping` | src/CustomParameters.ts:89-97 | a polygon gives an `esriGeometryPolygon` record |
| `CustomParameters.MeshClippingFails` | src/CustomParameters.ts:58-59 | a mesh makes the call throw a TypeError |
| `CustomParameters.PlainObjectClippingFails` | src/CustomParameters.ts:93 | a plain object always makes the call throw, because it has no `toJSON` |
| `ClippingJson.NatToDecimal` | src/main.ts:50 | how `JSON.stringify` writes a whole number in an `excludedLayers` array: a non-empty run of decimal digits (no caller in this program passes excluded layers) |
| `ClippingJson.NatToDecimalRoundTrip` | src/main.ts:50 | the digits `JSON.stringify` writes for a whole number read back as that number |
| `ClippingJson.Stringify` | src/main.ts:50 | the text is "null" iff there is no parameter; otherwise it starts with `{` and ends with `}` |
| `ClippingJson.StringifyRoundTrip` | src/main.ts:50 | the text reads back as exactly the parameter written: its geometry type, its geometry serialisation, and its excluded layers, present iff they were supplied |
| `ClippingJson.ParseFieldsWithLayers` | src/CustomParameters.ts:95-97 | the `excludedLayers` field written after any geometry text reads back as the geometry text and the layer list |
| `ClippingJson.JoinIntsRoundTrip` | src/main.ts:50 | the comma-separated numbers `JSON.stringify` writes in an array read back as the list written |
| `ClippingJson.IntToTextRoundTrip` | src/main.ts:50 | a whole number, negative or not, written as `JSON.stringify` writes it, reads back as itself |
| `Closures.GetClippingMask` | src/closures.ts:12-27 | the mask is `difference(extent, simplify(buffer(lines, size, "feet", true)))`, each step taking the previous result; the first failing step's error is re-raised unchanged |
| `Closures.ClosureLines` | src/closures.ts:41-44 | succeeds iff no feature has a null geometry (reading the type of a null geometry throws) |
| `Closures.ClosureLinesContents` | src/closures.ts:41-44 | on success every kept geometry is a polyline taken from one of the features, and every polyline feature's geometry is kept |
| `Closures.ClosureLinesCons` | src/closures.ts:41 | a feature with a geometry puts that geometry in front of the rest's lines iff it is a polyline |
| `Closures.ClosureLinesAppend` | src/closures.ts:41-44 | the line list of concatenated features is the concatenation of the line lists, so feature order is kept |
| `Closures.ClosureLinesSingle` | src/closures.ts:41 | one feature contributes its geometry iff it is a polyline; any other geometry is dropped without error |
| `Closures.ClippingMasks` | src/closures.ts:46-51 | the masks succeed iff every table entry's mask succeeds; then there is one pair per entry, in table order, holding the entry's zoom level and the mask built at the entry's distance; on failure the error is that of some entry's mask |
| `Closures.GetClosures` | src/closures.ts:34-58 | `getClosures` builds a well-formed map; a null geometry fails it before any mask is built, with that error; once the lines are read it succeeds iff every zoom level's mask does |
| `Closures.GetClosuresAtomic` | src/closures.ts:34-58 | `getClosures` returns a map iff the lines can be read and every zoom level's mask succeeds; otherwise it re-raises an error and no partial map is returned |
| `Closures.GetClosuresContents` | src/closures.ts:46-51 | the map's keys are 6, 7, 8, 9, 10, 11 in insertion order; under each zoom level is the mask built at that level's distance |
| `Closures.GetClosuresLookup` | src/closures.ts:46-51 | the map holds a mask for a zoom level iff the table lists that zoom level, and the mask was built with the table's distance for it |
| `TrafficLayers.ToLayerInfos` | src/TrafficLayers.ts:36-42 | the conversion keeps length and order, and each record converts back into the tuple it came from, field for field |
| `TrafficLayers.TrafficLayerInfoArray.constructor` | src/TrafficLayers.ts:36-43 | the array holds the converted records of its arguments |
| `TrafficLayers.InRegion` | src/TrafficLayers.ts:49 | the region filter is an order-preserving subsequence; it keeps every copy of each record in the region and no record of another region |
| `TrafficLayers.TrafficLayerInfoArray.GetLayerInfosForRegion` | src/TrafficLayers.ts:48-50 | nothing is returned and the array is unchanged, because the filtered list is discarded |
| `TrafficLayers.WithIndexKeyedIds` | src/TrafficLayers.ts:58 | `layerId in ids` keeps a record iff its id is a valid index of `ids`; each kept record keeps all its copies; the result is an order-preserving subsequence |
| `TrafficLayers.TrafficLayerInfoArray.GetAllIdsExceptGiven` | src/TrafficLayers.ts:57-59 | returns an order-preserving subsequence of the array, keeping every copy of a record iff `0 <= layerId < |ids|` and no copy otherwise; with no ids the result is empty |
| `TrafficLayers.ExcludingLayer6KeepsNothing` | src/TrafficLayers.ts:58 | asked to leave out only layer 6, the catalogue filter returns no layers at all |
| `TrafficLayers.NoIndexKeyedIds` | src/TrafficLayers.ts:58 | when no record's id is an index of `ids`, the filter returns an empty list |
| `TrafficLayers.AllExceptGiven` | src/TrafficLayers.ts:52-59 | the documented intent: an order-preserving subsequence that keeps every copy of a record iff its id is not among the given ids |
| `TrafficLayers.ConvertArgs` | src/TrafficLayers.ts:38-41 | the constructor's conversion succeeds iff every argument is a record tuple, and then converts each one in order |
| `TrafficLayers.FilterAsWritten` | src/TrafficLayers.ts:57-59 | the species constructor runs before any record is tested, and its error, if any, is the result; only if it succeeded would the result be the index-key filter |
| `TrafficLayers.FilterAsWrittenAlwaysThrows` | src/TrafficLayers.ts:57-59 | a `filter` call on the subclass always throws the spread TypeError, whatever the array and the ids hold |
| `TrafficLayers.LayerInfos` | src/TrafficLayers.ts:62-93 | `layerInfos` is a new array holding the catalogue's records in listed order |
| `TrafficLayers.LayerInfosShape` | src/TrafficLayers.ts:62-93 | the catalogue has 29 layers, all ids lie in 2..48, and no two layers share an id |
| `ClosureMasking.ClippingText` | src/main.ts:48-50 | with no mask the query text is "null"; a polygon mask gives a non-null text; on success the text is "null" iff there is no mask |
| `ClosureMasking.ClippingTextDecodes` | src/main.ts:48-50 | the query text reads back as the parameter `createClippingParameter` built for the mask, with no excluded layers |
| `ClosureMasking.PolygonClippingTextDecodes` | src/main.ts:48-50 | a polygon mask is written as an `esriGeometryPolygon` record carrying the mask's own serialisation and no excluded layers |
| `ClosureMasking.NoClippingOutsideTable` | src/main.ts:48-50 | at a zoom level outside 6..11, such as 12, the text written for a built map is "null" |
| `ClosureMasking.MapApp.Before` | src/main.ts:45-52 | with no map or a view that is not ready, the query is unchanged; otherwise only `clipping` is set, to the serialised parameter for the current zoom's mask; if building the parameter throws, the error escapes and the query is unchanged |
| `ClosureMasking.MapApp.After` | src/main.ts:56-61 | afterwards `ssl` is true and no other field has changed; a response that already had `ssl` true is left untouched, so the hook is idempotent |
| `ClosureMasking.MapApp.OnClosuresUpdated` | src/main.ts:93-95 | the mask map is replaced as a whole by the event's map, not merged |
| `ClosureMasking.MapApp.TriggerWindowsClosureUpdateEvent` | src/main.ts:76-85 | an unchanged result leaves the mask map alone; a changed one installs its map through the event listener |

## Findings

| source | as written | input that shows it | evidently intended | confidence | as-written member | corrected member |
|---|---|---|---|---|---|---|
| src/TrafficLayers.ts:48-59 | `this.filter(...)` on the `Array` subclass. `filter` creates its result through the subclass's constructor, as `new TrafficLayerInfoArray(0)`. That constructor spreads the number 0 as a record tuple, which throws a TypeError | any call, e.g. `layerInfos.getAllIdsExceptGiven(2)` | a plain filter over the records | not executed; follows ECMAScript's ArraySpeciesCreate, which `Array.prototype.filter` uses | `TrafficLayers.FilterAsWrittenAlwaysThrows` | `TrafficLayers.TrafficLayerInfoArray.GetAllIdsExceptGiven` |
| src/TrafficLayers.ts:58 | `item.layerId in ids` tests whether the id is an index of `ids`, not whether it is one of its elements | `getAllIdsExceptGiven(6)` keeps no layers | keep the layers whose id is not among `ids`, as the method name and its doc comment say | not executed; the name and doc comment state the intent | `TrafficLayers.ExcludingLayer6KeepsNothing` | `TrafficLayers.AllExceptGiven` |

The rest of the model filters as a plain sequence filter. `GetAllIdsExceptGiven`
keeps the `in` test as written, using `WithIndexKeyedIds`. The documented
intent, `AllExceptGiven`, is modelled beside it. Nothing else in the source
calls either filter. The first finding also applies to
`getLayerInfosForRegion`. As written it would throw the same TypeError
rather than silently doing nothing.

## Left out

- Fetching the closure feed and decoding its JSON (`src/closures.ts:37-39`):
  this is network I/O. The decoded features are an input of `GetClosures`.
- The geometry engine's `buffer`, `simplify` and `difference`: foreign
  floating-point geometry. They are uninterpreted functions that may fail.
  Whether `buffer` returns one polygon or an array is hidden inside that
  function, as the source's unchecked cast hides it.
- `Promise.all` on a failure rejects with the first rejection in time. The
  model does not fix which failing zoom level's error that is: it promises
  only that the error is some failing entry's error.
- The extent's coordinates and its projection (`src/WAExtent.ts`): floating
  point and a foreign projection. The extent is an opaque parameter.
- Console logging and grouping in every function, `console.log` in the
  array constructor, and the `finally` blocks: these are I/O only.
- Scheduling in `src/main.ts`: the `.then` wiring, the single `setTimeout`
  refresh, and `view.when`/`trafficLayer.when`. Also its UI effects: the
  closure graphics and their symbol, the layer refresh and visibility, and
  widget set-up (`src/widgets.ts`).
- The feed timestamp, change detection and session caching: none of these
  exists in the code. `hasChanged` is taken as given in the result shape.
- `view.zoom` is an integer in the model. A fractional zoom would find no
  map entry, just as a zoom outside the table finds none.
- `ClippingJson.NatToDecimal`: integers are modelled as unbounded. JavaScript
  writes numbers of 10^21 and above in exponent form, and non-integer layer
  ids are not modelled.
- The `geometry` field of the parameter is the geometry library's own
  serialisation. The model carries it as opaque text.
- `ClippingJson.StringifyRoundTrip` requires the geometry text to end in
  `}`, as an object's serialisation does. The model does not know the
  geometry text's grammar, so without that the excluded layers could not
  be told apart from the geometry's own end.
- A plain object with its own `toJSON` function property is not modelled.
  Every plain object counts as lacking `toJSON`.
- `src/interceptor.ts`: type declarations only. They are used for the shapes
  of the query, the request options and the hook argument.
