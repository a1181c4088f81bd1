# SIG Maps Pro: a verified model of the map-editing core

SIG Maps Pro is a web GIS application. Users create maps and stack layers
of GeoJSON features on them. They draw points, lines and polygons, reorder
and restyle layers, run geoprocessing jobs (buffer, intersect, union,
difference, centroid, simplify) and sign in. This project models the
application core in Dafny:

- the client stores. `MapStore` holds the map view, the ordered layers, the
  drawing state machine and the panel flags. `AuthStore` holds the signed-in
  user. `UiStore` holds theme, language and text direction. Each is a class
  whose methods update its fields, as the store actions do;
- the layer panel (`LayerControl`). It covers drag-and-drop reordering with
  renumbering, the visibility and opacity requests, the add-layer dialog,
  renaming, and the feature total;
- the geoprocessing panel (`GeoProcessing`). It covers the operation table,
  the dialog and the newest-first job list;
- the data model (`GeoTypes`): GeoJSON geometries, features and
  collections (RFC 7946), layers, users and the string enumerations;
- the request schemas (`Validators`). They are a small schema language
  with the string, number, boolean, enum, record and object checks and
  `.partial()` / `.omit()`, and a predicate `Accepts` interprets them;
- the list/create handlers of `/api/maps`, `/api/layers` and
  `/api/features`, with the JavaScript semantics they depend on:
  - `parseInt`, including NaN;
  - `||` versus `??`;
  - `slice` with negative indices;
  - `Math.ceil` of a division by zero;
- the service helpers `hasPermission` and `generateToken`.

The support modules model the JavaScript built-ins the core calls:

| module | models |
|---|---|
| `Wrappers` | `Option` and `Result` |
| `JsValues` | JSON values, truthiness, `||`, `??`, destructuring |
| `Seqs` | `filter`, `findIndex`, `splice`, `slice` |
| `Strings` | `trim`, `toLowerCase`, `includes`, `String(n)` |
| `StoreOps` | the pure list transforms behind the store actions |
| `RouteCommon` | the query parsing, search and pagination the list handlers share |

Three things become parameters:

- the clock (`Date.now()` becomes `now`), because it is not deterministic;
- randomness, for the same reason. The token's random bytes, and a job's
  success and feature count, are inputs;
- `parseFloat`, because its reading of decimal text as a binary floating
  point number is not modelled.

Each `async` action with a delay is split into a start method and a finish
method.

## Model

| member | source | states |
|---|---|---|
| MapStore.MapStore.constructor | src/lib/stores/map-store.ts:63-84 | initial view centred at (24.7136, 46.6753), zoom 5, OSM; no layers, no active layer, no selection; draw mode none with no vertices; both panels open |
| MapStore.MapStore.SetMapState | src/lib/stores/map-store.ts:87-89 | the view becomes the old view merged with the patch; only the view changes |
| MapStore.MapStore.SetBaseMap | src/lib/stores/map-store.ts:91-93 | only the base map of the view changes |
| MapStore.MapStore.SetLayers | src/lib/stores/map-store.ts:96 | the layer list is replaced, nothing else changes |
| MapStore.MapStore.AddLayer | src/lib/stores/map-store.ts:98-100 | the old layers are a prefix of the new list and the new layer is last |
| MapStore.MapStore.UpdateLayer | src/lib/stores/map-store.ts:102-106 | the new list is `StoreOps.UpdateLayer` of the old one |
| MapStore.MapStore.RemoveLayer | src/lib/stores/map-store.ts:108-111 | the layers with the id are dropped; the active layer is cleared iff it was the removed id, otherwise kept |
| MapStore.MapStore.SetActiveLayer | src/lib/stores/map-store.ts:113 | the active layer id is set |
| MapStore.MapStore.ToggleLayerVisibility | src/lib/stores/map-store.ts:115-119 | the new list is `StoreOps.ToggleVisibility` of the old one |
| MapStore.MapStore.SetLayerOpacity | src/lib/stores/map-store.ts:121-125 | the new list is `StoreOps.SetOpacity` of the old one |
| MapStore.SpliceMove | src/lib/stores/map-store.ts:128-130 | the in-place splice-out/splice-in on an array leaves exactly `Seqs.Move` of the old contents |
| MapStore.MapStore.ReorderLayers | src/lib/stores/map-store.ts:127-132 | the list is copied into an array, moved in place, stored back: the result is `StoreOps.Reorder` of the old list and a permutation of it |
| MapStore.MapStore.SetSelectedFeature | src/lib/stores/map-store.ts:135 | the selected feature id is set |
| MapStore.MapStore.AddFeature | src/lib/stores/map-store.ts:137-143 | the new list is `StoreOps.AddFeature` of the old one |
| MapStore.MapStore.UpdateFeature | src/lib/stores/map-store.ts:145-152 | the new list is `StoreOps.UpdateFeature` of the old one, of the same length |
| MapStore.MapStore.RemoveFeature | src/lib/stores/map-store.ts:154-160 | the feature is removed from every layer; the selection is cleared iff it was that feature |
| MapStore.MapStore.SetDrawMode | src/lib/stores/map-store.ts:163 | the mode is set and the pending vertices are discarded |
| MapStore.MapStore.AddDrawingPoint | src/lib/stores/map-store.ts:165-167 | the vertex is appended to the pending vertices |
| MapStore.MapStore.ClearDrawing | src/lib/stores/map-store.ts:169 | mode none, no pending vertices |
| MapStore.MapStore.FinishDrawing | src/lib/stores/map-store.ts:171-207 | with no vertex: null and no change; otherwise the geometry `StoreOps.FinishGeometry` gives, and the drawing reset to mode none |
| MapStore.MapStore.ToggleSidebar | src/lib/stores/map-store.ts:210 | the sidebar flag is negated |
| MapStore.MapStore.ToggleLayerPanel | src/lib/stores/map-store.ts:211 | the layer panel flag is negated |
| MapStore.DrawTriangle | src/lib/stores/map-store.ts:163-207 | three clicks in polygon mode then finish give the closed four-position ring; the store is back in mode none and the layers are untouched |
| StoreOps.ApplyLayerPatch | src/lib/stores/map-store.ts:104 | `{ ...layer, ...updates }`: each of the twelve fields takes the update's value when given and keeps the layer's otherwise |
| StoreOps.ApplyLayerPatchLaws | src/lib/stores/map-store.ts:104 | the empty update is neutral; applying the same update twice is applying it once |
| StoreOps.ApplyFeaturePatch | src/lib/stores/map-store.ts:149 | `{ ...f, ...updates }`: each of id, geometry, properties and layerId takes the update's value when given and keeps the feature's otherwise |
| StoreOps.ApplyFeaturePatchLaws | src/lib/stores/map-store.ts:149 | the empty update is neutral; applying the same update twice is applying it once |
| StoreOps.ApplyMapStatePatch | src/lib/stores/map-store.ts:88 | each of center, zoom, bearing, pitch and baseMap takes the patch's value when given and keeps the view's otherwise; the empty patch changes nothing |
| StoreOps.ApplyMapStatePatchIdempotent | src/lib/stores/map-store.ts:88 | applying the same view update twice is applying it once |
| StoreOps.UpdateWhere | src/lib/stores/map-store.ts:103-104 | same length; the matching layers are replaced by f of themselves, the others are kept; no match means no change |
| StoreOps.UpdateLayer | src/lib/stores/map-store.ts:102-106 | element-wise: the patched layer where the id matches, the same layer elsewhere |
| StoreOps.ToggleVisibility | src/lib/stores/map-store.ts:115-119 | element-wise: visibility negated exactly on the matching layers |
| StoreOps.SetOpacity | src/lib/stores/map-store.ts:121-125 | element-wise: opacity set exactly on the matching layers |
| StoreOps.ToggleTwice | src/lib/stores/map-store.ts:115-119 | toggling twice restores the list; an unknown id changes nothing |
| StoreOps.UpdateLayerKeepsIds | src/lib/stores/map-store.ts:102-106 | an update without an id keeps every layer's id, and the features change only where the update gives them |
| StoreOps.RemoveLayer | src/lib/stores/map-store.ts:109 | no remaining layer has the id; every other layer remains |
| StoreOps.RemoveLayerKeepsOrder | src/lib/stores/map-store.ts:109 | removal distributes over concatenation (order kept), removes as many layers as carry the id, and nothing for an unknown id |
| StoreOps.ClearIfRemoved | src/lib/stores/map-store.ts:110 | the result is null iff the current id was null or the removed id; otherwise it is the current id |
| StoreOps.Reorder | src/lib/stores/map-store.ts:127-132 | same length, same multiset of layers, the moved layer at the clamped target |
| StoreOps.ReorderInRange | src/lib/stores/map-store.ts:127-132 | with indices in range the layer lands at `to`, every result layer was a layer before, and the multiset of `order` values is unchanged |
| StoreOps.Orders | src/lib/types/index.ts:91-106 | the `order` field of each layer, position by position |
| StoreOps.OrdersOfPermutation | src/lib/stores/map-store.ts:127-132 | permuting layers permutes their `order` values |
| StoreOps.AddFeature | src/lib/stores/map-store.ts:137-143 | element-wise: the feature is appended exactly to the layers with that id; unknown id, no change |
| StoreOps.UpdateFeatureIn | src/lib/stores/map-store.ts:148-150 | element-wise: the patched feature where the id matches |
| StoreOps.UpdateFeature | src/lib/stores/map-store.ts:145-152 | every layer gets its features updated and nothing else |
| StoreOps.RemoveFeature | src/lib/stores/map-store.ts:154-160 | every layer gets its features filtered and nothing else |
| StoreOps.UpdateFeatureFrame | src/lib/stores/map-store.ts:145-152 | layers keep their other fields and feature counts; an id no feature has changes nothing |
| StoreOps.RemoveFeatureSpec | src/lib/stores/map-store.ts:154-160 | afterwards no layer holds the id; every other feature stays in its layer; unknown id, no change |
| StoreOps.FinishGeometry | src/lib/stores/map-store.ts:175-206 | null iff no vertex, or a line with fewer than 2 or a polygon with fewer than 3 vertices, or another mode; point takes the first vertex, line all vertices, polygon one ring closed by the first vertex |
| StoreOps.FinishGeometryWellFormed | src/lib/stores/map-store.ts:194-201 | every finished geometry is well formed in the sense of RFC 7946 section 3.1; the polygon ring is a closed linear ring of n+1 positions |
| LayerControl.IndexOfId | src/components/map/LayerControl.tsx:345-346 | the first position holding the id, -1 iff no layer has it |
| LayerControl.Renumber | src/components/map/LayerControl.tsx:347-349 | the same layers in the same places, numbered 0..n-1 |
| LayerControl.IndexOfPresentId | src/components/map/LayerControl.tsx:345-346 | `findIndex` of a present id is an in-range index of a layer with that id |
| LayerControl.UnorderedMove | src/components/map/LayerControl.tsx:347-349 | moving commutes with erasing the `order` field |
| LayerControl.DragEnd | src/components/map/LayerControl.tsx:341-352 | nothing iff no target or the layer dropped on itself; otherwise same length, orders 0..n-1, the same layers up to `order`, and the dragged layer at the target's index |
| LayerControl.DragEndDense | src/components/map/LayerControl.tsx:347-349 | after a drag the orders are exactly 0, 1, ..., n-1, so they are pairwise distinct |
| LayerControl.TotalFeatures | src/components/map/LayerControl.tsx:448 | zero for no layers, and at least the feature count of every layer |
| LayerControl.TotalFeaturesAppend | src/components/map/LayerControl.tsx:448 | the header total is additive over list concatenation |
| LayerControl.TotalFeaturesMove | src/components/map/LayerControl.tsx:347 | moving a layer keeps the total |
| LayerControl.TotalFeaturesRenumber | src/components/map/LayerControl.tsx:347-349 | renumbering keeps the total |
| LayerControl.DragEndKeepsTotal | src/components/map/LayerControl.tsx:341-352 | the header total is the same after a drag |
| LayerControl.TotalFeaturesAddFeature | src/lib/stores/map-store.ts:137-143 | adding a feature raises the total by the number of layers with that id |
| LayerControl.ToggleVisibilityRequest | src/components/map/LayerControl.tsx:354-359 | a request is sent iff a layer has the id; it sets `visible` to the negation of the first such layer's flag and nothing else |
| LayerControl.ToggleVisibilityRequestAgrees | src/components/map/LayerControl.tsx:354-359 | with unique ids, applying the request in the store equals the store's own toggle |
| LayerControl.OpacityRequest | src/components/map/LayerControl.tsx:361-363 | the request carries the id and the opacity |
| LayerControl.OpacityRequestAgrees | src/components/map/LayerControl.tsx:361-363 | applying the opacity request in the store equals the store's own opacity setter |
| LayerControl.LayerPanel.constructor | src/components/map/LayerControl.tsx:330-332 | closed dialog, empty name, POINT type |
| LayerControl.LayerPanel.SetAddDialogOpen | src/components/map/LayerControl.tsx:395 | the dialog flag is set |
| LayerControl.LayerPanel.SetNewLayerName | src/components/map/LayerControl.tsx:414 | the name field is set |
| LayerControl.LayerPanel.SetNewLayerType | src/components/map/LayerControl.tsx:426 | the geometry type is set |
| LayerControl.LayerPanel.HandleAddLayer | src/components/map/LayerControl.tsx:365-385 | a blank name submits nothing and changes nothing; otherwise the trimmed name goes out with the defaults and the form is reset and closed |
| LayerControl.NewLayerRequest | src/components/map/LayerControl.tsx:367-380 | the request is a visible, opaque VECTOR layer with the name, the type and the default style, and sets no id, description, order, map, owner or features |
| LayerControl.NewLayerRequestApplied | src/components/map/LayerControl.tsx:367-380 | completing any layer with the request sets exactly those six fields and keeps the rest |
| LayerControl.LayerItem.constructor | src/components/map/LayerControl.tsx:117-118 | not editing; the edit field holds the layer name |
| LayerControl.LayerItem.StartEditing | src/components/map/LayerControl.tsx:208 | editing mode on |
| LayerControl.LayerItem.SetEditName | src/components/map/LayerControl.tsx:179 | the edit field is set |
| LayerControl.LayerItem.HandleSaveName | src/components/map/LayerControl.tsx:134-139 | a rename with the trimmed text iff it is not blank; editing ends either way |
| LayerControl.RenameRequestEffect | src/components/map/LayerControl.tsx:134-139 | the rename changes only the name of the matching layers, to a trimmed name |
| GeoProcessing.Config | src/components/map/GeoProcessing.tsx:59-108 | a distance for buffer and simplify only, a second layer for intersect, union and difference only |
| GeoProcessing.CapabilityTable | src/components/map/GeoProcessing.tsx:59-108 | no operation needs both; the table covers six operations with distinct names |
| GeoProcessing.RunParams | src/components/map/GeoProcessing.tsx:150-154 | the second layer is recorded iff the operation needs one, the distance iff it needs one |
| GeoProcessing.Complete | src/components/map/GeoProcessing.tsx:169-174 | a well-formed finished job: completed with the count, or failed with the message; id, kind, params and time kept |
| GeoProcessing.CompleteJob | src/components/map/GeoProcessing.tsx:166-177 | element-wise: exactly the jobs with the id are finished |
| GeoProcessing.CompleteJobPreserves | src/components/map/GeoProcessing.tsx:166-177 | completion keeps the list newest-first and every job well formed |
| GeoProcessing.DisplayedJobs | src/components/map/GeoProcessing.tsx:237 | the first min(5, n) jobs |
| GeoProcessing.DisplayedAreNewest | src/components/map/GeoProcessing.tsx:237 | every shown job is at least as recent as every hidden one |
| GeoProcessing.SecondaryChoices | src/components/map/GeoProcessing.tsx:307-308 | every offered layer differs from the primary, and every other layer is offered |
| GeoProcessing.SecondaryChoicesAll | src/components/map/GeoProcessing.tsx:307-308 | a primary not in the list leaves the list unchanged |
| GeoProcessing.GeoProcessingPanel.constructor | src/components/map/GeoProcessing.tsx:121-127 | nothing selected, dialog closed, empty layers, distance "100", no jobs |
| GeoProcessing.GeoProcessingPanel.HandleOpenProcess | src/components/map/GeoProcessing.tsx:129-135 | selects the operation, clears both layers, distance "100", opens the dialog |
| GeoProcessing.GeoProcessingPanel.SetPrimaryLayer | src/components/map/GeoProcessing.tsx:284 | the primary layer is set |
| GeoProcessing.GeoProcessingPanel.SetSecondaryLayer | src/components/map/GeoProcessing.tsx:302 | the second layer is set |
| GeoProcessing.GeoProcessingPanel.SetDistance | src/components/map/GeoProcessing.tsx:328 | the distance text is set |
| GeoProcessing.GeoProcessingPanel.SetDialogOpen | src/components/map/GeoProcessing.tsx:266 | the dialog flag is set |
| GeoProcessing.GeoProcessingPanel.StartRun | src/components/map/GeoProcessing.tsx:137-158 | no job iff no operation, no primary layer, or a missing required second layer; otherwise a running job `job-<now>` with the recorded params is put first and processing starts; the list stays newest-first |
| GeoProcessing.GeoProcessingPanel.FinishRun | src/components/map/GeoProcessing.tsx:164-184 | the jobs with the id are completed or failed, processing stops, the dialog closes, the operation and params are reported |
| GeoProcessing.GeoProcessingPanel.Displayed | src/components/map/GeoProcessing.tsx:237 | at most five jobs, a prefix of the list; all of them when there are at most five |
| GeoProcessing.RunOnce | src/components/map/GeoProcessing.tsx:129-185 | a full run adds one job at the front, of the chosen operation and layer, ending completed or failed, with the default distance |
| GeoTypes.TypeName | src/lib/types/index.ts:4-32 | every geometry's tag is one of the six names |
| GeoTypes.TypeNameDiscriminates | src/lib/types/index.ts:34-40 | two geometries carry the same tag iff they are the same variant; the six tags are distinct |
| GeoTypes.ParseGeometryTypeName | src/lib/types/index.ts:4-32 | a string parses iff it is one of the six tags, to its index |
| GeoTypes.EnumerationSizes | src/lib/types/index.ts:55-58 | the layer type, geometry type, base map and role enumerations, and the draw modes, have 4, 6, 4, 3 and 6 distinct values |
| GeoTypes.EnumerationNamesRoundTrip | src/lib/types/index.ts:55-58 | every enumeration value's name parses back to it |
| JsValues.Or | src/app/api/maps/route.ts:111-124 | `v || d` is v when v is truthy and d otherwise |
| JsValues.Coalesce | src/app/api/layers/route.ts:110-111 | `v ?? d` is v unless v is null or undefined |
| JsValues.OrVersusCoalesce | src/app/api/layers/route.ts:104-118 | the two operators differ exactly on `false`, `0` and `""` that are not the default |
| JsValues.Property | src/app/api/maps/route.ts:102 | destructuring fails iff the body is null or undefined; a missing key reads as undefined |
| Seqs.Filter | src/lib/stores/map-store.ts:109 | a sub-list of elements satisfying p that keeps every element satisfying p |
| Seqs.FilterAppend | src/lib/stores/map-store.ts:109 | filtering distributes over concatenation |
| Seqs.FindIndex | src/components/map/LayerControl.tsx:345-346 | -1 iff no element matches; otherwise the first matching index |
| Seqs.ClampIndex | src/app/api/maps/route.ts:78 | a negative index counts from the end; the result is clamped to [0, len] |
| Seqs.Slice | src/app/api/maps/route.ts:78 | a contiguous run of the list starting at the clamped start, as long as the clamped end is past it and empty otherwise; the plain sub-range for in-range indices |
| Seqs.Move | src/lib/stores/map-store.ts:128-130 | same length and multiset, the moved element at the clamped target |
| Seqs.MoveAt | src/lib/stores/map-store.ts:128-130 | where every element lands: the moved one at `to`, the ones between shifted by one, the rest in place |
| Seqs.MoveToSelf | src/lib/stores/map-store.ts:128-130 | moving onto its own index changes nothing |
| Strings.Trim | src/components/map/LayerControl.tsx:135-136 | a contiguous run without surrounding white space, empty iff the text is all white space |
| Strings.TrimIdempotent | src/components/map/LayerControl.tsx:135-136 | trimming twice is trimming once |
| Strings.ToLower | src/app/api/maps/route.ts:70-71 | each ASCII capital lowered, every other character kept |
| Strings.ContainsIffIndexOf | src/app/api/maps/route.ts:70-71 | `includes` holds iff a search from offset 0 finds an occurrence |
| Strings.DecimalString | src/app/api/maps/route.ts:112 | the decimal digits of n, with no leading zero |
| Strings.DecimalRoundTrip | src/app/api/maps/route.ts:112 | reading the digits back gives n |
| Strings.DecimalInjective | src/app/api/maps/route.ts:112 | distinct times give distinct id suffixes |
| RouteCommon.ParamOr | src/app/api/maps/route.ts:62-64 | a missing or empty parameter takes the fallback |
| RouteCommon.JsParseInt | src/app/api/maps/route.ts:62-63 | a number is read only from text holding a decimal digit, and a negative one only from text holding a minus sign |
| RouteCommon.QueryInt | src/app/api/maps/route.ts:62-63 | a missing or empty parameter reads as the fallback text, any other as its own text |
| RouteCommon.ParseIntOfDigits | src/app/api/maps/route.ts:62-63 | `parseInt` reads a decimal digit string whole |
| RouteCommon.ParseIntOfDecimal | src/app/api/maps/route.ts:62-63 | `parseInt(String(n)) == n` for every n >= 0 |
| RouteCommon.QueryIntReads | src/app/api/maps/route.ts:62-63 | a missing or empty parameter reads as its default; a decimal parameter as its value |
| RouteCommon.MatchesSearch | src/app/api/maps/route.ts:70-71 | every item matches the empty search, and a match is never longer than the name or description it is found in |
| RouteCommon.Search | src/app/api/maps/route.ts:68-73 | an empty search keeps the list; otherwise exactly the matching items stay |
| RouteCommon.SearchIgnoresCase | src/app/api/maps/route.ts:70-71 | searching with the lowercased term finds the same items |
| RouteCommon.CeilDiv | src/app/api/maps/route.ts:76 | null iff the limit is 0; for a positive limit the least page count that covers the total |
| RouteCommon.Paginate | src/app/api/maps/route.ts:75-78 | the summary carries page, limit, total and page count; a NaN page or limit gives an empty page |
| RouteCommon.PageDrawnFromList | src/app/api/maps/route.ts:77-78 | every item of a page is an item of the list |
| RouteCommon.PageIsContiguousRun | src/app/api/maps/route.ts:77-78 | a page is a contiguous run of the list of at most `limit` items |
| RouteCommon.PageWithinCount | src/app/api/maps/route.ts:75-78 | pages 1..totalPages are exactly the items (page-1)*limit up to page*limit, and non-empty |
| RouteCommon.PageBeyondCount | src/app/api/maps/route.ts:75-78 | a page after the last one is empty |
| RouteCommon.EveryItemOnItsPage | src/app/api/maps/route.ts:75-78 | item i is item i % limit of page i / limit + 1 |
| RouteCommon.NegativePageCountsFromEnd | src/app/api/maps/route.ts:77-78 | page -1 is a run counted from the end of the list |
| MapsRoute.MatchingMaps | src/app/api/maps/route.ts:64-73 | at most the three sample maps; exactly the matching ones |
| MapsRoute.GetMaps | src/app/api/maps/route.ts:59-97 | total is the number of matching maps; page and limit are the parsed parameters; totalPages is the ceiling of total over limit, null for a NaN or zero limit; a NaN page or limit gives no items; every item is a matching map |
| MapsRoute.GetMapsDefaults | src/app/api/maps/route.ts:62-78 | with no parameters: all three maps, page 1, limit 10, total 3, one page |
| MapsRoute.GetMapsPage | src/app/api/maps/route.ts:62-78 | numeric parameters give that page of the matching maps |
| MapsRoute.SearchFindsRoadsMap | src/app/api/maps/route.ts:7-57 | searching for the roads finds the roads map |
| MapsRoute.PostMap | src/app/api/maps/route.ts:99-138 | 500 iff the body is not an object to destructure; 400 iff the name is falsy; otherwise the message and every `||` default, id `map-<now>`, owner demo-user and no layers |
| MapsRoute.CreatedMapFieldsTruthy | src/app/api/maps/route.ts:111-124 | after `||` defaulting the zoom and base map are always truthy, and a latitude of 0 is always the default |
| MapsRoute.CreatedMapIdsDistinct | src/app/api/maps/route.ts:112 | maps created at different times have different ids |
| LayersRoute.MatchingLayers | src/app/api/layers/route.ts:57-66 | at most the three sample layers; exactly the matching ones |
| LayersRoute.GetLayers | src/app/api/layers/route.ts:52-90 | total is the number of matching layers; page and limit are the parsed parameters; totalPages is the ceiling of total over limit, null for a NaN or zero limit; a NaN page or limit gives no items; every item is a matching layer |
| LayersRoute.GetLayersDefaults | src/app/api/layers/route.ts:55-71 | with no parameters: all three layers, page 1, limit 20, total 3, one page |
| LayersRoute.GetLayersPage | src/app/api/layers/route.ts:55-71 | numeric parameters give that page of the matching layers |
| LayersRoute.PostLayer | src/app/api/layers/route.ts:92-132 | 500 iff the body cannot be destructured; 400 iff the name is falsy; otherwise the `||` and `??` defaults, order 3, no features |
| LayersRoute.NewLayerOrderIsNext | src/app/api/layers/route.ts:113-114 | the sample orders are 0, 1, 2 and the new layer takes 3 |
| LayersRoute.ExplicitFalseAndZeroKept | src/app/api/layers/route.ts:110-111 | an explicit `visible: false` or `opacity: 0` is kept; a missing one takes the default |
| FeaturesRoute.OfLayer | src/app/api/features/route.ts:55-57 | all features, or with a non-empty layer id exactly those of that layer |
| FeaturesRoute.OfLayerSingleLayer | src/app/api/features/route.ts:55-57 | for a one-layer list, its own layer keeps all and any other layer keeps none |
| FeaturesRoute.ToCollection | src/app/api/features/route.ts:60-68 | one GeoJSON feature per feature, with its id, geometry and properties |
| FeaturesRoute.FromCollection | src/app/api/features/route.ts:60-68 | a collection reads back iff every feature has an id |
| FeaturesRoute.CollectionRoundTrip | src/app/api/features/route.ts:60-68 | the collection of one layer's features reads back exactly |
| FeaturesRoute.GetFeatures | src/app/api/features/route.ts:47-82 | the collection of the selected features, and `total` is its size |
| FeaturesRoute.BboxIgnored | src/app/api/features/route.ts:51 | `bbox` does not affect the response |
| FeaturesRoute.SampleFeaturesByLayer | src/app/api/features/route.ts:4-45 | layer-1 has all five sample features; any other layer has none |
| FeaturesRoute.PostFeature | src/app/api/features/route.ts:84-117 | 500 iff the body cannot be destructured; 400 iff the layer or the geometry is falsy; otherwise id `feature-<now>` with the `{}` default for properties |
| FeaturesRoute.CreatedFeatureProperties | src/app/api/features/route.ts:100 | a created feature's properties are truthy, and `{}` when absent |
| Validators.Partial | src/lib/validators/index.ts:29 | same keys and checks, every field optional |
| Validators.Omit | src/lib/validators/index.ts:62 | the fields without the key, and all the others |
| Validators.PartialAcceptsEmpty | src/lib/validators/index.ts:29 | a partial schema accepts the empty object |
| Validators.PartialWeakens | src/lib/validators/index.ts:29 | without defaults `.partial()` accepts everything the schema accepts |
| Validators.OmitIgnoresKey | src/lib/validators/index.ts:62 | a schema with a key omitted does not look at that key |
| Validators.LoginAcceptsIff | src/lib/validators/index.ts:4-7 | accepted iff a valid email and a password of at least 4 characters |
| Validators.RegisterAcceptsIff | src/lib/validators/index.ts:9-16 | accepted iff a valid email, username of 3..50, password of at least 6, names of at most 100 and organization of at most 200 characters |
| Validators.CreateMapBounds | src/lib/validators/index.ts:19-27 | an accepted map has a name of 1..255 characters and latitude, longitude and zoom in range |
| Validators.CreateLayerBounds | src/lib/validators/index.ts:31-47 | an accepted layer has a name of 1..255 characters, an opacity in [0, 1] when present, and a present style passes the style schema with its bounds |
| Validators.StyleBounds | src/lib/validators/index.ts:38-45 | an accepted style has fillOpacity in [0, 1], lineWidth in [0, 20] and pointRadius in [1, 50] when given |
| Validators.CreateMapIsUpdateWithName | src/lib/validators/index.ts:19-29 | accepted for create iff accepted for update with a name present |
| Validators.CreateLayerIsUpdateWithName | src/lib/validators/index.ts:32-50 | accepted for create iff accepted for update with a name present |
| Validators.EmptyUpdatesAccepted | src/lib/validators/index.ts:29-62 | the empty update is valid for maps, layers and features |
| Validators.StyleAcceptsIff | src/lib/validators/index.ts:39-46 | a style passes iff fill opacity in [0,1], line width in [0,20] and point radius in [1,50] where set |
| Validators.GeometryAccepted | src/lib/validators/index.ts:55-58 | every geometry of the data model passes, whatever its coordinates |
| Validators.CreateFeatureNeeds | src/lib/validators/index.ts:53-60 | an accepted feature has a non-empty layer id and a geometry with one of the six tags |
| Validators.UpdateFeatureIgnoresLayerId | src/lib/validators/index.ts:62 | the feature update does not look at the layer id |
| Validators.ParsePaging | src/lib/validators/index.ts:65-71 | a result iff accepted; page >= 1, limit in 1..100; a missing page or limit defaults to 1 and 20, a present one is its coerced number |
| Validators.BufferAcceptsIff | src/lib/validators/index.ts:74-78 | accepted iff a layer id, a non-negative distance and an integer segment count in 1..100 when given |
| Validators.IntersectAcceptsIff | src/lib/validators/index.ts:80-83 | accepted iff both layer ids are non-empty |
| Validators.SimplifyAcceptsIff | src/lib/validators/index.ts:85-88 | accepted iff a layer id and a tolerance in [0, 1] |
| AuthService.HasPermission | src/lib/services/auth.ts:105-112 | allowed iff the roles are equal, the user is SUPER_ADMIN, or the user is ADMIN and USER is required |
| AuthService.PermissionOrder | src/lib/services/auth.ts:105-112 | the check is a total order USER < ADMIN < SUPER_ADMIN |
| AuthService.ByteToHex | src/lib/services/auth.ts:102 | two lowercase hex digits, the first 0 below 16 |
| AuthService.HexEncode | src/lib/services/auth.ts:102 | two lowercase hex digits per byte |
| AuthService.GenerateToken | src/lib/services/auth.ts:99-103 | 64 lowercase hex digits |
| AuthService.HexRoundTrip | src/lib/services/auth.ts:100-102 | decoding a token gives back the random bytes |
| AuthService.HexInjective | src/lib/services/auth.ts:100-102 | distinct random bytes give distinct tokens |
| AuthStore.BeforeFirstAt | src/lib/stores/auth-store.ts:60 | the prefix before the first '@', or the whole string |
| AuthStore.LoginUser | src/lib/stores/auth-store.ts:48-66 | the demo credentials give the demo user; otherwise a user iff the email is non-empty and the password has at least 4 characters, and that user is the demo user with the given email and the part before the first `@` as username |
| AuthStore.LoginUsernameIsLocalPart | src/lib/stores/auth-store.ts:58-61 | an accepted address `local@domain` with no `@` in `local` signs in with username `local` |
| AuthStore.DemoAddressGivesDemoUser | src/lib/stores/auth-store.ts:48-63 | the demo address always gives the demo user |
| AuthStore.RegisteredUser | src/lib/stores/auth-store.ts:82-93 | an active USER `user-<now>` with exactly the given details |
| AuthStore.AuthStore.constructor | src/lib/stores/auth-store.ts:36-39 | signed out, not loading, no error |
| AuthStore.AuthStore.BeginRequest | src/lib/stores/auth-store.ts:42 | loading, no error |
| AuthStore.AuthStore.FinishLogin | src/lib/stores/auth-store.ts:45-73 | signed in as `LoginUser` iff it accepts; otherwise the error message is set and the user is kept; loading stops |
| AuthStore.AuthStore.Login | src/lib/stores/auth-store.ts:41-74 | as FinishLogin, with no error left on success |
| AuthStore.AuthStore.FinishRegister | src/lib/stores/auth-store.ts:80-99 | signed in as the registered user, loading stops |
| AuthStore.AuthStore.Register | src/lib/stores/auth-store.ts:76-107 | signed in as the registered user with no error |
| AuthStore.AuthStore.Logout | src/lib/stores/auth-store.ts:109-115 | signed out with no error |
| AuthStore.AuthStore.ClearError | src/lib/stores/auth-store.ts:117-119 | no error |
| AuthStore.SchemaLoginAcceptedByStore | src/lib/stores/auth-store.ts:58 | what the login schema accepts the store accepts |
| UiStore.DirectionOf | src/lib/stores/ui-store.ts:32 | right-to-left iff Arabic |
| UiStore.UiStore.constructor | src/lib/stores/ui-store.ts:23-26 | system theme, Arabic, right-to-left, sidebar expanded |
| UiStore.UiStore.SetTheme | src/lib/stores/ui-store.ts:28 | the theme is set |
| UiStore.UiStore.SetLanguage | src/lib/stores/ui-store.ts:30-33 | the language is set and the direction follows it |
| UiStore.UiStore.ToggleSidebar | src/lib/stores/ui-store.ts:35-37 | the collapsed flag is negated |
| UiStore.UiStore.SetSidebarCollapsed | src/lib/stores/ui-store.ts:39-41 | the collapsed flag is set |
| UiStore.ToggleTwice | src/lib/stores/ui-store.ts:35-37 | toggling twice restores the flag and leaves theme and language |
| UiStore.SetCollapsedTwice | src/lib/stores/ui-store.ts:39-41 | setting the flag twice is setting it once |

## Left out

- The `createdAt` and `updatedAt` dates of maps, layers, users and route records are not modelled. They are `new Date()` values that nothing compares.
- A processing job's `createdAt` is modelled, as the same clock reading `now` that forms its id. The source reads the clock twice (`Date.now()` for the id, `new Date()` for `createdAt`), and the model assumes both readings agree. The newest-first invariant compares these values.
- `Date.now()`, `Math.random()`, `crypto.getRandomValues` and `parseFloat` become parameters, so the model says nothing about their values.
- The `setTimeout` delays in login, register and geoprocessing are not modelled. Each action is split into a start method and a finish method, and the store is not modelled between the two.
- The `persist` middleware of the interface store is not modelled (it writes to local storage). Neither are the DOM side effects that apply the theme and the direction.
- Email syntax (the schema's email check) and `Number(v)` coercion of the pagination schema are parameters (`Validators.Env`). A missing pagination field is modelled as taking its default, without `Number(undefined)`.
- Case folding is ASCII only. Non-ASCII letters are left unchanged, which is what `toLowerCase` does for the Arabic sample names.
- String lengths count code points, not UTF-16 code units. The two differ only outside the Basic Multilingual Plane.
- JavaScript numbers are modelled as mathematical reals and integers, with no rounding, no infinities and no NaN (NaN is `None`).
- A request body that is not JSON is modelled as `None`, which stands for the exception `request.json()` throws.
- Property order in object spreads is not modelled. An explicitly `undefined` field in an update is modelled as absent, whereas a spread would copy it.
- LayerControl.DragEnd: requires that the dragged and target ids are layers of the list, which the sortable context guarantees. A stale id would give `findIndex` -1, and that case is not modelled.
- MapStore.MapStore.ReorderLayers: requires the source index to be in range once normalised. An out-of-range `fromIndex` in JavaScript inserts `undefined` into the list, which the typed model cannot hold.
- GeoProcessing.GeoProcessingPanel.StartRun: does not guard on `isProcessing`. The source disables only the button, so the method models a second run starting while one is pending.
- GeoProcessing.GeoProcessingPanel.FinishRun: requires a feature count below 100 (`Math.floor(Math.random() * 100)`).
- GeoProcessing.GeoProcessingPanel.StartRun: requires a clock reading no earlier than the jobs already listed, so that the list stays newest-first.
- The exception branch of `register` is not modelled, because nothing in its body can throw.
- The database, password hashing and session functions of `src/lib/services/auth.ts` are not modelled. They go through Prisma and bcrypt.
- The undo/redo history of the map viewer page (`src/app/viewer/[id]/page.tsx`) is not part of this model.
- Rendering, icons, colours, toasts and the other markup of the two panels are not modelled.
- The GET handlers' `catch` branches are not modelled, because nothing in the modelled GET bodies can throw.
