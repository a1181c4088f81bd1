/** The list transforms behind the map store's actions: every layer action
    rebuilds the layer list with `map` or `filter`, and drawing is finished
    by turning the pending vertices into a geometry. */
module StoreOps {
  import opened Wrappers
  import opened Seqs
  import opened GeoTypes

  /** `Partial<Layer>`: the fields present in an update object override the
      layer's own (`{ ...layer, ...updates }`). */
  datatype LayerPatch = LayerPatch(
    id: Option<string>,
    name: Option<string>,
    description: Option<string>,
    kind: Option<LayerType>,
    geometryType: Option<GeometryType>,
    visible: Option<bool>,
    opacity: Option<real>,
    style: Option<LayerStyle>,
    order: Option<int>,
    mapId: Option<string>,
    userId: Option<string>,
    features: Option<seq<Feature>>)

  const NoLayerChanges := LayerPatch(None, None, None, None, None, None, None, None, None, None, None, None)

  /** `Partial<Feature>` */
  datatype FeaturePatch = FeaturePatch(
    id: Option<string>,
    geometry: Option<Geometry>,
    properties: Option<Properties>,
    layerId: Option<string>)

  /** `Partial<MapState>` */
  datatype MapStatePatch = MapStatePatch(
    center: Option<(real, real)>,
    zoom: Option<real>,
    bearing: Option<real>,
    pitch: Option<real>,
    baseMap: Option<BaseMap>)

  function Override<T>(o: Option<T>, v: T): T
  {
    if o.Some? then o.value else v
  }

  /** An optional field of the target: present in the patch means set. */
  function OverrideOptional<T>(o: Option<T>, v: Option<T>): Option<T>
  {
    if o.Some? then o else v
  }

  /** `{ ...layer, ...updates }`: a field present in the patch takes the
      patch's value, every other field keeps the layer's. */
  function ApplyLayerPatch(l: Layer, p: LayerPatch): (r: Layer)
    ensures p.id.Some? ==> r.id == p.id.value
    ensures p.id.None? ==> r.id == l.id
    ensures p.name.Some? ==> r.name == p.name.value
    ensures p.name.None? ==> r.name == l.name
    ensures p.description.Some? ==> r.description == p.description
    ensures p.description.None? ==> r.description == l.description
    ensures p.kind.Some? ==> r.kind == p.kind.value
    ensures p.kind.None? ==> r.kind == l.kind
    ensures p.geometryType.Some? ==> r.geometryType == p.geometryType
    ensures p.geometryType.None? ==> r.geometryType == l.geometryType
    ensures p.visible.Some? ==> r.visible == p.visible.value
    ensures p.visible.None? ==> r.visible == l.visible
    ensures p.opacity.Some? ==> r.opacity == p.opacity.value
    ensures p.opacity.None? ==> r.opacity == l.opacity
    ensures p.style.Some? ==> r.style == p.style
    ensures p.style.None? ==> r.style == l.style
    ensures p.order.Some? ==> r.order == p.order.value
    ensures p.order.None? ==> r.order == l.order
    ensures p.mapId.Some? ==> r.mapId == p.mapId
    ensures p.mapId.None? ==> r.mapId == l.mapId
    ensures p.userId.Some? ==> r.userId == p.userId.value
    ensures p.userId.None? ==> r.userId == l.userId
    ensures p.features.Some? ==> r.features == p.features.value
    ensures p.features.None? ==> r.features == l.features
  {
    Layer(
      Override(p.id, l.id),
      Override(p.name, l.name),
      OverrideOptional(p.description, l.description),
      Override(p.kind, l.kind),
      OverrideOptional(p.geometryType, l.geometryType),
      Override(p.visible, l.visible),
      Override(p.opacity, l.opacity),
      OverrideOptional(p.style, l.style),
      Override(p.order, l.order),
      OverrideOptional(p.mapId, l.mapId),
      Override(p.userId, l.userId),
      Override(p.features, l.features))
  }

  /** Merging is neutral for the empty update and idempotent. */
  lemma ApplyLayerPatchLaws(l: Layer, p: LayerPatch)
    ensures ApplyLayerPatch(l, NoLayerChanges) == l
    ensures ApplyLayerPatch(ApplyLayerPatch(l, p), p) == ApplyLayerPatch(l, p)
  {
  }

  /** `{ ...feature, ...updates }` */
  function ApplyFeaturePatch(f: Feature, p: FeaturePatch): (r: Feature)
    ensures p.id.Some? ==> r.id == p.id.value
    ensures p.id.None? ==> r.id == f.id
    ensures p.geometry.Some? ==> r.geometry == p.geometry.value
    ensures p.geometry.None? ==> r.geometry == f.geometry
    ensures p.properties.Some? ==> r.properties == p.properties.value
    ensures p.properties.None? ==> r.properties == f.properties
    ensures p.layerId.Some? ==> r.layerId == p.layerId.value
    ensures p.layerId.None? ==> r.layerId == f.layerId
  {
    Feature(
      Override(p.id, f.id),
      Override(p.geometry, f.geometry),
      Override(p.properties, f.properties),
      Override(p.layerId, f.layerId))
  }

  /** The empty feature update is neutral, and applying one twice is
      applying it once. */
  lemma ApplyFeaturePatchLaws(f: Feature, p: FeaturePatch)
    ensures ApplyFeaturePatch(f, FeaturePatch(None, None, None, None)) == f
    ensures ApplyFeaturePatch(ApplyFeaturePatch(f, p), p) == ApplyFeaturePatch(f, p)
  {
  }

  /** `{ ...state.mapState, ...mapState }` */
  function ApplyMapStatePatch(m: MapState, p: MapStatePatch): (r: MapState)
    ensures p == MapStatePatch(None, None, None, None, None) ==> r == m
    ensures p.center.Some? ==> r.center == p.center.value
    ensures p.center.None? ==> r.center == m.center
    ensures p.zoom.Some? ==> r.zoom == p.zoom.value
    ensures p.zoom.None? ==> r.zoom == m.zoom
    ensures p.bearing.Some? ==> r.bearing == p.bearing.value
    ensures p.bearing.None? ==> r.bearing == m.bearing
    ensures p.pitch.Some? ==> r.pitch == p.pitch.value
    ensures p.pitch.None? ==> r.pitch == m.pitch
    ensures p.baseMap.Some? ==> r.baseMap == p.baseMap.value
    ensures p.baseMap.None? ==> r.baseMap == m.baseMap
  {
    MapState(
      Override(p.center, m.center),
      Override(p.zoom, m.zoom),
      Override(p.bearing, m.bearing),
      Override(p.pitch, m.pitch),
      Override(p.baseMap, m.baseMap))
  }

  /** Applying a view update twice is applying it once. */
  lemma ApplyMapStatePatchIdempotent(m: MapState, p: MapStatePatch)
    ensures ApplyMapStatePatch(ApplyMapStatePatch(m, p), p) == ApplyMapStatePatch(m, p)
  {
  }

  predicate HasLayer(layers: seq<Layer>, id: string)
  {
    exists i :: 0 <= i < |layers| && layers[i].id == id
  }

  /** `layers.map(l => l.id === id ? f(l) : l)`, the shape shared by
      updateLayer, toggleLayerVisibility, setLayerOpacity and addFeature:
      only the layers whose id matches are replaced, in place. */
  function UpdateWhere(layers: seq<Layer>, id: string, f: Layer -> Layer): (r: seq<Layer>)
    ensures |r| == |layers|
    ensures forall i :: 0 <= i < |r| && layers[i].id != id ==> r[i] == layers[i]
    ensures forall i :: 0 <= i < |r| && layers[i].id == id ==> r[i] == f(layers[i])
    ensures !HasLayer(layers, id) ==> r == layers
  {
    seq(|layers|, i requires 0 <= i < |layers| => if layers[i].id == id then f(layers[i]) else layers[i])
  }

  function UpdateLayer(layers: seq<Layer>, id: string, p: LayerPatch): (r: seq<Layer>)
    ensures |r| == |layers|
    ensures forall i :: 0 <= i < |r| ==>
      r[i] == if layers[i].id == id then ApplyLayerPatch(layers[i], p) else layers[i]
  {
    UpdateWhere(layers, id, l => ApplyLayerPatch(l, p))
  }

  function ToggleVisibility(layers: seq<Layer>, id: string): (r: seq<Layer>)
    ensures |r| == |layers|
    ensures forall i :: 0 <= i < |r| ==>
      r[i] == if layers[i].id == id then layers[i].(visible := !layers[i].visible) else layers[i]
  {
    UpdateWhere(layers, id, (l: Layer) => l.(visible := !l.visible))
  }

  function SetOpacity(layers: seq<Layer>, id: string, opacity: real): (r: seq<Layer>)
    ensures |r| == |layers|
    ensures forall i :: 0 <= i < |r| ==>
      r[i] == if layers[i].id == id then layers[i].(opacity := opacity) else layers[i]
  {
    UpdateWhere(layers, id, (l: Layer) => l.(opacity := opacity))
  }

  /** Toggling a layer's visibility twice restores the list exactly; an
      unknown id changes nothing. */
  lemma ToggleTwice(layers: seq<Layer>, id: string)
    ensures ToggleVisibility(ToggleVisibility(layers, id), id) == layers
    ensures !HasLayer(layers, id) ==> ToggleVisibility(layers, id) == layers
  {
    var once := ToggleVisibility(layers, id);
    var twice := ToggleVisibility(once, id);
    forall i | 0 <= i < |layers| ensures twice[i] == layers[i] {
      assert once[i].id == layers[i].id;
    }
  }

  /** An update that does not rename keeps the ids, so the set of layers a
      later action addresses by id is the same. */
  lemma UpdateLayerKeepsIds(layers: seq<Layer>, id: string, p: LayerPatch, k: nat)
    requires p.id.None? && k < |layers|
    ensures UpdateLayer(layers, id, p)[k].id == layers[k].id
    ensures UpdateLayer(layers, id, p)[k].features == if layers[k].id == id then Override(p.features, layers[k].features) else layers[k].features
  {
  }

  /** `layers.filter(l => l.id !== id)` */
  function RemoveLayer(layers: seq<Layer>, id: string): (r: seq<Layer>)
    ensures |r| <= |layers|
    ensures forall i :: 0 <= i < |r| ==> r[i].id != id && r[i] in layers
    ensures forall i :: 0 <= i < |layers| && layers[i].id != id ==> layers[i] in r
  {
    Filter(layers, (l: Layer) => l.id != id)
  }

  /** Removing keeps the relative order of what remains (it distributes over
      any split of the list), removes as many layers as carried the id, and
      removes nothing for an unknown id. */
  lemma RemoveLayerKeepsOrder(a: seq<Layer>, b: seq<Layer>, id: string)
    ensures RemoveLayer(a + b, id) == RemoveLayer(a, id) + RemoveLayer(b, id)
    ensures |RemoveLayer(a, id)| == |a| - CountIf(a, (l: Layer) => l.id == id)
    ensures !HasLayer(a, id) ==> RemoveLayer(a, id) == a
  {
    FilterAppend(a, b, (l: Layer) => l.id != id);
    RemovedCount(a, id);
    if !HasLayer(a, id) {
      FilterKeepsAll(a, (l: Layer) => l.id != id);
    }
  }

  lemma {:induction false} RemovedCount(a: seq<Layer>, id: string)
    ensures |RemoveLayer(a, id)| == |a| - CountIf(a, (l: Layer) => l.id == id)
  {
    if a != [] {
      RemovedCount(a[1..], id);
    }
  }

  /** `prev.activeLayerId === id ? null : prev.activeLayerId`, and the same
      rule for the selected feature. */
  function ClearIfRemoved(current: Option<string>, id: string): (r: Option<string>)
    ensures r.None? <==> current.None? || current.value == id
    ensures r.Some? ==> r == current
  {
    if current == Some(id) then None else current
  }

  /** `reorderLayers(from, to)`: splice the layer out at `from` and back in
      at `to`. The layers themselves, including their `order` fields, are
      untouched: the result is a permutation of the same layers. */
  function Reorder(layers: seq<Layer>, from: int, to: int): (r: seq<Layer>)
    requires ClampIndex(from, |layers|) < |layers|
    ensures |r| == |layers|
    ensures multiset(r) == multiset(layers)
    ensures r[ClampIndex(to, |layers| - 1)] == layers[ClampIndex(from, |layers|)]
  {
    Move(layers, from, to)
  }

  /** With both indices in range the moved layer lands exactly at `to`,
      and no layer's `order` value is created or lost. */
  lemma ReorderInRange(layers: seq<Layer>, from: nat, to: nat)
    requires from < |layers| && to < |layers|
    ensures Reorder(layers, from, to)[to] == layers[from]
    ensures forall i :: 0 <= i < |layers| ==> Reorder(layers, from, to)[i] in layers
    ensures multiset(Orders(Reorder(layers, from, to))) == multiset(Orders(layers))
  {
    var r := Reorder(layers, from, to);
    forall i | 0 <= i < |layers| ensures r[i] in layers {
      assert r[i] in multiset(r);
    }
    OrdersOfPermutation(r, layers);
  }

  function Orders(layers: seq<Layer>): (r: seq<int>)
    ensures |r| == |layers|
    ensures forall i :: 0 <= i < |r| ==> r[i] == layers[i].order
  {
    if layers == [] then [] else [layers[0].order] + Orders(layers[1..])
  }

  lemma {:induction false} OrdersAppend(a: seq<Layer>, b: seq<Layer>)
    ensures Orders(a + b) == Orders(a) + Orders(b)
  {
    assert Orders(a + b) == Orders(a) + Orders(b);
  }

  lemma {:induction false} OrdersOfPermutation(a: seq<Layer>, b: seq<Layer>)
    requires multiset(a) == multiset(b)
    ensures multiset(Orders(a)) == multiset(Orders(b))
    decreases |a|
  {
    if a != [] {
      var x := a[0];
      assert x in multiset(b);
      var k :| 0 <= k < |b| && b[k] == x;
      var b' := RemoveAt(b, k);
      RemoveAtMultiset(b, k);
      assert a == [x] + a[1..];
      MultisetCancel(multiset(a[1..]), multiset(b'), x);
      OrdersOfPermutation(a[1..], b');
      OrdersRemoveAt(b, k);
      OrdersAppend([x], a[1..]);
    }
  }

  lemma MultisetCancel<T>(a: multiset<T>, b: multiset<T>, x: T)
    requires a + multiset{x} == b + multiset{x}
    ensures a == b
  {
    assert a == a + multiset{x} - multiset{x};
    assert b == b + multiset{x} - multiset{x};
  }

  /** Removing one layer removes its `order` value and no other. */
  lemma OrdersRemoveAt(b: seq<Layer>, k: nat)
    requires k < |b|
    ensures multiset(Orders(RemoveAt(b, k))) + multiset{b[k].order} == multiset(Orders(b))
  {
    var o, r := Orders(b), RemoveAt(b, k);
    forall j | 0 <= j < |r| ensures Orders(r)[j] == RemoveAt(o, k)[j] {
      if j < k {
        assert r[j] == b[j];
      } else {
        assert r[j] == b[j + 1];
      }
    }
    assert Orders(r) == RemoveAt(o, k);
    RemoveAtMultiset(o, k);
  }

  /** `{ ...layer, features: [...layer.features, feature] }` on the layers
      whose id matches `layerId`. */
  function AddFeature(layers: seq<Layer>, layerId: string, f: Feature): (r: seq<Layer>)
    ensures |r| == |layers|
    ensures forall i :: 0 <= i < |r| ==>
      r[i] == if layers[i].id == layerId then layers[i].(features := layers[i].features + [f]) else layers[i]
    ensures !HasLayer(layers, layerId) ==> r == layers
  {
    UpdateWhere(layers, layerId, (l: Layer) => l.(features := l.features + [f]))
  }

  predicate HasFeature(layers: seq<Layer>, id: string)
  {
    exists i, j :: 0 <= i < |layers| && 0 <= j < |layers[i].features| && layers[i].features[j].id == id
  }

  /** `features.map(f => f.id === id ? { ...f, ...updates } : f)` */
  function UpdateFeatureIn(features: seq<Feature>, id: string, p: FeaturePatch): (r: seq<Feature>)
    ensures |r| == |features|
    ensures forall j :: 0 <= j < |r| ==>
      r[j] == if features[j].id == id then ApplyFeaturePatch(features[j], p) else features[j]
  {
    seq(|features|, j requires 0 <= j < |features| =>
      if features[j].id == id then ApplyFeaturePatch(features[j], p) else features[j])
  }

  /** updateFeature: applied to every layer's feature list. */
  function UpdateFeature(layers: seq<Layer>, id: string, p: FeaturePatch): (r: seq<Layer>)
    ensures |r| == |layers|
    ensures forall i :: 0 <= i < |r| ==>
      r[i] == layers[i].(features := UpdateFeatureIn(layers[i].features, id, p))
  {
    seq(|layers|, i requires 0 <= i < |layers| =>
      layers[i].(features := UpdateFeatureIn(layers[i].features, id, p)))
  }

  /** removeFeature: `features.filter(f => f.id !== id)` in every layer. */
  function RemoveFeature(layers: seq<Layer>, id: string): (r: seq<Layer>)
    ensures |r| == |layers|
    ensures forall i :: 0 <= i < |r| ==>
      r[i] == layers[i].(features := Filter(layers[i].features, (f: Feature) => f.id != id))
  {
    seq(|layers|, i requires 0 <= i < |layers| =>
      layers[i].(features := Filter(layers[i].features, (f: Feature) => f.id != id)))
  }

  /** Updating a feature keeps every layer's other fields and the length of
      every feature list, and for an id no feature carries changes nothing. */
  lemma UpdateFeatureFrame(layers: seq<Layer>, id: string, p: FeaturePatch)
    ensures forall i :: 0 <= i < |layers| ==>
      UpdateFeature(layers, id, p)[i].(features := []) == layers[i].(features := [])
      && |UpdateFeature(layers, id, p)[i].features| == |layers[i].features|
    ensures !HasFeature(layers, id) ==> UpdateFeature(layers, id, p) == layers
  {
    var r := UpdateFeature(layers, id, p);
    if !HasFeature(layers, id) {
      forall i | 0 <= i < |layers| ensures r[i] == layers[i] {
        var fs := layers[i].features;
        assert UpdateFeatureIn(fs, id, p) == fs by {
          forall j | 0 <= j < |fs| ensures UpdateFeatureIn(fs, id, p)[j] == fs[j] {
            assert fs[j].id != id;
          }
        }
      }
    }
  }

  /** After removeFeature no layer holds a feature with that id, every
      other feature is still in its layer, and for an unknown id nothing
      changes. */
  lemma RemoveFeatureSpec(layers: seq<Layer>, id: string)
    ensures !HasFeature(RemoveFeature(layers, id), id)
    ensures forall i, j :: 0 <= i < |layers| && 0 <= j < |layers[i].features| && layers[i].features[j].id != id ==>
      layers[i].features[j] in RemoveFeature(layers, id)[i].features
    ensures !HasFeature(layers, id) ==> RemoveFeature(layers, id) == layers
  {
    var r := RemoveFeature(layers, id);
    if !HasFeature(layers, id) {
      forall i | 0 <= i < |layers| ensures r[i] == layers[i] {
        FilterKeepsAll(layers[i].features, (f: Feature) => f.id != id);
      }
    }
  }

  /** finishDrawing's geometry: a point takes the first vertex, a line needs
      two vertices, a polygon three and is closed by repeating the first
      vertex; every other case (no vertex, too few, another mode) is null. */
  function FinishGeometry(mode: DrawMode, coords: seq<Position>): (g: Option<Geometry>)
    ensures coords == [] ==> g.None?
    ensures g.Some? <==>
      coords != [] && (mode.PointMode? || (mode.LineMode? && |coords| >= 2) || (mode.PolygonMode? && |coords| >= 3))
    ensures g.Some? && mode.PointMode? ==> g.value == Point(coords[0])
    ensures g.Some? && mode.LineMode? ==> g.value == LineString(coords)
    ensures g.Some? && mode.PolygonMode? ==>
      g.value.Polygon? && |g.value.rings| == 1 && g.value.rings[0] == coords + [coords[0]]
  {
    if coords == [] then None
    else match mode
      case PointMode => Some(Point(coords[0]))
      case LineMode => if |coords| >= 2 then Some(LineString(coords)) else None
      case PolygonMode => if |coords| >= 3 then Some(Polygon([coords + [coords[0]]])) else None
      case _ => None
  }

  /** Whatever finishDrawing returns satisfies the structural rules of
      section 3.1 of RFC 7946: the polygon ring has n+1 >= 4 positions and
      ends where it starts. */
  lemma FinishGeometryWellFormed(mode: DrawMode, coords: seq<Position>)
    ensures var g := FinishGeometry(mode, coords);
      g.Some? ==> WellFormed(g.value)
    ensures var g := FinishGeometry(mode, coords);
      g.Some? && g.value.Polygon? ==> |g.value.rings[0]| == |coords| + 1 && IsLinearRing(g.value.rings[0])
  {
  }
}
