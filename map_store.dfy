/** The map editing store (`useMapStore`): the map view, the ordered layer
    list with the active layer and the selected feature, the drawing state
    machine and two panel flags. Every action replaces some of these fields
    and leaves the others alone. */
module MapStore {
  import opened Wrappers
  import opened Seqs
  import opened GeoTypes
  import Ops = StoreOps

  /** The initial view, centred on Saudi Arabia. */
  const InitialMapState := MapState((24.7136, 46.6753), 5.0, 0.0, 0.0, Osm)

  /** `newLayers.splice(to, 0, newLayers.splice(from, 1)[0])` on an array
      whose length does not change: the elements between the two indices
      shift by one and the moved element lands at `to`. */
  method SpliceMove<T>(a: array<T>, from: nat, to: nat)
    requires from < a.Length && to < a.Length
    modifies a
    ensures a[..] == Move(old(a[..]), from, to)
  {
    ghost var s := a[..];
    var moved := a[from];
    var i := from;
    if from < to {
      while i < to
        invariant from <= i <= to
        invariant forall k :: from <= k < i ==> a[k] == s[k + 1]
        invariant forall k :: 0 <= k < a.Length && (k < from || k >= i) ==> a[k] == s[k]
      {
        a[i] := a[i + 1];
        i := i + 1;
      }
    } else {
      while i > to
        invariant to <= i <= from
        invariant forall k :: i < k <= from ==> a[k] == s[k - 1]
        invariant forall k :: 0 <= k < a.Length && (k > from || k <= i) ==> a[k] == s[k]
      {
        a[i] := a[i - 1];
        i := i - 1;
      }
    }
    a[to] := moved;
    forall k | 0 <= k < a.Length ensures a[k] == Move(s, from, to)[k] {
      MoveAt(s, from, to, k);
    }
  }

  class MapStore {
    var mapState: MapState
    var layers: seq<Layer>
    var activeLayerId: Option<string>
    var selectedFeatureId: Option<string>
    var drawMode: DrawMode
    var drawingCoordinates: seq<Position>
    var sidebarOpen: bool
    var layerPanelOpen: bool

    constructor ()
      ensures mapState == InitialMapState && layers == []
      ensures activeLayerId.None? && selectedFeatureId.None?
      ensures drawMode == NoMode && drawingCoordinates == []
      ensures sidebarOpen && layerPanelOpen
    {
      mapState := InitialMapState;
      layers := [];
      activeLayerId := None;
      selectedFeatureId := None;
      drawMode := NoMode;
      drawingCoordinates := [];
      sidebarOpen := true;
      layerPanelOpen := true;
    }

    method SetMapState(p: Ops.MapStatePatch)
      modifies this`mapState
      ensures mapState == Ops.ApplyMapStatePatch(old(mapState), p)
    {
      mapState := Ops.ApplyMapStatePatch(mapState, p);
    }

    method SetBaseMap(baseMap: BaseMap)
      modifies this`mapState
      ensures mapState == old(mapState).(baseMap := baseMap)
    {
      mapState := mapState.(baseMap := baseMap);
    }

    method SetLayers(newLayers: seq<Layer>)
      modifies this`layers
      ensures layers == newLayers
    {
      layers := newLayers;
    }

    /** Appends at the end; the active layer does not change. */
    method AddLayer(layer: Layer)
      modifies this`layers
      ensures layers == old(layers) + [layer]
      ensures layers[..|old(layers)|] == old(layers) && layers[|layers| - 1] == layer
    {
      layers := layers + [layer];
    }

    method UpdateLayer(id: string, updates: Ops.LayerPatch)
      modifies this`layers
      ensures layers == Ops.UpdateLayer(old(layers), id, updates)
    {
      layers := Ops.UpdateLayer(layers, id, updates);
    }

    /** Drops the layers with this id; the active layer is cleared exactly
        when it was the removed one. */
    method RemoveLayer(id: string)
      modifies this`layers, this`activeLayerId
      ensures layers == Ops.RemoveLayer(old(layers), id)
      ensures activeLayerId.None? <==> old(activeLayerId).None? || old(activeLayerId) == Some(id)
      ensures activeLayerId.Some? ==> activeLayerId == old(activeLayerId)
    {
      layers := Ops.RemoveLayer(layers, id);
      activeLayerId := Ops.ClearIfRemoved(activeLayerId, id);
    }

    method SetActiveLayer(id: Option<string>)
      modifies this`activeLayerId
      ensures activeLayerId == id
    {
      activeLayerId := id;
    }

    method ToggleLayerVisibility(id: string)
      modifies this`layers
      ensures layers == Ops.ToggleVisibility(old(layers), id)
    {
      layers := Ops.ToggleVisibility(layers, id);
    }

    method SetLayerOpacity(id: string, opacity: real)
      modifies this`layers
      ensures layers == Ops.SetOpacity(old(layers), id, opacity)
    {
      layers := Ops.SetOpacity(layers, id, opacity);
    }

    /** Copies the list, moves one layer by splicing the copy in place,
        and stores the copy. */
    method ReorderLayers(fromIndex: int, toIndex: int)
      requires ClampIndex(fromIndex, |layers|) < |layers|
      modifies this`layers
      ensures layers == Ops.Reorder(old(layers), fromIndex, toIndex)
      ensures multiset(layers) == multiset(old(layers))
    {
      var newLayers := new Layer[|layers|](i requires 0 <= i < |layers| reads this => layers[i]);
      assert newLayers[..] == layers;
      var from := ClampIndex(fromIndex, |layers|);
      var to := ClampIndex(toIndex, |layers| - 1);
      SpliceMove(newLayers, from, to);
      layers := newLayers[..];
    }

    method SetSelectedFeature(id: Option<string>)
      modifies this`selectedFeatureId
      ensures selectedFeatureId == id
    {
      selectedFeatureId := id;
    }

    method AddFeature(layerId: string, feature: Feature)
      modifies this`layers
      ensures layers == Ops.AddFeature(old(layers), layerId, feature)
    {
      layers := Ops.AddFeature(layers, layerId, feature);
    }

    method UpdateFeature(id: string, updates: Ops.FeaturePatch)
      modifies this`layers
      ensures layers == Ops.UpdateFeature(old(layers), id, updates)
      ensures |layers| == |old(layers)|
    {
      layers := Ops.UpdateFeature(layers, id, updates);
    }

    /** Removes the feature from every layer; the selection is cleared
        exactly when it was the removed feature. */
    method RemoveFeature(id: string)
      modifies this`layers, this`selectedFeatureId
      ensures layers == Ops.RemoveFeature(old(layers), id)
      ensures |layers| == |old(layers)|
      ensures selectedFeatureId.None? <==> old(selectedFeatureId).None? || old(selectedFeatureId) == Some(id)
      ensures selectedFeatureId.Some? ==> selectedFeatureId == old(selectedFeatureId)
    {
      layers := Ops.RemoveFeature(layers, id);
      selectedFeatureId := Ops.ClearIfRemoved(selectedFeatureId, id);
    }

    /** Any mode change discards the pending vertices. */
    method SetDrawMode(mode: DrawMode)
      modifies this`drawMode, this`drawingCoordinates
      ensures drawMode == mode && drawingCoordinates == []
    {
      drawMode := mode;
      drawingCoordinates := [];
    }

    method AddDrawingPoint(coord: Position)
      modifies this`drawingCoordinates
      ensures drawingCoordinates == old(drawingCoordinates) + [coord]
    {
      drawingCoordinates := drawingCoordinates + [coord];
    }

    method ClearDrawing()
      modifies this`drawMode, this`drawingCoordinates
      ensures drawMode == NoMode && drawingCoordinates == []
    {
      drawingCoordinates := [];
      drawMode := NoMode;
    }

    /** Reads the pending vertices and the mode. With no vertex it returns
        null and changes nothing; otherwise it returns the geometry those
        vertices make (or null) and always resets the drawing to mode
        'none' with no vertices. */
    method FinishDrawing() returns (geometry: Option<Geometry>)
      modifies this`drawMode, this`drawingCoordinates
      ensures geometry == Ops.FinishGeometry(old(drawMode), old(drawingCoordinates))
      ensures old(drawingCoordinates) == [] ==>
        geometry.None? && drawingCoordinates == [] && drawMode == old(drawMode)
      ensures old(drawingCoordinates) != [] ==> drawingCoordinates == [] && drawMode == NoMode
    {
      var coords := drawingCoordinates;
      if coords == [] {
        return None;
      }
      geometry := Ops.FinishGeometry(drawMode, coords);
      drawingCoordinates := [];
      drawMode := NoMode;
    }

    method ToggleSidebar()
      modifies this`sidebarOpen
      ensures sidebarOpen == !old(sidebarOpen)
    {
      sidebarOpen := !sidebarOpen;
    }

    method ToggleLayerPanel()
      modifies this`layerPanelOpen
      ensures layerPanelOpen == !old(layerPanelOpen)
    {
      layerPanelOpen := !layerPanelOpen;
    }
  }

  /** A caller's view of the drawing state machine: three clicks in polygon
      mode followed by finish give the closed triangle, and the store is
      back in mode 'none' with nothing pending. */
  method DrawTriangle(store: MapStore) returns (g: Option<Geometry>)
    modifies store
    ensures g == Some(Polygon([[Position(0.0, 0.0), Position(1.0, 0.0), Position(1.0, 1.0), Position(0.0, 0.0)]]))
    ensures store.drawMode == NoMode && store.drawingCoordinates == []
    ensures store.layers == old(store.layers)
  {
    store.SetDrawMode(PolygonMode);
    store.AddDrawingPoint(Position(0.0, 0.0));
    store.AddDrawingPoint(Position(1.0, 0.0));
    store.AddDrawingPoint(Position(1.0, 1.0));
    var clicks := [Position(0.0, 0.0), Position(1.0, 0.0), Position(1.0, 1.0)];
    assert store.drawingCoordinates == clicks;
    g := store.FinishDrawing();
    assert clicks + [clicks[0]] == [Position(0.0, 0.0), Position(1.0, 0.0), Position(1.0, 1.0), Position(0.0, 0.0)];
  }
}
