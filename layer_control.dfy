/** The layer panel (`LayerControl`): drag-and-drop reordering that renumbers
    `order`, the visibility and opacity requests it sends upwards, the
    add-layer dialog, in-place renaming of one layer, and the feature total
    in its header. */
module LayerControl {
  import opened Wrappers
  import opened Seqs
  import opened GeoTypes
  import opened Strings
  import Ops = StoreOps

  /** `.map((layer, index) => ({ ...layer, order: index }))`: the same
      layers in the same places, numbered 0 .. n-1. */
  function Renumber(layers: seq<Layer>): (r: seq<Layer>)
    ensures |r| == |layers|
    ensures forall i :: 0 <= i < |r| ==> r[i].order == i
    ensures Unordered(r) == Unordered(layers)
  {
    seq(|layers|, i requires 0 <= i < |layers| => layers[i].(order := i))
  }

  /** The layers with their `order` field erased, to compare lists up to
      renumbering. */
  function Unordered(layers: seq<Layer>): seq<Layer>
  {
    seq(|layers|, i requires 0 <= i < |layers| => layers[i].(order := 0))
  }

  /** `layers.findIndex((l) => l.id === id)`: the first position holding
      the id, or -1 when none does. */
  function IndexOfId(layers: seq<Layer>, id: string): (r: int)
    ensures -1 <= r < |layers|
    ensures r == -1 <==> !Ops.HasLayer(layers, id)
    ensures r >= 0 ==> layers[r].id == id && forall j :: 0 <= j < r ==> layers[j].id != id
  {
    FindIndex(layers, (l: Layer) => l.id == id)
  }

  lemma IndexOfPresentId(layers: seq<Layer>, id: string)
    requires Ops.HasLayer(layers, id)
    ensures 0 <= IndexOfId(layers, id) < |layers|
    ensures layers[IndexOfId(layers, id)].id == id
  {
    var i :| 0 <= i < |layers| && layers[i].id == id;
    assert ((l: Layer) => l.id == id)(layers[i]);
  }

  /** Erasing orders commutes with moving an element. */
  lemma UnorderedMove(s: seq<Layer>, from: nat, to: nat)
    requires from < |s| && to < |s|
    ensures Unordered(Move(s, from, to)) == Move(Unordered(s), from, to)
  {
    var a, b := Unordered(Move(s, from, to)), Move(Unordered(s), from, to);
    forall k | 0 <= k < |s| ensures a[k] == b[k] {
      MoveAt(s, from, to, k);
      MoveAt(Unordered(s), from, to, k);
    }
  }

  /** `handleDragEnd`. The sortable context only reports ids of the listed
      layers, so `active` and a non-null `over` are ids present in
      `layers`. Nothing happens (None) when the drop target is null or the
      layer itself; otherwise the new list is the dragged layer moved from
      its index to the target's index, renumbered 0..n-1: the same layers up
      to `order`, with the dragged layer at the target's index. */
  function DragEnd(layers: seq<Layer>, activeId: string, overId: Option<string>): (r: Option<seq<Layer>>)
    requires Ops.HasLayer(layers, activeId)
    requires overId.Some? ==> Ops.HasLayer(layers, overId.value)
    ensures r.None? <==> overId.None? || overId.value == activeId
    ensures r.Some? ==> |r.value| == |layers|
    ensures r.Some? ==> forall i :: 0 <= i < |r.value| ==> r.value[i].order == i
    ensures r.Some? ==> multiset(Unordered(r.value)) == multiset(Unordered(layers))
    ensures r.Some? ==>
      var oldIndex, newIndex := IndexOfId(layers, activeId), IndexOfId(layers, overId.value);
      0 <= oldIndex < |layers| && 0 <= newIndex < |layers| &&
      r.value[newIndex] == layers[oldIndex].(order := newIndex) &&
      r.value[newIndex].id == activeId
  {
    if overId.Some? && activeId != overId.value then
      IndexOfPresentId(layers, activeId);
      IndexOfPresentId(layers, overId.value);
      var oldIndex, newIndex := IndexOfId(layers, activeId), IndexOfId(layers, overId.value);
      var moved := Move(layers, oldIndex, newIndex);
      UnorderedMove(layers, oldIndex, newIndex);
      assert Unordered(Renumber(moved)) == Unordered(moved);
      Some(Renumber(moved))
    else
      None
  }

  /** After a drag the orders are exactly 0, 1, ..., n-1 in list order, so
      no order is missing or repeated. */
  lemma DragEndDense(layers: seq<Layer>, activeId: string, overId: Option<string>)
    requires Ops.HasLayer(layers, activeId)
    requires overId.Some? ==> Ops.HasLayer(layers, overId.value)
    ensures var r := DragEnd(layers, activeId, overId);
      r.Some? ==> Ops.Orders(r.value) == seq(|layers|, i => i)
    ensures var r := DragEnd(layers, activeId, overId);
      r.Some? ==> forall j, k :: 0 <= j < k < |layers| ==> r.value[j].order != r.value[k].order
  {
  }

  /** `layers.reduce((acc, l) => acc + l.features.length, 0)` */
  function TotalFeatures(layers: seq<Layer>): (n: nat)
    ensures layers == [] ==> n == 0
    ensures forall i :: 0 <= i < |layers| ==> |layers[i].features| <= n
  {
    if layers == [] then 0
    else TotalFeatures(layers[..|layers| - 1]) + |layers[|layers| - 1].features|
  }

  lemma {:induction false} TotalFeaturesAppend(a: seq<Layer>, b: seq<Layer>)
    ensures TotalFeatures(a + b) == TotalFeatures(a) + TotalFeatures(b)
    decreases |b|
  {
    if b == [] {
      assert a + b == a;
    } else {
      assert (a + b)[..|a + b| - 1] == a + b[..|b| - 1];
      TotalFeaturesAppend(a, b[..|b| - 1]);
    }
  }

  /** The total over a single layer is its feature count. */
  lemma TotalFeaturesOne(l: Layer)
    ensures TotalFeatures([l]) == |l.features|
  {
    assert [l][..0] == [];
  }

  lemma TotalFeaturesRemoveAt(s: seq<Layer>, i: nat)
    requires i < |s|
    ensures TotalFeatures(RemoveAt(s, i)) + |s[i].features| == TotalFeatures(s)
  {
    var a, c := s[..i], s[i + 1..];
    assert s == (a + [s[i]]) + c;
    assert RemoveAt(s, i) == a + c;
    TotalFeaturesAppend(a + [s[i]], c);
    TotalFeaturesAppend(a, [s[i]]);
    TotalFeaturesAppend(a, c);
    TotalFeaturesOne(s[i]);
  }

  lemma TotalFeaturesInsertAt(s: seq<Layer>, i: nat, x: Layer)
    requires i <= |s|
    ensures TotalFeatures(InsertAt(s, i, x)) == TotalFeatures(s) + |x.features|
  {
    var a, c := s[..i], s[i..];
    assert s == a + c;
    assert InsertAt(s, i, x) == (a + [x]) + c;
    TotalFeaturesAppend(a + [x], c);
    TotalFeaturesAppend(a, [x]);
    TotalFeaturesAppend(a, c);
    TotalFeaturesOne(x);
  }

  /** Moving a layer does not change the total. */
  lemma TotalFeaturesMove(s: seq<Layer>, from: nat, to: nat)
    requires from < |s| && to < |s|
    ensures TotalFeatures(Move(s, from, to)) == TotalFeatures(s)
  {
    var rest := RemoveAt(s, from);
    TotalFeaturesRemoveAt(s, from);
    TotalFeaturesInsertAt(rest, ClampIndex(to, |rest|), s[from]);
  }

  /** Renumbering does not change the total. */
  lemma {:induction false} TotalFeaturesRenumber(s: seq<Layer>, f: seq<Layer>)
    requires |s| == |f|
    requires forall i :: 0 <= i < |s| ==> s[i].features == f[i].features
    ensures TotalFeatures(s) == TotalFeatures(f)
  {
    if s != [] {
      TotalFeaturesRenumber(s[..|s| - 1], f[..|f| - 1]);
    }
  }

  /** The header total is the same before and after a drag. */
  lemma DragEndKeepsTotal(layers: seq<Layer>, activeId: string, overId: Option<string>)
    requires Ops.HasLayer(layers, activeId)
    requires overId.Some? ==> Ops.HasLayer(layers, overId.value)
    ensures var r := DragEnd(layers, activeId, overId);
      r.Some? ==> TotalFeatures(r.value) == TotalFeatures(layers)
  {
    if overId.Some? && activeId != overId.value {
      IndexOfPresentId(layers, activeId);
      IndexOfPresentId(layers, overId.value);
      var moved := Move(layers, IndexOfId(layers, activeId), IndexOfId(layers, overId.value));
      TotalFeaturesMove(layers, IndexOfId(layers, activeId), IndexOfId(layers, overId.value));
      TotalFeaturesRenumber(Renumber(moved), moved);
    }
  }

  /** Adding a feature to the store raises the total by one per layer with
      that id, and by nothing for an unknown id. */
  lemma {:induction false} TotalFeaturesAddFeature(layers: seq<Layer>, layerId: string, f: Feature)
    ensures TotalFeatures(Ops.AddFeature(layers, layerId, f)) ==
      TotalFeatures(layers) + CountIf(layers, (l: Layer) => l.id == layerId)
    decreases |layers|
  {
    if layers != [] {
      var n := |layers|;
      var init := layers[..n - 1];
      var r := Ops.AddFeature(layers, layerId, f);
      forall i | 0 <= i < n - 1 ensures r[..n - 1][i] == Ops.AddFeature(init, layerId, f)[i] {
      }
      assert r[..n - 1] == Ops.AddFeature(init, layerId, f);
      TotalFeaturesAddFeature(init, layerId, f);
      CountIfSnoc(init, layers[n - 1], (l: Layer) => l.id == layerId);
      assert layers == init + [layers[n - 1]];
    }
  }

  lemma {:induction false} CountIfSnoc<T>(s: seq<T>, x: T, p: T -> bool)
    ensures CountIf(s + [x], p) == CountIf(s, p) + (if p(x) then 1 else 0)
  {
    if s == [] {
      assert s + [x] == [x];
    } else {
      assert (s + [x])[1..] == s[1..] + [x];
      CountIfSnoc(s[1..], x, p);
    }
  }

  /** `handleToggleVisibility`: when a layer has this id, the request to
      set `visible` to the negation of the first such layer's flag. */
  function ToggleVisibilityRequest(layers: seq<Layer>, id: string): (r: Option<(string, Ops.LayerPatch)>)
    ensures r.None? <==> !Ops.HasLayer(layers, id)
    ensures r.Some? ==> r.value.0 == id && r.value.1.visible.Some?
    ensures r.Some? ==>
      var k := IndexOfId(layers, id);
      0 <= k < |layers| && r.value.1 == Ops.NoLayerChanges.(visible := Some(!layers[k].visible))
  {
    var i := IndexOfId(layers, id);
    if i == -1 then None
    else Some((id, Ops.NoLayerChanges.(visible := Some(!layers[i].visible))))
  }

  predicate UniqueIds(layers: seq<Layer>)
  {
    forall i, j :: 0 <= i < j < |layers| ==> layers[i].id != layers[j].id
  }

  /** With unique ids, applying the panel's request in the store has the same
      effect as the store's own toggle; with no such layer nothing is sent. */
  lemma ToggleVisibilityRequestAgrees(layers: seq<Layer>, id: string)
    requires UniqueIds(layers)
    ensures var r := ToggleVisibilityRequest(layers, id);
      r.Some? ==> Ops.UpdateLayer(layers, r.value.0, r.value.1) == Ops.ToggleVisibility(layers, id)
  {
    var r := ToggleVisibilityRequest(layers, id);
    if r.Some? {
      IndexOfPresentId(layers, id);
      var a, b := Ops.UpdateLayer(layers, id, r.value.1), Ops.ToggleVisibility(layers, id);
      forall k | 0 <= k < |layers| ensures a[k] == b[k] {
        if layers[k].id == id {
          assert k == IndexOfId(layers, id);
        }
      }
    }
  }

  /** `handleUpdateOpacity` */
  function OpacityRequest(id: string, opacity: real): (r: (string, Ops.LayerPatch))
    ensures r.0 == id && r.1.opacity == Some(opacity)
  {
    (id, Ops.NoLayerChanges.(opacity := Some(opacity)))
  }

  /** The opacity request, applied in the store, is the store's own
      opacity setter. */
  lemma OpacityRequestAgrees(layers: seq<Layer>, id: string, opacity: real)
    ensures var r := OpacityRequest(id, opacity);
      Ops.UpdateLayer(layers, r.0, r.1) == Ops.SetOpacity(layers, id, opacity)
  {
  }

  /** The style a new layer gets from the add-layer dialog. */
  const DefaultNewLayerStyle := EmptyStyle.(
    color := Some("#3b82f6"),
    fillColor := Some("#3b82f6"),
    fillOpacity := Some(0.5),
    lineWidth := Some(2.0),
    pointRadius := Some(8.0))

  /** The partial layer the add-layer dialog submits. */
  function NewLayerRequest(name: string, geometryType: GeometryType): (p: Ops.LayerPatch)
    ensures p.name == Some(name) && p.geometryType == Some(geometryType) && p.kind == Some(Vector)
    ensures p.visible == Some(true) && p.opacity == Some(1.0) && p.style == Some(DefaultNewLayerStyle)
    ensures p.id.None? && p.description.None? && p.order.None? && p.mapId.None? && p.userId.None? && p.features.None?
  {
    Ops.NoLayerChanges.(
      name := Some(name),
      geometryType := Some(geometryType),
      kind := Some(Vector),
      visible := Some(true),
      opacity := Some(1.0),
      style := Some(DefaultNewLayerStyle))
  }

  /** The add-layer dialog's state. */
  class LayerPanel {
    var isAddDialogOpen: bool
    var newLayerName: string
    var newLayerType: GeometryType

    constructor ()
      ensures !isAddDialogOpen && newLayerName == "" && newLayerType == PointType
    {
      isAddDialogOpen := false;
      newLayerName := "";
      newLayerType := PointType;
    }

    method SetAddDialogOpen(open: bool)
      modifies this`isAddDialogOpen
      ensures isAddDialogOpen == open
    {
      isAddDialogOpen := open;
    }

    method SetNewLayerName(name: string)
      modifies this`newLayerName
      ensures newLayerName == name
    {
      newLayerName := name;
    }

    method SetNewLayerType(t: GeometryType)
      modifies this`newLayerType
      ensures newLayerType == t
    {
      newLayerType := t;
    }

    /** `handleAddLayer`: a name that is blank after trimming submits
        nothing and changes nothing; otherwise the trimmed name and the
        selected geometry type go out with the fixed defaults, and the form
        is reset and closed. */
    method HandleAddLayer() returns (submitted: Option<Ops.LayerPatch>)
      modifies this
      ensures Trim(old(newLayerName)) == [] ==>
        submitted.None? && isAddDialogOpen == old(isAddDialogOpen) &&
        newLayerName == old(newLayerName) && newLayerType == old(newLayerType)
      ensures Trim(old(newLayerName)) != [] ==>
        submitted == Some(NewLayerRequest(Trim(old(newLayerName)), old(newLayerType))) &&
        newLayerName == "" && newLayerType == PointType && !isAddDialogOpen
    {
      var name := Trim(newLayerName);
      if name != [] {
        submitted := Some(NewLayerRequest(name, newLayerType));
        newLayerName := "";
        newLayerType := PointType;
        isAddDialogOpen := false;
      } else {
        submitted := None;
      }
    }
  }

  /** Whatever layer the request is completed into, it ends up a visible,
      fully opaque vector layer with the given name, geometry type and the
      default style, and keeps every field the request leaves unset. */
  lemma NewLayerRequestApplied(name: string, t: GeometryType, l: Layer)
    ensures Ops.ApplyLayerPatch(l, NewLayerRequest(name, t)) ==
      l.(name := name, kind := Vector, geometryType := Some(t), visible := true, opacity := 1.0,
         style := Some(DefaultNewLayerStyle))
  {
  }

  /** One row of the list, with its rename field. */
  class LayerItem {
    const layerId: string
    var isEditing: bool
    var editName: string

    /** The edit field starts with the layer's name. */
    constructor (layer: Layer)
      ensures layerId == layer.id && !isEditing && editName == layer.name
    {
      layerId := layer.id;
      isEditing := false;
      editName := layer.name;
    }

    method StartEditing()
      modifies this`isEditing
      ensures isEditing
    {
      isEditing := true;
    }

    method SetEditName(name: string)
      modifies this`editName
      ensures editName == name
    {
      editName := name;
    }

    /** `handleSaveName`: renames to the trimmed text only when it is not
        blank, and leaves editing mode either way. */
    method HandleSaveName() returns (update: Option<(string, Ops.LayerPatch)>)
      modifies this`isEditing
      ensures !isEditing
      ensures Trim(editName) == [] ==> update.None?
      ensures Trim(editName) != [] ==> update == Some((layerId, Ops.NoLayerChanges.(name := Some(Trim(editName)))))
    {
      var name := Trim(editName);
      if name != [] {
        update := Some((layerId, Ops.NoLayerChanges.(name := Some(name))));
      } else {
        update := None;
      }
      isEditing := false;
    }
  }

  /** A rename request changes only the name of the matching layers, to a
      name without surrounding white space. */
  lemma RenameRequestEffect(layers: seq<Layer>, id: string, text: string, k: nat)
    requires Trim(text) != [] && k < |layers|
    ensures var r := Ops.UpdateLayer(layers, id, Ops.NoLayerChanges.(name := Some(Trim(text))));
      r[k] == if layers[k].id == id then layers[k].(name := Trim(text)) else layers[k]
    ensures Trim(Trim(text)) == Trim(text)
  {
    TrimIdempotent(text);
  }
}
