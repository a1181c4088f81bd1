/** The `/api/layers` handlers: GET lists the sample layers, searched and
    paginated; POST builds a new layer from the request body, placed after
    the sample layers. The sample layers stand in for the database,
    `Date.now()` is the parameter `now`, and the dates are not modelled. */
module LayersRoute {
  import opened Wrappers
  import opened Seqs
  import opened Strings
  import opened JsValues
  import opened RouteCommon

  datatype LayerRecord = LayerRecord(
    id: string,
    name: string,
    description: string,
    kind: string,
    geometryType: string,
    visible: bool,
    opacity: real,
    style: Value,
    order: nat,
    featureCount: nat,
    userId: string)

  const SampleLayers := [
    LayerRecord("layer-1", "المدن الرئيسية", "أهم المدن في المنطقة", "VECTOR", "POINT", true, 1.0,
      Obj(map["color" := Str("#ef4444"), "pointRadius" := Num(10.0)]), 0, 15, "demo-user"),
    LayerRecord("layer-2", "الحدود الإدارية", "الحدود الإدارية للولايات", "VECTOR", "POLYGON", true, 0.6,
      Obj(map["fillColor" := Str("#3b82f6"), "fillOpacity" := Num(0.3), "lineColor" := Str("#1e40af"), "lineWidth" := Num(2.0)]),
      1, 58, "demo-user"),
    LayerRecord("layer-3", "الطرق الرئيسية", "شبكة الطرق الرئيسية", "VECTOR", "LINESTRING", true, 1.0,
      Obj(map["lineColor" := Str("#22c55e"), "lineWidth" := Num(3.0)]), 2, 89, "demo-user")
  ]

  const DefaultLayerPage := "1"
  const DefaultLayerLimit := "20"

  /** The sample layers the search term matches, on name or description. */
  function MatchingLayers(search: string): (r: seq<LayerRecord>)
    ensures |r| <= |SampleLayers|
    ensures search == "" ==> r == SampleLayers
    ensures forall i :: 0 <= i < |r| ==> r[i] in SampleLayers && MatchesSearch(r[i].name, Some(r[i].description), search)
    ensures forall l :: l in SampleLayers && MatchesSearch(l.name, Some(l.description), search) ==> l in r
  {
    Search(SampleLayers, (l: LayerRecord) => l.name, (l: LayerRecord) => Some(l.description), search)
  }

  /** GET: parameters `page` (default 1), `limit` (default 20) and
      `search` (default empty). */
  function GetLayers(page: Option<string>, limit: Option<string>, search: Option<string>): (r: (seq<LayerRecord>, PageInfo))
    ensures r.1.total == |MatchingLayers(ParamOr(search, ""))| <= 3
    ensures r.1.page == QueryInt(page, DefaultLayerPage) && r.1.limit == QueryInt(limit, DefaultLayerLimit)
    ensures r.1.totalPages == if r.1.limit.Some? then CeilDiv(r.1.total, r.1.limit.value) else None
    ensures r.1.page.None? || r.1.limit.None? ==> r.0 == []
    ensures forall i :: 0 <= i < |r.0| ==> r.0[i] in MatchingLayers(ParamOr(search, ""))
  {
    var layers := MatchingLayers(ParamOr(search, ""));
    PageDrawnFromList(layers, QueryInt(page, DefaultLayerPage), QueryInt(limit, DefaultLayerLimit));
    Paginate(layers, QueryInt(page, DefaultLayerPage), QueryInt(limit, DefaultLayerLimit))
  }

  /** With no parameters the whole sample list is one page of twenty. */
  lemma GetLayersDefaults()
    ensures GetLayers(None, None, None) == (SampleLayers, PageInfo(Some(1), Some(20), 3, Some(1)))
  {
    assert DecimalString(1) == DefaultLayerPage;
    assert DecimalString(20) == DefaultLayerLimit;
    QueryIntReads(None, 1, 1);
    QueryIntReads(None, 20, 20);
    assert MatchingLayers(ParamOr(None, "")) == SampleLayers;
    assert GetLayers(None, None, None) == Paginate(SampleLayers, Some(1), Some(20));
    SinglePage(SampleLayers, 20);
  }

  /** With numeric parameters GET returns that page of the matching layers. */
  lemma GetLayersPage(page: nat, limit: nat, search: Option<string>)
    ensures GetLayers(Some(DecimalString(page)), Some(DecimalString(limit)), search) ==
      Paginate(MatchingLayers(ParamOr(search, "")), Some(page), Some(limit))
  {
    var items := MatchingLayers(ParamOr(search, ""));
    var p, l := Some(DecimalString(page)), Some(DecimalString(limit));
    assert GetLayers(p, l, search) == Paginate(items, QueryInt(p, DefaultLayerPage), QueryInt(l, DefaultLayerLimit));
    PaginateDecimalQuery(items, page, limit, DefaultLayerPage, DefaultLayerLimit);
  }

  const LayerNameRequired := "اسم الطبقة مطلوب"
  const LayerCreated := "تم إنشاء الطبقة بنجاح"
  const CreateLayerFailed := "حدث خطأ أثناء إنشاء الطبقة"
  const DefaultLayerStyle := Obj(map["color" := Str("#3b82f6")])

  /** The layer POST builds; the fields copied from the body keep the
      body's JSON values. */
  datatype NewLayer = NewLayer(
    id: string,
    name: Value,
    description: Value,
    kind: Value,
    geometryType: Value,
    visible: Value,
    opacity: Value,
    style: Value,
    order: nat,
    featureCount: nat,
    userId: string)

  /** POST with the parsed body (None when it is not JSON). `visible` and
      `opacity` default with `??`, the other fields with `||`. The new
      layer's order is the number of sample layers. */
  function PostLayer(body: Option<Value>, now: nat): (r: Response<NewLayer>)
    ensures body.None? || Nullish(body.value) <==> r == ServerError(CreateLayerFailed)
    ensures body.Some? && !Nullish(body.value) ==>
      (r == BadRequest(LayerNameRequired) <==> !Truthy(Get(body.value, "name")))
    ensures r.Success? ==> r.message == Some(LayerCreated)
    ensures r.Success? ==>
      var b := body.value;
      && r.data.id == "layer-" + DecimalString(now)
      && r.data.name == Get(b, "name") && Truthy(r.data.name)
      && r.data.description == Or(Get(b, "description"), Str(""))
      && r.data.kind == Or(Get(b, "type"), Str("VECTOR"))
      && r.data.geometryType == Or(Get(b, "geometryType"), Str("POINT"))
      && r.data.visible == Coalesce(Get(b, "visible"), Bool(true))
      && r.data.opacity == Coalesce(Get(b, "opacity"), Num(1.0))
      && r.data.style == Or(Get(b, "style"), DefaultLayerStyle)
      && r.data.order == |SampleLayers| && r.data.featureCount == 0 && r.data.userId == "demo-user"
  {
    if body.None? || Nullish(body.value) then ServerError(CreateLayerFailed)
    else
      var b := body.value;
      var name := Get(b, "name");
      if !Truthy(name) then BadRequest(LayerNameRequired)
      else
        Success(NewLayer(
          "layer-" + DecimalString(now), name,
          Or(Get(b, "description"), Str("")),
          Or(Get(b, "type"), Str("VECTOR")),
          Or(Get(b, "geometryType"), Str("POINT")),
          Coalesce(Get(b, "visible"), Bool(true)),
          Coalesce(Get(b, "opacity"), Num(1.0)),
          Or(Get(b, "style"), DefaultLayerStyle),
          |SampleLayers|, 0, "demo-user"), Some(LayerCreated))
  }

  /** The sample orders are 0, 1, 2 and the new layer takes 3, so the
      orders stay 0 .. n-1 with the new layer last. */
  lemma NewLayerOrderIsNext(body: Value, now: nat)
    requires PostLayer(Some(body), now).Success?
    ensures forall i :: 0 <= i < |SampleLayers| ==> SampleLayers[i].order == i
    ensures PostLayer(Some(body), now).data.order == |SampleLayers| == 3
  {
  }

  /** `??` keeps an explicit `visible: false` and `opacity: 0`, where `||`
      would have replaced them; only a missing or null value takes the
      default. */
  lemma ExplicitFalseAndZeroKept(body: Value, now: nat)
    requires body.Obj? && "name" in body.fields && Truthy(body.fields["name"])
    ensures "visible" in body.fields && body.fields["visible"] == Bool(false) ==>
      PostLayer(Some(body), now).data.visible == Bool(false)
    ensures "opacity" in body.fields && body.fields["opacity"] == Num(0.0) ==>
      PostLayer(Some(body), now).data.opacity == Num(0.0)
    ensures "visible" !in body.fields ==> PostLayer(Some(body), now).data.visible == Bool(true)
    ensures "opacity" !in body.fields ==> PostLayer(Some(body), now).data.opacity == Num(1.0)
  {
  }
}
