/** The `/api/maps` handlers: GET lists the sample maps, searched and
    paginated; POST builds a new map from the request body. The sample maps
    stand in for the database, `Date.now()` is the parameter `now`, and the
    `createdAt`/`updatedAt` dates are not modelled. */
module MapsRoute {
  import opened Wrappers
  import opened Seqs
  import opened Strings
  import opened JsValues
  import opened RouteCommon

  /** One entry of a map's `layers` list. */
  datatype LayerSummary = LayerSummary(id: string, name: string, featureCount: nat)

  datatype MapRecord = MapRecord(
    id: string,
    name: string,
    description: string,
    centerLat: real,
    centerLng: real,
    zoom: nat,
    baseMap: string,
    isPublic: bool,
    userId: string,
    layers: seq<LayerSummary>)

  const SampleMaps := [
    MapRecord("map-1", "خريطة المدينة", "خريطة تفصيلية للمدينة", 36.75, 3.05, 12, "OSM", true, "demo-user",
      [LayerSummary("layer-1", "المدن", 15), LayerSummary("layer-2", "الطرق", 45)]),
    MapRecord("map-2", "خريطة الطرق", "شبكة الطرق الرئيسية", 35.70, -0.63, 10, "SATELLITE", false, "demo-user",
      [LayerSummary("layer-3", "الطرق الرئيسية", 89)]),
    MapRecord("map-3", "خريطة المناطق الإدارية", "تقسيم المناطق الإدارية", 36.04, 7.75, 8, "DARK", true, "demo-user",
      [LayerSummary("layer-4", "الحدود الإدارية", 58)])
  ]

  const DefaultMapPage := "1"
  const DefaultMapLimit := "10"

  /** The sample maps the search term matches, on name or description. */
  function MatchingMaps(search: string): (r: seq<MapRecord>)
    ensures |r| <= |SampleMaps|
    ensures search == "" ==> r == SampleMaps
    ensures forall i :: 0 <= i < |r| ==> r[i] in SampleMaps && MatchesSearch(r[i].name, Some(r[i].description), search)
    ensures forall m :: m in SampleMaps && MatchesSearch(m.name, Some(m.description), search) ==> m in r
  {
    Search(SampleMaps, (m: MapRecord) => m.name, (m: MapRecord) => Some(m.description), search)
  }

  /** GET: parameters `page` (default 1), `limit` (default 10) and
      `search` (default empty). */
  function GetMaps(page: Option<string>, limit: Option<string>, search: Option<string>): (r: (seq<MapRecord>, PageInfo))
    ensures r.1.total == |MatchingMaps(ParamOr(search, ""))| <= 3
    ensures r.1.page == QueryInt(page, DefaultMapPage) && r.1.limit == QueryInt(limit, DefaultMapLimit)
    ensures r.1.totalPages == if r.1.limit.Some? then CeilDiv(r.1.total, r.1.limit.value) else None
    ensures r.1.page.None? || r.1.limit.None? ==> r.0 == []
    ensures forall i :: 0 <= i < |r.0| ==> r.0[i] in MatchingMaps(ParamOr(search, ""))
  {
    var maps := MatchingMaps(ParamOr(search, ""));
    PageDrawnFromList(maps, QueryInt(page, DefaultMapPage), QueryInt(limit, DefaultMapLimit));
    Paginate(maps, QueryInt(page, DefaultMapPage), QueryInt(limit, DefaultMapLimit))
  }

  /** With no parameters the whole sample list is one page of ten. */
  lemma GetMapsDefaults()
    ensures GetMaps(None, None, None) == (SampleMaps, PageInfo(Some(1), Some(10), 3, Some(1)))
  {
    assert DecimalString(1) == DefaultMapPage;
    assert DecimalString(10) == DefaultMapLimit;
    QueryIntReads(None, 1, 1);
    QueryIntReads(None, 10, 10);
    assert MatchingMaps(ParamOr(None, "")) == SampleMaps;
    assert GetMaps(None, None, None) == Paginate(SampleMaps, Some(1), Some(10));
    SinglePage(SampleMaps, 10);
  }

  /** With numeric parameters GET returns that page of the matching maps. */
  lemma GetMapsPage(page: nat, limit: nat, search: Option<string>)
    ensures GetMaps(Some(DecimalString(page)), Some(DecimalString(limit)), search) ==
      Paginate(MatchingMaps(ParamOr(search, "")), Some(page), Some(limit))
  {
    var items := MatchingMaps(ParamOr(search, ""));
    var p, l := Some(DecimalString(page)), Some(DecimalString(limit));
    assert GetMaps(p, l, search) == Paginate(items, QueryInt(p, DefaultMapPage), QueryInt(l, DefaultMapLimit));
    PaginateDecimalQuery(items, page, limit, DefaultMapPage, DefaultMapLimit);
  }

  /** Searching for the roads finds the roads map. */
  lemma SearchFindsRoadsMap()
    ensures SampleMaps[1] in MatchingMaps("الطرق")
  {
    var m := SampleMaps[1];
    assert ToLower(m.name) == m.name;
    assert ToLower("الطرق") == "الطرق";
    assert OccursAt(m.name, "الطرق", 6);
  }

  const MapNameRequired := "اسم الخريطة مطلوب"
  const MapCreated := "تم إنشاء الخريطة بنجاح"
  const CreateMapFailed := "حدث خطأ أثناء إنشاء الخريطة"

  /** The map POST builds. The fields copied from the body keep the body's
      JSON values: `||` passes any truthy value through unchanged. */
  datatype NewMap = NewMap(
    id: string,
    name: Value,
    description: Value,
    centerLat: Value,
    centerLng: Value,
    zoom: Value,
    baseMap: Value,
    isPublic: Value,
    userId: string,
    layers: seq<LayerSummary>)

  /** POST with the parsed body (None when it is not JSON, which makes
      `request.json()` throw). */
  function PostMap(body: Option<Value>, now: nat): (r: Response<NewMap>)
    ensures body.None? || Nullish(body.value) <==> r == ServerError(CreateMapFailed)
    ensures body.Some? && !Nullish(body.value) ==>
      (r == BadRequest(MapNameRequired) <==> !Truthy(Get(body.value, "name")))
    ensures r.Success? ==> r.message == Some(MapCreated)
    ensures r.Success? ==>
      var b := body.value;
      && r.data.id == "map-" + DecimalString(now)
      && r.data.name == Get(b, "name") && Truthy(r.data.name)
      && r.data.description == Or(Get(b, "description"), Str(""))
      && r.data.centerLat == Or(Get(b, "centerLat"), Num(0.0))
      && r.data.centerLng == Or(Get(b, "centerLng"), Num(0.0))
      && r.data.zoom == Or(Get(b, "zoom"), Num(2.0))
      && r.data.baseMap == Or(Get(b, "baseMap"), Str("OSM"))
      && r.data.isPublic == Or(Get(b, "isPublic"), Bool(false))
      && r.data.userId == "demo-user" && r.data.layers == []
  {
    if body.None? || Nullish(body.value) then ServerError(CreateMapFailed)
    else
      var b := body.value;
      var name := Get(b, "name");
      if !Truthy(name) then BadRequest(MapNameRequired)
      else
        Success(NewMap(
          "map-" + DecimalString(now), name,
          Or(Get(b, "description"), Str("")),
          Or(Get(b, "centerLat"), Num(0.0)),
          Or(Get(b, "centerLng"), Num(0.0)),
          Or(Get(b, "zoom"), Num(2.0)),
          Or(Get(b, "baseMap"), Str("OSM")),
          Or(Get(b, "isPublic"), Bool(false)),
          "demo-user", []), Some(MapCreated))
  }

  /** Because the defaults are applied with `||`, a zoom of 0 or an empty
      base map in the body is replaced by the default, so a created map's
      zoom and base map are always truthy, and a created latitude of 0 is
      always the default, never the body's value. */
  lemma CreatedMapFieldsTruthy(body: Value, now: nat)
    requires PostMap(Some(body), now).Success?
    ensures var m := PostMap(Some(body), now).data;
      Truthy(m.description) || m.description == Str("")
    ensures var m := PostMap(Some(body), now).data;
      Truthy(m.zoom) && Truthy(m.baseMap)
    ensures var m := PostMap(Some(body), now).data;
      m.centerLat == Num(0.0) ==> !Truthy(Get(body, "centerLat"))
  {
  }

  /** Two maps created at different instants have different ids. */
  lemma CreatedMapIdsDistinct(body: Value, now1: nat, now2: nat)
    requires PostMap(Some(body), now1).Success? && PostMap(Some(body), now2).Success?
    requires now1 != now2
    ensures PostMap(Some(body), now1).data.id != PostMap(Some(body), now2).data.id
  {
    var p := "map-";
    var a, b := DecimalString(now1), DecimalString(now2);
    if p + a == p + b {
      assert a == (p + a)[|p|..];
      assert b == (p + b)[|p|..];
      DecimalInjective(now1, now2);
    }
  }
}
