/** The application's data model: GeoJSON geometries (RFC 7946), features,
    feature collections, layers, users, and the string enumerations the
    schemas and the drawing tools use. Creation and update timestamps are
    not modelled. */
module GeoTypes {
  import opened Wrappers
  import opened JsValues

  /** A GeoJSON position `[x, y]`, which this application fills as
      `[longitude, latitude]`. */
  datatype Position = Position(lng: real, lat: real)

  /** The six GeoJSON geometry variants, each with its own coordinate
      nesting depth (one position, a list, a list of lists, three levels). */
  datatype Geometry =
    | Point(coordinates: Position)
    | LineString(path: seq<Position>)
    | Polygon(rings: seq<seq<Position>>)
    | MultiPoint(points: seq<Position>)
    | MultiLineString(paths: seq<seq<Position>>)
    | MultiPolygon(polygons: seq<seq<seq<Position>>>)

  const GeometryTypeNames: seq<string> :=
    ["Point", "LineString", "Polygon", "MultiPoint", "MultiLineString", "MultiPolygon"]

  /** The `type` discriminator of a geometry. */
  function TypeName(g: Geometry): (s: string)
    ensures s in GeometryTypeNames
  {
    match g
    case Point(_) => "Point"
    case LineString(_) => "LineString"
    case Polygon(_) => "Polygon"
    case MultiPoint(_) => "MultiPoint"
    case MultiLineString(_) => "MultiLineString"
    case MultiPolygon(_) => "MultiPolygon"
  }

  predicate SameVariant(g: Geometry, h: Geometry)
  {
    && (g.Point? <==> h.Point?)
    && (g.LineString? <==> h.LineString?)
    && (g.Polygon? <==> h.Polygon?)
    && (g.MultiPoint? <==> h.MultiPoint?)
    && (g.MultiLineString? <==> h.MultiLineString?)
    && (g.MultiPolygon? <==> h.MultiPolygon?)
  }

  /** The `type` tag discriminates the union: two geometries carry the same
      tag exactly when they are the same variant, and the six tags are
      distinct. */
  lemma TypeNameDiscriminates(g: Geometry, h: Geometry)
    ensures TypeName(g) == TypeName(h) <==> SameVariant(g, h)
    ensures |GeometryTypeNames| == 6
    ensures forall i, j :: 0 <= i < j < 6 ==> GeometryTypeNames[i] != GeometryTypeNames[j]
  {
    var names := GeometryTypeNames;
    assert names[0][0] == 'P' && names[1][0] == 'L' && names[2][0] == 'P';
    assert names[3][5] == 'P' && names[4][5] == 'L' && names[5][5] == 'P';
    assert |names[0]| == 5 && |names[1]| == 10 && |names[2]| == 7;
    assert |names[3]| == 10 && |names[4]| == 15 && |names[5]| == 12;
  }

  /** A closed LinearRing in the sense of section 3.1.6 of RFC 7946: at
      least four positions, the last equal to the first. */
  predicate IsLinearRing(ring: seq<Position>)
  {
    |ring| >= 4 && ring[|ring| - 1] == ring[0]
  }

  /** The structural rules of section 3.1 of RFC 7946 that do not concern
      coordinate ranges: line strings have at least two positions and every
      polygon ring is a closed linear ring. */
  predicate WellFormed(g: Geometry)
  {
    match g
    case Point(_) => true
    case LineString(path) => |path| >= 2
    case Polygon(rings) => forall i :: 0 <= i < |rings| ==> IsLinearRing(rings[i])
    case MultiPoint(_) => true
    case MultiLineString(paths) => forall i :: 0 <= i < |paths| ==> |paths[i]| >= 2
    case MultiPolygon(polys) =>
      forall i, j :: 0 <= i < |polys| && 0 <= j < |polys[i]| ==> IsLinearRing(polys[i][j])
  }

  /** A feature's property bag (`Record<string, unknown>`). */
  type Properties = map<string, Value>

  /** A GeoJSON Feature object as the API returns it. */
  datatype GeoJsonFeature = GeoJsonFeature(id: Option<string>, geometry: Geometry, properties: Properties)

  /** A GeoJSON FeatureCollection: the `'FeatureCollection'` tag is the
      constructor, and the features keep their order. */
  datatype FeatureCollection = FeatureCollection(features: seq<GeoJsonFeature>)

  datatype LayerType = Vector | Raster | Wms | Tile
  datatype GeometryType = PointType | LineStringType | PolygonType | MultiPointType | MultiLineStringType | MultiPolygonType
  datatype BaseMap = Osm | Satellite | Dark | Terrain
  datatype UserRole = RoleUser | RoleAdmin | RoleSuperAdmin
  datatype DrawMode = NoMode | PointMode | LineMode | PolygonMode | SelectMode | DeleteMode

  function LayerTypeName(t: LayerType): string
  {
    match t
    case Vector => "VECTOR"
    case Raster => "RASTER"
    case Wms => "WMS"
    case Tile => "TILE"
  }

  function ParseLayerType(s: string): (r: Option<LayerType>)
    ensures r.Some? ==> LayerTypeName(r.value) == s
  {
    if s == "VECTOR" then Some(Vector)
    else if s == "RASTER" then Some(Raster)
    else if s == "WMS" then Some(Wms)
    else if s == "TILE" then Some(Tile)
    else None
  }

  function GeometryTypeName(t: GeometryType): string
  {
    match t
    case PointType => "POINT"
    case LineStringType => "LINESTRING"
    case PolygonType => "POLYGON"
    case MultiPointType => "MULTIPOINT"
    case MultiLineStringType => "MULTILINESTRING"
    case MultiPolygonType => "MULTIPOLYGON"
  }

  function ParseGeometryType(s: string): (r: Option<GeometryType>)
    ensures r.Some? ==> GeometryTypeName(r.value) == s
  {
    if s == "POINT" then Some(PointType)
    else if s == "LINESTRING" then Some(LineStringType)
    else if s == "POLYGON" then Some(PolygonType)
    else if s == "MULTIPOINT" then Some(MultiPointType)
    else if s == "MULTILINESTRING" then Some(MultiLineStringType)
    else if s == "MULTIPOLYGON" then Some(MultiPolygonType)
    else None
  }

  function BaseMapName(b: BaseMap): string
  {
    match b
    case Osm => "OSM"
    case Satellite => "SATELLITE"
    case Dark => "DARK"
    case Terrain => "TERRAIN"
  }

  function ParseBaseMap(s: string): (r: Option<BaseMap>)
    ensures r.Some? ==> BaseMapName(r.value) == s
  {
    if s == "OSM" then Some(Osm)
    else if s == "SATELLITE" then Some(Satellite)
    else if s == "DARK" then Some(Dark)
    else if s == "TERRAIN" then Some(Terrain)
    else None
  }

  function UserRoleName(r: UserRole): string
  {
    match r
    case RoleUser => "USER"
    case RoleAdmin => "ADMIN"
    case RoleSuperAdmin => "SUPER_ADMIN"
  }

  function ParseUserRole(s: string): (r: Option<UserRole>)
    ensures r.Some? ==> UserRoleName(r.value) == s
  {
    if s == "USER" then Some(RoleUser)
    else if s == "ADMIN" then Some(RoleAdmin)
    else if s == "SUPER_ADMIN" then Some(RoleSuperAdmin)
    else None
  }

  function DrawModeName(m: DrawMode): string
  {
    match m
    case NoMode => "none"
    case PointMode => "point"
    case LineMode => "line"
    case PolygonMode => "polygon"
    case SelectMode => "select"
    case DeleteMode => "delete"
  }

  function ParseDrawMode(s: string): (r: Option<DrawMode>)
    ensures r.Some? ==> DrawModeName(r.value) == s
  {
    if s == "none" then Some(NoMode)
    else if s == "point" then Some(PointMode)
    else if s == "line" then Some(LineMode)
    else if s == "polygon" then Some(PolygonMode)
    else if s == "select" then Some(SelectMode)
    else if s == "delete" then Some(DeleteMode)
    else None
  }

  /** The `type` tag of a GeoJSON geometry read back into its variant name
      index; used by the feature schema, which accepts exactly the six tags. */
  function ParseGeometryTypeName(s: string): (r: Option<nat>)
    ensures r.Some? <==> s in GeometryTypeNames
    ensures r.Some? ==> r.value < 6 && GeometryTypeNames[r.value] == s
  {
    if s == "Point" then Some(0)
    else if s == "LineString" then Some(1)
    else if s == "Polygon" then Some(2)
    else if s == "MultiPoint" then Some(3)
    else if s == "MultiLineString" then Some(4)
    else if s == "MultiPolygon" then Some(5)
    else None
  }

  /** The enumerations have exactly the stated number of values: the
      name lists below are complete (every value is named) and duplicate-free. */
  const AllLayerTypes: seq<LayerType> := [Vector, Raster, Wms, Tile]
  const AllGeometryTypes: seq<GeometryType> :=
    [PointType, LineStringType, PolygonType, MultiPointType, MultiLineStringType, MultiPolygonType]
  const AllBaseMaps: seq<BaseMap> := [Osm, Satellite, Dark, Terrain]
  const AllUserRoles: seq<UserRole> := [RoleUser, RoleAdmin, RoleSuperAdmin]
  const AllDrawModes: seq<DrawMode> := [NoMode, PointMode, LineMode, PolygonMode, SelectMode, DeleteMode]

  predicate Distinct<T(==)>(s: seq<T>)
  {
    forall i, j :: 0 <= i < j < |s| ==> s[i] != s[j]
  }

  lemma EnumerationSizes(t: LayerType, g: GeometryType, b: BaseMap, u: UserRole, m: DrawMode)
    ensures |AllLayerTypes| == 4 && Distinct(AllLayerTypes) && t in AllLayerTypes
    ensures |AllGeometryTypes| == 6 && Distinct(AllGeometryTypes) && g in AllGeometryTypes
    ensures |AllBaseMaps| == 4 && Distinct(AllBaseMaps) && b in AllBaseMaps
    ensures |AllUserRoles| == 3 && Distinct(AllUserRoles) && u in AllUserRoles
    ensures |AllDrawModes| == 6 && Distinct(AllDrawModes) && m in AllDrawModes
  {
  }

  /** Every enumeration value's string name parses back to it, so the names
      are distinct and the string forms and the variants correspond one to one. */
  lemma EnumerationNamesRoundTrip(t: LayerType, g: GeometryType, b: BaseMap, u: UserRole, m: DrawMode)
    ensures ParseLayerType(LayerTypeName(t)) == Some(t)
    ensures ParseGeometryType(GeometryTypeName(g)) == Some(g)
    ensures ParseBaseMap(BaseMapName(b)) == Some(b)
    ensures ParseUserRole(UserRoleName(u)) == Some(u)
    ensures ParseDrawMode(DrawModeName(m)) == Some(m)
  {
  }

  /** Optional style settings of a layer (`LayerStyle`). */
  datatype LayerStyle = LayerStyle(
    color: Option<string>,
    fillColor: Option<string>,
    fillOpacity: Option<real>,
    lineColor: Option<string>,
    lineWidth: Option<real>,
    lineOpacity: Option<real>,
    pointRadius: Option<real>,
    pointSymbol: Option<string>,
    iconUrl: Option<string>,
    labelField: Option<string>,
    labelColor: Option<string>,
    labelSize: Option<real>)

  const EmptyStyle := LayerStyle(None, None, None, None, None, None, None, None, None, None, None, None)

  /** A feature is owned by the layer whose id is its `layerId`. */
  datatype Feature = Feature(id: string, geometry: Geometry, properties: Properties, layerId: string)

  /** A layer: an ordered feature list and an integer stacking `order`. */
  datatype Layer = Layer(
    id: string,
    name: string,
    description: Option<string>,
    kind: LayerType,
    geometryType: Option<GeometryType>,
    visible: bool,
    opacity: real,
    style: Option<LayerStyle>,
    order: int,
    mapId: Option<string>,
    userId: string,
    features: seq<Feature>)

  datatype User = User(
    id: string,
    email: string,
    username: string,
    firstName: Option<string>,
    lastName: Option<string>,
    role: UserRole,
    organization: Option<string>,
    avatar: Option<string>,
    isActive: bool)

  /** The map view: centre, zoom, bearing, pitch and base map. */
  datatype MapState = MapState(center: (real, real), zoom: real, bearing: real, pitch: real, baseMap: BaseMap)
}
