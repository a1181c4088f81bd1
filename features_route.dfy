/** The `/api/features` handlers: GET returns the sample features, optionally
    of one layer, as a GeoJSON FeatureCollection (section 3.3 of RFC 7946)
    with their count; POST builds a new feature from the request body. The
    sample features stand in for the database and `Date.now()` is the
    parameter `now`. */
module FeaturesRoute {
  import opened Wrappers
  import opened Seqs
  import opened Strings
  import opened JsValues
  import opened GeoTypes
  import opened RouteCommon

  /** A sample city: a point in layer-1 with its name, population and kind. */
  function City(id: string, lng: real, lat: real, name: string, population: real, kind: string): Feature
  {
    Feature(id, Point(Position(lng, lat)),
      map["name" := Str(name), "population" := Num(population), "type" := Str(kind)], "layer-1")
  }

  const SampleFeatures := [
    City("feature-1", 3.05, 36.75, "الجزائر العاصمة", 3000000.0, "عاصمة"),
    City("feature-2", -0.63, 35.70, "وهران", 800000.0, "مدينة كبرى"),
    City("feature-3", 7.75, 36.04, "قسنطينة", 450000.0, "مدينة"),
    City("feature-4", 1.88, 36.47, "البليدة", 250000.0, "مدينة"),
    City("feature-5", 6.61, 36.36, "سطيف", 400000.0, "مدينة كبرى")
  ]

  /** `if (layerId) features = features.filter(f => f.layerId === layerId)`:
      all features, or with a non-empty `layerId` exactly those of that
      layer, in order. */
  function OfLayer(features: seq<Feature>, layerId: Option<string>): (r: seq<Feature>)
    ensures layerId.None? || layerId.value == "" ==> r == features
    ensures layerId.Some? && layerId.value != "" ==>
      && (forall i :: 0 <= i < |r| ==> r[i] in features && r[i].layerId == layerId.value)
      && (forall f :: f in features && f.layerId == layerId.value ==> f in r)
  {
    if layerId.Some? && layerId.value != "" then
      Filter(features, (f: Feature) => f.layerId == layerId.value)
    else features
  }

  /** When every feature belongs to one layer, asking for that layer keeps
      them all and asking for another keeps none. */
  lemma OfLayerSingleLayer(features: seq<Feature>, layerId: string, other: string)
    requires forall i :: 0 <= i < |features| ==> features[i].layerId == layerId
    requires layerId != "" && other != "" && other != layerId
    ensures OfLayer(features, Some(layerId)) == features
    ensures OfLayer(features, Some(other)) == []
  {
    FilterKeepsAll(features, (f: Feature) => f.layerId == layerId);
    FilterNoneMatch(features, (f: Feature) => f.layerId == other);
  }

  /** `features.map(f => ({ type: 'Feature', id, geometry, properties }))`
      wrapped in a FeatureCollection; the owning layer is dropped. */
  function ToCollection(features: seq<Feature>): (r: FeatureCollection)
    ensures |r.features| == |features|
    ensures forall i :: 0 <= i < |features| ==>
      r.features[i].id == Some(features[i].id) && r.features[i].geometry == features[i].geometry &&
      r.features[i].properties == features[i].properties
  {
    FeatureCollection(seq(|features|, i requires 0 <= i < |features| =>
      GeoJsonFeature(Some(features[i].id), features[i].geometry, features[i].properties)))
  }

  /** Reading a collection back as the features of one layer, or None if a
      feature has no id. */
  function FromCollection(fc: FeatureCollection, layerId: string): (r: Option<seq<Feature>>)
    ensures r.Some? ==> |r.value| == |fc.features|
    ensures r.Some? <==> forall i :: 0 <= i < |fc.features| ==> fc.features[i].id.Some?
  {
    if forall i :: 0 <= i < |fc.features| ==> fc.features[i].id.Some? then
      Some(seq(|fc.features|, i requires 0 <= i < |fc.features| && fc.features[i].id.Some? =>
        Feature(fc.features[i].id.value, fc.features[i].geometry, fc.features[i].properties, layerId)))
    else None
  }

  /** The collection loses nothing but the owning layer: features of one
      layer are read back exactly. */
  lemma CollectionRoundTrip(features: seq<Feature>, layerId: string)
    requires forall i :: 0 <= i < |features| ==> features[i].layerId == layerId
    ensures FromCollection(ToCollection(features), layerId) == Some(features)
  {
    var r := FromCollection(ToCollection(features), layerId);
    assert r.Some?;
    assert |r.value| == |features|;
    forall i | 0 <= i < |features|
      ensures r.value[i] == features[i]
    {
      var g := ToCollection(features).features[i];
      assert r.value[i] == Feature(g.id.value, g.geometry, g.properties, layerId);
    }
    assert r.value == features;
  }

  /** GET with the `layerId` and `bbox` parameters: the collection and
      `total`, the number of features it holds. */
  function GetFeatures(layerId: Option<string>, bbox: Option<string>): (r: (FeatureCollection, nat))
    ensures r.1 == |r.0.features| == |OfLayer(SampleFeatures, layerId)|
    ensures r.0 == ToCollection(OfLayer(SampleFeatures, layerId))
  {
    var features := OfLayer(SampleFeatures, layerId);
    (ToCollection(features), |features|)
  }

  /** `bbox` is read but never used: any box gives the same response. */
  lemma BboxIgnored(layerId: Option<string>, b1: Option<string>, b2: Option<string>)
    ensures GetFeatures(layerId, b1) == GetFeatures(layerId, b2)
  {
  }

  lemma SampleFeaturesInLayerOne()
    ensures forall i :: 0 <= i < |SampleFeatures| ==> SampleFeatures[i].layerId == "layer-1"
  {
    forall i | 0 <= i < |SampleFeatures|
      ensures SampleFeatures[i].layerId == "layer-1"
    {
      assert SampleFeatures[i].layerId == "layer-1";
    }
  }

  /** All five sample features are in layer-1: asking for it returns all of
      them, asking for another layer returns none. */
  lemma SampleFeaturesByLayer(other: string)
    requires other != "" && other != "layer-1"
    ensures GetFeatures(Some("layer-1"), None).1 == 5
    ensures GetFeatures(Some(other), None).1 == 0
  {
    SampleFeaturesInLayerOne();
    OfLayerSingleLayer(SampleFeatures, "layer-1", other);
  }

  const LayerAndGeometryRequired := "الطبقة والهندسة مطلوبان"
  const FeatureCreated := "تم إنشاء العنصر بنجاح"
  const CreateFeatureFailed := "حدث خطأ أثناء إنشاء العنصر"

  /** The feature POST builds, with the body's JSON values. */
  datatype NewFeature = NewFeature(id: string, layerId: Value, geometry: Value, properties: Value)

  /** POST with the parsed body (None when it is not JSON): both `layerId`
      and `geometry` must be truthy; `properties` defaults to `{}`. */
  function PostFeature(body: Option<Value>, now: nat): (r: Response<NewFeature>)
    ensures body.None? || Nullish(body.value) <==> r == ServerError(CreateFeatureFailed)
    ensures body.Some? && !Nullish(body.value) ==>
      (r == BadRequest(LayerAndGeometryRequired) <==>
        !Truthy(Get(body.value, "layerId")) || !Truthy(Get(body.value, "geometry")))
    ensures r.Success? ==> r.message == Some(FeatureCreated)
    ensures r.Success? ==>
      var b := body.value;
      && r.data.id == "feature-" + DecimalString(now)
      && r.data.layerId == Get(b, "layerId") && Truthy(r.data.layerId)
      && r.data.geometry == Get(b, "geometry") && Truthy(r.data.geometry)
      && r.data.properties == Or(Get(b, "properties"), Obj(map[]))
  {
    if body.None? || Nullish(body.value) then ServerError(CreateFeatureFailed)
    else
      var b := body.value;
      var layerId, geometry := Get(b, "layerId"), Get(b, "geometry");
      if !Truthy(layerId) || !Truthy(geometry) then BadRequest(LayerAndGeometryRequired)
      else
        Success(NewFeature("feature-" + DecimalString(now), layerId, geometry,
          Or(Get(b, "properties"), Obj(map[]))), Some(FeatureCreated))
  }

  /** A created feature's properties are always an object or whatever
      truthy value the body gave; a missing one becomes the empty object. */
  lemma CreatedFeatureProperties(body: Value, now: nat)
    requires PostFeature(Some(body), now).Success?
    ensures Truthy(PostFeature(Some(body), now).data.properties)
    ensures body.Obj? && "properties" !in body.fields ==> PostFeature(Some(body), now).data.properties == Obj(map[])
  {
  }
}
