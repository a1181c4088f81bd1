/** The request schemas: each one is a value of a small schema language with
    the meaning of the schema library's string, number, boolean, enum, any,
    record and object checks, and `Accepts` says which JavaScript values a
    schema lets through. Unknown object keys are ignored, as the library
    strips them. */
module Validators {
  import opened Wrappers
  import opened JsValues
  import opened GeoTypes

  /** How a field may be absent: required, optional, or optional with a
      default that is checked in its place. */
  datatype Presence = Required | Optional | Default(value: Value)

  datatype Schema =
    | Text(minLen: nat, maxLen: Option<nat>, email: bool)
    | Number(lo: Option<real>, hi: Option<real>, integer: bool, coerce: bool)
    | Boolean
    | Enum(names: seq<string>)
    | Anything
    | Record
    | Object(fields: seq<Field>)

  datatype Field = Field(key: string, schema: Schema, presence: Presence)

  /** What the schemas cannot decide themselves: whether a string is an
      email address, and what `Number(v)` gives for a coerced field (None
      standing for NaN). */
  datatype Env = Env(isEmail: string -> bool, toNumber: Value -> Option<real>)

  /** The value of `key` in an object, `undefined` when missing. */
  function FieldValue(m: map<string, Value>, key: string): (r: Value)
    ensures key !in m ==> r == Undefined
    ensures key in m ==> r == m[key]
  {
    if key in m then m[key] else Undefined
  }

  predicate InRange(x: real, lo: Option<real>, hi: Option<real>)
  {
    (lo.Some? ==> lo.value <= x) && (hi.Some? ==> x <= hi.value)
  }

  predicate IsInteger(x: real)
  {
    x == x.Floor as real
  }

  /** `z.coerce.number()` reads a number as itself and anything else via
      `Number(v)`. */
  function Coerce(v: Value, env: Env): (r: Option<real>)
    ensures v.Num? ==> r == Some(v.n)
  {
    if v.Num? then Some(v.n) else env.toNumber(v)
  }

  predicate NumberAccepts(lo: Option<real>, hi: Option<real>, integer: bool, n: Option<real>)
  {
    n.Some? && InRange(n.value, lo, hi) && (integer ==> IsInteger(n.value))
  }

  predicate Accepts(s: Schema, v: Value, env: Env)
    decreases s, 1
  {
    match s
    case Text(minLen, maxLen, email) =>
      v.Str? && minLen <= |v.s| && (maxLen.Some? ==> |v.s| <= maxLen.value) && (email ==> env.isEmail(v.s))
    case Number(lo, hi, integer, coerce) =>
      NumberAccepts(lo, hi, integer, if coerce then Coerce(v, env) else if v.Num? then Some(v.n) else None)
    case Boolean => v.Bool?
    case Enum(names) => v.Str? && v.s in names
    case Anything => true
    case Record => v.Obj?
    case Object(fields) =>
      v.Obj? && forall i :: 0 <= i < |fields| ==> FieldAccepts(fields[i], v.fields, env)
  }

  predicate FieldAccepts(f: Field, m: map<string, Value>, env: Env)
    decreases f, 0
  {
    var x := FieldValue(m, f.key);
    if x.Undefined? then
      match f.presence
      case Required => Accepts(f.schema, Undefined, env)
      case Optional => true
      case Default(d) => Accepts(f.schema, d, env)
    else Accepts(f.schema, x, env)
  }

  /** `.partial()`: every field becomes optional. */
  function Partial(fields: seq<Field>): (r: seq<Field>)
    ensures |r| == |fields|
    ensures forall i :: 0 <= i < |r| ==>
      r[i].key == fields[i].key && r[i].schema == fields[i].schema && r[i].presence == Optional
  {
    seq(|fields|, i requires 0 <= i < |fields| => fields[i].(presence := Optional))
  }

  /** `.omit({ key: true })` */
  function Omit(fields: seq<Field>, key: string): (r: seq<Field>)
    ensures forall i :: 0 <= i < |r| ==> r[i].key != key && r[i] in fields
    ensures forall i :: 0 <= i < |fields| && fields[i].key != key ==> fields[i] in r
  {
    if fields == [] then []
    else if fields[0].key == key then Omit(fields[1..], key)
    else [fields[0]] + Omit(fields[1..], key)
  }

  // Schemas

  const LoginSchema := Object([
    Field("email", Text(0, None, true), Required),
    Field("password", Text(4, None, false), Required)])

  const RegisterSchema := Object([
    Field("email", Text(0, None, true), Required),
    Field("username", Text(3, Some(50), false), Required),
    Field("password", Text(6, None, false), Required),
    Field("firstName", Text(0, Some(100), false), Optional),
    Field("lastName", Text(0, Some(100), false), Optional),
    Field("organization", Text(0, Some(200), false), Optional)])

  const BaseMapNames := ["OSM", "SATELLITE", "DARK", "TERRAIN"]
  const LayerTypeNames := ["VECTOR", "RASTER", "WMS", "TILE"]
  const LayerGeometryTypeNames := ["POINT", "LINESTRING", "POLYGON", "MULTIPOINT", "MULTILINESTRING", "MULTIPOLYGON"]

  const CreateMapFields := [
    Field("name", Text(1, Some(255), false), Required),
    Field("description", Text(0, Some(1000), false), Optional),
    Field("centerLat", Number(Some(-90.0), Some(90.0), false, false), Optional),
    Field("centerLng", Number(Some(-180.0), Some(180.0), false, false), Optional),
    Field("zoom", Number(Some(0.0), Some(22.0), false, false), Optional),
    Field("baseMap", Enum(BaseMapNames), Optional),
    Field("isPublic", Boolean, Optional)]

  const CreateMapSchema := Object(CreateMapFields)
  const UpdateMapSchema := Object(Partial(CreateMapFields))

  const StyleSchema := Object([
    Field("color", Text(0, None, false), Optional),
    Field("fillColor", Text(0, None, false), Optional),
    Field("fillOpacity", Number(Some(0.0), Some(1.0), false, false), Optional),
    Field("lineColor", Text(0, None, false), Optional),
    Field("lineWidth", Number(Some(0.0), Some(20.0), false, false), Optional),
    Field("pointRadius", Number(Some(1.0), Some(50.0), false, false), Optional)])

  const CreateLayerFields := [
    Field("name", Text(1, Some(255), false), Required),
    Field("description", Text(0, Some(1000), false), Optional),
    Field("type", Enum(LayerTypeNames), Optional),
    Field("geometryType", Enum(LayerGeometryTypeNames), Optional),
    Field("visible", Boolean, Optional),
    Field("opacity", Number(Some(0.0), Some(1.0), false, false), Optional),
    Field("style", StyleSchema, Optional),
    Field("mapId", Text(0, None, false), Optional)]

  const CreateLayerSchema := Object(CreateLayerFields)
  const UpdateLayerSchema := Object(Partial(CreateLayerFields))

  const GeometrySchema := Object([
    Field("type", Enum(GeometryTypeNames), Required),
    Field("coordinates", Anything, Required)])

  const CreateFeatureFields := [
    Field("layerId", Text(1, None, false), Required),
    Field("geometry", GeometrySchema, Required),
    Field("properties", Record, Optional)]

  const CreateFeatureSchema := Object(CreateFeatureFields)
  const UpdateFeatureSchema := Object(Omit(Partial(CreateFeatureFields), "layerId"))

  const PaginationSchema := Object([
    Field("page", Number(Some(1.0), None, true, true), Default(Num(1.0))),
    Field("limit", Number(Some(1.0), Some(100.0), true, true), Default(Num(20.0))),
    Field("search", Text(0, Some(255), false), Optional),
    Field("sortBy", Text(0, Some(50), false), Optional),
    Field("sortOrder", Enum(["asc", "desc"]), Optional)])

  const BufferSchema := Object([
    Field("layerId", Text(1, None, false), Required),
    Field("distance", Number(Some(0.0), None, false, false), Required),
    Field("segments", Number(Some(1.0), Some(100.0), true, false), Optional)])

  const IntersectSchema := Object([
    Field("layerId1", Text(1, None, false), Required),
    Field("layerId2", Text(1, None, false), Required)])

  const SimplifySchema := Object([
    Field("layerId", Text(1, None, false), Required),
    Field("tolerance", Number(Some(0.0), Some(1.0), false, false), Required)])

  // General laws of the schema language

  /** An object schema accepts a value exactly when the value is an object
      and each field check passes. */
  lemma ObjectAccepts(fields: seq<Field>, v: Value, env: Env, i: nat)
    requires i < |fields| && Accepts(Object(fields), v, env)
    ensures v.Obj? && FieldAccepts(fields[i], v.fields, env)
  {
  }

  /** A partial schema accepts the empty object. */
  lemma PartialAcceptsEmpty(fields: seq<Field>, env: Env)
    ensures Accepts(Object(Partial(fields)), Obj(map[]), env)
  {
    var p := Partial(fields);
    forall i | 0 <= i < |p| ensures FieldAccepts(p[i], map[], env) {
      assert FieldValue(map[], p[i].key) == Undefined;
    }
  }

  /** Without defaults, making every field optional only weakens a schema. */
  lemma PartialWeakens(fields: seq<Field>, v: Value, env: Env)
    requires forall i :: 0 <= i < |fields| ==> !fields[i].presence.Default?
    requires Accepts(Object(fields), v, env)
    ensures Accepts(Object(Partial(fields)), v, env)
  {
    var p := Partial(fields);
    forall i | 0 <= i < |p| ensures FieldAccepts(p[i], v.fields, env) {
      assert FieldAccepts(fields[i], v.fields, env);
    }
  }

  /** A schema with the key omitted does not look at that key. */
  lemma OmitIgnoresKey(fields: seq<Field>, key: string, v: map<string, Value>, x: Value, env: Env)
    ensures Accepts(Object(Omit(fields, key)), Obj(v), env) <==>
            Accepts(Object(Omit(fields, key)), Obj(v[key := x]), env)
  {
    var o := Omit(fields, key);
    forall i | 0 <= i < |o|
      ensures FieldValue(v, o[i].key) == FieldValue(v[key := x], o[i].key)
    {
    }
    assert forall i :: 0 <= i < |o| ==>
      (FieldAccepts(o[i], v, env) <==> FieldAccepts(o[i], v[key := x], env));
  }

  /** An object schema of six fields, spelled out field by field. */
  lemma SixFields(fields: seq<Field>, m: map<string, Value>, env: Env)
    requires |fields| == 6
    ensures Accepts(Object(fields), Obj(m), env) <==>
      && FieldAccepts(fields[0], m, env) && FieldAccepts(fields[1], m, env)
      && FieldAccepts(fields[2], m, env) && FieldAccepts(fields[3], m, env)
      && FieldAccepts(fields[4], m, env) && FieldAccepts(fields[5], m, env)
  {
    if FieldAccepts(fields[0], m, env) && FieldAccepts(fields[1], m, env)
      && FieldAccepts(fields[2], m, env) && FieldAccepts(fields[3], m, env)
      && FieldAccepts(fields[4], m, env) && FieldAccepts(fields[5], m, env)
    {
      forall i | 0 <= i < 6 ensures FieldAccepts(fields[i], m, env) {
      }
    }
  }

  /** A required string field holding the string s. */
  lemma RequiredTextField(key: string, minLen: nat, maxLen: Option<nat>, email: bool,
                          m: map<string, Value>, s: string, env: Env)
    requires FieldValue(m, key) == Str(s)
    ensures FieldAccepts(Field(key, Text(minLen, maxLen, email), Required), m, env) <==>
      minLen <= |s| && (maxLen.Some? ==> |s| <= maxLen.value) && (email ==> env.isEmail(s))
  {
  }

  /** An optional string field holding the string, if any, that o gives. */
  lemma OptionalTextField(key: string, maxLen: Option<nat>, m: map<string, Value>, o: Option<string>, env: Env)
    requires FieldValue(m, key) == OptionalText(o)
    ensures FieldAccepts(Field(key, Text(0, maxLen, false), Optional), m, env) <==>
      (maxLen.Some? ==> AtMost(o, maxLen.value))
  {
  }

  /** An optional bounded number field holding the number, if any, that o
      gives. */
  lemma OptionalNumberField(key: string, lo: real, hi: real, m: map<string, Value>, o: Option<real>, env: Env)
    requires FieldValue(m, key) == OptionalNumber(o)
    ensures FieldAccepts(Field(key, Number(Some(lo), Some(hi), false, false), Optional), m, env) <==> Within(o, lo, hi)
  {
  }

  // Properties of the individual schemas

  function Login(email: string, password: string): Value
  {
    Obj(map["email" := Str(email), "password" := Str(password)])
  }

  /** Login takes a valid email and a password of at least 4 characters, and
      nothing else matters. */
  lemma LoginAcceptsIff(email: string, password: string, env: Env)
    ensures Accepts(LoginSchema, Login(email, password), env) <==> env.isEmail(email) && |password| >= 4
  {
    var m := Login(email, password).fields;
    assert FieldValue(m, "email") == Str(email);
    assert FieldValue(m, "password") == Str(password);
    if env.isEmail(email) && |password| >= 4 {
      assert FieldAccepts(LoginSchema.fields[0], m, env);
      assert FieldAccepts(LoginSchema.fields[1], m, env);
    } else {
      assert !FieldAccepts(LoginSchema.fields[0], m, env) || !FieldAccepts(LoginSchema.fields[1], m, env);
    }
  }

  /** An optional string field as a property: `undefined` when absent. */
  function OptionalText(o: Option<string>): (v: Value)
    ensures o.None? <==> v.Undefined?
    ensures o.Some? ==> v == Str(o.value)
  {
    if o.Some? then Str(o.value) else Undefined
  }

  function OptionalNumber(o: Option<real>): (v: Value)
    ensures o.None? <==> v.Undefined?
    ensures o.Some? ==> v == Num(o.value)
  {
    if o.Some? then Num(o.value) else Undefined
  }

  function Registration(email: string, username: string, password: string,
                        firstName: Option<string>, lastName: Option<string>, organization: Option<string>): Value
  {
    Obj(map["email" := Str(email), "username" := Str(username), "password" := Str(password),
            "firstName" := OptionalText(firstName), "lastName" := OptionalText(lastName),
            "organization" := OptionalText(organization)])
  }

  predicate AtMost(o: Option<string>, n: nat)
  {
    o.Some? ==> |o.value| <= n
  }

  /** The registration object holds each form field under its own key. */
  lemma RegistrationFields(email: string, username: string, password: string,
                           firstName: Option<string>, lastName: Option<string>, organization: Option<string>)
    ensures var m := Registration(email, username, password, firstName, lastName, organization).fields;
      && FieldValue(m, "email") == Str(email)
      && FieldValue(m, "username") == Str(username)
      && FieldValue(m, "password") == Str(password)
      && FieldValue(m, "firstName") == OptionalText(firstName)
      && FieldValue(m, "lastName") == OptionalText(lastName)
      && FieldValue(m, "organization") == OptionalText(organization)
  {
  }

  /** Registration: a valid email, a username of 3 to 50 characters, a
      password of at least 6, names of at most 100 and an organization of at
      most 200 characters when given. */
  lemma RegisterAcceptsIff(email: string, username: string, password: string,
                           firstName: Option<string>, lastName: Option<string>, organization: Option<string>, env: Env)
    ensures Accepts(RegisterSchema, Registration(email, username, password, firstName, lastName, organization), env) <==>
      && env.isEmail(email) && 3 <= |username| <= 50 && |password| >= 6
      && AtMost(firstName, 100) && AtMost(lastName, 100) && AtMost(organization, 200)
  {
    RegistrationFields(email, username, password, firstName, lastName, organization);
    RegisterFieldsAccept(Registration(email, username, password, firstName, lastName, organization).fields,
      email, username, password, firstName, lastName, organization, env);
  }

  /** The registration check on any object holding the six form fields. */
  lemma RegisterFieldsAccept(m: map<string, Value>, email: string, username: string, password: string,
                             firstName: Option<string>, lastName: Option<string>, organization: Option<string>, env: Env)
    requires FieldValue(m, "email") == Str(email) && FieldValue(m, "username") == Str(username)
    requires FieldValue(m, "password") == Str(password) && FieldValue(m, "firstName") == OptionalText(firstName)
    requires FieldValue(m, "lastName") == OptionalText(lastName) && FieldValue(m, "organization") == OptionalText(organization)
    ensures Accepts(RegisterSchema, Obj(m), env) <==>
      && env.isEmail(email) && 3 <= |username| <= 50 && |password| >= 6
      && AtMost(firstName, 100) && AtMost(lastName, 100) && AtMost(organization, 200)
  {
    var f := RegisterSchema.fields;
    RequiredTextField("email", 0, None, true, m, email, env);
    assert FieldAccepts(f[0], m, env) <==> env.isEmail(email);
    RequiredTextField("username", 3, Some(50), false, m, username, env);
    assert FieldAccepts(f[1], m, env) <==> 3 <= |username| <= 50;
    RequiredTextField("password", 6, None, false, m, password, env);
    assert FieldAccepts(f[2], m, env) <==> |password| >= 6;
    OptionalTextField("firstName", Some(100), m, firstName, env);
    assert FieldAccepts(f[3], m, env) <==> AtMost(firstName, 100);
    OptionalTextField("lastName", Some(100), m, lastName, env);
    assert FieldAccepts(f[4], m, env) <==> AtMost(lastName, 100);
    OptionalTextField("organization", Some(200), m, organization, env);
    assert FieldAccepts(f[5], m, env) <==> AtMost(organization, 200);
    SixFields(f, m, env);
  }

  /** A number read from an object field: present and a number. */
  predicate NumberField(m: map<string, Value>, key: string, lo: real, hi: real)
  {
    key in m && m[key] != Undefined ==> m[key].Num? && lo <= m[key].n <= hi
  }

  /** A map needs a name of 1 to 255 characters; latitude, longitude and
      zoom, when present, lie in [-90, 90], [-180, 180] and [0, 22]. */
  lemma CreateMapBounds(v: Value, env: Env)
    requires Accepts(CreateMapSchema, v, env)
    ensures v.Obj? && "name" in v.fields && v.fields["name"].Str?
    ensures 1 <= |v.fields["name"].s| <= 255
    ensures NumberField(v.fields, "centerLat", -90.0, 90.0)
    ensures NumberField(v.fields, "centerLng", -180.0, 180.0)
    ensures NumberField(v.fields, "zoom", 0.0, 22.0)
  {
    ObjectAccepts(CreateMapFields, v, env, 0);
    ObjectAccepts(CreateMapFields, v, env, 2);
    ObjectAccepts(CreateMapFields, v, env, 3);
    ObjectAccepts(CreateMapFields, v, env, 4);
  }

  /** A layer needs a name of 1 to 255 characters; its opacity, when
      present, lies in [0, 1]; a present style passes the style schema, so
      its fill opacity, line width and point radius lie in [0, 1], [0, 20]
      and [1, 50] when given. */
  lemma CreateLayerBounds(v: Value, env: Env)
    requires Accepts(CreateLayerSchema, v, env)
    ensures v.Obj? && "name" in v.fields && v.fields["name"].Str?
    ensures 1 <= |v.fields["name"].s| <= 255
    ensures NumberField(v.fields, "opacity", 0.0, 1.0)
    ensures "style" in v.fields && v.fields["style"] != Undefined ==>
      var st := v.fields["style"];
      && Accepts(StyleSchema, st, env) && st.Obj?
      && NumberField(st.fields, "fillOpacity", 0.0, 1.0)
      && NumberField(st.fields, "lineWidth", 0.0, 20.0)
      && NumberField(st.fields, "pointRadius", 1.0, 50.0)
  {
    ObjectAccepts(CreateLayerFields, v, env, 0);
    ObjectAccepts(CreateLayerFields, v, env, 5);
    ObjectAccepts(CreateLayerFields, v, env, 6);
    if "style" in v.fields && v.fields["style"] != Undefined {
      StyleBounds(v.fields["style"], env);
    }
  }

  /** An accepted style has its fill opacity, line width and point radius,
      when given, in [0, 1], [0, 20] and [1, 50]. */
  lemma StyleBounds(st: Value, env: Env)
    requires Accepts(StyleSchema, st, env)
    ensures st.Obj?
    ensures NumberField(st.fields, "fillOpacity", 0.0, 1.0)
    ensures NumberField(st.fields, "lineWidth", 0.0, 20.0)
    ensures NumberField(st.fields, "pointRadius", 1.0, 50.0)
  {
    ObjectAccepts(StyleSchema.fields, st, env, 2);
    ObjectAccepts(StyleSchema.fields, st, env, 4);
    ObjectAccepts(StyleSchema.fields, st, env, 5);
  }

  /** Creating a map is updating one with a name given: the update schema is
      the same checks with every field optional. */
  lemma CreateMapIsUpdateWithName(v: Value, env: Env)
    ensures Accepts(CreateMapSchema, v, env) <==>
      Accepts(UpdateMapSchema, v, env) && "name" in v.fields && v.fields["name"] != Undefined
  {
    var p := Partial(CreateMapFields);
    if Accepts(UpdateMapSchema, v, env) && "name" in v.fields && v.fields["name"] != Undefined {
      forall i | 0 <= i < |CreateMapFields| ensures FieldAccepts(CreateMapFields[i], v.fields, env) {
        assert FieldAccepts(p[i], v.fields, env);
      }
    }
    if Accepts(CreateMapSchema, v, env) {
      PartialWeakens(CreateMapFields, v, env);
      ObjectAccepts(CreateMapFields, v, env, 0);
    }
  }

  /** Creating a layer is updating one with a name given. */
  lemma CreateLayerIsUpdateWithName(v: Value, env: Env)
    ensures Accepts(CreateLayerSchema, v, env) <==>
      Accepts(UpdateLayerSchema, v, env) && "name" in v.fields && v.fields["name"] != Undefined
  {
    var p := Partial(CreateLayerFields);
    if Accepts(UpdateLayerSchema, v, env) && "name" in v.fields && v.fields["name"] != Undefined {
      forall i | 0 <= i < |CreateLayerFields| ensures FieldAccepts(CreateLayerFields[i], v.fields, env) {
        assert FieldAccepts(p[i], v.fields, env);
      }
    }
    if Accepts(CreateLayerSchema, v, env) {
      PartialWeakens(CreateLayerFields, v, env);
      ObjectAccepts(CreateLayerFields, v, env, 0);
    }
  }

  /** The empty update is valid for maps, layers and features. */
  lemma EmptyUpdatesAccepted(env: Env)
    ensures Accepts(UpdateMapSchema, Obj(map[]), env)
    ensures Accepts(UpdateLayerSchema, Obj(map[]), env)
    ensures Accepts(UpdateFeatureSchema, Obj(map[]), env)
  {
    PartialAcceptsEmpty(CreateMapFields, env);
    PartialAcceptsEmpty(CreateLayerFields, env);
    var o := Omit(Partial(CreateFeatureFields), "layerId");
    forall i | 0 <= i < |o| ensures FieldAccepts(o[i], map[], env) {
      assert o[i] in Partial(CreateFeatureFields);
    }
  }

  /** A layer's style as the object it is sent as; unset fields are
      `undefined`. */
  function StyleValue(s: LayerStyle): Value
  {
    Obj(map[
      "color" := OptionalText(s.color),
      "fillColor" := OptionalText(s.fillColor),
      "fillOpacity" := OptionalNumber(s.fillOpacity),
      "lineColor" := OptionalText(s.lineColor),
      "lineWidth" := OptionalNumber(s.lineWidth),
      "lineOpacity" := OptionalNumber(s.lineOpacity),
      "pointRadius" := OptionalNumber(s.pointRadius)])
  }

  /** The style object holds each style setting under its own key. */
  lemma StyleFields(s: LayerStyle)
    ensures var m := StyleValue(s).fields;
      && FieldValue(m, "color") == OptionalText(s.color)
      && FieldValue(m, "fillColor") == OptionalText(s.fillColor)
      && FieldValue(m, "fillOpacity") == OptionalNumber(s.fillOpacity)
      && FieldValue(m, "lineColor") == OptionalText(s.lineColor)
      && FieldValue(m, "lineWidth") == OptionalNumber(s.lineWidth)
      && FieldValue(m, "pointRadius") == OptionalNumber(s.pointRadius)
  {
  }

  predicate Within(o: Option<real>, lo: real, hi: real)
  {
    o.Some? ==> lo <= o.value <= hi
  }

  /** A style passes the style schema exactly when its fill opacity lies in
      [0, 1], its line width in [0, 20] and its point radius in [1, 50]
      where set; the colours are free and the other fields are not checked. */
  lemma StyleAcceptsIff(s: LayerStyle, env: Env)
    ensures Accepts(StyleSchema, StyleValue(s), env) <==>
      Within(s.fillOpacity, 0.0, 1.0) && Within(s.lineWidth, 0.0, 20.0) && Within(s.pointRadius, 1.0, 50.0)
  {
    var m := StyleValue(s).fields;
    var f := StyleSchema.fields;
    StyleFields(s);
    OptionalTextField("color", None, m, s.color, env);
    OptionalTextField("fillColor", None, m, s.fillColor, env);
    OptionalNumberField("fillOpacity", 0.0, 1.0, m, s.fillOpacity, env);
    OptionalTextField("lineColor", None, m, s.lineColor, env);
    OptionalNumberField("lineWidth", 0.0, 20.0, m, s.lineWidth, env);
    OptionalNumberField("pointRadius", 1.0, 50.0, m, s.pointRadius, env);
    SixFields(f, m, env);
  }

  /** A geometry object as a feature body carries it. */
  function GeometryValue(g: Geometry, coordinates: Value): Value
  {
    Obj(map["type" := Str(TypeName(g)), "coordinates" := coordinates])
  }

  /** Every geometry the data model has passes the geometry check, whatever
      its coordinates: only the `type` tag is checked, against the six
      names. */
  lemma GeometryAccepted(g: Geometry, coordinates: Value, env: Env)
    ensures Accepts(GeometrySchema, GeometryValue(g, coordinates), env)
  {
    var m := GeometryValue(g, coordinates).fields;
    assert FieldValue(m, "type") == Str(TypeName(g));
    assert FieldAccepts(GeometrySchema.fields[0], m, env);
    assert FieldAccepts(GeometrySchema.fields[1], m, env);
  }

  /** A feature needs a non-empty layer id and a geometry whose `type` is
      one of the six names. */
  lemma CreateFeatureNeeds(v: Value, env: Env)
    requires Accepts(CreateFeatureSchema, v, env)
    ensures v.Obj? && "layerId" in v.fields && v.fields["layerId"].Str? && v.fields["layerId"].s != ""
    ensures "geometry" in v.fields && v.fields["geometry"].Obj?
    ensures var g := v.fields["geometry"].fields;
      "type" in g && g["type"].Str? && g["type"].s in GeometryTypeNames
  {
    ObjectAccepts(CreateFeatureFields, v, env, 0);
    ObjectAccepts(CreateFeatureFields, v, env, 1);
    ObjectAccepts(GeometrySchema.fields, v.fields["geometry"], env, 0);
  }

  /** The feature update schema does not look at `layerId` at all. */
  lemma UpdateFeatureIgnoresLayerId(m: map<string, Value>, x: Value, env: Env)
    ensures Accepts(UpdateFeatureSchema, Obj(m), env) <==> Accepts(UpdateFeatureSchema, Obj(m["layerId" := x]), env)
  {
    OmitIgnoresKey(Partial(CreateFeatureFields), "layerId", m, x, env);
  }

  /** Paging parameters after validation and defaulting. */
  datatype Paging = Paging(page: int, limit: int)

  /** The page and limit the pagination schema yields: a missing value takes
      its default (1 and 20), a present one is coerced to a number and must
      be an integer, at least 1, and for the limit at most 100. */
  function ParsePaging(v: Value, env: Env): (r: Option<Paging>)
    ensures r.Some? ==> Accepts(PaginationSchema, v, env)
    ensures r.Some? ==> r.value.page >= 1 && 1 <= r.value.limit <= 100
    ensures r.Some? && FieldValue(v.fields, "page").Undefined? ==> r.value.page == 1
    ensures r.Some? && FieldValue(v.fields, "limit").Undefined? ==> r.value.limit == 20
    ensures r.Some? && !FieldValue(v.fields, "page").Undefined? ==>
      var c := Coerce(FieldValue(v.fields, "page"), env); c.Some? && r.value.page as real == c.value
    ensures r.Some? && !FieldValue(v.fields, "limit").Undefined? ==>
      var c := Coerce(FieldValue(v.fields, "limit"), env); c.Some? && r.value.limit as real == c.value
    ensures Accepts(PaginationSchema, v, env) ==> r.Some?
  {
    if !Accepts(PaginationSchema, v, env) then None
    else
      ObjectAccepts(PaginationSchema.fields, v, env, 0);
      ObjectAccepts(PaginationSchema.fields, v, env, 1);
      var p, l := FieldValue(v.fields, "page"), FieldValue(v.fields, "limit");
      var page := if p.Undefined? then 1 else Coerce(p, env).value.Floor;
      var limit := if l.Undefined? then 20 else Coerce(l, env).value.Floor;
      Some(Paging(page, limit))
  }

  /** Buffer needs a layer id, a non-negative distance, and an integer
      segment count in 1..100 when given. */
  lemma BufferAcceptsIff(layerId: string, distance: real, segments: Option<real>, env: Env)
    ensures var v := Obj(map["layerId" := Str(layerId), "distance" := Num(distance), "segments" := OptionalNumber(segments)]);
      Accepts(BufferSchema, v, env) <==>
        layerId != "" && distance >= 0.0 &&
        (segments.Some? ==> 1.0 <= segments.value <= 100.0 && IsInteger(segments.value))
  {
    var m := map["layerId" := Str(layerId), "distance" := Num(distance), "segments" := OptionalNumber(segments)];
    var f := BufferSchema.fields;
    assert FieldValue(m, "layerId") == Str(layerId);
    assert FieldValue(m, "distance") == Num(distance);
    assert FieldValue(m, "segments") == OptionalNumber(segments);
    assert FieldAccepts(f[0], m, env) <==> layerId != "";
    assert FieldAccepts(f[1], m, env) <==> distance >= 0.0;
    assert FieldAccepts(f[2], m, env) <==>
      (segments.Some? ==> 1.0 <= segments.value <= 100.0 && IsInteger(segments.value));
  }

  /** Intersection needs two non-empty layer ids. */
  lemma IntersectAcceptsIff(a: string, b: string, env: Env)
    ensures Accepts(IntersectSchema, Obj(map["layerId1" := Str(a), "layerId2" := Str(b)]), env) <==> a != "" && b != ""
  {
    var m := map["layerId1" := Str(a), "layerId2" := Str(b)];
    assert FieldValue(m, "layerId1") == Str(a);
    assert FieldValue(m, "layerId2") == Str(b);
    assert FieldAccepts(IntersectSchema.fields[0], m, env) <==> a != "";
    assert FieldAccepts(IntersectSchema.fields[1], m, env) <==> b != "";
  }

  /** Simplification needs a layer id and a tolerance in [0, 1]. */
  lemma SimplifyAcceptsIff(layerId: string, tolerance: real, env: Env)
    ensures Accepts(SimplifySchema, Obj(map["layerId" := Str(layerId), "tolerance" := Num(tolerance)]), env) <==>
      layerId != "" && 0.0 <= tolerance <= 1.0
  {
    var m := map["layerId" := Str(layerId), "tolerance" := Num(tolerance)];
    assert FieldValue(m, "layerId") == Str(layerId);
    assert FieldValue(m, "tolerance") == Num(tolerance);
    assert FieldAccepts(SimplifySchema.fields[0], m, env) <==> layerId != "";
    assert FieldAccepts(SimplifySchema.fields[1], m, env) <==> 0.0 <= tolerance <= 1.0;
  }
}
