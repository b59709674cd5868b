/** The `clipping` parameter of the map service's export operation: how a
    geometry is classified into an `esriGeometry*` type name and how the
    parameter record is built from it. */
module CustomParameters {
  import opened Wrappers
  import opened JsMaps
  import opened Geometries

  datatype EsriGeometryType =
    | EsriGeometryPoint
    | EsriGeometryMultipoint
    | EsriGeometryPolyline
    | EsriGeometryPolygon
    | EsriGeometryEnvelope
  {
    /** The wire name of the type. */
    function Name(): string {
      match this
      case EsriGeometryPoint => "esriGeometryPoint"
      case EsriGeometryMultipoint => "esriGeometryMultipoint"
      case EsriGeometryPolyline => "esriGeometryPolyline"
      case EsriGeometryPolygon => "esriGeometryPolygon"
      case EsriGeometryEnvelope => "esriGeometryEnvelope"
    }
  }

  /** The entries `typeNameMapping` is built from, in source order; "point"
      is listed twice, with the same value both times. */
  const TypeNameEntries: seq<(string, EsriGeometryType)> := [
    ("point", EsriGeometryPoint),
    ("multipoint", EsriGeometryMultipoint),
    ("point", EsriGeometryPoint),
    ("extent", EsriGeometryEnvelope),
    ("polygon", EsriGeometryPolygon),
    ("polyline", EsriGeometryPolyline)
  ]

  const TypeNameMapping: JsMap<string, EsriGeometryType> := FromEntries(TypeNameEntries)

  /** What `typeNameMapping.get(name)` returns for each geometry type name:
      the duplicate "point" entry collapses, and "mesh" is absent. */
  lemma TypeNameMappingContents()
    ensures TypeNameMapping.Get("point") == Some(EsriGeometryPoint)
    ensures TypeNameMapping.Get("multipoint") == Some(EsriGeometryMultipoint)
    ensures TypeNameMapping.Get("extent") == Some(EsriGeometryEnvelope)
    ensures TypeNameMapping.Get("polygon") == Some(EsriGeometryPolygon)
    ensures TypeNameMapping.Get("polyline") == Some(EsriGeometryPolyline)
    ensures TypeNameMapping.Get("mesh") == None
  {
    TypeNamePoint();
    TypeNameMultipoint();
    TypeNameExtent();
    TypeNamePolygon();
    TypeNamePolyline();
    TypeNameMesh();
  }

  // One lookup per lemma: the solver unfolds the literal fold once per fact.
  lemma TypeNamePoint() ensures TypeNameMapping.Get("point") == Some(EsriGeometryPoint) {
    FromEntriesLastWins(TypeNameEntries, 2, "point");
  }

  lemma TypeNameMultipoint() ensures TypeNameMapping.Get("multipoint") == Some(EsriGeometryMultipoint) {
    FromEntriesLastWins(TypeNameEntries, 1, "multipoint");
  }

  lemma TypeNameExtent() ensures TypeNameMapping.Get("extent") == Some(EsriGeometryEnvelope) {
    FromEntriesLastWins(TypeNameEntries, 3, "extent");
  }

  lemma TypeNamePolygon() ensures TypeNameMapping.Get("polygon") == Some(EsriGeometryPolygon) {
    FromEntriesLastWins(TypeNameEntries, 4, "polygon");
  }

  lemma TypeNamePolyline() ensures TypeNameMapping.Get("polyline") == Some(EsriGeometryPolyline) {
    FromEntriesLastWins(TypeNameEntries, 5, "polyline");
  }

  lemma TypeNameMesh() ensures TypeNameMapping.Get("mesh") == None {
    FromEntriesKeys(TypeNameEntries, "mesh");
  }

  /** The specification of `objectHasAllProperties`: the names are checked
      in order and the check stops at the first one that is missing. */
  function HasAllProperties(o: set<string>, properties: seq<string>): bool {
    |properties| == 0 || (properties[0] in o && HasAllProperties(o, properties[1..]))
  }

  /** The object has all the listed properties exactly when each name is one
      of its own property names; for no names at all this holds vacuously. */
  lemma {:induction false} HasAllPropertiesIff(o: set<string>, properties: seq<string>)
    ensures HasAllProperties(o, properties) <==> forall i :: 0 <= i < |properties| ==> properties[i] in o
  {
    if |properties| > 0 {
      HasAllPropertiesIff(o, properties[1..]);
      assert forall i :: 0 < i < |properties| ==> properties[i] == properties[1..][i - 1];
    }
  }

  /** Once a name is missing, the names after it are never consulted: the
      answer is false whatever follows. */
  lemma {:induction false} HasAllPropertiesStopsAtMissing(o: set<string>, checked: seq<string>, missing: string, rest: seq<string>)
    requires missing !in o
    ensures !HasAllProperties(o, checked + [missing] + rest)
  {
    if |checked| > 0 {
      assert (checked + [missing] + rest)[1..] == checked[1..] + [missing] + rest;
      HasAllPropertiesStopsAtMissing(o, checked[1..], missing, rest);
    }
  }

  /** `objectHasAllProperties(o, ...properties)`: a loop that returns false at
      the first name that is not an own property and true after the last. */
  method ObjectHasAllProperties(o: set<string>, properties: seq<string>) returns (b: bool)
    ensures b == HasAllProperties(o, properties)
    ensures b <==> forall i :: 0 <= i < |properties| ==> properties[i] in o
  {
    HasAllPropertiesIff(o, properties);
    for i := 0 to |properties|
      invariant forall j :: 0 <= j < i ==> properties[j] in o
    {
      if properties[i] !in o {
        return false;
      }
    }
    return true;
  }

  /** The instance branch of `getEsriGeometryType`: a mesh is rejected,
      every other type name is looked up in `typeNameMapping`. */
  function InstanceGeometryType(geometry: Geometry): (r: Result<EsriGeometryType, Error>)
    requires geometry.IsInstance()
    ensures geometry.Point? ==> r == Success(EsriGeometryPoint)
    ensures geometry.Multipoint? ==> r == Success(EsriGeometryMultipoint)
    ensures geometry.Polyline? ==> r == Success(EsriGeometryPolyline)
    ensures geometry.Polygon? ==> r == Success(EsriGeometryPolygon)
    ensures geometry.Extent? ==> r == Success(EsriGeometryEnvelope)
    ensures geometry.Mesh? ==> r == Failure(TypeError("Unsupported geometry type: mesh"))
  {
    TypeNameMappingContents();
    var typeName := geometry.TypeName();
    if typeName == "mesh" then
      assert "Unsupported geometry type: " + "mesh" == "Unsupported geometry type: mesh";
      Failure(TypeError("Unsupported geometry type: " + typeName))
    else
      match TypeNameMapping.Get(typeName)
      case None => Failure(TypeError("Unsupported geometry type: " + typeName))
      case Some(t) => Success(t)
  }

  /** The plain-object branch of `getEsriGeometryType`: `rings` is probed
      before the four bounds. */
  function PlainObjectGeometryType(properties: set<string>): (r: Result<EsriGeometryType, Error>)
    ensures "rings" in properties ==> r == Success(EsriGeometryPolygon)
    ensures "rings" !in properties && {"xmin", "xmax", "ymin", "ymax"} <= properties ==>
              r == Success(EsriGeometryEnvelope)
    ensures "rings" !in properties && !({"xmin", "xmax", "ymin", "ymax"} <= properties) ==>
              r == Failure(TypeError("Unsupported geometry type"))
  {
    var bounds := ["xmin", "xmax", "ymin", "ymax"];
    HasAllPropertiesIff(properties, ["rings"]);
    HasAllPropertiesIff(properties, bounds);
    assert (forall i :: 0 <= i < |bounds| ==> bounds[i] in properties) <==>
           "xmin" in properties && "xmax" in properties && "ymin" in properties && "ymax" in properties
    by {
      assert bounds[0] == "xmin" && bounds[1] == "xmax" && bounds[2] == "ymin" && bounds[3] == "ymax";
    }
    if HasAllProperties(properties, ["rings"]) then
      Success(EsriGeometryPolygon)
    else if HasAllProperties(properties, bounds) then
      Success(EsriGeometryEnvelope)
    else
      Failure(TypeError("Unsupported geometry type"))
  }

  /** `getEsriGeometryType`: a geometry instance is classified by its `type`,
      a plain object by the property names it has. Point, multipoint and
      polyline instances are not rejected. */
  function GetEsriGeometryType(geometry: Geometry): (r: Result<EsriGeometryType, Error>)
    ensures geometry.Point? ==> r == Success(EsriGeometryPoint)
    ensures geometry.Multipoint? ==> r == Success(EsriGeometryMultipoint)
    ensures geometry.Polyline? ==> r == Success(EsriGeometryPolyline)
    ensures geometry.Polygon? ==> r == Success(EsriGeometryPolygon)
    ensures geometry.Extent? ==> r == Success(EsriGeometryEnvelope)
    ensures geometry.Mesh? ==> r == Failure(TypeError("Unsupported geometry type: mesh"))
    ensures geometry.PlainObject? && "rings" in geometry.properties ==> r == Success(EsriGeometryPolygon)
    ensures geometry.PlainObject? && "rings" !in geometry.properties ==>
              r == if {"xmin", "xmax", "ymin", "ymax"} <= geometry.properties
                   then Success(EsriGeometryEnvelope)
                   else Failure(TypeError("Unsupported geometry type"))
  {
    if geometry.IsInstance() then InstanceGeometryType(geometry) else PlainObjectGeometryType(geometry.properties)
  }

  /** The export operation's `clipping` parameter. The geometry type is cast,
      not checked, so any `esriGeometry*` name can end up here. */
  datatype Clipping = Clipping(geometryType: EsriGeometryType, geometry: GeometryJson, excludedLayers: Option<seq<int>>)

  /** `createClippingParameter(geometry, excludedLayers)`: null for no
      geometry; otherwise the classified type, the geometry's serialisation
      and, when an array is supplied (an empty one included, since every
      array is truthy), that array. */
  function CreateClippingParameter(geometry: Option<Geometry>, excludedLayers: Option<seq<int>>): (r: Result<Option<Clipping>, Error>)
    ensures geometry.None? ==> r == Success(None)
    ensures geometry.Some? ==>
              (r.Success? <==> GetEsriGeometryType(geometry.value).Success? && geometry.value.IsInstance())
    ensures geometry.Some? && GetEsriGeometryType(geometry.value).Failure? ==>
              r == Failure(GetEsriGeometryType(geometry.value).error)
    ensures r.Success? && geometry.Some? ==>
              r.value == Some(Clipping(GetEsriGeometryType(geometry.value).value, geometry.value.json, excludedLayers))
  {
    match geometry
    case None => Success(None)
    case Some(g) =>
      var geometryType :- GetEsriGeometryType(g);
      var json :- g.ToJson();
      var clipping := Clipping(geometryType, json, None);
      Success(Some(if excludedLayers.Some? then clipping.(excludedLayers := excludedLayers) else clipping))
  }

  /** An extent with layers to exclude gives an envelope-typed parameter
      carrying the extent's serialisation and exactly those layers. */
  lemma ExtentClipping(json: GeometryJson, excludedLayers: Option<seq<int>>)
    ensures CreateClippingParameter(Some(Extent(json)), excludedLayers) ==
            Success(Some(Clipping(EsriGeometryEnvelope, json, excludedLayers)))
  {
  }

  /** A polygon gives a polygon-typed parameter. */
  lemma PolygonClipping(json: GeometryJson, excludedLayers: Option<seq<int>>)
    ensures CreateClippingParameter(Some(Polygon(json)), excludedLayers) ==
            Success(Some(Clipping(EsriGeometryPolygon, json, excludedLayers)))
  {
  }

  /** A mesh is rejected with a TypeError, whatever layers are excluded. */
  lemma MeshClippingFails(json: GeometryJson, excludedLayers: Option<seq<int>>)
    ensures CreateClippingParameter(Some(Mesh(json)), excludedLayers) ==
            Failure(TypeError("Unsupported geometry type: mesh"))
  {
  }

  /** A plain object is never serialised: even when it classifies, it has no
      `toJSON` and the call throws. */
  lemma PlainObjectClippingFails(properties: set<string>, excludedLayers: Option<seq<int>>)
    ensures CreateClippingParameter(Some(PlainObject(properties)), excludedLayers).Failure?
  {
  }
}
