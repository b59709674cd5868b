/** The ArcGIS geometry classes the program handles, and the errors it can
    raise. A geometry instance carries the JSON text that serialising its
    `toJSON()` result would produce; what is inside is the geometry
    library's business and stays opaque here. A plain object (one that is not
    an instance of `Geometry`) is known only by its own property names. */
module Geometries {
  import opened Wrappers

  /** The text `JSON.stringify` produces for the object `toJSON()` returns. */
  type GeometryJson = string

  datatype Geometry =
    | Point(json: GeometryJson)
    | Multipoint(json: GeometryJson)
    | Polyline(json: GeometryJson)
    | Polygon(json: GeometryJson)
    | Extent(json: GeometryJson)
    | Mesh(json: GeometryJson)
    | PlainObject(properties: set<string>)
  {
    /** `geometry instanceof Geometry`. */
    predicate IsInstance() {
      !PlainObject?
    }

    /** The `type` property of a geometry instance. */
    function TypeName(): string
      requires IsInstance()
    {
      match this
      case Point(_) => "point"
      case Multipoint(_) => "multipoint"
      case Polyline(_) => "polyline"
      case Polygon(_) => "polygon"
      case Extent(_) => "extent"
      case Mesh(_) => "mesh"
    }

    /** `geometry.toJSON()`, serialised. A plain object has no `toJSON`
        method, so the call throws. */
    function ToJson(): (r: Result<GeometryJson, Error>)
      ensures r.Success? <==> IsInstance()
      ensures r.Success? ==> r.value == json
    {
      if IsInstance() then Success(json) else Failure(TypeError("geometry.toJSON is not a function"))
    }
  }

  /** A thrown `TypeError`, or a rejection coming from the geometry engine. */
  datatype Error =
    | TypeError(message: string)
    | EngineError(message: string)
}
