/** The application state behind closure masking: the current zoom-to-mask
    map, the request interceptor hooks on the traffic service, and the
    update that replaces the map when new closure data arrives. */
module ClosureMasking {
  import opened Wrappers
  import opened JsMaps
  import opened Geometries
  import opened ZoomLevelBufferMap
  import opened CustomParameters
  import opened ClippingJson
  import opened Closures

  /** A value of an export request's query string. */
  datatype QueryValue = QString(s: string) | QNumber(n: int) | QBool(b: bool) | QNull | QUndefined

  /** The query object of an intercepted request; the hook updates it in place. */
  class Query {
    var fields: map<string, QueryValue>

    constructor (fields: map<string, QueryValue>)
      ensures this.fields == fields
    {
      this.fields := fields;
    }
  }

  datatype RequestOptions = RequestOptions(responseType: string, query: Query)

  /** The argument of the `before` interceptor callback. */
  datatype InterceptBefore = InterceptBefore(url: string, requestOptions: RequestOptions)

  /** The response handed to the `after` interceptor callback; `ssl` may be
      absent. */
  class RequestResponse {
    var url: string
    var ssl: Option<bool>
    var data: string

    constructor (url: string, ssl: Option<bool>, data: string)
      ensures this.url == url && this.ssl == ssl && this.data == data
    {
      this.url, this.ssl, this.data := url, ssl, data;
    }
  }

  /** The two shapes of a closures refresh result the application expects:
      a changed result carries the new map and the closure features. */
  datatype ClosuresOutput =
    | ChangedClosuresOutput(mapping: JsMap<int, Geometry>, closureFeatureSet: seq<Feature>)
    | UnchangedClosuresOutput
  {
    predicate HasChanged() {
      ChangedClosuresOutput?
    }
  }

  /** The query text the `before` hook writes for a mask, or the error
      `createClippingParameter` throws for it. */
  function ClippingText(mask: Option<Geometry>): (r: Result<string, Error>)
    ensures mask.None? ==> r == Success("null")
    ensures mask.Some? && mask.value.Polygon? ==> r.Success? && r.value != "null"
    ensures r.Success? ==> (r.value == "null" <==> mask.None?)
  {
    var clipping :- CreateClippingParameter(mask, None);
    Success(Stringify(clipping))
  }

  /** The query text reads back as the parameter `createClippingParameter`
      built for the mask: no excluded layers are ever written here. */
  lemma ClippingTextDecodes(mask: Option<Geometry>)
    requires ClippingText(mask).Success?
    requires mask.Some? && mask.value.IsInstance() ==> ObjectText(mask.value.json)
    ensures CreateClippingParameter(mask, None).Success?
    ensures Parse(ClippingText(mask).value) == Some(CreateClippingParameter(mask, None).value)
    ensures Parse(ClippingText(mask).value).value.Some? ==>
              Parse(ClippingText(mask).value).value.value.excludedLayers.None?
  {
    StringifyRoundTrip(CreateClippingParameter(mask, None).value);
  }

  /** A polygon mask is written as a polygon clipping record carrying the
      mask's own serialisation. */
  lemma PolygonClippingTextDecodes(json: GeometryJson)
    requires ObjectText(json)
    ensures ClippingText(Some(Polygon(json))).Success?
    ensures Parse(ClippingText(Some(Polygon(json))).value) == Some(Some(Clipping(EsriGeometryPolygon, json, None)))
  {
    PolygonClipping(json, None);
    ClippingTextDecodes(Some(Polygon(json)));
  }

  /** At a zoom level the table does not list (12 and above, for
      instance), the map built by `getClosures` has no mask and the query
      gets the serialisation of null. */
  lemma NoClippingOutsideTable(engine: GeometryEngine, extent: Geometry, features: seq<Feature>, zoom: int)
    requires GetClosures(engine, extent, features).Success?
    requires zoom < 6 || zoom > 11
    ensures ClippingText(GetClosures(engine, extent, features).value.Get(zoom)) == Success("null")
  {
    GetClosuresLookup(engine, extent, features, zoom);
    LookupRange(zoom);
  }

  /** The module-level state of the application: the view's readiness and
      zoom level, and the current mask map, which stays unset until the
      first update. */
  class MapApp {
    var closureMap: Option<JsMap<int, Geometry>>
    var viewReady: bool
    var viewZoom: int

    constructor (viewReady: bool, viewZoom: int)
      ensures closureMap == None && this.viewReady == viewReady && this.viewZoom == viewZoom
    {
      closureMap := None;
      this.viewReady, this.viewZoom := viewReady, viewZoom;
    }

    /** The `before` interceptor callback. With a map and a ready view it
        sets the query's `clipping` to the serialised parameter for the
        current zoom's mask (null when the zoom has none). Should
        `createClippingParameter` throw, the error escapes the hook before
        the query is touched. */
    method Before(params: InterceptBefore) returns (thrown: Option<Error>)
      modifies params.requestOptions.query
      ensures closureMap.None? || !viewReady ==>
                thrown == None && params.requestOptions.query.fields == old(params.requestOptions.query.fields)
      ensures closureMap.Some? && viewReady && ClippingText(closureMap.value.Get(viewZoom)).Success? ==>
                thrown == None &&
                params.requestOptions.query.fields ==
                old(params.requestOptions.query.fields)["clipping" := QString(ClippingText(closureMap.value.Get(viewZoom)).value)]
      ensures closureMap.Some? && viewReady && ClippingText(closureMap.value.Get(viewZoom)).Failure? ==>
                thrown == Some(ClippingText(closureMap.value.Get(viewZoom)).error) &&
                params.requestOptions.query.fields == old(params.requestOptions.query.fields)
    {
      thrown := None;
      if closureMap.Some? && viewReady {
        var clippingPolygon := closureMap.value.Get(viewZoom);
        var clipping := CreateClippingParameter(clippingPolygon, None);
        if clipping.Failure? {
          return Some(clipping.error);
        }
        var query := params.requestOptions.query;
        query.fields := query.fields["clipping" := QString(Stringify(clipping.value))];
      }
    }

    /** The `after` interceptor callback: forces `ssl` to true and leaves
        every other field alone; on a response that already has it, it
        changes nothing. */
    method After(response: RequestResponse)
      modifies response
      ensures response.ssl == Some(true)
      ensures response.url == old(response.url) && response.data == old(response.data)
      ensures old(response.ssl) == Some(true) ==> unchanged(response)
    {
      if response.ssl != Some(true) {
        response.ssl := Some(true);
      }
    }

    /** The `closures-updated` event handler's state update: the mask map is
        replaced by the event's map as a whole. */
    method OnClosuresUpdated(closuresOutput: ClosuresOutput)
      requires closuresOutput.ChangedClosuresOutput?
      modifies this`closureMap
      ensures closureMap == Some(closuresOutput.mapping)
    {
      closureMap := Some(closuresOutput.mapping);
    }

    /** `triggerWindowsClosureUpdateEvent`: an unchanged result is ignored;
        a changed one is dispatched, and the listener, which runs during
        the dispatch, installs its map. */
    method TriggerWindowsClosureUpdateEvent(closuresResponse: ClosuresOutput)
      modifies this`closureMap
      ensures !closuresResponse.HasChanged() ==> closureMap == old(closureMap)
      ensures closuresResponse.HasChanged() ==> closureMap == Some(closuresResponse.mapping)
    {
      if !closuresResponse.HasChanged() {
        return;
      }
      OnClosuresUpdated(closuresResponse);
    }
  }
}
