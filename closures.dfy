/** Building the per-zoom clipping masks from road-closure line features.
    The geometry engine's asynchronous `buffer`, `simplify` and `difference`
    are foreign operations: they are given as functions that may fail, and
    awaiting one is applying it. */
module Closures {
  import opened Wrappers
  import opened JsMaps
  import opened Geometries
  import opened ZoomLevelBufferMap

  /** A feature of the closure feature set; its geometry may be null. */
  datatype Feature = Feature(geometry: Option<Geometry>)

  /** The geometry engine operations the masks are built with. */
  datatype GeometryEngine = GeometryEngine(
    buffer: (seq<Geometry>, int, string, bool) -> Result<Geometry, Error>,
    simplify: Geometry -> Result<Geometry, Error>,
    difference: (Geometry, Geometry) -> Result<Geometry, Error>)

  /** `getClippingMask(bufferSize, lines)`: the region extent minus the
      simplified union-buffer of the lines; a failing step's error is
      re-raised as it is. */
  function GetClippingMask(engine: GeometryEngine, extent: Geometry, bufferSize: int, lines: seq<Geometry>): (r: Result<Geometry, Error>)
    ensures engine.buffer(lines, bufferSize, "feet", true).Failure? ==>
              r == Failure(engine.buffer(lines, bufferSize, "feet", true).error)
    ensures engine.buffer(lines, bufferSize, "feet", true).Success? ==>
              var buffered := engine.buffer(lines, bufferSize, "feet", true).value;
              if engine.simplify(buffered).Failure? then r == Failure(engine.simplify(buffered).error)
              else r == engine.difference(extent, engine.simplify(buffered).value)
  {
    var bufferPolygon :- engine.buffer(lines, bufferSize, "feet", true);
    var simplified :- engine.simplify(bufferPolygon);
    engine.difference(extent, simplified)
  }

  /** The geometries of the features whose geometry type is "polyline", in
      feature order. Reading the type of a null geometry throws. */
  function ClosureLines(features: seq<Feature>): (r: Result<seq<Geometry>, Error>)
    ensures r.Success? <==> forall i :: 0 <= i < |features| ==> features[i].geometry.Some?
  {
    if |features| == 0 then Success([])
    else
      match features[0].geometry
      case None =>
        Failure(TypeError("Cannot read properties of null (reading 'type')"))
      case Some(g) =>
        var rest := ClosureLines(features[1..]);
        assert forall i :: 0 < i < |features| ==> features[i] == features[1..][i - 1];
        if rest.Failure? then
          Failure(rest.error)
        else
          Success(if g.Polyline? then [g] + rest.value else rest.value)
  }

  /** On success the result holds exactly the polyline geometries of the
      features: nothing else is kept and none of them is dropped. */
  lemma {:induction false} ClosureLinesContents(features: seq<Feature>)
    requires ClosureLines(features).Success?
    ensures forall g :: g in ClosureLines(features).value ==> g.Polyline?
    ensures forall i :: 0 <= i < |features| && features[i].geometry.value.Polyline? ==>
                          features[i].geometry.value in ClosureLines(features).value
    ensures forall g :: g in ClosureLines(features).value ==>
                          exists i :: 0 <= i < |features| && features[i].geometry == Some(g)
    decreases |features|
  {
    if |features| > 0 {
      var t := features[1..];
      ClosureLinesCons(features);
      ClosureLinesContents(t);
      assert forall i :: 0 < i < |features| ==> features[i] == t[i - 1];
      var lines := ClosureLines(features).value;
      forall g | g in lines
        ensures exists i :: 0 <= i < |features| && features[i].geometry == Some(g)
      {
        if g !in ClosureLines(t).value {
          assert features[0].geometry == Some(g);
        } else {
          var j :| 0 <= j < |t| && t[j].geometry == Some(g);
          assert features[j + 1].geometry == Some(g);
        }
      }
    }
  }

  /** Filtering distributes over concatenation, so the relative order of the
      kept lines is the order of their features. */
  lemma {:induction false} ClosureLinesAppend(a: seq<Feature>, b: seq<Feature>)
    requires ClosureLines(a).Success? && ClosureLines(b).Success?
    ensures ClosureLines(a + b) == Success(ClosureLines(a).value + ClosureLines(b).value)
  {
    if |a| == 0 {
      assert a + b == b;
      assert ClosureLines(a).value == [];
      assert ClosureLines(a).value + ClosureLines(b).value == ClosureLines(b).value;
    } else {
      var t := a[1..];
      var g := a[0].geometry.value;
      var head: seq<Geometry> := if g.Polyline? then [g] else [];
      assert ClosureLines(t).Success? && ClosureLines(a) == Success(head + ClosureLines(t).value) by {
        ClosureLinesCons(a);
      }
      assert ClosureLines(t + b) == Success(ClosureLines(t).value + ClosureLines(b).value) by {
        ClosureLinesAppend(t, b);
      }
      assert ClosureLines(a + b) == Success(head + ClosureLines(t + b).value) by {
        assert (a + b)[0] == a[0];
        assert (a + b)[1..] == t + b;
        ClosureLinesCons(a + b);
      }
      var lt, lb := ClosureLines(t).value, ClosureLines(b).value;
      assert head + (lt + lb) == (head + lt) + lb;
    }
  }

  /** One unfolding step of `ClosureLines` on a feature with a geometry. */
  lemma ClosureLinesCons(s: seq<Feature>)
    requires |s| > 0 && s[0].geometry.Some? && ClosureLines(s[1..]).Success?
    ensures ClosureLines(s) ==
            Success((if s[0].geometry.value.Polyline? then [s[0].geometry.value] else []) + ClosureLines(s[1..]).value)
  {
    var rest := ClosureLines(s[1..]).value;
    assert [] + rest == rest;
  }

  /** A single feature contributes its geometry when it is a polyline and
      nothing otherwise. */
  lemma ClosureLinesSingle(g: Geometry)
    ensures ClosureLines([Feature(Some(g))]) == Success(if g.Polyline? then [g] else [])
  {
    var f := [Feature(Some(g))];
    assert f[0].geometry == Some(g);
    assert f[1..] == [];
    assert ClosureLines(f[1..]) == Success([]);
    assert [g] + [] == [g];
  }

  /** One mask per table entry, in table order, each paired with its entry's
      zoom level and built at that entry's buffer size. `Promise.all` fails
      as soon as one mask fails; no partial list is produced. */
  function ClippingMasks(engine: GeometryEngine, extent: Geometry, table: seq<ZoomLevelBufferEntry>, lines: seq<Geometry>): (r: Result<seq<(int, Geometry)>, Error>)
    ensures r.Success? <==> forall i :: 0 <= i < |table| ==> GetClippingMask(engine, extent, table[i].bufferSize, lines).Success?
    ensures r.Success? ==> |r.value| == |table|
    ensures r.Success? ==>
              forall i :: 0 <= i < |table| ==>
                r.value[i] == (table[i].zoomLevel, GetClippingMask(engine, extent, table[i].bufferSize, lines).value)
    ensures r.Failure? ==> exists i :: 0 <= i < |table| && GetClippingMask(engine, extent, table[i].bufferSize, lines) == Failure(r.error)
  {
    if |table| == 0 then Success([])
    else
      assert forall i :: 0 < i < |table| ==> table[i] == table[1..][i - 1];
      var mask :- GetClippingMask(engine, extent, table[0].bufferSize, lines);
      var rest :- ClippingMasks(engine, extent, table[1..], lines);
      Success([(table[0].zoomLevel, mask)] + rest)
  }

  /** `getClosures()` once the feature set has been fetched and decoded:
      the closure lines, then a mask for every entry of the zoom table,
      collected into a `Map` keyed by zoom level. */
  function GetClosures(engine: GeometryEngine, extent: Geometry, features: seq<Feature>): (r: Result<JsMap<int, Geometry>, Error>)
    ensures r.Success? ==> r.value.Valid()
    ensures ClosureLines(features).Failure? ==> r == Failure(ClosureLines(features).error)
    ensures ClosureLines(features).Success? ==>
              (r.Success? <==> ClippingMasks(engine, extent, BufferMap, ClosureLines(features).value).Success?)
  {
    var lines :- ClosureLines(features);
    var entries :- ClippingMasks(engine, extent, BufferMap, lines);
    Success(FromEntries(entries))
  }

  /** All-or-nothing: the map is produced exactly when the lines can be read
      and the mask of every zoom level succeeds; otherwise the error of a
      failing step is re-raised. */
  lemma GetClosuresAtomic(engine: GeometryEngine, extent: Geometry, features: seq<Feature>)
    ensures GetClosures(engine, extent, features).Success? <==>
              ClosureLines(features).Success? &&
              forall i :: 0 <= i < |BufferMap| ==>
                GetClippingMask(engine, extent, BufferMap[i].bufferSize, ClosureLines(features).value).Success?
    ensures ClosureLines(features).Failure? ==>
              GetClosures(engine, extent, features) == Failure(ClosureLines(features).error)
    ensures ClosureLines(features).Success? && GetClosures(engine, extent, features).Failure? ==>
              exists i :: 0 <= i < |BufferMap| &&
                GetClippingMask(engine, extent, BufferMap[i].bufferSize, ClosureLines(features).value) ==
                Failure(GetClosures(engine, extent, features).error)
  {
  }

  /** The map has one key per table entry, in table order: 6, 7, ..., 11;
      the value under each zoom level is the mask built at the buffer size
      listed for that zoom level. */
  lemma GetClosuresContents(engine: GeometryEngine, extent: Geometry, features: seq<Feature>)
    requires GetClosures(engine, extent, features).Success?
    ensures GetClosures(engine, extent, features).value.keys == [6, 7, 8, 9, 10, 11]
    ensures forall i :: 0 <= i < |BufferMap| ==>
              GetClosures(engine, extent, features).value.Get(BufferMap[i].zoomLevel) ==
              Some(GetClippingMask(engine, extent, BufferMap[i].bufferSize, ClosureLines(features).value).value)
  {
    var lines := ClosureLines(features).value;
    var entries := ClippingMasks(engine, extent, BufferMap, lines).value;
    BufferMapZoomLevels();
    BufferMapDistinct();
    assert EntryKeys(entries) == ZoomLevels(BufferMap);
    FromEntriesDistinct(entries);
  }

  /** Every zoom level the map answers for has a table entry, and its mask
      was built with that entry's buffer size; every other zoom level (12
      and above, say) gets nothing. */
  lemma GetClosuresLookup(engine: GeometryEngine, extent: Geometry, features: seq<Feature>, zoom: int)
    requires GetClosures(engine, extent, features).Success?
    ensures GetClosures(engine, extent, features).value.Get(zoom).Some? <==> Lookup(zoom).Some?
    ensures Lookup(zoom).Some? ==>
              GetClosures(engine, extent, features).value.Get(zoom) ==
              Some(GetClippingMask(engine, extent, Lookup(zoom).value.bufferSize, ClosureLines(features).value).value)
  {
    GetClosuresContents(engine, extent, features);
    LookupRange(zoom);
    var m := GetClosures(engine, extent, features).value;
    assert m.Valid();
    if zoom in m.values {
      assert zoom in m.keys;
    }
  }
}
