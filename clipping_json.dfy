/** `JSON.stringify` applied to the value `createClippingParameter`
    returns: `null`, or an object whose keys come in the order they were
    added (geometryType, geometry, then excludedLayers if present). */
module ClippingJson {
  import opened Wrappers
  import opened CustomParameters

  function DigitChar(d: int): char
    requires 0 <= d < 10
  {
    "0123456789"[d]
  }

  /** The decimal digits of a natural number, most significant first. */
  function NatToDecimal(n: nat): (r: string)
    ensures |r| > 0
    ensures forall i :: 0 <= i < |r| ==> '0' <= r[i] <= '9'
  {
    if n < 10 then [DigitChar(n)] else NatToDecimal(n / 10) + [DigitChar(n % 10)]
  }

  /** The number a string of decimal digits denotes. */
  function DecimalValue(s: string): int
    requires forall i :: 0 <= i < |s| ==> '0' <= s[i] <= '9'
  {
    if |s| == 0 then 0 else 10 * DecimalValue(s[..|s| - 1]) + (s[|s| - 1] as int - '0' as int)
  }

  /** Reading the digits back gives the number that was written. */
  lemma {:induction false} NatToDecimalRoundTrip(n: nat)
    ensures DecimalValue(NatToDecimal(n)) == n
  {
    if n >= 10 {
      NatToDecimalRoundTrip(n / 10);
      var s := NatToDecimal(n);
      assert s[..|s| - 1] == NatToDecimal(n / 10);
    }
  }

  /** How an integer-valued number is written. */
  function IntToText(n: int): (r: string)
    ensures |r| > 0
    ensures forall i :: 0 <= i < |r| ==> IntChar(r[i]) && r[i] != ','
  {
    if n < 0 then "-" + NatToDecimal(-n) else NatToDecimal(n)
  }

  /** The characters an array of integers is written with, brackets aside. */
  predicate IntChar(ch: char) {
    '0' <= ch <= '9' || ch == '-' || ch == ','
  }

  function JoinInts(xs: seq<int>): (r: string)
    ensures forall i :: 0 <= i < |r| ==> IntChar(r[i])
    ensures |xs| > 0 ==> |r| > 0
  {
    if |xs| == 0 then "" else if |xs| == 1 then IntToText(xs[0]) else IntToText(xs[0]) + "," + JoinInts(xs[1..])
  }

  function IntArrayText(xs: seq<int>): string {
    "[" + JoinInts(xs) + "]"
  }

  const ObjectStart := "{\"geometryType\":\""
  const GeometryKey := "\",\"geometry\":"
  const LayersKey := ",\"excludedLayers\":"

  /** `JSON.stringify(clipping)`: the keys in the order they were added. */
  function Stringify(clipping: Option<Clipping>): (r: string)
    ensures clipping.None? <==> r == "null"
    ensures clipping.Some? ==> |r| > 1 && r[0] == '{' && r[|r| - 1] == '}'
  {
    match clipping
    case None => "null"
    case Some(c) =>
      var text := ObjectStart + c.geometryType.Name() + GeometryKey + c.geometry
        + (if c.excludedLayers.Some? then LayersKey + IntArrayText(c.excludedLayers.value) else "")
        + "}";
      assert text[0] == '{';
      text
  }

  // Reading a clipping text back.

  /** The index of the first `c` in `s`, or `|s|` when there is none. */
  function IndexOf(s: string, c: char): (r: nat)
    ensures r <= |s|
    ensures forall j :: 0 <= j < r ==> s[j] != c
    ensures r < |s| ==> s[r] == c
  {
    if |s| == 0 || s[0] == c then 0 else 1 + IndexOf(s[1..], c)
  }

  /** The index of the last '[' in `s`, if it has one. */
  function LastBracketIndex(s: string): (r: Option<nat>)
    ensures r.None? ==> forall j :: 0 <= j < |s| ==> s[j] != '['
    ensures r.Some? ==> r.value < |s| && s[r.value] == '[' && forall j :: r.value < j < |s| ==> s[j] != '['
  {
    if |s| == 0 then None
    else if s[|s| - 1] == '[' then Some(|s| - 1)
    else LastBracketIndex(s[..|s| - 1])
  }

  predicate AllDigits(s: string) {
    forall i :: 0 <= i < |s| ==> '0' <= s[i] <= '9'
  }

  /** The integer an optionally signed run of digits denotes. */
  function ParseInt(s: string): Option<int> {
    if |s| > 1 && s[0] == '-' && AllDigits(s[1..]) then Some(-DecimalValue(s[1..]))
    else if |s| > 0 && AllDigits(s) then Some(DecimalValue(s))
    else None
  }

  /** The integers of a non-empty comma-separated list. */
  function ParseIntList(s: string): Option<seq<int>>
    decreases |s|
  {
    var k := IndexOf(s, ',');
    match ParseInt(s[..k])
    case None => None
    case Some(head) =>
      if k == |s| then Some([head])
      else
        match ParseIntList(s[k + 1..])
        case None => None
        case Some(rest) => Some([head] + rest)
  }

  /** The integers between an array's brackets. */
  function ParseInts(s: string): Option<seq<int>> {
    if |s| == 0 then Some([]) else ParseIntList(s)
  }

  /** The geometry type a wire name stands for. */
  function TypeFromName(name: string): Option<EsriGeometryType> {
    if name == "esriGeometryPoint" then Some(EsriGeometryPoint)
    else if name == "esriGeometryMultipoint" then Some(EsriGeometryMultipoint)
    else if name == "esriGeometryPolyline" then Some(EsriGeometryPolyline)
    else if name == "esriGeometryPolygon" then Some(EsriGeometryPolygon)
    else if name == "esriGeometryEnvelope" then Some(EsriGeometryEnvelope)
    else None
  }

  /** `Some(None)` for "null", `Some(Some(c))` for the text of a clipping
      record, `None` for a text of any other shape: first the geometry type,
      then the rest of the object. */
  function Parse(text: string): Option<Option<Clipping>> {
    if text == "null" then Some(None)
    else if |text| < |ObjectStart| || text[..|ObjectStart|] != ObjectStart then None
    else
      var afterStart := text[|ObjectStart|..];
      var n := IndexOf(afterStart, '"');
      match TypeFromName(afterStart[..n])
      case None => None
      case Some(t) =>
        match ParseRest(t, afterStart[n..])
        case None => None
        case Some(c) => Some(Some(c))
  }

  /** What follows the geometry type's name: the geometry key, the fields
      and the closing brace. */
  function ParseRest(t: EsriGeometryType, rest: string): Option<Clipping> {
    if |rest| < |GeometryKey| || rest[..|GeometryKey|] != GeometryKey then None
    else
      var body := rest[|GeometryKey|..];
      if |body| == 0 || body[|body| - 1] != '}' then None
      else ParseFields(t, body[..|body| - 1])
  }

  /** The fields after the geometry type, without the closing brace. The
      excluded layers are found from the end, since the geometry text in
      the middle is opaque. */
  function ParseFields(t: EsriGeometryType, inner: string): Option<Clipping> {
    if |inner| == 0 || inner[|inner| - 1] != ']' then Some(Clipping(t, inner, None))
    else
      match LastBracketIndex(inner)
      case None => None
      case Some(i) =>
        var before := inner[..i];
        if |before| < |LayersKey| || before[|before| - |LayersKey|..] != LayersKey then None
        else
          match ParseInts(inner[i + 1..|inner| - 1])
          case None => None
          case Some(layers) => Some(Clipping(t, before[..|before| - |LayersKey|], Some(layers)))
  }

  /** The serialisation of a geometry is an object text, so it ends in '}'. */
  predicate ObjectText(json: string) {
    |json| > 0 && json[|json| - 1] == '}'
  }

  /** Reading the text back gives the parameter that was written: its
      geometry type, its geometry serialisation and its excluded layers,
      present exactly when they were supplied. */
  lemma StringifyRoundTrip(clipping: Option<Clipping>)
    requires clipping.Some? ==> ObjectText(clipping.value.geometry)
    ensures Parse(Stringify(clipping)) == Some(clipping)
  {
    if clipping.Some? {
      var c := clipping.value;
      var tail := if c.excludedLayers.Some? then LayersKey + IntArrayText(c.excludedLayers.value) else "";
      assert Stringify(clipping) == ObjectStart + c.geometryType.Name() + GeometryKey + (c.geometry + tail) + "}";
      ParseObject(c.geometryType, c.geometry + tail);
      if c.excludedLayers.Some? {
        ParseFieldsWithLayers(c.geometryType, c.geometry, c.excludedLayers.value);
      } else {
        assert c.geometry + tail == c.geometry;
      }
    }
  }

  /** The object's opening and its geometry type are read back, leaving
      the remaining fields. */
  lemma ParseObject(t: EsriGeometryType, inner: string)
    ensures Parse(ObjectStart + t.Name() + GeometryKey + inner + "}") == match ParseFields(t, inner)
                                                                      case None => None
                                                                      case Some(c) => Some(Some(c))
  {
    var name := t.Name();
    var text := ObjectStart + name + GeometryKey + inner + "}";
    var rest := GeometryKey + inner + "}";
    assert text[0] == '{';
    assert text[..|ObjectStart|] == ObjectStart;
    var afterStart := text[|ObjectStart|..];
    assert afterStart == name + rest;
    TypeFromNameOfName(t);
    IndexOfAt(name, rest, '"');
    assert afterStart[..|name|] == name;
    assert afterStart[|name|..] == rest;
    ParseRestAt(t, inner);
  }

  lemma ParseRestAt(t: EsriGeometryType, inner: string)
    ensures ParseRest(t, GeometryKey + inner + "}") == ParseFields(t, inner)
  {
    var rest := GeometryKey + inner + "}";
    assert rest[..|GeometryKey|] == GeometryKey;
    var body := rest[|GeometryKey|..];
    assert body == inner + "}";
    assert body[..|body| - 1] == inner;
  }

  /** An object-text geometry with excluded layers after it is read back
      as both, whatever the geometry text holds. */
  lemma ParseFieldsWithLayers(t: EsriGeometryType, geometry: string, xs: seq<int>)
    ensures ParseFields(t, geometry + (LayersKey + IntArrayText(xs))) == Some(Clipping(t, geometry, Some(xs)))
  {
    var j := JoinInts(xs);
    JoinIntsRoundTrip(xs);
    assert geometry + (LayersKey + IntArrayText(xs)) == (geometry + LayersKey) + "[" + (j + "]");
    ParseFieldsAt(t, geometry, j, xs);
  }

  /** One step of `ParseFieldsWithLayers`, for any bracket-free list text. */
  lemma ParseFieldsAt(t: EsriGeometryType, geometry: string, j: string, xs: seq<int>)
    requires forall k :: 0 <= k < |j| ==> j[k] != '['
    requires ParseInts(j) == Some(xs)
    ensures ParseFields(t, (geometry + LayersKey) + "[" + (j + "]")) == Some(Clipping(t, geometry, Some(xs)))
  {
    var head := geometry + LayersKey;
    var inner := head + "[" + (j + "]");
    assert LastBracketIndex(inner) == Some(|head|) by {
      assert forall k :: 0 <= k < |j + "]"| ==> (j + "]")[k] != '[';
      LastBracketAt(head, j + "]");
    }
    assert inner[..|head|] == head;
    assert head[|head| - |LayersKey|..] == LayersKey;
    assert head[..|head| - |LayersKey|] == geometry;
    assert inner[|head| + 1..|inner| - 1] == j;
  }

  lemma {:induction false} LastBracketAt(a: string, b: string)
    requires forall j :: 0 <= j < |b| ==> b[j] != '['
    ensures LastBracketIndex(a + "[" + b) == Some(|a|)
    decreases |b|
  {
    var s := a + "[" + b;
    if |b| > 0 {
      assert s[|s| - 1] == b[|b| - 1];
      assert s[..|s| - 1] == a + "[" + b[..|b| - 1];
      LastBracketAt(a, b[..|b| - 1]);
    }
  }

  /** A prefix without `c` ends where the first `c` is. */
  lemma IndexOfAt(a: string, b: string, c: char)
    requires forall j :: 0 <= j < |a| ==> a[j] != c
    requires |b| > 0 && b[0] == c
    ensures IndexOf(a + b, c) == |a|
  {
    var s := a + b;
    assert s[|a|] == c;
  }

  /** Every wire name is read back as its own type. */
  lemma TypeFromNameOfName(t: EsriGeometryType)
    ensures TypeFromName(t.Name()) == Some(t)
    ensures forall j :: 0 <= j < |t.Name()| ==> t.Name()[j] != '"'
  {
  }

  /** A written number is read back as itself. */
  lemma IntToTextRoundTrip(n: int)
    ensures ParseInt(IntToText(n)) == Some(n)
  {
    var s := IntToText(n);
    if n < 0 {
      NatToDecimalRoundTrip(-n);
      assert s[1..] == NatToDecimal(-n);
    } else {
      NatToDecimalRoundTrip(n);
    }
  }

  /** The list of written numbers is read back as the list. */
  lemma {:induction false} JoinIntsRoundTrip(xs: seq<int>)
    ensures ParseInts(JoinInts(xs)) == Some(xs)
  {
    if |xs| > 0 {
      IntListRoundTrip(xs);
    }
  }

  lemma {:induction false} IntListRoundTrip(xs: seq<int>)
    requires |xs| > 0
    ensures ParseIntList(JoinInts(xs)) == Some(xs)
    decreases |xs|
  {
    var head := IntToText(xs[0]);
    if |xs| == 1 {
      assert JoinInts(xs) == head;
      assert ParseIntList(head) == Some([xs[0]]) by {
        IntToTextRoundTrip(xs[0]);
        ParseIntListSingle(head, xs[0]);
      }
      assert [xs[0]] == xs;
    } else {
      var rest := JoinInts(xs[1..]);
      assert JoinInts(xs) == head + ("," + rest);
      assert ParseIntList(head + ("," + rest)) == Some([xs[0]] + xs[1..]) by {
        IntToTextRoundTrip(xs[0]);
        IntListRoundTrip(xs[1..]);
        ParseIntListCons(head, rest, xs[0], xs[1..]);
      }
      assert [xs[0]] + xs[1..] == xs;
    }
  }

  /** A single number with no comma is a one-element list. */
  lemma ParseIntListSingle(head: string, n: int)
    requires forall j :: 0 <= j < |head| ==> head[j] != ','
    requires ParseInt(head) == Some(n)
    ensures ParseIntList(head) == Some([n])
  {
    IndexOfAbsent(head, ',');
    assert head[..|head|] == head;
  }

  /** A number, a comma and a list read as the number before the list. */
  lemma ParseIntListCons(head: string, rest: string, n: int, ns: seq<int>)
    requires forall j :: 0 <= j < |head| ==> head[j] != ','
    requires ParseInt(head) == Some(n)
    requires ParseIntList(rest) == Some(ns)
    ensures ParseIntList(head + ("," + rest)) == Some([n] + ns)
  {
    var s := head + ("," + rest);
    IndexOfAt(head, "," + rest, ',');
    assert s[..|head|] == head;
    assert s[|head| + 1..] == rest;
  }

  lemma IndexOfAbsent(s: string, c: char)
    requires forall j :: 0 <= j < |s| ==> s[j] != c
    ensures IndexOf(s, c) == |s|
  {
  }
}
