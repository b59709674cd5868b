/** The layers of the ArcGIS World Traffic map service, per region, and the
    array class that holds them. */
module TrafficLayers {
  import opened Wrappers
  import opened Geometries

  datatype RegionName =
    | NorthAmerica
    | SouthAmerica
    | Europe
    | MiddleEastAndAfrica
    | AsiaPacific
    | India
    | SouthEastAsia

  datatype LayerName =
    | TrafficIncidentsOverview
    | TrafficIncidentsIntermediate
    | TrafficIncidentsDetailed
    | LiveTraffic
    | Traffic

  /** One layer of the traffic service. */
  datatype TrafficLayerInfo = TrafficLayerInfo(regionName: RegionName, layerName: LayerName, layerId: int)

  /** A `[region, layer name, layer id]` tuple, as the constructor takes it. */
  type LayerRecord = (RegionName, LayerName, int)

  /** `new TrafficLayerInfo(...record)`: the tuple's components become the
      fields, in order. */
  function ToLayerInfo(record: LayerRecord): TrafficLayerInfo {
    TrafficLayerInfo(record.0, record.1, record.2)
  }

  function ToRecord(info: TrafficLayerInfo): LayerRecord {
    (info.regionName, info.layerName, info.layerId)
  }

  /** `items.map(record => new TrafficLayerInfo(...record))`: one record per
      tuple, same length, same order. */
  function ToLayerInfos(records: seq<LayerRecord>): (r: seq<TrafficLayerInfo>)
    ensures |r| == |records|
    ensures forall i :: 0 <= i < |records| ==> ToRecord(r[i]) == records[i]
  {
    seq(|records|, i requires 0 <= i < |records| => ToLayerInfo(records[i]))
  }

  /** `s` is `t` with some elements left out, the rest in their order. */
  predicate IsSubsequence<T(==)>(s: seq<T>, t: seq<T>)
    decreases |t|
  {
    if |s| == 0 then true
    else if |t| == 0 then false
    else if s[0] == t[0] then IsSubsequence(s[1..], t[1..])
    else IsSubsequence(s, t[1..])
  }

  /** The records of the given region, in order. */
  function InRegion(infos: seq<TrafficLayerInfo>, region: RegionName): (r: seq<TrafficLayerInfo>)
    ensures IsSubsequence(r, infos)
    ensures forall x :: x in r <==> x in infos && x.regionName == region
    ensures forall x :: multiset(r)[x] == if x.regionName == region then multiset(infos)[x] else 0
  {
    if |infos| == 0 then []
    else
      assert infos == [infos[0]] + infos[1..];
      if infos[0].regionName == region then [infos[0]] + InRegion(infos[1..], region)
      else InRegion(infos[1..], region)
  }

  /** The records kept by `item.layerId in ids` for an `ids` array of the
      given length. `in` on an array tests for an index key, not for an
      element, so a record is kept exactly when its layer id is a valid
      index of `ids`. */
  function WithIndexKeyedIds(infos: seq<TrafficLayerInfo>, idCount: nat): (r: seq<TrafficLayerInfo>)
    ensures IsSubsequence(r, infos)
    ensures forall x :: x in r <==> x in infos && 0 <= x.layerId < idCount
    ensures forall x :: multiset(r)[x] == if 0 <= x.layerId < idCount then multiset(infos)[x] else 0
  {
    if |infos| == 0 then []
    else
      assert infos == [infos[0]] + infos[1..];
      if 0 <= infos[0].layerId < idCount then [infos[0]] + WithIndexKeyedIds(infos[1..], idCount)
      else WithIndexKeyedIds(infos[1..], idCount)
  }

  /** What `getAllIdsExceptGiven` is documented to return: the records
      whose layer id is not one of the given ids. */
  function AllExceptGiven(infos: seq<TrafficLayerInfo>, ids: seq<int>): (r: seq<TrafficLayerInfo>)
    ensures IsSubsequence(r, infos)
    ensures forall x :: x in r <==> x in infos && x.layerId !in ids
    ensures forall x :: multiset(r)[x] == if x.layerId !in ids then multiset(infos)[x] else 0
  {
    if |infos| == 0 then []
    else
      assert infos == [infos[0]] + infos[1..];
      if infos[0].layerId !in ids then [infos[0]] + AllExceptGiven(infos[1..], ids)
      else AllExceptGiven(infos[1..], ids)
  }

  /** An argument of the `TrafficLayerInfoArray` constructor: a record tuple
      as declared, or the bare length the built-in array methods pass when
      they create their result through this subclass. */
  datatype ConstructorArg = Record(record: LayerRecord) | Length(n: int)

  /** The constructor's `items.map(record => new TrafficLayerInfo(...record))`
      on whatever arguments it receives: spreading a number throws. */
  function ConvertArgs(args: seq<ConstructorArg>): (r: Result<seq<TrafficLayerInfo>, Error>)
    ensures r.Success? <==> forall i :: 0 <= i < |args| ==> args[i].Record?
    ensures r.Success? ==> |r.value| == |args|
    ensures r.Success? ==> forall i :: 0 <= i < |args| ==> r.value[i] == ToLayerInfo(args[i].record)
  {
    if |args| == 0 then Success([])
    else if args[0].Length? then Failure(TypeError("Spread syntax requires an iterable"))
    else
      var rest :- ConvertArgs(args[1..]);
      assert forall i :: 0 < i < |args| ==> args[i] == args[1..][i - 1];
      Success([ToLayerInfo(args[0].record)] + rest)
  }

  /** `this.filter(keep)` as written: `Array.prototype.filter` creates its
      result with `new TrafficLayerInfoArray(0)`, which reaches the spread
      with the number 0 and throws before anything is filtered. */
  function FilterAsWritten(infos: seq<TrafficLayerInfo>, idCount: nat): (r: Result<seq<TrafficLayerInfo>, Error>)
    ensures ConvertArgs([Length(0)]).Failure? ==> r == Failure(ConvertArgs([Length(0)]).error)
    ensures r.Success? ==> r.value == WithIndexKeyedIds(infos, idCount)
  {
    var created := ConvertArgs([Length(0)]);
    if created.Failure? then Failure(created.error) else Success(WithIndexKeyedIds(infos, idCount))
  }

  /** Whatever the array holds and whatever ids are given, the filter as
      written throws. */
  lemma FilterAsWrittenAlwaysThrows(infos: seq<TrafficLayerInfo>, idCount: nat)
    ensures FilterAsWritten(infos, idCount) == Failure(TypeError("Spread syntax requires an iterable"))
  {
  }

  /** `TrafficLayerInfoArray`: an array of layer records built from tuples. */
  class TrafficLayerInfoArray {
    var items: seq<TrafficLayerInfo>

    constructor (records: seq<LayerRecord>)
      ensures items == ToLayerInfos(records)
    {
      items := ToLayerInfos(records);
    }

    /** `getLayerInfosForRegion(region)`: the filtered list is computed and
        discarded; nothing is returned and the array is unchanged. */
    method GetLayerInfosForRegion(region: RegionName)
      ensures items == old(items)
    {
      var _ := InRegion(items, region);
    }

    /** `getAllIdsExceptGiven(...ids)`, reading the filter as a plain
        sequence filter. */
    method GetAllIdsExceptGiven(ids: seq<int>) returns (r: seq<TrafficLayerInfo>)
      ensures IsSubsequence(r, items)
      ensures forall x :: x in r <==> x in items && 0 <= x.layerId < |ids|
      ensures forall x :: multiset(r)[x] == if 0 <= x.layerId < |ids| then multiset(items)[x] else 0
      ensures |ids| == 0 ==> r == []
    {
      r := WithIndexKeyedIds(items, |ids|);
      if |r| > 0 {
        assert r[0] in r;
      }
    }
  }

  const LayerRecords: seq<LayerRecord> := [
    (NorthAmerica, TrafficIncidentsOverview, 2),
    (NorthAmerica, TrafficIncidentsIntermediate, 3),
    (NorthAmerica, TrafficIncidentsDetailed, 4),
    (NorthAmerica, LiveTraffic, 6),
    (NorthAmerica, Traffic, 7),
    (SouthAmerica, TrafficIncidentsOverview, 10),
    (SouthAmerica, TrafficIncidentsIntermediate, 11),
    (SouthAmerica, TrafficIncidentsDetailed, 12),
    (SouthAmerica, LiveTraffic, 14),
    (SouthAmerica, Traffic, 15),
    (Europe, TrafficIncidentsOverview, 18),
    (Europe, TrafficIncidentsIntermediate, 19),
    (Europe, TrafficIncidentsDetailed, 20),
    (Europe, LiveTraffic, 22),
    (Europe, Traffic, 23),
    (MiddleEastAndAfrica, TrafficIncidentsOverview, 26),
    (MiddleEastAndAfrica, TrafficIncidentsIntermediate, 27),
    (MiddleEastAndAfrica, TrafficIncidentsDetailed, 28),
    (MiddleEastAndAfrica, LiveTraffic, 30),
    (MiddleEastAndAfrica, Traffic, 31),
    (AsiaPacific, TrafficIncidentsOverview, 46),
    (AsiaPacific, TrafficIncidentsIntermediate, 47),
    (AsiaPacific, TrafficIncidentsDetailed, 48),
    (AsiaPacific, LiveTraffic, 42),
    (AsiaPacific, Traffic, 43),
    (India, LiveTraffic, 34),
    (India, Traffic, 35),
    (SouthEastAsia, LiveTraffic, 38),
    (SouthEastAsia, Traffic, 39)
  ]

  /** `layerInfos`: the service's layers, built by the constructor. */
  method LayerInfos() returns (a: TrafficLayerInfoArray)
    ensures fresh(a) && a.items == ToLayerInfos(LayerRecords)
  {
    a := new TrafficLayerInfoArray(LayerRecords);
  }

  /** The position of a layer id in the catalogue, or -1 for an id it
      does not list. */
  function CataloguePosition(layerId: int): int {
    match layerId
    case 2 => 0
    case 3 => 1
    case 4 => 2
    case 6 => 3
    case 7 => 4
    case 10 => 5
    case 11 => 6
    case 12 => 7
    case 14 => 8
    case 15 => 9
    case 18 => 10
    case 19 => 11
    case 20 => 12
    case 22 => 13
    case 23 => 14
    case 26 => 15
    case 27 => 16
    case 28 => 17
    case 30 => 18
    case 31 => 19
    case 46 => 20
    case 47 => 21
    case 48 => 22
    case 42 => 23
    case 43 => 24
    case 34 => 25
    case 35 => 26
    case 38 => 27
    case 39 => 28
    case _ => -1
  }

  /** The catalogue has 29 layers, and no two share a layer id: each id
      leads back to the one position that lists it. */
  lemma LayerInfosShape()
    ensures |ToLayerInfos(LayerRecords)| == 29
    ensures forall i :: 0 <= i < 29 ==> CataloguePosition(ToLayerInfos(LayerRecords)[i].layerId) == i
    ensures forall i :: 0 <= i < 29 ==> 2 <= ToLayerInfos(LayerRecords)[i].layerId <= 48
    ensures forall i, j :: 0 <= i < j < 29 ==>
              ToLayerInfos(LayerRecords)[i].layerId != ToLayerInfos(LayerRecords)[j].layerId
  {
    forall i | 0 <= i < 29
      ensures CataloguePosition(LayerRecords[i].2) == i && 2 <= LayerRecords[i].2 <= 48
    {
      assert i == 0 || i == 1 || i == 2 || i == 3 || i == 4 || i == 5 || i == 6 || i == 7 || i == 8 || i == 9
             || i == 10 || i == 11 || i == 12 || i == 13 || i == 14 || i == 15 || i == 16 || i == 17 || i == 18 || i == 19
             || i == 20 || i == 21 || i == 22 || i == 23 || i == 24 || i == 25 || i == 26 || i == 27 || i == 28;
    }
  }

  /** Because `in` tests index keys, asking to leave out the one layer 6
      keeps the layers whose id is 0, of which the catalogue has none: the
      result is empty, not the other 28 layers. */
  lemma ExcludingLayer6KeepsNothing()
    ensures WithIndexKeyedIds(ToLayerInfos(LayerRecords), |[6]|) == []
  {
    LayerInfosShape();
    NoIndexKeyedIds(ToLayerInfos(LayerRecords), |[6]|);
  }

  /** When no record's id is below the number of ids, the index-key filter
      keeps nothing. */
  lemma {:induction false} NoIndexKeyedIds(infos: seq<TrafficLayerInfo>, idCount: nat)
    requires forall i :: 0 <= i < |infos| ==> !(0 <= infos[i].layerId < idCount)
    ensures WithIndexKeyedIds(infos, idCount) == []
  {
    if |infos| > 0 {
      assert forall i :: 0 <= i < |infos| - 1 ==> infos[1..][i] == infos[i + 1];
      NoIndexKeyedIds(infos[1..], idCount);
    }
  }
}
