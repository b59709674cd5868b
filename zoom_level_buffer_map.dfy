/** The table of map zoom levels for which a clipping mask is built, with the
    closure buffer distance (in feet) used at each level and a visibility
    flag that no part of the masking logic reads. */
module ZoomLevelBufferMap {
  import opened Wrappers

  datatype ZoomLevelBufferEntry = ZoomLevelBufferEntry(zoomLevel: int, bufferSize: int, visible: bool)

  const BufferMap: seq<ZoomLevelBufferEntry> := [
    ZoomLevelBufferEntry(6, 40000, true),
    ZoomLevelBufferEntry(7, 10000, false),
    ZoomLevelBufferEntry(8, 12500, false),
    ZoomLevelBufferEntry(9, 5000, false),
    ZoomLevelBufferEntry(10, 4000, false),
    ZoomLevelBufferEntry(11, 3250, false)
  ]

  /** The zoom levels of a table, in table order. */
  function ZoomLevels(table: seq<ZoomLevelBufferEntry>): (r: seq<int>)
    ensures |r| == |table|
    ensures forall i :: 0 <= i < |table| ==> r[i] == table[i].zoomLevel
  {
    seq(|table|, i requires 0 <= i < |table| => table[i].zoomLevel)
  }

  predicate DistinctZoomLevels(table: seq<ZoomLevelBufferEntry>) {
    forall i, j :: 0 <= i < j < |table| ==> table[i].zoomLevel != table[j].zoomLevel
  }

  /** The first entry of the table for the given zoom level, if any. */
  function FindByZoom(table: seq<ZoomLevelBufferEntry>, zoom: int): (r: Option<ZoomLevelBufferEntry>)
    ensures r.None? <==> forall i :: 0 <= i < |table| ==> table[i].zoomLevel != zoom
    ensures r.Some? ==> exists i :: 0 <= i < |table| && table[i] == r.value && table[i].zoomLevel == zoom &&
                                    forall j :: 0 <= j < i ==> table[j].zoomLevel != zoom
  {
    if |table| == 0 then None
    else if table[0].zoomLevel == zoom then Some(table[0])
    else
      var r := FindByZoom(table[1..], zoom);
      assert forall i :: 0 < i < |table| ==> table[i] == table[1..][i - 1];
      r
  }

  /** The entry of the program's table for a zoom level. */
  function Lookup(zoom: int): (r: Option<ZoomLevelBufferEntry>)
    ensures r.None? <==> forall e :: e in BufferMap ==> e.zoomLevel != zoom
    ensures r.Some? ==> r.value in BufferMap && r.value.zoomLevel == zoom
  {
    FindByZoom(BufferMap, zoom)
  }

  /** In a table without repeated zoom levels, looking up an entry's zoom
      level finds that very entry. */
  lemma FindByZoomDistinct(table: seq<ZoomLevelBufferEntry>, i: int)
    requires DistinctZoomLevels(table)
    requires 0 <= i < |table|
    ensures FindByZoom(table, table[i].zoomLevel) == Some(table[i])
  {
    var r := FindByZoom(table, table[i].zoomLevel);
    var k :| 0 <= k < |table| && table[k] == r.value && table[k].zoomLevel == table[i].zoomLevel &&
             forall j :: 0 <= j < k ==> table[j].zoomLevel != table[i].zoomLevel;
    assert k == i;
  }

  /** The table has six entries, for zoom levels 6 to 11 in increasing order. */
  lemma BufferMapZoomLevels()
    ensures ZoomLevels(BufferMap) == [6, 7, 8, 9, 10, 11]
  {
  }

  /** No zoom level occurs twice. */
  lemma BufferMapDistinct()
    ensures DistinctZoomLevels(BufferMap)
  {
  }

  /** Every buffer distance is a positive number of feet. */
  lemma BufferSizesPositive()
    ensures forall i :: 0 <= i < |BufferMap| ==> BufferMap[i].bufferSize > 0
  {
  }

  /** Only the zoom-6 entry is marked visible. */
  lemma OnlyZoom6Visible()
    ensures forall i :: 0 <= i < |BufferMap| ==> (BufferMap[i].visible <==> BufferMap[i].zoomLevel == 6)
  {
  }

  /** The buffer distance does not decrease monotonically with the zoom
      level: zoom 8 uses a wider buffer than zoom 7. */
  lemma BufferSizeNotMonotone()
    ensures Lookup(7).Some? && Lookup(8).Some?
    ensures Lookup(7).value.bufferSize < Lookup(8).value.bufferSize
  {
    BufferMapDistinct();
    FindByZoomDistinct(BufferMap, 1);
    FindByZoomDistinct(BufferMap, 2);
  }

  /** A zoom level has an entry exactly when it lies in 6..11, and the entry
      found is the one the table lists for it. */
  lemma LookupRange(zoom: int)
    ensures Lookup(zoom).Some? <==> 6 <= zoom <= 11
    ensures Lookup(zoom).Some? ==> Lookup(zoom).value == BufferMap[zoom - 6]
  {
    BufferMapDistinct();
    if 6 <= zoom <= 11 {
      FindByZoomDistinct(BufferMap, zoom - 6);
    }
  }
}
