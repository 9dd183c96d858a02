/**
 * `processMapData`: the map features of a dataset. Each record's polygon
 * column holds GeoJSON text; its polygon and multi-polygon features are
 * emitted, in record order, each carrying the record's colour as
 * `fillColor`.
 */
module MapData {
  import opened Host
  import opened Seqs
  import opened GeoJson

  /** The polygon features of a collection, each stamped with `color`, in collection order. */
  function CollectionFeatures(fs: seq<Feature>, color: Value): (r: seq<Feature>)
    ensures |r| <= |fs|
  {
    if fs == [] then []
    else
      var f := fs[|fs| - 1];
      CollectionFeatures(fs[..|fs| - 1], color) + (if HasPolygon(f) then [WithFillColor(f, color)] else [])
  }

  /**
   * The features one record contributes: nothing for a falsy polygon value
   * or text that does not parse; the stamped polygon features of a
   * collection; a bare feature, stamped, when it is a polygon; nothing for
   * anything else.
   */
  function RecordFeatures(r: Record, polygonField: string, colorField: string, parse: Value -> Option<Parsed>): seq<Feature> {
    var geo := GetValue(r, polygonField);
    var color := GetValue(r, colorField);
    if !Truthy(geo) || parse(geo).None? then []
    else
      match parse(geo).value
      case FeatureCollection(fs) => CollectionFeatures(fs, color)
      case BareFeature(f) => if HasPolygon(f) then [WithFillColor(f, color)] else []
      case OtherJson => []
  }

  /** The features of the listed records, record after record. */
  function MapFeatures(ids: seq<string>, records: map<string, Record>, polygonField: string, colorField: string,
                       parse: Value -> Option<Parsed>): (r: seq<Feature>)
    requires forall i :: 0 <= i < |ids| ==> ids[i] in records
    ensures forall f :: f in r ==>
      HasPolygon(f) && "fillColor" in f.properties
      && exists i :: 0 <= i < |ids| && f.properties["fillColor"] == GetValue(records[ids[i]], colorField)
  {
    if ids == [] then []
    else
      var init, last := ids[..|ids| - 1], ids[|ids| - 1];
      RecordFeaturesStamped(records[last], polygonField, colorField, parse);
      assert forall i :: 0 <= i < |init| ==> init[i] == ids[i];
      MapFeatures(init, records, polygonField, colorField, parse)
      + RecordFeatures(records[last], polygonField, colorField, parse)
  }

  /**
   * `processMapData`. Every listed id must have a record: the code reads
   * it without testing for it.
   */
  method ProcessMapData(ds: DataSet, polygonField: string, colorField: string, parse: Value -> Option<Parsed>)
      returns (features: seq<Feature>)
    requires WellFormed(ds)
    ensures features == MapFeatures(ds.sortedRecordIds, ds.records, polygonField, colorField, parse)
  {
    features := [];
    var ids := ds.sortedRecordIds;
    var i := 0;
    while i < |ids|
      invariant 0 <= i <= |ids|
      invariant features == MapFeatures(ids[..i], ds.records, polygonField, colorField, parse)
    {
      var record := ds.records[ids[i]];
      assert ids[..i + 1][..i] == ids[..i];
      var geoJsonData := GetValue(record, polygonField);
      var rowColor := GetValue(record, colorField);
      if Truthy(geoJsonData) {
        var parsed := parse(geoJsonData);
        if parsed.Some? {
          match parsed.value
          case FeatureCollection(fs) =>
            features := PushPolygons(features, fs, rowColor);
          case BareFeature(f) =>
            if HasPolygon(f) {
              features := features + [WithFillColor(f, rowColor)];
            }
          case OtherJson =>
        }
      }
      i := i + 1;
    }
    assert ids[..i] == ids;
  }

  /** `parsedGeoJson.features.forEach(...)`: pushes the stamped polygon features. */
  method PushPolygons(features: seq<Feature>, fs: seq<Feature>, rowColor: Value) returns (features': seq<Feature>)
    ensures features' == features + CollectionFeatures(fs, rowColor)
  {
    features' := features;
    var k := 0;
    while k < |fs|
      invariant 0 <= k <= |fs|
      invariant features' == features + CollectionFeatures(fs[..k], rowColor)
    {
      var feature := fs[k];
      assert fs[..k + 1][..k] == fs[..k];
      if feature.geometry.Some? && (feature.geometry.value.Polygon? || feature.geometry.value.MultiPolygon?) {
        features' := features' + [WithFillColor(feature, rowColor)];
      }
      k := k + 1;
    }
    assert fs[..k] == fs;
  }

  // ---------------------------------------------------------------------
  // Properties
  // ---------------------------------------------------------------------

  /** The collection's output is its polygon features, in order, each stamped. */
  lemma {:induction false} CollectionIsStampedFilter(fs: seq<Feature>, color: Value)
    ensures var r := CollectionFeatures(fs, color);
      var kept := Filter(fs, HasPolygon);
      |r| == |kept| && forall i :: 0 <= i < |r| ==> r[i] == WithFillColor(kept[i], color)
  {
    if fs != [] {
      CollectionIsStampedFilter(fs[..|fs| - 1], color);
    }
  }

  /** Every emitted feature is a polygon or multi-polygon whose `fillColor` is its record's colour. */
  lemma {:induction false} RecordFeaturesStamped(r: Record, polygonField: string, colorField: string, parse: Value -> Option<Parsed>)
    ensures forall f :: f in RecordFeatures(r, polygonField, colorField, parse) ==>
      HasPolygon(f) && "fillColor" in f.properties && f.properties["fillColor"] == GetValue(r, colorField)
  {
    var geo := GetValue(r, polygonField);
    if Truthy(geo) && parse(geo).Some? && parse(geo).value.FeatureCollection? {
      var fs := parse(geo).value.features;
      var color := GetValue(r, colorField);
      CollectionIsStampedFilter(fs, color);
      var kept := Filter(fs, HasPolygon);
      forall f | f in CollectionFeatures(fs, color)
        ensures HasPolygon(f) && "fillColor" in f.properties && f.properties["fillColor"] == color
      {
        var i :| 0 <= i < |CollectionFeatures(fs, color)| && CollectionFeatures(fs, color)[i] == f;
        assert kept[i] in kept;
      }
    }
  }

  /** A record with a falsy polygon value, or text that does not parse, adds nothing, and later records still count. */
  lemma SkippedRecord(ids: seq<string>, id: string, records: map<string, Record>, polygonField: string, colorField: string,
                      parse: Value -> Option<Parsed>)
    requires id in records && forall i :: 0 <= i < |ids| ==> ids[i] in records
    requires !Truthy(GetValue(records[id], polygonField)) || parse(GetValue(records[id], polygonField)).None?
    ensures MapFeatures(ids + [id], records, polygonField, colorField, parse) == MapFeatures(ids, records, polygonField, colorField, parse)
  {
    assert (ids + [id])[..|ids|] == ids;
  }

  /** Output order is record order: the features of two runs of records follow each other. */
  lemma {:induction false} MapFeaturesAppend(a: seq<string>, b: seq<string>, records: map<string, Record>,
                                            polygonField: string, colorField: string, parse: Value -> Option<Parsed>)
    requires forall i :: 0 <= i < |a| ==> a[i] in records
    requires forall i :: 0 <= i < |b| ==> b[i] in records
    ensures forall i :: 0 <= i < |a + b| ==> (a + b)[i] in records
    ensures MapFeatures(a + b, records, polygonField, colorField, parse)
      == MapFeatures(a, records, polygonField, colorField, parse) + MapFeatures(b, records, polygonField, colorField, parse)
    decreases |b|
  {
    ListedAppend(a, b, records);
    if b == [] {
      assert a + b == a;
    } else {
      var init, last := b[..|b| - 1], b[|b| - 1];
      assert b == init + [last];
      assert a + b == (a + init) + [last];
      ListedAppend(a, init, records);
      MapFeaturesAppend(a, init, records, polygonField, colorField, parse);
      MapFeaturesSnoc(a + init, last, records, polygonField, colorField, parse);
      MapFeaturesSnoc(init, last, records, polygonField, colorField, parse);
    }
  }

  lemma ListedAppend(a: seq<string>, b: seq<string>, records: map<string, Record>)
    requires forall i :: 0 <= i < |a| ==> a[i] in records
    requires forall i :: 0 <= i < |b| ==> b[i] in records
    ensures forall i :: 0 <= i < |a + b| ==> (a + b)[i] in records
  {
    forall i | 0 <= i < |a + b| ensures (a + b)[i] in records {
      if i < |a| { assert (a + b)[i] == a[i]; } else { assert (a + b)[i] == b[i - |a|]; }
    }
  }

  lemma MapFeaturesSnoc(ids: seq<string>, id: string, records: map<string, Record>,
                        polygonField: string, colorField: string, parse: Value -> Option<Parsed>)
    requires forall i :: 0 <= i < |ids| ==> ids[i] in records
    requires id in records
    ensures forall i :: 0 <= i < |ids + [id]| ==> (ids + [id])[i] in records
    ensures MapFeatures(ids + [id], records, polygonField, colorField, parse)
      == MapFeatures(ids, records, polygonField, colorField, parse) + RecordFeatures(records[id], polygonField, colorField, parse)
  {
    ListedAppend(ids, [id], records);
    assert (ids + [id])[..|ids|] == ids;
  }
}
