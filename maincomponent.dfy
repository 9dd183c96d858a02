/**
 * The main component's selection state: the selected countries and
 * regions, the features and grid rows they let through, and the bounding
 * box of the shown features.
 */
module Main {
  import opened Host
  import opened Seqs
  import opened GeoJson
  import opened BoundingBox
  import opened Grid

  /** A dropdown change: the option's text and whether it is now selected. */
  datatype DropdownChange = DropdownChange(text: string, selected: bool)

  /** The records of the listed ids, in list order. */
  function RecordsOf(ids: seq<string>, records: map<string, Record>): (rs: seq<Record>)
    requires forall i :: 0 <= i < |ids| ==> ids[i] in records
    ensures |rs| == |ids| && forall i :: 0 <= i < |ids| ==> rs[i] == records[ids[i]]
  {
    seq(|ids|, i requires 0 <= i < |ids| => records[ids[i]])
  }

  /** `getValue(column) as string || null`. */
  function ColorOrNull(v: Value): Value { if Truthy(v) then v else Null }

  /**
   * The features the component builds for one record: every feature of a
   * collection, stamped with the row colour (or null), with no geometry
   * test; a bare feature as it is; nothing for other JSON or text that does
   * not parse.
   */
  function BuiltFeatures(r: Record, polygonField: string, colorField: string, parse: Value -> Option<Parsed>): (built: seq<Feature>)
    ensures parse(GetValue(r, polygonField)).None? || parse(GetValue(r, polygonField)).value.OtherJson? ==> built == []
    ensures parse(GetValue(r, polygonField)).Some? && parse(GetValue(r, polygonField)).value.BareFeature? ==>
      built == [parse(GetValue(r, polygonField)).value.feature]
    ensures parse(GetValue(r, polygonField)).Some? && parse(GetValue(r, polygonField)).value.FeatureCollection? ==>
      var fs := parse(GetValue(r, polygonField)).value.features;
      |built| == |fs| && forall i :: 0 <= i < |fs| ==>
        && built[i].geometry == fs[i].geometry
        && "fillColor" in built[i].properties && built[i].properties["fillColor"] == ColorOrNull(GetValue(r, colorField))
        && forall k :: k in fs[i].properties && k != "fillColor" ==> k in built[i].properties && built[i].properties[k] == fs[i].properties[k]
  {
    var color := ColorOrNull(GetValue(r, colorField));
    match parse(GetValue(r, polygonField))
    case None => []
    case Some(FeatureCollection(fs)) => seq(|fs|, i requires 0 <= i < |fs| => WithFillColor(fs[i], color))
    case Some(BareFeature(f)) => [f]
    case Some(OtherJson) => []
  }

  /** `records.flatMap(...)` over the builder. */
  function FeaturesOf(rs: seq<Record>, polygonField: string, colorField: string, parse: Value -> Option<Parsed>): (r: seq<Feature>)
    ensures forall f :: f in r <==> exists i :: 0 <= i < |rs| && f in BuiltFeatures(rs[i], polygonField, colorField, parse)
  {
    if rs == [] then []
    else
      var init := rs[..|rs| - 1];
      assert forall i :: 0 <= i < |init| ==> init[i] == rs[i];
      FeaturesOf(init, polygonField, colorField, parse) + BuiltFeatures(rs[|rs| - 1], polygonField, colorField, parse)
  }

  /** `value && selected.includes(value.name)`: a lookup whose name is selected. */
  predicate RecordSelected(r: Record, field: string, selected: seq<string>) {
    var v := GetValue(r, field);
    v.Lookup? && v.name.Some? && v.name.value in selected
  }

  /** `item.key && selected.includes(item.key)`. */
  predicate KeySelected(key: string, selected: seq<string>) { key != "" && key in selected }

  /** The selection after a dropdown change: the text appended, or every copy of it removed. */
  function Toggle(selected: seq<string>, change: DropdownChange): (r: seq<string>)
    ensures change.selected ==> |r| == |selected| + 1 && r[..|selected|] == selected && r[|selected|] == change.text
    ensures !change.selected ==> change.text !in r && Subseq(r, selected) && forall t :: t != change.text ==> (t in r <==> t in selected)
    ensures !change.selected ==> multiset(r) == multiset(selected)[change.text := 0]
    ensures !change.selected ==> |r| == |selected| - multiset(selected)[change.text]
  {
    var keep := t => t != change.text;
    FilterIsSubseq(selected, keep);
    FilterMultiset(selected, keep);
    FilterOutLength(selected, keep, change.text);
    if change.selected then selected + [change.text] else Filter(selected, keep)
  }

  ghost predicate HaveGeometry(fs: seq<Feature>) {
    forall i :: 0 <= i < |fs| ==> fs[i].geometry.Some?
  }

  class MainComponent {
    const dataset: DataSet
    const countryField: string
    const regionField: string
    const polygonField: string
    const colorField: string
    const parse: Value -> Option<Parsed>
    /** The features of all records (the memoised builder result). */
    const geoJsonFeatures: seq<Feature>
    /** The grid rows of all records. */
    const items: seq<GridItem>

    var selectedCountries: seq<string>
    var selectedRegions: seq<string>
    var filteredFeatures: seq<Feature>
    var filteredItems: seq<GridItem>
    var boundingBox: Option<Bounds>

    /**
     * The constants agree with the dataset. Every built feature has a
     * geometry: the bounding box reads `feature.geometry.type` without a
     * check.
     */
    ghost predicate Valid()
      reads this
    {
      && WellFormed(dataset)
      && geoJsonFeatures == FeaturesOf(RecordsOf(dataset.sortedRecordIds, dataset.records), polygonField, colorField, parse)
      && HaveGeometry(geoJsonFeatures)
    }

    /** The features of the records whose `field` lookup name is selected. */
    ghost function SelectedFeatures(field: string, selected: seq<string>): seq<Feature>
      reads this
      requires Valid()
    {
      FeaturesOf(Filter(RecordsOf(dataset.sortedRecordIds, dataset.records), r => RecordSelected(r, field, selected)),
                 polygonField, colorField, parse)
    }

    constructor(ds: DataSet, countryField: string, regionField: string, polygonField: string, colorField: string,
                currentYearField: string, lastYearField: string, yoYProcentField: string, parse: Value -> Option<Parsed>)
      requires WellFormed(ds)
      requires HaveGeometry(FeaturesOf(RecordsOf(ds.sortedRecordIds, ds.records), polygonField, colorField, parse))
      ensures Valid()
      ensures items == MapDatasetToItems(ds, countryField, regionField, currentYearField, lastYearField, yoYProcentField)
      ensures selectedCountries == [] && selectedRegions == []
      ensures filteredFeatures == geoJsonFeatures && filteredItems == items && boundingBox == None
    {
      this.dataset := ds;
      this.countryField, this.regionField := countryField, regionField;
      this.polygonField, this.colorField := polygonField, colorField;
      this.parse := parse;
      var features := FeaturesOf(RecordsOf(ds.sortedRecordIds, ds.records), polygonField, colorField, parse);
      var rows := MapDatasetToItems(ds, countryField, regionField, currentYearField, lastYearField, yoYProcentField);
      this.geoJsonFeatures := features;
      this.items := rows;
      selectedCountries, selectedRegions := [], [];
      filteredFeatures, filteredItems := features, rows;
      boundingBox := None;
    }

    /** `handleCountryDropdownChange`: updates the country selection and filters by it; no option, no change. */
    method HandleCountryDropdownChange(option: Option<DropdownChange>)
      requires Valid()
      modifies this`selectedCountries, this`filteredFeatures, this`filteredItems, this`boundingBox
      ensures Valid()
      ensures option.None? ==> unchanged(this)
      ensures option.Some? ==> selectedCountries == Toggle(old(selectedCountries), option.value)
      ensures option.Some? ==> Shows(countryField, selectedCountries, true)
      ensures selectedRegions == old(selectedRegions)
    {
      if option.None? {
        return;
      }
      var updatedCountries := Toggle(selectedCountries, option.value);
      selectedCountries := updatedCountries;
      FilterBy(countryField, updatedCountries, true);
    }

    /** `handleRegionDropdownChange`: the same for regions; the country selection plays no part. */
    method HandleRegionDropdownChange(option: Option<DropdownChange>)
      requires Valid()
      modifies this`selectedRegions, this`filteredFeatures, this`filteredItems, this`boundingBox
      ensures Valid()
      ensures option.None? ==> unchanged(this)
      ensures option.Some? ==> selectedRegions == Toggle(old(selectedRegions), option.value)
      ensures option.Some? ==> Shows(regionField, selectedRegions, false)
      ensures selectedCountries == old(selectedCountries)
    {
      if option.None? {
        return;
      }
      var updatedRegions := Toggle(selectedRegions, option.value);
      selectedRegions := updatedRegions;
      FilterBy(regionField, updatedRegions, false);
    }

    /**
     * What the component shows for a selection on `field` (the grid keyed
     * by country or by region): everything for an empty selection, else the
     * selected records' features and rows; the box is always that of the
     * shown features.
     */
    ghost predicate Shows(field: string, selected: seq<string>, byCountry: bool)
      reads this
      requires Valid()
    {
      if selected == [] then
        filteredFeatures == geoJsonFeatures && filteredItems == items && boundingBox == BoxOf(geoJsonFeatures)
      else
        && filteredFeatures == SelectedFeatures(field, selected)
        && filteredItems == Filter(items, (item: GridItem) => KeySelected(if byCountry then item.country else item.region, selected))
        && boundingBox == BoxOf(filteredFeatures)
    }

    /** `filterByCountries` (`byCountry`) and `filterByRegions`. */
    method FilterBy(field: string, selected: seq<string>, byCountry: bool)
      requires Valid()
      modifies this`filteredFeatures, this`filteredItems, this`boundingBox
      ensures Valid()
      ensures Shows(field, selected, byCountry)
    {
      if |selected| == 0 {
        filteredFeatures := geoJsonFeatures;
        filteredItems := items;
        boundingBox := GetGeoJsonBoundingBox(geoJsonFeatures);
        return;
      }
      var all := RecordsOf(dataset.sortedRecordIds, dataset.records);
      var filteredDataset := Filter(all, r => RecordSelected(r, field, selected));
      var features := FeaturesOf(filteredDataset, polygonField, colorField, parse);
      SelectedHaveGeometry(all, r => RecordSelected(r, field, selected), polygonField, colorField, parse);
      filteredFeatures := features;
      filteredItems := Filter(items, (item: GridItem) => KeySelected(if byCountry then item.country else item.region, selected));
      boundingBox := GetGeoJsonBoundingBox(features);
    }
  }

  // ---------------------------------------------------------------------
  // Properties
  // ---------------------------------------------------------------------

  /** The features of a filtered set of records are among the features of all of them. */
  lemma SelectedHaveGeometry(rs: seq<Record>, p: Record -> bool, polygonField: string, colorField: string,
                             parse: Value -> Option<Parsed>)
    requires HaveGeometry(FeaturesOf(rs, polygonField, colorField, parse))
    ensures HaveGeometry(FeaturesOf(Filter(rs, p), polygonField, colorField, parse))
  {
    var all := FeaturesOf(rs, polygonField, colorField, parse);
    var some := FeaturesOf(Filter(rs, p), polygonField, colorField, parse);
    forall i | 0 <= i < |some| ensures some[i].geometry.Some? {
      assert some[i] in some;
      var k :| 0 <= k < |Filter(rs, p)| && some[i] in BuiltFeatures(Filter(rs, p)[k], polygonField, colorField, parse);
      assert Filter(rs, p)[k] in Filter(rs, p);
      var j :| 0 <= j < |rs| && rs[j] == Filter(rs, p)[k];
      assert some[i] in all;
      var m :| 0 <= m < |all| && all[m] == some[i];
    }
  }

  /** Selecting a new text and deselecting it again gives back the selection. */
  lemma SelectThenDeselect(selected: seq<string>, text: string)
    requires text !in selected
    ensures Toggle(Toggle(selected, DropdownChange(text, true)), DropdownChange(text, false)) == selected
  {
    var p := (t: string) => t != text;
    FilterAppend(selected, [text], p);
    FilterAll(selected, p);
    assert Filter([text], p) == [];
  }

  /** The grid rows kept for a selection are the matching rows, in order. */
  lemma SelectedItemsInOrder(items: seq<GridItem>, selected: seq<string>)
    ensures var r := Filter(items, (item: GridItem) => KeySelected(item.country, selected));
      Subseq(r, items) && forall item :: item in r <==> item in items && item.country != "" && item.country in selected
  {
    FilterIsSubseq(items, (item: GridItem) => KeySelected(item.country, selected));
  }
}
