/**
 * The sidebar grid: one row per record of the view dataset, a totals row
 * on top, the trend box of the year-on-year change, and what a click on a
 * row opens.
 */
module Grid {
  import opened Host
  import opened Seqs
  import opened Config

  datatype GridItem = GridItem(country: string, region: string, currentYear: real, lastYear: real, yoYProcent: real)

  /** The trend box of a year-on-year change: its icon colour and its text. */
  datatype TrendBox = TrendBox(color: string, text: string)

  /** `getTrendBox`: above 5 increasing, 0 to 5 steady, below 0 declining. */
  function GetTrendBox(value: real): (r: TrendBox)
    ensures r == TrendBox("green", "Increasing") <==> value > 5.0
    ensures r == TrendBox("orange", "Steady") <==> 0.0 <= value <= 5.0
    ensures r == TrendBox("red", "Declining") <==> value < 0.0
  {
    if value > 5.0 then TrendBox("green", "Increasing")
    else if value >= 0.0 && value <= 5.0 then TrendBox("orange", "Steady")
    else TrendBox("red", "Declining")
  }

  /** `lookup?.name || "N/A"`: the non-empty name of a lookup object, else "N/A". */
  function NameOrNA(v: Value): (r: string)
    ensures r != ""
    ensures LookupName(v).Some? && LookupName(v).value != "" ==> r == LookupName(v).value
    ensures LookupName(v).None? || LookupName(v).value == "" ==> r == "N/A"
  {
    if v.Lookup? && v.name.Some? && v.name.value != "" then v.name.value else "N/A"
  }

  /**
   * The grid row of one record: country and region are lookup names or
   * "N/A", each number its value or 0 when falsy.
   */
  function ItemOf(r: Record, countryField: string, regionField: string, currentYearField: string,
                  lastYearField: string, yoYProcentField: string): (item: GridItem)
    ensures item.country != "Totals" || LookupName(GetValue(r, countryField)) == Some("Totals")
    ensures item.country == "N/A" <==> LookupName(GetValue(r, countryField)).None? || LookupName(GetValue(r, countryField)).value in {"", "N/A"}
    ensures item.region == "N/A" <==> LookupName(GetValue(r, regionField)).None? || LookupName(GetValue(r, regionField)).value in {"", "N/A"}
    ensures Truthy(GetValue(r, currentYearField)) && GetValue(r, currentYearField).Num? ==> item.currentYear == GetValue(r, currentYearField).n
    ensures !Truthy(GetValue(r, currentYearField)) ==> item.currentYear == 0.0
    ensures Truthy(GetValue(r, lastYearField)) && GetValue(r, lastYearField).Num? ==> item.lastYear == GetValue(r, lastYearField).n
    ensures !Truthy(GetValue(r, lastYearField)) ==> item.lastYear == 0.0
    ensures Truthy(GetValue(r, yoYProcentField)) && GetValue(r, yoYProcentField).Num? ==> item.yoYProcent == GetValue(r, yoYProcentField).n
    ensures !Truthy(GetValue(r, yoYProcentField)) ==> item.yoYProcent == 0.0
  {
    GridItem(NameOrNA(GetValue(r, countryField)), NameOrNA(GetValue(r, regionField)),
             AsNumberOr(GetValue(r, currentYearField), 0.0),
             AsNumberOr(GetValue(r, lastYearField), 0.0),
             AsNumberOr(GetValue(r, yoYProcentField), 0.0))
  }

  /**
   * `mapDatasetToItems`: one row per listed record, in list order. Every
   * listed id must have a record: the code reads it without testing for it.
   */
  function MapDatasetToItems(ds: DataSet, countryField: string, regionField: string, currentYearField: string,
                             lastYearField: string, yoYProcentField: string): (items: seq<GridItem>)
    requires WellFormed(ds)
    ensures |items| == |ds.sortedRecordIds|
    ensures forall i :: 0 <= i < |items| ==>
      items[i] == ItemOf(ds.records[ds.sortedRecordIds[i]], countryField, regionField, currentYearField, lastYearField, yoYProcentField)
  {
    seq(|ds.sortedRecordIds|, i requires 0 <= i < |ds.sortedRecordIds| =>
      ItemOf(ds.records[ds.sortedRecordIds[i]], countryField, regionField, currentYearField, lastYearField, yoYProcentField))
  }

  function CurrentYearOf(item: GridItem): real { item.currentYear }
  function LastYearOf(item: GridItem): real { item.lastYear }
  function YoYOf(item: GridItem): real { item.yoYProcent }

  /** The totals row: sums of the two years and the mean change, each to 2 decimals; a mean of 0 for no rows. */
  function TotalsRow(items: seq<GridItem>): (t: GridItem)
    ensures t.country == "Totals" && t.region == ""
    ensures -1.0 / 200.0 <= t.currentYear - SumOf(items, CurrentYearOf) <= 1.0 / 200.0
    ensures -1.0 / 200.0 <= t.lastYear - SumOf(items, LastYearOf) <= 1.0 / 200.0
    ensures |items| > 0 ==> -1.0 / 200.0 <= t.yoYProcent - SumOf(items, YoYOf) / |items| as real <= 1.0 / 200.0
    ensures items == [] ==> t.yoYProcent == 0.0
    ensures TwoDecimals(t.currentYear) && TwoDecimals(t.lastYear) && TwoDecimals(t.yoYProcent)
  {
    assert 0.0 == Hundredths(0);
    GridItem("Totals", "",
             RoundTo2(SumOf(items, CurrentYearOf)),
             RoundTo2(SumOf(items, LastYearOf)),
             if |items| > 0 then RoundTo2(SumOf(items, YoYOf) / |items| as real) else 0.0)
  }

  /** The rows shown: the totals row first, then the items. */
  function ItemsWithTotals(items: seq<GridItem>): (r: seq<GridItem>)
    ensures |r| == |items| + 1 && r[0] == TotalsRow(items) && r[1..] == items
  {
    [TotalsRow(items)] + items
  }

  /** The form a click asks the host to open. */
  datatype OpenForm = OpenForm(entityName: string, entityId: string)

  /** The country `handleItemClick` reads from a record: a lookup object's name, else "". */
  function RecordCountry(r: Record, column: string): (c: string)
    ensures c != "" ==> GetValue(r, column).Lookup? && GetValue(r, column).name == Some(c)
    ensures !GetValue(r, column).Lookup? || GetValue(r, column).name.None? ==> c == ""
  {
    var v := GetValue(r, column);
    if v.Lookup? && v.name.Some? then v.name.value else ""
  }

  /** The index of the first listed record whose country is `country`, from `k` on. */
  function FindCountry(ids: seq<string>, records: map<string, Record>, column: string, country: string, k: nat): (r: Option<nat>)
    requires forall i :: 0 <= i < |ids| ==> ids[i] in records
    requires k <= |ids|
    ensures r.Some? ==> (k <= r.value < |ids| && RecordCountry(records[ids[r.value]], column) == country
                         && forall j :: k <= j < r.value ==> RecordCountry(records[ids[j]], column) != country)
    ensures r.None? ==> forall j :: k <= j < |ids| ==> RecordCountry(records[ids[j]], column) != country
    decreases |ids| - k
  {
    if k == |ids| then None
    else if RecordCountry(records[ids[k]], column) == country then Some(k)
    else FindCountry(ids, records, column, country, k + 1)
  }

  predicate HasPrimary(columns: seq<Column>) { exists i :: 0 <= i < |columns| && columns[i].isPrimary }

  /**
   * `handleItemClick`: nothing for the totals row or without a primary-key
   * column; otherwise the form of the first record whose country-column
   * lookup name is the row's country, unless there is none or its id is "".
   */
  function HandleItemClick(item: GridItem, ds: DataSet): (r: Option<OpenForm>)
    requires WellFormed(ds)
    ensures item.country == "Totals" || !HasPrimary(ds.columns) ==> r.None?
    ensures r.Some? ==>
      exists k :: 0 <= k < |ds.sortedRecordIds| && ds.sortedRecordIds[k] != ""
        && r.value == OpenForm(ds.targetEntityType, ds.sortedRecordIds[k])
        && RecordCountry(ds.records[ds.sortedRecordIds[k]], GetColumnName(ds.columns, "CountryField")) == item.country
        && forall j :: 0 <= j < k ==> RecordCountry(ds.records[ds.sortedRecordIds[j]], GetColumnName(ds.columns, "CountryField")) != item.country
  {
    if item.country == "Totals" || !HasPrimary(ds.columns) then None
    else
      var column := GetColumnName(ds.columns, "CountryField");
      var k := FindCountry(ds.sortedRecordIds, ds.records, column, item.country, 0);
      if k.None? || ds.sortedRecordIds[k.value] == "" then None
      else Some(OpenForm(ds.targetEntityType, ds.sortedRecordIds[k.value]))
  }

  // ---------------------------------------------------------------------
  // Properties
  // ---------------------------------------------------------------------

  /** The totals are within half a cent of the exact sums and mean; sums of non-negative rows are non-negative. */
  lemma TotalsClose(items: seq<GridItem>)
    ensures var t := TotalsRow(items);
      && -1.0 / 200.0 <= t.currentYear - SumOf(items, CurrentYearOf) <= 1.0 / 200.0
      && -1.0 / 200.0 <= t.lastYear - SumOf(items, LastYearOf) <= 1.0 / 200.0
      && (|items| > 0 ==> -1.0 / 200.0 <= t.yoYProcent - SumOf(items, YoYOf) / |items| as real <= 1.0 / 200.0)
      && (items == [] ==> t.currentYear == 0.0 && t.lastYear == 0.0 && t.yoYProcent == 0.0)
      && ((forall i :: 0 <= i < |items| ==> items[i].currentYear >= 0.0) ==> t.currentYear >= 0.0)
      && TwoDecimals(t.currentYear) && TwoDecimals(t.lastYear) && TwoDecimals(t.yoYProcent)
  {
    if forall i :: 0 <= i < |items| ==> items[i].currentYear >= 0.0 {
      SumNonNegative(items);
    }
    if items == [] {
      assert RoundTo2(0.0) == 0.0;
    }
  }

  lemma {:induction false} SumNonNegative(items: seq<GridItem>)
    requires forall i :: 0 <= i < |items| ==> items[i].currentYear >= 0.0
    ensures SumOf(items, CurrentYearOf) >= 0.0
  {
    if items != [] {
      SumNonNegative(items[..|items| - 1]);
    }
  }

  /**
   * A click on a record row opens exactly the first record whose country
   * matches, when the dataset has a primary column and that id is not "".
   */
  lemma ClickOpensFirstMatch(item: GridItem, ds: DataSet, k: nat)
    requires WellFormed(ds) && item.country != "Totals" && HasPrimary(ds.columns)
    requires k < |ds.sortedRecordIds| && ds.sortedRecordIds[k] != ""
    requires RecordCountry(ds.records[ds.sortedRecordIds[k]], GetColumnName(ds.columns, "CountryField")) == item.country
    requires forall j :: 0 <= j < k ==> RecordCountry(ds.records[ds.sortedRecordIds[j]], GetColumnName(ds.columns, "CountryField")) != item.country
    ensures HandleItemClick(item, ds) == Some(OpenForm(ds.targetEntityType, ds.sortedRecordIds[k]))
  {
    var column := GetColumnName(ds.columns, "CountryField");
    var r := FindCountry(ds.sortedRecordIds, ds.records, column, item.country, 0);
    assert r.Some?;
  }

  /** A click opens nothing on the totals row, without a primary column, or when no record's country matches. */
  lemma ClickOpensNothing(item: GridItem, ds: DataSet)
    requires WellFormed(ds)
    requires item.country == "Totals" || !HasPrimary(ds.columns)
      || forall j :: 0 <= j < |ds.sortedRecordIds| ==>
           RecordCountry(ds.records[ds.sortedRecordIds[j]], GetColumnName(ds.columns, "CountryField")) != item.country
    ensures HandleItemClick(item, ds) == None
  {
    if item.country != "Totals" && HasPrimary(ds.columns) {
      var column := GetColumnName(ds.columns, "CountryField");
      assert FindCountry(ds.sortedRecordIds, ds.records, column, item.country, 0).None?;
    }
  }

  /** The trend bands are ordered: a larger change never gets a lower band. */
  lemma TrendBoxMonotone(a: real, b: real)
    requires a <= b
    ensures TrendRank(GetTrendBox(a)) <= TrendRank(GetTrendBox(b))
  {
  }

  function TrendRank(t: TrendBox): nat {
    if t.text == "Increasing" then 2 else if t.text == "Steady" then 1 else 0
  }
}
