/**
 * `processProductDataForChart`: the bar chart of product revenue per
 * country. Each SOW gives a country; each product record whose SOW has a
 * country adds its revenue to its (product, country) cell; the chart has a
 * label per country and a data column per product.
 */
module ProductChart {
  import opened Host
  import opened JsText
  import opened Seqs

  /** `normalizeCountryName`: surrounding white space removed. */
  function NormalizeCountryName(name: string): (r: string)
    ensures exists i, j :: 0 <= i <= j <= |name| && r == name[i..j] && AllSpace(name[..i]) && AllSpace(name[j..])
    ensures r != [] ==> !IsSpace(r[0]) && !IsSpace(r[|r| - 1])
  {
    TrimSplitsInput(name);
    Trim(name)
  }

  /** Normalising twice is normalising once. */
  lemma NormalizeIdempotent(name: string)
    ensures NormalizeCountryName(NormalizeCountryName(name)) == NormalizeCountryName(name)
  {
    TrimIdempotent(name);
  }

  // ---------------------------------------------------------------------
  // SOW -> country
  // ---------------------------------------------------------------------

  /**
   * The country a SOW record names: a lookup object's name, else a string
   * value, else the formatted value; normalised.
   */
  function CountryNameOf(r: Record, countryField: string): string {
    NormalizeCountryName(CountryText(r, countryField))
  }

  /** The text a SOW record's country is read from, before normalising. */
  function CountryText(r: Record, countryField: string): string {
    var v := GetValue(r, countryField);
    if v.Lookup? && v.name.Some? then v.name.value
    else if v.Str? then v.s
    else GetFormattedValue(r, countryField)
  }

  /** The SOW id to country dictionary built from `ids`: only non-empty names, a later entry replacing an earlier. */
  function SowCountries(ids: seq<string>, records: map<string, Record>, countryField: string): map<string, string> {
    if ids == [] then map[]
    else
      var id := ids[|ids| - 1];
      var m := SowCountries(ids[..|ids| - 1], records, countryField);
      if id in records && CountryNameOf(records[id], countryField) != "" then m[id := CountryNameOf(records[id], countryField)]
      else m
  }

  /** The country names in the order they are added to `countryNamesSet`. */
  function CountryInserts(ids: seq<string>, records: map<string, Record>, countryField: string): seq<string> {
    if ids == [] then []
    else
      var id := ids[|ids| - 1];
      CountryInserts(ids[..|ids| - 1], records, countryField)
      + (if id in records && CountryNameOf(records[id], countryField) != "" then [CountryNameOf(records[id], countryField)] else [])
  }

  /** Every stored country name is non-empty and already normalised, and was added to the name list. */
  lemma {:induction false} SowCountriesNormalised(ids: seq<string>, records: map<string, Record>, countryField: string)
    ensures forall id :: id in SowCountries(ids, records, countryField) ==>
      var name := SowCountries(ids, records, countryField)[id];
      name != "" && NormalizeCountryName(name) == name && name in CountryInserts(ids, records, countryField)
  {
    if ids != [] {
      var init := ids[..|ids| - 1];
      SowCountriesNormalised(init, records, countryField);
      var id := ids[|ids| - 1];
      var m0, m := SowCountries(init, records, countryField), SowCountries(ids, records, countryField);
      assert forall x :: x in CountryInserts(init, records, countryField) ==> x in CountryInserts(ids, records, countryField);
      if id in records && CountryNameOf(records[id], countryField) != "" {
        var n := CountryNameOf(records[id], countryField);
        assert m == m0[id := n];
        assert n in CountryInserts(ids, records, countryField);
        NormalizeIdempotent(CountryText(records[id], countryField));
        forall k | k in m ensures m[k] != "" && NormalizeCountryName(m[k]) == m[k] && m[k] in CountryInserts(ids, records, countryField) {
          if k != id {
            assert k in m0 && m[k] == m0[k];
          }
        }
      } else {
        assert m == m0;
      }
    }
  }

  /** A SOW id is in the dictionary exactly when some record listed under it names a country. */
  lemma {:induction false} SowCountriesDomain(ids: seq<string>, records: map<string, Record>, countryField: string, id: string)
    ensures id in SowCountries(ids, records, countryField) <==>
      id in ids && id in records && CountryNameOf(records[id], countryField) != ""
  {
    if ids != [] {
      SowCountriesDomain(ids[..|ids| - 1], records, countryField, id);
      assert ids == ids[..|ids| - 1] + [ids[|ids| - 1]];
    }
  }

  lemma SowStep(ids: seq<string>, records: map<string, Record>, countryField: string, i: nat)
    requires i < |ids|
    ensures var id := ids[i];
      var ok := id in records && CountryNameOf(records[id], countryField) != "";
      && SowCountries(ids[..i + 1], records, countryField)
         == (if ok then SowCountries(ids[..i], records, countryField)[id := CountryNameOf(records[id], countryField)]
             else SowCountries(ids[..i], records, countryField))
      && CountryInserts(ids[..i + 1], records, countryField)
         == CountryInserts(ids[..i], records, countryField) + (if ok then [CountryNameOf(records[id], countryField)] else [])
  {
    assert ids[..i + 1][..i] == ids[..i];
  }

  /** One step of the first loop, on the dictionary and on the set of names. */
  lemma SowLoopStep(ids: seq<string>, records: map<string, Record>, countryField: string, i: nat,
                    m: map<string, string>, names: seq<string>)
    requires i < |ids| && ids[i] in records
    requires m == SowCountries(ids[..i], records, countryField)
    requires names == Dedup(CountryInserts(ids[..i], records, countryField))
    ensures var n := CountryNameOf(records[ids[i]], countryField);
      && SowCountries(ids[..i + 1], records, countryField) == (if n != "" then m[ids[i] := n] else m)
      && Dedup(CountryInserts(ids[..i + 1], records, countryField)) == (if n != "" && n !in names then names + [n] else names)
  {
    var n := CountryNameOf(records[ids[i]], countryField);
    SowStep(ids, records, countryField, i);
    var before := CountryInserts(ids[..i], records, countryField);
    if n != "" {
      DedupSnoc(before, n);
    } else {
      assert before + [] == before;
    }
  }

  /** The country name of one SOW record, as the first loop's body reads it. */
  method ReadCountryName(sowRecord: Record, countryField: string) returns (countryName: string)
    ensures countryName == CountryNameOf(sowRecord, countryField)
  {
    var countryValue := GetValue(sowRecord, countryField);
    if countryValue.Lookup? && countryValue.name.Some? {
      countryName := NormalizeCountryName(countryValue.name.value);
    } else if countryValue.Str? {
      countryName := NormalizeCountryName(countryValue.s);
    } else {
      countryName := NormalizeCountryName(GetFormattedValue(sowRecord, countryField));
    }
  }

  /** The first loop: the SOW to country dictionary and the distinct names in first-seen order. */
  method BuildSowCountryMap(sowDataset: DataSet, countryField: string)
      returns (sowCountryMap: map<string, string>, countryNames: seq<string>)
    requires WellFormed(sowDataset)
    ensures sowCountryMap == SowCountries(sowDataset.sortedRecordIds, sowDataset.records, countryField)
    ensures countryNames == Dedup(CountryInserts(sowDataset.sortedRecordIds, sowDataset.records, countryField))
  {
    var ids := sowDataset.sortedRecordIds;
    sowCountryMap, countryNames := map[], [];
    var i := 0;
    while i < |ids|
      invariant 0 <= i <= |ids|
      invariant sowCountryMap == SowCountries(ids[..i], sowDataset.records, countryField)
      invariant countryNames == Dedup(CountryInserts(ids[..i], sowDataset.records, countryField))
    {
      var sowRecordId := ids[i];
      SowLoopStep(ids, sowDataset.records, countryField, i, sowCountryMap, countryNames);
      var sowRecord := sowDataset.records[sowRecordId];
      var countryName := ReadCountryName(sowRecord, countryField);
      if countryName != "" {
        sowCountryMap := sowCountryMap[sowRecordId := countryName];
        if countryName !in countryNames {
          countryNames := countryNames + [countryName];
        }
      }
      i := i + 1;
    }
    assert ids[..i] == ids;
  }

  // ---------------------------------------------------------------------
  // Product x country sums
  // ---------------------------------------------------------------------

  /** What one product record contributes to the chart. */
  datatype Sale = Sale(product: string, country: string, revenue: real)

  /** The SOW id of a product's lookup: the string id, or the `guid` (falsy read as ""); None when not an object with an id. */
  function ProductSowId(v: Value): Option<string> {
    if v.Lookup? && v.id.Some? then
      Some(if v.id.value.Plain? then v.id.value.s else v.id.value.guid)
    else None
  }

  /**
   * The sale of a product record: none when its lookup is not an object
   * with an id or its SOW has no country; otherwise its name (default
   * "Unknown Product"), the SOW's country and its revenue (falsy read as 0).
   */
  function SaleOf(r: Record, sowCountryMap: map<string, string>): Option<Sale> {
    var sowId := ProductSowId(GetValue(r, "SOWLookupField"));
    if sowId.None? || sowId.value !in sowCountryMap || sowCountryMap[sowId.value] == "" then None
    else Some(Sale(AsTextOr(GetValue(r, "ProductName"), "Unknown Product"), sowCountryMap[sowId.value],
                   AsNumberOr(GetValue(r, "Revenue"), 0.0)))
  }

  /** The sales of the listed product records, in order. */
  function Sales(ids: seq<string>, records: map<string, Record>, sowCountryMap: map<string, string>): seq<Sale> {
    if ids == [] then []
    else
      var id := ids[|ids| - 1];
      var rest := Sales(ids[..|ids| - 1], records, sowCountryMap);
      if id in records && SaleOf(records[id], sowCountryMap).Some? then rest + [SaleOf(records[id], sowCountryMap).value]
      else rest
  }

  function ProductsOf(sales: seq<Sale>): (r: seq<string>)
    ensures |r| == |sales|
  {
    if sales == [] then [] else ProductsOf(sales[..|sales| - 1]) + [sales[|sales| - 1].product]
  }

  /** The countries product `p` has a sale in. */
  function CountriesOf(sales: seq<Sale>, p: string): set<string> {
    if sales == [] then {}
    else
      var s := sales[|sales| - 1];
      CountriesOf(sales[..|sales| - 1], p) + (if s.product == p then {s.country} else {})
  }

  /** The summed revenue of product `p` in country `c`. */
  function CellRevenue(sales: seq<Sale>, p: string, c: string): real {
    if sales == [] then 0.0
    else
      var s := sales[|sales| - 1];
      CellRevenue(sales[..|sales| - 1], p, c) + (if s.product == p && s.country == c then s.revenue else 0.0)
  }

  /** The row of `productMap` for product `p`. */
  function RowOf(sales: seq<Sale>, p: string): map<string, real> {
    map c | c in CountriesOf(sales, p) :: CellRevenue(sales, p, c)
  }

  /** The pivot `productMap`: one row per product that has a sale. */
  function Pivot(sales: seq<Sale>): map<string, map<string, real>> {
    map p | p in ProductsOf(sales) :: RowOf(sales, p)
  }

  lemma {:induction false} ProductsOfMembers(sales: seq<Sale>, p: string)
    ensures p in ProductsOf(sales) <==> exists i :: 0 <= i < |sales| && sales[i].product == p
  {
    if sales != [] {
      var init := sales[..|sales| - 1];
      ProductsOfMembers(init, p);
      if exists i :: 0 <= i < |init| && init[i].product == p {
        var i :| 0 <= i < |init| && init[i].product == p;
        assert sales[i] == init[i];
      }
      if exists i :: 0 <= i < |sales| && sales[i].product == p {
        var i :| 0 <= i < |sales| && sales[i].product == p;
        if i < |init| {
          assert init[i] == sales[i];
        }
      }
    }
  }

  lemma {:induction false} CountriesOfProduct(sales: seq<Sale>, p: string)
    requires CountriesOf(sales, p) != {}
    ensures p in ProductsOf(sales)
  {
    var init := sales[..|sales| - 1];
    if sales[|sales| - 1].product != p {
      CountriesOfProduct(init, p);
    }
  }

  lemma {:induction false} CellOutside(sales: seq<Sale>, p: string, c: string)
    requires c !in CountriesOf(sales, p)
    ensures CellRevenue(sales, p, c) == 0.0
  {
    if sales != [] {
      CellOutside(sales[..|sales| - 1], p, c);
    }
  }

  /** One product record's update of `productMap`, as the source writes it. */
  function AddSale(pm: map<string, map<string, real>>, s: Sale): map<string, map<string, real>> {
    var row := if s.product in pm then pm[s.product] else map[];
    var sum := if s.country in row then row[s.country] else 0.0;
    pm[s.product := row[s.country := sum + s.revenue]]
  }

  lemma PivotStep(sales: seq<Sale>, s: Sale)
    ensures Pivot(sales + [s]) == AddSale(Pivot(sales), s)
  {
    var sales' := sales + [s];
    assert sales'[..|sales'| - 1] == sales;
    var a, b := Pivot(sales'), AddSale(Pivot(sales), s);
    assert a.Keys == b.Keys;
    forall p | p in a ensures a[p] == b[p] {
      if p == s.product {
        RowStepHit(sales, s);
      } else {
        RowStepOther(sales, s, p);
      }
    }
  }

  /** A sale of another product leaves a row as it was. */
  lemma RowStepOther(sales: seq<Sale>, s: Sale, p: string)
    requires p != s.product
    ensures RowOf(sales + [s], p) == RowOf(sales, p)
  {
    assert (sales + [s])[..|sales|] == sales;
  }

  /** A sale adds its revenue to its own row's cell, opening row and cell when missing. */
  lemma RowStepHit(sales: seq<Sale>, s: Sale)
    ensures var pm := Pivot(sales);
      var row := if s.product in pm then pm[s.product] else map[];
      var sum := if s.country in row then row[s.country] else 0.0;
      RowOf(sales + [s], s.product) == row[s.country := sum + s.revenue]
  {
    var p := s.product;
    var sales' := sales + [s];
    assert sales'[..|sales'| - 1] == sales;
    var pm := Pivot(sales);
    var row := if p in pm then pm[p] else map[];
    if p !in pm {
      assert CountriesOf(sales, p) == {} by {
        if CountriesOf(sales, p) != {} {
          CountriesOfProduct(sales, p);
        }
      }
    }
    assert row == RowOf(sales, p);
    var sum := if s.country in row then row[s.country] else 0.0;
    if s.country !in row {
      CellOutside(sales, p, s.country);
    }
    var a, b := RowOf(sales', p), row[s.country := sum + s.revenue];
    assert a.Keys == b.Keys;
    forall c | c in a ensures a[c] == b[c] {
      if c !in CountriesOf(sales, p) {
        CellOutside(sales, p, c);
      }
    }
  }

  lemma SalesStep(ids: seq<string>, records: map<string, Record>, sowCountryMap: map<string, string>, i: nat)
    requires i < |ids|
    ensures var id := ids[i];
      Sales(ids[..i + 1], records, sowCountryMap)
      == Sales(ids[..i], records, sowCountryMap)
         + (if id in records && SaleOf(records[id], sowCountryMap).Some? then [SaleOf(records[id], sowCountryMap).value] else [])
  {
    assert ids[..i + 1][..i] == ids[..i];
  }

  lemma ProductsSnoc(sales: seq<Sale>, s: Sale)
    ensures ProductsOf(sales + [s]) == ProductsOf(sales) + [s.product]
  {
    assert (sales + [s])[..|sales|] == sales;
  }

  /** One step of the second loop, on the product names and on the pivot. */
  lemma ProductLoopStep(ids: seq<string>, records: map<string, Record>, sowCountryMap: map<string, string>, i: nat,
                        names: seq<string>, pm: map<string, map<string, real>>)
    requires i < |ids| && ids[i] in records
    requires names == Dedup(ProductsOf(Sales(ids[..i], records, sowCountryMap)))
    requires pm == Pivot(Sales(ids[..i], records, sowCountryMap))
    ensures var sale := SaleOf(records[ids[i]], sowCountryMap);
      var sales' := Sales(ids[..i + 1], records, sowCountryMap);
      && Dedup(ProductsOf(sales')) == (if sale.Some? && sale.value.product !in names then names + [sale.value.product] else names)
      && Pivot(sales') == (if sale.Some? then AddSale(pm, sale.value) else pm)
  {
    SalesStep(ids, records, sowCountryMap, i);
    var sales := Sales(ids[..i], records, sowCountryMap);
    var sale := SaleOf(records[ids[i]], sowCountryMap);
    if sale.Some? {
      ProductsSnoc(sales, sale.value);
      DedupSnoc(ProductsOf(sales), sale.value.product);
      PivotStep(sales, sale.value);
    } else {
      assert sales + [] == sales;
    }
  }

  /** The second loop: the product names in first-seen order and the pivot of the sales. */
  method AccumulateProducts(productData: DataSet, sowCountryMap: map<string, string>)
      returns (productNames: seq<string>, productMap: map<string, map<string, real>>)
    requires WellFormed(productData)
    ensures var sales := Sales(productData.sortedRecordIds, productData.records, sowCountryMap);
      productNames == Dedup(ProductsOf(sales)) && productMap == Pivot(sales)
  {
    var ids := productData.sortedRecordIds;
    productNames, productMap := [], map[];
    var i := 0;
    while i < |ids|
      invariant 0 <= i <= |ids|
      invariant productNames == Dedup(ProductsOf(Sales(ids[..i], productData.records, sowCountryMap)))
      invariant productMap == Pivot(Sales(ids[..i], productData.records, sowCountryMap))
    {
      var recordId := ids[i];
      ProductLoopStep(ids, productData.records, sowCountryMap, i, productNames, productMap);
      var record := productData.records[recordId];
      var sale := ReadSale(record, sowCountryMap);
      if sale.Some? {
        var productName := sale.value.product;
        if productName !in productNames {
          productNames := productNames + [productName];
        }
        productMap := AddToProductMap(productMap, productName, sale.value.country, sale.value.revenue);
      }
      i := i + 1;
    }
    assert ids[..i] == ids;
  }

  /** The second loop's reading of one product record: its SOW id, the SOW's country, its name and revenue. */
  method ReadSale(record: Record, sowCountryMap: map<string, string>) returns (sale: Option<Sale>)
    ensures sale == SaleOf(record, sowCountryMap)
  {
    sale := None;
    var sowLookup := GetValue(record, "SOWLookupField");
    if sowLookup.Lookup? && sowLookup.id.Some? {
      var sowId := if sowLookup.id.value.Plain? then sowLookup.id.value.s else sowLookup.id.value.guid;
      if sowId in sowCountryMap && sowCountryMap[sowId] != "" {
        var country := sowCountryMap[sowId];
        var productName := AsTextOr(GetValue(record, "ProductName"), "Unknown Product");
        var revenue := AsNumberOr(GetValue(record, "Revenue"), 0.0);
        sale := Some(Sale(productName, country, revenue));
      }
    }
  }

  /** `productMap[productName][country] += revenue`, opening the row and the cell at 0 when missing. */
  method AddToProductMap(pm: map<string, map<string, real>>, productName: string, country: string, revenue: real)
      returns (productMap: map<string, map<string, real>>)
    ensures productMap == AddSale(pm, Sale(productName, country, revenue))
  {
    productMap := pm;
    if productName !in productMap {
      productMap := productMap[productName := map[]];
    }
    if country !in productMap[productName] || productMap[productName][country] == 0.0 {
      productMap := productMap[productName := productMap[productName][country := 0.0]];
    }
    productMap := productMap[productName := productMap[productName][country := productMap[productName][country] + revenue]];
    ghost var row := if productName in pm then pm[productName] else map[];
    ghost var sum := if country in row then row[country] else 0.0;
    assert productMap[productName] == row[country := sum + revenue];
  }

  /** A product record contributes nothing when its lookup has no id or its SOW has no country. */
  lemma NoSaleWithoutCountry(r: Record, sowCountryMap: map<string, string>)
    ensures var v := GetValue(r, "SOWLookupField");
      !(v.Lookup? && v.id.Some?) ==> SaleOf(r, sowCountryMap).None?
    ensures var v := ProductSowId(GetValue(r, "SOWLookupField"));
      v.Some? && v.value !in sowCountryMap ==> SaleOf(r, sowCountryMap).None?
  {
  }

  /** A cell holds the revenue of the sales of its product and country, and exists iff one of them does. */
  lemma PivotCell(sales: seq<Sale>, p: string, c: string)
    ensures var pm := Pivot(sales);
      (p in pm && c in pm[p]) <==> exists i :: 0 <= i < |sales| && sales[i].product == p && sales[i].country == c
    ensures var pm := Pivot(sales);
      p in pm && c in pm[p] ==> pm[p][c] == CellRevenue(sales, p, c)
  {
    CountriesOfMembers(sales, p, c);
    if c in CountriesOf(sales, p) {
      CountriesOfProduct(sales, p);
    }
  }

  lemma {:induction false} CountriesOfMembers(sales: seq<Sale>, p: string, c: string)
    ensures c in CountriesOf(sales, p) <==> exists i :: 0 <= i < |sales| && sales[i].product == p && sales[i].country == c
  {
    if sales != [] {
      var init := sales[..|sales| - 1];
      CountriesOfMembers(init, p, c);
      if exists i :: 0 <= i < |init| && init[i].product == p && init[i].country == c {
        var i :| 0 <= i < |init| && init[i].product == p && init[i].country == c;
        assert sales[i] == init[i];
      }
      if exists i :: 0 <= i < |sales| && sales[i].product == p && sales[i].country == c {
        var i :| 0 <= i < |sales| && sales[i].product == p && sales[i].country == c;
        if i < |init| {
          assert init[i] == sales[i];
        }
      }
    }
  }

  // ---------------------------------------------------------------------
  // Labels and datasets
  // ---------------------------------------------------------------------

  /** Some product has a positive revenue in country `c`. */
  predicate HasRevenue(pm: map<string, map<string, real>>, c: string) {
    exists p :: p in pm && c in pm[p] && pm[p][c] > 0.0
  }

  /** The chart's labels: every country, or only those with revenue. */
  function ChartLabels(countryNames: seq<string>, pm: map<string, map<string, real>>, showCountriesWithoutRevenue: bool): seq<string> {
    if showCountriesWithoutRevenue then countryNames else Filter(countryNames, c => HasRevenue(pm, c))
  }

  /** Filtered labels keep their order, and a label is kept exactly when some product earned in that country. */
  lemma ChartLabelsSpec(countryNames: seq<string>, pm: map<string, map<string, real>>, show: bool)
    ensures Subseq(ChartLabels(countryNames, pm, show), countryNames)
    ensures show ==> ChartLabels(countryNames, pm, show) == countryNames
    ensures !show ==> forall c :: c in ChartLabels(countryNames, pm, show) <==> c in countryNames && HasRevenue(pm, c)
  {
    if show {
      SubseqRefl(countryNames);
    } else {
      FilterIsSubseq(countryNames, c => HasRevenue(pm, c));
    }
  }

  lemma {:induction false} SubseqRefl<T>(s: seq<T>)
    ensures Subseq(s, s)
  {
    if s != [] {
      SubseqRefl(s[..|s| - 1]);
    }
  }

  /** The seven colours the datasets cycle through. */
  const ColorPalette: seq<string> := [
    "rgba(54, 162, 235, 0.6)",
    "rgba(255, 99, 132, 0.6)",
    "rgba(255, 159, 64, 0.6)",
    "rgba(75, 192, 192, 0.6)",
    "rgba(153, 102, 255, 0.6)",
    "rgba(255, 205, 86, 0.6)",
    "rgba(201, 203, 207, 0.6)"
  ]

  /** One bar series: a product's revenue per label, null where it has none. */
  datatype BarDataset = BarDataset(labelText: string, data: seq<Option<real>>, backgroundColor: string)

  datatype ChartData = ChartData(labels: seq<string>, datasets: seq<BarDataset>)

  /** The value drawn for product `p` at country `c`: a positive revenue, else null. */
  function Cell(pm: map<string, map<string, real>>, p: string, c: string): Option<real> {
    if p in pm && c in pm[p] && pm[p][c] > 0.0 then Some(pm[p][c]) else None
  }

  /** `new Array(labels.length).fill(null)` filled in by `labels.forEach`. */
  method DataColumn(pm: map<string, map<string, real>>, productName: string, labels: seq<string>)
      returns (data: seq<Option<real>>)
    ensures |data| == |labels|
    ensures forall i :: 0 <= i < |labels| ==> data[i] == Cell(pm, productName, labels[i])
  {
    var a := new Option<real>[|labels|](_ => None);
    var countryIndex := 0;
    while countryIndex < |labels|
      invariant 0 <= countryIndex <= |labels|
      invariant forall i :: 0 <= i < countryIndex ==> a[i] == Cell(pm, productName, labels[i])
      invariant forall i :: countryIndex <= i < |labels| ==> a[i] == None
    {
      var country := labels[countryIndex];
      if productName in pm && country in pm[productName] {
        var revenue := pm[productName][country];
        if revenue > 0.0 {
          a[countryIndex] := Some(revenue);
        }
      }
      countryIndex := countryIndex + 1;
    }
    data := a[..];
  }

  /** The datasets `processProductDataForChart` emits for `productNames`. */
  function Datasets(productNames: seq<string>, labels: seq<string>, pm: map<string, map<string, real>>): (r: seq<BarDataset>)
    ensures |r| == |productNames|
  {
    if productNames == [] then []
    else
      var k := |productNames| - 1;
      Datasets(productNames[..k], labels, pm)
      + [BarDataset(productNames[k], seq(|labels|, i requires 0 <= i < |labels| => Cell(pm, productNames[k], labels[i])),
                    ColorPalette[k % |ColorPalette|])]
  }

  /** Dataset `k` is product `k`'s column over the labels, coloured by the palette cyclically. */
  lemma {:induction false} DatasetsSpec(productNames: seq<string>, labels: seq<string>, pm: map<string, map<string, real>>, k: nat)
    requires k < |productNames|
    ensures var d := Datasets(productNames, labels, pm)[k];
      && d.labelText == productNames[k]
      && d.backgroundColor == ColorPalette[k % 7]
      && |d.data| == |labels|
      && forall i :: 0 <= i < |labels| ==> d.data[i] == Cell(pm, productNames[k], labels[i])
  {
    if k < |productNames| - 1 {
      DatasetsSpec(productNames[..|productNames| - 1], labels, pm, k);
      assert productNames[..|productNames| - 1][k] == productNames[k];
    }
  }

  /** A drawn value is the pivot's positive revenue for that product and label; null means none. */
  lemma CellMeaning(pm: map<string, map<string, real>>, p: string, c: string)
    ensures Cell(pm, p, c).Some? <==> p in pm && c in pm[p] && pm[p][c] > 0.0
    ensures Cell(pm, p, c).Some? ==> Cell(pm, p, c).value == pm[p][c] && pm[p][c] > 0.0
  {
  }

  /** The label filter: keep the countries some product earned in, unless all are shown. */
  method FilterLabels(countryNames: seq<string>, productMap: map<string, map<string, real>>, showCountriesWithoutRevenue: bool)
      returns (labels: seq<string>)
    ensures labels == ChartLabels(countryNames, productMap, showCountriesWithoutRevenue)
  {
    labels := countryNames;
    if !showCountriesWithoutRevenue {
      var countriesWithRevenue := set p, c | p in productMap && c in productMap[p] && productMap[p][c] > 0.0 :: c;
      labels := Filter(labels, c => c in countriesWithRevenue);
      FilterSame(countryNames, c => c in countriesWithRevenue, c => HasRevenue(productMap, c));
    }
  }

  /** `productNames.forEach`: one dataset per product, coloured by its index. */
  method BuildDatasets(productNames: seq<string>, labels: seq<string>, productMap: map<string, map<string, real>>)
      returns (datasets: seq<BarDataset>)
    ensures datasets == Datasets(productNames, labels, productMap)
  {
    datasets := [];
    var index := 0;
    while index < |productNames|
      invariant 0 <= index <= |productNames|
      invariant datasets == Datasets(productNames[..index], labels, productMap)
    {
      var productName := productNames[index];
      var data := DataColumn(productMap, productName, labels);
      assert productNames[..index + 1][..index] == productNames[..index];
      assert data == seq(|labels|, i requires 0 <= i < |labels| => Cell(productMap, productName, labels[i]));
      datasets := datasets + [BarDataset(productName, data, ColorPalette[index % |ColorPalette|])];
      index := index + 1;
    }
    assert productNames[..index] == productNames;
  }

  /** `processProductDataForChart`. */
  method ProcessProductDataForChart(productData: DataSet, sowDataset: DataSet, countryField: string,
                                    showCountriesWithoutRevenue: bool)
      returns (chart: ChartData)
    requires WellFormed(productData) && WellFormed(sowDataset)
    ensures var scm := SowCountries(sowDataset.sortedRecordIds, sowDataset.records, countryField);
      var sales := Sales(productData.sortedRecordIds, productData.records, scm);
      var labels := ChartLabels(Dedup(CountryInserts(sowDataset.sortedRecordIds, sowDataset.records, countryField)),
                                Pivot(sales), showCountriesWithoutRevenue);
      chart == ChartData(labels, Datasets(Dedup(ProductsOf(sales)), labels, Pivot(sales)))
  {
    var sowCountryMap, countryNames := BuildSowCountryMap(sowDataset, countryField);
    var productNames, productMap := AccumulateProducts(productData, sowCountryMap);
    var labels := FilterLabels(countryNames, productMap, showCountriesWithoutRevenue);
    var datasets := BuildDatasets(productNames, labels, productMap);
    chart := ChartData(labels, datasets);
  }

  /** Two predicates that agree on every element filter alike. */
  lemma {:induction false} FilterSame<T(!new)>(s: seq<T>, p: T -> bool, q: T -> bool)
    requires forall x :: p(x) == q(x)
    ensures Filter(s, p) == Filter(s, q)
  {
    if s != [] {
      FilterSame(s[..|s| - 1], p, q);
    }
  }
}
