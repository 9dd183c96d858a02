/**
 * `processProductData`: keeps the products whose SOW lookup resolves to a
 * non-empty SOW id and replaces each kept record by one whose accessors
 * answer from the three values read out of it.
 */
module ProductData {
  import opened Host
  import opened JsText
  import opened Seqs

  /**
   * The SOW id of a lookup value: for an object with an `id` key, the id
   * when it is a string, else its `guid`. Anything else has none.
   */
  function LookupSowId(v: Value): Option<string> {
    if v.Lookup? && v.id.Some? then
      match v.id.value
      case Plain(s) => Some(s)
      case Guid(g) => Some(g)
    else None
  }

  /** A product is kept when its SOW lookup resolves to a non-empty id. */
  predicate IsValidProduct(r: Record) {
    var s := LookupSowId(GetValue(r, "SOWLookupField"));
    s.Some? && s.value != ""
  }

  function ProductNameOf(r: Record): string { AsTextOr(GetValue(r, "ProductName"), "") }

  function ProductRevenueOf(r: Record): real { AsNumberOr(GetValue(r, "Revenue"), 0.0) }

  /**
   * The record that replaces a kept product: its value, formatted value and
   * named-reference accessors answer from the product name, revenue and SOW
   * id; `numToString` stands for `Number.prototype.toString`.
   */
  function RebuiltRecord(productId: string, name: string, revenue: real, sowId: string,
                         numToString: real -> string): Record {
    Record(productId,
           map["ProductName" := Str(name), "Revenue" := Num(revenue),
               "SOWLookupField" := Lookup(Some(Plain(sowId)), Some(name), Some("sow"))],
           Str(""),
           map["ProductName" := name, "Revenue" := numToString(revenue), "SOWLookupField" := sowId],
           Lookup(Some(Guid(sowId)), Some(name), Some("sow")))
  }

  /** The rebuilt record of a kept product. */
  function RebuiltProduct(productId: string, r: Record, numToString: real -> string): Record
    requires IsValidProduct(r)
  {
    RebuiltRecord(productId, ProductNameOf(r), ProductRevenueOf(r),
                  LookupSowId(GetValue(r, "SOWLookupField")).value, numToString)
  }

  function ValidIds(ids: seq<string>, records: map<string, Record>): seq<string> {
    Filter(ids, id => id in records && IsValidProduct(records[id]))
  }

  /** The dictionary of kept, rebuilt products among `ids`. */
  function ValidRecords(ids: seq<string>, records: map<string, Record>, numToString: real -> string): map<string, Record> {
    map id | id in ids && id in records && IsValidProduct(records[id]) :: RebuiltProduct(id, records[id], numToString)
  }

  /**
   * `processProductData`. A loading or failed dataset comes back as it is;
   * otherwise every listed id must have a record (the code reads it
   * without testing for it).
   */
  method ProcessProductData(ds: DataSet, numToString: real -> string) returns (out: DataSet)
    requires !ds.loading && !ds.error ==> WellFormed(ds)
    ensures ds.loading || ds.error ==> out == ds
    ensures !ds.loading && !ds.error ==>
      out == ds.(records := ValidRecords(ds.sortedRecordIds, ds.records, numToString),
                 sortedRecordIds := ObjectKeys(ValidIds(ds.sortedRecordIds, ds.records)))
  {
    if ds.loading {
      return ds;
    }
    if ds.error {
      return ds;
    }
    var ids := ds.sortedRecordIds;
    var validRecords: map<string, Record> := map[];
    var inserted: seq<string> := [];
    var i := 0;
    while i < |ids|
      invariant 0 <= i <= |ids|
      invariant validRecords == ValidRecords(ids[..i], ds.records, numToString)
      invariant inserted == ValidIds(ids[..i], ds.records)
    {
      var productId := ids[i];
      var productRecord := ds.records[productId];
      var productName := AsTextOr(GetValue(productRecord, "ProductName"), "");
      var productRevenue := AsNumberOr(GetValue(productRecord, "Revenue"), 0.0);
      var sowId := ReadSowId(GetValue(productRecord, "SOWLookupField"));
      ProductStep(ids, i, ds.records, numToString);
      if sowId != "" {
        var rebuilt := RebuiltRecord(productId, productName, productRevenue, sowId, numToString);
        assert rebuilt == RebuiltProduct(productId, productRecord, numToString);
        validRecords := validRecords[productId := rebuilt];
        inserted := inserted + [productId];
      }
      i := i + 1;
    }
    assert ids[..i] == ids;
    out := ds.(records := validRecords, sortedRecordIds := ObjectKeys(inserted));
  }

  /** The SOW id the loop reads from a lookup value, "" when it has none. */
  method ReadSowId(sowLookup: Value) returns (sowId: string)
    ensures sowId != "" <==> LookupSowId(sowLookup).Some? && LookupSowId(sowLookup).value != ""
    ensures sowId != "" ==> sowId == LookupSowId(sowLookup).value
  {
    sowId := "";
    if sowLookup.Lookup? && sowLookup.id.Some? {
      sowId := if sowLookup.id.value.Plain? then sowLookup.id.value.s else sowLookup.id.value.guid;
    }
  }

  /** One step of the loop: the next id is added to both results exactly when it is kept. */
  lemma ProductStep(ids: seq<string>, i: nat, records: map<string, Record>, numToString: real -> string)
    requires i < |ids| && ids[i] in records
    ensures var id := ids[i];
      && ValidIds(ids[..i + 1], records)
         == ValidIds(ids[..i], records) + (if IsValidProduct(records[id]) then [id] else [])
      && ValidRecords(ids[..i + 1], records, numToString)
         == if IsValidProduct(records[id])
            then ValidRecords(ids[..i], records, numToString)[id := RebuiltProduct(id, records[id], numToString)]
            else ValidRecords(ids[..i], records, numToString)
  {
    assert ids[..i + 1] == ids[..i] + [ids[i]];
    FilterAppend(ids[..i], [ids[i]], id => id in records && IsValidProduct(records[id]));
  }

  // ---------------------------------------------------------------------
  // Properties
  // ---------------------------------------------------------------------

  /** A product is kept exactly when it is listed and its SOW lookup is an object with a non-empty id. */
  lemma KeptIff(ds: DataSet, numToString: real -> string, id: string)
    requires WellFormed(ds)
    ensures id in ValidRecords(ds.sortedRecordIds, ds.records, numToString) <==>
      id in ds.sortedRecordIds && var v := GetValue(ds.records[id], "SOWLookupField");
      v.Lookup? && v.id.Some? && (v.id.value.Plain? ==> v.id.value.s != "") && (v.id.value.Guid? ==> v.id.value.guid != "")
  {
    if id in ds.sortedRecordIds {
      var k :| 0 <= k < |ds.sortedRecordIds| && ds.sortedRecordIds[k] == id;
    }
  }

  /** The rebuilt accessors answer the product's name, revenue and SOW id, and "" for any other column. */
  lemma RebuiltAccessors(productId: string, name: string, revenue: real, sowId: string,
                         numToString: real -> string, column: string)
    ensures var r := RebuiltRecord(productId, name, revenue, sowId, numToString);
      && r.recordId == productId
      && GetValue(r, column) == (if column == "ProductName" then Str(name)
                                 else if column == "Revenue" then Num(revenue)
                                 else if column == "SOWLookupField" then Lookup(Some(Plain(sowId)), Some(name), Some("sow"))
                                 else Str(""))
      && GetFormattedValue(r, column) == (if column == "ProductName" then name
                                          else if column == "Revenue" then numToString(revenue)
                                          else if column == "SOWLookupField" then sowId
                                          else "")
      && r.namedReference == Lookup(Some(Guid(sowId)), Some(name), Some("sow"))
  {
  }

  /** A rebuilt product still resolves to the same SOW id, so processing it again keeps it unchanged. */
  lemma RebuiltStaysValid(productId: string, r: Record, numToString: real -> string)
    requires IsValidProduct(r)
    ensures var r' := RebuiltProduct(productId, r, numToString);
      IsValidProduct(r') && LookupSowId(GetValue(r', "SOWLookupField")) == LookupSowId(GetValue(r, "SOWLookupField"))
      && ProductNameOf(r') == ProductNameOf(r)
  {
  }

  /** The output lists exactly its records. */
  lemma ProcessedWellFormed(ds: DataSet, numToString: real -> string)
    requires WellFormed(ds)
    ensures var recs := ValidRecords(ds.sortedRecordIds, ds.records, numToString);
      var ids := ObjectKeys(ValidIds(ds.sortedRecordIds, ds.records));
      forall id :: id in ids <==> id in recs
  {
    var recs := ValidRecords(ds.sortedRecordIds, ds.records, numToString);
    forall id ensures id in ValidIds(ds.sortedRecordIds, ds.records) <==> id in recs {
      if id in ds.sortedRecordIds {
        var k :| 0 <= k < |ds.sortedRecordIds| && ds.sortedRecordIds[k] == id;
      }
    }
  }

  /** Filtering keeps a sequence free of repeats. */
  lemma {:induction false} FilterDistinct<T(!new)>(s: seq<T>, p: T -> bool)
    requires Distinct(s)
    ensures Distinct(Filter(s, p))
  {
    if s != [] {
      var init := s[..|s| - 1];
      assert Distinct(init);
      FilterDistinct(init, p);
      assert s[|s| - 1] !in init;
    }
  }

  /**
   * With distinct ids none of which is an array index, the output ids are
   * the kept ids in their original relative order.
   */
  lemma KeptOrder(ds: DataSet)
    requires Distinct(ds.sortedRecordIds)
    requires forall i :: 0 <= i < |ds.sortedRecordIds| ==> !IsIndexKey(ds.sortedRecordIds[i])
    ensures var out := ObjectKeys(ValidIds(ds.sortedRecordIds, ds.records));
      out == ValidIds(ds.sortedRecordIds, ds.records) && Subseq(out, ds.sortedRecordIds)
  {
    var ids := ds.sortedRecordIds;
    var v := ValidIds(ids, ds.records);
    FilterDistinct(ids, id => id in ds.records && IsValidProduct(ds.records[id]));
    forall i | 0 <= i < |v| ensures !IsIndexKey(v[i]) {
      assert v[i] in ids;
    }
    ObjectKeysOfNames(v);
    DedupOfDistinct(v);
    FilterIsSubseq(ids, id => id in ds.records && IsValidProduct(ds.records[id]));
  }
}
