/**
 * `getUniqueCountries` and `getUniqueRegions`: the dropdown options of a
 * dataset column. The two functions of the source differ only in the
 * column they read, so both are `UniqueOptions` applied to their field.
 */
module Dropdowns {
  import opened Host
  import opened Seqs

  /** A dropdown option `{ key, text }`; the text is whatever the column held. */
  datatype DropdownOption = DropdownOption(key: Value, text: Value)

  /**
   * What one record contributes: the name of a lookup object that has one,
   * else the raw value; null and the empty string contribute nothing.
   */
  function OptionText(v: Value): (r: Option<Value>)
    ensures r.Some? ==> r.value != Null && r.value != Str("")
    ensures v.Lookup? && v.name.Some? && v.name.value != "" ==> r == Some(Str(v.name.value))
    ensures !v.Lookup? && v != Null && v != Str("") ==> r == Some(v)
  {
    var shown := if v.Lookup? && v.name.Some? then Str(v.name.value) else v;
    if shown == Null || shown == Str("") then None else Some(shown)
  }

  /** The contributions of the listed records in list order; ids without a record contribute nothing. */
  function Candidates(ids: seq<string>, records: map<string, Record>, field: string): seq<Value> {
    if ids == [] then []
    else
      Candidates(ids[..|ids| - 1], records, field) + Contribution(ids[|ids| - 1], records, field)
  }

  /** The contribution of one listed id: its record's text, if it has a record and the record shows one. */
  function Contribution(id: string, records: map<string, Record>, field: string): seq<Value> {
    if id in records && OptionText(GetValue(records[id], field)).Some?
    then [OptionText(GetValue(records[id], field)).value] else []
  }

  /** One option per distinct contribution, in first-seen order. */
  function OptionsOf(texts: seq<Value>): (r: seq<DropdownOption>)
    ensures |r| == |texts|
    ensures forall i :: 0 <= i < |r| ==> r[i] == DropdownOption(texts[i], texts[i])
  {
    if texts == [] then []
    else OptionsOf(texts[..|texts| - 1]) + [DropdownOption(texts[|texts| - 1], texts[|texts| - 1])]
  }

  /**
   * The options of column `field`. An empty field name or a missing dataset
   * gives none.
   */
  function UniqueOptions(ds: Option<DataSet>, field: string): (r: seq<DropdownOption>)
    ensures field == "" || ds.None? ==> r == []
    ensures ds.Some? ==> |r| <= |ds.value.sortedRecordIds|
    ensures forall i :: 0 <= i < |r| ==> r[i].key == r[i].text && r[i].text != Null && r[i].text != Str("")
    ensures forall i, j :: 0 <= i < j < |r| ==> r[i].text != r[j].text
  {
    if field == "" || ds.None? then []
    else
      var c := Candidates(ds.value.sortedRecordIds, ds.value.records, field);
      CandidatesLength(ds.value.sortedRecordIds, ds.value.records, field);
      CandidatesShown(ds.value.sortedRecordIds, ds.value.records, field);
      var d := Dedup(c);
      assert forall i :: 0 <= i < |d| ==> d[i] in d;
      OptionsOf(d)
  }

  // ---------------------------------------------------------------------
  // Properties
  // ---------------------------------------------------------------------

  lemma {:induction false} CandidatesLength(ids: seq<string>, records: map<string, Record>, field: string)
    ensures |Candidates(ids, records, field)| <= |ids|
  {
    if ids != [] {
      CandidatesLength(ids[..|ids| - 1], records, field);
    }
  }

  /** Every contribution is neither null nor the empty string. */
  lemma {:induction false} CandidatesShown(ids: seq<string>, records: map<string, Record>, field: string)
    ensures forall v :: v in Candidates(ids, records, field) ==> v != Null && v != Str("")
  {
    if ids != [] {
      CandidatesShown(ids[..|ids| - 1], records, field);
    }
  }

  /** A value is contributed exactly when some listed record with a record behind it shows it. */
  lemma {:induction false} CandidatesMembers(ids: seq<string>, records: map<string, Record>, field: string, v: Value)
    ensures v in Candidates(ids, records, field) <==>
      exists i :: 0 <= i < |ids| && ids[i] in records && OptionText(GetValue(records[ids[i]], field)) == Some(v)
  {
    if ids != [] {
      var init := ids[..|ids| - 1];
      CandidatesMembers(init, records, field, v);
      if exists i :: 0 <= i < |init| && init[i] in records && OptionText(GetValue(records[init[i]], field)) == Some(v) {
        var i :| 0 <= i < |init| && init[i] in records && OptionText(GetValue(records[init[i]], field)) == Some(v);
        assert ids[i] == init[i];
      }
      if exists i :: 0 <= i < |ids| && ids[i] in records && OptionText(GetValue(records[ids[i]], field)) == Some(v) {
        var i :| 0 <= i < |ids| && ids[i] in records && OptionText(GetValue(records[ids[i]], field)) == Some(v);
        if i < |init| {
          assert init[i] == ids[i];
        }
      }
    }
  }

  /** The option texts are exactly the values some listed record shows. */
  lemma OptionsMembers(ds: DataSet, field: string, v: Value)
    requires field != ""
    ensures (exists i :: 0 <= i < |UniqueOptions(Some(ds), field)| && UniqueOptions(Some(ds), field)[i].text == v) <==>
      exists k :: 0 <= k < |ds.sortedRecordIds| && ds.sortedRecordIds[k] in ds.records
        && OptionText(GetValue(ds.records[ds.sortedRecordIds[k]], field)) == Some(v)
  {
    var c := Candidates(ds.sortedRecordIds, ds.records, field);
    var d := Dedup(c);
    var r := UniqueOptions(Some(ds), field);
    assert r == OptionsOf(d);
    CandidatesMembers(ds.sortedRecordIds, ds.records, field, v);
    if v in d {
      var i :| 0 <= i < |d| && d[i] == v;
      assert r[i].text == v;
    }
  }

  /** The options come in the order in which their texts first appear among the records. */
  lemma OptionsOrder(ds: DataSet, field: string)
    requires field != ""
    ensures var c := Candidates(ds.sortedRecordIds, ds.records, field);
      var r := UniqueOptions(Some(ds), field);
      forall i, j :: 0 <= i < j < |r| ==> r[i].text in c && r[j].text in c && FirstIndex(c, r[i].text) < FirstIndex(c, r[j].text)
  {
    var c := Candidates(ds.sortedRecordIds, ds.records, field);
    var d := Dedup(c);
    DedupOrder(c);
    var r := UniqueOptions(Some(ds), field);
    assert r == OptionsOf(d);
    forall i, j | 0 <= i < j < |r| ensures r[i].text in c && r[j].text in c && FirstIndex(c, r[i].text) < FirstIndex(c, r[j].text) {
      assert r[i].text == d[i] && r[j].text == d[j];
      assert d[i] in d && d[j] in d;
    }
  }

  /** Records listed without a record behind them are skipped, as if they were not listed. */
  lemma {:induction false} MissingRecordsSkipped(ids: seq<string>, records: map<string, Record>, field: string)
    ensures Candidates(ids, records, field) == Candidates(Filter(ids, id => id in records), records, field)
  {
    if ids != [] {
      var init, id := ids[..|ids| - 1], ids[|ids| - 1];
      MissingRecordsSkipped(init, records, field);
      var f := Filter(init, id => id in records);
      if id in records {
        assert Filter(ids, id => id in records) == f + [id];
        CandidatesSnoc(f, id, records, field);
      } else {
        assert Filter(ids, id => id in records) == f;
      }
    }
  }

  lemma CandidatesSnoc(ids: seq<string>, id: string, records: map<string, Record>, field: string)
    ensures Candidates(ids + [id], records, field) == Candidates(ids, records, field) + Contribution(id, records, field)
  {
    assert (ids + [id])[..|ids|] == ids;
  }

  /** Two listed records showing the same text give one option. */
  lemma DuplicateGivesOneOption(ds: DataSet, field: string, text: string)
    requires field != "" && text != ""
    requires |ds.sortedRecordIds| == 2
    requires forall i :: 0 <= i < 2 ==>
      ds.sortedRecordIds[i] in ds.records && GetValue(ds.records[ds.sortedRecordIds[i]], field) == Str(text)
    ensures UniqueOptions(Some(ds), field) == [DropdownOption(Str(text), Str(text))]
  {
    var v := Str(text);
    TwoCandidates(ds.sortedRecordIds, ds.records, field, v);
    DedupPair(v);
    assert OptionsOf([v]) == [DropdownOption(v, v)];
  }

  lemma TwoCandidates(ids: seq<string>, records: map<string, Record>, field: string, v: Value)
    requires |ids| == 2 && Contribution(ids[0], records, field) == [v] && Contribution(ids[1], records, field) == [v]
    ensures Candidates(ids, records, field) == [v, v]
  {
    CandidatesSnoc([], ids[0], records, field);
    CandidatesSnoc([ids[0]], ids[1], records, field);
    assert [] + [ids[0]] == [ids[0]] && [ids[0]] + [ids[1]] == ids;
  }

  lemma DedupPair(v: Value)
    ensures Dedup([v, v]) == [v]
  {
    DedupSnoc([], v);
    DedupSnoc([v], v);
    assert [] + [v] == [v] && [v] + [v] == [v, v];
  }
}
