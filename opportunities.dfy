/**
 * The opportunity aggregation library: cleaning the opportunity dataset,
 * building the opportunity list of one statement of work (SOW), the status
 * and flag filters over that list, and the confidence and probability bands.
 */
module Opportunities {
  import opened Host
  import opened JsText
  import opened Seqs

  /** An opportunity as the SOW card consumes it. */
  datatype Opportunity = Opportunity(
    id: string,
    name: string,
    revenue: real,
    probability: real,
    closeDate: string,            // the host's display text of the close date, or ""
    winLossRatio: real,
    status: Value,                // the raw status value, or Null
    isOutlier: Value,             // the raw flag, or Num(0)
    predictedOutcome: Value,      // the raw outcome, or Num(0)
    predictionConfidence: real,
    outlierConfidence: real)

  // ---------------------------------------------------------------------
  // Status codes and the status filters
  // ---------------------------------------------------------------------

  /** Decimal digits without a leading zero: the text `String(n)` gives for a natural number. */
  predicate CanonicalDigits(s: string) {
    s != [] && AllDigits(s) && (s[0] != '0' || |s| == 1)
  }

  /**
   * The status code a value denotes: a whole number, the canonical decimal
   * text of one, or an option-set object `{ value }`.
   */
  function StatusCode(v: Value): Option<int> {
    match v
    case Num(n) => if n == n.Floor as real then Some(n.Floor) else None
    case Str(s) => if CanonicalDigits(s) then Some(DigitsValue(s) as int) else None
    case OptionSet(c) => Some(c)
    case _ => None
  }

  /** Status 1 or 2, "1" or "2", or `{ value: 1 | 2 }`: open. */
  predicate IsActiveStatus(v: Value) {
    v == Num(1.0) || v == Num(2.0) || v == Str("1") || v == Str("2")
    || (v.OptionSet? && (v.code == 1 || v.code == 2))
  }

  /** Status 3, "3" or `{ value: 3 }`: won. */
  predicate IsWonStatus(v: Value) {
    v == Num(3.0) || v == Str("3") || (v.OptionSet? && v.code == 3)
  }

  /** Status 4 or 5, "4" or "5", or `{ value: 4 | 5 }`: lost. */
  predicate IsLostStatus(v: Value) {
    v == Num(4.0) || v == Num(5.0) || v == Str("4") || v == Str("5")
    || (v.OptionSet? && (v.code == 4 || v.code == 5))
  }

  predicate IsActive(o: Opportunity) { IsActiveStatus(o.status) }
  predicate IsWon(o: Opportunity) { IsWonStatus(o.status) }
  predicate IsLost(o: Opportunity) { IsLostStatus(o.status) }
  /** Only the string "1" marks an outlier. */
  predicate IsOutlier(o: Opportunity) { o.isOutlier == Str("1") }
  /** The number 1 or the string "1" marks a predicted win. */
  predicate IsPredictedWin(o: Opportunity) { o.predictedOutcome == Num(1.0) || o.predictedOutcome == Str("1") }

  /** The opportunities whose status is active (1 or 2), in their order. */
  function GetActiveOpportunities(s: seq<Opportunity>): (r: seq<Opportunity>)
    ensures Subseq(r, s)
    ensures forall o :: o in r <==> o in s && IsActiveStatus(o.status)
  {
    FilterIsSubseq(s, IsActive);
    Filter(s, IsActive)
  }

  /** The opportunities whose status is won (state 3), in their order. */
  function GetWonOpportunities(s: seq<Opportunity>): (r: seq<Opportunity>)
    ensures Subseq(r, s)
    ensures forall o :: o in r <==> o in s && IsWonStatus(o.status)
  {
    FilterIsSubseq(s, IsWon);
    Filter(s, IsWon)
  }

  /** The opportunities whose status is lost (state 4 or 5), in their order. */
  function GetLostOpportunities(s: seq<Opportunity>): (r: seq<Opportunity>)
    ensures Subseq(r, s)
    ensures forall o :: o in r <==> o in s && IsLostStatus(o.status)
  {
    FilterIsSubseq(s, IsLost);
    Filter(s, IsLost)
  }

  /** The opportunities flagged as outliers by the string "1", in their order. */
  function GetOutlierOpportunities(s: seq<Opportunity>): (r: seq<Opportunity>)
    ensures Subseq(r, s)
    ensures forall o :: o in r <==> o in s && o.isOutlier == Str("1")
  {
    FilterIsSubseq(s, IsOutlier);
    Filter(s, IsOutlier)
  }

  /** The opportunities predicted to win (the number 1 or the string "1"), in their order. */
  function GetPredictedWinOpportunities(s: seq<Opportunity>): (r: seq<Opportunity>)
    ensures Subseq(r, s)
    ensures forall o :: o in r <==> o in s && (o.predictedOutcome == Num(1.0) || o.predictedOutcome == Str("1"))
  {
    FilterIsSubseq(s, IsPredictedWin);
    Filter(s, IsPredictedWin)
  }

  lemma {:induction false} LeadingDigitNonZero(s: string)
    requires s != [] && AllDigits(s) && s[0] != '0'
    ensures DigitsValue(s) >= 1
  {
    if |s| > 1 {
      LeadingDigitNonZero(s[..|s| - 1]);
    }
  }

  /** A canonical decimal text of two or more digits denotes at least 10. */
  lemma CanonicalLongIsLarge(s: string)
    requires CanonicalDigits(s) && |s| >= 2
    ensures DigitsValue(s) >= 10
  {
    LeadingDigitNonZero(s[..|s| - 1]);
  }

  /** The only canonical text of a code below 10 is its single digit. */
  lemma CanonicalSmallCode(s: string, k: nat)
    requires CanonicalDigits(s) && DigitsValue(s) == k && k < 10
    ensures s == [['0', '1', '2', '3', '4', '5', '6', '7', '8', '9'][k]]
  {
    if |s| >= 2 {
      CanonicalLongIsLarge(s);
    }
  }

  /** The active filter accepts exactly the values denoting code 1 or 2. */
  lemma ActiveMeansCode(v: Value)
    ensures IsActiveStatus(v) <==> StatusCode(v) == Some(1) || StatusCode(v) == Some(2)
  {
    if v.Str? && CanonicalDigits(v.s) && DigitsValue(v.s) < 10 {
      CanonicalSmallCode(v.s, DigitsValue(v.s));
    } else if v.Str? && CanonicalDigits(v.s) {
      assert DigitsValue(v.s) >= 10;
    }
  }

  /** The won filter accepts exactly the values denoting code 3. */
  lemma WonMeansCode(v: Value)
    ensures IsWonStatus(v) <==> StatusCode(v) == Some(3)
  {
    if v.Str? && CanonicalDigits(v.s) && DigitsValue(v.s) < 10 {
      CanonicalSmallCode(v.s, DigitsValue(v.s));
    }
  }

  /** The lost filter accepts exactly the values denoting code 4 or 5. */
  lemma LostMeansCode(v: Value)
    ensures IsLostStatus(v) <==> StatusCode(v) == Some(4) || StatusCode(v) == Some(5)
  {
    if v.Str? && CanonicalDigits(v.s) && DigitsValue(v.s) < 10 {
      CanonicalSmallCode(v.s, DigitsValue(v.s));
    }
  }

  /** No status value is in two of the three classes. */
  lemma StatusClassesDisjoint(v: Value)
    ensures !(IsActiveStatus(v) && IsWonStatus(v))
    ensures !(IsActiveStatus(v) && IsLostStatus(v))
    ensures !(IsWonStatus(v) && IsLostStatus(v))
  {
    ActiveMeansCode(v);
    WonMeansCode(v);
    LostMeansCode(v);
  }

  /** The three status filters keep order and share no opportunity. */
  lemma StatusFiltersPartition(s: seq<Opportunity>)
    ensures Subseq(GetActiveOpportunities(s), s)
    ensures Subseq(GetWonOpportunities(s), s)
    ensures Subseq(GetLostOpportunities(s), s)
    ensures forall o :: o in GetActiveOpportunities(s) ==> o !in GetWonOpportunities(s) && o !in GetLostOpportunities(s)
    ensures forall o :: o in GetWonOpportunities(s) ==> o !in GetLostOpportunities(s)
  {
    FilterIsSubseq(s, IsActive);
    FilterIsSubseq(s, IsWon);
    FilterIsSubseq(s, IsLost);
    forall o | o in s {
      StatusClassesDisjoint(o.status);
    }
  }

  /** Applying a filter to its own result changes nothing. */
  lemma FiltersIdempotent(s: seq<Opportunity>)
    ensures GetActiveOpportunities(GetActiveOpportunities(s)) == GetActiveOpportunities(s)
    ensures GetWonOpportunities(GetWonOpportunities(s)) == GetWonOpportunities(s)
    ensures GetLostOpportunities(GetLostOpportunities(s)) == GetLostOpportunities(s)
    ensures GetOutlierOpportunities(GetOutlierOpportunities(s)) == GetOutlierOpportunities(s)
    ensures GetPredictedWinOpportunities(GetPredictedWinOpportunities(s)) == GetPredictedWinOpportunities(s)
  {
    FilterIdempotent(s, IsActive);
    FilterIdempotent(s, IsWon);
    FilterIdempotent(s, IsLost);
    FilterIdempotent(s, IsOutlier);
    FilterIdempotent(s, IsPredictedWin);
  }

  /** The flag filters keep order; the outlier filter rejects the number 1, the predicted-win filter accepts it. */
  lemma FlagFilters(s: seq<Opportunity>)
    ensures Subseq(GetOutlierOpportunities(s), s)
    ensures Subseq(GetPredictedWinOpportunities(s), s)
    ensures forall o :: o in GetOutlierOpportunities(s) <==> o in s && o.isOutlier == Str("1")
    ensures forall o :: o in s && o.isOutlier == Num(1.0) ==> o !in GetOutlierOpportunities(s)
    ensures forall o :: o in GetPredictedWinOpportunities(s) <==> o in s && (o.predictedOutcome == Num(1.0) || o.predictedOutcome == Str("1"))
  {
    FilterIsSubseq(s, IsOutlier);
    FilterIsSubseq(s, IsPredictedWin);
  }

  // ---------------------------------------------------------------------
  // parseDecimalValue
  // ---------------------------------------------------------------------

  /** A value in [0, 1] read as a fraction becomes a percentage; larger values are kept. */
  function Percent(x: real): real {
    if x <= 1.0 then x * 100.0 else x
  }

  /**
   * `parseDecimalValue`: a number, or a string whose first ',' is read as a
   * decimal point, scaled to a percentage when at most 1; anything else,
   * and unparseable text, is 0.
   */
  function ParseDecimalValue(v: Value): (r: real)
    ensures v.Num? ==> r == Percent(v.n)
    ensures v.Str? ==> var x := ParseFloat(ReplaceFirst(v.s, ',', '.')); r == if x.Some? then Percent(x.value) else 0.0
    ensures !v.Num? && !v.Str? ==> r == 0.0
  {
    match v
    case Num(n) => Percent(n)
    case Str(s) =>
      var x := ParseFloat(ReplaceFirst(s, ',', '.'));
      if x.Some? then Percent(x.value) else 0.0
    case _ => 0.0
  }

  /** Fractions in [0, 1] land in [0, 100]; larger numbers pass through unchanged. */
  lemma PercentBounds(x: real)
    ensures 0.0 <= x <= 1.0 ==> 0.0 <= Percent(x) <= 100.0
    ensures x > 1.0 ==> Percent(x) == x
    ensures x >= 0.0 ==> Percent(x) >= 0.0
  {
  }

  /** A decimal comma reads like a decimal point. */
  lemma DecimalCommaIsPoint(a: string, b: string)
    requires ',' !in a && '.' !in a && ',' !in b
    ensures ParseDecimalValue(Str(a + "," + b)) == ParseDecimalValue(Str(a + "." + b))
  {
    var s := a + "," + b;
    assert s[|a|] == ',';
    assert s[..|a|] == a;
    FirstIndexAt(s, |a|);
    assert ReplaceFirst(s, ',', '.') == a + "." + b;
    var t := a + "." + b;
    assert forall k :: 0 <= k < |t| ==> t[k] != ',' by {
      forall k | 0 <= k < |t| ensures t[k] != ',' {
        if k < |a| { assert t[k] == a[k]; } else if k > |a| { assert t[k] == b[k - |a| - 1]; }
      }
    }
    assert ReplaceFirst(t, ',', '.') == t;
  }

  /** A string holding the decimal text of a natural number reads as that number. */
  lemma DecimalTextAgreesWithNumber(n: nat)
    ensures ParseDecimalValue(Str(NatText(n))) == ParseDecimalValue(Num(n as real))
  {
    var t := NatText(n);
    assert forall k :: 0 <= k < |t| ==> t[k] != ',' by {
      forall k | 0 <= k < |t| ensures t[k] != ',' {
        assert IsDigit(t[k]);
      }
    }
    assert ReplaceFirst(t, ',', '.') == t;
    ParseFloatNat(n);
  }

  /** Numbers: 0.5 → 50 and 50 → 50. */
  lemma ParseDecimalNumberExamples()
    ensures ParseDecimalValue(Num(0.5)) == 50.0
    ensures ParseDecimalValue(Num(50.0)) == 50.0
  {
  }

  /** A decimal comma: "0,75" → 75. */
  lemma ParseDecimalCommaExample()
    ensures ParseDecimalValue(Str("0,75")) == 75.0
  {
    assert "0" + "," + "75" == "0,75";
    assert "0" + "." + "75" == "0.75";
    DecimalCommaIsPoint("0", "75");
    ParseFloatDecimal("0", "75");
    assert ',' !in "0.75";
    assert ReplaceFirst("0.75", ',', '.') == "0.75";
    DecimalExample();
  }

  lemma DecimalExample()
    ensures DecimalValue("0", "75") == 0.75
  {
    assert Pow10(2) == 100.0 by {
      assert Pow10(1) == 10.0;
    }
    assert DigitsValue("0") == 0 by {
      assert "0"[..0] == "";
    }
    assert DigitsValue("75") == 75 by {
      assert "75"[..1] == "7";
      assert "7"[..0] == "";
      assert DigitsValue("7") == 7;
    }
  }

  /** A text that is not a number: "abc" → 0. */
  lemma ParseDecimalTextExample()
    ensures ParseDecimalValue(Str("abc")) == 0.0
  {
    assert ReplaceFirst("abc", ',', '.') == "abc";
    TrimStartOfTrimmed("abc");
    SignedDecimalUnsigned("abc");
    assert DigitRun("abc") == 0;
  }

  // ---------------------------------------------------------------------
  // Confidence and probability bands
  // ---------------------------------------------------------------------

  datatype ConfidenceLevel = ConfidenceLevel(text: string, isLow: bool)

  /** `getOutlierConfidenceLevel`: at least 90 is High, below 50 is Low, otherwise Medium. */
  function OutlierConfidenceLevel(c: real): (r: ConfidenceLevel)
    ensures r.text == "High" <==> c >= 90.0
    ensures r.text == "Low" <==> c < 50.0
    ensures r.text == "Medium" <==> 50.0 <= c < 90.0
    ensures r.isLow <==> r.text == "Low"
  {
    if c >= 90.0 then ConfidenceLevel("High", false)
    else if c < 50.0 then ConfidenceLevel("Low", true)
    else ConfidenceLevel("Medium", false)
  }

  function LevelRank(l: ConfidenceLevel): nat {
    if l.text == "Low" then 0 else if l.text == "Medium" then 1 else 2
  }

  /** A higher confidence never gets a lower band. */
  lemma ConfidenceLevelMonotone(c1: real, c2: real)
    requires c1 <= c2
    ensures LevelRank(OutlierConfidenceLevel(c1)) <= LevelRank(OutlierConfidenceLevel(c2))
  {
  }

  /** The control's colour palette (`copilotColors`). */
  datatype Palette = Palette(blue: string, lightBlue: string, purple: string, darkPurple: string, green: string)

  /** `getProbabilityColor`: at least 75 green, at least 50 purple, at least 25 blue, else light blue. */
  function ProbabilityColor(p: real, colors: Palette): (r: string)
    ensures p >= 75.0 ==> r == colors.green
    ensures 50.0 <= p < 75.0 ==> r == colors.purple
    ensures 25.0 <= p < 50.0 ==> r == colors.blue
    ensures p < 25.0 ==> r == colors.lightBlue
  {
    if p >= 75.0 then colors.green
    else if p >= 50.0 then colors.purple
    else if p >= 25.0 then colors.blue
    else colors.lightBlue
  }

  // ---------------------------------------------------------------------
  // processOpportunityData
  // ---------------------------------------------------------------------

  /** A lookup object with an `id` or a `name` key. */
  predicate HasSowReference(v: Value) {
    v.Lookup? && (v.id.Some? || v.name.Some?)
  }

  function PresentIds(ids: seq<string>, records: map<string, Record>): seq<string> {
    Filter(ids, id => id in records)
  }

  function MissingIds(ids: seq<string>, records: map<string, Record>): seq<string> {
    Filter(ids, id => id !in records)
  }

  /** Listed ids whose record exists but lacks a SOW reference. */
  function NoSowIds(ids: seq<string>, records: map<string, Record>): seq<string> {
    Filter(ids, id => id in records && !HasSowReference(GetValue(records[id], "OppToSOWLookupField")))
  }

  /** The records of the listed ids that have one, by id. */
  function KeptRecords(ids: seq<string>, records: map<string, Record>): (kept: map<string, Record>)
    ensures forall id :: id in kept <==> id in ids && id in records
    ensures forall id :: id in kept ==> kept[id] == records[id]
  {
    map id | id in ids && id in records :: records[id]
  }

  /** One more listed id: it is kept when it has a record, and counted as missing or as lacking a SOW reference. */
  lemma CleanStep(ids: seq<string>, i: nat, records: map<string, Record>)
    requires i < |ids|
    ensures var id := ids[i];
      KeptRecords(ids[..i + 1], records) == if id in records then KeptRecords(ids[..i], records)[id := records[id]] else KeptRecords(ids[..i], records)
    ensures var id := ids[i];
      && PresentIds(ids[..i + 1], records) == PresentIds(ids[..i], records) + (if id in records then [id] else [])
      && |MissingIds(ids[..i + 1], records)| == |MissingIds(ids[..i], records)| + (if id in records then 0 else 1)
      && |NoSowIds(ids[..i + 1], records)| == |NoSowIds(ids[..i], records)|
           + (if id in records && !HasSowReference(GetValue(records[id], "OppToSOWLookupField")) then 1 else 0)
  {
    assert ids[..i + 1] == ids[..i] + [ids[i]];
    assert ids[..i + 1][..i] == ids[..i];
  }

  /** Every listed id is either present or missing. */
  lemma {:induction false} PresentPlusMissing(ids: seq<string>, records: map<string, Record>)
    ensures |PresentIds(ids, records)| + |MissingIds(ids, records)| == |ids|
  {
    if ids != [] {
      PresentPlusMissing(ids[..|ids| - 1], records);
    }
  }

  /**
   * `processOpportunityData`: a loading or failed dataset is returned as it
   * is; otherwise records listed but absent are dropped and counted, every
   * other record is kept (counting those without a SOW reference), and the
   * ids become the keys of the kept records.
   */
  method ProcessOpportunityData(ds: DataSet) returns (out: DataSet, invalidCount: nat, sowLookupMissingCount: nat)
    ensures ds.loading || ds.error ==> out == ds && invalidCount == 0 && sowLookupMissingCount == 0
    ensures !ds.loading && !ds.error ==>
      && out == ds.(records := KeptRecords(ds.sortedRecordIds, ds.records),
                    sortedRecordIds := ObjectKeys(PresentIds(ds.sortedRecordIds, ds.records)))
      && invalidCount == |MissingIds(ds.sortedRecordIds, ds.records)|
      && sowLookupMissingCount == |NoSowIds(ds.sortedRecordIds, ds.records)|
  {
    if ds.loading || ds.error {
      return ds, 0, 0;
    }
    var ids := ds.sortedRecordIds;
    var valid: map<string, Record> := map[];
    var order: seq<string> := [];
    invalidCount, sowLookupMissingCount := 0, 0;
    var i := 0;
    while i < |ids|
      invariant 0 <= i <= |ids|
      invariant valid == KeptRecords(ids[..i], ds.records)
      invariant order == PresentIds(ids[..i], ds.records)
      invariant invalidCount == |MissingIds(ids[..i], ds.records)|
      invariant sowLookupMissingCount == |NoSowIds(ids[..i], ds.records)|
    {
      var id := ids[i];
      CleanStep(ids, i, ds.records);
      if id !in ds.records {
        invalidCount := invalidCount + 1;
      } else {
        var record := ds.records[id];
        if !HasSowReference(GetValue(record, "OppToSOWLookupField")) {
          sowLookupMissingCount := sowLookupMissingCount + 1;
        }
        valid := valid[id := record];
        order := order + [id];
      }
      i := i + 1;
    }
    assert ids[..i] == ids;
    out := ds.(records := valid, sortedRecordIds := ObjectKeys(order));
  }

  /** Of a cleaned dataset every listed id has a record, and every kept record is listed. */
  lemma CleanedDataSetWellFormed(ds: DataSet)
    ensures var recs := KeptRecords(ds.sortedRecordIds, ds.records);
      var out := ds.(records := recs, sortedRecordIds := ObjectKeys(PresentIds(ds.sortedRecordIds, ds.records)));
      WellFormed(out) && forall id :: id in recs ==> id in out.sortedRecordIds
  {
    var recs := KeptRecords(ds.sortedRecordIds, ds.records);
    var present := PresentIds(ds.sortedRecordIds, ds.records);
    var keys := ObjectKeys(present);
    forall i | 0 <= i < |keys| ensures keys[i] in recs {
      assert keys[i] in keys && keys[i] in present;
    }
    forall id | id in recs ensures id in keys {
      assert id in present;
    }
  }

  // ---------------------------------------------------------------------
  // handleOpportunityClick
  // ---------------------------------------------------------------------

  /** What a click asks the page to do: open the record in the modal. */
  datatype ModalRequest = ModalRequest(recordId: string, entityType: string)

  /** `handleOpportunityClick`: nothing without a dataset, else open the record with the dataset's entity type or "opportunity". */
  function OpportunityClick(opportunityId: string, ds: Option<DataSet>): (r: Option<ModalRequest>)
    ensures r.None? <==> ds.None?
    ensures r.Some? ==> r.value.recordId == opportunityId && r.value.entityType != ""
    ensures r.Some? && ds.value.targetEntityType != "" ==> r.value.entityType == ds.value.targetEntityType
  {
    if ds.None? then None
    else Some(ModalRequest(opportunityId, if ds.value.targetEntityType != "" then ds.value.targetEntityType else "opportunity"))
  }

  // ---------------------------------------------------------------------
  // processOpportunitiesForSow
  // ---------------------------------------------------------------------

  /**
   * A SOW lookup matches by its string id, by its `{ guid }` id, or, when
   * neither matches and a country is given, by its name.
   */
  predicate IsSowMatch(v: Value, sowId: string, country: Option<string>) {
    v.Lookup?
    && (v.id == Some(Plain(sowId)) || v.id == Some(Guid(sowId))
        || (country.Some? && country.value != "" && v.name == Some(country.value)))
  }

  /** `x || d` for a field value. */
  function Or(v: Value, d: Value): (r: Value)
    ensures Truthy(v) ==> r == v
    ensures !Truthy(v) ==> r == d
  {
    if Truthy(v) then v else d
  }

  /** The opportunity object built from a matching record. */
  function BuildOpportunity(recordId: string, r: Record, formatDate: Value -> string): Opportunity {
    var closeDate := GetValue(r, "CloseDate");
    Opportunity(
      recordId,
      AsTextOr(GetValue(r, "OpportunityName"), "Unnamed Opportunity"),
      AsNumberOr(GetValue(r, "OppRevenue"), 0.0),
      AsNumberOr(GetValue(r, "Probability"), 0.0),
      if Truthy(closeDate) then formatDate(closeDate) else "",
      AsNumberOr(GetValue(r, "WinLossRatio"), 0.0),
      Or(GetValue(r, "Status"), Null),
      Or(GetValue(r, "IsOutlier"), Num(0.0)),
      Or(GetValue(r, "PredictedOutcome"), Num(0.0)),
      ParseDecimalValue(GetValue(r, "PredictionConfidence")),
      ParseDecimalValue(GetValue(r, "OutlierConfidence")))
  }

  /** The unsorted list of matching opportunities of the listed ids; `None` when a listed record is missing. */
  function MatchedOpportunities(ids: seq<string>, ds: DataSet, sowId: string, country: Option<string>,
                                formatDate: Value -> string): Option<seq<Opportunity>>
  {
    if ids == [] then Some([])
    else
      match MatchedOpportunities(ids[..|ids| - 1], ds, sowId, country, formatDate)
      case None => None
      case Some(acc) =>
        var id := ids[|ids| - 1];
        if id !in ds.records then None
        else if IsSowMatch(GetValue(ds.records[id], "OppToSOWLookupField"), sowId, country) then
          Some(acc + [BuildOpportunity(id, ds.records[id], formatDate)])
        else Some(acc)
  }

  function NegRevenue(o: Opportunity): real { -o.revenue }

  /** The result `processOpportunitiesForSow` promises, as a function of its inputs. */
  function SowOpportunities(ds: Option<DataSet>, sowId: Option<string>, country: Option<string>,
                            formatDate: Value -> string): (r: seq<Opportunity>)
    ensures ds.None? || sowId.None? || sowId == Some("") ==> r == []
    ensures forall i, j :: 0 <= i < j < |r| ==> r[i].revenue >= r[j].revenue
    ensures forall o :: o in r ==>
      (ds.Some? && sowId.Some? && o.id in ds.value.sortedRecordIds && o.id in ds.value.records
       && IsSowMatch(GetValue(ds.value.records[o.id], "OppToSOWLookupField"), sowId.value, country)
       && o == BuildOpportunity(o.id, ds.value.records[o.id], formatDate))
  {
    if ds.None? || sowId.None? || sowId.value == "" then []
    else
      match MatchedOpportunities(ds.value.sortedRecordIds, ds.value, sowId.value, country, formatDate)
      case None => []
      case Some(m) =>
        MatchedContents(ds.value.sortedRecordIds, ds.value, sowId.value, country, formatDate);
        ByRevenueDescending(m);
        SortBy(m, NegRevenue)
  }

  /**
   * `processOpportunitiesForSow`: collects the matching records in list
   * order, then sorts them by revenue, highest first. A missing dataset or
   * SOW id gives []; so does a listed record that is missing, where the
   * source's exception handler returns [].
   */
  method ProcessOpportunitiesForSow(ds: Option<DataSet>, sowId: Option<string>, country: Option<string>,
                                    formatDate: Value -> string) returns (r: seq<Opportunity>)
    ensures r == SowOpportunities(ds, sowId, country, formatDate)
  {
    if ds.None? || sowId.None? || sowId.value == "" {
      return [];
    }
    var data := ds.value;
    var ids := data.sortedRecordIds;
    var acc: seq<Opportunity> := [];
    var i := 0;
    while i < |ids|
      invariant 0 <= i <= |ids|
      invariant MatchedOpportunities(ids[..i], data, sowId.value, country, formatDate) == Some(acc)
    {
      var id := ids[i];
      assert ids[..i + 1][..i] == ids[..i];
      if id !in data.records {
        MissingStaysMissing(ids, i + 1, data, sowId.value, country, formatDate);
        return [];
      }
      var record := data.records[id];
      if IsSowMatch(GetValue(record, "OppToSOWLookupField"), sowId.value, country) {
        acc := acc + [BuildOpportunity(id, record, formatDate)];
      }
      i := i + 1;
    }
    assert ids[..i] == ids;
    r := SortBy(acc, NegRevenue);
  }

  /** Once a prefix hits a missing record, the whole list does. */
  lemma {:induction false} MissingStaysMissing(ids: seq<string>, n: nat, ds: DataSet, sowId: string, country: Option<string>,
                                               formatDate: Value -> string)
    requires n <= |ids| && MatchedOpportunities(ids[..n], ds, sowId, country, formatDate).None?
    ensures MatchedOpportunities(ids, ds, sowId, country, formatDate).None?
    decreases |ids| - n
  {
    if n < |ids| {
      assert ids[..n + 1][..n] == ids[..n];
      MissingStaysMissing(ids, n + 1, ds, sowId, country, formatDate);
    } else {
      assert ids[..n] == ids;
    }
  }

  /** The matched list holds, in list order, one built opportunity per matching listed id. */
  lemma {:induction false} MatchedContents(ids: seq<string>, ds: DataSet, sowId: string, country: Option<string>,
                                           formatDate: Value -> string)
    requires MatchedOpportunities(ids, ds, sowId, country, formatDate).Some?
    ensures var m := MatchedOpportunities(ids, ds, sowId, country, formatDate).value;
      && |m| <= |ids|
      && (forall i :: 0 <= i < |ids| ==> ids[i] in ds.records)
      && (forall o :: o in m ==>
            (o.id in ids && IsSowMatch(GetValue(ds.records[o.id], "OppToSOWLookupField"), sowId, country)
             && o == BuildOpportunity(o.id, ds.records[o.id], formatDate)))
  {
    if ids != [] {
      MatchedContents(ids[..|ids| - 1], ds, sowId, country, formatDate);
    }
  }

  /** Every listed matching record contributes. */
  lemma {:induction false} MatchedComplete(ids: seq<string>, ds: DataSet, sowId: string, country: Option<string>,
                                           formatDate: Value -> string, k: nat)
    requires MatchedOpportunities(ids, ds, sowId, country, formatDate).Some?
    requires k < |ids| && ids[k] in ds.records && IsSowMatch(GetValue(ds.records[ids[k]], "OppToSOWLookupField"), sowId, country)
    ensures BuildOpportunity(ids[k], ds.records[ids[k]], formatDate) in MatchedOpportunities(ids, ds, sowId, country, formatDate).value
  {
    MatchedContents(ids, ds, sowId, country, formatDate);
    if k < |ids| - 1 {
      MatchedComplete(ids[..|ids| - 1], ds, sowId, country, formatDate, k);
    }
  }

  /**
   * The SOW list is sorted by revenue, highest first, and is a permutation of
   * the matched opportunities; each entry is a matching record built with
   * the source's defaults.
   */
  lemma SowOpportunitiesSpec(ds: DataSet, sowId: string, country: Option<string>, formatDate: Value -> string)
    requires sowId != ""
    requires MatchedOpportunities(ds.sortedRecordIds, ds, sowId, country, formatDate).Some?
    ensures var r := SowOpportunities(Some(ds), Some(sowId), country, formatDate);
      var m := MatchedOpportunities(ds.sortedRecordIds, ds, sowId, country, formatDate).value;
      && (forall i, j :: 0 <= i < j < |r| ==> r[i].revenue >= r[j].revenue)
      && multiset(r) == multiset(m)
      && (forall o :: o in r ==> o.id in ds.sortedRecordIds && o.id in ds.records && IsSowMatch(GetValue(ds.records[o.id], "OppToSOWLookupField"), sowId, country))
  {
    var m := MatchedOpportunities(ds.sortedRecordIds, ds, sowId, country, formatDate).value;
    MatchedContents(ds.sortedRecordIds, ds, sowId, country, formatDate);
    assert SowOpportunities(Some(ds), Some(sowId), country, formatDate) == SortBy(m, NegRevenue);
    ByRevenueDescending(m);
  }

  /** Sorting by negated revenue puts the highest revenue first and keeps the opportunities. */
  lemma ByRevenueDescending(m: seq<Opportunity>)
    ensures var r := SortBy(m, NegRevenue);
      && (forall i, j :: 0 <= i < j < |r| ==> r[i].revenue >= r[j].revenue)
      && multiset(r) == multiset(m)
      && forall o :: o in r ==> o in m
  {
    var r := SortBy(m, NegRevenue);
    forall i, j | 0 <= i < j < |r| ensures r[i].revenue >= r[j].revenue {
      assert NegRevenue(r[i]) <= NegRevenue(r[j]);
    }
    forall o | o in r ensures o in m {
      assert o in multiset(r);
    }
  }

  /** A missing dataset, a missing or empty SOW id, or a missing listed record gives no opportunities. */
  lemma SowOpportunitiesEmptyCases(ds: Option<DataSet>, sowId: Option<string>, country: Option<string>,
                                   formatDate: Value -> string)
    requires ds.None? || sowId.None? || sowId == Some("")
             || exists i :: 0 <= i < |ds.value.sortedRecordIds| && ds.value.sortedRecordIds[i] !in ds.value.records
    ensures SowOpportunities(ds, sowId, country, formatDate) == []
  {
    if ds.Some? && sowId.Some? && sowId.value != "" {
      var ids := ds.value.sortedRecordIds;
      if MatchedOpportunities(ids, ds.value, sowId.value, country, formatDate).Some? {
        MatchedContents(ids, ds.value, sowId.value, country, formatDate);
        assert false;
      }
    }
  }
}
