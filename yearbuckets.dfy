/**
 * `processOpportunitiesByYear`: won and lost opportunities counted per close
 * year, with revenue sums, the win rate of each year and the largest yearly
 * count for scaling the chart's y axis.
 */
module YearBuckets {
  import opened Host
  import opened JsText
  import opened Seqs
  import opened Opportunities

  /**
   * The year this chart reads from a close date: `parseInt` of the first
   * four characters of the text after the last '/', when that text has at
   * least four characters. Year 0 and NaN are no year.
   */
  function ChartYear(closeDate: string): Option<int> {
    if closeDate == [] then None
    else
      var parts := Split(closeDate, '/');
      var last := parts[|parts| - 1];
      if |last| < 4 then None
      else
        var y := ParseInt(last[..4]);
        if y.Some? && y.value != 0 then y else None
  }

  /** A chart year is never 0 and, read from four characters, lies in -999..9999. */
  lemma ChartYearRange(closeDate: string)
    ensures var y := ChartYear(closeDate);
      y.Some? ==> y.value != 0 && -999 <= y.value <= 9999
  {
    if closeDate != [] {
      var parts := Split(closeDate, '/');
      var last := parts[|parts| - 1];
      if |last| >= 4 {
        ParseIntOfFour(last[..4]);
      }
    }
  }

  /** A date displayed as D/M/YYYY yields its year. */
  lemma ChartYearOfDisplayDate(d: string, m: string, y: nat)
    requires '/' !in d && '/' !in m && 1000 <= y <= 9999
    ensures ChartYear(d + "/" + m + "/" + NatText(y)) == Some(y as int)
  {
    var t := NatText(y);
    var s := d + "/" + m + "/" + t;
    NatTextLength4(y);
    assert '/' !in t by {
      forall k | 0 <= k < |t| ensures t[k] != '/' {
        assert IsDigit(t[k]);
      }
    }
    LastSegmentAfter(d + "/" + m, t);
    assert t[..4] == t + [];
    NatTextParsesBack(y, []);
  }

  lemma {:induction false} NatTextLength4(y: nat)
    requires 1000 <= y <= 9999
    ensures |NatText(y)| == 4
  {
    assert |NatText(y / 10)| == 3 by {
      assert |NatText(y / 100)| == 2 by {
        assert |NatText(y / 1000)| == 1;
      }
    }
  }

  /** The last piece of `p + "/" + t` is `t` when `t` has no '/'. */
  lemma {:induction false} LastSegmentAfter(p: string, t: string)
    requires '/' !in t
    ensures var parts := Split(p + "/" + t, '/'); |parts| >= 2 && parts[|parts| - 1] == t
  {
    var x := p + "/" + t;
    if p == [] {
      assert x == ['/'] + t;
      assert x[1..] == t;
      SplitWithout(t);
    } else {
      assert x[1..] == p[1..] + "/" + t;
      LastSegmentAfter(p[1..], t);
      var rest := Split(x[1..], '/');
      if x[0] != '/' {
        assert Split(x, '/') == [[x[0]] + rest[0]] + rest[1..];
      }
    }
  }

  lemma {:induction false} SplitWithout(t: string)
    requires '/' !in t
    ensures Split(t, '/') == [t]
  {
    if t != [] {
      SplitWithout(t[1..]);
      assert [t[0]] + t[1..] == t;
    }
  }

  // ---------------------------------------------------------------------
  // Per-year counts, as functions of the input lists
  // ---------------------------------------------------------------------

  function CountYear(s: seq<Opportunity>, y: int): nat {
    if s == [] then 0
    else CountYear(s[..|s| - 1], y) + (if ChartYear(s[|s| - 1].closeDate) == Some(y) then 1 else 0)
  }

  function RevenueYear(s: seq<Opportunity>, y: int): real {
    if s == [] then 0.0
    else RevenueYear(s[..|s| - 1], y) + (if ChartYear(s[|s| - 1].closeDate) == Some(y) then s[|s| - 1].revenue else 0.0)
  }

  /** The years some opportunity of `s` closes in. */
  function YearsOf(s: seq<Opportunity>): set<int> {
    if s == [] then {}
    else
      var y := ChartYear(s[|s| - 1].closeDate);
      YearsOf(s[..|s| - 1]) + (if y.Some? then {y.value} else {})
  }

  /** A year has opportunities exactly when it is one of the years. */
  lemma {:induction false} YearsOfCount(s: seq<Opportunity>, y: int)
    ensures y in YearsOf(s) <==> CountYear(s, y) > 0
  {
    if s != [] {
      YearsOfCount(s[..|s| - 1], y);
    }
  }

  /** `Math.round(won / (won + lost) * 100)` when some were won, else 0. */
  function WinRate(won: nat, lost: nat): (r: int)
    ensures 0 <= r <= 100
    ensures won == 0 ==> r == 0
    ensures lost == 0 && won > 0 ==> r == 100
  {
    if won > 0 then
      assert lost == 0 ==> won as real / (won + lost) as real == 1.0;
      Round((won as real / (won + lost) as real) * 100.0)
    else 0
  }

  /** The row of the chart for one year. */
  datatype YearData = YearData(year: int, won: nat, lost: nat, totalWonRevenue: real, totalLostRevenue: real,
                               total: nat, winRate: int)

  /** The counts and revenue sums of year `y`. */
  datatype Tally = Tally(won: nat, lost: nat, wonRevenue: real, lostRevenue: real)

  function TallyOf(won: seq<Opportunity>, lost: seq<Opportunity>, y: int): Tally {
    Tally(CountYear(won, y), CountYear(lost, y), RevenueYear(won, y), RevenueYear(lost, y))
  }

  /** The row the chart shows for year `y` with tally `t`. */
  function RowOf(y: int, t: Tally): YearData {
    YearData(y, t.won, t.lost, t.wonRevenue, t.lostRevenue, t.won + t.lost, WinRate(t.won, t.lost))
  }

  function Bucket(won: seq<Opportunity>, lost: seq<Opportunity>, y: int): YearData {
    RowOf(y, TallyOf(won, lost, y))
  }

  function Buckets(won: seq<Opportunity>, lost: seq<Opportunity>, ys: seq<int>): (r: seq<YearData>)
    ensures |r| == |ys|
    ensures forall i :: 0 <= i < |ys| ==> r[i] == Bucket(won, lost, ys[i])
  {
    if ys == [] then [] else Buckets(won, lost, ys[..|ys| - 1]) + [Bucket(won, lost, ys[|ys| - 1])]
  }

  /** The rows of the chart: one per year with a dated opportunity, in ascending year order. */
  function YearDataOf(won: seq<Opportunity>, lost: seq<Opportunity>): seq<YearData> {
    Buckets(won, lost, SortedInts(YearsOf(won) + YearsOf(lost)))
  }

  /** `Math.max(...rows.map(d => d.won + d.lost))`: -Infinity for no rows. */
  function MaxTotal(rows: seq<YearData>): (r: JsNumber)
    ensures r == NegInfinity <==> rows == []
    ensures r.Finite? ==> (forall i :: 0 <= i < |rows| ==> (rows[i].won + rows[i].lost) as real <= r.v)
                          && exists i :: 0 <= i < |rows| && (rows[i].won + rows[i].lost) as real == r.v
  {
    if rows == [] then NegInfinity
    else
      var rest := MaxTotal(rows[..|rows| - 1]);
      var last := (rows[|rows| - 1].won + rows[|rows| - 1].lost) as real;
      if rest.Finite? && rest.v >= last then rest else Finite(last)
  }

  // ---------------------------------------------------------------------
  // The method
  // ---------------------------------------------------------------------

  /** The dictionary `t` holds the counts of `w` (won) and `l` (lost) for exactly their years. */
  ghost predicate Tallied(t: map<int, Tally>, w: seq<Opportunity>, l: seq<Opportunity>) {
    && t.Keys == YearsOf(w) + YearsOf(l)
    && (forall y :: y in t ==> t[y] == TallyOf(w, l, y))
  }

  function Lo(a: nat, b: nat): nat { if a <= b then a else b }

  /** One `forEach` step for a won opportunity: open its year's entry if needed and add to it. */
  function AddWon(t: map<int, Tally>, o: Opportunity): map<int, Tally> {
    var y := ChartYear(o.closeDate);
    if y.None? then t
    else if y.value in t then t[y.value := t[y.value].(won := t[y.value].won + 1, wonRevenue := t[y.value].wonRevenue + o.revenue)]
    else t[y.value := Tally(1, 0, o.revenue, 0.0)]
  }

  /** One `forEach` step for a lost opportunity. */
  function AddLost(t: map<int, Tally>, o: Opportunity): map<int, Tally> {
    var y := ChartYear(o.closeDate);
    if y.None? then t
    else if y.value in t then t[y.value := t[y.value].(lost := t[y.value].lost + 1, lostRevenue := t[y.value].lostRevenue + o.revenue)]
    else t[y.value := Tally(0, 1, 0.0, o.revenue)]
  }

  /** A year outside the tallied years has nothing counted. */
  lemma Untallied(w: seq<Opportunity>, l: seq<Opportunity>, y: int)
    requires y !in YearsOf(w) + YearsOf(l)
    ensures CountYear(w, y) == 0 && CountYear(l, y) == 0 && RevenueYear(w, y) == 0.0 && RevenueYear(l, y) == 0.0
  {
    YearsOfCount(w, y);
    YearsOfCount(l, y);
    RevenueZero(w, y);
    RevenueZero(l, y);
  }

  lemma TallyWon(t: map<int, Tally>, w: seq<Opportunity>, l: seq<Opportunity>, o: Opportunity)
    requires Tallied(t, w, l)
    ensures Tallied(AddWon(t, o), w + [o], l)
  {
    var t', w' := AddWon(t, o), w + [o];
    var y := ChartYear(o.closeDate);
    YearsSnoc(w, o);
    assert t'.Keys == YearsOf(w') + YearsOf(l);
    forall x | x in t' ensures t'[x] == TallyOf(w', l, x) {
      CountsSnoc(w, o, x);
      if y.Some? && x == y.value && x !in t {
        Untallied(w, l, x);
      }
    }
  }

  lemma TallyLost(t: map<int, Tally>, w: seq<Opportunity>, l: seq<Opportunity>, o: Opportunity)
    requires Tallied(t, w, l)
    ensures Tallied(AddLost(t, o), w, l + [o])
  {
    var t', l' := AddLost(t, o), l + [o];
    var y := ChartYear(o.closeDate);
    YearsSnoc(l, o);
    assert t'.Keys == YearsOf(w) + YearsOf(l');
    forall x | x in t' ensures t'[x] == TallyOf(w, l', x) {
      CountsSnoc(l, o, x);
      if y.Some? && x == y.value && x !in t {
        Untallied(w, l, x);
      }
    }
  }

  /** One more opportunity adds its year, if any, to the years. */
  lemma YearsSnoc(s: seq<Opportunity>, o: Opportunity)
    ensures var y := ChartYear(o.closeDate);
      YearsOf(s + [o]) == YearsOf(s) + (if y.Some? then {y.value} else {})
  {
    assert (s + [o])[..|s|] == s;
  }

  /** One more opportunity counts, with its revenue, in its own year only. */
  lemma CountsSnoc(s: seq<Opportunity>, o: Opportunity, y: int)
    ensures var hit := ChartYear(o.closeDate) == Some(y);
      && CountYear(s + [o], y) == CountYear(s, y) + (if hit then 1 else 0)
      && RevenueYear(s + [o], y) == RevenueYear(s, y) + (if hit then o.revenue else 0.0)
  {
    assert (s + [o])[..|s|] == s;
  }

  lemma {:induction false} RevenueZero(s: seq<Opportunity>, y: int)
    requires y !in YearsOf(s)
    ensures RevenueYear(s, y) == 0.0
  {
    if s != [] {
      RevenueZero(s[..|s| - 1], y);
    }
  }

  /**
   * `processOpportunitiesByYear`. The source tells won from lost by object
   * identity (`includes`); on values that is sound when no lost opportunity
   * equals a won one, which the precondition states.
   */
  method ProcessOpportunitiesByYear(won: seq<Opportunity>, lost: seq<Opportunity>)
      returns (yearData: seq<YearData>, maxCount: JsNumber)
    requires forall o :: o in lost ==> o !in won
    ensures won + lost == [] ==> yearData == [] && maxCount == Finite(0.0)
    ensures won + lost != [] ==> yearData == YearDataOf(won, lost) && maxCount == MaxTotal(yearData)
  {
    var all := won + lost;
    if |all| == 0 {
      return [], Finite(0.0);
    }
    var byYear: map<int, Tally> := map[];
    var i := 0;
    while i < |all|
      invariant 0 <= i <= |all|
      invariant Tallied(byYear, won[..Lo(i, |won|)], lost[..i - Lo(i, |won|)])
    {
      var opp := all[i];
      ghost var w, l := won[..Lo(i, |won|)], lost[..i - Lo(i, |won|)];
      if i < |won| {
        assert opp == won[i];
        TallyWon(byYear, w, l, opp);
        assert won[..Lo(i + 1, |won|)] == w + [opp];
        byYear := AddWon(byYear, opp);
      } else {
        assert opp == lost[i - |won|] && opp !in won;
        TallyLost(byYear, w, l, opp);
        assert lost[..i + 1 - Lo(i + 1, |won|)] == l + [opp];
        byYear := AddLost(byYear, opp);
      }
      i := i + 1;
    }
    assert won[..Lo(i, |won|)] == won && lost[..i - Lo(i, |won|)] == lost;
    yearData := RowsByYear(byYear, won, lost);
    maxCount := MaxTotal(yearData);
  }

  /**
   * `Object.keys(yearMap).map(...)`: one row per key, keys in ascending
   * numeric order as `Object.keys` lists integer keys.
   */
  method RowsByYear(byYear: map<int, Tally>, won: seq<Opportunity>, lost: seq<Opportunity>)
      returns (yearData: seq<YearData>)
    requires Tallied(byYear, won, lost)
    ensures yearData == YearDataOf(won, lost)
  {
    var years := SortedInts(byYear.Keys);
    yearData := [];
    var k := 0;
    while k < |years|
      invariant 0 <= k <= |years|
      invariant yearData == Buckets(won, lost, years[..k])
    {
      var y := years[k];
      assert y in years;
      var t := byYear[y];
      var row := RowOf(y, t);
      BucketsStep(won, lost, years, k);
      yearData := yearData + [row];
      k := k + 1;
    }
    assert years[..k] == years;
  }

  lemma BucketsStep(won: seq<Opportunity>, lost: seq<Opportunity>, ys: seq<int>, k: nat)
    requires k < |ys|
    ensures Buckets(won, lost, ys[..k + 1]) == Buckets(won, lost, ys[..k]) + [Bucket(won, lost, ys[k])]
  {
    assert ys[..k + 1][..k] == ys[..k];
  }

  // ---------------------------------------------------------------------
  // Properties of the rows
  // ---------------------------------------------------------------------

  /** Rows have distinct years in ascending order. */
  lemma YearDataAscending(won: seq<Opportunity>, lost: seq<Opportunity>)
    ensures var rows := YearDataOf(won, lost);
      forall i, j :: 0 <= i < j < |rows| ==> rows[i].year < rows[j].year
  {
  }

  /** Each row's total is its won plus lost count, is positive, and its win rate is a percentage. */
  lemma YearDataRows(won: seq<Opportunity>, lost: seq<Opportunity>)
    ensures var rows := YearDataOf(won, lost);
      forall i :: 0 <= i < |rows| ==> rows[i].total == rows[i].won + rows[i].lost > 0 && 0 <= rows[i].winRate <= 100
  {
    var ys := SortedInts(YearsOf(won) + YearsOf(lost));
    ListedYearRows(won, lost, ys);
    assert YearDataOf(won, lost) == Buckets(won, lost, ys);
  }

  lemma ListedYearRows(won: seq<Opportunity>, lost: seq<Opportunity>, ys: seq<int>)
    requires forall y :: y in ys ==> y in YearsOf(won) + YearsOf(lost)
    ensures var rows := Buckets(won, lost, ys);
      forall i :: 0 <= i < |rows| ==> rows[i].total == rows[i].won + rows[i].lost > 0 && 0 <= rows[i].winRate <= 100
  {
    var rows := Buckets(won, lost, ys);
    forall i | 0 <= i < |rows| ensures rows[i].total == rows[i].won + rows[i].lost > 0 && 0 <= rows[i].winRate <= 100 {
      assert ys[i] in ys;
      BucketOfYear(won, lost, ys[i]);
    }
  }

  /** The row of a year with opportunities has a positive total and a percentage as win rate. */
  lemma BucketOfYear(won: seq<Opportunity>, lost: seq<Opportunity>, y: int)
    requires y in YearsOf(won) + YearsOf(lost)
    ensures var row := Bucket(won, lost, y);
      row.total == row.won + row.lost > 0 && 0 <= row.winRate <= 100
  {
    YearsOfCount(won, y);
    YearsOfCount(lost, y);
  }

  /** A year has a row exactly when some won or lost opportunity closes in it. */
  lemma YearDataYears(won: seq<Opportunity>, lost: seq<Opportunity>, y: int)
    ensures var rows := YearDataOf(won, lost);
      (exists i :: 0 <= i < |rows| && rows[i].year == y) <==> CountYear(won, y) + CountYear(lost, y) > 0
  {
    var ys := SortedInts(YearsOf(won) + YearsOf(lost));
    var rows := Buckets(won, lost, ys);
    assert rows == YearDataOf(won, lost);
    YearsOfCount(won, y);
    YearsOfCount(lost, y);
    if exists i :: 0 <= i < |rows| && rows[i].year == y {
      var i :| 0 <= i < |rows| && rows[i].year == y;
      assert rows[i] == Bucket(won, lost, ys[i]);
      assert ys[i] in ys;
      assert y in YearsOf(won) + YearsOf(lost);
    }
    if CountYear(won, y) + CountYear(lost, y) > 0 {
      assert y in YearsOf(won) + YearsOf(lost);
      assert y in ys;
      var i :| 0 <= i < |ys| && ys[i] == y;
      assert rows[i] == Bucket(won, lost, ys[i]);
    }
  }

  /** The number of opportunities of `s` whose year is one of `ys`. */
  function CountIn(s: seq<Opportunity>, ys: seq<int>): nat {
    if ys == [] then 0 else CountIn(s, ys[..|ys| - 1]) + CountYear(s, ys[|ys| - 1])
  }

  function SumTotals(rows: seq<YearData>): nat {
    if rows == [] then 0 else SumTotals(rows[..|rows| - 1]) + rows[|rows| - 1].total
  }

  function Indicator(o: Opportunity, ys: seq<int>): nat {
    var y := ChartYear(o.closeDate);
    if y.Some? && y.value in ys then 1 else 0
  }

  lemma {:induction false} SumTotalsOfBuckets(won: seq<Opportunity>, lost: seq<Opportunity>, ys: seq<int>)
    ensures SumTotals(Buckets(won, lost, ys)) == CountIn(won, ys) + CountIn(lost, ys)
  {
    if ys != [] {
      SumTotalsOfBuckets(won, lost, ys[..|ys| - 1]);
      assert Buckets(won, lost, ys)[..|ys| - 1] == Buckets(won, lost, ys[..|ys| - 1]);
    }
  }

  /** One more opportunity adds one to the counts of distinct years when its year is among them, else nothing. */
  lemma {:induction false} CountInStep(s: seq<Opportunity>, o: Opportunity, ys: seq<int>)
    requires StrictlyIncreasing(ys)
    ensures CountIn(s + [o], ys) == CountIn(s, ys) + Indicator(o, ys)
  {
    var s' := s + [o];
    assert s'[..|s'| - 1] == s;
    if ys != [] {
      var init := ys[..|ys| - 1];
      CountInStep(s, o, init);
      var y := ChartYear(o.closeDate);
      if y.Some? && y.value == ys[|ys| - 1] {
        assert y.value !in init;
      }
      assert ys == init + [ys[|ys| - 1]];
    }
  }

  /** Counting over distinct years counts each opportunity at most once. */
  lemma {:induction false} CountInAtMostLength(s: seq<Opportunity>, ys: seq<int>)
    requires StrictlyIncreasing(ys)
    ensures CountIn(s, ys) <= |s|
  {
    if s == [] {
      CountInEmpty(ys);
    } else {
      var init := s[..|s| - 1];
      CountInAtMostLength(init, ys);
      CountInStep(init, s[|s| - 1], ys);
      assert init + [s[|s| - 1]] == s;
    }
  }

  lemma {:induction false} CountInEmpty(ys: seq<int>)
    ensures CountIn([], ys) == 0
  {
    if ys != [] {
      CountInEmpty(ys[..|ys| - 1]);
    }
  }

  /** Undated opportunities join no row, so the rows count at most all the inputs. */
  lemma TotalsAtMostInputs(won: seq<Opportunity>, lost: seq<Opportunity>)
    ensures SumTotals(YearDataOf(won, lost)) <= |won| + |lost|
  {
    var ys := SortedInts(YearsOf(won) + YearsOf(lost));
    SumTotalsOfBuckets(won, lost, ys);
    CountInAtMostLength(won, ys);
    CountInAtMostLength(lost, ys);
  }

  /** Inputs with no readable year give no rows and a maximum of -Infinity. */
  lemma NoDatesNoRows(won: seq<Opportunity>, lost: seq<Opportunity>)
    requires forall o :: o in won + lost ==> ChartYear(o.closeDate).None?
    ensures YearDataOf(won, lost) == [] && MaxTotal(YearDataOf(won, lost)) == NegInfinity
  {
    NoYears(won);
    NoYears(lost);
  }

  lemma {:induction false} NoYears(s: seq<Opportunity>)
    requires forall o :: o in s ==> ChartYear(o.closeDate).None?
    ensures YearsOf(s) == {}
  {
    if s != [] {
      NoYears(s[..|s| - 1]);
    }
  }
}
