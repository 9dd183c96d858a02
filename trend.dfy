/**
 * `processOpportunitiesForChart` (revenue per close year) and
 * `calculateTrendLine` (a straight line through the first and last year's
 * revenue, drawn over the won and predicted revenue charts).
 */
module Trend {
  import opened Host
  import opened Seqs
  import opened Opportunities

  // ---------------------------------------------------------------------
  // Revenue per year
  // ---------------------------------------------------------------------

  /**
   * Whether an opportunity contributes to the revenue chart: it has a close
   * date and a non-zero revenue, and the date's year (`yearOf` stands for
   * `new Date(d).getFullYear()`, None for an invalid date) is 2000 to 2050.
   */
  predicate Charted(o: Opportunity, yearOf: string -> Option<int>) {
    o.closeDate != "" && o.revenue != 0.0 && yearOf(o.closeDate).Some?
    && 2000 <= yearOf(o.closeDate).value <= 2050
  }

  /** The years some charted opportunity of `s` falls in. */
  function ChartedYears(s: seq<Opportunity>, yearOf: string -> Option<int>): set<int> {
    if s == [] then {}
    else
      var o := s[|s| - 1];
      ChartedYears(s[..|s| - 1], yearOf) + (if Charted(o, yearOf) then {yearOf(o.closeDate).value} else {})
  }

  /** The revenue of the charted opportunities of `s` in year `y`. */
  function ChartedRevenue(s: seq<Opportunity>, yearOf: string -> Option<int>, y: int): real {
    if s == [] then 0.0
    else
      var o := s[|s| - 1];
      ChartedRevenue(s[..|s| - 1], yearOf, y)
      + (if Charted(o, yearOf) && yearOf(o.closeDate).value == y then o.revenue else 0.0)
  }

  /** The dictionary `m` holds the revenue of `s` for exactly its charted years. */
  ghost predicate Grouped(m: map<int, real>, s: seq<Opportunity>, yearOf: string -> Option<int>) {
    && m.Keys == ChartedYears(s, yearOf)
    && forall y :: y in m ==> m[y] == ChartedRevenue(s, yearOf, y)
  }

  lemma {:induction false} UnchartedRevenue(s: seq<Opportunity>, yearOf: string -> Option<int>, y: int)
    requires y !in ChartedYears(s, yearOf)
    ensures ChartedRevenue(s, yearOf, y) == 0.0
  {
    if s != [] {
      UnchartedRevenue(s[..|s| - 1], yearOf, y);
    }
  }

  /** Every charted year lies in 2000..2050. */
  lemma {:induction false} ChartedYearsInRange(s: seq<Opportunity>, yearOf: string -> Option<int>, y: int)
    requires y in ChartedYears(s, yearOf)
    ensures 2000 <= y <= 2050
  {
    if s != [] {
      var o := s[|s| - 1];
      if !(Charted(o, yearOf) && y == yearOf(o.closeDate).value) {
        ChartedYearsInRange(s[..|s| - 1], yearOf, y);
      }
    }
  }

  /** One `forEach` step of `processOpportunitiesForChart`. */
  lemma GroupedStep(m: map<int, real>, s: seq<Opportunity>, yearOf: string -> Option<int>, o: Opportunity)
    requires Grouped(m, s, yearOf)
    ensures Charted(o, yearOf) ==>
      var y := yearOf(o.closeDate).value;
      Grouped(m[y := (if y in m then m[y] else 0.0) + o.revenue], s + [o], yearOf)
    ensures !Charted(o, yearOf) ==> Grouped(m, s + [o], yearOf)
  {
    var s' := s + [o];
    assert s'[..|s'| - 1] == s;
    if Charted(o, yearOf) {
      var y := yearOf(o.closeDate).value;
      if y !in m {
        UnchartedRevenue(s, yearOf, y);
      }
    }
  }

  /**
   * `processOpportunitiesForChart`: revenue summed per year. A year whose
   * running sum is 0 is reset to 0 before adding, which changes nothing.
   */
  method ProcessOpportunitiesForChart(opportunities: seq<Opportunity>, yearOf: string -> Option<int>)
      returns (oppsByYear: map<int, real>)
    ensures oppsByYear.Keys == ChartedYears(opportunities, yearOf)
    ensures forall y :: y in oppsByYear ==> oppsByYear[y] == ChartedRevenue(opportunities, yearOf, y)
  {
    oppsByYear := map[];
    var i := 0;
    while i < |opportunities|
      invariant 0 <= i <= |opportunities|
      invariant Grouped(oppsByYear, opportunities[..i], yearOf)
    {
      var opp := opportunities[i];
      assert opportunities[..i + 1] == opportunities[..i] + [opp];
      GroupedStep(oppsByYear, opportunities[..i], yearOf, opp);
      if opp.closeDate != "" && opp.revenue != 0.0 {
        var year := yearOf(opp.closeDate);
        if year.Some? && 2000 <= year.value <= 2050 {
          if year.value !in oppsByYear || oppsByYear[year.value] == 0.0 {
            oppsByYear := oppsByYear[year.value := 0.0];
          }
          oppsByYear := oppsByYear[year.value := oppsByYear[year.value] + opp.revenue];
        }
      }
      i := i + 1;
    }
    assert opportunities[..i] == opportunities;
  }

  /** The chart's years are all between 2000 and 2050, and each has a charted opportunity. */
  lemma ChartYearsMeaning(s: seq<Opportunity>, yearOf: string -> Option<int>, y: int)
    ensures y in ChartedYears(s, yearOf) ==> 2000 <= y <= 2050
    ensures y in ChartedYears(s, yearOf) <==> exists i :: 0 <= i < |s| && Charted(s[i], yearOf) && yearOf(s[i].closeDate) == Some(y)
  {
    if y in ChartedYears(s, yearOf) {
      ChartedYearsInRange(s, yearOf, y);
    }
    ChartedYearsWitness(s, yearOf, y);
  }

  lemma {:induction false} ChartedYearsWitness(s: seq<Opportunity>, yearOf: string -> Option<int>, y: int)
    ensures y in ChartedYears(s, yearOf) <==> exists i :: 0 <= i < |s| && Charted(s[i], yearOf) && yearOf(s[i].closeDate) == Some(y)
  {
    if s != [] {
      var init := s[..|s| - 1];
      ChartedYearsWitness(init, yearOf, y);
      if exists i :: 0 <= i < |init| && Charted(init[i], yearOf) && yearOf(init[i].closeDate) == Some(y) {
        var i :| 0 <= i < |init| && Charted(init[i], yearOf) && yearOf(init[i].closeDate) == Some(y);
        assert s[i] == init[i];
      }
      if exists i :: 0 <= i < |s| && Charted(s[i], yearOf) && yearOf(s[i].closeDate) == Some(y) {
        var i :| 0 <= i < |s| && Charted(s[i], yearOf) && yearOf(s[i].closeDate) == Some(y);
        if i < |init| {
          assert init[i] == s[i];
        }
      }
    }
  }

  // ---------------------------------------------------------------------
  // The trend line
  // ---------------------------------------------------------------------

  datatype Point = Point(year: int, revenue: JsNumber)

  function AsReal(y: int): real { y as real }

  /**
   * The years of both dictionaries, sorted ascending, a year present in
   * both appearing twice.
   */
  function TrendYears(won: map<int, real>, predicted: map<int, real>): (r: seq<int>)
    ensures |r| == |won.Keys| + |predicted.Keys|
  {
    SortBy(SortedInts(won.Keys) + SortedInts(predicted.Keys), AsReal)
  }

  /** `m[y] || 0` with a missing key read as undefined. */
  function OrZero(m: map<int, real>, y: int): real {
    if y in m then m[y] else 0.0
  }

  /** `wonData[year] || predictedData[year] || 0`. */
  function FirstTruthy(won: map<int, real>, predicted: map<int, real>, y: int): real {
    if OrZero(won, y) != 0.0 then won[y] else OrZero(predicted, y)
  }

  /** The revenues collected for `ys`: a year's non-zero won entry, then its non-zero predicted entry. */
  function DataPoints(won: map<int, real>, predicted: map<int, real>, ys: seq<int>): seq<real> {
    if ys == [] then []
    else
      var y := ys[|ys| - 1];
      DataPoints(won, predicted, ys[..|ys| - 1])
      + (if OrZero(won, y) != 0.0 then [won[y]] else [])
      + (if OrZero(predicted, y) != 0.0 then [predicted[y]] else [])
  }

  function Id(x: real): real { x }

  /** The mean of `xs`; 0 / 0 is NaN. */
  function Average(xs: seq<real>): (r: JsNumber)
    ensures r.NaN? <==> xs == []
  {
    if xs == [] then NaN else Finite(SumOf(xs, Id) / |xs| as real)
  }

  /**
   * The revenue the line is anchored at for a year of the dictionaries: its
   * won entry when it has one (even 0), else its predicted entry.
   */
  function Anchor(won: map<int, real>, predicted: map<int, real>, y: int): real {
    if y in won then won[y] else if y in predicted then predicted[y] else 0.0
  }

  /** The value at `y` of the line through (y0, r0) and (y1, r1). */
  function OnLine(y0: int, r0: real, y1: int, r1: real, y: int): real
    requires y0 != y1
  {
    r0 + (r1 - r0) / (y1 - y0) as real * (y - y0) as real
  }

  function LinePoints(ys: seq<int>, y0: int, r0: real, y1: int, r1: real): (r: seq<Point>)
    requires y0 != y1
    ensures |r| == |ys|
    ensures forall i :: 0 <= i < |ys| ==> r[i] == Point(ys[i], Finite(OnLine(y0, r0, y1, r1, ys[i])))
  {
    if ys == [] then [] else LinePoints(ys[..|ys| - 1], y0, r0, y1, r1) + [Point(ys[|ys| - 1], Finite(OnLine(y0, r0, y1, r1, ys[|ys| - 1])))]
  }

  function FallbackPoints(won: map<int, real>, predicted: map<int, real>, ys: seq<int>): (r: seq<Point>)
    ensures |r| == |ys|
    ensures forall i :: 0 <= i < |ys| ==> r[i] == Point(ys[i], Finite(FirstTruthy(won, predicted, ys[i])))
  {
    if ys == [] then [] else FallbackPoints(won, predicted, ys[..|ys| - 1]) + [Point(ys[|ys| - 1], Finite(FirstTruthy(won, predicted, ys[|ys| - 1])))]
  }

  /**
   * What `calculateTrendLine` returns: with fewer than two years, each
   * year's first truthy revenue; with one distinct year, two points at the
   * average of the collected revenues; otherwise every year's point on the
   * line through the first and last year's anchor revenue.
   */
  function TrendLine(won: map<int, real>, predicted: map<int, real>): (r: seq<Point>)
    ensures var ys := TrendYears(won, predicted);
      |r| == |ys| && forall i :: 0 <= i < |r| ==> r[i].year == ys[i]
  {
    var ys := TrendYears(won, predicted);
    SingleYearHasTwo(won, predicted);
    LineOverYears(won, predicted, ys)
  }

  /** The trend line over a given list of years; one distinct year comes as exactly two. */
  function LineOverYears(won: map<int, real>, predicted: map<int, real>, ys: seq<int>): (r: seq<Point>)
    requires |ys| >= 2 && ys[0] == ys[|ys| - 1] ==> |ys| == 2
    ensures |r| == |ys|
    ensures forall i :: 0 <= i < |r| ==> r[i].year == ys[i]
  {
    if |ys| < 2 then FallbackPoints(won, predicted, ys)
    else
      var y0, y1 := ys[0], ys[|ys| - 1];
      if y0 == y1 then
        var avg := Average(DataPoints(won, predicted, ys));
        [Point(y0, avg), Point(y1, avg)]
      else LinePoints(ys, y0, Anchor(won, predicted, y0), y1, Anchor(won, predicted, y1))
  }

  /** A year of the sorted list is a key of one of the dictionaries. */
  lemma TrendYearIsKey(won: map<int, real>, predicted: map<int, real>, k: nat)
    requires k < |TrendYears(won, predicted)|
    ensures TrendYears(won, predicted)[k] in won || TrendYears(won, predicted)[k] in predicted
  {
    var a, b := SortedInts(won.Keys), SortedInts(predicted.Keys);
    var ys := TrendYears(won, predicted);
    assert ys[k] in multiset(ys);
    assert ys[k] in multiset(a + b);
    assert ys[k] in a + b;
    assert ys[k] in a || ys[k] in b;
  }

  /** `calculateTrendLine`. */
  method CalculateTrendLine(wonData: map<int, real>, predictedData: map<int, real>) returns (r: seq<Point>)
    ensures r == TrendLine(wonData, predictedData)
  {
    var years := TrendYears(wonData, predictedData);
    TrendLineCases(wonData, predictedData);
    if |years| < 2 {
      return FallbackPoints(wonData, predictedData, years);
    }
    var firstYear, lastYear := years[0], years[|years| - 1];
    var dataPoints := CollectDataPoints(wonData, predictedData, years);
    var averageRevenue := Average(dataPoints);
    // Both end years are keys of a dictionary, so the average is never used as a fallback here.
    TrendYearIsKey(wonData, predictedData, 0);
    TrendYearIsKey(wonData, predictedData, |years| - 1);
    var firstYearRevenue := if firstYear in wonData then wonData[firstYear] else predictedData[firstYear];
    var lastYearRevenue := if lastYear in wonData then wonData[lastYear] else predictedData[lastYear];
    var yearSpan := lastYear - firstYear;
    if yearSpan == 0 {
      return [Point(firstYear, averageRevenue), Point(lastYear, averageRevenue)];
    }
    r := LineThrough(years, firstYear, firstYearRevenue, lastYear, lastYearRevenue);
  }

  /** The three cases of the trend line, one at a time. */
  lemma TrendLineCases(won: map<int, real>, predicted: map<int, real>)
    ensures var ys := TrendYears(won, predicted);
      && (|ys| < 2 ==> TrendLine(won, predicted) == FallbackPoints(won, predicted, ys))
      && (|ys| >= 2 && ys[0] == ys[|ys| - 1] ==>
            var avg := Average(DataPoints(won, predicted, ys));
            TrendLine(won, predicted) == [Point(ys[0], avg), Point(ys[|ys| - 1], avg)])
      && (|ys| >= 2 && ys[0] != ys[|ys| - 1] ==>
            TrendLine(won, predicted) == LinePoints(ys, ys[0], Anchor(won, predicted, ys[0]), ys[|ys| - 1], Anchor(won, predicted, ys[|ys| - 1])))
  {
    var ys := TrendYears(won, predicted);
    SingleYearHasTwo(won, predicted);
    assert TrendLine(won, predicted) == LineOverYears(won, predicted, ys);
  }

  /** The `years.forEach` loop collecting the truthy revenues. */
  method CollectDataPoints(wonData: map<int, real>, predictedData: map<int, real>, years: seq<int>)
      returns (dataPoints: seq<real>)
    ensures dataPoints == DataPoints(wonData, predictedData, years)
  {
    dataPoints := [];
    var i := 0;
    while i < |years|
      invariant 0 <= i <= |years|
      invariant dataPoints == DataPoints(wonData, predictedData, years[..i])
    {
      var year := years[i];
      assert years[..i + 1][..i] == years[..i];
      if year in wonData && wonData[year] != 0.0 {
        dataPoints := dataPoints + [wonData[year]];
      }
      if year in predictedData && predictedData[year] != 0.0 {
        dataPoints := dataPoints + [predictedData[year]];
      }
      i := i + 1;
    }
    assert years[..i] == years;
  }

  /** `years.map(year => ({ year, revenue: slope * year + intercept }))`. */
  method LineThrough(years: seq<int>, firstYear: int, firstYearRevenue: real, lastYear: int, lastYearRevenue: real)
      returns (r: seq<Point>)
    requires firstYear != lastYear
    ensures r == LinePoints(years, firstYear, firstYearRevenue, lastYear, lastYearRevenue)
  {
    var slope := (lastYearRevenue - firstYearRevenue) / (lastYear - firstYear) as real;
    var intercept := firstYearRevenue - slope * firstYear as real;
    r := [];
    var k := 0;
    while k < |years|
      invariant 0 <= k <= |years|
      invariant r == LinePoints(years[..k], firstYear, firstYearRevenue, lastYear, lastYearRevenue)
    {
      var year := years[k];
      assert years[..k + 1][..k] == years[..k];
      SlopeIntercept(firstYear, firstYearRevenue, lastYear, lastYearRevenue, year);
      assert slope * year as real + intercept == OnLine(firstYear, firstYearRevenue, lastYear, lastYearRevenue, year);
      assert LinePoints(years[..k + 1], firstYear, firstYearRevenue, lastYear, lastYearRevenue)
        == LinePoints(years[..k], firstYear, firstYearRevenue, lastYear, lastYearRevenue)
           + [Point(year, Finite(OnLine(firstYear, firstYearRevenue, lastYear, lastYearRevenue, year)))];
      r := r + [Point(year, Finite(slope * year as real + intercept))];
      k := k + 1;
    }
    assert years[..k] == years;
  }

  /** `slope * y + intercept` is the two-point form of the line. */
  lemma SlopeIntercept(y0: int, r0: real, y1: int, r1: real, y: int)
    requires y0 != y1
    ensures var slope := (r1 - r0) / (y1 - y0) as real;
      slope * y as real + (r0 - slope * y0 as real) == OnLine(y0, r0, y1, r1, y)
  {
    var slope := (r1 - r0) / (y1 - y0) as real;
    assert slope * (y - y0) as real == slope * y as real - slope * y0 as real;
  }

  // ---------------------------------------------------------------------
  // Properties of the trend line
  // ---------------------------------------------------------------------

  /** The line passes through both anchors. */
  lemma OnLineEndpoints(y0: int, r0: real, y1: int, r1: real)
    requires y0 != y1
    ensures OnLine(y0, r0, y1, r1, y0) == r0
    ensures OnLine(y0, r0, y1, r1, y1) == r1
  {
    var d := (y1 - y0) as real;
    assert (r1 - r0) / d * d == r1 - r0;
  }

  /** Any two points of the line have the anchors' slope. */
  lemma OnLineCollinear(y0: int, r0: real, y1: int, r1: real, y: int)
    requires y0 != y1
    ensures (OnLine(y0, r0, y1, r1, y) - r0) * (y1 - y0) as real == (r1 - r0) * (y - y0) as real
  {
    var d := (y1 - y0) as real;
    var e := (y - y0) as real;
    assert (r1 - r0) / d * e * d == (r1 - r0) / d * d * e;
    assert (r1 - r0) / d * d == r1 - r0;
  }

  /** With one distinct year, the two points carry the two (equal) years. */
  lemma SingleYearPoints(won: map<int, real>, predicted: map<int, real>)
    requires var ys := TrendYears(won, predicted); |ys| >= 2 && ys[0] == ys[|ys| - 1]
    ensures var r, ys := TrendLine(won, predicted), TrendYears(won, predicted);
      |r| == |ys| == 2 && r[0].year == ys[0] && r[1].year == ys[1]
  {
    var ys := TrendYears(won, predicted);
    TrendLineCases(won, predicted);
    SingleYearHasTwo(won, predicted);
    assert AsReal(ys[0]) <= AsReal(ys[1]);
  }

  /** The years are in ascending order. */
  lemma TrendLineSorted(won: map<int, real>, predicted: map<int, real>)
    ensures var r := TrendLine(won, predicted);
      forall i, j :: 0 <= i < j < |r| ==> r[i].year <= r[j].year
  {
    var ys := TrendYears(won, predicted);
    var r := TrendLine(won, predicted);
    forall i, j | 0 <= i < j < |r| ensures r[i].year <= r[j].year {
      assert AsReal(ys[i]) <= AsReal(ys[j]);
    }
  }

  /** Every point of `LinePoints` lies on the line through the two anchors. */
  lemma LinePointsCollinear(ys: seq<int>, y0: int, r0: real, y1: int, r1: real)
    requires y0 != y1
    ensures var r := LinePoints(ys, y0, r0, y1, r1);
      forall i :: 0 <= i < |r| ==> r[i].revenue.Finite? && (r[i].revenue.v - r0) * (y1 - y0) as real == (r1 - r0) * (r[i].year - y0) as real
  {
    var r := LinePoints(ys, y0, r0, y1, r1);
    forall i | 0 <= i < |r| ensures r[i].revenue.Finite? && (r[i].revenue.v - r0) * (y1 - y0) as real == (r1 - r0) * (r[i].year - y0) as real {
      assert r[i] == Point(ys[i], Finite(OnLine(y0, r0, y1, r1, ys[i])));
      OnLineCollinear(y0, r0, y1, r1, ys[i]);
    }
  }

  /** With at least two distinct years, the points run from the first anchor to the last along one line. */
  lemma TrendLineOnLine(won: map<int, real>, predicted: map<int, real>)
    requires var ys := TrendYears(won, predicted); |ys| >= 2 && ys[0] != ys[|ys| - 1]
    ensures var ys := TrendYears(won, predicted);
      var y0, y1 := ys[0], ys[|ys| - 1];
      var r0, r1 := Anchor(won, predicted, y0), Anchor(won, predicted, y1);
      TrendLine(won, predicted) == LinePoints(ys, y0, r0, y1, r1)
      && LinePoints(ys, y0, r0, y1, r1)[0] == Point(y0, Finite(r0))
      && LinePoints(ys, y0, r0, y1, r1)[|ys| - 1] == Point(y1, Finite(r1))
  {
    var ys := TrendYears(won, predicted);
    var y0, y1 := ys[0], ys[|ys| - 1];
    OnLineEndpoints(y0, Anchor(won, predicted, y0), y1, Anchor(won, predicted, y1));
  }

  /** When all years coincide there are exactly two of them: one per dictionary. */
  lemma SingleYearHasTwo(won: map<int, real>, predicted: map<int, real>)
    ensures var ys := TrendYears(won, predicted); |ys| >= 2 && ys[0] == ys[|ys| - 1] ==> |ys| == 2
  {
    var a, b := SortedInts(won.Keys), SortedInts(predicted.Keys);
    var ys := TrendYears(won, predicted);
    if |ys| >= 2 && ys[0] == ys[|ys| - 1] {
      AtMostOneDistinct(a, ys);
      AtMostOneDistinct(b, ys);
    }
  }

  /** A strictly increasing part of a sorted list whose ends are equal has at most one element. */
  lemma AtMostOneDistinct(a: seq<int>, ys: seq<int>)
    requires StrictlyIncreasing(a)
    requires |ys| >= 1 && ys[0] == ys[|ys| - 1] && SortedBy(ys, AsReal)
    requires multiset(a) <= multiset(ys)
    ensures |a| <= 1
  {
    forall i | 0 <= i < |a| ensures a[i] == ys[0] {
      assert a[i] in multiset(ys);
      var k :| 0 <= k < |ys| && ys[k] == a[i];
      assert AsReal(ys[0]) <= AsReal(ys[k]) <= AsReal(ys[|ys| - 1]);
    }
    if |a| >= 1 {
      IncreasingSpread(a);
      assert a[|a| - 1] == a[0];
    }
  }

  /** A strictly increasing integer sequence grows by at least one per step. */
  lemma {:induction false} IncreasingSpread(a: seq<int>)
    requires |a| >= 1 && StrictlyIncreasing(a)
    ensures a[|a| - 1] - a[0] >= |a| - 1
  {
    if |a| >= 2 {
      var init := a[..|a| - 1];
      assert StrictlyIncreasing(init);
      IncreasingSpread(init);
      assert a[|a| - 2] < a[|a| - 1];
    }
  }

  /** Won 100 in 2022 and predicted 300 in 2024: the line is those two points. */
  lemma TrendLineExample()
    ensures TrendLine(map[2022 := 100.0], map[2024 := 300.0]) == [Point(2022, Finite(100.0)), Point(2024, Finite(300.0))]
  {
    var won, predicted := map[2022 := 100.0], map[2024 := 300.0];
    assert won.Keys == {2022} && predicted.Keys == {2024};
    TwoYearLine(won, predicted, 2022, 2024);
  }

  /** One won year before one predicted year: the line runs from the won point to the predicted point. */
  lemma TwoYearLine(won: map<int, real>, predicted: map<int, real>, a: int, b: int)
    requires won.Keys == {a} && predicted.Keys == {b} && a < b
    ensures TrendLine(won, predicted) == [Point(a, Finite(won[a])), Point(b, Finite(predicted[b]))]
  {
    TwoYears(won, predicted, a, b);
    TrendLineOfTwo(won, predicted, a, b);
    assert b !in won;
    TwoLinePoints(a, won[a], b, predicted[b]);
  }

  lemma TrendLineOfTwo(won: map<int, real>, predicted: map<int, real>, a: int, b: int)
    requires TrendYears(won, predicted) == [a, b] && a != b
    ensures TrendLine(won, predicted) == LinePoints([a, b], a, Anchor(won, predicted, a), b, Anchor(won, predicted, b))
  {
  }

  lemma TwoLinePoints(a: int, ra: real, b: int, rb: real)
    requires a != b
    ensures LinePoints([a, b], a, ra, b, rb) == [Point(a, Finite(ra)), Point(b, Finite(rb))]
  {
    OnLineEndpoints(a, ra, b, rb);
    var r := LinePoints([a, b], a, ra, b, rb);
    assert |r| == 2;
  }

  /** The sorted years of one won and one later predicted year. */
  lemma TwoYears(won: map<int, real>, predicted: map<int, real>, a: int, b: int)
    requires won.Keys == {a} && predicted.Keys == {b} && a < b
    ensures TrendYears(won, predicted) == [a, b]
  {
    Singleton(won.Keys, a);
    Singleton(predicted.Keys, b);
    var ys := TrendYears(won, predicted);
    assert [a] + [b] == [a, b];
    assert multiset(ys) == multiset([a, b]);
    SortedPair(ys, a, b);
  }

  /** A sorted list holding two different integers once each is those two in order. */
  lemma SortedPair(ys: seq<int>, a: int, b: int)
    requires a < b && multiset(ys) == multiset([a, b]) && SortedBy(ys, AsReal)
    ensures ys == [a, b]
  {
    assert |ys| == |multiset(ys)| == 2;
    assert ys[0] in multiset(ys) && ys[1] in multiset(ys);
    assert a in multiset(ys) && b in multiset(ys);
    assert AsReal(ys[0]) <= AsReal(ys[1]);
    assert ys == [ys[0], ys[1]];
    assert multiset{ys[0], ys[1]} == multiset{a, b};
  }

  lemma Singleton(s: set<int>, x: int)
    requires s == {x}
    ensures SortedInts(s) == [x]
  {
    var r := SortedInts(s);
    assert |r| == 1;
    assert r[0] in s;
  }
}
