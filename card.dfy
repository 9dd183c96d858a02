/**
 * The insight card: its KPI figures, the heights and labels of the yearly
 * won/lost bars, the year axis of the revenue chart, which opportunities a
 * hovered chart point lists, and where its tooltip is placed.
 */
module Card {
  import opened Host
  import opened Seqs
  import opened JsText
  import opened Opportunities
  import opened YearBuckets
  import opened Trend

  // ---------------------------------------------------------------------
  // KPI metrics
  // ---------------------------------------------------------------------

  function RevenueOf(o: Opportunity): real { o.revenue }
  function ProbabilityOf(o: Opportunity): real { o.probability }

  datatype Kpis = Kpis(
    totalActiveOpportunities: nat,
    totalActiveValue: real,
    avgProbability: int,
    totalWonOpportunities: nat,
    totalLostOpportunities: nat,
    winLossRatio: int,
    totalWonRevenue: real,
    totalLostRevenue: real,
    avgDealSize: real)

  /**
   * The card's metrics of its active, won and lost opportunities: the mean
   * probability rounded (0 without active deals), the won share of closed
   * deals as a rounded percentage (0 without closed deals), and the mean
   * won deal (0 without won deals).
   */
  function KpisOf(active: seq<Opportunity>, won: seq<Opportunity>, lost: seq<Opportunity>): (k: Kpis)
    ensures k.totalActiveOpportunities == |active| && k.totalWonOpportunities == |won| && k.totalLostOpportunities == |lost|
    ensures k.totalActiveValue == SumOf(active, RevenueOf)
    ensures k.totalWonRevenue == SumOf(won, RevenueOf) && k.totalLostRevenue == SumOf(lost, RevenueOf)
    ensures active == [] ==> k.avgProbability == 0
    ensures active != [] ==>
      var mean := SumOf(active, ProbabilityOf) / |active| as real;
      mean - 1.0 / 2.0 < k.avgProbability as real <= mean + 1.0 / 2.0
    ensures 0 <= k.winLossRatio <= 100
    ensures |won| + |lost| == 0 ==> k.winLossRatio == 0
    ensures |won| + |lost| > 0 ==>
      var share := |won| as real / (|won| + |lost|) as real * 100.0;
      share - 1.0 / 2.0 < k.winLossRatio as real <= share + 1.0 / 2.0
    ensures |won| > 0 ==> k.avgDealSize * |won| as real == k.totalWonRevenue
    ensures |won| == 0 ==> k.avgDealSize == 0.0
  {
    var n := |active|;
    var w, l := |won|, |lost|;
    var wonRevenue := SumOf(won, RevenueOf);
    var ratio := if w + l > 0 then
                   FractionWithin(w as real, (w + l) as real);
                   Round(w as real / (w + l) as real * 100.0)
                 else 0;
    var avgDealSize := if w > 0 then
                         QuotientTimes(wonRevenue, w as real);
                         wonRevenue / w as real
                       else 0.0;
    Kpis(n, SumOf(active, RevenueOf),
         if n != 0 then Round(SumOf(active, ProbabilityOf) / n as real) else 0,
         w, l, ratio, wonRevenue, SumOf(lost, RevenueOf), avgDealSize)
  }

  /** A sum of values within [lo, hi] lies within n·lo and n·hi. */
  lemma {:induction false} SumBounds(s: seq<Opportunity>, f: Opportunity -> real, lo: real, hi: real)
    requires forall i :: 0 <= i < |s| ==> lo <= f(s[i]) <= hi
    ensures |s| as real * lo <= SumOf(s, f) <= |s| as real * hi
  {
    if s != [] {
      SumBounds(s[..|s| - 1], f, lo, hi);
    }
  }

  /** With every probability a percentage, so is the rounded average. */
  lemma AvgProbabilityInRange(active: seq<Opportunity>, won: seq<Opportunity>, lost: seq<Opportunity>)
    requires forall i :: 0 <= i < |active| ==> 0.0 <= active[i].probability <= 100.0
    ensures 0 <= KpisOf(active, won, lost).avgProbability <= 100
  {
    if active != [] {
      SumBounds(active, ProbabilityOf, 0.0, 100.0);
      var n := |active| as real;
      var mean := SumOf(active, ProbabilityOf) / n;
      assert 0.0 <= mean <= 100.0 by {
        assert 0.0 <= SumOf(active, ProbabilityOf) <= n * 100.0;
      }
    }
  }

  /** The card's win/loss ratio is the yearly chart's win rate applied to all closed deals. */
  lemma RatioIsWinRate(active: seq<Opportunity>, won: seq<Opportunity>, lost: seq<Opportunity>)
    ensures KpisOf(active, won, lost).winLossRatio == WinRate(|won|, |lost|)
  {
    if |won| == 0 && |lost| > 0 {
      assert (|won| as real / (|won| + |lost|) as real) * 100.0 == 0.0;
      assert Round(0.0) == 0;
    }
  }

  // ---------------------------------------------------------------------
  // The yearly won/lost bars
  // ---------------------------------------------------------------------

  /** A bar's height in percent of the largest yearly count; 0 unless that count is positive. */
  function BarHeight(count: nat, maxCount: JsNumber): (h: real)
    ensures h >= 0.0
    ensures !(maxCount.Finite? && maxCount.v > 0.0) || count == 0 ==> h == 0.0
    ensures maxCount.Finite? && count as real <= maxCount.v ==> h <= 100.0
    ensures maxCount == Finite(count as real) && count > 0 ==> h == 100.0
  {
    if maxCount.Finite? && maxCount.v > 0.0 then
      DivLe(0.0, count as real, maxCount.v);
      if count as real <= maxCount.v then
        FractionWithin(count as real, maxCount.v);
        count as real / maxCount.v * 100.0
      else count as real / maxCount.v * 100.0
    else 0.0
  }

  /** The count is printed on a bar only when it is positive and the bar is taller than 15%. */
  predicate ShowsCount(count: nat, heightPercent: real) { count > 0 && heightPercent > 15.0 }

  /**
   * Scaled by the largest yearly total, each year's won and lost bars are
   * between 0 and 100% and, stacked, never pass 100%; the year with the
   * largest total fills it.
   */
  lemma {:induction false} BarHeightsInRange(rows: seq<YearData>)
    ensures var m := MaxTotal(rows);
      forall i :: 0 <= i < |rows| ==>
        && 0.0 <= BarHeight(rows[i].won, m) && 0.0 <= BarHeight(rows[i].lost, m)
        && BarHeight(rows[i].won, m) + BarHeight(rows[i].lost, m) <= 100.0
        && (m.Finite? && m.v > 0.0 && (rows[i].won + rows[i].lost) as real == m.v ==>
              BarHeight(rows[i].won, m) + BarHeight(rows[i].lost, m) == 100.0)
  {
    var m := MaxTotal(rows);
    forall i | 0 <= i < |rows|
      ensures 0.0 <= BarHeight(rows[i].won, m) && 0.0 <= BarHeight(rows[i].lost, m)
      ensures BarHeight(rows[i].won, m) + BarHeight(rows[i].lost, m) <= 100.0
      ensures m.Finite? && m.v > 0.0 && (rows[i].won + rows[i].lost) as real == m.v ==>
              BarHeight(rows[i].won, m) + BarHeight(rows[i].lost, m) == 100.0
    {
      if m.Finite? && m.v > 0.0 {
        StackedWithin(rows[i].won as real, rows[i].lost as real, m.v);
      }
    }
  }

  lemma StackedWithin(w: real, l: real, m: real)
    requires 0.0 <= w && 0.0 <= l && w + l <= m && 0.0 < m
    ensures 0.0 <= w / m * 100.0 && 0.0 <= l / m * 100.0
    ensures w / m * 100.0 + l / m * 100.0 <= 100.0
    ensures w + l == m ==> w / m * 100.0 + l / m * 100.0 == 100.0
  {
    assert w / m + l / m == (w + l) / m;
    DivLe(w + l, m, m);
    assert m / m == 1.0;
    DivLe(0.0, w, m);
    DivLe(0.0, l, m);
  }

  /** A part of a positive whole is a fraction within [0, 1]. */
  lemma FractionWithin(a: real, t: real)
    requires 0.0 <= a <= t && 0.0 < t
    ensures 0.0 <= a / t <= 1.0
    ensures 0.0 <= a / t * 100.0 <= 100.0
  {
    DivLe(0.0, a, t);
    DivLe(a, t, t);
  }

  lemma QuotientTimes(x: real, m: real)
    requires m != 0.0
    ensures x / m * m == x
  {
  }

  lemma DivLe(x: real, y: real, m: real)
    requires x <= y && 0.0 < m
    ensures x / m <= y / m
  {
    assert y / m - x / m == (y - x) / m;
  }

  /** A printed count belongs to a bar of more than 15% of a positive largest count. */
  lemma ShownCountIsLarge(count: nat, maxCount: JsNumber)
    requires ShowsCount(count, BarHeight(count, maxCount))
    ensures maxCount.Finite? && maxCount.v > 0.0 && count as real * 100.0 > 15.0 * maxCount.v
  {
    var h := BarHeight(count, maxCount);
    assert maxCount.Finite? && maxCount.v > 0.0;
    var c, v := count as real, maxCount.v;
    assert h == c / v * 100.0;
    PercentTimes(c, v);
    TimesGreater(h, 15.0, v);
    assert c * 100.0 == h * v > 15.0 * v;
  }

  lemma PercentTimes(c: real, v: real)
    requires v > 0.0
    ensures c / v * 100.0 * v == c * 100.0
  {
    QuotientTimes(c, v);
    assert c / v * 100.0 * v == c / v * v * 100.0;
  }

  lemma TimesGreater(a: real, b: real, m: real)
    requires a > b && m > 0.0
    ensures a * m > b * m
  {
    assert a * m - b * m == (a - b) * m;
  }

  // ---------------------------------------------------------------------
  // The year axis
  // ---------------------------------------------------------------------

  function TrendYearSet(trend: seq<Point>): set<int> {
    set i | 0 <= i < |trend| :: trend[i].year
  }

  /** `allYears`: the won, predicted and trend-line years, each once, ascending. */
  function AllYears(won: map<int, real>, predicted: map<int, real>, trend: seq<Point>): (ys: seq<int>)
    ensures StrictlyIncreasing(ys)
    ensures forall y :: y in ys <==> y in won || y in predicted || exists i :: 0 <= i < |trend| && trend[i].year == y
  {
    SortedInts(won.Keys + predicted.Keys + TrendYearSet(trend))
  }

  /** `Math.min(...ys)`. */
  function MinOf(ys: seq<int>): (m: int)
    requires ys != []
    ensures m in ys && forall i :: 0 <= i < |ys| ==> m <= ys[i]
  {
    if |ys| == 1 then ys[0]
    else
      var rest := MinOf(ys[..|ys| - 1]);
      assert forall i :: 0 <= i < |ys| - 1 ==> ys[..|ys| - 1][i] == ys[i];
      if ys[|ys| - 1] < rest then ys[|ys| - 1] else rest
  }

  /** `Math.max(...ys)`. */
  function MaxOf(ys: seq<int>): (m: int)
    requires ys != []
    ensures m in ys && forall i :: 0 <= i < |ys| ==> ys[i] <= m
  {
    if |ys| == 1 then ys[0]
    else
      var rest := MaxOf(ys[..|ys| - 1]);
      assert forall i :: 0 <= i < |ys| - 1 ==> ys[..|ys| - 1][i] == ys[i];
      if ys[|ys| - 1] > rest then ys[|ys| - 1] else rest
  }

  const ChartWidth: real := 320.0

  /**
   * `getXPosition`: the year's offset from the first axis year, scaled so
   * that the axis spans the 320-wide chart (a one-year axis is not
   * stretched). The card returns before this when the axis is empty.
   */
  function XPosition(year: int, allYears: seq<int>): (x: real)
    requires allYears != []
    ensures MinOf(allYears) <= year <= MaxOf(allYears) ==> 0.0 <= x <= ChartWidth
    ensures year == MinOf(allYears) ==> x == 0.0
    ensures year == MaxOf(allYears) && MaxOf(allYears) > MinOf(allYears) ==> x == ChartWidth
  {
    var minYear, maxYear := MinOf(allYears), MaxOf(allYears);
    var totalYears := if maxYear - minYear != 0 then maxYear - minYear else 1;
    ScaleWithin((year - minYear) as real, totalYears as real);
    ((year - minYear) as real / totalYears as real) * ChartWidth
  }

  /** Every axis year is placed on the chart, left to right in year order. */
  lemma AxisYearsOnChart(allYears: seq<int>, i: nat, j: nat)
    requires allYears != [] && i < |allYears| && j < |allYears|
    requires StrictlyIncreasing(allYears) && i < j
    ensures 0.0 <= XPosition(allYears[i], allYears) < XPosition(allYears[j], allYears) <= ChartWidth
  {
    var minYear, maxYear := MinOf(allYears), MaxOf(allYears);
    assert maxYear >= allYears[j] > allYears[i] >= minYear;
    ScaleMonotone((allYears[i] - minYear) as real, (allYears[j] - minYear) as real, (maxYear - minYear) as real);
  }

  lemma ScaleWithin(a: real, t: real)
    requires 0.0 < t
    ensures 0.0 <= a <= t ==> 0.0 <= a / t * ChartWidth <= ChartWidth
    ensures a == 0.0 ==> a / t * ChartWidth == 0.0
    ensures a == t ==> a / t * ChartWidth == ChartWidth
  {
    if 0.0 <= a <= t {
      FractionWithin(a, t);
    }
  }

  lemma ScaleMonotone(a: real, b: real, t: real)
    requires a < b && 0.0 < t
    ensures a / t * ChartWidth < b / t * ChartWidth
  {
    assert b / t - a / t == (b - a) / t;
  }

  // ---------------------------------------------------------------------
  // The opportunities of a chart point
  // ---------------------------------------------------------------------

  /**
   * The card's own year rule: a non-empty close date of exactly three
   * '/'-separated parts whose third part `parseInt`s to the year.
   */
  predicate ClosesIn(closeDate: string, year: int)
    ensures ClosesIn(closeDate, year) ==> multiset(closeDate)['/'] == 2
  {
    SplitCount(closeDate, '/');
    closeDate != "" && |Split(closeDate, '/')| == 3 && ParseInt(Split(closeDate, '/')[2]) == Some(year)
  }

  /** `getOpportunitiesForYear`: the won (or predicted-win) opportunities that close in `year`, in order. */
  function OpportunitiesForYear(year: int, isWon: bool, won: seq<Opportunity>, predictedWins: seq<Opportunity>): (r: seq<Opportunity>)
    ensures forall o :: o in r <==> o in (if isWon then won else predictedWins) && ClosesIn(o.closeDate, year)
    ensures Subseq(r, if isWon then won else predictedWins)
  {
    var source := if isWon then won else predictedWins;
    FilterIsSubseq(source, (o: Opportunity) => ClosesIn(o.closeDate, year));
    Filter(source, (o: Opportunity) => ClosesIn(o.closeDate, year))
  }

  lemma {:induction false} SplitAfter(a: string, rest: string)
    requires '/' !in a
    ensures Split(a + "/" + rest, '/') == [a] + Split(rest, '/')
  {
    if a != [] {
      assert (a + "/" + rest)[1..] == a[1..] + "/" + rest;
      SplitAfter(a[1..], rest);
      assert [a[0]] + a[1..] == a;
    } else {
      assert a + "/" + rest == ['/'] + rest;
    }
  }

  /**
   * A date shown as D/M/YYYY, with any text after the year (a time of day,
   * say) that starts with a non-digit and has no '/', closes in that year.
   */
  lemma DisplayDateClosesIn(d: string, m: string, y: nat, rest: string)
    requires '/' !in d && '/' !in m && '/' !in rest
    requires rest == [] || !IsDigit(rest[0])
    ensures ClosesIn(d + "/" + m + "/" + NatText(y) + rest, y)
  {
    var t := NatText(y) + rest;
    assert '/' !in t by {
      forall k | 0 <= k < |t| ensures t[k] != '/' {
        if k < |NatText(y)| { assert IsDigit(NatText(y)[k]); } else { assert t[k] == rest[k - |NatText(y)|]; }
      }
    }
    assert d + "/" + m + "/" + NatText(y) + rest == d + "/" + (m + "/" + t);
    SplitAfter(d, m + "/" + t);
    SplitAfter(m, t);
    SplitWithout(t);
    NatTextParsesBack(y, rest);
  }

  /** A date without '/' (an ISO date, say) closes in no year. */
  lemma NoSlashNoYear(closeDate: string, year: int)
    requires '/' !in closeDate
    ensures !ClosesIn(closeDate, year)
  {
    SplitWithout(closeDate);
  }

  /**
   * The three year rules disagree: a four-part date has the sales chart's
   * year but no year for the card.
   */
  lemma FourPartDate(a: string, b: string, c: string, y: nat)
    requires '/' !in a && '/' !in b && '/' !in c && 1000 <= y <= 9999
    ensures ChartYear(a + "/" + b + "/" + c + "/" + NatText(y)) == Some(y as int)
    ensures forall year :: !ClosesIn(a + "/" + b + "/" + c + "/" + NatText(y), year)
  {
    var t := NatText(y);
    assert '/' !in t by {
      forall k | 0 <= k < |t| ensures t[k] != '/' {
        assert IsDigit(t[k]);
      }
    }
    FourPartChartYear(a + "/" + b + "/" + c, y);
    FourPartNoCardYear(a, b, c, t);
  }

  lemma FourPartChartYear(prefix: string, y: nat)
    requires 1000 <= y <= 9999 && '/' !in NatText(y)
    ensures ChartYear(prefix + "/" + NatText(y)) == Some(y as int)
  {
    var t := NatText(y);
    NatTextLength4(y);
    LastSegmentAfter(prefix, t);
    assert t[..4] == t + [];
    NatTextParsesBack(y, []);
  }

  lemma FourPartNoCardYear(a: string, b: string, c: string, t: string)
    requires '/' !in a && '/' !in b && '/' !in c && '/' !in t
    ensures forall year :: !ClosesIn(a + "/" + b + "/" + c + "/" + t, year)
  {
    assert a + "/" + b + "/" + c + "/" + t == a + "/" + (b + "/" + (c + "/" + t));
    SplitAfter(a, b + "/" + (c + "/" + t));
    SplitAfter(b, c + "/" + t);
    SplitAfter(c, t);
    SplitWithout(t);
  }

  // ---------------------------------------------------------------------
  // The prediction tooltip
  // ---------------------------------------------------------------------

  const TooltipWidth: real := 250.0

  /**
   * The tooltip's left edge: 8 right of a point in the chart's left half but at most 60 (10 from the
   * right edge), else 8 left of it but at least 10 from the left edge.
   */
  function TooltipLeft(x: real): (left: real)
    ensures 0.0 <= x <= ChartWidth ==> 0.0 <= left && left + TooltipWidth <= ChartWidth
    ensures x < ChartWidth / 2.0 ==> left <= x + 8.0 && left <= ChartWidth - TooltipWidth - 10.0
    ensures x < ChartWidth / 2.0 ==> left == x + 8.0 || left == ChartWidth - TooltipWidth - 10.0
    ensures x < ChartWidth / 2.0 && x + 8.0 + TooltipWidth + 10.0 <= ChartWidth ==> left == x + 8.0
    ensures x >= ChartWidth / 2.0 ==> left >= x - TooltipWidth - 8.0 && left >= 10.0
    ensures x >= ChartWidth / 2.0 ==> left + TooltipWidth + 8.0 == x || left == 10.0
    ensures x >= ChartWidth / 2.0 && x - TooltipWidth - 8.0 >= 10.0 ==> left + TooltipWidth + 8.0 == x
  {
    if x < ChartWidth / 2.0 then Min(x + 8.0, ChartWidth - TooltipWidth - 10.0)
    else Max(x - TooltipWidth - 8.0, 10.0)
  }

  /** The tooltip's top edge: 80 above the point, but at least 10. */
  function TooltipTop(y: real): (top: real)
    ensures top >= 10.0
    ensures y >= 90.0 ==> top == y - 80.0
    ensures y < 90.0 ==> top == 10.0
  {
    Max(y - 80.0, 10.0)
  }

  /** The rows the tooltip lists: the first five. */
  function ListedOpportunities(opps: seq<Opportunity>): (r: seq<Opportunity>)
    ensures |r| <= 5 && |r| <= |opps|
    ensures r == opps[..|r|]
    ensures |opps| <= 5 ==> r == opps
    ensures |opps| > 5 ==> |r| == 5
  {
    if |opps| <= 5 then opps else opps[..5]
  }

  /** The "+N more..." line: present exactly when rows are left out, N being their number. */
  function MoreLabel(opps: seq<Opportunity>): (r: Option<string>)
    ensures r.Some? <==> |opps| > 5
    ensures r.Some? ==> r.value == "+" + NatText(|opps| - |ListedOpportunities(opps)|) + " more..."
  {
    if |opps| > 5 then Some("+" + NatText(|opps| - 5) + " more...") else None
  }
}
