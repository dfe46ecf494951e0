/** The dashboard page: the four KPIs of the most recent year, the three
    "good / not good" badges, and the evolution chart built by reversing the
    most-recent-first record list in place. */
module Dashboard {
  import opened Options
  import opened Finance

  datatype Kpis = Kpis(margin: real, ebe: real, costRatio: real, profitability: real)

  /** KPIs of one record. `ebe` (operating surplus) is an amount; the other
      three are percentages of the revenue. */
  function CalculateKpis(d: FinancialRecord): (k: Kpis)
    requires d.revenue > 0.0
    ensures k.margin == Margin(d) && k.costRatio == CostRatio(d)
    ensures k.ebe + TotalCosts(d) == d.revenue
    ensures k.profitability == 100.0 - k.costRatio
    ensures k.margin + d.variableCosts / d.revenue * 100.0 == 100.0
    ensures k.ebe > 0.0 <==> k.profitability > 0.0
    ensures k.profitability > 0.0 <==> k.costRatio < 100.0
  {
    var ebe := d.revenue - TotalCosts(d);
    var k := Kpis(Margin(d), ebe, CostRatio(d), ebe / d.revenue * 100.0);
    MarginComplement(d);
    RemainderShare(d.revenue, TotalCosts(d));
    CostRatioAbove(d, 100.0);
    k
  }

  /** The margin card is green strictly above 30 percent. */
  predicate MarginIsGood(k: Kpis) { k.margin > 30.0 }

  /** The EBE card is green strictly above zero. */
  predicate EbeIsGood(k: Kpis) { k.ebe > 0.0 }

  /** The profitability card is green strictly above 10 percent. */
  predicate ProfitabilityIsGood(k: Kpis) { k.profitability > 10.0 }

  /** The three badges in terms of the raw amounts of the record. */
  lemma BadgesByAmounts(d: FinancialRecord)
    requires d.revenue > 0.0
    ensures MarginIsGood(CalculateKpis(d)) <==> d.variableCosts < 0.7 * d.revenue
    ensures EbeIsGood(CalculateKpis(d)) <==> TotalCosts(d) < d.revenue
    ensures ProfitabilityIsGood(CalculateKpis(d)) <==> TotalCosts(d) < 0.9 * d.revenue
  {
    MarginBelow(d, 30.0);
    CostRatioAbove(d, 90.0);
  }

  /** One point of the evolution chart. */
  datatype ChartPoint = ChartPoint(year: int, revenue: real, totalCosts: real, cashFlow: real)

  function PointOf(d: FinancialRecord): ChartPoint
  {
    ChartPoint(d.year, d.revenue, TotalCosts(d), d.cashFlow)
  }

  /** The chart series: one point per record, in the order of the records. */
  function ChartSeries(rows: seq<FinancialRecord>): (c: seq<ChartPoint>)
    ensures |c| == |rows|
    ensures forall k :: 0 <= k < |rows| ==> c[k] == PointOf(rows[k])
  {
    if rows == [] then [] else [PointOf(rows[0])] + ChartSeries(rows[1..])
  }

  /** The reverse of a sequence, built from its last element. */
  function Reversed<T>(s: seq<T>): seq<T>
  {
    if s == [] then [] else [s[|s| - 1]] + Reversed(s[..|s| - 1])
  }

  lemma {:induction false} ReversedAt<T>(s: seq<T>)
    ensures |Reversed(s)| == |s|
    ensures forall k :: 0 <= k < |s| ==> Reversed(s)[k] == s[|s| - 1 - k]
  {
    if s != [] {
      ReversedAt(s[..|s| - 1]);
    }
  }

  /** Reversing twice gives back the original order. */
  lemma ReversedTwice<T>(s: seq<T>)
    ensures Reversed(Reversed(s)) == s
  {
    ReversedAt(s);
    ReversedAt(Reversed(s));
  }

  /** Rows as the store returns them: most recent year first. */
  ghost predicate Descending(rows: seq<FinancialRecord>)
  {
    forall i, j :: 0 <= i < j < |rows| ==> rows[i].year >= rows[j].year
  }

  ghost predicate Ascending(c: seq<ChartPoint>)
  {
    forall i, j :: 0 <= i < j < |c| ==> c[i].year <= c[j].year
  }

  /** What the page renders. */
  datatype View =
    | LoadingView
    | EmptyState
    | Overview(latest: FinancialRecord, kpis: Option<Kpis>, chart: seq<ChartPoint>, showsEvolution: bool)

  /** One render of the page as the page code does it: `latestData` is read
      first, then the state list is reversed in place and mapped to the chart.
      The second component is the state list left behind by the render. */
  function RenderAsWritten(loading: bool, rows: seq<FinancialRecord>, kpis: Option<Kpis>)
    : (r: (View, seq<FinancialRecord>))
    ensures loading ==> r == (LoadingView, rows)
    ensures !loading && rows == [] ==> r == (EmptyState, rows)
    ensures !loading && rows != [] ==>
              r.0.Overview? && r.0.latest == rows[0] && r.0.kpis == kpis &&
              |r.1| == |rows| && |r.0.chart| == |rows| && (r.0.showsEvolution <==> |rows| > 1)
    ensures !loading && rows != [] ==> forall k :: 0 <= k < |rows| ==>
              r.1[k] == rows[|rows| - 1 - k] && r.0.chart[k] == PointOf(rows[|rows| - 1 - k])
  {
    ReversedAt(rows);
    if loading then (LoadingView, rows)
    else if rows == [] then (EmptyState, rows)
    else
      var after := Reversed(rows);
      var chart := ChartSeries(after);
      (Overview(rows[0], kpis, chart, |chart| > 1), after)
  }

  /** The render the page evidently means: the chart is built from a reversed
      copy and the state list is left as it is. */
  function RenderView(loading: bool, rows: seq<FinancialRecord>, kpis: Option<Kpis>): (v: View)
    ensures loading ==> v == LoadingView
    ensures !loading && rows == [] ==> v == EmptyState
    ensures !loading && rows != [] ==> v.Overview? && v.latest == rows[0] && v.kpis == kpis
    ensures v.Overview? ==> |v.chart| == |rows| && (v.showsEvolution <==> |rows| > 1)
    ensures v.Overview? ==> forall k :: 0 <= k < |rows| ==> v.chart[k] == PointOf(rows[|rows| - 1 - k])
  {
    ReversedAt(rows);
    if loading then LoadingView
    else if rows == [] then EmptyState
    else
      var chart := ChartSeries(Reversed(rows));
      Overview(rows[0], kpis, chart, |chart| > 1)
  }

  /** On most-recent-first rows, the corrected render shows the most recent
      year as the latest one and draws the chart in ascending year order. */
  lemma RenderViewOrder(rows: seq<FinancialRecord>, kpis: Option<Kpis>)
    requires Descending(rows) && rows != []
    ensures forall r :: r in rows ==> r.year <= RenderView(false, rows, kpis).latest.year
    ensures Ascending(RenderView(false, rows, kpis).chart)
  {
    var v := RenderView(false, rows, kpis);
    forall r | r in rows ensures r.year <= v.latest.year {
      var i :| 0 <= i < |rows| && rows[i] == r;
      assert i == 0 || rows[0].year >= rows[i].year;
    }
    forall i, j | 0 <= i < j < |v.chart| ensures v.chart[i].year <= v.chart[j].year {
      assert rows[|rows| - 1 - j].year >= rows[|rows| - 1 - i].year;
    }
  }

  /** The first render as written agrees with the corrected render. */
  lemma FirstRenderAgrees(loading: bool, rows: seq<FinancialRecord>, kpis: Option<Kpis>)
    ensures RenderAsWritten(loading, rows, kpis).0 == RenderView(loading, rows, kpis)
  {
  }

  /** As written, a render leaves the state list reversed, so a second render
      of the same state shows the OLDEST record as `latestData` and draws the
      chart from the most recent year down to the oldest. */
  lemma SecondRenderShowsOldest(rows: seq<FinancialRecord>, kpis: Option<Kpis>)
    requires |rows| >= 2
    ensures RenderAsWritten(false, rows, kpis).1 == Reversed(rows)
    ensures RenderAsWritten(false, Reversed(rows), kpis) ==
              (Overview(rows[|rows| - 1], kpis, ChartSeries(rows), true), rows)
  {
    ReversedTwice(rows);
    ReversedAt(rows);
  }

  /** A concrete instance: with the years 2024 and 2023 stored most recent
      first, the second render presents 2023 as the year under analysis. */
  lemma SecondRenderExample()
    ensures var rows := [FinancialRecord(2024, 100.0, 10.0, 20.0, 30.0, 5.0),
                         FinancialRecord(2023, 80.0, 10.0, 20.0, 30.0, 5.0)];
            var first := RenderAsWritten(false, rows, None);
            first.0.latest.year == 2024 &&
            RenderAsWritten(false, first.1, None).0.latest.year == 2023
  {
    var rows := [FinancialRecord(2024, 100.0, 10.0, 20.0, 30.0, 5.0),
                 FinancialRecord(2023, 80.0, 10.0, 20.0, 30.0, 5.0)];
    SecondRenderShowsOldest(rows, None);
  }

  method ReverseInPlace<T>(a: array<T>)
    modifies a
    ensures a[..] == Reversed(old(a[..]))
  {
    var lo, hi := 0, a.Length;
    while lo + 1 < hi
      invariant 0 <= lo <= hi <= a.Length && lo + hi == a.Length
      invariant forall k :: 0 <= k < lo ==> a[k] == old(a[a.Length - 1 - k])
      invariant forall k :: hi <= k < a.Length ==> a[k] == old(a[a.Length - 1 - k])
      invariant forall k :: lo <= k < hi ==> a[k] == old(a[k])
    {
      hi := hi - 1;
      a[lo], a[hi] := a[hi], a[lo];
      lo := lo + 1;
    }
    ReversedAt(old(a[..]));
  }

  /** The page's state: the fetched rows (a list the render reverses in
      place), the KPIs of the most recent row, and the loading flag. */
  class DashboardPage {
    var financialData: array<FinancialRecord>
    var kpis: Option<Kpis>
    var loading: bool

    constructor ()
      ensures fresh(financialData) && financialData.Length == 0 && kpis == None && loading
    {
      financialData := new FinancialRecord[0];
      kpis := None;
      loading := true;
    }

    /** `loadData`: on a non-empty answer, keep the rows and compute the KPIs
        from the first one, the most recent year; on an error or no rows,
        keep the previous state. Loading ends either way. */
    method LoadData(result: Fetched<seq<FinancialRecord>>)
      requires result.Fetched? && result.data != [] ==> result.data[0].revenue > 0.0
      modifies this
      ensures !loading
      ensures result.Fetched? && result.data != [] ==>
                fresh(financialData) && financialData[..] == result.data &&
                kpis == Some(CalculateKpis(result.data[0]))
      ensures !(result.Fetched? && result.data != []) ==>
                financialData == old(financialData) && kpis == old(kpis)
    {
      if result.Fetched? && result.data != [] {
        var rows := result.data;
        financialData := new FinancialRecord[|rows|](i requires 0 <= i < |rows| => rows[i]);
        kpis := Some(CalculateKpis(rows[0]));
      }
      loading := false;
    }

    /** One render, as written: reads the first row, then reverses the state
        list in place and maps it to the chart. */
    method Render() returns (v: View)
      modifies financialData
      ensures (v, financialData[..]) == RenderAsWritten(loading, old(financialData[..]), kpis)
    {
      if loading {
        return LoadingView;
      }
      if financialData.Length == 0 {
        return EmptyState;
      }
      var latestData := financialData[0];
      ReverseInPlace(financialData);
      var chartData := ChartSeries(financialData[..]);
      v := Overview(latestData, kpis, chartData, |chartData| > 1);
    }
  }

  /** A first visit: mount, load, render once. On a non-empty answer the page
      shows the corrected view of the rows with the KPIs of the first row;
      otherwise the empty state. */
  method FirstVisit(result: Fetched<seq<FinancialRecord>>) returns (v: View)
    requires result.Fetched? && result.data != [] ==> result.data[0].revenue > 0.0
    ensures result.Fetched? && result.data != [] ==>
              v == RenderView(false, result.data, Some(CalculateKpis(result.data[0])))
    ensures !(result.Fetched? && result.data != []) ==> v == EmptyState
  {
    var page := new DashboardPage();
    page.LoadData(result);
    v := page.Render();
    if result.Fetched? && result.data != [] {
      FirstRenderAgrees(false, result.data, page.kpis);
    }
  }
}
