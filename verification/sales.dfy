/** The Sales page: the revenue-and-profit chart, whose profit line is
    synthesised from the monthly revenue and the profit-margin KPI. JavaScript
    numbers are modelled as reals; no rounding takes place. */
module Sales {
  import opened Charts

  /** `revenue.map(value => value * (margin / 100))`. */
  function ProfitSeries(revenue: seq<real>, margin: real): seq<real>
  {
    if revenue == [] then []
    else [revenue[0] * (margin / 100.0)] + ProfitSeries(revenue[1..], margin)
  }

  /** The profit line has one point per revenue point, each the revenue
      scaled by the margin percentage. */
  lemma {:induction false} ProfitSeriesPointwise(revenue: seq<real>, margin: real)
    ensures |ProfitSeries(revenue, margin)| == |revenue|
    ensures forall i :: 0 <= i < |revenue| ==>
              ProfitSeries(revenue, margin)[i] == revenue[i] * (margin / 100.0)
  {
    if revenue != [] {
      ProfitSeriesPointwise(revenue[1..], margin);
    }
  }

  lemma ProfitSeriesOfNothing(margin: real)
    ensures ProfitSeries([], margin) == []
  {
  }

  /** The chart: revenue as fetched, then the synthesised profit, both over
      the revenue chart's labels. */
  function RevenueChart(labels: seq<string>, revenue: seq<real>, margin: real): (c: LineChart)
    ensures c.labels == labels
    ensures |c.datasets| == 2
    ensures c.datasets[0] == Dataset("Revenue", revenue)
    ensures c.datasets[1].legend == "Profit"
    ensures |c.datasets[1].data| == |revenue|
    ensures forall i :: 0 <= i < |revenue| ==> c.datasets[1].data[i] == revenue[i] * (margin / 100.0)
  {
    ProfitSeriesPointwise(revenue, margin);
    LineChart(labels, [Dataset("Revenue", revenue), Dataset("Profit", ProfitSeries(revenue, margin))])
  }

  const FallbackMargin: real := 30.0
  const FallbackMonths: seq<string> :=
    ["Jan", "Feb", "Mar", "Apr", "May", "Jun", "Jul", "Aug", "Sep", "Oct", "Nov", "Dec"]
  const FallbackRevenue: seq<real> :=
    [15000.0, 18000.0, 16000.0, 19000.0, 22000.0, 25000.0,
     28000.0, 30000.0, 27000.0, 32000.0, 35000.0, 33000.0]

  /** With the fallback bundle the chart spans the twelve months and its
      profit line is 30% of each month's revenue. */
  lemma FallbackProfit()
    ensures var c := RevenueChart(FallbackMonths, FallbackRevenue, FallbackMargin);
            && |c.labels| == |c.datasets[0].data| == 12
            && c.datasets[1].data ==
                 [4500.0, 5400.0, 4800.0, 5700.0, 6600.0, 7500.0,
                  8400.0, 9000.0, 8100.0, 9600.0, 10500.0, 9900.0]
  {
    ProfitSeriesPointwise(FallbackRevenue, FallbackMargin);
  }
}
