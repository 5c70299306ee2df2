/** chart.py: the chart-only backend. Its fetch, parser and reshaping are those of
    BIS.py; it imports `plot_ts` unconditionally, so there is no 500 answer for a
    missing plotting library. */
module ChartApp {
  import opened Common
  import opened Fetch
  import opened Pipeline
  import opened Plot
  import Bis

  /** chart.py's `bis_credit_chart`. */
  function CreditChart(net: Network, q: Bis.ChartQuery, num: Bis.Numerics): (r: Reply<Figure>)
    ensures var fetched := FetchSimpleRecords(net, q.resourceId, q.key, num.toFloat);
      && (fetched.Err? ==> r == Refused(StatusOf(fetched.error), fetched.error))
      && (fetched.Ok? && fetched.value == [] ==> r == Refused(404, NoData))
      && (fetched.Ok? ==>
            var chart := ChartMatrix(fetched.value, num.toDate, q.startdate, num.toStart, q.mode, q.units);
            && (chart.Err? ==> r == Refused(StatusOf(chart.error), chart.error))
            && (chart.Ok? ==> (r.Served? <==> |chart.value.0.columns| <= 13))
            && (chart.Ok? && r.Refused? ==> r == Refused(500, ColorOutOfRange)))
  {
    Bis.CreditChart(net, q, num, true)
  }
}
