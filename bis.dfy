/** BIS.py, the combined backend: the table widget registered at import time, the table
    and chart endpoints, and `/widgets.json` with the chart widget merged in. main.py and
    chart.py repeat parts of this file verbatim; their modules reuse these members. */
module Bis {
  import opened Common
  import opened Registry
  import opened Fetch
  import opened Table
  import opened Grid
  import opened Pipeline
  import opened Plot

  const TableKey: Json := JStr("bis_credit_table")

  /** The configuration handed to `register_widget` for the table (its `params` list is
      not modelled). */
  const TableConfig: Config := map[
    "name" := JStr("BIS Credit Data Table"),
    "description" := JStr("Tabular view of BIS credit data time series"),
    "type" := JStr("table"),
    "endpoint" := TableKey,
    "gridData" := JObj(map["w" := JNum(20.0), "h" := JNum(13.0)])]

  /** The chart widget that `get_widgets` adds (its `params` list is not modelled). */
  const ChartConfig: Config := map[
    "name" := JStr("BIS Chart"),
    "description" := JStr("Plotly chart of BIS credit data for multiple countries"),
    "type" := JStr("chart"),
    "endpoint" := ChartKey,
    "gridData" := JObj(map["w" := JNum(20.0), "h" := JNum(13.0)])]

  const Title: string := "BIS Data"
  const Source: string := "Source: BIS, HedgeAnalytics"

  /** The conversions the model leaves to the libraries: `float()`, the quarter-label and
      start-date parsers of pandas (`None` where they raise), and `np.polyfit`. */
  datatype Numerics = Numerics(
    toFloat: string -> Option<real>,
    toDate: Json -> Option<int>,
    toStart: string -> Option<int>,
    fit: Fit)

  /** The query parameters of `bis_credit_chart`. */
  datatype ChartQuery = ChartQuery(resourceId: string, key: string, units: string, theme: string,
                                   startdate: Option<string>, mode: string)

  const DefaultChartQuery: ChartQuery :=
    ChartQuery("WS_TC", "Q.CN+XM+JP+US.N.A.M.USD.A", "USD bn", "light", None, "total")

  /** Importing the module: a fresh registry, then the decorator applied to the table
      endpoint with `TableConfig`. */
  method Load<A, B>(endpoint: A -> B) returns (registry: WidgetRegistry, handler: A -> B)
    ensures fresh(registry)
    ensures registry.widgets == map[TableKey := TableConfig["id" := TableKey]]
    ensures forall a :: handler(a) == endpoint(a)
  {
    registry := new WidgetRegistry();
    var r, stored := registry.Register(TableConfig, endpoint);
    handler := endpoint;
    match r {
      case Ok(h) => handler := h;
      case Err(_) => assert false;
    }
  }

  /** `/widgets.json` after import: the registered table, with `id` defaulted to its
      endpoint, and the chart widget. */
  method WidgetsAfterLoad<A, B>(endpoint: A -> B) returns (w: Widgets)
    ensures w.Keys == {TableKey, ChartKey}
    ensures w[TableKey] == TableConfig["id" := TableKey] && w[TableKey]["id"] == TableKey
    ensures w[ChartKey] == ChartConfig && "id" !in w[ChartKey]
  {
    var registry, handler := Load(endpoint);
    w := registry.ListingWithChart(ChartConfig);
  }

  /** `bis_credit_table(resource_id, key)`: the fetch with the fixed segments `dataflow`,
      `BIS` and `+`, then the projection loop. Since every parsed record has the three
      keys, the table served is exactly the parsed records. */
  method CreditTable(net: Network, resourceId: string, key: string, toFloat: string -> Option<real>)
    returns (reply: Reply<seq<Dict>>)
    ensures var fetched := FetchRecords(net, "dataflow", "BIS", resourceId, "+", key, toFloat);
      && (fetched.Err? ==> reply == Refused(StatusOf(fetched.error), fetched.error))
      && (fetched.Ok? ==> reply == Served(fetched.value))
  {
    var fetched := FetchRecords(net, "dataflow", "BIS", resourceId, "+", key, toFloat);
    match fetched {
      case Err(e) =>
        reply := Refused(StatusOf(e), e);
      case Ok(data) =>
        var table := ProjectTable(data);
        var got := Request(net, DataUrl("dataflow", "BIS", resourceId, "+", key), "application/xml");
        ParsedTable(got.value.xml.value, toFloat);
        reply := Served(table);
    }
  }

  /** The end of the chart endpoints: the 500 answer when `plot_ts` or plotly could not
      be imported, else `plot_ts(df_pivot, nome="BIS Data", units=units, theme=theme)`,
      a line chart with the default source line. */
  function Render(m: Matrix, units: string, theme: string, plotAvailable: bool, fit: Fit): (r: Reply<Figure>)
    requires Shaped(m)
    ensures !plotAvailable ==> r == Refused(500, PlotUnavailable)
    ensures plotAvailable && |m.columns| > 13 ==> r == Refused(500, ColorOutOfRange)
    ensures r.Served? <==> plotAvailable && |m.columns| <= 13
    ensures r.Served? ==> r.body.traces == ColumnTraces(m, Palette(|m.columns|), false, |m.columns|)
    ensures r.Served? ==> |r.body.traces| == |m.columns|
    ensures r.Served? ==> r.body.yTitle == units && r.body.xTitle.None? && r.body.tickFormat.None?
    ensures r.Served? ==> r.body.style == ThemeStyle(theme)
    ensures r.Served? ==>
      r.body.annotations == [Annotation(Source, ThemeStyle(theme).text), Annotation("<b>" + Title + "<b>", ThemeStyle(theme).text)]
  {
    if !plotAvailable then Refused(500, PlotUnavailable)
    else
      assert !IsPercent("line") by {
        assert Lower("line") == "line";
        assert !Contains("line", "pct") by {
          forall i ensures !OccursAt("line", "pct", i) { }
        }
      }
      ReplyOf(PlotFigure(m, Title, units, "line", Source, theme, fit))
  }

  /** `bis_credit_chart` of BIS.py; `plotAvailable` says whether the optional import of
      `plot_ts` and plotly succeeded. The 404 for an empty parse comes before any date is
      read, and the 400 for a bad start date before the pivot. */
  function CreditChart(net: Network, q: ChartQuery, num: Numerics, plotAvailable: bool): (r: Reply<Figure>)
    ensures var fetched := FetchSimpleRecords(net, q.resourceId, q.key, num.toFloat);
      && (fetched.Err? ==> r == Refused(StatusOf(fetched.error), fetched.error))
      && (fetched.Ok? && fetched.value == [] ==> r == Refused(404, NoData))
      && (fetched.Ok? ==>
            var chart := ChartMatrix(fetched.value, num.toDate, q.startdate, num.toStart, q.mode, q.units);
            && (chart.Err? ==> r == Refused(StatusOf(chart.error), chart.error))
            && (chart.Ok? ==> r == Render(chart.value.0, chart.value.1, q.theme, plotAvailable, num.fit)))
    ensures r.Served? ==> plotAvailable
    ensures r.Served? ==>
      r.body.yTitle == (if q.mode == "yoy" then "YoY % change" else if q.mode == "qoq" then "QoQ % change" else q.units)
  {
    match FetchSimpleRecords(net, q.resourceId, q.key, num.toFloat)
    case Err(e) => Refused(StatusOf(e), e)
    case Ok(records) =>
      match ChartMatrix(records, num.toDate, q.startdate, num.toStart, q.mode, q.units)
      case Err(e) => Refused(StatusOf(e), e)
      case Ok((m, units)) => Render(m, units, q.theme, plotAvailable, num.fit)
  }

  /** A start date that pandas cannot read is the 400 answer, whatever the mode or theme,
      once the fetch returned rows whose periods all parse. */
  lemma BadStartDateIs400(net: Network, q: ChartQuery, num: Numerics, plotAvailable: bool)
    requires FetchSimpleRecords(net, q.resourceId, q.key, num.toFloat).Ok?
    requires FetchSimpleRecords(net, q.resourceId, q.key, num.toFloat).value != []
    requires ConvertDates(RowsOf(FetchSimpleRecords(net, q.resourceId, q.key, num.toFloat).value), num.toDate).Ok?
    requires q.startdate.Some? && q.startdate.value != "" && num.toStart(q.startdate.value).None?
    ensures CreditChart(net, q, num, plotAvailable) == Refused(400, BadStartDate(q.startdate.value))
  {
  }
}
