/** BISapps.py as a server imports it: the later definitions of `parse_bis_xml` and
    `fetch_bis_data` rebind the module names, and those bindings are what the endpoints
    look up when they run: the parser emits `{time_period, value}` records and the fetch
    prefers a JSON body. */
module BisApps {
  import opened Common
  import opened Registry
  import opened BisXml
  import opened Fetch
  import opened Table

  const TableKey: Json := JStr("bis_credit_table")

  /** The configuration handed to `register_widget` (its `params` list is not modelled). */
  const TableConfig: Config := map[
    "name" := JStr("BIS Credit Data Table"),
    "description" := JStr("Tabular view of BIS credit data time series"),
    "type" := JStr("table"),
    "endpoint" := TableKey,
    "gridData" := JObj(map["w" := JNum(12.0), "h" := JNum(8.0)])]

  /** The five path segments taken as query parameters. */
  datatype SeriesQuery = SeriesQuery(context: string, agencyId: string, resourceId: string, version: string, key: string)

  const DefaultQuery: SeriesQuery := SeriesQuery("dataflow", "BIS", "WS_TC", "+", "Q.AU.N.A.M.XDC.U")

  /** The effective fetch for a query. */
  function Fetched(net: Network, q: SeriesQuery, toFloat: string -> Option<real>): (r: Result<Json, Failure>)
    ensures r == FetchAny(net, q.context, q.agencyId, q.resourceId, q.version, q.key, toFloat)
    ensures r.Err? ==> StatusOf(r.error) == 500
  {
    FetchAny(net, q.context, q.agencyId, q.resourceId, q.version, q.key, toFloat)
  }

  /** Importing the module: a fresh registry, then the decorator applied to the table
      endpoint. */
  method Load<A, B>(endpoint: A -> B) returns (registry: WidgetRegistry, handler: A -> B)
    ensures fresh(registry)
    ensures registry.widgets == map[TableKey := TableConfig["id" := TableKey]]
    ensures forall a :: handler(a) == endpoint(a)
  {
    registry := new WidgetRegistry();
    var r, stored := registry.Register(TableConfig, endpoint);
    handler := endpoint;
    match r {
      case Ok(h) => handler := h;
      case Err(_) => assert false;
    }
  }

  /** `/widgets.json` after import: exactly one entry, the table, whose `id` is its
      endpoint and whose grid is 12 by 8. */
  method WidgetsAfterLoad<A, B>(endpoint: A -> B) returns (w: Widgets)
    ensures w.Keys == {TableKey}
    ensures "id" in w[TableKey] && w[TableKey]["id"] == TableKey
    ensures w[TableKey] == TableConfig["id" := TableKey]
  {
    var registry, handler := Load(endpoint);
    w := registry.Listing();
  }

  /** `bis_credit_table`: the effective fetch, then the loop that indexes every item by
      `time_period` and `value`; any failure along the way is the 500 answer. */
  method CreditTable(net: Network, q: SeriesQuery, toFloat: string -> Option<real>)
    returns (reply: Reply<seq<Dict>>)
    ensures var fetched := Fetched(net, q, toFloat);
      && (fetched.Err? ==> reply == Refused(500, fetched.error))
      && (fetched.Ok? ==> reply == ReplyOf(StrictTableOf(fetched.value)))
    ensures reply.Refused? ==> reply.status == 500
  {
    var fetched := Fetched(net, q, toFloat);
    match fetched {
      case Err(e) =>
        reply := Refused(StatusOf(e), e);
      case Ok(data) =>
        var table := StrictTable(data);
        reply := ReplyOf(table);
    }
  }

  /** When the server answers with XML that parses, the table has one row per `Obs`, in
      document order, copying `TIME_PERIOD` and the numeric value. */
  lemma XmlTable(net: Network, q: SeriesQuery, toFloat: string -> Option<real>)
    requires var got := Request(net, DataUrl(q.context, q.agencyId, q.resourceId, q.version, q.key), "application/json");
      got.Ok? && !IsJson(got.value) && got.value.xml.Some?
      && MapOrFail(Pairs(got.value.xml.value), PeriodBuilder(toFloat)).Ok?
    ensures var doc := Request(net, DataUrl(q.context, q.agencyId, q.resourceId, q.version, q.key), "application/json").value.xml.value;
      var records := MapOrFail(Pairs(doc), PeriodBuilder(toFloat)).value;
      && Fetched(net, q, toFloat) == Ok(RecordList(records))
      && StrictTableOf(Fetched(net, q, toFloat).value).Ok?
      && |StrictTableOf(Fetched(net, q, toFloat).value).value| == |records| == ObsCount(doc)
  {
    var doc := Request(net, DataUrl(q.context, q.agencyId, q.resourceId, q.version, q.key), "application/json").value.xml.value;
    PeriodTable(doc, toFloat);
    MapOrFailOk(Pairs(doc), PeriodBuilder(toFloat));
  }

  /** `/bis`: the effective fetch returned as it is, or, for any exception at all,
      including the `HTTPException` the fetch raises, `{"error": str(e)}` with status
      200; `describe` stands for `str(e)`. */
  function BisData(net: Network, q: SeriesQuery, toFloat: string -> Option<real>, describe: Failure -> string): (body: Json)
    ensures Fetched(net, q, toFloat).Ok? ==> body == Fetched(net, q, toFloat).value
    ensures Fetched(net, q, toFloat).Err? ==>
      body.JObj? && body.fields.Keys == {"error"} && body.fields["error"] == JStr(describe(Fetched(net, q, toFloat).error))
  {
    match Fetched(net, q, toFloat)
    case Ok(data) => data
    case Err(e) => JObj(map["error" := JStr(describe(e))])
  }
}
