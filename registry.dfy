/** The widget registry of BIS.py, main.py and BISapps.py: the module-level `WIDGETS`
    dictionary that `register_widget` fills in while the module loads, and the two ways the
    `/widgets.json` endpoint reads it back. */
module Registry {
  import opened Common

  /** A widget configuration dictionary. */
  type Config = Dict

  /** `WIDGETS`, keyed by the configurations' `endpoint` values. */
  type Widgets = map<Json, Config>

  /** `widget_config.get("endpoint")`. */
  function EndpointOf(config: Config): (e: Json)
    ensures "endpoint" in config ==> e == config["endpoint"]
    ensures "endpoint" !in config ==> e == JNull
  {
    Get(config, "endpoint")
  }

  /** The configuration after registration: when the endpoint is truthy, a missing `id`
      defaults to it; nothing else is touched. */
  function WithDefaultId(config: Config): (c: Config)
    ensures forall k :: k in config ==> k in c && c[k] == config[k]
    ensures !Truthy(EndpointOf(config)) ==> c == config
    ensures Truthy(EndpointOf(config)) ==> c.Keys == config.Keys + {"id"}
    ensures Truthy(EndpointOf(config)) && "id" !in config ==> c["id"] == EndpointOf(config)
  {
    var endpoint := EndpointOf(config);
    if Truthy(endpoint) && "id" !in config then config["id" := endpoint] else config
  }

  /** `WIDGETS` after `register_widget(config)`: the configuration is stored under its
      endpoint when that is truthy, every other entry stays as it was, and an endpoint
      that is a list or a dictionary makes the assignment raise `TypeError`. */
  function Registered(widgets: Widgets, config: Config): (r: Result<Widgets, Failure>)
    ensures r.Err? <==> Truthy(EndpointOf(config)) && !Hashable(EndpointOf(config))
    ensures r.Err? ==> r.error == Unhashable
    ensures !Truthy(EndpointOf(config)) ==> r == Ok(widgets)
    ensures r.Ok? && Truthy(EndpointOf(config)) ==>
      EndpointOf(config) in r.value && r.value[EndpointOf(config)] == WithDefaultId(config)
    ensures r.Ok? ==> r.value.Keys <= widgets.Keys + {EndpointOf(config)}
    ensures r.Ok? ==> forall k :: k in widgets && k != EndpointOf(config) ==> k in r.value && r.value[k] == widgets[k]
  {
    var endpoint := EndpointOf(config);
    if !Truthy(endpoint) then Ok(widgets)
    else if !Hashable(endpoint) then Err(Unhashable)
    else Ok(widgets[endpoint := WithDefaultId(config)])
  }

  /** `bis_credit_chart`, the key that BIS.py's `get_widgets` overrides. */
  const ChartKey: Json := JStr("bis_credit_chart")

  class WidgetRegistry {
    var widgets: Widgets

    /** `WIDGETS = {}`. */
    constructor()
      ensures widgets == map[]
    {
      widgets := map[];
    }

    /** `register_widget(config)(func)`: returns the wrapper, which answers exactly what
        `func` answers, and the configuration as the registry now holds it (the source
        adds the default `id` to the caller's dictionary in place). */
    method Register<A, B>(config: Config, func: A -> B) returns (r: Result<A -> B, Failure>, stored: Config)
      modifies this
      ensures stored == WithDefaultId(config)
      ensures r.Ok? ==> forall a :: r.value(a) == func(a)
      ensures r.Err? <==> Registered(old(widgets), config).Err?
      ensures r.Err? ==> r.error == Registered(old(widgets), config).error && widgets == old(widgets)
      ensures r.Ok? ==> widgets == Registered(old(widgets), config).value
    {
      var endpoint := EndpointOf(config);
      stored := config;
      if Truthy(endpoint) {
        if "id" !in stored {
          stored := stored["id" := endpoint];
        }
        if !Hashable(endpoint) {
          r := Err(Unhashable);
          return;
        }
        widgets := widgets[endpoint := stored];
      }
      r := Ok(a => func(a));
    }

    /** main.py's and BISapps.py's `get_widgets`: the registry itself. */
    function Listing(): (w: Widgets)
      reads this
      ensures w.Keys == widgets.Keys
      ensures forall k :: k in w ==> w[k] == widgets[k]
    {
      widgets
    }

    /** BIS.py's `get_widgets`: a copy of the registry with `bis_credit_chart` set to the
        chart widget, whatever was registered under that key; the registry is read only. */
    function ListingWithChart(chart: Config): (w: Widgets)
      reads this
      ensures w.Keys == widgets.Keys + {ChartKey}
      ensures w[ChartKey] == chart
      ensures forall k :: k in widgets && k != ChartKey ==> w[k] == widgets[k]
    {
      widgets[ChartKey := chart]
    }
  }

  /** Registering two configurations with different endpoints gives the same registry in
      either order. */
  lemma RegisterCommutes(widgets: Widgets, c1: Config, c2: Config)
    requires Truthy(EndpointOf(c1)) && Hashable(EndpointOf(c1))
    requires Truthy(EndpointOf(c2)) && Hashable(EndpointOf(c2))
    requires EndpointOf(c1) != EndpointOf(c2)
    ensures Registered(Registered(widgets, c1).value, c2) == Registered(Registered(widgets, c2).value, c1)
  {
    var w12 := Registered(Registered(widgets, c1).value, c2).value;
    var w21 := Registered(Registered(widgets, c2).value, c1).value;
    assert w12.Keys == w21.Keys;
    forall k | k in w12 ensures w12[k] == w21[k] {
    }
    assert w12 == w21;
  }

  /** Registering the same configuration twice changes nothing the second time. */
  lemma RegisterIdempotent(widgets: Widgets, config: Config)
    requires Registered(widgets, config).Ok?
    ensures Registered(Registered(widgets, config).value, config) == Registered(widgets, config)
  {
    var once := Registered(widgets, config).value;
    if Truthy(EndpointOf(config)) {
      var twice := Registered(once, config).value;
      assert twice.Keys == once.Keys;
      assert twice == once;
    }
  }
}
