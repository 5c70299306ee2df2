/** The XML observation parser (`parse_bis_xml` and its copies). The document is taken
    already parsed: the `<Series>` elements that `root.findall('.//Series')` returns, in
    document order, each with its attributes and the attributes of its `<Obs>` children.
    Every variant walks the same nested loops and appends one record per `<Obs>`; the
    variants differ only in the record they build, so the walk is written once
    (`Collect`) and takes the record builder as a parameter. */
module BisXml {
  import opened Common

  type Attrs = map<string, string>

  datatype Series = Series(attrs: Attrs, obs: seq<Attrs>)

  type Document = seq<Series>

  /** Builds the record of one `<Obs>` from its series' attributes and its own; an error
      stands for the exception the source raises (`float()` on non-numeric text). */
  type Builder = ((Attrs, Attrs)) -> Result<Dict, Failure>

  /** `element.get(name)`. */
  function Attr(a: Attrs, name: string): (v: Option<string>)
    ensures v.Some? <==> name in a
    ensures v.Some? ==> v.value == a[name]
  {
    if name in a then Some(a[name]) else None
  }

  /** The number of `<Obs>` elements in the document. */
  function ObsCount(doc: Document): nat
  {
    if doc == [] then 0 else ObsCount(doc[..|doc| - 1]) + |doc[|doc| - 1].obs|
  }

  /** The pairs (series attributes, obs attributes) of one series, in order. */
  function SeriesPairs(s: Series): (ps: seq<(Attrs, Attrs)>)
    ensures |ps| == |s.obs|
    ensures forall i :: 0 <= i < |ps| ==> ps[i] == (s.attrs, s.obs[i])
  {
    seq(|s.obs|, i requires 0 <= i < |s.obs| => (s.attrs, s.obs[i]))
  }

  /** Every `<Obs>` of the document with its series' attributes, series first and then
      observation, in document order. */
  function Pairs(doc: Document): (ps: seq<(Attrs, Attrs)>)
    ensures |ps| == ObsCount(doc)
  {
    if doc == [] then [] else Pairs(doc[..|doc| - 1]) + SeriesPairs(doc[|doc| - 1])
  }

  /** Observation `oi` of series `si` sits at position `ObsCount(doc[..si]) + oi`. */
  lemma {:induction false} PairsAt(doc: Document, si: nat, oi: nat)
    requires si < |doc| && oi < |doc[si].obs|
    ensures ObsCount(doc[..si]) + oi < |Pairs(doc)|
    ensures Pairs(doc)[ObsCount(doc[..si]) + oi] == (doc[si].attrs, doc[si].obs[oi])
    decreases |doc|
  {
    var init := doc[..|doc| - 1];
    if si == |doc| - 1 {
      assert init == doc[..si];
    } else {
      assert init[..si] == doc[..si];
      PairsAt(init, si, oi);
    }
  }

  /** The observation at position `k` of the flattening: its series and its place there. */
  function Locate(doc: Document, k: nat): (at: (nat, nat))
    requires k < ObsCount(doc)
    ensures at.0 < |doc| && at.1 < |doc[at.0].obs|
    ensures k == ObsCount(doc[..at.0]) + at.1
    decreases |doc|
  {
    var init := doc[..|doc| - 1];
    assert init == doc[..|doc| - 1];
    if k < ObsCount(init) then
      var at := Locate(init, k);
      assert init[..at.0] == doc[..at.0];
      at
    else
      (|doc| - 1, k - ObsCount(init))
  }

  lemma {:induction false} PairsPrefix(doc: Document, n: nat)
    requires n <= |doc|
    ensures Pairs(doc[..n]) <= Pairs(doc)
    decreases |doc|
  {
    if n < |doc| {
      var init := doc[..|doc| - 1];
      assert init[..n] == doc[..n];
      PairsPrefix(init, n);
    } else {
      assert doc[..n] == doc;
    }
  }

  /** The pairs of the first `si + 1` series extend those of the first `si`. */
  lemma PairsSnoc(doc: Document, si: nat)
    requires si < |doc|
    ensures Pairs(doc[..si + 1]) == Pairs(doc[..si]) + SeriesPairs(doc[si])
  {
    assert doc[..si + 1][..si] == doc[..si];
  }

  /** One step of the inner loop: the record of observation `oi` is appended, or its
      error is the error of the whole parse. */
  lemma CollectStep(doc: Document, si: nat, oi: nat, build: Builder, data: seq<Dict>)
    requires si < |doc| && oi < |doc[si].obs|
    requires MapOrFail(Pairs(doc[..si]) + SeriesPairs(doc[si])[..oi], build) == Ok(data)
    ensures build((doc[si].attrs, doc[si].obs[oi])).Ok? ==>
      MapOrFail(Pairs(doc[..si]) + SeriesPairs(doc[si])[..oi + 1], build)
        == Ok(data + [build((doc[si].attrs, doc[si].obs[oi])).value])
    ensures build((doc[si].attrs, doc[si].obs[oi])).Err? ==>
      MapOrFail(Pairs(doc), build) == Err(build((doc[si].attrs, doc[si].obs[oi])).error)
  {
    var seen := Pairs(doc[..si]) + SeriesPairs(doc[si])[..oi];
    var p := (doc[si].attrs, doc[si].obs[oi]);
    SeenSnoc(doc, si, oi);
    MapOrFailSnoc(seen, p, build, data);
    if build(p).Err? {
      SeenPrefix(doc, si, oi);
      MapOrFailKeepsError(seen + [p], Pairs(doc), build);
    }
  }

  /** The pairs seen after observation `oi` extend those seen before it by its pair. */
  lemma SeenSnoc(doc: Document, si: nat, oi: nat)
    requires si < |doc| && oi < |doc[si].obs|
    ensures Pairs(doc[..si]) + SeriesPairs(doc[si])[..oi] + [(doc[si].attrs, doc[si].obs[oi])]
      == Pairs(doc[..si]) + SeriesPairs(doc[si])[..oi + 1]
  {
    assert SeriesPairs(doc[si])[..oi + 1] == SeriesPairs(doc[si])[..oi] + [(doc[si].attrs, doc[si].obs[oi])];
  }

  /** The pairs seen so far are a prefix of all the pairs of the document. */
  lemma SeenPrefix(doc: Document, si: nat, oi: nat)
    requires si < |doc| && oi < |doc[si].obs|
    ensures Pairs(doc[..si]) + SeriesPairs(doc[si])[..oi + 1] <= Pairs(doc)
  {
    PairsSnoc(doc, si);
    PairsPrefix(doc, si + 1);
  }

  /** The inner loop of the parser over the observations of series `si`, appending to
      the records `data` of the series before it. */
  method CollectSeries(doc: Document, si: nat, build: Builder, data: seq<Dict>) returns (r: Result<seq<Dict>, Failure>)
    requires si < |doc|
    requires MapOrFail(Pairs(doc[..si]), build) == Ok(data)
    ensures r.Ok? ==> MapOrFail(Pairs(doc[..si + 1]), build) == r
    ensures r.Err? ==> MapOrFail(Pairs(doc), build) == r
  {
    var series := doc[si];
    var records := data;
    var oi := 0;
    assert Pairs(doc[..si]) + SeriesPairs(series)[..oi] == Pairs(doc[..si]);
    while oi < |series.obs|
      invariant 0 <= oi <= |series.obs|
      invariant MapOrFail(Pairs(doc[..si]) + SeriesPairs(series)[..oi], build) == Ok(records)
    {
      var record := build((series.attrs, series.obs[oi]));
      CollectStep(doc, si, oi, build, records);
      if record.Err? {
        return Err(record.error);
      }
      records := records + [record.value];
      oi := oi + 1;
    }
    assert SeriesPairs(series)[..oi] == SeriesPairs(series);
    PairsSnoc(doc, si);
    return Ok(records);
  }

  /** The nested loops of the parser: for each series, for each of its observations,
      append the record (or stop at the first exception). */
  method Collect(doc: Document, build: Builder) returns (r: Result<seq<Dict>, Failure>)
    ensures r == MapOrFail(Pairs(doc), build)
  {
    var data: seq<Dict> := [];
    var si := 0;
    while si < |doc|
      invariant 0 <= si <= |doc|
      invariant MapOrFail(Pairs(doc[..si]), build) == Ok(data)
    {
      var next := CollectSeries(doc, si, build, data);
      if next.Err? {
        return next;
      }
      data := next.value;
      si := si + 1;
    }
    assert doc[..si] == doc;
    return Ok(data);
  }

  /** `series.get('BORROWERS_CTY', 'Unknown')`. */
  function CountryOf(series: Attrs): (code: string)
    ensures "BORROWERS_CTY" in series ==> code == series["BORROWERS_CTY"]
    ensures "BORROWERS_CTY" !in series ==> code == "Unknown"
  {
    if "BORROWERS_CTY" in series then series["BORROWERS_CTY"] else "Unknown"
  }

  /** `float(obs.get('OBS_VALUE')) if obs.get('OBS_VALUE') else None`: an absent or empty
      attribute is `None`; any other text goes through `float()`, which may raise. */
  function ObsValue(obs: Attrs, toFloat: string -> Option<real>): (v: Result<Json, Failure>)
    ensures v == Ok(JNull) <==> ("OBS_VALUE" !in obs || obs["OBS_VALUE"] == "")
    ensures v.Err? <==> "OBS_VALUE" in obs && obs["OBS_VALUE"] != "" && toFloat(obs["OBS_VALUE"]).None?
    ensures v.Ok? && v.value != JNull ==> v.value == JNum(toFloat(obs["OBS_VALUE"]).value)
    ensures v.Err? ==> v.error == NotANumber(obs["OBS_VALUE"])
  {
    var text := Attr(obs, "OBS_VALUE");
    if text.None? || text.value == "" then Ok(JNull)
    else
      match toFloat(text.value)
      case None => Err(NotANumber(text.value))
      case Some(x) => Ok(JNum(x))
  }

  /** The record of `parse_bis_xml` in BIS.py, main.py and chart.py:
      `{'Date': ..., 'Value': ..., 'Country': ...}`. */
  function CountryRecord(series: Attrs, obs: Attrs, toFloat: string -> Option<real>): (r: Result<Dict, Failure>)
    ensures r.Ok? <==> ObsValue(obs, toFloat).Ok?
    ensures r.Err? ==> r.error == ObsValue(obs, toFloat).error
    ensures r.Ok? ==> r.value.Keys == {"Date", "Value", "Country"}
    ensures r.Ok? ==> r.value["Date"] == FromOptString(Attr(obs, "TIME_PERIOD"))
    ensures r.Ok? ==> r.value["Value"] == ObsValue(obs, toFloat).value
    ensures r.Ok? ==> r.value["Country"] == JStr(CountryOf(series))
  {
    match ObsValue(obs, toFloat)
    case Err(e) => Err(e)
    case Ok(v) =>
      Ok(map["Date" := FromOptString(Attr(obs, "TIME_PERIOD")), "Value" := v, "Country" := JStr(CountryOf(series))])
  }

  /** The record of the second, effective `parse_bis_xml` of BISapps.py:
      `{'time_period': ..., 'value': ...}`, with no country. */
  function PeriodRecord(obs: Attrs, toFloat: string -> Option<real>): (r: Result<Dict, Failure>)
    ensures r.Ok? <==> ObsValue(obs, toFloat).Ok?
    ensures r.Err? ==> r.error == ObsValue(obs, toFloat).error
    ensures r.Ok? ==> r.value.Keys == {"time_period", "value"}
    ensures r.Ok? ==> r.value["time_period"] == FromOptString(Attr(obs, "TIME_PERIOD"))
    ensures r.Ok? ==> r.value["value"] == ObsValue(obs, toFloat).value
  {
    match ObsValue(obs, toFloat)
    case Err(e) => Err(e)
    case Ok(v) => Ok(map["time_period" := FromOptString(Attr(obs, "TIME_PERIOD")), "value" := v])
  }

  /** The record of the first `parse_bis_xml` of BISapps.py, which keeps the raw text. */
  function RawRecord(obs: Attrs): (r: Dict)
    ensures r.Keys == {"time_period", "value"}
    ensures r["time_period"] == FromOptString(Attr(obs, "TIME_PERIOD"))
    ensures r["value"] == FromOptString(Attr(obs, "OBS_VALUE"))
  {
    map["time_period" := FromOptString(Attr(obs, "TIME_PERIOD")), "value" := FromOptString(Attr(obs, "OBS_VALUE"))]
  }

  function CountryBuilder(toFloat: string -> Option<real>): Builder
  {
    (p: (Attrs, Attrs)) => CountryRecord(p.0, p.1, toFloat)
  }

  function PeriodBuilder(toFloat: string -> Option<real>): Builder
  {
    (p: (Attrs, Attrs)) => PeriodRecord(p.1, toFloat)
  }

  const RawBuilder: Builder := (p: (Attrs, Attrs)) => Ok(RawRecord(p.1))

  /** What `parse_bis_xml` of BIS.py, main.py and chart.py returns. */
  function CountryRecords(doc: Document, toFloat: string -> Option<real>): Result<seq<Dict>, Failure>
  {
    MapOrFail(Pairs(doc), CountryBuilder(toFloat))
  }

  method ParseCountryRecords(doc: Document, toFloat: string -> Option<real>) returns (r: Result<seq<Dict>, Failure>)
    ensures r == CountryRecords(doc, toFloat)
  {
    r := Collect(doc, CountryBuilder(toFloat));
  }

  method ParsePeriodRecords(doc: Document, toFloat: string -> Option<real>) returns (r: Result<seq<Dict>, Failure>)
    ensures r == MapOrFail(Pairs(doc), PeriodBuilder(toFloat))
  {
    r := Collect(doc, PeriodBuilder(toFloat));
  }

  method ParseRawRecords(doc: Document) returns (r: Result<seq<Dict>, Failure>)
    ensures r == MapOrFail(Pairs(doc), RawBuilder)
    ensures r.Ok?
  {
    r := Collect(doc, RawBuilder);
    MapOrFailFails(Pairs(doc), RawBuilder);
  }

  /** A value attribute that `float()` rejects. */
  predicate Unreadable(obs: Attrs, toFloat: string -> Option<real>)
  {
    "OBS_VALUE" in obs && obs["OBS_VALUE"] != "" && toFloat(obs["OBS_VALUE"]).None?
  }

  /** The country parser fails exactly when some observation holds an unreadable value. */
  lemma CountryRecordsFail(doc: Document, toFloat: string -> Option<real>)
    ensures CountryRecords(doc, toFloat).Err? <==>
      exists si, oi :: 0 <= si < |doc| && 0 <= oi < |doc[si].obs| && Unreadable(doc[si].obs[oi], toFloat)
  {
    MapOrFailFails(Pairs(doc), CountryBuilder(toFloat));
    if CountryRecords(doc, toFloat).Err? {
      FailureLocated(doc, toFloat);
    }
    if exists si, oi :: 0 <= si < |doc| && 0 <= oi < |doc[si].obs| && Unreadable(doc[si].obs[oi], toFloat) {
      var si, oi :| 0 <= si < |doc| && 0 <= oi < |doc[si].obs| && Unreadable(doc[si].obs[oi], toFloat);
      UnreadableFails(doc, toFloat, si, oi);
    }
  }

  /** The country record of a pair fails exactly for an unreadable value. */
  lemma CountryBuilderErr(toFloat: string -> Option<real>, p: (Attrs, Attrs))
    ensures CountryBuilder(toFloat)(p).Err? <==> Unreadable(p.1, toFloat)
  {
  }

  /** A failing pair of the flattening is an unreadable observation of the document. */
  lemma FailureLocated(doc: Document, toFloat: string -> Option<real>)
    requires exists k :: 0 <= k < |Pairs(doc)| && CountryBuilder(toFloat)(Pairs(doc)[k]).Err?
    ensures exists si, oi :: 0 <= si < |doc| && 0 <= oi < |doc[si].obs| && Unreadable(doc[si].obs[oi], toFloat)
  {
    var ps := Pairs(doc);
    var k :| 0 <= k < |ps| && CountryBuilder(toFloat)(ps[k]).Err?;
    var at := Locate(doc, k);
    PairsAt(doc, at.0, at.1);
    CountryBuilderErr(toFloat, ps[k]);
    assert Unreadable(doc[at.0].obs[at.1], toFloat);
  }

  /** An unreadable observation is a failing pair of the flattening. */
  lemma UnreadableFails(doc: Document, toFloat: string -> Option<real>, si: nat, oi: nat)
    requires si < |doc| && oi < |doc[si].obs| && Unreadable(doc[si].obs[oi], toFloat)
    ensures exists k :: 0 <= k < |Pairs(doc)| && CountryBuilder(toFloat)(Pairs(doc)[k]).Err?
  {
    PairsAt(doc, si, oi);
    var k := ObsCount(doc[..si]) + oi;
    CountryBuilderErr(toFloat, Pairs(doc)[k]);
    assert CountryBuilder(toFloat)(Pairs(doc)[k]).Err?;
  }

  /** A successful country parse has exactly one record per `<Obs>`. */
  lemma CountryRecordsCount(doc: Document, toFloat: string -> Option<real>)
    requires CountryRecords(doc, toFloat).Ok?
    ensures |CountryRecords(doc, toFloat).value| == ObsCount(doc)
  {
    MapOrFailOk(Pairs(doc), CountryBuilder(toFloat));
  }

  /** The record of observation `oi` of series `si` sits at its document-order position
      and carries the period, the value (`None` for an absent or empty attribute) and the
      series' country (`"Unknown"` when the series has none). */
  lemma CountryRecordAt(doc: Document, toFloat: string -> Option<real>, si: nat, oi: nat)
    requires CountryRecords(doc, toFloat).Ok?
    requires si < |doc| && oi < |doc[si].obs|
    ensures ObsCount(doc[..si]) + oi < |CountryRecords(doc, toFloat).value|
    ensures CountryRecord(doc[si].attrs, doc[si].obs[oi], toFloat)
      == Ok(CountryRecords(doc, toFloat).value[ObsCount(doc[..si]) + oi])
  {
    MapOrFailOk(Pairs(doc), CountryBuilder(toFloat));
    PairsAt(doc, si, oi);
  }

  /** Every record of a successful country parse has the three fields; its country is a
      series code or `"Unknown"`. */
  lemma CountryRecordsFields(doc: Document, toFloat: string -> Option<real>, k: nat)
    requires CountryRecords(doc, toFloat).Ok?
    requires k < |CountryRecords(doc, toFloat).value|
    ensures CountryRecords(doc, toFloat).value[k].Keys == {"Date", "Value", "Country"}
    ensures CountryRecords(doc, toFloat).value[k]["Country"].JStr?
    ensures CountryRecords(doc, toFloat).value[k]["Value"].JNull? || CountryRecords(doc, toFloat).value[k]["Value"].JNum?
  {
    MapOrFailOk(Pairs(doc), CountryBuilder(toFloat));
    var p := Pairs(doc)[k];
    assert CountryRecord(p.0, p.1, toFloat) == Ok(CountryRecords(doc, toFloat).value[k]);
  }

  /** The effective BISapps.py parser: one `{time_period, value}` record per `<Obs>`, in
      document order, with `None` exactly for an absent or empty value. */
  lemma PeriodRecordAt(doc: Document, toFloat: string -> Option<real>, si: nat, oi: nat)
    requires MapOrFail(Pairs(doc), PeriodBuilder(toFloat)).Ok?
    requires si < |doc| && oi < |doc[si].obs|
    ensures |MapOrFail(Pairs(doc), PeriodBuilder(toFloat)).value| == ObsCount(doc)
    ensures ObsCount(doc[..si]) + oi < ObsCount(doc)
    ensures PeriodRecord(doc[si].obs[oi], toFloat)
      == Ok(MapOrFail(Pairs(doc), PeriodBuilder(toFloat)).value[ObsCount(doc[..si]) + oi])
  {
    MapOrFailOk(Pairs(doc), PeriodBuilder(toFloat));
    PairsAt(doc, si, oi);
  }

  /** The shadowed BISapps.py parser never fails and keeps the value text as it is. */
  lemma RawRecordAt(doc: Document, si: nat, oi: nat)
    requires si < |doc| && oi < |doc[si].obs|
    ensures MapOrFail(Pairs(doc), RawBuilder).Ok?
    ensures |MapOrFail(Pairs(doc), RawBuilder).value| == ObsCount(doc)
    ensures ObsCount(doc[..si]) + oi < ObsCount(doc)
    ensures MapOrFail(Pairs(doc), RawBuilder).value[ObsCount(doc[..si]) + oi] == RawRecord(doc[si].obs[oi])
  {
    MapOrFailFails(Pairs(doc), RawBuilder);
    MapOrFailOk(Pairs(doc), RawBuilder);
    PairsAt(doc, si, oi);
  }
}
