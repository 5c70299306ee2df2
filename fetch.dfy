/** Fetching from the BIS statistics API: the request URLs, and what each variant of the
    fetch function does with the HTTP response. The network is a parameter that maps a
    URL and an `Accept` header to a response, or to the message of the `RequestException`
    that `requests.get` raised; the XML and JSON bodies come already decoded. */
module Fetch {
  import opened Common
  import opened BisXml

  const V2Prefix: string := "https://stats.bis.org/api/v2/data/"
  const V1Prefix: string := "https://stats.bis.org/api/v1/data/BIS/"
  const SdmxFormat: string := "?format=sdmx-2.1.0"

  /** `f"https://stats.bis.org/api/v2/data/{context}/{agency_id}/{resource_id}/{version}/{key}"`. */
  function DataUrl(context: string, agency: string, resource: string, version: string, key: string): (url: string)
    ensures url == V2Prefix + Join([context, agency, resource, version, key], "/")
  {
    assert Join([version, key], "/") == version + "/" + key by {
      assert [version, key][1..] == [key];
    }
    assert Join([resource, version, key], "/") == resource + "/" + version + "/" + key by {
      assert [resource, version, key][1..] == [version, key];
    }
    assert Join([agency, resource, version, key], "/") == agency + "/" + resource + "/" + version + "/" + key by {
      assert [agency, resource, version, key][1..] == [resource, version, key];
    }
    assert [context, agency, resource, version, key][1..] == [agency, resource, version, key];
    V2Prefix + context + "/" + agency + "/" + resource + "/" + version + "/" + key
  }

  /** The URL of `fetch_bis_data_simple` and of chart.py's `fetch_bis_data`. */
  function SimpleUrl(resource: string, key: string): (url: string)
    ensures url == DataUrl("dataflow", "BIS", resource, "+", key)
  {
    V2Prefix + "dataflow/BIS/" + resource + "/+/" + key
  }

  /** The URL of BIS_pysdmx.py's `fetch_bis_sdmx`. */
  function SdmxUrl(resource: string, key: string): (url: string)
    ensures url == V1Prefix + Join([resource, key], "/") + SdmxFormat
  {
    assert [resource, key][1..] == [key];
    V1Prefix + resource + "/" + key + SdmxFormat
  }

  /** The five path segments can be read back from the URL when none contains a slash. */
  lemma DataUrlSegments(context: string, agency: string, resource: string, version: string, key: string)
    requires '/' !in context && '/' !in agency && '/' !in resource && '/' !in version && '/' !in key
    ensures DataUrl(context, agency, resource, version, key)[..|V2Prefix|] == V2Prefix
    ensures Split(DataUrl(context, agency, resource, version, key)[|V2Prefix|..], '/')
      == [context, agency, resource, version, key]
  {
    var parts := [context, agency, resource, version, key];
    var url := DataUrl(context, agency, resource, version, key);
    assert url[|V2Prefix|..] == Join(parts, "/");
    SplitJoin(parts, '/');
  }

  datatype HttpResponse = HttpResponse(
    status: int,
    reason: string,
    contentType: Option<string>,   // the `Content-Type` header, if sent
    xml: Option<Document>,         // `ET.fromstring(response.text)`; `None` for `ParseError`
    json: Result<Json, string>)    // `response.json()`, or the message of its decode error

  /** The network: the response to a GET of a URL with an `Accept` header, or the message
      of the `RequestException` raised. */
  type Network = (string, string) -> Result<HttpResponse, string>

  /** `response.raise_for_status()`: the message of the `HTTPError` for a 4xx or 5xx
      status, `None` otherwise. */
  function StatusError(resp: HttpResponse): (e: Option<string>)
    ensures e.Some? <==> 400 <= resp.status < 600
  {
    if 400 <= resp.status < 600 then Some(resp.reason) else None
  }

  /** `HTTPException(status_code=500, detail=f"Error fetching BIS series: {str(e)}")`. */
  function Wrapped(message: string): (f: Failure)
    ensures StatusOf(f) == 500
  {
    FetchFailed("Error fetching BIS series: " + message)
  }

  /** `requests.get(url, headers={'Accept': accept})` followed by `raise_for_status()`;
      both raise a `RequestException`, told apart here only by their message. */
  function Request(net: Network, url: string, accept: string): (r: Result<HttpResponse, string>)
    ensures net(url, accept).Err? ==> r == Err(net(url, accept).error)
    ensures net(url, accept).Ok? && StatusError(net(url, accept).value).Some? ==>
      r == Err(StatusError(net(url, accept).value).value)
    ensures r.Ok? <==> net(url, accept).Ok? && StatusError(net(url, accept).value).None?
    ensures r.Ok? ==> r.value == net(url, accept).value
  {
    match net(url, accept)
    case Err(message) => Err(message)
    case Ok(resp) =>
      match StatusError(resp)
      case Some(message) => Err(message)
      case None => Ok(resp)
  }

  /** `fetch_bis_data` of BIS.py and main.py: a `RequestException` becomes the 500
      `HTTPException`; an XML `ParseError` or a `float()` `ValueError` is not a
      `RequestException` and propagates unchanged. */
  function FetchRecords(net: Network, context: string, agency: string, resource: string, version: string, key: string,
                        toFloat: string -> Option<real>): (r: Result<seq<Dict>, Failure>)
    ensures var got := Request(net, DataUrl(context, agency, resource, version, key), "application/xml");
      && (got.Err? ==> r == Err(Wrapped(got.error)))
      && (got.Ok? && got.value.xml.None? ==> r == Err(XmlMalformed))
      && (got.Ok? && got.value.xml.Some? ==> r == CountryRecords(got.value.xml.value, toFloat))
  {
    match Request(net, DataUrl(context, agency, resource, version, key), "application/xml")
    case Err(message) => Err(Wrapped(message))
    case Ok(resp) =>
      match resp.xml
      case None => Err(XmlMalformed)
      case Some(doc) => CountryRecords(doc, toFloat)
  }

  /** `fetch_bis_data_simple` of BIS.py and `fetch_bis_data` of chart.py, followed by the
      parse: here nothing is caught, so the `RequestException` itself reaches the
      framework. */
  function FetchSimpleRecords(net: Network, resource: string, key: string, toFloat: string -> Option<real>): (r: Result<seq<Dict>, Failure>)
    ensures var got := Request(net, SimpleUrl(resource, key), "application/xml");
      && (got.Err? ==> r == Err(FetchFailed(got.error)))
      && (got.Ok? && got.value.xml.None? ==> r == Err(XmlMalformed))
      && (got.Ok? && got.value.xml.Some? ==> r == CountryRecords(got.value.xml.value, toFloat))
  {
    match Request(net, SimpleUrl(resource, key), "application/xml")
    case Err(message) => Err(FetchFailed(message))
    case Ok(resp) =>
      match resp.xml
      case None => Err(XmlMalformed)
      case Some(doc) => CountryRecords(doc, toFloat)
  }

  /** `'application/json' in response.headers.get('Content-Type', '')`. */
  predicate IsJson(resp: HttpResponse)
  {
    Contains(if resp.contentType.Some? then resp.contentType.value else "", "application/json")
  }

  /** The effective `fetch_bis_data` of BISapps.py once the module is imported (its last
      definition): the JSON body
      when the server says it is JSON, else the `{time_period, value}` records of the XML.
      A JSON decode error is a `RequestException` too and is wrapped like one. */
  function FetchAny(net: Network, context: string, agency: string, resource: string, version: string, key: string,
                    toFloat: string -> Option<real>): (r: Result<Json, Failure>)
    ensures var got := Request(net, DataUrl(context, agency, resource, version, key), "application/json");
      && (got.Err? ==> r == Err(Wrapped(got.error)))
      && (got.Ok? && IsJson(got.value) ==>
            r == (if got.value.json.Ok? then Ok(got.value.json.value) else Err(Wrapped(got.value.json.error))))
      && (got.Ok? && !IsJson(got.value) && got.value.xml.None? ==> r == Err(XmlMalformed))
      && (got.Ok? && !IsJson(got.value) && got.value.xml.Some? ==>
            var parsed := MapOrFail(Pairs(got.value.xml.value), PeriodBuilder(toFloat));
            r == (if parsed.Ok? then Ok(RecordList(parsed.value)) else Err(parsed.error)))
    ensures r.Err? ==> r.error.FetchFailed? || r.error == XmlMalformed || r.error.NotANumber?
  {
    match Request(net, DataUrl(context, agency, resource, version, key), "application/json")
    case Err(message) => Err(Wrapped(message))
    case Ok(resp) =>
      if IsJson(resp) then
        match resp.json
        case Err(message) => Err(Wrapped(message))
        case Ok(body) => Ok(body)
      else
        match resp.xml
        case None => Err(XmlMalformed)
        case Some(doc) =>
          if MapOrFail(Pairs(doc), PeriodBuilder(toFloat)).Err? then
            MapOrFailErrorFrom(Pairs(doc), PeriodBuilder(toFloat));
            Err(MapOrFail(Pairs(doc), PeriodBuilder(toFloat)).error)
          else Ok(RecordList(MapOrFail(Pairs(doc), PeriodBuilder(toFloat)).value))
  }

  /** A response without a `Content-Type` header is read as XML. */
  lemma MissingContentTypeIsXml(resp: HttpResponse)
    requires resp.contentType.None?
    ensures !IsJson(resp)
  {
  }

  /** Any content type that mentions `application/json`, with parameters or not, is
      read as JSON. */
  lemma JsonContentType(resp: HttpResponse, before: string, after: string)
    requires resp.contentType == Some(before + "application/json" + after)
    ensures IsJson(resp)
  {
    var t := before + "application/json" + after;
    assert t[|before|..|before| + |"application/json"|] == "application/json";
    assert OccursAt(t, "application/json", |before|);
  }

  /** What `fetch_bis_sdmx` hands back: the frame, or `None`, or the message of the
      exception `pysdmx` raised. */
  type SdmxReader<F> = string -> Result<Option<F>, string>

  /** `fetch_bis_sdmx`: every exception becomes `HTTPException(500, "SDMX fetch failed: ...")`. */
  function FetchSdmx<F>(read: SdmxReader<F>, resource: string, key: string): (r: Result<Option<F>, Failure>)
    ensures read(SdmxUrl(resource, key)).Ok? ==> r == Ok(read(SdmxUrl(resource, key)).value)
    ensures read(SdmxUrl(resource, key)).Err? ==>
      r == Err(FetchFailed("SDMX fetch failed: " + read(SdmxUrl(resource, key)).error))
  {
    match read(SdmxUrl(resource, key))
    case Err(message) => Err(FetchFailed("SDMX fetch failed: " + message))
    case Ok(frame) => Ok(frame)
  }
}
