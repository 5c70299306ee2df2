# py_BIS in Dafny

py_BIS is a set of small FastAPI backends. They serve Bank for International Settlements (BIS) statistics as OpenBB Workspace widgets. Each backend does the following:

- fetches a data set from the BIS statistics API, as SDMX-ML or JSON;
- flattens its `<Series>`/`<Obs>` tree into records;
- serves those records as a table widget;
- or reshapes them into a date × country frame and draws it with plotly, through `plot_ts`.

A registry collects the widget configurations at import time, and `/widgets.json` lists them.

This project models the decision logic of those backends and proves properties of it. It is split into these modules:

- `BisXml`: the already-parsed XML tree and the three record parsers. These are the nested append loops, proved against the flattening of the tree.
- `Registry`: the `WIDGETS` registry. It is a class whose `Register` method updates the map in place, with the default-`id` rule.
- `Table`: the two table projections. The lenient one skips a record that lacks a key. The strict one stops at the first bad item.
- `Pipeline` and `Ordered`: chart reshaping, in this order:
  - date conversion;
  - sorting;
  - the inclusive start-date filter;
  - the pivot to sorted, distinct dates and country columns;
  - the lag-`k` percent change;
  - the `mode` dispatch.
- `Plot`: `plot_ts`. This covers palette tiers, the traces of each chart kind, the percent axis, the theme and the annotations. A `FigureBuilder` class is changed step by step, and the method `PlotTs` is proved to build the figure value `PlotFigure`.
- `Fetch`: the request URLs, the `raise_for_status` split, and what each variant of `fetch_bis_data` wraps or lets through.
- One module per backend, composing the modules above:
  - `Bis` (BIS.py);
  - `MainApp` (main.py);
  - `ChartApp` (chart.py);
  - `BisApps` (BISapps.py);
  - `BisSdmx` (BIS_pysdmx.py).

  main.py and chart.py repeat parts of BIS.py's code verbatim, and their modules reuse the `Bis` members for those parts. chart.py imports `plot_ts` unconditionally and has no check that the plotting library is there, so `ChartApp` is BIS.py's chart with `plotAvailable = true`. Its own `/widgets.json` is listed under "## Left out".

Conventions:

- **Dates** are integer ordinals on one scale.
- **Library conversions** are parameters that return `None` where the library raises. This covers `float()`, `pd.PeriodIndex(..., freq='Q').to_timestamp()` on a label and `pd.to_datetime(startdate)`.
- **`np.polyfit`** is a total parameter (`Plot.Fit`) from the kept x and y values to the slope and intercept. It is only called once at least two points are kept, and on the exact reals of the model it does not fail.
- **The network** is a parameter that maps a URL and `Accept` header to a response, or to the message of a `RequestException`.
- **pysdmx**, likewise, is a parameter that maps the SDMX URL to a frame, or to an error message.
- **Failures** are a `Failure` value. Each endpoint's answer is a `Reply`:
  - the body;
  - or 404 for no data;
  - or 400 for an unreadable start date;
  - or 500 for every exception that reaches the framework.

BISapps.py defines `parse_bis_xml` and `fetch_bis_data` twice, and the model follows the later definitions. This holds when a server imports the module (`uvicorn BISapps:app`): the whole module runs first, and the endpoints look the names up only when they are called, so the later bindings are the ones that take effect. The shadowed parser is modelled as well, as `BisXml.ParseRawRecords`.

## Model

| member | source | states |
|---|---|---|
| Common.StatusOf | BIS.py:173-186 | a failure is answered 404 exactly when no data came back, 400 exactly when the start date is unreadable, and 500 otherwise |
| Common.MapOrFailOk | BISapps.py:112-117 | a loop of appends that did not raise produced one result per element, in order, each the element's own result |
| Common.MapOrFailFails | BISapps.py:112-117 | the loop raises exactly when some element raises |
| Common.MapOrFailFirstError | BISapps.py:112-117 | the loop stops with the error of the first element that raises |
| Common.MapOrFailErrorFrom | BISapps.py:112-117 | the error the loop stops with is the error of one of its elements |
| Common.SplitJoin | BIS.py:76 | splitting path segments joined by a separator gives the segments back when none contains it |
| Ordered.StrLessIsStrictTotalOrder | BIS.py:189 | Python's string comparison, which orders the pivot's country columns, is a strict total order |
| Ordered.SortedDistinct | BIS.py:189 | the pivot's labels are strictly ascending and are exactly the labels that occur |
| Ordered.IncreasingUnique | chart.py:69 | two strictly ascending label lists with the same members are equal |
| Ordered.SortedDistinctDependsOnlyOnElements | chart.py:69 | the pivot layout depends only on which labels occur, not on the row order or repetitions |
| BisXml.Attr | BIS.py:48-52 | `element.get(name)` is present exactly when the attribute is, and is its text |
| BisXml.SeriesPairs | BIS.py:65-70 | one (series, obs) pair per `Obs` of a series, in document order |
| BisXml.Pairs | BIS.py:47-49 | as many (series, obs) pairs as there are `Obs` elements in all series |
| BisXml.PairsAt | BIS.py:47-49 | the pair of obs `oi` of series `si` sits after all obs of the earlier series: series first, then observation order |
| BisXml.Locate | BIS.py:47-49 | every record position belongs to exactly one (series, obs) position |
| BisXml.CollectSeries | BIS.py:49-54 | the inner loop over one series' `Obs` appends that series' records, or stops with the first exception |
| BisXml.Collect | BIS.py:44-55 | the nested loops compute exactly the flattening of the tree, stopping at the first exception |
| BisXml.CountryOf | BIS.py:48 | the country is `BORROWERS_CTY`, or `Unknown` when the series lacks it |
| BisXml.ObsValue | BIS.py:52 | the value is `None` exactly when `OBS_VALUE` is absent or empty; otherwise it is its `float()`, and an unreadable number raises |
| BisXml.CountryRecord | BIS.py:50-54 | a record has exactly the keys Date, Value and Country, holding `TIME_PERIOD`, the value and the country |
| BisXml.PeriodRecord | BISapps.py:55-58 | a record of the effective BISapps parser has exactly `time_period` and `value` and no country |
| BisXml.RawRecord | BISapps.py:13-16 | the shadowed BISapps parser keeps `OBS_VALUE` as raw text |
| BisXml.ParseCountryRecords | BIS.py:44-55 | `parse_bis_xml` of BIS.py equals the country flattening |
| BisXml.ParsePeriodRecords | BISapps.py:50-59 | the effective BISapps parser equals the period flattening |
| BisXml.ParseRawRecords | BISapps.py:8-17 | the first BISapps parser equals the raw flattening and never raises |
| BisXml.CountryRecordsFail | BIS.py:52 | the parse raises exactly when some `Obs` has a non-empty value that `float()` rejects |
| BisXml.CountryRecordsCount | main.py:36-43 | a successful parse yields one record per `Obs` |
| BisXml.CountryRecordAt | chart.py:32-39 | the record of obs `oi` of series `si` sits at its document position and holds that obs' period, value and its series' country or `Unknown` |
| BisXml.CountryRecordsFields | main.py:39-43 | every parsed record has exactly the three keys |
| BisXml.PeriodRecordAt | BISapps.py:53-58 | the BISapps record at a document position holds that obs' period and value, `None` for an absent or empty value |
| BisXml.RawRecordAt | BISapps.py:11-16 | the shadowed parser's record at a document position holds the raw period and value text |
| Registry.EndpointOf | BIS.py:32 | `widget_config.get("endpoint")`: the entry, or `None` when absent |
| Registry.WithDefaultId | BIS.py:33-35 | with a truthy endpoint, a missing `id` becomes the endpoint and an existing one is kept; otherwise the config is untouched |
| Registry.Registered | BIS.py:32-36 | with a truthy endpoint, the config is stored under it and every other entry is unchanged; a falsy endpoint changes nothing; a list or dict endpoint raises |
| Registry.WidgetRegistry.constructor | BIS.py:21 | the registry starts empty |
| Registry.WidgetRegistry.Register | BIS.py:23-41 | the registry becomes `Registered(old registry, config)`, the stored config has its default `id`, and the returned wrapper answers exactly what the wrapped function answers |
| Registry.WidgetRegistry.Listing | main.py:131-133 | `/widgets.json` returns the registry's entries as they are |
| Registry.WidgetRegistry.ListingWithChart | BIS.py:258-260 | the listing has every registered entry plus `bis_credit_chart`, which is set to the chart widget whatever was registered there; the registry itself is only read |
| Registry.RegisterCommutes | BIS.py:32-36 | registering two widgets with different endpoints gives the same registry in either order |
| Registry.RegisterIdempotent | main.py:21-25 | registering the same config twice changes nothing the second time |
| Pipeline.RowsOf | BIS.py:71 | `pd.DataFrame(data)`: one row per record, with its Date, Country and Value, and `None` where a key is absent |
| Pipeline.ConvertDates | BIS.py:177 | the conversion fails exactly when some period label does not parse; otherwise each row keeps its country and value and gets its date |
| Pipeline.SortByDate | BIS.py:178 | rows sorted by date and a permutation of the input |
| Pipeline.SortByDateMembers | chart.py:58 | sorting keeps exactly the rows it was given |
| Pipeline.FilterFrom | BIS.py:184 | exactly the rows dated on or after the start are kept, so the filter is inclusive |
| Pipeline.FilterFromCounts | BIS.py:184 | the mask keeps every copy of a row dated on or after the start and no copy of any other row |
| Pipeline.FilterFromAll | chart.py:64 | on sorted rows whose first row passes, nothing is dropped |
| Pipeline.FilterFromSuffix | chart.py:57-64 | on sorted rows the filter keeps a suffix, so the order is preserved |
| Pipeline.SuffixSorted | chart.py:58-64 | the filtered rows are still sorted |
| Pipeline.StartOf | BIS.py:181-186 | no start date or an empty one means no filter; an unreadable one is the 400 answer |
| Pipeline.SortAndFilter | chart.py:57-66 | the result is sorted; without a start it is a permutation of the rows; with one it holds every copy of each row from the start on and nothing else; a bad start is the error |
| Pipeline.Layout | chart.py:69 | an accepted pivot has the distinct dates ascending as index, the distinct countries ascending as columns, and each cell looked up from the rows |
| Pipeline.Pivot | chart.py:69 | the index is the distinct dates ascending, the columns the distinct countries ascending, each cell the value of the row with that date and country; duplicate (date, country) pairs raise |
| Pipeline.LookupFinds | chart.py:69 | without duplicates, the cell of a row's (date, country) pair is that row's value |
| Pipeline.LookupMissing | BIS.py:189 | a (date, country) pair that no row has is a missing cell |
| Pipeline.PivotPlacesRow | BIS.py:189 | every row's value sits in the pivot at its own date and country |
| Pipeline.PivotLeavesGap | chart.py:69 | a pivot cell with no row is missing |
| Pipeline.Ratio | chart.py:73 | the change is present exactly when both values are present and the earlier is non-zero, and then later = earlier × (1 + change) |
| Pipeline.PctChange | chart.py:72-76 | same index and columns; the first `k` rows are missing; row `i ≥ k` is the change from row `i-k` |
| Pipeline.LagOf | BIS.py:192-199 | `yoy` asks for lag 4, `qoq` for lag 1, anything else for none |
| Pipeline.ApplyMode | chart.py:72-79 | `yoy` gives the lag-4 change and "YoY % change"; `qoq` gives the lag-1 change and "QoQ % change"; any other mode leaves the frame and units as they were |
| Pipeline.PivotAndMode | BIS_pysdmx.py:108-115 | the pivot fails or is transformed by the mode |
| Pipeline.ChartMatrix | BIS.py:171-199 | an empty parse is the 404 answer before any date is read; then date conversion, sort and filter, pivot and mode in that order, each failure propagating; the result is a well-shaped frame with the mode's units |
| Pipeline.YoYExample | chart.py:73 | 110 four quarters after 100 is a 0.1 change, and the first four quarters are missing |
| Pipeline.ShortSeriesAllMissing | BIS.py:193 | a frame with no more rows than the lag has no values left |
| Plot.Palette | plot.py:9-20 | 2 columns get 2 colours, 3 get 5, 4 get 6, 5 get 7; every other count, including 1, gets all 13; each palette is a prefix of the 13-colour list |
| Plot.ColourIndependentOfCount | plot.py:10-20 | a column's colour depends only on its position, not on the column count |
| Plot.KindOf | plot.py:24-91 | `Bar`, `Bar_PCT` and `bar` draw bars, `regression` and `distribution` their own kinds, and everything else lines |
| Plot.ThemeStyle | plot.py:97-101 | `light` selects the light colours and template; every other theme the dark ones |
| Plot.IsPercentIff | plot.py:131-132 | the percent tick format is used exactly for `percent_change` and names containing `pct` in any case |
| Plot.ColumnTraces | plot.py:92-94 | one trace per column, in column order |
| Plot.LineTracesPerColumn | plot.py:24-30 | trace `j` of a line or bar chart plots column `j` against the dates, is named after it and coloured `FullPalette[j]` |
| Plot.Present | plot.py:70 | `dropna` keeps at most the column's values |
| Plot.PresentMembers | plot.py:70 | `dropna` keeps exactly the present values |
| Plot.PresentAppend | plot.py:70 | `dropna` works row by row: the present values of two stretches of a column are those of the first, then those of the second, in row order |
| Plot.PresentAll | plot.py:70 | without missing values nothing is dropped and the order is kept |
| Plot.PresentLast | plot.py:80-81 | the latest value is the last present cell of the column |
| Plot.DistributionTracesOf | plot.py:69-89 | a column adds one trace when it has no values, two otherwise |
| Plot.DistributionColumn | plot.py:69-89 | a violin of exactly the present values, coloured `colors[i % len(colors)]`, which is always in range; a red `Latest` marker at the last value exactly when there is one, with a legend only for column 0 |
| Plot.DistributionTraces | plot.py:69-78 | at least one trace per column |
| Plot.DistributionTraceCount | plot.py:69-89 | one violin per column plus one marker per column with a value |
| Plot.KeptPairsMembers | plot.py:36-41 | the kept pairs are exactly the rows where both columns have a value |
| Plot.KeptPairsAll | plot.py:39-41 | without missing values every row is kept, in order |
| Plot.KeptPairsAppend | plot.py:39-41 | the mask works row by row: the kept pairs of two stretches of rows are those of the first, then those of the second, in row order |
| Plot.Latest12 | plot.py:57-58 | the last `min(12, n)` kept pairs |
| Plot.FittedLine | plot.py:50-51 | the fitted line is `coef[0] * x + coef[1]` at every kept x |
| Plot.RegressionTraces | plot.py:35-63 | three traces when more than one pair is kept, two otherwise |
| Plot.RegressionTracesShape | plot.py:43-63 | the first trace marks all kept pairs; with more than one kept pair the middle trace is the `Regression` line, the fitted slope and intercept evaluated at every kept x; the last is `Latest 12`, holding the last at most twelve of them |
| Plot.PlotTraces | plot.py:24-94 | a line or bar chart fails exactly with more than 13 columns and otherwise has one trace per column, in order, each that column's trace in its palette colour; a regression has the regression traces and the first column as x title when there are at least two columns and no trace otherwise; a distribution has one histogram per column plus one latest-value marker per column with a value |
| Plot.PlotFigure | plot.py:5-217 | the figure fails exactly when `PlotTraces` fails; otherwise its traces and x title are those of `PlotTraces`, and it has the source and the bold title as its two annotations, `units` as y title, percent ticks exactly when the name asks for them, the theme's colours, and an x title exactly for a regression of at least two columns |
| Plot.FigureBuilder.constructor | plot.py:7 | `go.Figure()` starts with no traces and no annotations |
| Plot.FigureBuilder.AddTrace | plot.py:26 | `add_trace` appends one trace and changes nothing else |
| Plot.FigureBuilder.AddAnnotation | plot.py:103-129 | `add_annotation` appends one annotation and changes nothing else |
| Plot.FigureBuilder.SetAxisTitles | plot.py:64-65 | the regression sets both axis titles and nothing else |
| Plot.FigureBuilder.SetTickFormat | plot.py:131-132 | the percent test sets the tick format and nothing else |
| Plot.FigureBuilder.Style | plot.py:138-145 | the final layout sets the theme's colours and `yaxis_title=units`, replacing any earlier y title and keeping the tick format |
| Plot.FigureBuilder.Snapshot | plot.py:217 | the returned figure holds the builder's current state |
| Plot.AddColumnTraces | plot.py:91-94 | the line loop appends exactly one trace per column and fails exactly when the palette is shorter than the column list |
| Plot.AddRegression | plot.py:35-65 | the regression branch appends exactly the regression traces and sets the x title to the first column |
| Plot.AddDistributions | plot.py:69-89 | the distribution loop appends exactly the distribution traces of all columns |
| Plot.AddTraces | plot.py:24-94 | the chart-kind branch appends exactly the traces of `PlotFigure` and fails exactly when it does |
| Plot.PresentNonEmpty | plot.py:80 | `dropna` leaves something exactly when some cell of the column is present |
| Plot.AddDistribution | plot.py:69-89 | one turn of the distribution loop appends exactly that column's traces |
| Plot.PlotTs | plot.py:5-217 | the step-by-step `plot_ts` builds exactly `PlotFigure`, including the `IndexError` of a palette that is too short |
| Table.ProjectRow | BIS.py:150-158 | a record with Date, Country and Value gives a row of exactly those three fields copied; a record lacking one gives none |
| Table.ProjectTable | BIS.py:146-159 | the loop computes the projection of the records, skipping those with a missing key |
| Table.ProjectedAppend | main.py:115-127 | a skipped record does not stop the rows after it |
| Table.ProjectedOne | BIS.py:150-158 | each record contributes its own row or nothing |
| Table.ProjectedMembers | main.py:116-126 | every table row is the projection of some record, every complete record's row is in the table, and the table is no longer than the input |
| Table.ProjectedComplete | BIS.py:148-159 | when every record is complete, there is one row per record, in order |
| Table.ParsedTable | main.py:114-127 | the table of a successful parse is the parse itself: nothing is skipped |
| Table.StrictRow | BISapps.py:113-116 | an item that is not a dict raises TypeError; a missing `time_period` or `value` raises KeyError for that key; otherwise the row is `{Date: time_period, Value: value}` |
| Table.StrictTableOf | BISapps.py:111-117 | iterating a list maps each item, stopping at the first failure; an empty dict or string gives an empty table; anything else raises; the only errors are TypeError and KeyError |
| Table.StrictTable | BISapps.py:110-117 | the loop computes `StrictTableOf` |
| Table.StrictRows | BISapps.py:112-117 | the loop over a list produces one row per item, in order, and stops with the error of the first item that is not a record with both keys |
| Table.PeriodTable | BISapps.py:112-117 | the table of the BISapps parse has one row per record, in order, none dropped, Date from `time_period` and Value from `value` |
| Table.StrictTableFails | BISapps.py:112-116 | the table fails with the error of the first bad item |
| Fetch.DataUrl | BIS.py:76 | the v2 prefix followed by context, agency, resource, version and key joined by `/` |
| Fetch.SimpleUrl | chart.py:23 | the v2 URL with the fixed segments `dataflow`, `BIS`, `+` |
| Fetch.SdmxUrl | BIS_pysdmx.py:36-39 | the v1 prefix, `resource/key`, then `?format=sdmx-2.1.0` |
| Fetch.DataUrlSegments | main.py:49 | the five segments can be read back from the URL when none contains `/` |
| Fetch.StatusError | BIS.py:79 | `raise_for_status` raises exactly for a 4xx or 5xx status |
| Fetch.Wrapped | BIS.py:81-82 | a `RequestException` becomes a 500 `HTTPException` with the `Error fetching BIS series:` prefix |
| Fetch.Request | BIS.py:77-79 | the GET succeeds exactly when the network answers with a non-error status |
| Fetch.FetchRecords | main.py:47-55 | request errors are wrapped; an XML parse error or a bad number propagates unwrapped; otherwise the records are the country parse of the body |
| Fetch.FetchSimpleRecords | BIS.py:84-89 | the simple fetch lets the request error through unwrapped, and the caller parses the body |
| Fetch.FetchAny | BISapps.py:133-144 | a `Content-Type` containing `application/json` returns the JSON body, and a decode error is wrapped like any request error; any other type returns the parsed period records; every failure is a 500 |
| Fetch.MissingContentTypeIsXml | BISapps.py:139 | a response without `Content-Type` is read as XML |
| Fetch.JsonContentType | BISapps.py:139-140 | any content type mentioning `application/json` is read as JSON |
| Fetch.FetchSdmx | BIS_pysdmx.py:33-49 | the frame pysdmx returns, or 500 `SDMX fetch failed: ...` for any exception |
| Bis.Load | BIS.py:107-145 | after import the registry holds exactly the table widget with `id` `bis_credit_table`, and the decorated endpoint behaves as the original |
| Bis.WidgetsAfterLoad | BIS.py:211-260 | after import, `/widgets.json` lists exactly `bis_credit_table`, with its default `id`, and `bis_credit_chart`, the chart widget |
| Bis.CreditTable | BIS.py:145-159 | a failed fetch is refused with its status; otherwise the served table is exactly the parsed records |
| Bis.Render | BIS.py:201-208 | a missing plotting library is the 500 answer; otherwise a line chart with one trace per country, the units as y title, no percent ticks, the theme's colours and the two annotations, or a 500 beyond 13 countries |
| Bis.CreditChart | BIS.py:162-208 | fetch errors, then the empty 404, then reshaping errors, then the plot; a served chart has the relabelled units for yoy and qoq and requires the plotting library |
| Bis.BadStartDateIs400 | BIS.py:181-186 | an unreadable start date is the 400 answer whatever the mode or theme |
| MainApp.WidgetsAfterLoad | main.py:131-133 | after import, `/widgets.json` holds exactly `bis_credit_table` with `id` `bis_credit_table` |
| ChartApp.CreditChart | chart.py:42-82 | fetch errors, then the empty 404, then reshaping errors propagate; a reshaped frame is always drawn unless it has more than 13 countries |
| BisApps.Fetched | BISapps.py:133-144 | every failure of the effective fetch is a 500 |
| BisApps.Load | BISapps.py:88-101 | after import the registry holds exactly the table widget with its default `id` |
| BisApps.WidgetsAfterLoad | BISapps.py:119-122 | `/widgets.json` has exactly one entry, `bis_credit_table`, whose `id` is its endpoint |
| BisApps.CreditTable | BISapps.py:102-117 | a failed fetch is refused; otherwise the strict table of whatever the fetch returned; every refusal is a 500 |
| BisApps.XmlTable | BISapps.py:139-142 | for an XML response that parses, the table has one row per `Obs` |
| BisApps.BisData | BISapps.py:146-158 | `/bis` returns the fetched value, or for any exception an object whose only key is `error`, holding the exception's text; it never fails |
| BisSdmx.Standardised | BIS_pysdmx.py:61-62 | a MultiIndex frame gets its levels as leading columns, unless a level's label is already a column or a later level's label, which `insert` refuses; any other frame is unchanged |
| BisSdmx.ResetKeepsLabelsDistinct | BIS_pysdmx.py:61-62 | a reset that goes through adds no duplicate label to a frame whose labels are distinct |
| BisSdmx.RecordOf | BIS_pysdmx.py:66-68 | a record has a key per column label, and a label that occurs last at column `j` carries cell `j` |
| BisSdmx.Records | BIS_pysdmx.py:66-68 | one record per row |
| BisSdmx.CreditTable | BIS_pysdmx.py:51-69 | a pysdmx failure is a 500; no frame or an empty one is the 404; a refused `reset_index` is a 500; otherwise one record per row of the standardised frame |
| BisSdmx.RecordKeys | BIS_pysdmx.py:66-68 | each record's keys are exactly the column labels |
| BisSdmx.Candidates | BIS_pysdmx.py:88-90 | the candidate positions are exactly the matching columns, in column order |
| BisSdmx.FirstCandidate | BIS_pysdmx.py:97 | the first candidate is the leftmost matching column |
| BisSdmx.ValueTest | BIS_pysdmx.py:90 | the value test is the single test for `value`, since `obs_value` contains it |
| BisSdmx.Pick | BIS_pysdmx.py:88-97 | the first candidate of each list, or columns 0, 1 and 2 as soon as one list is empty, or an `IndexError` when there are fewer than three columns |
| BisSdmx.RenamedLabels | BIS_pysdmx.py:97-99 | distinct picks give exactly Date, Country, Value; `Date` is lost when the date column is also picked as country or value, and `Country` when country and value coincide |
| BisSdmx.PickedRows | BIS_pysdmx.py:97-100 | one (date, country, value) row per frame row, from the picked columns |
| BisSdmx.CreditChart | BIS_pysdmx.py:71-124 | a pysdmx failure is a 500; an absent or empty frame a 404; a refused `reset_index` a 500; too few columns or a lost `Date` label a 500 before any date is read; a served chart needs the plotting library and has the mode's units |
| BisSdmx.DistinctPicksChart | BIS_pysdmx.py:97-115 | with three distinct picks the chart is the common reshaping and plot of the picked rows |
| BisSdmx.LostCountryChart | BIS_pysdmx.py:97-108 | when the country and value picks are one column, an unreadable start date still answers first, and otherwise `pivot` raises `KeyError: 'Country'`, a 500 |

## Left out

- Network I/O is a parameter: `requests.get`, the `Accept` header and the HTTP exchange. `str()` of a `RequestException` is the message the parameter returns.
- XML text parsing (`ET.fromstring`, `findall`) is outside the model. It starts from an already-parsed tree, and a `ParseError` is a missing tree.
- `float()`, pandas period and date parsing, and `np.polyfit` are parameters. So is the text of a dropped start date, which pandas turns into `NaT`.
- Floating-point arithmetic is modelled with exact reals: rounding, NaN and infinity.
- Pipeline.Ratio: a zero earlier value gives infinity in pandas, but the model gives a missing cell.
- Pipeline.PctChange: pandas before 3.0 fills missing values forward before taking the change. The model takes the change of the raw cells.
- Pipeline.SortByDate: `sort_values` is not stable. The model promises only a sorted permutation, not the order of rows that share a date.
- Pipeline.Pivot: labels other than strings and values other than numbers or `None` are refused as `UnsupportedCell`, although pandas would lay them out.
- The plotly figure's internals are not modelled: margins, fonts, marker sizes, the logo image, legend placement and `PlotlyJSONEncoder` serialisation. The figure keeps only the traces, annotations, titles, tick format and theme colours.
- FastAPI routing, CORS, uvicorn startup and the root `/` endpoints are not modelled. `JSONResponse` is modelled only as the status and body it carries.
- `/bis` wraps the exception text of `{"error": str(e)}` as a parameter of the failure.
- The async/sync wrapper distinction of `register_widget` is not modelled: both wrappers answer as the wrapped function does.
- The widget configurations omit their `params` lists, and `print` logging is not modelled.
- chart.py's `/widgets.json` returns a fixed literal list, which is not modelled.
- BIS_pysdmx.py's `/widgets.json` is likewise a fixed literal, and is not modelled.
- Registry.Registered: Python treats `True` and `1` as the same dictionary key, and the model treats them as distinct.
- Registry.WidgetRegistry.Register: the source stores the caller's dictionary itself, so later changes to it show in the registry. The model stores its value.
- BisSdmx.Pick: duplicate column labels are assumed absent, so two picks coincide only when they are the same column.
- BisSdmx.CreditTable: labels are taken as their `str()`. A pysdmx result that is a Series rather than a frame, and `reset_index`'s default level names, are not modelled.
- JSON key order in dictionaries and responses is not modelled.
- Running BISapps.py as a script (`python BISapps.py`) is not modelled. There `uvicorn.run` at BISapps.py:129-131 blocks before lines 133-158 have run. The fetch in effect is then the one at BISapps.py:62-70: it asks for `application/xml`, always parses the body as XML and has no JSON branch. The `/bis` route is never registered.
- Pipeline.ConvertDates: an `Obs` without `TIME_PERIOD` gives a `None` date, which `pd.PeriodIndex` turns into `NaT` without raising. The model has no `NaT`: the `toDate` parameter either refuses the `None` label (`BadPeriod`) or gives it an ordinary date. So it does not capture that a `NaT` row sorts last, fails every start-date filter, and otherwise forms its own `NaT` row of the pivot.
- Common.Lower: lower-cases ASCII letters only. This agrees with `str.lower()` on the fixed needles it is matched against (`pct`, `date`, `time`, `country`, `cty`, `value`), which are ASCII; a non-ASCII letter in a label is not folded.
