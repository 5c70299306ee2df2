/** Values shared by every part of the backend: optional values, results, the JSON-like
    values that flow through its dictionaries, the failures a request can end in, and the
    small string operations the source uses (lower-casing, substring tests, joining). */
module Common {

  datatype Option<+T> = None | Some(value: T)

  datatype Result<+T, +E> = Ok(value: T) | Err(error: E)

  /** A Python value as it appears in the dictionaries and data frames of the backend:
      `None`, a boolean, a float, a string, a list or a dictionary. */
  datatype Json =
    | JNull
    | JBool(b: bool)
    | JNum(n: real)
    | JStr(s: string)
    | JList(items: seq<Json>)
    | JObj(fields: map<string, Json>)

  /** Python truthiness: `if v:` takes the branch exactly for these values. */
  predicate Truthy(j: Json)
  {
    match j
    case JNull => false
    case JBool(b) => b
    case JNum(n) => n != 0.0
    case JStr(s) => s != ""
    case JList(items) => items != []
    case JObj(fields) => fields != map[]
  }

  /** Lists and dictionaries cannot be dictionary keys. */
  predicate Hashable(j: Json)
  {
    !j.JList? && !j.JObj?
  }

  /** A dictionary with string keys, such as a parsed record or a widget configuration. */
  type Dict = map<string, Json>

  /** A list of records as the JSON value it is when returned or iterated over. */
  function RecordList(records: seq<Dict>): (j: Json)
    ensures j.JList? && |j.items| == |records|
    ensures forall k :: 0 <= k < |records| ==> j.items[k] == JObj(records[k])
  {
    JList(seq(|records|, k requires 0 <= k < |records| => JObj(records[k])))
  }

  /** `d.get(k)`: the value under `k`, or `None` when the key is absent. */
  function Get(d: Dict, k: string): (v: Json)
    ensures k in d ==> v == d[k]
    ensures k !in d ==> v == JNull
  {
    if k in d then d[k] else JNull
  }

  /** A value that may be Python `None`, as a JSON value. */
  function FromOptString(o: Option<string>): (j: Json)
    ensures o.None? <==> j == JNull
    ensures o.Some? ==> j == JStr(o.value)
  {
    match o
    case None => JNull
    case Some(s) => JStr(s)
  }

  /** Why a request did not produce its normal answer. */
  datatype Failure =
    | NoData                    // the parsed frame is empty
    | BadStartDate(text: string)  // `pd.to_datetime(startdate)` raised
    | FetchFailed(detail: string) // a `RequestException`, re-raised as `HTTPException(500)`
    | XmlMalformed              // `ET.fromstring` raised `ParseError`
    | NotANumber(text: string)  // `float(...)` raised `ValueError`
    | BadPeriod                 // `pd.PeriodIndex(..., freq='Q')` could not read a date label
    | DuplicateEntries          // `pivot` found two rows for one (date, country) pair
    | MissingKey(key: string)   // a `KeyError`
    | NotARecord                // a `TypeError` from indexing something that is not a dict
    | ColorOutOfRange           // `colors[i]` raised `IndexError`
    | TooFewColumns             // `df.columns[k]` raised `IndexError`
    | PlotUnavailable           // `plot_ts` or `plotly` could not be imported
    | UnsupportedCell           // a pivot label or value outside this model's cell types
    | Unhashable                // a list or dictionary used as a dictionary key
    | ColumnExists              // `DataFrame.insert` refused a label the frame already has

  /** The HTTP status a failure is answered with: the two explicit `JSONResponse`
      decisions, and 500 for every exception that reaches the framework. */
  function StatusOf(f: Failure): (code: int)
    ensures code == 404 <==> f == NoData
    ensures code == 400 <==> f.BadStartDate?
    ensures code in {400, 404, 500}
  {
    match f
    case NoData => 404
    case BadStartDate(_) => 400
    case _ => 500
  }

  /** What an endpoint sends back: the normal body, or a status code with an error text. */
  datatype Reply<+T> = Served(body: T) | Refused(status: int, detail: Failure)

  function ReplyOf<T>(r: Result<T, Failure>): (reply: Reply<T>)
    ensures r.Ok? <==> reply.Served?
    ensures r.Ok? ==> reply.body == r.value
    ensures r.Err? ==> reply.status == StatusOf(r.error) && reply.detail == r.error
  {
    match r
    case Ok(v) => Served(v)
    case Err(f) => Refused(StatusOf(f), f)
  }

  /** `str.lower()` on one character; only the ASCII letters are modelled. */
  function LowerChar(c: char): char
  {
    if 'A' <= c <= 'Z' then (c as int + 32) as char else c
  }

  function Lower(s: string): (r: string)
    ensures |r| == |s|
    ensures forall i :: 0 <= i < |s| ==> r[i] == LowerChar(s[i])
  {
    if s == [] then [] else [LowerChar(s[0])] + Lower(s[1..])
  }

  /** `sub` occurs in `s` starting at position `i`. */
  predicate OccursAt(s: string, sub: string, i: int)
  {
    0 <= i && i + |sub| <= |s| && s[i..i + |sub|] == sub
  }

  /** Python's `sub in s` on strings. */
  predicate Contains(s: string, sub: string)
  {
    exists i :: 0 <= i <= |s| - |sub| && OccursAt(s, sub, i)
  }

  /** `sep.join(parts)`. */
  function Join(parts: seq<string>, sep: string): (r: string)
    ensures parts == [] ==> r == ""
    ensures |parts| == 1 ==> r == parts[0]
  {
    if parts == [] then ""
    else if |parts| == 1 then parts[0]
    else parts[0] + sep + Join(parts[1..], sep)
  }

  /** `s.split(sep)` for a one-character separator: the inverse of `Join` on parts
      that do not contain the separator. */
  function Split(s: string, sep: char): (parts: seq<string>)
    ensures |parts| >= 1
    ensures forall k :: 0 <= k < |parts| ==> sep !in parts[k]
    decreases |s|
  {
    if sep !in s then [s]
    else
      var i := IndexOf(s, sep);
      [s[..i]] + Split(s[i + 1..], sep)
  }

  /** The position of the first occurrence of `c` in `s`. */
  function IndexOf(s: string, c: char): (i: nat)
    requires c in s
    ensures i < |s| && s[i] == c && c !in s[..i]
  {
    if s[0] == c then 0 else 1 + IndexOf(s[1..], c)
  }

  lemma {:induction false} SplitJoin(parts: seq<string>, sep: char)
    requires |parts| >= 1
    requires forall k :: 0 <= k < |parts| ==> sep !in parts[k]
    ensures Split(Join(parts, [sep]), sep) == parts
    decreases |parts|
  {
    if |parts| == 1 {
      assert Join(parts, [sep]) == parts[0];
    } else {
      var rest := Join(parts[1..], [sep]);
      var s := parts[0] + [sep] + rest;
      assert Join(parts, [sep]) == s;
      assert s[|parts[0]|] == sep;
      assert s[..|parts[0]|] == parts[0];
      assert sep in s;
      var i := IndexOf(s, sep);
      forall k | 0 <= k < i ensures s[k] != sep {
        assert s[..i][k] == s[k];
      }
      forall k | 0 <= k < |parts[0]| ensures s[k] != sep {
        assert s[k] == parts[0][k];
      }
      assert i == |parts[0]|;
      assert s[|parts[0]| + 1..] == rest;
      SplitJoin(parts[1..], sep);
    }
  }

  /** A loop that appends `f(x)` for each `x` in order and stops at the first exception,
      which becomes the result. */
  function MapOrFail<A, B>(xs: seq<A>, f: A -> Result<B, Failure>): Result<seq<B>, Failure>
  {
    if xs == [] then Ok([])
    else
      match MapOrFail(xs[..|xs| - 1], f)
      case Err(e) => Err(e)
      case Ok(rs) =>
        match f(xs[|xs| - 1])
        case Err(e) => Err(e)
        case Ok(r) => Ok(rs + [r])
  }

  lemma MapOrFailSnoc<A, B>(xs: seq<A>, x: A, f: A -> Result<B, Failure>, rs: seq<B>)
    requires MapOrFail(xs, f) == Ok(rs)
    ensures f(x).Ok? ==> MapOrFail(xs + [x], f) == Ok(rs + [f(x).value])
    ensures f(x).Err? ==> MapOrFail(xs + [x], f) == Err(f(x).error)
  {
    assert (xs + [x])[..|xs|] == xs;
  }

  /** Once the loop has stopped, later elements change nothing. */
  lemma {:induction false} MapOrFailKeepsError<A, B>(xs: seq<A>, ys: seq<A>, f: A -> Result<B, Failure>)
    requires xs <= ys && MapOrFail(xs, f).Err?
    ensures MapOrFail(ys, f) == MapOrFail(xs, f)
    decreases |ys|
  {
    if |ys| > |xs| {
      MapOrFailKeepsError(xs, ys[..|ys| - 1], f);
    } else {
      assert xs == ys;
    }
  }

  /** A loop that did not stop produced one result per element, in order. */
  lemma {:induction false} MapOrFailOk<A, B>(xs: seq<A>, f: A -> Result<B, Failure>)
    requires MapOrFail(xs, f).Ok?
    ensures |MapOrFail(xs, f).value| == |xs|
    ensures forall k :: 0 <= k < |xs| ==> f(xs[k]) == Ok(MapOrFail(xs, f).value[k])
  {
    if xs != [] {
      MapOrFailOk(xs[..|xs| - 1], f);
    }
  }

  /** The loop stops exactly when some element raises. */
  lemma {:induction false} MapOrFailFails<A, B>(xs: seq<A>, f: A -> Result<B, Failure>)
    ensures MapOrFail(xs, f).Err? <==> exists k :: 0 <= k < |xs| && f(xs[k]).Err?
  {
    if xs != [] {
      var init := xs[..|xs| - 1];
      MapOrFailFails(init, f);
      if exists k :: 0 <= k < |init| && f(init[k]).Err? {
        var k :| 0 <= k < |init| && f(init[k]).Err?;
        assert xs[k] == init[k];
      }
      if exists k :: 0 <= k < |xs| && f(xs[k]).Err? {
        var k :| 0 <= k < |xs| && f(xs[k]).Err?;
        if k < |init| { assert init[k] == xs[k]; }
      }
    }
  }

  /** The error is that of the first element that raises. */
  lemma {:induction false} MapOrFailFirstError<A, B>(xs: seq<A>, f: A -> Result<B, Failure>, k: nat)
    requires k < |xs| && f(xs[k]).Err?
    requires forall i :: 0 <= i < k ==> f(xs[i]).Ok?
    ensures MapOrFail(xs, f) == Err(f(xs[k]).error)
    decreases |xs|
  {
    if k < |xs| - 1 {
      MapOrFailFirstError(xs[..|xs| - 1], f, k);
    } else {
      var init := xs[..|xs| - 1];
      MapOrFailFails(init, f);
      assert forall i :: 0 <= i < |init| ==> init[i] == xs[i];
    }
  }

  /** The error the loop stops with is the error of one of the elements. */
  lemma {:induction false} MapOrFailErrorFrom<A, B>(xs: seq<A>, f: A -> Result<B, Failure>)
    requires MapOrFail(xs, f).Err?
    ensures exists k :: 0 <= k < |xs| && f(xs[k]) == Err(MapOrFail(xs, f).error)
  {
    var init := xs[..|xs| - 1];
    if MapOrFail(init, f).Err? {
      MapOrFailErrorFrom(init, f);
      var k :| 0 <= k < |init| && f(init[k]) == Err(MapOrFail(init, f).error);
      assert xs[k] == init[k];
    } else {
      assert f(xs[|xs| - 1]) == Err(MapOrFail(xs, f).error);
    }
  }
}
