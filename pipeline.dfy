/** The reshaping that every chart endpoint applies to the observation rows before
    plotting (`bis_credit_chart` in chart.py, BIS.py and BIS_pysdmx.py): convert the
    period labels to dates, sort by date, keep the rows from the start date on, pivot to
    one column per country, and optionally replace the levels by their lag-`k` percent
    change. Dates are ordinals on one scale: `pd.PeriodIndex(..., freq='Q').to_timestamp()`
    and `pd.to_datetime(startdate)` are parameters that give such an ordinal, or `None`
    where pandas raises. */
module Pipeline {
  import opened Common
  import opened Ordered
  import opened Grid

  /** A row of the frame before date conversion: the `Date`, `Country` and `Value` cells. */
  datatype RawRow = RawRow(date: Json, country: Json, value: Json)

  /** A row after `df['Date'] = pd.PeriodIndex(...).to_timestamp()`. */
  datatype Row = Row(date: int, country: Json, value: Json)

  /** `pd.DataFrame(data)` on the parsed records: one row per record, absent keys as `None`. */
  function RowsOf(records: seq<Dict>): (rows: seq<RawRow>)
    ensures |rows| == |records|
    ensures forall k :: 0 <= k < |rows| ==>
      rows[k] == RawRow(Get(records[k], "Date"), Get(records[k], "Country"), Get(records[k], "Value"))
  {
    seq(|records|, k requires 0 <= k < |records| =>
      RawRow(Get(records[k], "Date"), Get(records[k], "Country"), Get(records[k], "Value")))
  }

  /** Date conversion of the whole column: it fails as soon as one label is not a
      quarter, and otherwise changes nothing but the date of each row. */
  function ConvertDates(rows: seq<RawRow>, toDate: Json -> Option<int>): (r: Result<seq<Row>, Failure>)
    ensures r.Err? <==> exists k :: 0 <= k < |rows| && toDate(rows[k].date).None?
    ensures r.Err? ==> r.error == BadPeriod
    ensures r.Ok? ==> |r.value| == |rows|
    ensures r.Ok? ==> forall k :: 0 <= k < |rows| ==>
      toDate(rows[k].date).Some? && r.value[k] == Row(toDate(rows[k].date).value, rows[k].country, rows[k].value)
  {
    if rows == [] then Ok([])
    else
      match toDate(rows[0].date)
      case None => Err(BadPeriod)
      case Some(d) =>
        match ConvertDates(rows[1..], toDate)
        case Err(e) =>
          assert forall k :: 1 <= k < |rows| ==> rows[k] == rows[1..][k - 1];
          Err(e)
        case Ok(rest) =>
          assert forall k :: 1 <= k < |rows| ==> rows[k] == rows[1..][k - 1];
          Ok([Row(d, rows[0].country, rows[0].value)] + rest)
  }

  ghost predicate SortedByDate(rows: seq<Row>)
  {
    forall i, j :: 0 <= i < j < |rows| ==> rows[i].date <= rows[j].date
  }

  /** `x` placed before the first row of `sorted` that is not earlier. */
  function InsertByDate(sorted: seq<Row>, x: Row): (r: seq<Row>)
    ensures |r| == |sorted| + 1
  {
    if sorted == [] then [x]
    else if x.date <= sorted[0].date then [x] + sorted
    else [sorted[0]] + InsertByDate(sorted[1..], x)
  }

  /** Every row of the insertion is no earlier than `x` or than the first row. */
  lemma {:induction false} InsertByDateBound(sorted: seq<Row>, x: Row)
    requires SortedByDate(sorted)
    ensures forall k :: 0 <= k < |sorted| + 1 ==>
      x.date <= InsertByDate(sorted, x)[k].date || (sorted != [] && sorted[0].date <= InsertByDate(sorted, x)[k].date)
  {
    if sorted != [] && x.date > sorted[0].date {
      var t := InsertByDate(sorted[1..], x);
      InsertByDateBound(sorted[1..], x);
      if |sorted| > 1 {
        assert sorted[0].date <= sorted[1].date;
      }
      assert forall k :: 0 <= k < |t| ==> sorted[0].date <= t[k].date;
      assert InsertByDate(sorted, x) == [sorted[0]] + t;
    }
  }

  /** Insertion keeps a sorted frame sorted. */
  lemma {:induction false} InsertByDateSorted(sorted: seq<Row>, x: Row)
    requires SortedByDate(sorted)
    ensures SortedByDate(InsertByDate(sorted, x))
  {
    if sorted != [] && x.date > sorted[0].date {
      var t := InsertByDate(sorted[1..], x);
      InsertByDateSorted(sorted[1..], x);
      InsertByDateBound(sorted[1..], x);
      var r := InsertByDate(sorted, x);
      assert r == [sorted[0]] + t;
      forall i, j | 0 <= i < j < |r| ensures r[i].date <= r[j].date {
        assert r[j] == t[j - 1];
        if i == 0 {
          if |sorted| > 1 {
            assert sorted[0].date <= sorted[1].date;
          }
        } else {
          assert r[i] == t[i - 1];
        }
      }
    }
  }

  /** Insertion adds exactly `x` to the rows. */
  lemma {:induction false} InsertByDateMultiset(sorted: seq<Row>, x: Row)
    ensures multiset(InsertByDate(sorted, x)) == multiset(sorted) + multiset{x}
  {
    if sorted != [] && x.date > sorted[0].date {
      InsertByDateMultiset(sorted[1..], x);
      assert sorted == [sorted[0]] + sorted[1..];
      assert InsertByDate(sorted, x) == [sorted[0]] + InsertByDate(sorted[1..], x);
    }
  }

  /** `df.sort_values("Date")`. pandas' default sort is not stable, so only the order of
      the dates and the multiset of rows are promised; the pivot below does not depend on
      the order of rows with equal dates. */
  function SortByDate(rows: seq<Row>): (r: seq<Row>)
    ensures SortedByDate(r)
    ensures multiset(r) == multiset(rows)
    ensures |r| == |rows|
  {
    if rows == [] then []
    else
      assert rows == rows[..|rows| - 1] + [rows[|rows| - 1]];
      InsertByDateSorted(SortByDate(rows[..|rows| - 1]), rows[|rows| - 1]);
      InsertByDateMultiset(SortByDate(rows[..|rows| - 1]), rows[|rows| - 1]);
      InsertByDate(SortByDate(rows[..|rows| - 1]), rows[|rows| - 1])
  }

  /** Sorting keeps exactly the rows it was given. */
  lemma SortByDateMembers(rows: seq<Row>)
    ensures forall x :: x in SortByDate(rows) <==> x in rows
  {
    var sorted := SortByDate(rows);
    forall x ensures x in sorted <==> x in rows {
      assert x in sorted <==> x in multiset(sorted);
      assert x in rows <==> x in multiset(rows);
    }
  }

  /** `df[df['Date'] >= start]`: the rows from `start` on, in their order. */
  function FilterFrom(rows: seq<Row>, start: int): (r: seq<Row>)
    ensures forall x :: x in r <==> x in rows && x.date >= start
    ensures forall x :: x in r ==> x.date >= start
    ensures |r| <= |rows|
  {
    if rows == [] then []
    else
      assert forall x :: x in rows <==> x == rows[0] || x in rows[1..];
      (if rows[0].date >= start then [rows[0]] else []) + FilterFrom(rows[1..], start)
  }

  /** The boolean mask keeps every copy of a row that passes and none of one that fails. */
  lemma {:induction false} FilterFromCounts(rows: seq<Row>, start: int)
    ensures forall x :: multiset(FilterFrom(rows, start))[x] == if x.date >= start then multiset(rows)[x] else 0
  {
    if rows != [] {
      FilterFromCounts(rows[1..], start);
      assert rows == [rows[0]] + rows[1..];
      assert multiset(rows) == multiset([rows[0]]) + multiset(rows[1..]);
    }
  }

  /** A filter that keeps the first row keeps every row of a sorted frame. */
  lemma {:induction false} FilterFromAll(rows: seq<Row>, start: int)
    requires SortedByDate(rows)
    requires rows != [] ==> rows[0].date >= start
    ensures FilterFrom(rows, start) == rows
    decreases |rows|
  {
    if rows != [] {
      if |rows| > 1 {
        assert rows[0].date <= rows[1].date;
      }
      FilterFromAll(rows[1..], start);
    }
  }

  /** On a sorted frame the filter keeps a suffix: the rows dated `start` or later. */
  lemma {:induction false} FilterFromSuffix(rows: seq<Row>, start: int)
    requires SortedByDate(rows)
    ensures |FilterFrom(rows, start)| <= |rows|
    ensures FilterFrom(rows, start) == rows[|rows| - |FilterFrom(rows, start)|..]
    decreases |rows|
  {
    if rows != [] {
      if rows[0].date >= start {
        FilterFromAll(rows, start);
      } else {
        FilterFromSuffix(rows[1..], start);
        var r := FilterFrom(rows, start);
        assert r == FilterFrom(rows[1..], start);
        assert rows[1..][|rows| - 1 - |r|..] == rows[|rows| - |r|..];
      }
    }
  }

  lemma SuffixSorted(rows: seq<Row>, n: nat)
    requires SortedByDate(rows) && n <= |rows|
    ensures SortedByDate(rows[n..])
  {
    forall i, j | 0 <= i < j < |rows[n..]| ensures rows[n..][i].date <= rows[n..][j].date {
      assert rows[n..][i] == rows[n + i] && rows[n..][j] == rows[n + j];
    }
  }

  /** `if startdate: start = pd.to_datetime(startdate)`: `None` or an empty string means
      no filter; text that does not parse is the 400 answer. */
  function StartOf(startdate: Option<string>, toStart: string -> Option<int>): (r: Result<Option<int>, Failure>)
    ensures startdate.None? || startdate == Some("") ==> r == Ok(None)
    ensures startdate.Some? && startdate.value != "" ==> (r.Err? <==> toStart(startdate.value).None?)
    ensures r.Err? ==> startdate.Some? && r.error == BadStartDate(startdate.value)
    ensures r.Ok? && r.value.Some? ==> startdate.Some? && Some(r.value.value) == toStart(startdate.value)
  {
    match startdate
    case None => Ok(None)
    case Some(text) =>
      if text == "" then Ok(None)
      else
        match toStart(text)
        case None => Err(BadStartDate(text))
        case Some(d) => Ok(Some(d))
  }

  /** Sorting followed by the optional start-date filter. */
  function SortAndFilter(rows: seq<Row>, startdate: Option<string>, toStart: string -> Option<int>): (r: Result<seq<Row>, Failure>)
    ensures r.Err? <==> StartOf(startdate, toStart).Err?
    ensures r.Err? ==> r.error == StartOf(startdate, toStart).error
    ensures r.Ok? ==> SortedByDate(r.value)
    ensures r.Ok? && StartOf(startdate, toStart).value.None? ==> multiset(r.value) == multiset(rows)
    ensures r.Ok? && StartOf(startdate, toStart).value.Some? ==>
      forall x :: x in r.value <==> x in rows && x.date >= StartOf(startdate, toStart).value.value
    ensures r.Ok? && StartOf(startdate, toStart).value.Some? ==>
      forall x :: multiset(r.value)[x] == if x.date >= StartOf(startdate, toStart).value.value then multiset(rows)[x] else 0
  {
    var sorted := SortByDate(rows);
    match StartOf(startdate, toStart)
    case Err(e) => Err(e)
    case Ok(None) => Ok(sorted)
    case Ok(Some(start)) =>
      FilterFromSuffix(sorted, start);
      SuffixSorted(sorted, |sorted| - |FilterFrom(sorted, start)|);
      SortByDateMembers(rows);
      FilterFromCounts(sorted, start);
      Ok(FilterFrom(sorted, start))
  }

  /** The countries and values the model's pivot can lay out: a string label and a number
      or `None`. */
  predicate Supported(row: Row)
  {
    row.country.JStr? && (row.value.JNull? || row.value.JNum?)
  }

  /** Two rows for one (date, country) pair, which `pivot` rejects. */
  predicate HasDuplicates(rows: seq<Row>)
  {
    exists i, j :: 0 <= i < j < |rows| && rows[i].date == rows[j].date && rows[i].country == rows[j].country
  }

  function Dates(rows: seq<Row>): (ds: seq<int>)
    ensures |ds| == |rows|
    ensures forall k :: 0 <= k < |rows| ==> ds[k] == rows[k].date
  {
    seq(|rows|, k requires 0 <= k < |rows| => rows[k].date)
  }

  lemma DatesMembers(rows: seq<Row>)
    ensures forall d :: d in Dates(rows) <==> exists k :: 0 <= k < |rows| && rows[k].date == d
  {
    forall d | d in Dates(rows) ensures exists k :: 0 <= k < |rows| && rows[k].date == d {
      var k :| 0 <= k < |rows| && Dates(rows)[k] == d;
    }
  }

  function Countries(rows: seq<Row>): (cs: seq<string>)
    requires forall k :: 0 <= k < |rows| ==> rows[k].country.JStr?
    ensures |cs| == |rows|
    ensures forall k :: 0 <= k < |rows| ==> cs[k] == rows[k].country.s
  {
    seq(|rows|, k requires 0 <= k < |rows| => rows[k].country.s)
  }

  lemma CountriesMembers(rows: seq<Row>)
    requires forall k :: 0 <= k < |rows| ==> rows[k].country.JStr?
    ensures forall c :: c in Countries(rows) <==> exists k :: 0 <= k < |rows| && rows[k].country == JStr(c)
  {
    forall c ensures c in Countries(rows) <==> exists k :: 0 <= k < |rows| && rows[k].country == JStr(c) {
      if c in Countries(rows) {
        var k :| 0 <= k < |rows| && Countries(rows)[k] == c;
      }
      if exists k :: 0 <= k < |rows| && rows[k].country == JStr(c) {
        var k :| 0 <= k < |rows| && rows[k].country == JStr(c);
        assert Countries(rows)[k] == c;
      }
    }
  }

  /** A value cell as a pivot cell: `None` becomes a missing value. */
  function CellOf(v: Json): Option<real>
  {
    if v.JNum? then Some(v.n) else None
  }

  /** The cell of the pivot at (`d`, `c`): the value of the first row with that date and
      country, or a missing value when there is none. */
  function Lookup(rows: seq<Row>, d: int, c: string): Option<real>
  {
    if rows == [] then None
    else if rows[0].date == d && rows[0].country == JStr(c) then CellOf(rows[0].value)
    else Lookup(rows[1..], d, c)
  }

  /** The pivot's cells: row `i`, column `j` is the lookup of (`index[i]`, `columns[j]`). */
  function LookupCells(rows: seq<Row>, index: seq<int>, columns: seq<string>): (cells: seq<seq<Option<real>>>)
    ensures |cells| == |index|
    ensures forall i :: 0 <= i < |index| ==> |cells[i]| == |columns|
    ensures forall i, j :: 0 <= i < |index| && 0 <= j < |columns| ==> cells[i][j] == Lookup(rows, index[i], columns[j])
  {
    seq(|index|, i requires 0 <= i < |index| =>
      seq(|columns|, j requires 0 <= j < |columns| => Lookup(rows, index[i], columns[j])))
  }

  /** The pivot of rows that it accepts: dates ascending down, countries ascending across,
      and each cell looked up in the rows. */
  function Layout(rows: seq<Row>): (m: Matrix)
    requires forall k :: 0 <= k < |rows| ==> Supported(rows[k])
    ensures Shaped(m)
    ensures Increasing(m.index, IntLess) && Increasing(m.columns, StrLess)
    ensures forall d :: d in m.index <==> exists k :: 0 <= k < |rows| && rows[k].date == d
    ensures forall c :: c in m.columns <==> exists k :: 0 <= k < |rows| && rows[k].country == JStr(c)
    ensures forall i, j :: 0 <= i < |m.index| && 0 <= j < |m.columns| ==>
      m.cells[i][j] == Lookup(rows, m.index[i], m.columns[j])
  {
    IntLessIsStrictTotalOrder();
    StrLessIsStrictTotalOrder();
    forall k | 0 <= k < |rows| ensures rows[k].country.JStr? {
      assert Supported(rows[k]);
    }
    DatesMembers(rows);
    CountriesMembers(rows);
    var index := SortedDistinct(Dates(rows), IntLess);
    var columns := SortedDistinct(Countries(rows), StrLess);
    Matrix(index, columns, LookupCells(rows, index, columns))
  }

  /** `df.pivot(index="Date", columns="Country", values="Value").sort_index()`. */
  function Pivot(rows: seq<Row>): (r: Result<Matrix, Failure>)
    ensures r.Err? <==> (exists k :: 0 <= k < |rows| && !Supported(rows[k])) || HasDuplicates(rows)
    ensures r.Err? && (exists k :: 0 <= k < |rows| && !Supported(rows[k])) ==> r.error == UnsupportedCell
    ensures r.Err? && (forall k :: 0 <= k < |rows| ==> Supported(rows[k])) ==> r.error == DuplicateEntries
    ensures r.Ok? ==> r.value == Layout(rows)
    ensures r.Ok? ==> Shaped(r.value)
    ensures r.Ok? ==> Increasing(r.value.index, IntLess) && Increasing(r.value.columns, StrLess)
    ensures r.Ok? ==> forall d :: d in r.value.index <==> exists k :: 0 <= k < |rows| && rows[k].date == d
    ensures r.Ok? ==> forall c :: c in r.value.columns <==> exists k :: 0 <= k < |rows| && rows[k].country == JStr(c)
    ensures r.Ok? ==> forall i, j :: 0 <= i < |r.value.index| && 0 <= j < |r.value.columns| ==>
      r.value.cells[i][j] == Lookup(rows, r.value.index[i], r.value.columns[j])
  {
    if exists k :: 0 <= k < |rows| && !Supported(rows[k]) then Err(UnsupportedCell)
    else if HasDuplicates(rows) then Err(DuplicateEntries)
    else Ok(Layout(rows))
  }

  /** Without duplicates, the cell of a row's (date, country) pair is that row's value. */
  lemma {:induction false} LookupFinds(rows: seq<Row>, k: nat)
    requires k < |rows| && rows[k].country.JStr? && !HasDuplicates(rows)
    ensures Lookup(rows, rows[k].date, rows[k].country.s) == CellOf(rows[k].value)
    decreases k
  {
    if k > 0 {
      assert !(rows[0].date == rows[k].date && rows[0].country == rows[k].country);
      assert rows[1..][k - 1] == rows[k];
      LookupFinds(rows[1..], k - 1);
    }
  }

  /** A (date, country) pair that no row has is a missing cell. */
  lemma {:induction false} LookupMissing(rows: seq<Row>, d: int, c: string)
    requires forall k :: 0 <= k < |rows| ==> !(rows[k].date == d && rows[k].country == JStr(c))
    ensures Lookup(rows, d, c) == None
    decreases |rows|
  {
    if rows != [] {
      assert forall k :: 0 <= k < |rows[1..]| ==> rows[1..][k] == rows[k + 1];
      LookupMissing(rows[1..], d, c);
    }
  }

  /** Every row's value sits in the pivot at its own date and country. */
  lemma PivotPlacesRow(rows: seq<Row>, k: nat, i: nat, j: nat)
    requires Pivot(rows).Ok? && k < |rows|
    requires i < |Pivot(rows).value.index| && j < |Pivot(rows).value.columns|
    requires Pivot(rows).value.index[i] == rows[k].date && JStr(Pivot(rows).value.columns[j]) == rows[k].country
    ensures Pivot(rows).value.cells[i][j] == CellOf(rows[k].value)
  {
    LookupFinds(rows, k);
  }

  /** A pivot cell whose (date, country) pair no row has is missing. */
  lemma PivotLeavesGap(rows: seq<Row>, i: nat, j: nat)
    requires Pivot(rows).Ok?
    requires i < |Pivot(rows).value.index| && j < |Pivot(rows).value.columns|
    requires forall k :: 0 <= k < |rows| ==>
      !(rows[k].date == Pivot(rows).value.index[i] && rows[k].country == JStr(Pivot(rows).value.columns[j]))
    ensures Pivot(rows).value.cells[i][j] == None
  {
    LookupMissing(rows, Pivot(rows).value.index[i], Pivot(rows).value.columns[j]);
  }

  /** `later / earlier - 1`, missing when either value is missing or the divisor is 0. */
  function Ratio(later: Option<real>, earlier: Option<real>): (q: Option<real>)
    ensures q.Some? <==> later.Some? && earlier.Some? && earlier.value != 0.0
    ensures q.Some? ==> later.value == earlier.value * (1.0 + q.value)
  {
    if later.Some? && earlier.Some? && earlier.value != 0.0 then Some(later.value / earlier.value - 1.0)
    else None
  }

  /** `df.pct_change(periods=k)`: same index and columns; the first `k` rows have no
      earlier row and are missing. */
  function PctChange(m: Matrix, k: nat): (r: Matrix)
    requires Shaped(m)
    ensures Shaped(r)
    ensures r.index == m.index && r.columns == m.columns
    ensures forall i, j :: 0 <= i < |m.index| && i < k && 0 <= j < |m.columns| ==> r.cells[i][j] == None
    ensures forall i, j :: k <= i < |m.index| && 0 <= j < |m.columns| ==>
      r.cells[i][j] == Ratio(m.cells[i][j], m.cells[i - k][j])
  {
    Matrix(m.index, m.columns,
      seq(|m.index|, i requires 0 <= i < |m.index| =>
        seq(|m.columns|, j requires 0 <= j < |m.columns| =>
          if i < k then None else Ratio(m.cells[i][j], m.cells[i - k][j]))))
  }

  /** The `mode` parameter: the lag of the percent change it asks for, if any. */
  function LagOf(mode: string): (lag: Option<nat>)
    ensures mode == "yoy" <==> lag == Some(4)
    ensures mode == "qoq" <==> lag == Some(1)
    ensures mode != "yoy" && mode != "qoq" <==> lag.None?
  {
    if mode == "yoy" then Some(4) else if mode == "qoq" then Some(1) else None
  }

  /** The `mode` dispatch: yoy and qoq replace the levels by their percent change and
      relabel the units; any other mode leaves both as they were. */
  function ApplyMode(m: Matrix, mode: string, units: string): (r: (Matrix, string))
    requires Shaped(m)
    ensures mode == "yoy" ==> r == (PctChange(m, 4), "YoY % change")
    ensures mode == "qoq" ==> r == (PctChange(m, 1), "QoQ % change")
    ensures LagOf(mode).None? ==> r == (m, units)
    ensures Shaped(r.0) && r.0.index == m.index && r.0.columns == m.columns
  {
    match LagOf(mode)
    case Some(k) => (PctChange(m, k), if k == 4 then "YoY % change" else "QoQ % change")
    case None => (m, units)
  }

  /** Pivot, then the mode transformation. */
  function PivotAndMode(rows: seq<Row>, mode: string, units: string): (r: Result<(Matrix, string), Failure>)
    ensures r.Err? <==> Pivot(rows).Err?
    ensures r.Err? ==> r.error == Pivot(rows).error
    ensures r.Ok? ==> r.value == ApplyMode(Pivot(rows).value, mode, units)
  {
    match Pivot(rows)
    case Err(e) => Err(e)
    case Ok(m) => Ok(ApplyMode(m, mode, units))
  }

  /** The chart reshaping of chart.py and BIS.py, in source order: the empty frame is the
      404 answer, then the dates are converted, the rows sorted and filtered, pivoted and
      transformed. */
  function ChartMatrix(records: seq<Dict>, toDate: Json -> Option<int>, startdate: Option<string>,
                       toStart: string -> Option<int>, mode: string, units: string): (r: Result<(Matrix, string), Failure>)
    ensures records == [] ==> r == Err(NoData)
    ensures records != [] && ConvertDates(RowsOf(records), toDate).Err? ==> r == Err(BadPeriod)
    ensures records != [] && ConvertDates(RowsOf(records), toDate).Ok? ==>
      r == (match SortAndFilter(ConvertDates(RowsOf(records), toDate).value, startdate, toStart)
            case Err(e) => Err(e)
            case Ok(rows) => PivotAndMode(rows, mode, units))
    ensures r.Ok? ==> Shaped(r.value.0)
    ensures r.Ok? ==> r.value.1 == (if mode == "yoy" then "YoY % change" else if mode == "qoq" then "QoQ % change" else units)
  {
    if records == [] then Err(NoData)
    else
      match ConvertDates(RowsOf(records), toDate)
      case Err(e) => Err(e)
      case Ok(rows) =>
        match SortAndFilter(rows, startdate, toStart)
        case Err(e) => Err(e)
        case Ok(kept) => PivotAndMode(kept, mode, units)
  }

  /** A year-on-year change: 110 four quarters after 100 is a 10% change, and the four
      quarters before have none. */
  lemma YoYExample()
    ensures var m := Matrix([1, 2, 3, 4, 5], ["US"], [[Some(100.0)], [Some(101.0)], [Some(102.0)], [Some(103.0)], [Some(110.0)]]);
      ApplyMode(m, "yoy", "USD bn") == (Matrix([1, 2, 3, 4, 5], ["US"], [[None], [None], [None], [None], [Some(0.1)]]), "YoY % change")
  {
    var m := Matrix([1, 2, 3, 4, 5], ["US"], [[Some(100.0)], [Some(101.0)], [Some(102.0)], [Some(103.0)], [Some(110.0)]]);
    var p := PctChange(m, 4);
    assert p.cells[4][0] == Some(0.1);
    assert p.cells[4] == [Some(0.1)];
    assert forall i :: 0 <= i < 4 ==> p.cells[i] == [None];
    assert p.cells == [[None], [None], [None], [None], [Some(0.1)]];
  }

  /** Fewer rows than the lag leave nothing but missing values. */
  lemma ShortSeriesAllMissing(m: Matrix, k: nat)
    requires Shaped(m) && |m.index| <= k
    ensures forall i, j :: 0 <= i < |m.index| && 0 <= j < |m.columns| ==> PctChange(m, k).cells[i][j] == None
  {
  }
}
