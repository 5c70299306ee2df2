/** BIS_pysdmx.py: the same two endpoints, fed by a frame that `pysdmx` reads from the
    v1 SDMX API. The chart endpoint has to guess which columns hold the date, the
    country and the value before it can reuse the BIS.py reshaping. */
module BisSdmx {
  import opened Common
  import opened Fetch
  import opened Grid
  import opened Pipeline
  import opened Plot
  import opened Bis

  /** A frame as `fetch_bis_sdmx` returns it: the names of the index levels and each
      row's index keys, the column labels (as their `str()`), and the rows of cells. */
  datatype Frame = Frame(levels: seq<string>, keys: seq<seq<Json>>, columns: seq<string>, rows: seq<seq<Json>>)

  /** `df.empty`: no columns or no rows. */
  predicate IsEmpty(f: Frame)
  {
    |f.columns| == 0 || |f.rows| == 0
  }

  /** `isinstance(df.index, pd.MultiIndex)`. */
  predicate IsMultiIndex(f: Frame)
  {
    |f.levels| >= 2
  }

  /** Cell `j` of a row. Rows of a pandas frame are as long as its label list; the
      `None` beyond the end only makes the function total. */
  function Cell(row: seq<Json>, j: nat): (v: Json)
    ensures j < |row| ==> v == row[j]
  {
    if j < |row| then row[j] else JNull
  }

  /** The `i`-th row's index keys, one per level. */
  function KeysOf(f: Frame, i: nat): (ks: seq<Json>)
    ensures |ks| == |f.levels|
  {
    var row := if i < |f.keys| then f.keys[i] else [];
    seq(|f.levels|, l requires 0 <= l < |f.levels| => Cell(row, l))
  }

  /** Labels that are pairwise different. */
  predicate Distinct(labels: seq<string>)
  {
    forall i, j :: 0 <= i < j < |labels| ==> labels[i] != labels[j]
  }

  /** `reset_index` inserts the levels at the front one at a time, the last level first,
      and `insert` raises `ValueError` for a label the frame already has: one of its
      columns, or a level inserted before it. */
  predicate ResetCollides(f: Frame)
  {
    exists l :: 0 <= l < |f.levels| && (f.levels[l] in f.columns || f.levels[l] in f.levels[l + 1..])
  }

  /** `df.reset_index()` when the index is a MultiIndex: the levels become the leading
      columns and the index a plain range, unless a level's label is already taken. Any
      other frame is left as it is. */
  function Standardised(f: Frame): (g: Result<Frame, Failure>)
    ensures !IsMultiIndex(f) ==> g == Ok(f)
    ensures IsMultiIndex(f) ==> (g.Err? <==> ResetCollides(f))
    ensures g.Err? ==> g.error == ColumnExists
    ensures IsMultiIndex(f) && g.Ok? ==>
      g.value.levels == [] && g.value.columns == f.levels + f.columns && |g.value.rows| == |f.rows|
    ensures IsMultiIndex(f) && g.Ok? ==> forall i :: 0 <= i < |f.rows| ==> g.value.rows[i] == KeysOf(f, i) + f.rows[i]
  {
    if !IsMultiIndex(f) then Ok(f)
    else if ResetCollides(f) then Err(ColumnExists)
    else
      Ok(Frame([], seq(|f.rows|, i => []), f.levels + f.columns,
        seq(|f.rows|, i requires 0 <= i < |f.rows| => KeysOf(f, i) + f.rows[i])))
  }

  /** A reset that goes through never creates a duplicate label: the levels' labels are
      new to the frame and to each other. */
  lemma {:induction false} ResetKeepsLabelsDistinct(f: Frame)
    requires Standardised(f).Ok? && Distinct(f.columns)
    ensures Distinct(Standardised(f).value.columns)
  {
    if IsMultiIndex(f) {
      var c := Standardised(f).value.columns;
      var n := |f.levels|;
      forall i, j | 0 <= i < j < |c| ensures c[i] != c[j] {
        if j < n {
          assert f.levels[j] == f.levels[i + 1..][j - i - 1];
        } else if i < n {
          assert c[j] == f.columns[j - n];
        } else {
          assert c[i] == f.columns[i - n] && c[j] == f.columns[j - n];
        }
      }
    }
  }

  /** One row of `to_dict(orient="records")`: a key per column label, where a later
      column with the same label overrides an earlier one. */
  function RecordOf(columns: seq<string>, row: seq<Json>): (d: Dict)
    ensures forall c :: c in d <==> c in columns
    ensures forall j :: 0 <= j < |columns| && LastOccurrence(columns, j) ==> d[columns[j]] == Cell(row, j)
  {
    if columns == [] then map[]
    else
      var n := |columns| - 1;
      var front := columns[..n];
      var init := RecordOf(front, row);
      var d := init[columns[n] := Cell(row, n)];
      assert forall c :: c in d <==> c in columns by {
        assert columns == front + [columns[n]];
      }
      assert forall j :: 0 <= j < |columns| && LastOccurrence(columns, j) ==> d[columns[j]] == Cell(row, j) by {
        forall j | 0 <= j < |columns| && LastOccurrence(columns, j) ensures d[columns[j]] == Cell(row, j) {
          if j < n {
            assert columns[n] != columns[j];
            assert front[j] == columns[j];
            assert LastOccurrence(front, j) by {
              forall k | j < k < |front| ensures front[k] != front[j] {
                assert front[k] == columns[k];
              }
            }
          }
        }
      }
      d
  }

  /** No column after `j` has the label of column `j`. */
  predicate LastOccurrence(columns: seq<string>, j: nat)
    requires j < |columns|
  {
    forall k :: j < k < |columns| ==> columns[k] != columns[j]
  }

  /** `df.rename(columns=lambda x: str(x)).to_dict(orient="records")`. */
  function Records(f: Frame): (rs: seq<Dict>)
    ensures |rs| == |f.rows|
    ensures forall i :: 0 <= i < |rs| ==> rs[i] == RecordOf(f.columns, f.rows[i])
  {
    seq(|f.rows|, i requires 0 <= i < |f.rows| => RecordOf(f.columns, f.rows[i]))
  }

  /** `bis_credit_table`: the 500 answer when pysdmx raised, the 404 answer for no frame
      or an empty one, else one record per row of the standardised frame. */
  function CreditTable(read: SdmxReader<Frame>, resourceId: string, key: string): (r: Reply<seq<Dict>>)
    ensures var fetched := FetchSdmx(read, resourceId, key);
      && (fetched.Err? ==> r == Refused(500, fetched.error) && fetched.error.FetchFailed?)
      && (fetched.Ok? && (fetched.value.None? || IsEmpty(fetched.value.value)) ==> r == Refused(404, NoData))
      && (fetched.Ok? && fetched.value.Some? && !IsEmpty(fetched.value.value) ==>
            var g := Standardised(fetched.value.value);
            && (g.Err? ==> r == Refused(500, ColumnExists))
            && (g.Ok? ==>
                  && r.Served? && |r.body| == |fetched.value.value.rows|
                  && forall i :: 0 <= i < |r.body| ==> r.body[i] == RecordOf(g.value.columns, g.value.rows[i])))
  {
    match FetchSdmx(read, resourceId, key)
    case Err(e) => Refused(StatusOf(e), e)
    case Ok(None) => Refused(404, NoData)
    case Ok(Some(f)) =>
      if IsEmpty(f) then Refused(404, NoData)
      else
        match Standardised(f)
        case Err(e) => Refused(StatusOf(e), e)
        case Ok(g) => Served(Records(g))
  }

  /** Every record has exactly the frame's column labels as keys. */
  lemma RecordKeys(f: Frame, i: nat, c: string)
    requires i < |f.rows|
    ensures c in Records(f)[i] <==> c in f.columns
  {
  }

  /** The label tests of lines 88-90: `str(c).lower()` contains one of `needles`. */
  predicate Matches(name: string, needles: seq<string>)
  {
    exists k :: 0 <= k < |needles| && Contains(Lower(name), needles[k])
  }

  const DateNeedles: seq<string> := ["date", "time"]
  const CountryNeedles: seq<string> := ["country", "cty"]
  const ValueNeedles: seq<string> := ["value", "obs_value"]

  /** The candidate list of a comprehension: the positions of the matching columns, in
      column order. */
  function Candidates(columns: seq<string>, needles: seq<string>): (ps: seq<nat>)
    ensures forall k :: 0 <= k < |ps| ==> ps[k] < |columns| && Matches(columns[ps[k]], needles)
    ensures forall j :: 0 <= j < |columns| && Matches(columns[j], needles) ==> j in ps
    ensures forall a, b :: 0 <= a < b < |ps| ==> ps[a] < ps[b]
  {
    if columns == [] then []
    else
      var n := |columns| - 1;
      var init := Candidates(columns[..n], needles);
      if Matches(columns[n], needles) then init + [n] else init
  }

  /** The first candidate is the leftmost matching column. */
  lemma FirstCandidate(columns: seq<string>, needles: seq<string>)
    requires Candidates(columns, needles) != []
    ensures var p := Candidates(columns, needles)[0];
      p < |columns| && Matches(columns[p], needles) && forall j :: 0 <= j < p ==> !Matches(columns[j], needles)
  {
  }

  /** `"obs_value"` contains `"value"`, so the value test is the single substring test. */
  lemma ValueTest(name: string)
    ensures Matches(name, ValueNeedles) <==> Contains(Lower(name), "value")
  {
    var s := Lower(name);
    if Contains(s, "obs_value") {
      var i :| 0 <= i <= |s| - |"obs_value"| && OccursAt(s, "obs_value", i);
      assert s[i + 4..i + 9] == s[i..i + 9][4..9];
      assert OccursAt(s, "value", i + 4);
    }
    if Contains(s, "value") {
      assert ValueNeedles[0] == "value";
    }
  }

  /** The positions of the chosen date, country and value columns. */
  datatype Picks = Picks(date: nat, country: nat, value: nat)

  /** Lines 88-95: the first candidate of each list, or columns 0, 1 and 2 as soon as one
      list is empty, where a frame of fewer than three columns raises `IndexError`. */
  function Pick(columns: seq<string>): (r: Result<Picks, Failure>)
    ensures var ds := Candidates(columns, DateNeedles);
      var cs := Candidates(columns, CountryNeedles);
      var vs := Candidates(columns, ValueNeedles);
      && (ds != [] && cs != [] && vs != [] ==> r == Ok(Picks(ds[0], cs[0], vs[0])))
      && ((ds == [] || cs == [] || vs == []) && |columns| >= 3 ==> r == Ok(Picks(0, 1, 2)))
      && ((ds == [] || cs == [] || vs == []) && |columns| < 3 ==> r == Err(TooFewColumns))
    ensures r.Ok? ==> r.value.date < |columns| && r.value.country < |columns| && r.value.value < |columns|
  {
    var ds := Candidates(columns, DateNeedles);
    var cs := Candidates(columns, CountryNeedles);
    var vs := Candidates(columns, ValueNeedles);
    if ds != [] && cs != [] && vs != [] then Ok(Picks(ds[0], cs[0], vs[0]))
    else if |columns| < 3 then Err(TooFewColumns)
    else Ok(Picks(0, 1, 2))
  }

  /** The labels after `df[[d, c, v]].rename(columns={d: "Date", c: "Country", v: "Value"})`:
      when two picks are the same column, the later entry of the dict literal wins. */
  function RenamedLabels(p: Picks): (labels: seq<string>)
    ensures |labels| == 3 && labels[2] == "Value"
    ensures p.date != p.country && p.date != p.value && p.country != p.value ==> labels == ["Date", "Country", "Value"]
    ensures "Date" in labels <==> p.date != p.country && p.date != p.value
    ensures "Country" in labels <==> p.country != p.value
  {
    [NewLabel(p, p.date), NewLabel(p, p.country), NewLabel(p, p.value)]
  }

  function NewLabel(p: Picks, j: nat): string
  {
    if j == p.value then "Value" else if j == p.country then "Country" else "Date"
  }

  /** The selected frame as date, country and value rows. */
  function PickedRows(f: Frame, p: Picks): (rows: seq<RawRow>)
    ensures |rows| == |f.rows|
    ensures forall i :: 0 <= i < |rows| ==>
      rows[i] == RawRow(Cell(f.rows[i], p.date), Cell(f.rows[i], p.country), Cell(f.rows[i], p.value))
  {
    seq(|f.rows|, i requires 0 <= i < |f.rows| =>
      RawRow(Cell(f.rows[i], p.date), Cell(f.rows[i], p.country), Cell(f.rows[i], p.value)))
  }

  /** `bis_credit_chart` of BIS_pysdmx.py. Without a `Date` label, `df['Date']` raises
      before any date is read; without a `Country` label, `pivot` raises after the
      start-date check. The mode dispatch has no `else` branch, which leaves `units` as
      it came, as in the other backends. */
  function CreditChart(read: SdmxReader<Frame>, q: ChartQuery, num: Numerics, plotAvailable: bool): (r: Reply<Figure>)
    ensures var fetched := FetchSdmx(read, q.resourceId, q.key);
      && (fetched.Err? ==> r == Refused(500, fetched.error))
      && (fetched.Ok? && (fetched.value.None? || IsEmpty(fetched.value.value)) ==> r == Refused(404, NoData))
      && (fetched.Ok? && fetched.value.Some? && !IsEmpty(fetched.value.value) ==>
            var g := Standardised(fetched.value.value);
            && (g.Err? ==> r == Refused(500, ColumnExists))
            && (g.Ok? && Pick(g.value.columns).Err? ==> r == Refused(500, TooFewColumns))
            && (g.Ok? && Pick(g.value.columns).Ok? && "Date" !in RenamedLabels(Pick(g.value.columns).value) ==>
                  r == Refused(500, MissingKey("Date"))))
    ensures r.Served? ==> plotAvailable
    ensures r.Served? ==>
      r.body.yTitle == (if q.mode == "yoy" then "YoY % change" else if q.mode == "qoq" then "QoQ % change" else q.units)
  {
    match FetchSdmx(read, q.resourceId, q.key)
    case Err(e) => Refused(StatusOf(e), e)
    case Ok(None) => Refused(404, NoData)
    case Ok(Some(f)) =>
      if IsEmpty(f) then Refused(404, NoData)
      else
        match Standardised(f)
        case Err(e) => Refused(StatusOf(e), e)
        case Ok(g) =>
        match Pick(g.columns)
        case Err(e) => Refused(StatusOf(e), e)
        case Ok(p) =>
          if p.date == p.country || p.date == p.value then Refused(500, MissingKey("Date"))
          else
            match ConvertDates(PickedRows(g, p), num.toDate)
            case Err(e) => Refused(StatusOf(e), e)
            case Ok(rows) =>
              match SortAndFilter(rows, q.startdate, num.toStart)
              case Err(e) => Refused(StatusOf(e), e)
              case Ok(kept) =>
                if p.country == p.value then Refused(500, MissingKey("Country"))
                else
                  match PivotAndMode(kept, q.mode, q.units)
                  case Err(e) => Refused(StatusOf(e), e)
                  case Ok((m, units)) => Render(m, units, q.theme, plotAvailable, num.fit)
  }

  /** With three distinct picks, the chart is the BIS.py reshaping of the picked rows. */
  lemma DistinctPicksChart(read: SdmxReader<Frame>, q: ChartQuery, num: Numerics, plotAvailable: bool,
                           f: Frame, g: Frame, p: Picks, rows: seq<Row>)
    requires FetchSdmx(read, q.resourceId, q.key) == Ok(Some(f)) && !IsEmpty(f)
    requires Standardised(f) == Ok(g)
    requires Pick(g.columns) == Ok(p) && RenamedLabels(p) == ["Date", "Country", "Value"]
    requires ConvertDates(PickedRows(g, p), num.toDate) == Ok(rows)
    ensures CreditChart(read, q, num, plotAvailable) ==
      (match SortAndFilter(rows, q.startdate, num.toStart)
       case Err(e) => Refused(StatusOf(e), e)
       case Ok(kept) =>
         match PivotAndMode(kept, q.mode, q.units)
         case Err(e) => Refused(StatusOf(e), e)
         case Ok((m, units)) => Render(m, units, q.theme, plotAvailable, num.fit))
  {
    assert "Date" in RenamedLabels(p) && "Country" in RenamedLabels(p);
  }

  /** When the country and value picks are one column, the renamed frame has no
      `Country` label: the start-date check still answers first, and otherwise `pivot`
      raises `KeyError: 'Country'`. */
  lemma LostCountryChart(read: SdmxReader<Frame>, q: ChartQuery, num: Numerics, plotAvailable: bool,
                         f: Frame, g: Frame, p: Picks, rows: seq<Row>)
    requires FetchSdmx(read, q.resourceId, q.key) == Ok(Some(f)) && !IsEmpty(f)
    requires Standardised(f) == Ok(g)
    requires Pick(g.columns) == Ok(p) && "Date" in RenamedLabels(p) && "Country" !in RenamedLabels(p)
    requires ConvertDates(PickedRows(g, p), num.toDate) == Ok(rows)
    ensures CreditChart(read, q, num, plotAvailable) ==
      (match SortAndFilter(rows, q.startdate, num.toStart)
       case Err(e) => Refused(StatusOf(e), e)
       case Ok(_) => Refused(500, MissingKey("Country")))
  {
    assert p.date != p.country && p.date != p.value && p.country == p.value;
  }
}
