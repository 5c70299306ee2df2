/** `plot_ts` of plot.py: the decisions it takes while building a plotly figure from a
    frame — the colour palette, the traces for each chart kind, the percent axis, the theme
    and the two annotations. The figure is a value listing the traces, annotations and
    axis settings; `FigureBuilder` is the figure object that `add_trace`,
    `add_annotation`, `update_layout` and `update_xaxes`/`update_yaxes` change step by step,
    and `PlotTs` is proved to build exactly `PlotFigure`. */
module Plot {
  import opened Common
  import opened Grid

  /** The 13-colour list of plot.py:20. */
  const FullPalette: seq<string> := ["#f1c40f", "#2ecc71", "#9b59b6", "#e74c3c", "#bababa", "#0f3cf1",
    "#cc2e89", "#b69b59", "#5974b6", "#3cd7e7", "#7d2eff", "#adf10f", "#abecc7"]

  /** The palette for `n` columns. The one-colour list chosen for a single column is
      overwritten at once: the test for two columns starts a new `if` chain, whose `else`
      also covers one column. */
  function Palette(n: nat): (colors: seq<string>)
    ensures colors <= FullPalette && |colors| >= 2
    ensures n == 2 ==> |colors| == 2
    ensures n == 3 ==> |colors| == 5
    ensures n == 4 ==> |colors| == 6
    ensures n == 5 ==> |colors| == 7
    ensures n != 2 && n != 3 && n != 4 && n != 5 ==> colors == FullPalette
  {
    if n == 2 then ["#f1c40f", "#2ecc71"]
    else if n == 3 then ["#f1c40f", "#2ecc71", "#9b59b6", "#e74c3c", "#bababa"]
    else if n == 4 then ["#f1c40f", "#2ecc71", "#9b59b6", "#e74c3c", "#bababa", "#0f3cf1"]
    else if n == 5 then ["#f1c40f", "#2ecc71", "#9b59b6", "#e74c3c", "#bababa", "#0f3cf1", "#cc2e89"]
    else FullPalette
  }

  /** Because every palette is a prefix of the full list, a column's colour depends only on
      its position, never on how many columns there are; so the overwritten one-column
      palette would have coloured its column the same. */
  lemma ColourIndependentOfCount(n1: nat, n2: nat, i: nat)
    requires i < |Palette(n1)| && i < |Palette(n2)|
    ensures Palette(n1)[i] == Palette(n2)[i] == FullPalette[i]
  {
  }

  /** How `plot_ts` draws its frame, chosen by the `chart` argument. */
  datatype Kind = BarKind | RegressionKind | DistributionKind | LineKind

  function KindOf(chart: string): (k: Kind)
    ensures k == BarKind <==> chart == "Bar" || chart == "Bar_PCT" || chart == "bar"
    ensures k == RegressionKind <==> chart == "regression"
    ensures k == DistributionKind <==> chart == "distribution"
  {
    if chart == "Bar" || chart == "Bar_PCT" || chart == "bar" then BarKind
    else if chart == "regression" then RegressionKind
    else if chart == "distribution" then DistributionKind
    else LineKind
  }

  /** The x values of a trace: the frame's dates, numbers, or category labels. */
  datatype Axis = Dates(dates: seq<int>) | Numbers(xs: seq<real>) | Labels(labels: seq<string>)

  /** The `mode` of a scatter trace; `Default` leaves it to plotly. */
  datatype Mode = Default | Lines | Markers

  datatype Trace =
    | Scatter(x: Axis, y: seq<Option<real>>, mode: Mode, name: string, color: string, showLegend: bool)
    | Bar(x: Axis, y: seq<Option<real>>, name: string, color: string)
    | Violin(values: seq<real>, name: string, color: string)

  /** The five theme-dependent colours: text, axis lines, zero lines, template, paper. */
  datatype Style = Style(text: string, line: string, zeroLine: string, template: string, paper: string)

  datatype Annotation = Annotation(text: string, color: string)

  datatype Figure = Figure(
    traces: seq<Trace>,
    annotations: seq<Annotation>,
    xTitle: Option<string>,
    yTitle: string,
    tickFormat: Option<string>,
    style: Style)

  const LightStyle: Style := Style("#0D1018", "black", "#ededed", "plotly_white", "rgba(250,250,250)")
  const DarkStyle: Style := Style("#FFFFFF", "white", "#333333", "plotly_dark", "rgba(30, 49, 66,1)")

  /** `'light'` selects the light colours; every other theme name, the dark ones. */
  function ThemeStyle(theme: string): (s: Style)
    ensures s == LightStyle <==> theme == "light"
    ensures s == DarkStyle <==> theme != "light"
  {
    if theme == "light" then LightStyle else DarkStyle
  }

  /** The test of plot.py:131 that switches the y axis to percent ticks. */
  predicate IsPercent(chart: string)
  {
    chart == "percent_change" || chart == "pct" || chart == "Bar_PCT" || chart == "BAR_PCT_INFLATION"
      || Contains(Lower(chart), "pct")
  }

  /** Three of the five alternatives are already covered by the substring test, so the
      percent axis is used exactly for `percent_change` and for names containing `pct` in
      any case. */
  lemma IsPercentIff(chart: string)
    ensures IsPercent(chart) <==> chart == "percent_change" || Contains(Lower(chart), "pct")
  {
    if chart == "pct" {
      PctAt(Lower(chart), 0);
    } else if chart == "Bar_PCT" || chart == "BAR_PCT_INFLATION" {
      var l := Lower(chart);
      assert l[4] == LowerChar('P') && l[5] == LowerChar('C') && l[6] == LowerChar('T');
      PctAt(l, 4);
    }
  }

  /** `pct` spelled out at position `i` makes it a substring. */
  lemma PctAt(l: string, i: nat)
    requires i + 3 <= |l| && l[i] == 'p' && l[i + 1] == 'c' && l[i + 2] == 't'
    ensures Contains(l, "pct")
  {
    var w := l[i..i + 3];
    assert w[0] == l[i] && w[1] == l[i + 1] && w[2] == l[i + 2];
    assert w == "pct";
    assert OccursAt(l, "pct", i);
  }

  /** The trace of column `j` in a line or bar chart: the column against the dates, named
      after the column, in colour `colors[j]`. */
  function ColumnTrace(m: Matrix, colors: seq<string>, bar: bool, j: nat): (t: Trace)
    requires Shaped(m) && j < |m.columns| && j < |colors|
  {
    if bar then Bar(Dates(m.index), Column(m, j), m.columns[j], colors[j])
    else Scatter(Dates(m.index), Column(m, j), Default, m.columns[j], colors[j], true)
  }

  /** The traces of the first `n` columns of a line or bar chart. */
  function ColumnTraces(m: Matrix, colors: seq<string>, bar: bool, n: nat): (ts: seq<Trace>)
    requires Shaped(m) && n <= |m.columns| && n <= |colors|
    ensures |ts| == n
    ensures forall j :: 0 <= j < n ==> ts[j] == ColumnTrace(m, colors, bar, j)
  {
    if n == 0 then [] else ColumnTraces(m, colors, bar, n - 1) + [ColumnTrace(m, colors, bar, n - 1)]
  }

  /** One trace per column, in column order, each holding that column's values and named
      after it, coloured by its position in the 13-colour list. */
  lemma LineTracesPerColumn(m: Matrix, bar: bool, j: nat)
    requires Shaped(m) && |m.columns| <= |Palette(|m.columns|)| && j < |m.columns|
    ensures |ColumnTraces(m, Palette(|m.columns|), bar, |m.columns|)| == |m.columns|
    ensures var t := ColumnTraces(m, Palette(|m.columns|), bar, |m.columns|)[j];
      t.name == m.columns[j] && t.color == FullPalette[j] && t.x == Dates(m.index)
      && t.y == Column(m, j) && t.Bar? == bar
  {
  }

  /** The present values of a column, in order (`dropna`). */
  function Present(col: seq<Option<real>>): (vs: seq<real>)
    ensures |vs| <= |col|
  {
    if col == [] then []
    else Present(col[..|col| - 1]) + (if col[|col| - 1].Some? then [col[|col| - 1].value] else [])
  }

  /** `dropna` works row by row: the present values of two stretches of a column, one
      after the other, in row order. */
  lemma {:induction false} PresentAppend(a: seq<Option<real>>, b: seq<Option<real>>)
    ensures Present(a + b) == Present(a) + Present(b)
    decreases |b|
  {
    if b == [] {
      assert a + b == a;
    } else {
      var n := |b| - 1;
      assert (a + b)[..|a + b| - 1] == a + b[..n];
      PresentAppend(a, b[..n]);
    }
  }

  /** `dropna` keeps exactly the present values. */
  lemma {:induction false} PresentMembers(col: seq<Option<real>>)
    ensures forall v :: v in Present(col) <==> Some(v) in col
  {
    if col != [] {
      PresentMembers(col[..|col| - 1]);
      assert col == col[..|col| - 1] + [col[|col| - 1]];
    }
  }

  /** Without missing values nothing is dropped. */
  lemma {:induction false} PresentAll(col: seq<Option<real>>)
    requires forall i :: 0 <= i < |col| ==> col[i].Some?
    ensures |Present(col)| == |col|
    ensures forall i :: 0 <= i < |col| ==> Present(col)[i] == col[i].value
  {
    if col != [] {
      PresentAll(col[..|col| - 1]);
    }
  }

  /** The latest present value is the last present cell of the column. */
  lemma {:induction false} PresentLast(col: seq<Option<real>>, i: nat)
    requires i < |col| && col[i].Some?
    requires forall k :: i < k < |col| ==> col[k].None?
    ensures Present(col) != [] && Present(col)[|Present(col)| - 1] == col[i].value
  {
    if i < |col| - 1 {
      PresentLast(col[..|col| - 1], i);
    }
  }

  /** A column's distribution traces: the violin of its present values in colour
      `colors[j % len(colors)]` and, when there is at least one value, a red marker at the
      latest one, whose legend entry is shown only for column 0. */
  function DistributionTracesOf(m: Matrix, colors: seq<string>, j: nat): (ts: seq<Trace>)
    requires Shaped(m) && j < |m.columns| && |colors| > 0
    ensures |ts| == (if Present(Column(m, j)) == [] then 1 else 2)
  {
    var vs := Present(Column(m, j));
    [Violin(vs, m.columns[j], colors[j % |colors|])]
      + (if vs == [] then [] else [Scatter(Labels([m.columns[j]]), [Some(vs[|vs| - 1])], Markers, "Latest", "red", j == 0)])
  }

  /** Column `j` of a distribution chart: a violin of exactly the column's present values,
      in a colour of the palette whatever the column count, then a red "Latest" marker at
      the last present value when there is one, with a legend entry only for column 0. */
  lemma DistributionColumn(m: Matrix, j: nat)
    requires Shaped(m) && j < |m.columns|
    ensures var colors := Palette(|m.columns|);
      var ts := DistributionTracesOf(m, colors, j);
      && ts[0].Violin? && ts[0].name == m.columns[j]
      && (forall v :: v in ts[0].values <==> Some(v) in Column(m, j))
      && j % |colors| < |colors| && ts[0].color == FullPalette[j % |colors|]
      && (|ts| == 2 <==> exists i :: 0 <= i < |m.index| && m.cells[i][j].Some?)
      && (|ts| == 2 ==>
            && ts[1].Scatter? && ts[1].name == "Latest" && ts[1].color == "red"
            && ts[1].showLegend == (j == 0) && ts[1].x == Labels([m.columns[j]])
            && ts[1].y == [Some(Present(Column(m, j))[|Present(Column(m, j))| - 1])])
  {
    var colors := Palette(|m.columns|);
    var col := Column(m, j);
    var ts := DistributionTracesOf(m, colors, j);
    PresentMembers(col);
    PresentNonEmpty(col);
    assert (exists i :: 0 <= i < |m.index| && m.cells[i][j].Some?) <==> (exists i :: 0 <= i < |col| && col[i].Some?);
    assert colors[j % |colors|] == FullPalette[j % |colors|];
  }

  /** `dropna` leaves something exactly when some cell is present. */
  lemma {:induction false} PresentNonEmpty(col: seq<Option<real>>)
    ensures Present(col) != [] <==> exists i :: 0 <= i < |col| && col[i].Some?
  {
    if col != [] {
      var n := |col| - 1;
      PresentNonEmpty(col[..n]);
      assert forall i :: 0 <= i < n ==> col[..n][i] == col[i];
    }
  }

  /** The distribution traces of the first `n` columns. */
  function DistributionTraces(m: Matrix, colors: seq<string>, n: nat): (ts: seq<Trace>)
    requires Shaped(m) && n <= |m.columns| && |colors| > 0
    ensures |ts| >= n
  {
    if n == 0 then [] else DistributionTraces(m, colors, n - 1) + DistributionTracesOf(m, colors, n - 1)
  }

  /** The number of present values of a column, counted over all columns. */
  function ColumnsWithValues(m: Matrix, n: nat): nat
    requires Shaped(m) && n <= |m.columns|
  {
    if n == 0 then 0 else ColumnsWithValues(m, n - 1) + (if Present(Column(m, n - 1)) == [] then 0 else 1)
  }

  /** A distribution chart has one violin per column and one latest marker per column
      that has at least one value. */
  lemma {:induction false} DistributionTraceCount(m: Matrix, colors: seq<string>, n: nat)
    requires Shaped(m) && n <= |m.columns| && |colors| > 0
    ensures |DistributionTraces(m, colors, n)| == n + ColumnsWithValues(m, n)
  {
    if n > 0 {
      DistributionTraceCount(m, colors, n - 1);
      var last := DistributionTracesOf(m, colors, n - 1);
      assert |last| == (if Present(Column(m, n - 1)) == [] then 1 else 2);
      assert DistributionTraces(m, colors, n) == DistributionTraces(m, colors, n - 1) + last;
    }
  }

  /** The (x, y) pairs of the regression chart: the rows where both columns are present. */
  function KeptPairs(xs: seq<Option<real>>, ys: seq<Option<real>>): (ps: seq<(real, real)>)
    requires |xs| == |ys|
    ensures |ps| <= |xs|
  {
    if xs == [] then []
    else
      var n := |xs| - 1;
      KeptPairs(xs[..n], ys[..n]) + (if xs[n].Some? && ys[n].Some? then [(xs[n].value, ys[n].value)] else [])
  }

  /** The mask works row by row: the kept pairs of two stretches of rows, one after the
      other, in row order. */
  lemma {:induction false} KeptPairsAppend(xs: seq<Option<real>>, ys: seq<Option<real>>, xs2: seq<Option<real>>, ys2: seq<Option<real>>)
    requires |xs| == |ys| && |xs2| == |ys2|
    ensures KeptPairs(xs + xs2, ys + ys2) == KeptPairs(xs, ys) + KeptPairs(xs2, ys2)
    decreases |xs2|
  {
    var xa, ya := xs + xs2, ys + ys2;
    if xs2 == [] {
      assert xa == xs && ya == ys;
    } else {
      var n := |xs2| - 1;
      var last := if xs2[n].Some? && ys2[n].Some? then [(xs2[n].value, ys2[n].value)] else [];
      assert xa[..|xa| - 1] == xs + xs2[..n];
      assert ya[..|ya| - 1] == ys + ys2[..n];
      assert xa[|xa| - 1] == xs2[n] && ya[|ya| - 1] == ys2[n];
      assert KeptPairs(xa, ya) == KeptPairs(xs + xs2[..n], ys + ys2[..n]) + last;
      assert KeptPairs(xs2, ys2) == KeptPairs(xs2[..n], ys2[..n]) + last;
      KeptPairsAppend(xs, ys, xs2[..n], ys2[..n]);
    }
  }

  /** The kept pairs are exactly the rows where both columns have a value. */
  lemma {:induction false} KeptPairsMembers(xs: seq<Option<real>>, ys: seq<Option<real>>)
    requires |xs| == |ys|
    ensures forall p :: p in KeptPairs(xs, ys) <==> exists i :: 0 <= i < |xs| && xs[i] == Some(p.0) && ys[i] == Some(p.1)
  {
    if xs != [] {
      var n := |xs| - 1;
      var xs', ys' := xs[..n], ys[..n];
      KeptPairsMembers(xs', ys');
      assert forall i :: 0 <= i < n ==> xs'[i] == xs[i] && ys'[i] == ys[i];
      forall p ensures p in KeptPairs(xs, ys) <==> exists i :: 0 <= i < |xs| && xs[i] == Some(p.0) && ys[i] == Some(p.1) {
        if exists i :: 0 <= i < |xs| && xs[i] == Some(p.0) && ys[i] == Some(p.1) {
          var i :| 0 <= i < |xs| && xs[i] == Some(p.0) && ys[i] == Some(p.1);
          if i < n {
            assert xs'[i] == Some(p.0) && ys'[i] == Some(p.1);
          }
        }
      }
    }
  }

  /** Without missing values every row is a pair, in row order. */
  lemma {:induction false} KeptPairsAll(xs: seq<Option<real>>, ys: seq<Option<real>>)
    requires |xs| == |ys|
    requires forall i :: 0 <= i < |xs| ==> xs[i].Some? && ys[i].Some?
    ensures |KeptPairs(xs, ys)| == |xs|
    ensures forall i :: 0 <= i < |xs| ==> KeptPairs(xs, ys)[i] == (xs[i].value, ys[i].value)
  {
    if xs != [] {
      var n := |xs| - 1;
      var xs', ys' := xs[..n], ys[..n];
      assert forall i :: 0 <= i < n ==> xs'[i] == xs[i] && ys'[i] == ys[i];
      KeptPairsAll(xs', ys');
      var ps := KeptPairs(xs, ys);
      assert ps == KeptPairs(xs', ys') + [(xs[n].value, ys[n].value)];
      forall i | 0 <= i < |xs| ensures ps[i] == (xs[i].value, ys[i].value) {
        if i < n {
          assert ps[i] == KeptPairs(xs', ys')[i];
        }
      }
    }
  }

  function Firsts(ps: seq<(real, real)>): (xs: seq<real>)
    ensures |xs| == |ps| && forall i :: 0 <= i < |ps| ==> xs[i] == ps[i].0
  {
    seq(|ps|, i requires 0 <= i < |ps| => ps[i].0)
  }

  function Seconds(ps: seq<(real, real)>): (ys: seq<real>)
    ensures |ys| == |ps| && forall i :: 0 <= i < |ps| ==> ys[i] == ps[i].1
  {
    seq(|ps|, i requires 0 <= i < |ps| => ps[i].1)
  }

  /** Numbers as trace values, none of them missing. */
  function Cells(vs: seq<real>): (cs: seq<Option<real>>)
    ensures |cs| == |vs| && forall i :: 0 <= i < |vs| ==> cs[i] == Some(vs[i])
  {
    seq(|vs|, i requires 0 <= i < |vs| => Some(vs[i]))
  }

  /** The last `min(12, n)` pairs (`.iloc[-12:]`). */
  function Latest12(ps: seq<(real, real)>): (r: seq<(real, real)>)
    ensures |r| == if |ps| < 12 then |ps| else 12
    ensures ps == ps[..|ps| - |r|] + r
  {
    if |ps| <= 12 then ps else ps[|ps| - 12..]
  }

  /** `np.polyfit(x, y, 1)`, the least-squares slope and intercept. */
  type Fit = (seq<real>, seq<real>) -> (real, real)

  /** The fitted line `coef[0] * x + coef[1]` at every kept x. */
  function FittedLine(xs: seq<real>, coef: (real, real)): (ys: seq<Option<real>>)
    ensures |ys| == |xs| && forall i :: 0 <= i < |xs| ==> ys[i] == Some(LineAt(coef, xs[i]))
  {
    seq(|xs|, i requires 0 <= i < |xs| => Some(LineAt(coef, xs[i])))
  }

  function LineAt(coef: (real, real), x: real): real
  {
    coef.0 * x + coef.1
  }

  /** The regression traces, for a frame with at least two columns: all kept pairs as
      markers, the fitted line when more than one pair is kept, and the latest twelve. */
  function RegressionTraces(m: Matrix, fit: Fit): (ts: seq<Trace>)
    requires Shaped(m) && |m.columns| >= 2
    ensures |ts| == if |KeptPairs(Column(m, 0), Column(m, 1))| > 1 then 3 else 2
  {
    var ps := KeptPairs(Column(m, 0), Column(m, 1));
    var all := Scatter(Numbers(Firsts(ps)), Cells(Seconds(ps)), Markers, m.columns[0] + " vs " + m.columns[1] + " (All)", "#3b7484", true);
    var recent := Latest12(ps);
    var latest := Scatter(Numbers(Firsts(recent)), Cells(Seconds(recent)), Markers, "Latest 12", "red", true);
    if |ps| > 1 then
      [all, Scatter(Numbers(Firsts(ps)), FittedLine(Firsts(ps), fit(Firsts(ps), Seconds(ps))), Lines, "Regression", "#ec772a", true), latest]
    else [all, latest]
  }

  /** The regression chart marks the rows where both columns have a value and highlights
      the latest at most twelve of them, which are the last kept pairs. */
  lemma RegressionTracesShape(m: Matrix, fit: Fit)
    requires Shaped(m) && |m.columns| >= 2
    ensures var ps := KeptPairs(Column(m, 0), Column(m, 1));
      var ts := RegressionTraces(m, fit);
      && ts[0].Scatter? && ts[0].x == Numbers(Firsts(ps)) && ts[0].y == Cells(Seconds(ps))
      && ts[|ts| - 1].Scatter? && ts[|ts| - 1].name == "Latest 12"
      && |ts[|ts| - 1].y| == (if |ps| < 12 then |ps| else 12)
      && ts[|ts| - 1].x == Numbers(Firsts(ps[|ps| - |ts[|ts| - 1].y|..]))
      && (|ps| > 1 ==>
            && ts[1].Scatter? && ts[1].name == "Regression" && ts[1].x == Numbers(Firsts(ps))
            && ts[1].y == FittedLine(Firsts(ps), fit(Firsts(ps), Seconds(ps))))
  {
    var ps := KeptPairs(Column(m, 0), Column(m, 1));
    var recent := Latest12(ps);
    assert recent == ps[|ps| - |recent|..];
  }

  /** The traces of `plot_ts` and the x-axis title it sets; a line or bar chart with
      more columns than colours raises `IndexError` at `colors[i]`. */
  function PlotTraces(m: Matrix, chart: string, fit: Fit): (r: Result<(seq<Trace>, Option<string>), Failure>)
    requires Shaped(m)
    ensures r.Err? <==> (KindOf(chart) == BarKind || KindOf(chart) == LineKind) && |m.columns| > 13
    ensures r.Err? ==> r.error == ColorOutOfRange
    ensures r.Ok? && (KindOf(chart) == BarKind || KindOf(chart) == LineKind) ==>
      && |r.value.0| == |m.columns| && r.value.1.None?
      && forall j :: 0 <= j < |m.columns| ==>
           r.value.0[j] == ColumnTrace(m, Palette(|m.columns|), KindOf(chart) == BarKind, j)
    ensures KindOf(chart) == RegressionKind ==>
      r == if |m.columns| >= 2 then Ok((RegressionTraces(m, fit), Some(m.columns[0]))) else Ok(([], None))
    ensures KindOf(chart) == DistributionKind ==>
      && r.Ok? && r.value.1.None?
      && |r.value.0| == |m.columns| + ColumnsWithValues(m, |m.columns|)
      && r.value.0 == DistributionTraces(m, Palette(|m.columns|), |m.columns|)
  {
    var colors := Palette(|m.columns|);
    match KindOf(chart)
    case BarKind =>
      if |m.columns| > |colors| then Err(ColorOutOfRange) else Ok((ColumnTraces(m, colors, true, |m.columns|), None))
    case LineKind =>
      if |m.columns| > |colors| then Err(ColorOutOfRange) else Ok((ColumnTraces(m, colors, false, |m.columns|), None))
    case RegressionKind =>
      if |m.columns| >= 2 then Ok((RegressionTraces(m, fit), Some(m.columns[0]))) else Ok(([], None))
    case DistributionKind =>
      DistributionTraceCount(m, colors, |m.columns|);
      Ok((DistributionTraces(m, colors, |m.columns|), None))
  }

  /** What `plot_ts` returns. */
  function PlotFigure(m: Matrix, nome: string, units: string, chart: string, source: string, theme: string, fit: Fit): (r: Result<Figure, Failure>)
    requires Shaped(m)
    ensures r.Err? <==> (KindOf(chart) == BarKind || KindOf(chart) == LineKind) && |m.columns| > 13
    ensures r.Ok? ==> r.value.annotations == [Annotation(source, ThemeStyle(theme).text), Annotation("<b>" + nome + "<b>", ThemeStyle(theme).text)]
    ensures r.Ok? ==> r.value.yTitle == units
    ensures r.Ok? ==> (r.value.tickFormat == Some(",.2%") <==> IsPercent(chart))
    ensures r.Ok? ==> (r.value.tickFormat.None? <==> !IsPercent(chart))
    ensures r.Ok? ==> r.value.style == ThemeStyle(theme)
    ensures r.Ok? ==> (r.value.xTitle.Some? <==> KindOf(chart) == RegressionKind && |m.columns| >= 2)
    ensures r.Ok? <==> PlotTraces(m, chart, fit).Ok?
    ensures r.Ok? ==> r.value.traces == PlotTraces(m, chart, fit).value.0 && r.value.xTitle == PlotTraces(m, chart, fit).value.1
  {
    match PlotTraces(m, chart, fit)
    case Err(e) => Err(e)
    case Ok((traces, xTitle)) =>
      var style := ThemeStyle(theme);
      Ok(Figure(traces, [Annotation(source, style.text), Annotation("<b>" + nome + "<b>", style.text)],
        xTitle, units, if IsPercent(chart) then Some(",.2%") else None, style))
  }

  /** The plotly figure object, changed in place as `plot_ts` goes. */
  class FigureBuilder {
    var traces: seq<Trace>
    var annotations: seq<Annotation>
    var xTitle: Option<string>
    var yTitle: string
    var tickFormat: Option<string>
    var style: Style

    /** `go.Figure()`: no traces, no annotations, no titles, the light template. */
    constructor()
      ensures traces == [] && annotations == [] && xTitle == None && yTitle == "" && tickFormat == None
      ensures style == LightStyle
    {
      traces := [];
      annotations := [];
      xTitle := None;
      yTitle := "";
      tickFormat := None;
      style := LightStyle;
    }

    /** `fig.add_trace(t)`. */
    method AddTrace(t: Trace)
      modifies this
      ensures traces == old(traces) + [t]
      ensures annotations == old(annotations) && xTitle == old(xTitle) && yTitle == old(yTitle)
      ensures tickFormat == old(tickFormat) && style == old(style)
    {
      traces := traces + [t];
    }

    /** `fig.add_annotation(text=..., font=dict(color=...))`. */
    method AddAnnotation(a: Annotation)
      modifies this
      ensures annotations == old(annotations) + [a]
      ensures traces == old(traces) && xTitle == old(xTitle) && yTitle == old(yTitle)
      ensures tickFormat == old(tickFormat) && style == old(style)
    {
      annotations := annotations + [a];
    }

    /** `fig.update_xaxes(title_text=...)` and `fig.update_yaxes(title_text=...)`. */
    method SetAxisTitles(x: string, y: string)
      modifies this
      ensures xTitle == Some(x) && yTitle == y
      ensures traces == old(traces) && annotations == old(annotations)
      ensures tickFormat == old(tickFormat) && style == old(style)
    {
      xTitle := Some(x);
      yTitle := y;
    }

    /** `fig.update_layout(yaxis={'tickformat': f})`. */
    method SetTickFormat(f: string)
      modifies this
      ensures tickFormat == Some(f)
      ensures traces == old(traces) && annotations == old(annotations)
      ensures xTitle == old(xTitle) && yTitle == old(yTitle) && style == old(style)
    {
      tickFormat := Some(f);
    }

    /** The final `update_layout`/`update_xaxes`/`update_yaxes` calls: the theme's
        colours, and `yaxis_title=units`, which replaces any earlier y-axis title. Later
        calls merge into the axis settings, so the tick format stays. */
    method Style(s: Style, units: string)
      modifies this
      ensures style == s && yTitle == units
      ensures traces == old(traces) && annotations == old(annotations)
      ensures xTitle == old(xTitle) && tickFormat == old(tickFormat)
    {
      style := s;
      yTitle := units;
    }

    function Snapshot(): (f: Figure)
      reads this
      ensures f.traces == traces && f.annotations == annotations && f.xTitle == xTitle
      ensures f.yTitle == yTitle && f.tickFormat == tickFormat && f.style == style
    {
      Figure(traces, annotations, xTitle, yTitle, tickFormat, style)
    }
  }

  /** One turn of the distribution loop: the violin of column `i` and its latest marker. */
  method AddDistribution(fig: FigureBuilder, m: Matrix, colors: seq<string>, i: nat)
    requires Shaped(m) && i < |m.columns| && |colors| > 0
    modifies fig
    ensures fig.traces == old(fig.traces) + DistributionTracesOf(m, colors, i)
    ensures fig.annotations == old(fig.annotations) && fig.xTitle == old(fig.xTitle)
    ensures fig.tickFormat == old(fig.tickFormat)
  {
    var vs := Present(Column(m, i));
    fig.AddTrace(Violin(vs, m.columns[i], colors[i % |colors|]));
    if vs != [] {
      fig.AddTrace(Scatter(Labels([m.columns[i]]), [Some(vs[|vs| - 1])], Markers, "Latest", "red", i == 0));
    }
  }

  /** The trace loop of a line or bar chart: one trace per column, until the palette
      runs out. */
  method AddColumnTraces(fig: FigureBuilder, m: Matrix, colors: seq<string>, bar: bool) returns (ok: bool)
    requires Shaped(m)
    requires fig.traces == [] && fig.annotations == [] && fig.xTitle == None && fig.tickFormat == None
    modifies fig
    ensures ok <==> |m.columns| <= |colors|
    ensures ok ==> fig.traces == ColumnTraces(m, colors, bar, |m.columns|)
    ensures fig.annotations == [] && fig.xTitle == None && fig.tickFormat == None
  {
    var i := 0;
    while i < |m.columns|
      invariant 0 <= i <= |m.columns| && i <= |colors|
      invariant fig.traces == ColumnTraces(m, colors, bar, i)
      invariant fig.annotations == [] && fig.xTitle == None && fig.tickFormat == None
    {
      if i >= |colors| {
        return false;
      }
      fig.AddTrace(ColumnTrace(m, colors, bar, i));
      i := i + 1;
    }
    return true;
  }

  /** `fig.add_trace` for each of a list of traces, in order. */
  method AddTraceList(fig: FigureBuilder, ts: seq<Trace>)
    modifies fig
    ensures fig.traces == old(fig.traces) + ts
    ensures fig.annotations == old(fig.annotations) && fig.xTitle == old(fig.xTitle)
    ensures fig.tickFormat == old(fig.tickFormat)
  {
    var i := 0;
    while i < |ts|
      invariant 0 <= i <= |ts|
      invariant fig.traces == old(fig.traces) + ts[..i]
      invariant fig.annotations == old(fig.annotations) && fig.xTitle == old(fig.xTitle)
      invariant fig.tickFormat == old(fig.tickFormat)
    {
      assert ts[..i + 1] == ts[..i] + [ts[i]];
      fig.AddTrace(ts[i]);
      i := i + 1;
    }
    assert ts[..i] == ts;
  }

  /** The regression branch: its traces, then both axis titles. */
  method AddRegression(fig: FigureBuilder, m: Matrix, fit: Fit)
    requires Shaped(m) && |m.columns| >= 2
    requires fig.traces == [] && fig.annotations == [] && fig.xTitle == None && fig.tickFormat == None
    modifies fig
    ensures fig.traces == RegressionTraces(m, fit) && fig.xTitle == Some(m.columns[0])
    ensures fig.annotations == [] && fig.tickFormat == None
  {
    AddTraceList(fig, RegressionTraces(m, fit));
    fig.SetAxisTitles(m.columns[0], m.columns[1]);
  }

  /** The distribution loop over all columns. */
  method AddDistributions(fig: FigureBuilder, m: Matrix, colors: seq<string>)
    requires Shaped(m) && |colors| > 0
    requires fig.traces == [] && fig.annotations == [] && fig.xTitle == None && fig.tickFormat == None
    modifies fig
    ensures fig.traces == DistributionTraces(m, colors, |m.columns|)
    ensures fig.annotations == [] && fig.xTitle == None && fig.tickFormat == None
  {
    var i := 0;
    while i < |m.columns|
      invariant 0 <= i <= |m.columns|
      invariant fig.traces == DistributionTraces(m, colors, i)
      invariant fig.annotations == [] && fig.xTitle == None && fig.tickFormat == None
    {
      AddDistribution(fig, m, colors, i);
      i := i + 1;
    }
  }

  /** The chart-kind branch of `plot_ts`: the traces and x-axis title of `PlotTraces`, or
      `false` for its `IndexError`. */
  method AddTraces(fig: FigureBuilder, m: Matrix, chart: string, fit: Fit) returns (ok: bool)
    requires Shaped(m)
    requires fig.traces == [] && fig.annotations == [] && fig.xTitle == None && fig.tickFormat == None
    modifies fig
    ensures ok <==> PlotTraces(m, chart, fit).Ok?
    ensures ok ==> fig.traces == PlotTraces(m, chart, fit).value.0 && fig.xTitle == PlotTraces(m, chart, fit).value.1
    ensures fig.annotations == [] && fig.tickFormat == None
  {
    var colors := Palette(|m.columns|);
    var kind := KindOf(chart);
    if kind == BarKind || kind == LineKind {
      ok := AddColumnTraces(fig, m, colors, kind == BarKind);
    } else if kind == RegressionKind {
      if |m.columns| >= 2 {
        AddRegression(fig, m, fit);
      }
      ok := true;
    } else {
      AddDistributions(fig, m, colors);
      ok := true;
    }
  }

  /** `plot_ts(df, nome, units, chart, source, theme=theme)`, step by step. */
  method PlotTs(m: Matrix, nome: string, units: string, chart: string, source: string, theme: string, fit: Fit)
    returns (r: Result<Figure, Failure>)
    requires Shaped(m)
    ensures r == PlotFigure(m, nome, units, chart, source, theme, fit)
  {
    var fig := new FigureBuilder();
    var ok := AddTraces(fig, m, chart, fit);
    if !ok {
      return Err(ColorOutOfRange);
    }
    var style := ThemeStyle(theme);
    fig.AddAnnotation(Annotation(source, style.text));
    fig.AddAnnotation(Annotation("<b>" + nome + "<b>", style.text));
    if IsPercent(chart) {
      fig.SetTickFormat(",.2%");
    }
    fig.Style(style, units);
    assert fig.tickFormat == if IsPercent(chart) then Some(",.2%") else None;
    assert fig.annotations == [Annotation(source, style.text), Annotation("<b>" + nome + "<b>", style.text)];
    r := Ok(fig.Snapshot());
  }
}
