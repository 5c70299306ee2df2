/** The data frame that reaches the chart: a date index, column labels, and one optional
    number per (row, column) cell, `None` standing for a missing value (NaN). */
module Grid {
  import opened Common

  datatype Matrix = Matrix(index: seq<int>, columns: seq<string>, cells: seq<seq<Option<real>>>)

  /** One row of cells per index entry, one cell per column in every row. */
  ghost predicate Shaped(m: Matrix)
  {
    |m.cells| == |m.index| && forall i :: 0 <= i < |m.cells| ==> |m.cells[i]| == |m.columns|
  }

  /** `df.iloc[:, j]`: the cells of column `j`, top to bottom. */
  function Column(m: Matrix, j: nat): (col: seq<Option<real>>)
    requires Shaped(m) && j < |m.columns|
    ensures |col| == |m.index|
    ensures forall i :: 0 <= i < |col| ==> col[i] == m.cells[i][j]
  {
    seq(|m.index|, i requires 0 <= i < |m.index| => m.cells[i][j])
  }
}
