/** Two-dimensional gene matrices, reduced to what the generational loop relies on:
    their shape and the order of their rows. An `ndarray` matrix keeps its column
    count even when it has no rows, so the column count is stored explicitly. */
module Matrices {
  import opened Wrappers

  /** One decision variable. Only the shape and order of rows matter to the loop,
      so floating-point values are represented by `real`. */
  type Gene = real

  type Row = seq<Gene>

  datatype Matrix = Matrix(rows: seq<Row>, ncols: nat)

  /** Every row has exactly `ncols` entries, as in a rectangular array. */
  predicate WellFormed(m: Matrix) {
    forall i :: 0 <= i < |m.rows| ==> |m.rows[i]| == m.ncols
  }

  function NRows(m: Matrix): nat {
    |m.rows|
  }

  /** Stacking of `top` over `bottom` along the row axis, as `concatenate(Axis(0), ..)`
      does: it fails (None) exactly when the column counts differ; otherwise the result
      holds the rows of `top` followed by the rows of `bottom`, in their order. */
  function Concatenate(top: Matrix, bottom: Matrix): (r: Option<Matrix>)
    ensures r.Some? <==> top.ncols == bottom.ncols
    ensures r.Some? ==>
      && r.value.ncols == top.ncols
      && NRows(r.value) == NRows(top) + NRows(bottom)
      && (forall i :: 0 <= i < NRows(top) ==> r.value.rows[i] == top.rows[i])
      && (forall j :: 0 <= j < NRows(bottom) ==> r.value.rows[NRows(top) + j] == bottom.rows[j])
    ensures r.Some? && WellFormed(top) && WellFormed(bottom) ==> WellFormed(r.value)
  {
    if top.ncols == bottom.ncols then Some(Matrix(top.rows + bottom.rows, top.ncols)) else None
  }
}
