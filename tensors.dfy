/**
 * Tensors as values: a 1-D tensor is a `seq<T>`, a 2-D tensor a `Matrix<T>`.
 * Slicing follows Python's `s[lo:hi]` (bounds past the end are clamped),
 * and `Cat0` is `torch.cat([a, b, c], dim=0)`.
 */
module Tensors {
  import opened Wrappers

  function Min(a: nat, b: nat): nat { if a <= b then a else b }

  /** Length of `s[lo:hi]` when `s` has `n` elements. */
  function SliceLength(n: nat, lo: nat, hi: nat): nat {
    if lo <= hi && lo <= n then Min(hi, n) - lo else 0
  }

  /** Python's `s[lo:hi]` for non-negative bounds. */
  function Slice<T>(s: seq<T>, lo: nat, hi: nat): (r: seq<T>)
    ensures |r| == SliceLength(|s|, lo, hi)
    ensures forall i :: 0 <= i < |r| ==> r[i] == s[lo + i]
    ensures lo <= hi <= |s| ==> r == s[lo..hi]
  {
    if lo <= hi && lo <= |s| then s[lo..Min(hi, |s|)] else []
  }

  /** Adjacent slices join into one. */
  lemma SliceJoin<T>(s: seq<T>, a: nat, b: nat, c: nat)
    requires a <= b <= c <= |s|
    ensures s[a..b] + s[b..c] == s[a..c]
  {
  }

  /**
   * A 2-D tensor of shape (|rows|, cols). The second dimension is kept
   * explicitly, so that a tensor with no rows still has a width.
   */
  datatype Matrix<T> = Matrix(cols: nat, rows: seq<seq<T>>) {
    ghost predicate WellFormed() {
      forall i :: 0 <= i < |rows| ==> |rows[i]| == cols
    }
  }

  /** `m[lo:hi]`: a slice of the first axis. */
  function SliceRows<T>(m: Matrix<T>, lo: nat, hi: nat): (r: Matrix<T>)
    requires m.WellFormed()
    ensures r.WellFormed() && r.cols == m.cols
    ensures |r.rows| == SliceLength(|m.rows|, lo, hi)
    ensures forall i :: 0 <= i < |r.rows| ==> r.rows[i] == m.rows[lo + i]
  {
    Matrix(m.cols, Slice(m.rows, lo, hi))
  }

  /** `m[:, lo:hi]`: a slice of the second axis, taken from every row. */
  function SliceCols<T>(m: Matrix<T>, lo: nat, hi: nat): (r: Matrix<T>)
    requires m.WellFormed()
    ensures r.WellFormed() && |r.rows| == |m.rows|
    ensures r.cols == SliceLength(m.cols, lo, hi)
    ensures forall i :: 0 <= i < |r.rows| ==> r.rows[i] == Slice(m.rows[i], lo, hi)
    ensures forall i, j :: 0 <= i < |r.rows| && 0 <= j < r.cols ==> r.rows[i][j] == m.rows[i][lo + j]
  {
    Matrix(SliceLength(m.cols, lo, hi), seq(|m.rows|, i requires 0 <= i < |m.rows| => Slice(m.rows[i], lo, hi)))
  }

  /**
   * `torch.cat([a, b, c], dim=0)`: the rows of `a`, then of `b`, then of `c`;
   * torch refuses tensors whose second dimensions differ.
   */
  function Cat0<T>(a: Matrix<T>, b: Matrix<T>, c: Matrix<T>): (r: Result<Matrix<T>>)
    requires a.WellFormed() && b.WellFormed() && c.WellFormed()
    ensures r.Ok? <==> a.cols == b.cols == c.cols
    ensures r.Err? ==> r.error == ShapeError
    ensures r.Ok? ==> r.value.WellFormed() && r.value.cols == a.cols
    ensures r.Ok? ==> |r.value.rows| == |a.rows| + |b.rows| + |c.rows|
    ensures r.Ok? ==> forall i :: 0 <= i < |a.rows| ==> r.value.rows[i] == a.rows[i]
    ensures r.Ok? ==> forall i :: 0 <= i < |b.rows| ==> r.value.rows[|a.rows| + i] == b.rows[i]
    ensures r.Ok? ==> forall i :: 0 <= i < |c.rows| ==> r.value.rows[|a.rows| + |b.rows| + i] == c.rows[i]
  {
    if a.cols == b.cols == c.cols then Ok(Matrix(a.cols, a.rows + b.rows + c.rows)) else Err(ShapeError)
  }
}
