/**
  Dense real matrices as sequences of row vectors, with the handful of
  operations the factored model needs (matrix product, transpose,
  elementwise product, row broadcasting, column means) and the linear-algebra
  facts the model's proofs rest on.

  A matrix carries no shape of its own: `IsMatrix(m, rows, cols)` states it,
  and the operations whose result width cannot be read off a zero-row
  operand take that width as an argument.
*/
module Matrices {

  type Vector = seq<real>
  type Matrix = seq<Vector>

  /** Every row of `m` has exactly `cols` entries. */
  predicate HasCols(m: Matrix, cols: nat) {
    forall i :: 0 <= i < |m| ==> |m[i]| == cols
  }

  predicate IsMatrix(m: Matrix, rows: nat, cols: nat) {
    |m| == rows && HasCols(m, cols)
  }

  /** Same number of rows, and row by row the same width. */
  predicate SameShape(a: Matrix, b: Matrix) {
    |a| == |b| && forall i :: 0 <= i < |a| ==> |a[i]| == |b[i]|
  }

  // ---------------------------------------------------------------- vectors

  function Sum(x: Vector): real
    decreases |x|
  {
    if |x| == 0 then 0.0 else x[0] + Sum(x[1..])
  }

  function Dot(x: Vector, y: Vector): real
    requires |x| == |y|
    decreases |x|
  {
    if |x| == 0 then 0.0 else x[0] * y[0] + Dot(x[1..], y[1..])
  }

  /** Sum over k of x[k] * y[k] * z[k]: the three-way pairing of the factor model. */
  function TripleSum(x: Vector, y: Vector, z: Vector): real
    requires |x| == |y| == |z|
    decreases |x|
  {
    if |x| == 0 then 0.0 else x[0] * y[0] * z[0] + TripleSum(x[1..], y[1..], z[1..])
  }

  /** Sum over k of x[k] * x[k]. */
  function SumSquares(x: Vector): real
    decreases |x|
  {
    if |x| == 0 then 0.0 else x[0] * x[0] + SumSquares(x[1..])
  }

  function VecAdd(x: Vector, y: Vector): (r: Vector)
    requires |x| == |y|
    ensures |r| == |x|
  {
    seq(|x|, k requires 0 <= k < |x| => x[k] + y[k])
  }

  function VecSub(x: Vector, y: Vector): (r: Vector)
    requires |x| == |y|
    ensures |r| == |x|
  {
    seq(|x|, k requires 0 <= k < |x| => x[k] - y[k])
  }

  function VecScale(c: real, x: Vector): (r: Vector)
    ensures |r| == |x|
  {
    seq(|x|, k requires 0 <= k < |x| => c * x[k])
  }

  /** Elementwise product. */
  function VecMul(x: Vector, y: Vector): (r: Vector)
    requires |x| == |y|
    ensures |r| == |x|
  {
    seq(|x|, k requires 0 <= k < |x| => x[k] * y[k])
  }

  function Zeros(n: nat): (r: Vector)
    ensures |r| == n
  {
    seq(n, k => 0.0)
  }

  // --------------------------------------------------------------- matrices

  function Column(m: Matrix, j: nat): (c: Vector)
    requires forall i :: 0 <= i < |m| ==> j < |m[i]|
    ensures |c| == |m|
  {
    seq(|m|, i requires 0 <= i < |m| => m[i][j])
  }

  /** Row vector `x` times matrix `w` (|x| rows, `cols` columns). */
  function VecMat(x: Vector, w: Matrix, cols: nat): (r: Vector)
    requires IsMatrix(w, |x|, cols)
    ensures |r| == cols
  {
    seq(cols, j requires 0 <= j < cols => Dot(x, Column(w, j)))
  }

  /** Matrix `w` times column vector `g`: entry j is the pairing of `g` with row j. */
  function MatVec(w: Matrix, g: Vector): (r: Vector)
    requires HasCols(w, |g|)
    ensures |r| == |w|
  {
    seq(|w|, j requires 0 <= j < |w| => Dot(g, w[j]))
  }

  /** The matrix product `a · b`, where `b` has `cols` columns. */
  function MatMul(a: Matrix, b: Matrix, cols: nat): (r: Matrix)
    requires HasCols(a, |b|) && HasCols(b, cols)
    ensures IsMatrix(r, |a|, cols)
  {
    seq(|a|, i requires 0 <= i < |a| => VecMat(a[i], b, cols))
  }

  function Transpose(m: Matrix, cols: nat): (r: Matrix)
    requires HasCols(m, cols)
    ensures IsMatrix(r, cols, |m|)
  {
    seq(cols, j requires 0 <= j < cols => Column(m, j))
  }

  function Add(a: Matrix, b: Matrix): (r: Matrix)
    requires SameShape(a, b)
    ensures SameShape(r, a)
  {
    seq(|a|, i requires 0 <= i < |a| => VecAdd(a[i], b[i]))
  }

  function Sub(a: Matrix, b: Matrix): (r: Matrix)
    requires SameShape(a, b)
    ensures SameShape(r, a)
  {
    seq(|a|, i requires 0 <= i < |a| => VecSub(a[i], b[i]))
  }

  function Scale(c: real, a: Matrix): (r: Matrix)
    ensures SameShape(r, a)
  {
    seq(|a|, i requires 0 <= i < |a| => VecScale(c, a[i]))
  }

  /** Elementwise product of two matrices of one shape. */
  function Hadamard(a: Matrix, b: Matrix): (r: Matrix)
    requires SameShape(a, b)
    ensures SameShape(r, a)
  {
    seq(|a|, i requires 0 <= i < |a| => VecMul(a[i], b[i]))
  }

  /** `x` as the rows of an outer product: row j is x[j] times `y`. */
  function Outer(x: Vector, y: Vector): (r: Matrix)
    ensures IsMatrix(r, |x|, |y|)
  {
    seq(|x|, j requires 0 <= j < |x| => VecScale(x[j], y))
  }

  /** Adds the single row of a 1×n matrix to every row (broadcasting). */
  function AddRow(m: Matrix, row: Matrix): (r: Matrix)
    requires |row| == 1 && HasCols(m, |row[0]|)
    ensures IsMatrix(r, |m|, |row[0]|)
  {
    seq(|m|, i requires 0 <= i < |m| => VecAdd(m[i], row[0]))
  }

  /** Divides column j of `m` by `d[j]` (broadcasting a vector over the rows). */
  function DivideCols(m: Matrix, d: Vector): (r: Matrix)
    requires HasCols(m, |d|)
    requires forall j :: 0 <= j < |d| ==> d[j] != 0.0
    ensures IsMatrix(r, |m|, |d|)
  {
    seq(|m|, i requires 0 <= i < |m| =>
      seq(|d|, j requires 0 <= j < |d| => m[i][j] / d[j]))
  }

  /** Multiplies column j of `m` by `d[j]` (broadcasting a vector over the rows). */
  function MulCols(m: Matrix, d: Vector): (r: Matrix)
    requires HasCols(m, |d|)
    ensures IsMatrix(r, |m|, |d|)
  {
    seq(|m|, i requires 0 <= i < |m| =>
      seq(|d|, j requires 0 <= j < |d| => m[i][j] * d[j]))
  }

  /** Applies `f` to every entry. */
  function MapEntries(f: real -> real, m: Matrix): (r: Matrix)
    ensures SameShape(r, m)
  {
    seq(|m|, i requires 0 <= i < |m| =>
      seq(|m[i]|, j requires 0 <= j < |m[i]| => f(m[i][j])))
  }

  /** The mean over the rows, kept as a 1×cols matrix. */
  function ColumnMean(m: Matrix, cols: nat): (r: Matrix)
    requires |m| > 0 && HasCols(m, cols)
    ensures IsMatrix(r, 1, cols)
  {
    [seq(cols, j requires 0 <= j < cols => Sum(Column(m, j)) / (|m| as real))]
  }

  /** The Frobenius pairing: the sum of the entrywise products. */
  function Frob(a: Matrix, b: Matrix): real
    requires SameShape(a, b)
    decreases |a|
  {
    if |a| == 0 then 0.0 else Dot(a[0], b[0]) + Frob(a[1..], b[1..])
  }

  /** The sum of the squares of all entries. */
  function SumSquaresAll(m: Matrix): real
    decreases |m|
  {
    if |m| == 0 then 0.0 else SumSquares(m[0]) + SumSquaresAll(m[1..])
  }

  predicate IsZero(m: Matrix) {
    forall i, j :: 0 <= i < |m| && 0 <= j < |m[i]| ==> m[i][j] == 0.0
  }
}
