/**
  Facts about the operations of `Matrices`: bilinearity of the pairings,
  the adjoint identities that move a matrix from one side of a pairing to
  the other, and the sign facts behind sums of squares.
*/
module LinearAlgebra {
  import opened Matrices

  // ------------------------------------------------------- vector pairings

  lemma {:induction false} DotComm(x: Vector, y: Vector)
    requires |x| == |y|
    ensures Dot(x, y) == Dot(y, x)
    decreases |x|
  {
    if |x| > 0 {
      DotComm(x[1..], y[1..]);
    }
  }

  lemma {:induction false} DotAddRight(g: Vector, u: Vector, v: Vector)
    requires |g| == |u| == |v|
    ensures Dot(g, VecAdd(u, v)) == Dot(g, u) + Dot(g, v)
    decreases |g|
  {
    if |g| > 0 {
      assert VecAdd(u, v)[1..] == VecAdd(u[1..], v[1..]);
      DotAddRight(g[1..], u[1..], v[1..]);
    }
  }

  lemma {:induction false} DotScaleRight(g: Vector, c: real, w: Vector)
    requires |g| == |w|
    ensures Dot(g, VecScale(c, w)) == c * Dot(g, w)
    decreases |g|
  {
    if |g| > 0 {
      forall k | 0 <= k < |w| - 1
        ensures VecScale(c, w)[1..][k] == VecScale(c, w[1..])[k]
      {
      }
      assert VecScale(c, w)[1..] == VecScale(c, w[1..]);
      DotScaleRight(g[1..], c, w[1..]);
    }
  }

  lemma DotScaleLeft(c: real, g: Vector, w: Vector)
    requires |g| == |w|
    ensures Dot(VecScale(c, g), w) == c * Dot(g, w)
  {
    DotComm(VecScale(c, g), w);
    DotScaleRight(w, c, g);
    DotComm(w, g);
  }

  lemma {:induction false} DotZerosLeft(w: Vector)
    ensures Dot(Zeros(|w|), w) == 0.0
    decreases |w|
  {
    if |w| > 0 {
      assert Zeros(|w|)[1..] == Zeros(|w[1..]|);
      DotZerosLeft(w[1..]);
    }
  }

  lemma {:induction false} TripleSumDot(x: Vector, y: Vector, z: Vector)
    requires |x| == |y| == |z|
    ensures TripleSum(x, y, z) == Dot(VecMul(x, y), z)
    decreases |x|
  {
    if |x| > 0 {
      forall k | 0 <= k < |x| - 1
        ensures VecMul(x, y)[1..][k] == VecMul(x[1..], y[1..])[k]
      {
      }
      assert VecMul(x, y)[1..] == VecMul(x[1..], y[1..]);
      TripleSumDot(x[1..], y[1..], z[1..]);
    }
  }

  /** The three-way pairing does not depend on the order of its arguments. */
  lemma {:induction false} TripleSumSymmetric(x: Vector, y: Vector, z: Vector)
    requires |x| == |y| == |z|
    ensures TripleSum(x, y, z) == TripleSum(y, x, z)
    ensures TripleSum(x, y, z) == TripleSum(x, z, y)
    ensures TripleSum(x, y, z) == TripleSum(z, y, x)
    decreases |x|
  {
    if |x| > 0 {
      TripleSumSymmetric(x[1..], y[1..], z[1..]);
      assert x[0] * y[0] * z[0] == y[0] * x[0] * z[0] == x[0] * z[0] * y[0] == z[0] * y[0] * x[0];
    }
  }

  lemma {:induction false} SumSub(x: Vector, y: Vector)
    requires |x| == |y|
    ensures Sum(VecSub(x, y)) == Sum(x) - Sum(y)
    decreases |x|
  {
    if |x| > 0 {
      assert VecSub(x, y)[1..] == VecSub(x[1..], y[1..]);
      SumSub(x[1..], y[1..]);
    }
  }

  // ------------------------------------------------------ vector × matrix

  /** Splitting off the first row of `w` splits `x · w` accordingly. */
  lemma VecMatSplit(x: Vector, w: Matrix, cols: nat)
    requires |x| > 0 && IsMatrix(w, |x|, cols)
    ensures VecMat(x, w, cols)
         == VecAdd(VecScale(x[0], w[0]), VecMat(x[1..], w[1..], cols))
  {
    var lhs := VecMat(x, w, cols);
    var rhs := VecAdd(VecScale(x[0], w[0]), VecMat(x[1..], w[1..], cols));
    forall j | 0 <= j < cols
      ensures lhs[j] == rhs[j]
    {
      assert Column(w, j)[1..] == Column(w[1..], j);
    }
  }

  /** Multiplying by the transpose of `w` pairs with the rows of `w`. */
  lemma VecMatTranspose(g: Vector, w: Matrix)
    requires HasCols(w, |g|)
    ensures VecMat(g, Transpose(w, |g|), |w|) == MatVec(w, g)
  {
    var t := Transpose(w, |g|);
    forall j | 0 <= j < |w|
      ensures VecMat(g, t, |w|)[j] == MatVec(w, g)[j]
    {
      assert Column(t, j) == w[j];
    }
  }

  /** ⟨w g, z⟩ == ⟨g, z w⟩: the adjoint identity for one row. */
  lemma {:induction false} RowAdjoint(w: Matrix, g: Vector, z: Vector)
    requires IsMatrix(w, |z|, |g|)
    ensures Dot(MatVec(w, g), z) == Dot(g, VecMat(z, w, |g|))
    decreases |z|
  {
    if |z| == 0 {
      assert VecMat(z, w, |g|) == Zeros(|g|);
      DotZerosLeft(g);
      DotComm(Zeros(|g|), g);
    } else {
      assert MatVec(w, g)[1..] == MatVec(w[1..], g);
      RowAdjoint(w[1..], g, z[1..]);
      VecMatSplit(z, w, |g|);
      DotAddRight(g, VecScale(z[0], w[0]), VecMat(z[1..], w[1..], |g|));
      DotScaleRight(g, z[0], w[0]);
    }
  }

  // ----------------------------------------------------- matrix pairings

  lemma {:induction false} FrobAddLeft(a: Matrix, b: Matrix, c: Matrix)
    requires SameShape(a, b) && SameShape(a, c)
    ensures Frob(Add(a, b), c) == Frob(a, c) + Frob(b, c)
    decreases |a|
  {
    if |a| > 0 {
      assert Add(a, b)[1..] == Add(a[1..], b[1..]);
      DotComm(VecAdd(a[0], b[0]), c[0]);
      DotAddRight(c[0], a[0], b[0]);
      DotComm(c[0], a[0]);
      DotComm(c[0], b[0]);
      FrobAddLeft(a[1..], b[1..], c[1..]);
    }
  }

  lemma {:induction false} DotSubLeft(p: Vector, q: Vector, x: Vector)
    requires |p| == |q| == |x|
    ensures Dot(VecSub(p, q), x) == Dot(p, x) - Dot(q, x)
    decreases |p|
  {
    if |p| > 0 {
      assert VecSub(p, q)[1..] == VecSub(p[1..], q[1..]);
      DotSubLeft(p[1..], q[1..], x[1..]);
      assert (p[0] - q[0]) * x[0] == p[0] * x[0] - q[0] * x[0];
    }
  }

  lemma {:induction false} FrobSubLeft(p: Matrix, q: Matrix, x: Matrix)
    requires SameShape(p, q) && SameShape(p, x)
    ensures Frob(Sub(p, q), x) == Frob(p, x) - Frob(q, x)
    decreases |p|
  {
    if |p| > 0 {
      assert Sub(p, q)[1..] == Sub(p[1..], q[1..]);
      FrobSubLeft(p[1..], q[1..], x[1..]);
      DotSubLeft(p[0], q[0], x[0]);
    }
  }

  /** A pairing whose rows pair to the entries of `e` sums to `Sum(e)`. */
  lemma {:induction false} FrobByRows(a: Matrix, b: Matrix, e: Vector)
    requires SameShape(a, b) && |e| == |a|
    requires forall i :: 0 <= i < |a| ==> Dot(a[i], b[i]) == e[i]
    ensures Frob(a, b) == Sum(e)
    decreases |a|
  {
    if |a| > 0 {
      FrobByRows(a[1..], b[1..], e[1..]);
    }
  }

  /** Pairing an outer product x ⊗ y with `w` is pairing `y` with `x · w`. */
  lemma {:induction false} FrobOuter(x: Vector, y: Vector, w: Matrix)
    requires IsMatrix(w, |x|, |y|)
    ensures Frob(Outer(x, y), w) == Dot(y, VecMat(x, w, |y|))
    decreases |x|
  {
    if |x| == 0 {
      assert VecMat(x, w, |y|) == Zeros(|y|);
      DotZerosLeft(y);
      DotComm(Zeros(|y|), y);
    } else {
      assert Outer(x, y)[1..] == Outer(x[1..], y);
      FrobOuter(x[1..], y, w[1..]);
      DotScaleLeft(x[0], y, w[0]);
      VecMatSplit(x, w, |y|);
      DotAddRight(y, VecScale(x[0], w[0]), VecMat(x[1..], w[1..], |y|));
      DotScaleRight(y, x[0], w[0]);
    }
  }

  /** tᵀ·g is the outer product of the first rows plus tᵀ·g on the remaining rows. */
  lemma TransposeMulSplit(t: Matrix, g: Matrix, nt: nat, f: nat)
    requires |t| == |g| > 0 && HasCols(t, nt) && HasCols(g, f)
    ensures MatMul(Transpose(t, nt), g, f)
         == Add(Outer(t[0], g[0]), MatMul(Transpose(t[1..], nt), g[1..], f))
  {
    var lhs := MatMul(Transpose(t, nt), g, f);
    var rhs := Add(Outer(t[0], g[0]), MatMul(Transpose(t[1..], nt), g[1..], f));
    forall j | 0 <= j < nt
      ensures lhs[j] == rhs[j]
    {
      forall c | 0 <= c < f
        ensures lhs[j][c] == rhs[j][c]
      {
        assert Column(t, j)[1..] == Column(t[1..], j);
        assert Column(g, c)[1..] == Column(g[1..], c);
      }
    }
  }

  lemma ZeroRowsTransposeMul(t: Matrix, g: Matrix, nt: nat, f: nat)
    requires |t| == |g| == 0
    ensures MatMul(Transpose(t, nt), g, f) == seq(nt, j => Zeros(f))
  {
    forall j | 0 <= j < nt
      ensures MatMul(Transpose(t, nt), g, f)[j] == Zeros(f)
    {
    }
  }

  lemma {:induction false} FrobZerosLeft(w: Matrix, f: nat)
    requires HasCols(w, f)
    ensures Frob(seq(|w|, j => Zeros(f)), w) == 0.0
    decreases |w|
  {
    if |w| > 0 {
      assert seq(|w|, j => Zeros(f))[1..] == seq(|w[1..]|, j => Zeros(f));
      FrobZerosLeft(w[1..], f);
      DotZerosLeft(w[0]);
    }
  }

  /** ⟨tᵀ g, w⟩ == ⟨g, t w⟩: the adjoint identity for matrices. */
  lemma {:induction false} FrobTransposeMul(t: Matrix, g: Matrix, w: Matrix, nt: nat, f: nat)
    requires |t| == |g| && HasCols(t, nt) && HasCols(g, f) && IsMatrix(w, nt, f)
    ensures Frob(MatMul(Transpose(t, nt), g, f), w) == Frob(g, MatMul(t, w, f))
    decreases |t|
  {
    if |t| == 0 {
      ZeroRowsTransposeMul(t, g, nt, f);
      FrobZerosLeft(w, f);
    } else {
      TransposeMulSplit(t, g, nt, f);
      FrobAddLeft(Outer(t[0], g[0]), MatMul(Transpose(t[1..], nt), g[1..], f), w);
      FrobOuter(t[0], g[0], w);
      FrobTransposeMul(t[1..], g[1..], w, nt, f);
      assert MatMul(t, w, f)[1..] == MatMul(t[1..], w, f);
    }
  }

  // ------------------------------------------------------- squares, means

  /**
    Multiplication behind a function symbol: the solver's preprocessing
    rewrites sign facts about a literal square `a * a` into forms it can no
    longer combine, so the sign of a square is stated about `Times(a, a)`.
  */
  function Times(a: real, b: real): real { a * b }

  lemma TimesPositive(a: real, b: real)
    requires a > 0.0 && b > 0.0
    ensures Times(a, b) > 0.0
  {
  }

  lemma SquareSign(a: real)
    ensures Times(a, a) >= 0.0
    ensures a != 0.0 ==> Times(a, a) > 0.0
  {
    if a < 0.0 {
      TimesPositive(-a, -a);
      assert Times(a, a) == Times(-a, -a);
    } else if a > 0.0 {
      TimesPositive(a, a);
    }
  }

  lemma {:induction false} SumSquaresNonNegative(x: Vector)
    ensures SumSquares(x) >= 0.0
    ensures SumSquares(x) == 0.0 <==> forall k :: 0 <= k < |x| ==> x[k] == 0.0
    decreases |x|
  {
    if |x| > 0 {
      var tail := x[1..];
      SumSquaresNonNegative(tail);
      SquareSign(x[0]);
      assert SumSquares(x) == Times(x[0], x[0]) + SumSquares(tail);
      if SumSquares(x) == 0.0 {
        assert x[0] == 0.0;
        forall k | 0 <= k < |x| ensures x[k] == 0.0 {
          if k > 0 { assert x[k] == tail[k - 1]; }
        }
      }
      if forall k :: 0 <= k < |x| ==> x[k] == 0.0 {
        assert forall k :: 0 <= k < |tail| ==> tail[k] == 0.0;
      }
    }
  }

  lemma {:induction false} SumSquaresAllNonNegative(m: Matrix)
    ensures SumSquaresAll(m) >= 0.0
    ensures SumSquaresAll(m) == 0.0 <==> IsZero(m)
    decreases |m|
  {
    if |m| > 0 {
      SumSquaresNonNegative(m[0]);
      SumSquaresAllNonNegative(m[1..]);
      if IsZero(m) {
        assert IsZero(m[1..]);
      }
      if SumSquaresAll(m) == 0.0 {
        forall i, j | 0 <= i < |m| && 0 <= j < |m[i]| ensures m[i][j] == 0.0 {
          if i > 0 { assert m[i] == m[1..][i - 1]; }
        }
      }
    }
  }

  lemma DivSub(x: real, y: real, n: real)
    requires n > 0.0
    ensures (x - y) / n == x / n - y / n
  {
  }

  /** The column mean of a difference is the difference of the column means. */
  lemma ColumnMeanSub(a: Matrix, b: Matrix, cols: nat)
    requires |a| > 0 && IsMatrix(a, |a|, cols) && IsMatrix(b, |a|, cols)
    ensures ColumnMean(Sub(a, b), cols) == Sub(ColumnMean(a, cols), ColumnMean(b, cols))
  {
    var n := |a| as real;
    assert n > 0.0;
    var lhs := ColumnMean(Sub(a, b), cols);
    var rhs := Sub(ColumnMean(a, cols), ColumnMean(b, cols));
    assert |lhs| == |rhs| == 1;
    forall j | 0 <= j < cols
      ensures ColumnMean(Sub(a, b), cols)[0][j] == Sub(ColumnMean(a, cols), ColumnMean(b, cols))[0][j]
    {
      assert Column(Sub(a, b), j) == VecSub(Column(a, j), Column(b, j));
      SumSub(Column(a, j), Column(b, j));
      DivSub(Sum(Column(a, j)), Sum(Column(b, j)), n);
    }
    assert lhs[0] == rhs[0];
  }
}
