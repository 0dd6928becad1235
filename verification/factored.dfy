/**
  The algebra of the factored three-way interaction.

  The interaction tensor between three groups of units is never built: each
  group has a factor matrix with one column per factor, and a row x of one
  group, y of another and z of the third interact through

      Energy(x, y, z) = sum over factors f of (x·Wx)[f] · (y·Wy)[f] · (z·Wz)[f].

  `PropHelper` (the shared projection behind all three conditionals) and
  `DeltaProducts` (the statistic behind all three factor updates) are both
  derivatives of this one form; the lemmas here prove it.
*/
module Factored {
  import opened Matrices
  import opened LinearAlgebra

  /** Two batches with one row count, each paired with a factor matrix of `f` columns. */
  predicate Compatible(a: Matrix, b: Matrix, wa: Matrix, wb: Matrix, f: nat) {
    && |a| == |b|
    && HasCols(a, |wa|) && HasCols(b, |wb|)
    && HasCols(wa, f) && HasCols(wb, f)
  }

  /** (a·Wa) ⊙ (b·Wb): each row's projections onto the factors, multiplied factor by factor. */
  function Interaction(a: Matrix, b: Matrix, wa: Matrix, wb: Matrix, f: nat): (r: Matrix)
    requires Compatible(a, b, wa, wb, f)
    ensures IsMatrix(r, |a|, f)
  {
    Hadamard(MatMul(a, wa, f), MatMul(b, wb, f))
  }

  /** The factored three-way form of one row from each group. */
  function Energy(x: Vector, y: Vector, z: Vector, wx: Matrix, wy: Matrix, wz: Matrix, f: nat): real
    requires IsMatrix(wx, |x|, f) && IsMatrix(wy, |y|, f) && IsMatrix(wz, |z|, f)
  {
    TripleSum(VecMat(x, wx, f), VecMat(y, wy, f), VecMat(z, wz, f))
  }

  /** The three-way form of every row of a batch. */
  function EnergyTerms(a: Matrix, b: Matrix, t: Matrix, wa: Matrix, wb: Matrix, wt: Matrix, f: nat): (r: seq<real>)
    requires Compatible(a, b, wa, wb, f) && IsMatrix(t, |a|, |wt|) && HasCols(wt, f)
    ensures |r| == |a|
  {
    seq(|a|, i requires 0 <= i < |a| => Energy(a[i], b[i], t[i], wa, wb, wt, f))
  }

  /** The three-way form summed over the rows of a batch. */
  function BatchEnergy(a: Matrix, b: Matrix, t: Matrix, wa: Matrix, wb: Matrix, wt: Matrix, f: nat): real
    requires Compatible(a, b, wa, wb, f) && IsMatrix(t, |a|, |wt|) && HasCols(wt, f)
  {
    Sum(EnergyTerms(a, b, t, wa, wb, wt, f))
  }

  /**
    The shared projection ((a·Wa) ⊙ (b·Wb))·Wtᵀ: for every row of the
    batch, one pre-activation per unit of the third group.
  */
  function PropHelper(a: Matrix, b: Matrix, wa: Matrix, wb: Matrix, wt: Matrix, f: nat): (r: Matrix)
    requires Compatible(a, b, wa, wb, f) && HasCols(wt, f)
    ensures IsMatrix(r, |a|, |wt|)
  {
    MatMul(Interaction(a, b, wa, wb, f), Transpose(wt, f), |wt|)
  }

  /**
    tᵀ·((a·Wa) ⊙ (b·Wb)): the batch-summed statistic for the factor matrix
    of the group `t` belongs to (`nt` units). It has that matrix's shape.
  */
  function DeltaProducts(t: Matrix, nt: nat, a: Matrix, b: Matrix, wa: Matrix, wb: Matrix, f: nat): (r: Matrix)
    requires Compatible(a, b, wa, wb, f) && IsMatrix(t, |a|, nt)
    ensures IsMatrix(r, nt, f)
  {
    MatMul(Transpose(t, nt), Interaction(a, b, wa, wb, f), f)
  }

  /** The three-way form does not depend on the order in which the groups are listed. */
  lemma EnergySymmetric(x: Vector, y: Vector, z: Vector, wx: Matrix, wy: Matrix, wz: Matrix, f: nat)
    requires IsMatrix(wx, |x|, f) && IsMatrix(wy, |y|, f) && IsMatrix(wz, |z|, f)
    ensures Energy(x, y, z, wx, wy, wz, f) == Energy(y, x, z, wy, wx, wz, f)
    ensures Energy(x, y, z, wx, wy, wz, f) == Energy(x, z, y, wx, wz, wy, f)
    ensures Energy(x, y, z, wx, wy, wz, f) == Energy(z, y, x, wz, wy, wx, f)
  {
    TripleSumSymmetric(VecMat(x, wx, f), VecMat(y, wy, f), VecMat(z, wz, f));
  }

  /**
    Row i of the shared projection, paired with any row z of the third
    group, is the three-way form of (a[i], b[i], z): the projection is the
    gradient of that form with respect to the third group's units.
  */
  lemma PropHelperIsEnergyGradient(a: Matrix, b: Matrix, wa: Matrix, wb: Matrix, wt: Matrix, f: nat,
                                   i: nat, z: Vector)
    requires Compatible(a, b, wa, wb, f) && HasCols(wt, f)
    requires i < |a| && |z| == |wt|
    ensures Dot(PropHelper(a, b, wa, wb, wt, f)[i], z) == Energy(a[i], b[i], z, wa, wb, wt, f)
  {
    var pa := VecMat(a[i], wa, f);
    var pb := VecMat(b[i], wb, f);
    var g := Interaction(a, b, wa, wb, f)[i];
    assert g == VecMul(pa, pb);
    VecMatTranspose(g, wt);
    RowAdjoint(wt, g, z);
    TripleSumDot(pa, pb, VecMat(z, wt, f));
  }

  /**
    Pairing the delta product with any matrix W of its shape gives the batch
    three-way form with W as the target group's factor matrix: the delta
    product is the gradient of the batch form with respect to that matrix.
  */
  lemma DeltaProductsIsEnergyGradient(t: Matrix, nt: nat, a: Matrix, b: Matrix, wa: Matrix, wb: Matrix,
                                      f: nat, w: Matrix)
    requires Compatible(a, b, wa, wb, f) && IsMatrix(t, |a|, nt) && IsMatrix(w, nt, f)
    ensures Frob(DeltaProducts(t, nt, a, b, wa, wb, f), w) == BatchEnergy(a, b, t, wa, wb, w, f)
  {
    var g := Interaction(a, b, wa, wb, f);
    var tw := MatMul(t, w, f);
    FrobTransposeMul(t, g, w, nt, f);
    var e := EnergyTerms(a, b, t, wa, wb, w, f);
    forall i | 0 <= i < |a|
      ensures Dot(g[i], tw[i]) == e[i]
    {
      TripleSumDot(VecMat(a[i], wa, f), VecMat(b[i], wb, f), VecMat(t[i], w, f));
    }
    FrobByRows(g, tw, e);
  }
}
