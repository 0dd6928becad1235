/**
  The parameters of the three-way RBM and the conditionals built on the
  shared projection: P(h | v1, v2), the mean of v2 given (v1, h) and the
  mean of v1 given (v2, h), together with the draws made from them.

  Units come in batches: one row per example. v1 and v2 are real-valued
  groups, h is the hidden group.
*/
module Conditionals {
  import opened Matrices
  import opened LinearAlgebra
  import opened Factored
  import opened Sampling

  /**
    The parameter store: one factor matrix per group (one row per unit,
    `factors` columns), a 1×n bias per group, and the fixed per-unit
    variances of the two real-valued groups.
  */
  datatype Params = Params(
    factors: nat,
    wV1: Matrix, wV2: Matrix, wH: Matrix,
    bV1: Matrix, bV2: Matrix, bH: Matrix,
    varV1: Vector, varV2: Vector)

  function NV1(p: Params): nat { |p.wV1| }
  function NV2(p: Params): nat { |p.wV2| }
  function NH(p: Params): nat { |p.wH| }

  predicate Valid(p: Params) {
    && HasCols(p.wV1, p.factors) && HasCols(p.wV2, p.factors) && HasCols(p.wH, p.factors)
    && IsMatrix(p.bV1, 1, NV1(p)) && IsMatrix(p.bV2, 1, NV2(p)) && IsMatrix(p.bH, 1, NH(p))
    && |p.varV1| == NV1(p) && |p.varV2| == NV2(p)
    && (forall j :: 0 <= j < |p.varV1| ==> p.varV1[j] > 0.0)
    && (forall j :: 0 <= j < |p.varV2| ==> p.varV2[j] > 0.0)
  }

  /** Two parameter stores of one configuration: same factor count and unit counts. */
  predicate SameShapes(p: Params, q: Params) {
    && p.factors == q.factors
    && NV1(p) == NV1(q) && NV2(p) == NV2(q) && NH(p) == NH(q)
  }

  /** Batches of `n` rows for each group. */
  predicate IsV1(p: Params, v: Matrix, n: nat) { IsMatrix(v, n, NV1(p)) }
  predicate IsV2(p: Params, v: Matrix, n: nat) { IsMatrix(v, n, NV2(p)) }
  predicate IsH(p: Params, v: Matrix, n: nat) { IsMatrix(v, n, NH(p)) }

  /** The pre-activation of the hidden units: the shared projection onto W_h plus the hidden bias. */
  function HiddenInput(p: Params, v1: Matrix, v2: Matrix): (r: Matrix)
    requires Valid(p) && IsV1(p, v1, |v1|) && IsV2(p, v2, |v1|)
    ensures IsH(p, r, |v1|)
  {
    AddRow(PropHelper(v1, v2, p.wV1, p.wV2, p.wH, p.factors), p.bH)
  }

  /** P(h | v1, v2): the hidden pre-activation squashed entry by entry, so every entry is a probability. */
  function PropV1v2H(p: Params, sigma: Squash, v1: Matrix, v2: Matrix): (r: Matrix)
    requires Valid(p) && IsV1(p, v1, |v1|) && IsV2(p, v2, |v1|)
    ensures IsH(p, r, |v1|)
    ensures IsProbabilities(r)
  {
    MapEntries(sigma, HiddenInput(p, v1, v2))
  }

  /** The mean of v2 given (v1, h): the shared projection onto W_v2 plus the v2 bias, unsquashed. */
  function PropV1hV2(p: Params, v1: Matrix, h: Matrix): (r: Matrix)
    requires Valid(p) && IsV1(p, v1, |v1|) && IsH(p, h, |v1|)
    ensures IsV2(p, r, |v1|)
  {
    AddRow(PropHelper(v1, h, p.wV1, p.wH, p.wV2, p.factors), p.bV2)
  }

  /** The mean of v1 given (v2, h): the shared projection onto W_v1 plus the v1 bias, unsquashed. */
  function PropV2hV1(p: Params, v2: Matrix, h: Matrix): (r: Matrix)
    requires Valid(p) && IsV2(p, v2, |v2|) && IsH(p, h, |v2|)
    ensures IsV1(p, r, |v2|)
  {
    AddRow(PropHelper(v2, h, p.wV2, p.wH, p.wV1, p.factors), p.bV1)
  }

  /** The factored three-way form of one example under the store's factor matrices. */
  function ModelEnergy(p: Params, x1: Vector, x2: Vector, y: Vector): real
    requires Valid(p) && |x1| == NV1(p) && |x2| == NV2(p) && |y| == NH(p)
  {
    Energy(x1, x2, y, p.wV1, p.wV2, p.wH, p.factors)
  }

  lemma DotAddRow(m: Matrix, row: Matrix, i: nat, z: Vector)
    requires |row| == 1 && HasCols(m, |row[0]|) && i < |m| && |z| == |row[0]|
    ensures Dot(AddRow(m, row)[i], z) == Dot(m[i], z) + Dot(row[0], z)
  {
    DotComm(AddRow(m, row)[i], z);
    DotAddRight(z, m[i], row[0]);
    DotComm(z, m[i]);
    DotComm(z, row[0]);
  }

  /**
    The three conditionals come from one energy. For every example, pairing
    a group's conditional pre-activation (bias removed) with that group's
    own units gives the same number, the factored three-way form of the
    example. This is why one Gibbs sweep through the three conditionals
    targets a single joint distribution.
  */
  lemma ConditionalsShareEnergy(p: Params, v1: Matrix, v2: Matrix, h: Matrix, i: nat)
    requires Valid(p) && IsV1(p, v1, |v1|) && IsV2(p, v2, |v1|) && IsH(p, h, |v1|)
    requires i < |v1|
    ensures Dot(HiddenInput(p, v1, v2)[i], h[i]) - Dot(p.bH[0], h[i])
         == ModelEnergy(p, v1[i], v2[i], h[i])
    ensures Dot(PropV1hV2(p, v1, h)[i], v2[i]) - Dot(p.bV2[0], v2[i])
         == ModelEnergy(p, v1[i], v2[i], h[i])
    ensures Dot(PropV2hV1(p, v2, h)[i], v1[i]) - Dot(p.bV1[0], v1[i])
         == ModelEnergy(p, v1[i], v2[i], h[i])
  {
    var f := p.factors;
    DotAddRow(PropHelper(v1, v2, p.wV1, p.wV2, p.wH, f), p.bH, i, h[i]);
    PropHelperIsEnergyGradient(v1, v2, p.wV1, p.wV2, p.wH, f, i, h[i]);

    DotAddRow(PropHelper(v1, h, p.wV1, p.wH, p.wV2, f), p.bV2, i, v2[i]);
    PropHelperIsEnergyGradient(v1, h, p.wV1, p.wH, p.wV2, f, i, v2[i]);
    EnergySymmetric(v1[i], v2[i], h[i], p.wV1, p.wV2, p.wH, f);

    DotAddRow(PropHelper(v2, h, p.wV2, p.wH, p.wV1, f), p.bV1, i, v1[i]);
    PropHelperIsEnergyGradient(v2, h, p.wV2, p.wH, p.wV1, f, i, v1[i]);
    EnergySymmetric(v2[i], h[i], v1[i], p.wV2, p.wH, p.wV1, f);
    EnergySymmetric(v1[i], h[i], v2[i], p.wV1, p.wH, p.wV2, f);
  }

  /** sample_h_given_v1v2: a Bernoulli draw of every hidden unit, with the uniform noise passed in. */
  function SampleHGivenV1v2(p: Params, sigma: Squash, v1: Matrix, v2: Matrix, noise: Matrix): (r: Matrix)
    requires Valid(p) && IsV1(p, v1, |v1|) && IsV2(p, v2, |v1|) && IsH(p, noise, |v1|)
    ensures IsH(p, r, |v1|)
    ensures IsBinary(r)
    ensures forall i, j :: 0 <= i < |r| && 0 <= j < NH(p) ==>
              (r[i][j] == 1.0 <==> PropV1v2H(p, sigma, v1, v2)[i][j] > noise[i][j])
  {
    SampleProb(PropV1v2H(p, sigma, v1, v2), noise)
  }

  /**
    sample_v1_given_v2h: a Normal draw around the conditional mean, with the
    fixed per-unit v1 variance passed as the Normal's scale. `z` holds the
    standard-normal draws, so each entry is mean + scale · z.
  */
  function SampleV1GivenV2h(p: Params, v2: Matrix, h: Matrix, z: Matrix): (r: Matrix)
    requires Valid(p) && IsV2(p, v2, |v2|) && IsH(p, h, |v2|) && IsV1(p, z, |v2|)
    ensures IsV1(p, r, |v2|)
    ensures forall i, j :: 0 <= i < |v2| && 0 <= j < NV1(p) ==>
              r[i][j] - PropV2hV1(p, v2, h)[i][j] == p.varV1[j] * z[i][j]
  {
    Add(PropV2hV1(p, v2, h), MulCols(z, p.varV1))
  }

  /** sample_v2_given_v1h: as `SampleV1GivenV2h`, for v2 given (v1, h). */
  function SampleV2GivenV1h(p: Params, v1: Matrix, h: Matrix, z: Matrix): (r: Matrix)
    requires Valid(p) && IsV1(p, v1, |v1|) && IsH(p, h, |v1|) && IsV2(p, z, |v1|)
    ensures IsV2(p, r, |v1|)
    ensures forall i, j :: 0 <= i < |v1| && 0 <= j < NV2(p) ==>
              r[i][j] - PropV1hV2(p, v1, h)[i][j] == p.varV2[j] * z[i][j]
  {
    Add(PropV1hV2(p, v1, h), MulCols(z, p.varV2))
  }

  /** With all-zero noise a Normal draw is its mean: the mean-field value the Gibbs sweep uses. */
  lemma ZeroNoiseDrawIsMean(p: Params, v1: Matrix, v2: Matrix, h: Matrix, z1: Matrix, z2: Matrix)
    requires Valid(p) && IsV1(p, v1, |v1|) && IsV2(p, v2, |v1|) && IsH(p, h, |v1|)
    requires IsV1(p, z1, |v1|) && IsV2(p, z2, |v1|) && IsZero(z1) && IsZero(z2)
    ensures SampleV1GivenV2h(p, v2, h, z1) == PropV2hV1(p, v2, h)
    ensures SampleV2GivenV1h(p, v1, h, z2) == PropV1hV2(p, v1, h)
  {
    var s1 := SampleV1GivenV2h(p, v2, h, z1);
    var m1 := PropV2hV1(p, v2, h);
    forall i | 0 <= i < |v1| ensures s1[i] == m1[i] {
      forall j | 0 <= j < NV1(p) ensures s1[i][j] == m1[i][j] {
        assert z1[i][j] == 0.0;
      }
    }
    var s2 := SampleV2GivenV1h(p, v1, h, z2);
    var m2 := PropV1hV2(p, v1, h);
    forall i | 0 <= i < |v1| ensures s2[i] == m2[i] {
      forall j | 0 <= j < NV2(p) ensures s2[i][j] == m2[i][j] {
        assert z2[i][j] == 0.0;
      }
    }
  }
}
