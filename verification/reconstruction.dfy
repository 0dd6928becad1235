/**
  The one-step reconstruction cost: the hidden probabilities are computed
  from the input batch, each visible group is redrawn from its conditional
  given the other group and those probabilities, and the squared
  differences from the input are summed over both groups.
*/
module Reconstruction {
  import opened Matrices
  import opened LinearAlgebra
  import opened Sampling
  import opened Conditionals

  /** The input batch of both visible groups and the standard-normal draws of the two redraws. */
  predicate IsBatch(p: Params, v1: Matrix, v2: Matrix, z1: Matrix, z2: Matrix) {
    && IsV1(p, v1, |v1|) && IsV2(p, v2, |v1|)
    && IsV1(p, z1, |v1|) && IsV2(p, z2, |v1|)
  }

  /** Sum of squared entries of a − b. */
  function SquaredError(a: Matrix, b: Matrix): (r: real)
    requires SameShape(a, b)
    ensures r >= 0.0
    ensures r == 0.0 <==> a == b
  {
    SubZeroIffEqual(a, b);
    SumSquaresAllNonNegative(Sub(a, b));
    SumSquaresAll(Sub(a, b))
  }

  lemma SubZeroIffEqual(a: Matrix, b: Matrix)
    requires SameShape(a, b)
    ensures IsZero(Sub(a, b)) <==> a == b
  {
    var d := Sub(a, b);
    if IsZero(d) {
      forall i | 0 <= i < |a| ensures a[i] == b[i] {
        forall j | 0 <= j < |a[i]| ensures a[i][j] == b[i][j] {
          assert d[i][j] == a[i][j] - b[i][j];
        }
      }
    }
  }

  /**
    reconstruction_error: the squared distance of v1 from its redraw given
    (v2, h) plus that of v2 from its redraw given (v1, h), where h holds
    P(h | v1, v2) of the input. It is never negative, and it is zero exactly
    when both redraws reproduce the input.
  */
  function ReconstructionError(p: Params, sigma: Squash, v1: Matrix, v2: Matrix, z1: Matrix, z2: Matrix): (r: real)
    requires Valid(p) && IsBatch(p, v1, v2, z1, z2)
    ensures r >= 0.0
    ensures r == 0.0 <==>
              var h := PropV1v2H(p, sigma, v1, v2);
              v1 == SampleV1GivenV2h(p, v2, h, z1) && v2 == SampleV2GivenV1h(p, v1, h, z2)
  {
    var h := PropV1v2H(p, sigma, v1, v2);
    SquaredError(v1, SampleV1GivenV2h(p, v2, h, z1)) + SquaredError(v2, SampleV2GivenV1h(p, v1, h, z2))
  }

  /**
    With all-zero draws the cost is the squared error of the mean-field
    reconstruction, the one the Gibbs sweep computes.
  */
  lemma ZeroNoiseErrorIsMeanFieldError(p: Params, sigma: Squash, v1: Matrix, v2: Matrix, z1: Matrix, z2: Matrix)
    requires Valid(p) && IsBatch(p, v1, v2, z1, z2) && IsZero(z1) && IsZero(z2)
    ensures var h := PropV1v2H(p, sigma, v1, v2);
            ReconstructionError(p, sigma, v1, v2, z1, z2)
            == SquaredError(v1, PropV2hV1(p, v2, h)) + SquaredError(v2, PropV1hV2(p, v1, h))
  {
    var h := PropV1v2H(p, sigma, v1, v2);
    ZeroNoiseDrawIsMean(p, v1, v2, h, z1, z2);
  }
}
