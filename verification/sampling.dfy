/**
  The Bernoulli draw of the hidden layer (`sample_prob`), with the uniform
  noise passed in, and the squashing function the hidden conditional uses.
*/
module Sampling {
  import opened Matrices

  /**
    A squashing function: every value lies strictly between 0 and 1, as the
    logistic sigmoid's do. The model never evaluates an exponential; it only
    relies on this range.
  */
  type Squash = f: real -> real | forall x :: 0.0 < f(x) < 1.0 witness (x: real) => 0.5

  /** The sign function: -1, 0 or 1. */
  function Sign(x: real): real {
    if x > 0.0 then 1.0 else if x < 0.0 then -1.0 else 0.0
  }

  /** The rectifier max(x, 0). */
  function Relu(x: real): real {
    if x > 0.0 then x else 0.0
  }

  predicate IsBinary(m: Matrix) {
    forall i, j :: 0 <= i < |m| && 0 <= j < |m[i]| ==> m[i][j] == 0.0 || m[i][j] == 1.0
  }

  predicate IsProbabilities(m: Matrix) {
    forall i, j :: 0 <= i < |m| && 0 <= j < |m[i]| ==> 0.0 < m[i][j] < 1.0
  }

  /**
    relu(sign(probs - noise)) entry by entry. With `noise` drawn uniformly
    from [0, 1) this is one Bernoulli draw per entry; here it is the
    threshold it amounts to: 1 exactly where the probability exceeds the
    noise, 0 elsewhere, ties included.
  */
  function SampleProb(probs: Matrix, noise: Matrix): (r: Matrix)
    requires SameShape(probs, noise)
    ensures SameShape(r, probs)
    ensures forall i, j :: 0 <= i < |r| && 0 <= j < |r[i]| ==>
              (r[i][j] == 1.0 <==> probs[i][j] > noise[i][j])
    ensures IsBinary(r)
  {
    seq(|probs|, i requires 0 <= i < |probs| =>
      seq(|probs[i]|, j requires 0 <= j < |probs[i]| => Relu(Sign(probs[i][j] - noise[i][j]))))
  }
}
