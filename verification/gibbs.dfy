/**
  The mean-field Gibbs sweep and the k-sweep chain built from it.
*/
module Gibbs {
  import opened Matrices
  import opened Sampling
  import opened Conditionals

  /** One state of the chain: a batch of each group, in the order (v1, h, v2). */
  datatype Units = Units(v1: Matrix, h: Matrix, v2: Matrix)

  /** All three groups have `n` rows and the store's unit counts. */
  predicate Fits(p: Params, u: Units, n: nat) {
    IsV1(p, u.v1, n) && IsH(p, u.h, n) && IsV2(p, u.v2, n)
  }

  /** What a sweep reads: the h and v2 batches of the state. */
  predicate SweepInput(p: Params, u: Units) {
    IsH(p, u.h, |u.v2|) && IsV2(p, u.v2, |u.v2|)
  }

  /**
    One mean-field sweep: v1 from (v2, h), then v2 from the new v1 and the
    old h, then h from the new v1 and v2. The incoming v1 is never read.
  */
  function Gibbs(p: Params, sigma: Squash, u: Units): (r: Units)
    requires Valid(p) && SweepInput(p, u)
    ensures SweepInput(p, r) && |r.v2| == |u.v2|
  {
    var v1 := PropV2hV1(p, u.v2, u.h);
    var v2 := PropV1hV2(p, v1, u.h);
    var h := PropV1v2H(p, sigma, v1, v2);
    Units(v1, h, v2)
  }

  /**
    The sweep ends in a consistent state that fits the store's shapes: its
    v1 is the v1 mean given the incoming (v2, h), its v2 the v2 mean given
    its own v1 and the incoming h, and its h the hidden conditional of its
    own visibles, so every h entry is a probability.
  */
  lemma GibbsConsistent(p: Params, sigma: Squash, u: Units)
    requires Valid(p) && SweepInput(p, u)
    ensures var r := Gibbs(p, sigma, u);
            && Fits(p, r, |u.v2|)
            && r.v1 == PropV2hV1(p, u.v2, u.h)
            && r.v2 == PropV1hV2(p, r.v1, u.h)
            && r.h == PropV1v2H(p, sigma, r.v1, r.v2)
            && IsProbabilities(r.h)
  {
  }

  /**
    `k` sweeps in a row, as the chain loop runs them; a non-positive `k`
    runs none. The h and v2 batches a sweep reads keep their shapes.
  */
  function GibbsK(p: Params, sigma: Squash, k: int, u: Units): (r: Units)
    requires Valid(p) && SweepInput(p, u)
    ensures SweepInput(p, r) && |r.v2| == |u.v2|
    decreases k
  {
    if k <= 0 then u else GibbsK(p, sigma, k - 1, Gibbs(p, sigma, u))
  }

  /**
    After at least one sweep every group fits the store's shapes, whatever
    v1 the chain started from; a state that fits keeps fitting.
  */
  lemma {:induction false} GibbsKFits(p: Params, sigma: Squash, k: int, u: Units)
    requires Valid(p) && SweepInput(p, u)
    ensures k >= 1 ==> Fits(p, GibbsK(p, sigma, k, u), |u.v2|)
    ensures Fits(p, u, |u.v2|) ==> Fits(p, GibbsK(p, sigma, k, u), |u.v2|)
    decreases k
  {
    if k >= 1 {
      GibbsConsistent(p, sigma, u);
      GibbsKFits(p, sigma, k - 1, Gibbs(p, sigma, u));
    }
  }

  /** A state fits the store and its h is the hidden conditional of its visibles, so every h entry is a probability. */
  predicate Settled(p: Params, sigma: Squash, u: Units)
    requires Valid(p)
  {
    && Fits(p, u, |u.v2|)
    && u.h == PropV1v2H(p, sigma, u.v1, u.v2)
    && IsProbabilities(u.h)
  }

  /** After at least one sweep the chain is settled: its h holds the hidden probabilities of its visibles. */
  lemma {:induction false} GibbsKSettled(p: Params, sigma: Squash, k: int, u: Units)
    requires Valid(p) && SweepInput(p, u) && k >= 1
    ensures Settled(p, sigma, GibbsK(p, sigma, k, u))
    decreases k
  {
    var next := Gibbs(p, sigma, u);
    GibbsConsistent(p, sigma, u);
    if k == 1 {
      assert GibbsK(p, sigma, 0, next) == next;
    } else {
      GibbsKSettled(p, sigma, k - 1, next);
    }
  }

  /** The sweep's result does not depend on the incoming v1. */
  lemma GibbsIgnoresV1(p: Params, sigma: Squash, u: Units, other: Matrix)
    requires Valid(p) && SweepInput(p, u)
    ensures Gibbs(p, sigma, u.(v1 := other)) == Gibbs(p, sigma, u)
  {
  }

  /** Nor does the result of any positive number of sweeps. */
  lemma {:induction false} GibbsKIgnoresV1(p: Params, sigma: Squash, k: int, u: Units, other: Matrix)
    requires Valid(p) && SweepInput(p, u) && k >= 1
    ensures GibbsK(p, sigma, k, u.(v1 := other)) == GibbsK(p, sigma, k, u)
  {
    GibbsIgnoresV1(p, sigma, u, other);
  }

  /** A state the sweep leaves unchanged is left unchanged by any number of sweeps. */
  lemma {:induction false} GibbsKFixedPoint(p: Params, sigma: Squash, k: int, u: Units)
    requires Valid(p) && SweepInput(p, u)
    requires Gibbs(p, sigma, u) == u
    ensures GibbsK(p, sigma, k, u) == u
    decreases k
  {
    if k > 0 {
      GibbsKFixedPoint(p, sigma, k - 1, u);
    }
  }

  /** `k` applications of a total map, the first one innermost. */
  function Iterate<T>(f: T -> T, k: int, x: T): T
    decreases k
  {
    if k <= 0 then x else Iterate(f, k - 1, f(x))
  }

  /** Applying a map j times and then k times is applying it j + k times. */
  lemma {:induction false} IterateCompose<T>(f: T -> T, j: nat, k: nat, x: T)
    ensures Iterate(f, k, Iterate(f, j, x)) == Iterate(f, j + k, x)
    decreases j
  {
    if j > 0 {
      IterateCompose(f, j - 1, k, f(x));
    }
  }

  /** The sweep as a total map on states: it sweeps wherever a sweep is defined. */
  function Step(p: Params, sigma: Squash): Units -> Units {
    x => if Valid(p) && SweepInput(p, x) then Gibbs(p, sigma, x) else x
  }

  /** The chain is the sweep iterated k times. */
  lemma {:induction false} GibbsKIsIterate(p: Params, sigma: Squash, k: int, u: Units)
    requires Valid(p) && SweepInput(p, u)
    ensures GibbsK(p, sigma, k, u) == Iterate(Step(p, sigma), k, u)
    decreases k
  {
    if k > 0 {
      var g := Gibbs(p, sigma, u);
      assert Step(p, sigma)(u) == g;
      GibbsKIsIterate(p, sigma, k - 1, g);
    }
  }

  /** Running j sweeps and then k more is running j + k sweeps. */
  lemma GibbsKCompose(p: Params, sigma: Squash, j: nat, k: nat, u: Units)
    requires Valid(p) && SweepInput(p, u)
    ensures GibbsK(p, sigma, k, GibbsK(p, sigma, j, u)) == GibbsK(p, sigma, j + k, u)
  {
    var mid := GibbsK(p, sigma, j, u);
    GibbsKIsIterate(p, sigma, j, u);
    GibbsKIsIterate(p, sigma, k, mid);
    GibbsKIsIterate(p, sigma, j + k, u);
    IterateCompose(Step(p, sigma), j, k, u);
  }
}
