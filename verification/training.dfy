/**
  k-step (persistent) contrastive divergence: the chain bookkeeping of one
  training call and the update of every factor matrix and bias.

  One call of `PcdK` is one training step on one batch, written as a pure
  transition from the model's state before the step to its state after.
*/
module Training {
  import opened Wrappers
  import opened Matrices
  import opened LinearAlgebra
  import opened Factored
  import opened Sampling
  import opened Conditionals
  import opened Gibbs

  /**
    The model between training steps: the parameter store, the training
    configuration, and the three chain fields, each absent until the first
    persistent step fills it.
  */
  datatype Rbm = Rbm(
    params: Params,
    batchSize: nat,
    learningRate: real,
    k: int,
    persistent: bool,
    chainV1: Option<Matrix>,
    chainH: Option<Matrix>,
    chainV2: Option<Matrix>)

  predicate ChainFits(c: Option<Matrix>, rows: nat, cols: nat) {
    c.Some? ==> IsMatrix(c.value, rows, cols)
  }

  predicate ValidRbm(m: Rbm) {
    && Valid(m.params)
    && m.batchSize > 0
    && ChainFits(m.chainV1, m.batchSize, NV1(m.params))
    && ChainFits(m.chainH, m.batchSize, NH(m.params))
    && ChainFits(m.chainV2, m.batchSize, NV2(m.params))
  }

  /** One batch of data for each visible group, with the configured batch size. */
  predicate IsInput(m: Rbm, v1In: Matrix, v2In: Matrix) {
    IsV1(m.params, v1In, m.batchSize) && IsV2(m.params, v2In, m.batchSize)
  }

  /** The configuration is untouched and the store keeps its shapes. */
  predicate SameConfig(m: Rbm, r: Rbm) {
    && r.batchSize == m.batchSize && r.learningRate == m.learningRate
    && r.k == m.k && r.persistent == m.persistent
    && SameShapes(r.params, m.params)
  }

  predicate HasChain(m: Rbm) {
    m.chainV1.Some? && m.chainH.Some? && m.chainV2.Some?
  }

  predicate NoChain(m: Rbm) {
    m.chainV1.None? && m.chainH.None? && m.chainV2.None?
  }

  /**
    Why the constructor raises: the initial standard deviation
    1 / sqrt((v1_size + v2_size) / 2) divides by zero when there are no
    visible units, and a batch size that is zero (the data size is divided
    by it) or negative (no placeholder can have that many rows) is refused.
  */
  datatype InitError = NoVisibleUnits | NonPositiveBatchSize

  function ZeroRow(n: nat): (r: Matrix)
    ensures IsMatrix(r, 1, n)
  {
    [Zeros(n)]
  }

  function Ones(n: nat): (r: Vector)
    ensures |r| == n && forall j :: 0 <= j < n ==> r[j] == 1.0
  {
    seq(n, j => 1.0)
  }

  /**
    The constructor. The factor matrices' random initial values are passed
    in and stored as given, together with the training configuration, whose
    defaults are a learning rate of 0.1, one sweep, no persistent chain and
    ten factors.
    Biases start at zero, the variances at one, and the chain is absent.
    It fails first when there are no visible units (the initial standard
    deviation divides by zero), then when the batch size is not positive.
  */
  function NewRbm(v1Size: nat, hSize: nat, v2Size: nat, batchSize: int,
                  wV1: Matrix, wV2: Matrix, wH: Matrix,
                  learningRate: real := 0.1, k: int := 1, persistent: bool := false,
                  factors: nat := 10): (r: Result<Rbm, InitError>)
    requires IsMatrix(wV1, v1Size, factors) && IsMatrix(wV2, v2Size, factors) && IsMatrix(wH, hSize, factors)
    ensures r.Success? <==> v1Size + v2Size > 0 && batchSize > 0
    ensures r.Failure? ==> r.error == (if v1Size + v2Size == 0 then NoVisibleUnits else NonPositiveBatchSize)
    ensures r.Success? ==>
              && ValidRbm(r.value) && NoChain(r.value)
              && NV1(r.value.params) == v1Size && NV2(r.value.params) == v2Size
              && NH(r.value.params) == hSize
              && IsZero(r.value.params.bV1) && IsZero(r.value.params.bV2) && IsZero(r.value.params.bH)
    ensures r.Success? ==>
              && r.value.params.varV1 == Ones(v1Size) && r.value.params.varV2 == Ones(v2Size)
              && r.value.params.wV1 == wV1 && r.value.params.wV2 == wV2 && r.value.params.wH == wH
              && r.value.params.factors == factors
              && r.value.batchSize == batchSize && r.value.learningRate == learningRate
              && r.value.k == k && r.value.persistent == persistent
  {
    if v1Size + v2Size == 0 then Failure(NoVisibleUnits)
    else if batchSize <= 0 then Failure(NonPositiveBatchSize)
    else
      var p := Params(factors, wV1, wV2, wH, ZeroRow(v1Size), ZeroRow(v2Size), ZeroRow(hSize),
                      Ones(v1Size), Ones(v2Size));
      Success(Rbm(p, batchSize, learningRate, k, persistent, None, None, None))
  }

  // ------------------------------------------------------ chain bookkeeping

  /**
    Lazy initialisation of the chain: in persistent mode each absent field
    is filled, v1 and v2 from the input batch and h from the hidden
    conditional of the (possibly just filled) chain visibles. Fields already
    present are kept, and nothing changes in non-persistent mode.
  */
  function InitChain(m: Rbm, sigma: Squash, v1In: Matrix, v2In: Matrix): (r: Rbm)
    requires ValidRbm(m) && IsInput(m, v1In, v2In)
    ensures ValidRbm(r) && SameConfig(m, r) && r.params == m.params
    ensures m.persistent ==> HasChain(r)
    ensures !m.persistent ==> r == m
    ensures m.chainV1.Some? ==> r.chainV1 == m.chainV1
    ensures m.chainH.Some? ==> r.chainH == m.chainH
    ensures m.chainV2.Some? ==> r.chainV2 == m.chainV2
    ensures m.persistent && m.chainV1.None? ==> r.chainV1 == Some(v1In)
    ensures m.persistent && m.chainV2.None? ==> r.chainV2 == Some(v2In)
    ensures m.persistent && m.chainH.None? ==>
              r.chainH == Some(PropV1v2H(m.params, sigma, r.chainV1.value, r.chainV2.value))
  {
    var c1 := if m.chainV1.None? && m.persistent then Some(v1In) else m.chainV1;
    var c2 := if m.chainV2.None? && m.persistent then Some(v2In) else m.chainV2;
    var ch := if m.chainH.None? && m.persistent
              then Some(PropV1v2H(m.params, sigma, c1.value, c2.value))
              else m.chainH;
    m.(chainV1 := c1, chainH := ch, chainV2 := c2)
  }

  /**
    Where the negative chain starts: the stored chain in persistent mode,
    otherwise the input batch with h = P(h | input). The h of this state is
    also the positive-phase hidden statistic (`start_h`).
  */
  function ChainStart(m: Rbm, sigma: Squash, v1In: Matrix, v2In: Matrix): (r: Units)
    requires ValidRbm(m) && IsInput(m, v1In, v2In)
    requires m.persistent ==> HasChain(m)
    ensures Fits(m.params, r, m.batchSize)
  {
    var startH := if m.persistent then m.chainH.value else PropV1v2H(m.params, sigma, v1In, v2In);
    if m.persistent then Units(m.chainV1.value, startH, m.chainV2.value)
    else Units(v1In, startH, v2In)
  }

  /** The start of the chain in a training call, after the lazy initialisation. */
  function StartOf(m: Rbm, sigma: Squash, v1In: Matrix, v2In: Matrix): (r: Units)
    requires ValidRbm(m) && IsInput(m, v1In, v2In)
    ensures Fits(m.params, r, m.batchSize)
  {
    ChainStart(InitChain(m, sigma, v1In, v2In), sigma, v1In, v2In)
  }

  /** The negative phase of a training call: the chain after `k` sweeps. */
  function NegativeOf(m: Rbm, sigma: Squash, v1In: Matrix, v2In: Matrix): (r: Units)
    requires ValidRbm(m) && IsInput(m, v1In, v2In)
    ensures Fits(m.params, r, m.batchSize)
  {
    GibbsKFits(m.params, sigma, m.k, StartOf(m, sigma, v1In, v2In));
    GibbsK(m.params, sigma, m.k, StartOf(m, sigma, v1In, v2In))
  }

  /** The positive phase of a training call: the input batch with `start_h`. */
  function PositiveOf(m: Rbm, sigma: Squash, v1In: Matrix, v2In: Matrix): (r: Units)
    requires ValidRbm(m) && IsInput(m, v1In, v2In)
    ensures Fits(m.params, r, m.batchSize)
  {
    Units(v1In, StartOf(m, sigma, v1In, v2In).h, v2In)
  }

  // ---------------------------------------------------------------- updates

  /** The visible groups divided by their fixed variances, as the delta products read them. */
  function Normalized(p: Params, u: Units): (r: Units)
    requires Valid(p) && Fits(p, u, |u.v1|)
    ensures Fits(p, r, |u.v1|) && r.h == u.h
  {
    Units(DivideCols(u.v1, p.varV1), u.h, DivideCols(u.v2, p.varV2))
  }

  /** W + lr·(pos − neg). */
  function FactorStep(w: Matrix, lr: real, pos: Matrix, neg: Matrix): (r: Matrix)
    requires SameShape(w, pos) && SameShape(w, neg)
    ensures SameShape(r, w)
  {
    Add(w, Scale(lr, Sub(pos, neg)))
  }

  /** b + lr·mean over the batch of (data − sample), as a 1×cols row. */
  function BiasStep(b: Matrix, lr: real, data: Matrix, sample: Matrix, cols: nat): (r: Matrix)
    requires IsMatrix(b, 1, cols) && |data| > 0 && IsMatrix(data, |data|, cols)
    requires IsMatrix(sample, |data|, cols)
    ensures IsMatrix(r, 1, cols)
  {
    Add(b, Scale(lr, ColumnMean(Sub(data, sample), cols)))
  }

  function UpdateV1(p: Params, lr: real, pos: Units, neg: Units): (r: Matrix)
    requires Valid(p) && |pos.v1| > 0 && Fits(p, pos, |pos.v1|) && Fits(p, neg, |pos.v1|)
    ensures IsMatrix(r, NV1(p), p.factors)
  {
    var d := Normalized(p, pos);
    var c := Normalized(p, neg);
    FactorStep(p.wV1, lr,
      DeltaProducts(d.v1, NV1(p), d.h, d.v2, p.wH, p.wV2, p.factors),
      DeltaProducts(c.v1, NV1(p), c.h, c.v2, p.wH, p.wV2, p.factors))
  }

  /** The W_v2 step reads `wV1`, the already updated W_v1. */
  function UpdateV2(p: Params, lr: real, pos: Units, neg: Units, wV1: Matrix): (r: Matrix)
    requires Valid(p) && |pos.v1| > 0 && Fits(p, pos, |pos.v1|) && Fits(p, neg, |pos.v1|)
    requires IsMatrix(wV1, NV1(p), p.factors)
    ensures IsMatrix(r, NV2(p), p.factors)
  {
    var d := Normalized(p, pos);
    var c := Normalized(p, neg);
    FactorStep(p.wV2, lr,
      DeltaProducts(d.v2, NV2(p), d.h, d.v1, p.wH, wV1, p.factors),
      DeltaProducts(c.v2, NV2(p), c.h, c.v1, p.wH, wV1, p.factors))
  }

  /** The W_h step reads `wV1` and `wV2`, both already updated. */
  function UpdateH(p: Params, lr: real, pos: Units, neg: Units, wV1: Matrix, wV2: Matrix): (r: Matrix)
    requires Valid(p) && |pos.v1| > 0 && Fits(p, pos, |pos.v1|) && Fits(p, neg, |pos.v1|)
    requires IsMatrix(wV1, NV1(p), p.factors) && IsMatrix(wV2, NV2(p), p.factors)
    ensures IsMatrix(r, NH(p), p.factors)
  {
    var d := Normalized(p, pos);
    var c := Normalized(p, neg);
    FactorStep(p.wH, lr,
      DeltaProducts(d.h, NH(p), d.v2, d.v1, wV2, wV1, p.factors),
      DeltaProducts(c.h, NH(p), c.v2, c.v1, wV2, wV1, p.factors))
  }

  /**
    The parameter update of one step, from the positive phase `pos` and the
    negative phase `neg`: the three factor matrices in the order v1, v2, h,
    each reading the ones already updated, then the three biases. The
    variances and all shapes are kept.
  */
  function UpdateParams(p: Params, lr: real, pos: Units, neg: Units): (r: Params)
    requires Valid(p) && |pos.v1| > 0 && Fits(p, pos, |pos.v1|) && Fits(p, neg, |pos.v1|)
    ensures Valid(r) && SameShapes(r, p)
    ensures r.varV1 == p.varV1 && r.varV2 == p.varV2
  {
    var wV1 := UpdateV1(p, lr, pos, neg);
    var wV2 := UpdateV2(p, lr, pos, neg, wV1);
    var wH := UpdateH(p, lr, pos, neg, wV1, wV2);
    p.(wV1 := wV1, wV2 := wV2, wH := wH,
       bV1 := BiasStep(p.bV1, lr, pos.v1, neg.v1, NV1(p)),
       bV2 := BiasStep(p.bV2, lr, pos.v2, neg.v2, NV2(p)),
       bH := BiasStep(p.bH, lr, pos.h, neg.h, NH(p)))
  }

  // ------------------------------------------------------------ the step

  /**
    One training call: initialise the chain if needed, run `k` sweeps from
    its start, store the end state back in persistent mode, and update the
    parameters from the positive and negative phases.
  */
  function PcdK(m: Rbm, sigma: Squash, v1In: Matrix, v2In: Matrix): (r: Rbm)
    requires ValidRbm(m) && IsInput(m, v1In, v2In)
    ensures ValidRbm(r) && SameConfig(m, r)
    ensures m.persistent ==> HasChain(r)
    ensures !m.persistent ==> r.chainV1 == m.chainV1 && r.chainH == m.chainH && r.chainV2 == m.chainV2
  {
    var init := InitChain(m, sigma, v1In, v2In);
    var start := ChainStart(init, sigma, v1In, v2In);
    GibbsKFits(m.params, sigma, m.k, start);
    var neg := GibbsK(m.params, sigma, m.k, start);
    var pos := Units(v1In, start.h, v2In);
    var stored := if m.persistent
                  then init.(chainV1 := Some(neg.v1), chainH := Some(neg.h), chainV2 := Some(neg.v2))
                  else init;
    stored.(params := UpdateParams(m.params, m.learningRate, pos, neg))
  }

  // ------------------------------------------------------- chain lemmas

  /** The step is the composition of its stages: the chain keeps the negative phase, the store is updated from both phases. */
  lemma PcdKStages(m: Rbm, sigma: Squash, v1In: Matrix, v2In: Matrix)
    requires ValidRbm(m) && IsInput(m, v1In, v2In)
    ensures PcdK(m, sigma, v1In, v2In).params
         == UpdateParams(m.params, m.learningRate, PositiveOf(m, sigma, v1In, v2In),
                         NegativeOf(m, sigma, v1In, v2In))
    ensures m.persistent ==>
              var neg := NegativeOf(m, sigma, v1In, v2In);
              var r := PcdK(m, sigma, v1In, v2In);
              r.chainV1 == Some(neg.v1) && r.chainH == Some(neg.h) && r.chainV2 == Some(neg.v2)
  {
  }

  /**
    Once a persistent chain exists, the step starts from it and ignores the
    input batch as a seed; `start_h`, the positive-phase hidden statistic,
    is the chain's h rather than P(h | input).
  */
  lemma PersistentStartIsChain(m: Rbm, sigma: Squash, v1In: Matrix, v2In: Matrix)
    requires ValidRbm(m) && IsInput(m, v1In, v2In)
    requires m.persistent && HasChain(m)
    ensures StartOf(m, sigma, v1In, v2In) == Units(m.chainV1.value, m.chainH.value, m.chainV2.value)
    ensures PositiveOf(m, sigma, v1In, v2In).h == m.chainH.value
  {
  }

  /**
    Without a stored chain (non-persistent mode, or the first persistent
    step) the chain starts from the input batch with h = P(h | input).
  */
  lemma FreshStartIsData(m: Rbm, sigma: Squash, v1In: Matrix, v2In: Matrix)
    requires ValidRbm(m) && IsInput(m, v1In, v2In)
    requires !m.persistent || NoChain(m)
    ensures StartOf(m, sigma, v1In, v2In) == Units(v1In, PropV1v2H(m.params, sigma, v1In, v2In), v2In)
    ensures PositiveOf(m, sigma, v1In, v2In) == StartOf(m, sigma, v1In, v2In)
  {
  }

  /** In persistent mode the next step starts exactly where this step's chain ended. */
  lemma ConsecutivePersistentSteps(m: Rbm, sigma: Squash, v1In: Matrix, v2In: Matrix,
                                   v1Next: Matrix, v2Next: Matrix)
    requires ValidRbm(m) && IsInput(m, v1In, v2In) && IsInput(m, v1Next, v2Next)
    requires m.persistent
    ensures StartOf(PcdK(m, sigma, v1In, v2In), sigma, v1Next, v2Next) == NegativeOf(m, sigma, v1In, v2In)
  {
    PcdKStages(m, sigma, v1In, v2In);
    PersistentStartIsChain(PcdK(m, sigma, v1In, v2In), sigma, v1Next, v2Next);
  }

  // ------------------------------------------------------ update lemmas

  lemma FactorStepOfEqual(w: Matrix, lr: real, x: Matrix)
    requires SameShape(w, x)
    ensures FactorStep(w, lr, x, x) == w
  {
    var r := FactorStep(w, lr, x, x);
    forall i | 0 <= i < |w| ensures r[i] == w[i] {
      forall j | 0 <= j < |w[i]| ensures r[i][j] == w[i][j] {
        assert Sub(x, x)[i][j] == 0.0;
        assert Scale(lr, Sub(x, x))[i][j] == lr * 0.0;
      }
    }
  }

  lemma BiasStepOfEqual(b: Matrix, lr: real, x: Matrix, cols: nat)
    requires IsMatrix(b, 1, cols) && |x| > 0 && IsMatrix(x, |x|, cols)
    ensures BiasStep(b, lr, x, x, cols) == b
  {
    var d := Sub(x, x);
    var mean := ColumnMean(d, cols);
    forall j | 0 <= j < cols ensures mean[0][j] == 0.0 {
      var c := Column(d, j);
      assert c == Zeros(|x|);
      ZerosSum(|x|);
    }
    var r := BiasStep(b, lr, x, x, cols);
    assert r[0] == b[0];
  }

  lemma {:induction false} ZerosSum(n: nat)
    ensures Sum(Zeros(n)) == 0.0
    decreases n
  {
    if n > 0 {
      assert Zeros(n)[1..] == Zeros(n - 1);
      ZerosSum(n - 1);
    }
  }

  /** When the negative phase equals the positive phase, the update changes nothing. */
  lemma UpdateFixedPoint(p: Params, lr: real, u: Units)
    requires Valid(p) && |u.v1| > 0 && Fits(p, u, |u.v1|)
    ensures UpdateParams(p, lr, u, u) == p
  {
    var d := Normalized(p, u);
    FactorStepOfEqual(p.wV1, lr, DeltaProducts(d.v1, NV1(p), d.h, d.v2, p.wH, p.wV2, p.factors));
    assert UpdateV1(p, lr, u, u) == p.wV1;
    FactorStepOfEqual(p.wV2, lr, DeltaProducts(d.v2, NV2(p), d.h, d.v1, p.wH, p.wV1, p.factors));
    assert UpdateV2(p, lr, u, u, p.wV1) == p.wV2;
    FactorStepOfEqual(p.wH, lr, DeltaProducts(d.h, NH(p), d.v2, d.v1, p.wV2, p.wV1, p.factors));
    assert UpdateH(p, lr, u, u, p.wV1, p.wV2) == p.wH;
    BiasStepOfEqual(p.bV1, lr, u.v1, NV1(p));
    BiasStepOfEqual(p.bV2, lr, u.v2, NV2(p));
    BiasStepOfEqual(p.bH, lr, u.h, NH(p));
  }

  /** Zero sweeps from the data (CD-0) leave the parameter store as it was. */
  lemma ZeroSweepsFromDataIsNoOp(m: Rbm, sigma: Squash, v1In: Matrix, v2In: Matrix)
    requires ValidRbm(m) && IsInput(m, v1In, v2In)
    requires m.k <= 0 && (!m.persistent || NoChain(m))
    ensures PcdK(m, sigma, v1In, v2In).params == m.params
  {
    PcdKStages(m, sigma, v1In, v2In);
    FreshStartIsData(m, sigma, v1In, v2In);
    UpdateFixedPoint(m.params, m.learningRate, PositiveOf(m, sigma, v1In, v2In));
  }

  /** The factored three-way form summed over a batch state, under the given factor matrices. */
  function UnitsEnergy(u: Units, w1: Matrix, w2: Matrix, wh: Matrix, f: nat): real
    requires |u.h| == |u.v1| == |u.v2|
    requires HasCols(u.v1, |w1|) && HasCols(u.v2, |w2|) && HasCols(u.h, |wh|)
    requires HasCols(w1, f) && HasCols(w2, f) && HasCols(wh, f)
  {
    BatchEnergy(u.v1, u.v2, u.h, w1, w2, wh, f)
  }

  /** The W_v1 statistic: normalised data delta product minus normalised chain delta product. */
  function V1Gradient(p: Params, pos: Units, neg: Units): (r: Matrix)
    requires Valid(p) && |pos.v1| > 0 && Fits(p, pos, |pos.v1|) && Fits(p, neg, |pos.v1|)
    ensures IsMatrix(r, NV1(p), p.factors)
  {
    var d := Normalized(p, pos);
    var c := Normalized(p, neg);
    Sub(DeltaProducts(d.v1, NV1(p), d.h, d.v2, p.wH, p.wV2, p.factors),
        DeltaProducts(c.v1, NV1(p), c.h, c.v2, p.wH, p.wV2, p.factors))
  }

  /** The W_v2 statistic, formed with the already updated W_v1. */
  function V2Gradient(p: Params, pos: Units, neg: Units, wV1: Matrix): (r: Matrix)
    requires Valid(p) && |pos.v1| > 0 && Fits(p, pos, |pos.v1|) && Fits(p, neg, |pos.v1|)
    requires IsMatrix(wV1, NV1(p), p.factors)
    ensures IsMatrix(r, NV2(p), p.factors)
  {
    var d := Normalized(p, pos);
    var c := Normalized(p, neg);
    Sub(DeltaProducts(d.v2, NV2(p), d.h, d.v1, p.wH, wV1, p.factors),
        DeltaProducts(c.v2, NV2(p), c.h, c.v1, p.wH, wV1, p.factors))
  }

  /** The W_h statistic, formed with both updated visible factor matrices. */
  function HGradient(p: Params, pos: Units, neg: Units, wV1: Matrix, wV2: Matrix): (r: Matrix)
    requires Valid(p) && |pos.v1| > 0 && Fits(p, pos, |pos.v1|) && Fits(p, neg, |pos.v1|)
    requires IsMatrix(wV1, NV1(p), p.factors) && IsMatrix(wV2, NV2(p), p.factors)
    ensures IsMatrix(r, NH(p), p.factors)
  {
    var d := Normalized(p, pos);
    var c := Normalized(p, neg);
    Sub(DeltaProducts(d.h, NH(p), d.v2, d.v1, wV2, wV1, p.factors),
        DeltaProducts(c.h, NH(p), c.v2, c.v1, wV2, wV1, p.factors))
  }

  /** The batch form as the W_v1 delta product lists the groups, reordered to (v1, v2, h). */
  lemma ReorderForV1(u: Units, w1: Matrix, w2: Matrix, wh: Matrix, f: nat)
    requires |u.h| == |u.v1| == |u.v2|
    requires HasCols(u.v1, |w1|) && HasCols(u.v2, |w2|) && HasCols(u.h, |wh|)
    requires HasCols(w1, f) && HasCols(w2, f) && HasCols(wh, f)
    ensures BatchEnergy(u.h, u.v2, u.v1, wh, w2, w1, f) == UnitsEnergy(u, w1, w2, wh, f)
  {
    var a := EnergyTerms(u.h, u.v2, u.v1, wh, w2, w1, f);
    var b := EnergyTerms(u.v1, u.v2, u.h, w1, w2, wh, f);
    forall i | 0 <= i < |a| ensures a[i] == b[i] {
      EnergySymmetric(u.v1[i], u.v2[i], u.h[i], w1, w2, wh, f);
    }
    assert a == b;
  }

  /** The batch form as the W_v2 delta product lists the groups, reordered to (v1, v2, h). */
  lemma ReorderForV2(u: Units, w1: Matrix, w2: Matrix, wh: Matrix, f: nat)
    requires |u.h| == |u.v1| == |u.v2|
    requires HasCols(u.v1, |w1|) && HasCols(u.v2, |w2|) && HasCols(u.h, |wh|)
    requires HasCols(w1, f) && HasCols(w2, f) && HasCols(wh, f)
    ensures BatchEnergy(u.h, u.v1, u.v2, wh, w1, w2, f) == UnitsEnergy(u, w1, w2, wh, f)
  {
    var a := EnergyTerms(u.h, u.v1, u.v2, wh, w1, w2, f);
    var b := EnergyTerms(u.v1, u.v2, u.h, w1, w2, wh, f);
    forall i | 0 <= i < |a| ensures a[i] == b[i] {
      EnergySymmetric(u.h[i], u.v1[i], u.v2[i], wh, w1, w2, f);
      EnergySymmetric(u.v1[i], u.h[i], u.v2[i], w1, wh, w2, f);
    }
    assert a == b;
  }

  /** The batch form as the W_h delta product lists the groups, reordered to (v1, v2, h). */
  lemma ReorderForH(u: Units, w1: Matrix, w2: Matrix, wh: Matrix, f: nat)
    requires |u.h| == |u.v1| == |u.v2|
    requires HasCols(u.v1, |w1|) && HasCols(u.v2, |w2|) && HasCols(u.h, |wh|)
    requires HasCols(w1, f) && HasCols(w2, f) && HasCols(wh, f)
    ensures BatchEnergy(u.v2, u.v1, u.h, w2, w1, wh, f) == UnitsEnergy(u, w1, w2, wh, f)
  {
    var a := EnergyTerms(u.v2, u.v1, u.h, w2, w1, wh, f);
    var b := EnergyTerms(u.v1, u.v2, u.h, w1, w2, wh, f);
    forall i | 0 <= i < |a| ensures a[i] == b[i] {
      EnergySymmetric(u.v2[i], u.v1[i], u.h[i], w2, w1, wh, f);
    }
    assert a == b;
  }

  lemma FactorStepDifference(w: Matrix, lr: real, pos: Matrix, neg: Matrix)
    requires SameShape(w, pos) && SameShape(w, neg)
    ensures Sub(FactorStep(w, lr, pos, neg), w) == Scale(lr, Sub(pos, neg))
  {
    var lhs := Sub(FactorStep(w, lr, pos, neg), w);
    var rhs := Scale(lr, Sub(pos, neg));
    forall i | 0 <= i < |w| ensures lhs[i] == rhs[i] {
    }
  }

  /**
    The difference of two delta products, paired with X, is the difference
    of the two batch forms with X as the target group's factor matrix.
  */
  lemma {:induction false} DeltaDifferencePairing(nt: nat, f: nat, wa: Matrix, wb: Matrix,
                                                  tp: Matrix, ap: Matrix, bp: Matrix,
                                                  tn: Matrix, an: Matrix, bn: Matrix, x: Matrix)
    requires Compatible(ap, bp, wa, wb, f) && IsMatrix(tp, |ap|, nt)
    requires Compatible(an, bn, wa, wb, f) && IsMatrix(tn, |an|, nt)
    requires IsMatrix(x, nt, f)
    ensures Frob(Sub(DeltaProducts(tp, nt, ap, bp, wa, wb, f), DeltaProducts(tn, nt, an, bn, wa, wb, f)), x)
         == BatchEnergy(ap, bp, tp, wa, wb, x, f) - BatchEnergy(an, bn, tn, wa, wb, x, f)
  {
    FrobSubLeft(DeltaProducts(tp, nt, ap, bp, wa, wb, f), DeltaProducts(tn, nt, an, bn, wa, wb, f), x);
    DeltaProductsIsEnergyGradient(tp, nt, ap, bp, wa, wb, f, x);
    DeltaProductsIsEnergyGradient(tn, nt, an, bn, wa, wb, f, x);
  }

  /**
    The W_v1 step is lr times `V1Gradient`, and that matrix, paired with any
    X of W_v1's shape, is the change of the batch three-way form between the
    normalised data and the normalised chain sample when X stands in for
    W_v1: it is the gradient of (data form − chain form) with respect to W_v1.
  */
  lemma {:induction false} UpdateV1IsEnergyGradient(p: Params, lr: real, pos: Units, neg: Units, x: Matrix)
    requires Valid(p) && |pos.v1| > 0 && Fits(p, pos, |pos.v1|) && Fits(p, neg, |pos.v1|)
    requires IsMatrix(x, NV1(p), p.factors)
    ensures Sub(UpdateV1(p, lr, pos, neg), p.wV1) == Scale(lr, V1Gradient(p, pos, neg))
    ensures Frob(V1Gradient(p, pos, neg), x)
         == UnitsEnergy(Normalized(p, pos), x, p.wV2, p.wH, p.factors)
          - UnitsEnergy(Normalized(p, neg), x, p.wV2, p.wH, p.factors)
  {
    var d := Normalized(p, pos);
    var c := Normalized(p, neg);
    var f := p.factors;
    FactorStepDifference(p.wV1, lr, DeltaProducts(d.v1, NV1(p), d.h, d.v2, p.wH, p.wV2, f),
                         DeltaProducts(c.v1, NV1(p), c.h, c.v2, p.wH, p.wV2, f));
    DeltaDifferencePairing(NV1(p), f, p.wH, p.wV2, d.v1, d.h, d.v2, c.v1, c.h, c.v2, x);
    ReorderForV1(d, x, p.wV2, p.wH, f);
    ReorderForV1(c, x, p.wV2, p.wH, f);
  }

  /**
    The same for W_v2, with the already updated W_v1 (`wV1`) in place of the
    old one: the W_v2 step differentiates the form at the new W_v1.
  */
  lemma {:induction false} UpdateV2IsEnergyGradient(p: Params, lr: real, pos: Units, neg: Units, wV1: Matrix, x: Matrix)
    requires Valid(p) && |pos.v1| > 0 && Fits(p, pos, |pos.v1|) && Fits(p, neg, |pos.v1|)
    requires IsMatrix(wV1, NV1(p), p.factors) && IsMatrix(x, NV2(p), p.factors)
    ensures Sub(UpdateV2(p, lr, pos, neg, wV1), p.wV2) == Scale(lr, V2Gradient(p, pos, neg, wV1))
    ensures Frob(V2Gradient(p, pos, neg, wV1), x)
         == UnitsEnergy(Normalized(p, pos), wV1, x, p.wH, p.factors)
          - UnitsEnergy(Normalized(p, neg), wV1, x, p.wH, p.factors)
  {
    var d := Normalized(p, pos);
    var c := Normalized(p, neg);
    var f := p.factors;
    FactorStepDifference(p.wV2, lr, DeltaProducts(d.v2, NV2(p), d.h, d.v1, p.wH, wV1, f),
                         DeltaProducts(c.v2, NV2(p), c.h, c.v1, p.wH, wV1, f));
    DeltaDifferencePairing(NV2(p), f, p.wH, wV1, d.v2, d.h, d.v1, c.v2, c.h, c.v1, x);
    ReorderForV2(d, wV1, x, p.wH, f);
    ReorderForV2(c, wV1, x, p.wH, f);
  }

  /** The same for W_h, with both visible factor matrices already updated. */
  lemma {:induction false} UpdateHIsEnergyGradient(p: Params, lr: real, pos: Units, neg: Units, wV1: Matrix, wV2: Matrix,
                                x: Matrix)
    requires Valid(p) && |pos.v1| > 0 && Fits(p, pos, |pos.v1|) && Fits(p, neg, |pos.v1|)
    requires IsMatrix(wV1, NV1(p), p.factors) && IsMatrix(wV2, NV2(p), p.factors)
    requires IsMatrix(x, NH(p), p.factors)
    ensures Sub(UpdateH(p, lr, pos, neg, wV1, wV2), p.wH) == Scale(lr, HGradient(p, pos, neg, wV1, wV2))
    ensures Frob(HGradient(p, pos, neg, wV1, wV2), x)
         == UnitsEnergy(Normalized(p, pos), wV1, wV2, x, p.factors)
          - UnitsEnergy(Normalized(p, neg), wV1, wV2, x, p.factors)
  {
    var d := Normalized(p, pos);
    var c := Normalized(p, neg);
    var f := p.factors;
    FactorStepDifference(p.wH, lr, DeltaProducts(d.h, NH(p), d.v2, d.v1, wV2, wV1, f),
                         DeltaProducts(c.h, NH(p), c.v2, c.v1, wV2, wV1, f));
    DeltaDifferencePairing(NH(p), f, wV2, wV1, d.h, d.v2, d.v1, c.h, c.v2, c.v1, x);
    ReorderForH(d, wV1, wV2, x, f);
    ReorderForH(c, wV1, wV2, x, f);
  }

  /**
    The three factor updates of one step, in order: W_v1 from the old
    matrices, W_v2 reading the new W_v1, W_h reading both new matrices.
  */
  lemma UpdateParamsFactorOrder(p: Params, lr: real, pos: Units, neg: Units)
    requires Valid(p) && |pos.v1| > 0 && Fits(p, pos, |pos.v1|) && Fits(p, neg, |pos.v1|)
    ensures var r := UpdateParams(p, lr, pos, neg);
            && r.wV1 == UpdateV1(p, lr, pos, neg)
            && r.wV2 == UpdateV2(p, lr, pos, neg, r.wV1)
            && r.wH == UpdateH(p, lr, pos, neg, r.wV1, r.wV2)
  {
  }

  /**
    Each bias moves by lr times the difference between the batch mean of
    the data (or `start_h`) and the batch mean of the negative phase, and
    keeps its 1×n shape.
  */
  lemma BiasUpdates(p: Params, lr: real, pos: Units, neg: Units)
    requires Valid(p) && |pos.v1| > 0 && Fits(p, pos, |pos.v1|) && Fits(p, neg, |pos.v1|)
    ensures var r := UpdateParams(p, lr, pos, neg);
            && IsMatrix(r.bV1, 1, NV1(p)) && IsMatrix(r.bV2, 1, NV2(p)) && IsMatrix(r.bH, 1, NH(p))
            && (forall j :: 0 <= j < NV1(p) ==>
                  r.bV1[0][j] == p.bV1[0][j]
                    + lr * (ColumnMean(pos.v1, NV1(p))[0][j] - ColumnMean(neg.v1, NV1(p))[0][j]))
            && (forall j :: 0 <= j < NV2(p) ==>
                  r.bV2[0][j] == p.bV2[0][j]
                    + lr * (ColumnMean(pos.v2, NV2(p))[0][j] - ColumnMean(neg.v2, NV2(p))[0][j]))
            && (forall j :: 0 <= j < NH(p) ==>
                  r.bH[0][j] == p.bH[0][j]
                    + lr * (ColumnMean(pos.h, NH(p))[0][j] - ColumnMean(neg.h, NH(p))[0][j]))
  {
    ColumnMeanSub(pos.v1, neg.v1, NV1(p));
    ColumnMeanSub(pos.v2, neg.v2, NV2(p));
    ColumnMeanSub(pos.h, neg.h, NH(p));
  }
}
