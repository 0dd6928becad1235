# Factored three-way RBM with (persistent) contrastive divergence

This project models `rbm_3way_fac.py` in Dafny. The file defines a factored
three-way restricted Boltzmann machine with two real-valued visible groups
(v1, v2) and one binary hidden group (h). Each group has a factor matrix, one
row per unit and F columns (the factors). The model also has a 1×n bias per
group and a fixed per-unit variance for the two visible groups. Training runs
k-step contrastive divergence, optionally with a persistent chain.

Everything is modelled over `real`. Matrices are `seq<seq<real>>`, with their
shape stated by predicates. The training state is an immutable record, and a
training call is a pure transition from one record to the next. The sigmoid is
a parameter of type `Squash`, a function with range (0, 1). Every random draw
is an argument: the uniform noise of the Bernoulli threshold, and the
standard-normal draws behind the Normal samples.

Modules, in dependency order:

- `Wrappers`: `Option` and `Result`.
- `Matrices`, `LinearAlgebra`: vectors and matrices, products, transpose,
  broadcasting, column means, the Frobenius pairing, and the algebra the proofs
  use.
- `Sampling`: `sample_prob`.
- `Batches`: `gen_batches`.
- `Factored`: the shared projection `_prop_helper`, `get_delta_products`, and
  the factored three-way form they are derived from:
  E(x, y, z) = Σ_f (x·Wx)_f (y·Wy)_f (z·Wz)_f.
- `Conditionals`: the parameter store and the three conditionals with their
  draws.
- `Gibbs`: the mean-field sweep and the k-sweep chain.
- `Training`: the constructor, the chain bookkeeping and parameter updates of
  `pcd_k`.
- `Reconstruction`: `reconstruction_error`.

The central algebraic facts are proved for all inputs:
- The three conditionals are the three partial gradients of one form E.
- Each delta product, paired with any matrix X, equals the batch-summed E with
  X standing in for the target factor matrix. So each factor update is
  lr × the gradient of (data form − chain form) with respect to that matrix,
  taken at the already updated earlier matrices.

Points where the code's behaviour is easy to misread:

- In persistent mode the positive-phase hidden statistic `start_h` is the
  stored chain's h (rbm_3way_fac.py:182), not P(h | data).
  `Training.PersistentStartIsChain` states this behaviour.
- `np.split` (rbm_3way_fac.py:141) raises unless the rows divide evenly into
  the requested number of batches; it never drops a remainder. The training
  loop is left out; see below.
- The per-unit "variance" is passed to the Normal distribution as its scale
  (standard deviation), at rbm_3way_fac.py:99-101. A draw is therefore
  mean + var · z, not mean + √var · z.
- The constructor fails in three places. With no visible units, the initial
  standard deviation 1 / sqrt((v1_size + v2_size) / 2) divides by zero
  (rbm_3way_fac.py:46). A zero batch size divides the data size by zero
  (rbm_3way_fac.py:60). A negative batch size cannot be a placeholder's row
  count (rbm_3way_fac.py:74-75). `Training.NewRbm` models all three: the
  first as `NoVisibleUnits`, the other two as `NonPositiveBatchSize`.

## Model

| member | source | states |
|---|---|---|
| `Sampling.SampleProb` | rbm_3way_fac.py:10-15 | relu(sign(p − u)) per entry: the output has the shape of the probabilities, every entry is 0 or 1, and an entry is 1 exactly when p > u (so p == u gives 0) |
| `Batches.GenBatches` | rbm_3way_fac.py:23-32 | a zero batch size fails (Python's `range` raises), a negative one yields no batches, otherwise batch j is the clipped slice `data[j·size : j·size + size]`, there are ceil(n / size) batches, and the batches concatenate back to the data |
| `Batches.SlicingFlattens` | rbm_3way_fac.py:31-32 | the clipped slices laid end to end reproduce the data up to the end of the last slice |
| `Batches.BatchSizes` | rbm_3way_fac.py:31-32 | every yielded batch is non-empty and at most `size` rows, and all but the last have exactly `size` rows |
| `Factored.PropHelper` | rbm_3way_fac.py:80-83 | ((A·Wa) ⊙ (B·Wb))·Wtᵀ has one row per row of A and one column per unit of the third group |
| `Factored.PropHelperIsEnergyGradient` | rbm_3way_fac.py:80-83 | row i of the projection paired with any z is E(a_i, b_i, z): the projection is the gradient of the three-way form with respect to the third group |
| `Factored.EnergySymmetric` | rbm_3way_fac.py:80-83 | the three-way form does not depend on the order in which the groups (with their matrices) are listed |
| `Factored.DeltaProducts` | rbm_3way_fac.py:115-119 | tᵀ·((A·Wa) ⊙ (B·Wb)) has the shape of the target group's factor matrix (units × F) |
| `Factored.DeltaProductsIsEnergyGradient` | rbm_3way_fac.py:115-119 | the delta product paired with any W of the factor matrix's shape is the batch-summed form with W as the target matrix: it is the gradient with respect to that matrix |
| `Conditionals.PropV1v2H` | rbm_3way_fac.py:85-87 | P(h given v1, v2) has one row per example and one column per hidden unit, and every entry lies strictly between 0 and 1 |
| `Conditionals.PropV1hV2` | rbm_3way_fac.py:89-91 | the mean of v2 given (v1, h) has the shape of a v2 batch |
| `Conditionals.PropV2hV1` | rbm_3way_fac.py:93-95 | the mean of v1 given (v2, h) has the shape of a v1 batch |
| `Conditionals.ConditionalsShareEnergy` | rbm_3way_fac.py:85-95 | for every example, each conditional's pre-activation without its bias, paired with that group's own units, is the same three-way form: the three conditionals come from one energy |
| `Conditionals.SampleHGivenV1v2` | rbm_3way_fac.py:111-113 | the hidden draw is binary, and an entry is 1 exactly when P(h given v1, v2) exceeds the noise there |
| `Conditionals.SampleV1GivenV2h` | rbm_3way_fac.py:97-102 | each entry of the v1 draw differs from the conditional mean by the unit's variance (used as the scale) times the standard-normal draw |
| `Conditionals.SampleV2GivenV1h` | rbm_3way_fac.py:104-109 | the same for v2 given (v1, h) |
| `Conditionals.ZeroNoiseDrawIsMean` | rbm_3way_fac.py:97-109 | with all-zero standard-normal draws both Normal draws equal their means |
| `Gibbs.Gibbs` | rbm_3way_fac.py:121-133 | a sweep keeps the batch size and leaves h and v2 in the shapes the next sweep reads |
| `Gibbs.GibbsConsistent` | rbm_3way_fac.py:121-133 | the sweep ends in a consistent state that fits every group's shape: v1 is the mean given the old (v2, h), v2 is the mean given the new v1 and the old h, and h is P(h given the new v1, v2) with entries in (0, 1) |
| `Gibbs.GibbsIgnoresV1` | rbm_3way_fac.py:121-126 | the sweep never reads its incoming v1 |
| `Gibbs.GibbsK` | rbm_3way_fac.py:185-186 | k sweeps keep the batch size and the shapes of h and v2 |
| `Gibbs.GibbsKFits` | rbm_3way_fac.py:185-186 | after at least one sweep every group fits the store's shapes, whatever v1 the chain started from, and a state that fits keeps fitting |
| `Gibbs.GibbsKSettled` | rbm_3way_fac.py:185-186 | after at least one sweep the chain's h is P(h given the chain's own visibles), so every entry lies in (0, 1) |
| `Gibbs.GibbsKIsIterate` | rbm_3way_fac.py:185-186 | the chain loop is the sweep applied k times in a row |
| `Gibbs.GibbsKIgnoresV1` | rbm_3way_fac.py:185-186 | any positive number of sweeps is independent of the starting v1 |
| `Gibbs.GibbsKFixedPoint` | rbm_3way_fac.py:185-186 | a state the sweep leaves unchanged is left unchanged by any number of sweeps |
| `Gibbs.GibbsKCompose` | rbm_3way_fac.py:185-186 | j sweeps followed by k sweeps are j + k sweeps |
| `Training.NewRbm` | rbm_3way_fac.py:38-75 | construction succeeds exactly when there is at least one visible unit and the batch size is positive, and otherwise reports which check failed first. On success the store has the requested unit counts, the factor matrices as passed, zero biases, unit variances and no chain, and it keeps the batch size, learning rate, k and persistent flag as passed. Their defaults are those of the source: learning rate 0.1, k = 1, not persistent, 10 factors |
| `Training.InitChain` | rbm_3way_fac.py:173-178 | in persistent mode each absent chain field is filled: v1 and v2 from the input, and h as P(h given the chain's v1, v2). Fields already present are kept. In non-persistent mode nothing changes |
| `Training.ChainStart` | rbm_3way_fac.py:180-183 | the chain's starting state fits the store's shapes for one batch |
| `Training.PersistentStartIsChain` | rbm_3way_fac.py:180-183 | with a stored chain the sweep starts from it, and `start_h` is the chain's h, not P(h given the data) |
| `Training.FreshStartIsData` | rbm_3way_fac.py:180-183 | without a stored chain the sweep starts from the input with h = P(h given the input), and the positive phase is that same state |
| `Training.StartOf` | rbm_3way_fac.py:173-183 | the chain's start after the lazy initialisation fits the store's shapes for one batch. Its own ensures gives only the shape; `Training.PersistentStartIsChain` and `Training.FreshStartIsData` fix its value |
| `Training.PositiveOf` | rbm_3way_fac.py:180-183 | the positive phase (the input batch with `start_h`) fits the store's shapes. Its own ensures gives only the shape; `Training.PersistentStartIsChain` and `Training.FreshStartIsData` fix its value |
| `Training.NegativeOf` | rbm_3way_fac.py:185-186 | the negative phase after k sweeps fits the store's shapes. Its own ensures gives only the shape; `Training.PcdKStages` ties it to the k-sweep chain, and `Gibbs.GibbsKSettled` gives its h |
| `Training.PcdK` | rbm_3way_fac.py:170-211 | a training call keeps the configuration and shapes, leaves a full chain in persistent mode, and leaves the chain fields alone otherwise |
| `Training.PcdKStages` | rbm_3way_fac.py:185-189 | the new store is the update from the positive and negative phases, and in persistent mode the chain holds exactly the state after the k sweeps |
| `Training.ConsecutivePersistentSteps` | rbm_3way_fac.py:188-189 | in persistent mode the next call starts exactly where this call's chain ended |
| `Training.Normalized` | rbm_3way_fac.py:192-203 | dividing each visible column by its unit's variance keeps every shape and leaves h untouched. Its own ensures gives only the shapes and the untouched h; the `Update*IsEnergyGradient` rows state what the normalised units feed |
| `Training.FactorStep` | rbm_3way_fac.py:191-204 | `assign_add(lr·(pos − neg))` keeps the matrix's shape. Its own ensures gives only the shape; `Training.FactorStepDifference` and `Training.FactorStepOfEqual` fix its value |
| `Training.FactorStepDifference` | rbm_3way_fac.py:191-204 | the factor step moves the matrix by exactly lr × (positive statistic − negative statistic), entry by entry |
| `Training.BiasStep` | rbm_3way_fac.py:206-211 | a bias step keeps the bias 1×n. Its own ensures gives only the shape; `Training.BiasUpdates` and `Training.BiasStepOfEqual` fix its value |
| `Training.UpdateV1` | rbm_3way_fac.py:191-194 | the new W_v1 has the shape units × F. Its own ensures gives only the shape; `Training.UpdateV1IsEnergyGradient` fixes its value |
| `Training.UpdateV2` | rbm_3way_fac.py:196-199 | the new W_v2, read at the already updated W_v1, has the shape units × F. Its own ensures gives only the shape; `Training.UpdateV2IsEnergyGradient` fixes its value |
| `Training.UpdateH` | rbm_3way_fac.py:201-204 | the new W_h, read at both updated visible matrices, has the shape units × F. Its own ensures gives only the shape; `Training.UpdateHIsEnergyGradient` fixes its value |
| `Training.UpdateParams` | rbm_3way_fac.py:191-211 | the updated store is valid, keeps every shape, and keeps the variances |
| `Training.UpdateV1IsEnergyGradient` | rbm_3way_fac.py:191-194 | the W_v1 change is lr times a matrix whose pairing with any X is (data form − chain form) at X, over variance-normalised visibles |
| `Training.UpdateV2IsEnergyGradient` | rbm_3way_fac.py:196-199 | the same for W_v2, with the already updated W_v1 inside the form |
| `Training.UpdateHIsEnergyGradient` | rbm_3way_fac.py:201-204 | the same for W_h, with both updated visible factor matrices inside the form |
| `Training.UpdateParamsFactorOrder` | rbm_3way_fac.py:191-204 | the factor updates run in the order v1, v2, h, each reading the matrices already updated |
| `Training.BiasUpdates` | rbm_3way_fac.py:206-211 | each bias stays 1×n and moves by lr times the column mean of data minus chain (for h, `start_h` minus the chain's h) |
| `Training.FactorStepOfEqual` | rbm_3way_fac.py:194 | a factor step whose positive and negative statistics agree leaves the matrix unchanged |
| `Training.BiasStepOfEqual` | rbm_3way_fac.py:206-207 | a bias step whose data and chain values agree leaves the bias unchanged |
| `Training.UpdateFixedPoint` | rbm_3way_fac.py:191-211 | when the negative phase equals the positive phase the whole update is the identity |
| `Training.ZeroSweepsFromDataIsNoOp` | rbm_3way_fac.py:180-211 | with k ≤ 0 and no stored chain, a training call leaves the parameters unchanged |
| `Reconstruction.ReconstructionError` | rbm_3way_fac.py:218-228 | the cost is never negative, and it is zero exactly when both redraws reproduce the input batch |
| `Reconstruction.ZeroNoiseErrorIsMeanFieldError` | rbm_3way_fac.py:218-228 | with all-zero draws the cost is the squared error of the mean-field reconstruction |

## Left out

- TensorFlow graph and session machinery: placeholders, `tf.Variable`, assign ops and `tf.Session`. A training call is modelled as one pure step on one concrete batch. In the source, `pcd_k` builds a graph once. The "persistent" chain there is the symbolic output of the first graph's sweeps, and it is not fed back between session runs. The model follows the evident intent, one step per call.
- The `exp` inside `tf.nn.sigmoid`: the sigmoid is the `Squash` parameter, with only its range (0, 1) assumed.
- The `tf.truncated_normal` initialisation of the factor matrices (rbm_3way_fac.py:44-52). It is random and uses `math.sqrt`, so `NewRbm` takes the initial matrices as arguments.
- `tf.random_uniform` and the Normal sampler: their draws are arguments.
- float32 rounding and the `tf.cast`s: all arithmetic is on `real`.
- `train`, `one_train_step` and their `np.split` (rbm_3way_fac.py:135-168). These are the epoch and session loops. `np.split` raises unless the rows divide evenly into `n_batches` parts.
- `n_batches` and `num_epochs`: only the training loop reads them. `use_tqdm` is stored (rbm_3way_fac.py:71) but never read, because `train` calls `tqdm` unconditionally (rbm_3way_fac.py:147). `show_err_plt` is read only in commented-out code (rbm_3way_fac.py:156).
- Shape errors: every operation requires operands of matching shapes. TensorFlow raises on mismatched shapes when it builds the graph, for example at the `tf.matmul` calls of rbm_3way_fac.py:82-83 and 118-119. The model has no error path for them. The equal-row-count requirement of `Factored.Compatible` also drops the broadcasting path of `tf.multiply` at rbm_3way_fac.py:82 and 118, where a one-row batch would be broadcast against an n-row one. No call site in the source uses that path.
- Training.NewRbm: follows Python 3's true division at rbm_3way_fac.py:46. Under Python 2's integer division, a visible-unit total of 1 would also divide by zero, and the model does not report that case.
- `get_cost` (rbm_3way_fac.py:213-216): a session call that evaluates `reconstruction_error`.
- `generate_v`, `tqdm`, `matplotlib`, the commented-out error plotting and the `__main__` driver: host-side I/O and random test data.
- The commented-out sampling variant of the sweep (rbm_3way_fac.py:128-131): it is dead code.
