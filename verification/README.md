# Bohamiann in Dafny

A model of the `Bohamiann` regressor of pybnn: a Bayesian neural network for
regression whose weights are sampled with stochastic-gradient Hamiltonian
Monte Carlo. The model covers the class as a whole:

- construction, with its batch-size assertion;
- the `network_weights` getter and setter (a snapshot of the parameter
  values and a pairwise `zip` copy back into the parameters);
- `train`: the store of sampled weights is cleared, the training set is
  normalised, a fresh network is built, and the sampler runs `num_steps`
  steps; after each step past the burn-in whose distance from the burn-in is
  a multiple of `keep_every`, a snapshot is appended; a completed run marks
  the model trained;
- `predict`: one network output per stored snapshot, in store order; the
  predictive mean is the average of the snapshots' means; the predictive
  variance is the average of `mean^2 + exp(logVar)` minus the squared mean;
  with output normalisation, the mean is un-normalised, the variance scaled
  by `y_std^2`, and every snapshot's outputs are un-normalised in place
  before the individual predictions are read.

Modules:

- `Wrappers`: `Option`, `Result` and `Outcome`.
- `Params`: parameter tensors, snapshots, and the setter's copy (`CopiedCount`, `Restore`).
- `Schedule`: the step loop and the sampling cadence (`SampleSteps`, `RunSteps`, `Recorded`, `FirstZeroDivision`).
- `Ensemble`: the per-test-point aggregation over `real`.
- `Bnn`: the class `Bohamiann` and the collaborators it is given.

Collaborators whose code is not part of this model are parameters:

- the network factory `get_network` is a constant of the object, as in the source;
- the network's forward pass is a field of `Net`;
- the sampler update is a function of the training data, the current parameters and the step index;
- the normalisation utilities are a `Normalization` record of functions;
- `np.exp` is a parameter `exp`.

How `train` fails, in the order the source reaches each failure:

1. `normalize_input` off: the source then reads `x_train_`, which was never bound.
2. `normalize_output` off: likewise for `y_train_`.
3. Inputs and targets have different row counts: `TensorDataset` refuses them.
4. `num_steps` is negative: `islice` refuses it.
5. `keep_every == 0`: the first step past the burn-in takes a remainder modulo zero.

Each failure leaves the state exactly as the source leaves it at that point.
For example, the store is already cleared, and in case 5 the sampler has already run through the failing step.
`predict` fails when input normalisation is on and no training run has recorded the input constants.
It also fails when the store is empty, because the per-snapshot indexing of an empty output array raises.

The number of snapshots follows the code. For `keepEvery >= 1` and `burnIn >= 0`, a run of `S` steps records `(S - 1 - B) div K` snapshots when `S - 1 >= B`, and none otherwise.
Two examples:

- 150 steps, burn-in 100, cadence 10: 4 snapshots, at steps 110 to 140.
- 2000 steps, burn-in 500, cadence 50: 29 snapshots.

The docstring of `train` says `num_steps // keep_every` snapshots, which is 130 for the defaults.
The code records 99 for the defaults (13000 steps, burn-in 3000, cadence 100), so the model follows the code.

The source's default arguments are the defaults of the model's parameters:

- `batch_size = 20` and both normalisation flags on, for the constructor and `Create`;
- `num_steps = 13000`, `keep_every = 100`, `num_burn_in_steps = 3000`, `lr = 0.01`, `noise = 0.0` and `mdecay = 0.05`, for `Train`;
- `return_individual_predictions = false`, for `Predict`.

The collaborators come before the defaulted parameters in `Train` and `Predict`, because they have no default.

## Model

| member | source | states |
|---|---|---|
| Params.CopiedCount | pybnn/bohamiann.py:148-149 | The copy reaches no further than either sequence. Every pair before the stopping point has equal shapes. The pair at the stopping point, when both sequences reach it, differs in shape. |
| Params.RestoreKeepsShapes | pybnn/bohamiann.py:148-149 | Copying values into the parameters keeps the number and the shapes of the parameters. |
| Params.RestoreRoundTrip | pybnn/bohamiann.py:116-119 | Setting values of matching shapes copies every pair. Reading the parameters back then gives exactly the values that were set. |
| Params.RestoreStep | pybnn/bohamiann.py:148-149 | Copying pair `k` after the first `k` pairs is the same as copying the first `k + 1` pairs. Only parameter `k` receives value `k`. |
| Schedule.FirstZeroDivision | pybnn/bohamiann.py:256 | Returns no step exactly when the run completes. Otherwise it returns the first step whose cadence test divides by zero, and no earlier step does. |
| Schedule.SampleStepsExactly | pybnn/bohamiann.py:225-227 | The steps that record a snapshot are exactly the steps in `0 .. S-1` that pass the cadence test. Each appears once, in increasing order, and all come after the burn-in. |
| Schedule.SampleCount | pybnn/bohamiann.py:256-261 | For a cadence of at least 1 and a non-negative burn-in, the snapshot count is `(S-1-B) div K` when `S-1 >= B`, and 0 otherwise. |
| Schedule.RecordedAtSampleSteps | pybnn/bohamiann.py:227-261 | The store holds one snapshot per sample step, in step order. Each snapshot is the parameters right after that step's sampler update. |
| Schedule.RunStepsKeepsShapes | pybnn/bohamiann.py:218-235 | A sampler that keeps parameter shapes keeps them over a whole run. |
| Schedule.CadenceExamples | pybnn/bohamiann.py:225-261 | 150/100/10 records 4 snapshots, including steps 110 and 140. 2000/500/50 records 29. The defaults of `train`, 13000/3000/100, record 99. |
| Schedule.IsSampleStep | pybnn/bohamiann.py:256 | A snapshot is recorded after a step exactly when the step is past the burn-in and its distance from the burn-in is a multiple of the cadence. It is defined only where the remainder does not divide by zero. |
| Schedule.SampleSteps | pybnn/bohamiann.py:225-256 | The steps `0 .. S-1`, in order, that pass the cadence test. |
| Schedule.RunSteps | pybnn/bohamiann.py:227-235 | The parameters after the sampler has updated them once for each of the steps `0 .. n-1`, in order. |
| Schedule.Recorded | pybnn/bohamiann.py:256-261 | The snapshots a run appends: after each sample step, the parameters as that step's update left them. |
| Params.ZipLength | pybnn/bohamiann.py:148 | The number of pairs `zip` offers: the shorter of the two lengths. |
| Params.Restore | pybnn/bohamiann.py:148-149 | The parameters after the first `k` values are copied: parameter `i` takes the data of value `i` for `i < k` and keeps its shape. The other parameters are untouched. |
| Ensemble.EnsembleMean | pybnn/bohamiann.py:282 | The ensemble mean at one test point: the average over the snapshots of their predicted means. |
| Ensemble.EnsembleVariance | pybnn/bohamiann.py:285-286 | The ensemble variance at one test point: the average over the snapshots of `mean^2 + exp(logVar)`, minus the square of the ensemble mean. |
| Ensemble.TotalVariance | pybnn/bohamiann.py:282-286 | The ensemble variance is the average of the snapshots' own variances plus the population variance of their means. |
| Ensemble.VarianceNonNegative | pybnn/bohamiann.py:285-286 | The ensemble variance is non-negative when every snapshot's `exp(logVar)` is. |
| Ensemble.AgreeingSnapshots | pybnn/bohamiann.py:282-286 | When all snapshots predict the same mean, the ensemble mean is that mean. The variance is then only the average of the snapshots' own variances. |
| Ensemble.SingleSnapshot | pybnn/bohamiann.py:282-286 | With one snapshot, the ensemble mean is its mean and the ensemble variance is its `exp(logVar)`. |
| Ensemble.TwoSnapshotExample | pybnn/bohamiann.py:282-286 | Means 1 and 3, each with unit variance, give mean 2 and variance 2. |
| Bnn.Outputs | pybnn/bohamiann.py:274 | The network applied with one snapshot's weights gives one output row per test row, in row order. |
| Bnn.AllOutputs | pybnn/bohamiann.py:277-280 | `network_outputs`: one block of outputs per stored snapshot, in store order. Block `k` is the network applied with snapshot `k`. |
| Bnn.PredictiveMean | pybnn/bohamiann.py:282 | One value per test point: the ensemble mean of the snapshots' outputs at that point. |
| Bnn.PredictiveVariance | pybnn/bohamiann.py:285-286 | One value per test point: the ensemble variance of the snapshots' outputs at that point. |
| Bnn.UnnormalizedMean | pybnn/bohamiann.py:288-292 | With output normalisation, every predictive mean goes through the un-normalisation with the recorded target constants. Without it, the means are unchanged. |
| Bnn.Scaled | pybnn/bohamiann.py:293 | Every variance is multiplied by the same factor, keeping the number of test points. |
| Bnn.Unnormalized | pybnn/bohamiann.py:295-298 | One snapshot's output block, un-normalised row by row. Both the mean and the log-variance column go through the un-normalisation. |
| Bnn.UnnormalizedOutputs | pybnn/bohamiann.py:288-298 | With output normalisation, every snapshot's block is un-normalised. Without it, the blocks are unchanged. The block sizes are kept either way. |
| Bnn.Individual | pybnn/bohamiann.py:300-301 | `network_outputs[:, :, 0]`: for every snapshot, the mean column of its block. |
| Bnn.TrainingData | pybnn/bohamiann.py:209-223 | What the sampler is built with: the normalised inputs and targets, the batch size, `scale_grad = N`, the burn-in, the learning rate, `mdecay` and the noise. |
| Bnn.PredictiveVarianceDecomposed | pybnn/bohamiann.py:285-286 | At every test point, the predictive variance is the aleatoric part plus the epistemic part. |
| Bnn.PredictedVarianceNonNegative | pybnn/bohamiann.py:285-293 | If `exp` is never negative, no predictive variance is negative. This still holds after scaling by a non-negative factor such as `y_std^2`. |
| Bnn.MeanOfIndividuals | pybnn/bohamiann.py:282-301 | At every test point, the predictive mean is the average of the individual snapshots' predicted means. |
| Bnn.VarianceScale | pybnn/bohamiann.py:293 | The variance scale factor is never negative. |
| Bnn.TrainOutcome | pybnn/bohamiann.py:194-256 | Among the failures the class itself raises, `train` passes exactly when both normalisation flags are on, the row counts agree, `num_steps >= 0` and no cadence test divides by zero. The unbound-input and unbound-target failures happen exactly when the source reads the unbound array. A zero-cadence failure names the first step that divides by zero. |
| Bnn.CheckedSteps | pybnn/bohamiann.py:225-256 | Counts the steps whose cadence test completes. This is all `S` steps exactly when the run completes; otherwise the failing step is the first step that divides by zero. |
| Bnn.Bohamiann.constructor | pybnn/bohamiann.py:66-104 | A new object keeps its configuration, is not trained, and has an empty store and no network. |
| Bnn.Bohamiann.Create | pybnn/bohamiann.py:66-104 | Construction fails exactly when the batch size is below 1, with defaults of 20 and both flags on. Otherwise the object is fresh and valid. It keeps its configuration, is untrained, and has an empty store, no network and no normalisation constants. |
| Bnn.Bohamiann.NetworkWeights | pybnn/bohamiann.py:106-119 | The getter returns one value per parameter, each with that parameter's shape. Writing them back changes nothing. |
| Bnn.Bohamiann.SetNetworkWeights | pybnn/bohamiann.py:121-149 | The setter succeeds exactly when every pair `zip` offers has matching shapes. On failure it names the first mismatching index. The pairs before that index are copied, each value into the parameter with its index. Nothing else changes, and a valid object stays valid. |
| Bnn.Bohamiann.Train | pybnn/bohamiann.py:151-263 | The outcome is `TrainOutcome`. The store is cleared on every path. The normalisation constants are recorded as far as the run gets. The network is rebuilt from the input width once the data is accepted. The parameters are the sampler run through the last executed step. The store is `Recorded` for the checked steps. The object is marked trained only on success, and validity is preserved. |
| Bnn.Bohamiann.Sample | pybnn/bohamiann.py:225-263 | The step loop runs one update per step. It appends the parameters after each sample step and stops at the first division by zero. It marks the model trained when every step has run, and stored snapshots keep the network's shapes. |
| Bnn.Bohamiann.NetworkOutputs | pybnn/bohamiann.py:271-280 | Gives one output row per stored snapshot, in store order. Each row is the forward pass with that snapshot's weights. The network is left holding the last snapshot. |
| Bnn.Bohamiann.Predict | pybnn/bohamiann.py:265-302 | Among the failures the class itself raises, fails exactly when the input constants are missing or the store is empty. Otherwise the mean and variance are the ensemble aggregates of the normalised outputs at every test point. With output normalisation, the mean is un-normalised and the variance scaled by `y_std^2`. The individual predictions are the mean column of the outputs, un-normalised in place. |

## Left out

- Logging, timing and the verbose progress report: diagnostic output only.
  The `verbose` argument of `train` is therefore not a parameter.
- The default `get_network = get_default_network`: the factory has no default, because the default network is not part of this model.
- The loss `nll` and the backward pass are not modelled.
  The sampler is an arbitrary function of the data, the parameters and the step index.
  The model assumes only that it keeps parameter shapes.
- `AdaptiveSGHMC`'s internals (its momentum, noise and random draws) are not part of this model.
  The sampler receives its configuration (`scale_grad = N`, burn-in, learning rate, `mdecay`, noise) as data.
- `get_default_network`, its architecture and its random initialisation are not part of this model.
  Only a factory from the input width to a network is modelled.
- The normalisation utilities and `infinite_dataloader` are not part of this model.
  The normalisation formulas are parameters.
  The batching order of the data loader is folded into the sampler.
- Bnn.Bohamiann.Train: does not model that, with no training rows and `num_steps > 0`, the source's data loader never yields, so the call never returns.
  The model treats such a run like any other.
- Bnn.Bohamiann.SetNetworkWeights: describes the setter as `predict` uses it: under `torch.no_grad()`, once `train` has built a network.
  A direct assignment with gradient tracking on makes torch refuse the in-place `copy_` on the first parameter.
  The model does not capture that failure.
- Bnn.Bohamiann.NetworkWeights: requires a network.
  Before any `train` call, both the getter and the setter raise `AttributeError` because `self.model` does not exist yet.
  The model does not represent that error.
- Bnn.Bohamiann.SetNetworkWeights: treats any difference in shape as the failure of `copy_`.
  It does not model torch broadcasting a value into a parameter of a different but compatible shape.
- Bnn.Bohamiann.Predict: the forward pass is applied row by row.
  Batch-level effects of the network, such as batch normalisation, are not modelled.
- Bnn.Bohamiann.Predict: the normalisation utilities, the network factory, the forward pass and the sampler are total functions in the model.
  Exceptions they raise in the source are not modelled.
  For example, a test matrix whose width differs from the training width makes numpy's broadcasting in the input normalisation fail, or the network's first layer refuse the row; the model's `Predict` still returns a prediction.
  Likewise, `Bnn.Bohamiann.Train` does not model a sampler or a network factory refusing its arguments.
- Floating point, torch and numpy dtype conversions: all numbers are `real`.
- The unused `metrics` field and the commented-out priors and variance formula.
