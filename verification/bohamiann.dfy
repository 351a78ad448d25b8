/**
 * The Bohamiann regressor: a network whose weights are sampled with
 * stochastic-gradient MCMC. Training runs the sampler for a number of steps
 * and keeps a snapshot of the weights every `keepEvery` steps after the
 * burn-in; prediction runs the network once per kept snapshot and combines
 * the outputs into a predictive mean and variance per test point.
 *
 * The collaborators whose code is not part of this model are parameters:
 * the network factory (`getNetwork`), the network's forward pass (a field of
 * `Net`), the sampler update, the normalisation utilities and `exp`.
 */
module Bnn {
  import opened Wrappers
  import opened Params
  import opened Schedule
  import opened Ensemble

  /** A two-dimensional array of `rows` rows with `width` columns, as `x_train.shape == (N, D)`. */
  datatype Matrix = Matrix(width: nat, rows: seq<seq<real>>)

  /** The input normalisation constants `x_mean` and `x_std` (one per column). */
  datatype InputStats = InputStats(mean: seq<real>, std: seq<real>)

  /** The target normalisation constants `y_mean` and `y_std`. */
  datatype OutputStats = OutputStats(mean: real, std: real)

  /**
   * A network: its current parameter values and its forward pass, which maps
   * the parameter values and one input row to one output row (a predicted
   * mean and a predicted log-variance).
   */
  datatype Net = Net(params: Snapshot, forward: (Snapshot, seq<real>) -> Output)

  /** What the sampler sees at every step: the batched training data and its configuration. */
  datatype SamplerInput = SamplerInput(
    x: Matrix, y: seq<real>, batchSize: int,
    numDatapoints: nat, numBurnInSteps: int, lr: real, mdecay: real, noise: real)

  /** One sampler update: the data, the current parameters and the step index give the new parameters. */
  type Sampler = (SamplerInput, Snapshot, nat) -> Snapshot

  /** The normalisation utilities: normalise and return the constants, normalise with given constants, undo. */
  datatype Normalization = Normalization(
    normalizeInputs: Matrix -> (Matrix, InputStats),
    normalizeTargets: seq<real> -> (seq<real>, OutputStats),
    normalizeWith: (Matrix, InputStats) -> Matrix,
    unnormalize: (real, OutputStats) -> real)

  datatype ConfigError = InvalidBatchSize

  /** How a call of `train` can fail. */
  datatype TrainError =
    | UnboundInputs        // the normalised inputs are read although `normalize_input` is off
    | UnboundTargets       // the normalised targets are read although `normalize_output` is off
    | SizeMismatch         // inputs and targets have different numbers of rows
    | NegativeNumSteps     // `islice` refuses a negative stop
    | ZeroKeepEvery(step: nat)  // the cadence test takes a remainder modulo zero at `step`

  /** How a call of `predict` can fail. */
  datatype PredictError =
    | MissingInputStats  // the input normalisation constants are read before any run recorded them
    | NoSamples          // the store is empty, so the outputs cannot be indexed per snapshot

  /** The predictive mean and variance per test point, and optionally every snapshot's mean per test point. */
  datatype Prediction = Prediction(mean: seq<real>, variance: seq<real>, individual: Option<seq<seq<real>>>)

  /** The sampler never changes the number or the shapes of the parameters. */
  ghost predicate KeepsShapes(sampler: Sampler) {
    forall d, w, s :: SameShapes(sampler(d, w, s), w)
  }

  /** The network's outputs for every row of `x`. */
  function Outputs(forward: (Snapshot, seq<real>) -> Output, params: Snapshot, x: Matrix): (out: seq<Output>)
    ensures |out| == |x.rows|
    ensures forall m :: 0 <= m < |x.rows| ==> out[m] == forward(params, x.rows[m])
  {
    seq(|x.rows|, m requires 0 <= m < |x.rows| => forward(params, x.rows[m]))
  }

  /** The outputs of every stored snapshot for every row of `x`, in store order: `network_outputs`. */
  function AllOutputs(forward: (Snapshot, seq<real>) -> Output, store: seq<Snapshot>, x: Matrix): (outs: seq<seq<Output>>)
    ensures |outs| == |store|
    ensures forall k :: 0 <= k < |store| ==> outs[k] == Outputs(forward, store[k], x)
  {
    seq(|store|, k requires 0 <= k < |store| => Outputs(forward, store[k], x))
  }

  /** One output row un-normalised; both columns go through the un-normalisation. */
  function Unnormalized(norm: Normalization, stats: OutputStats, out: seq<Output>): (r: seq<Output>)
    ensures |r| == |out|
    ensures forall m :: 0 <= m < |out| ==>
      r[m] == Output(norm.unnormalize(out[m].mean, stats), norm.unnormalize(out[m].logVar, stats))
  {
    seq(|out|, m requires 0 <= m < |out| =>
      Output(norm.unnormalize(out[m].mean, stats), norm.unnormalize(out[m].logVar, stats)))
  }

  /** The ensemble's predictive mean for each of the `n` test points. */
  function PredictiveMean(outs: seq<seq<Output>>, n: nat): (mean: seq<real>)
    requires outs != [] && forall k :: 0 <= k < |outs| ==> |outs[k]| == n
    ensures |mean| == n
  {
    seq(n, m requires 0 <= m < n => EnsembleMean(Column(outs, m)))
  }

  /** The ensemble's predictive variance for each of the `n` test points. */
  function PredictiveVariance(outs: seq<seq<Output>>, n: nat, exp: real -> real): (variance: seq<real>)
    requires outs != [] && forall k :: 0 <= k < |outs| ==> |outs[k]| == n
    ensures |variance| == n
  {
    seq(n, m requires 0 <= m < n => EnsembleVariance(Column(outs, m), exp))
  }

  /** The factor the variance is scaled by: the square of the target standard deviation, or one without output normalisation. */
  function VarianceScale(stats: Option<OutputStats>): (c: real)
    ensures c >= 0.0
  {
    match stats
    case None => 1.0
    case Some(s) => s.std * s.std
  }

  /** Every element of `xs` multiplied by `c`. */
  function Scaled(xs: seq<real>, c: real): (ys: seq<real>)
    ensures |ys| == |xs|
  {
    seq(|xs|, m requires 0 <= m < |xs| => xs[m] * c)
  }

  /** The predictive means un-normalised with `stats`, or unchanged without output normalisation. */
  function UnnormalizedMean(norm: Normalization, stats: Option<OutputStats>, mean: seq<real>): (r: seq<real>)
    ensures |r| == |mean|
  {
    match stats
    case None => mean
    case Some(s) => seq(|mean|, m requires 0 <= m < |mean| => norm.unnormalize(mean[m], s))
  }

  /** Every snapshot's outputs un-normalised with `stats`, or unchanged without output normalisation. */
  function UnnormalizedOutputs(norm: Normalization, stats: Option<OutputStats>, outs: seq<seq<Output>>): (r: seq<seq<Output>>)
    ensures |r| == |outs| && forall k :: 0 <= k < |outs| ==> |r[k]| == |outs[k]|
  {
    match stats
    case None => outs
    case Some(s) => seq(|outs|, k requires 0 <= k < |outs| => Unnormalized(norm, s, outs[k]))
  }

  /** Every snapshot's predicted mean per test point: the first output column, snapshot by snapshot. */
  function Individual(outs: seq<seq<Output>>, n: nat): (ind: seq<seq<real>>)
    requires forall k :: 0 <= k < |outs| ==> |outs[k]| == n
    ensures |ind| == |outs|
    ensures forall k :: 0 <= k < |outs| ==> |ind[k]| == n && Means(outs[k]) == ind[k]
  {
    seq(|outs|, k requires 0 <= k < |outs| => Means(outs[k]))
  }

  /**
   * Every predictive variance is the average of the snapshots' own variances
   * (the aleatoric part) plus the spread of their means (the epistemic part).
   */
  lemma PredictiveVarianceDecomposed(outs: seq<seq<Output>>, n: nat, exp: real -> real)
    requires outs != [] && forall k :: 0 <= k < |outs| ==> |outs[k]| == n
    ensures forall m :: 0 <= m < n ==>
      PredictiveVariance(outs, n, exp)[m]
        == Average(Variances(Column(outs, m), exp)) + PopulationVariance(Means(Column(outs, m)))
  {
    forall m | 0 <= m < n
      ensures PredictiveVariance(outs, n, exp)[m]
        == Average(Variances(Column(outs, m), exp)) + PopulationVariance(Means(Column(outs, m)))
    {
      TotalVariance(Column(outs, m), exp);
    }
  }

  /**
   * When `exp` is never negative, no predictive variance is negative, also
   * after scaling by a non-negative factor such as a squared standard deviation.
   */
  lemma PredictedVarianceNonNegative(outs: seq<seq<Output>>, n: nat, exp: real -> real, c: real)
    requires outs != [] && forall k :: 0 <= k < |outs| ==> |outs[k]| == n
    requires (forall v :: exp(v) >= 0.0) && c >= 0.0
    ensures forall m :: 0 <= m < n ==> Scaled(PredictiveVariance(outs, n, exp), c)[m] >= 0.0
  {
    forall m | 0 <= m < n
      ensures Scaled(PredictiveVariance(outs, n, exp), c)[m] >= 0.0
    {
      VarianceNonNegative(Column(outs, m), exp);
    }
  }

  /** The predictive mean at a test point is the average of the individual predictions at that point. */
  lemma MeanOfIndividuals(outs: seq<seq<Output>>, n: nat, m: nat)
    requires outs != [] && (forall k :: 0 <= k < |outs| ==> |outs[k]| == n) && m < n
    ensures var ind := Individual(outs, n);
      PredictiveMean(outs, n)[m] == Average(seq(|ind|, k requires 0 <= k < |ind| => ind[k][m]))
  {
    var ind := Individual(outs, n);
    var col := Column(outs, m);
    var picks := seq(|ind|, k requires 0 <= k < |ind| => ind[k][m]);
    forall k | 0 <= k < |outs|
      ensures Means(col)[k] == picks[k]
    {
      MeansAt(col, k);
      MeansAt(outs[k], m);
    }
    assert Means(col) == picks;
  }

  /**
   * The outcome of `train` as a function of the configuration: the flags are
   * checked where the source reads the normalised arrays, then the row counts,
   * then the step count, and finally the cadence may divide by zero.
   */
  function TrainOutcome(normalizeInput: bool, normalizeOutput: bool, rowsMatch: bool,
                        numSteps: int, burnIn: int, keepEvery: int): (r: Outcome<TrainError>)
    ensures r.Pass? <==> normalizeInput && normalizeOutput && rowsMatch && numSteps >= 0
                         && Completes(numSteps, burnIn, keepEvery)
    ensures r == Fail(UnboundInputs) <==> !normalizeInput
    ensures r == Fail(UnboundTargets) <==> normalizeInput && !normalizeOutput
    ensures r.Fail? && r.error.ZeroKeepEvery? ==>
      normalizeInput && normalizeOutput && rowsMatch && numSteps >= 0 &&
      FirstZeroDivision(numSteps, burnIn, keepEvery) == Some(r.error.step)
  {
    if !normalizeInput then Fail(UnboundInputs)
    else if !normalizeOutput then Fail(UnboundTargets)
    else if !rowsMatch then Fail(SizeMismatch)
    else if numSteps < 0 then Fail(NegativeNumSteps)
    else match FirstZeroDivision(numSteps, burnIn, keepEvery)
      case None => Pass
      case Some(s) => Fail(ZeroKeepEvery(s))
  }

  /**
   * The number of steps of a run whose cadence test completes: all of them,
   * or those before the step that divides by zero.
   */
  function CheckedSteps(numSteps: nat, burnIn: int, keepEvery: int): (n: nat)
    ensures n <= numSteps && Completes(n, burnIn, keepEvery)
    ensures n == numSteps <==> Completes(numSteps, burnIn, keepEvery)
    ensures n < numSteps ==> DividesByZero(n, burnIn, keepEvery)
  {
    match FirstZeroDivision(numSteps, burnIn, keepEvery)
    case None => numSteps
    case Some(s) => s
  }

  /** The data and configuration the sampler is built with: the normalised training set and the hyperparameters. */
  function TrainingData(norm: Normalization, xTrain: Matrix, yTrain: seq<real>, batchSize: int,
                        numBurnInSteps: int, lr: real, mdecay: real, noise: real): SamplerInput
  {
    SamplerInput(norm.normalizeInputs(xTrain).0, norm.normalizeTargets(yTrain).0, batchSize,
                 |xTrain.rows|, numBurnInSteps, lr, mdecay, noise)
  }

  class Bohamiann {
    const getNetwork: nat -> Net
    const batchSize: int
    const normalizeInput: bool
    const normalizeOutput: bool
    var isTrained: bool
    var sampledWeights: seq<Snapshot>
    /** The network, once `train` has built one. */
    var model: Option<Net>
    var xStats: Option<InputStats>
    var yStats: Option<OutputStats>

    /**
     * The batch size is positive; every stored snapshot fits the network's
     * parameters; a non-empty store comes from a training run, which built
     * the network and recorded the normalisation constants it uses.
     */
    ghost predicate Valid()
      reads this
    {
      && batchSize >= 1
      && (model.Some? ==> forall w :: w in sampledWeights ==> SameShapes(w, model.value.params))
      && (sampledWeights != [] ==>
            && isTrained && model.Some?
            && (normalizeInput ==> xStats.Some?)
            && (normalizeOutput ==> yStats.Some?))
    }

    constructor(getNetwork: nat -> Net, batchSize: int := 20, normalizeInput: bool := true, normalizeOutput: bool := true)
      requires batchSize >= 1
      ensures Valid()
      ensures this.getNetwork == getNetwork && this.batchSize == batchSize
      ensures this.normalizeInput == normalizeInput && this.normalizeOutput == normalizeOutput
      ensures !isTrained && sampledWeights == [] && model.None?
      ensures xStats.None? && yStats.None?
    {
      this.getNetwork := getNetwork;
      this.batchSize := batchSize;
      this.normalizeInput := normalizeInput;
      this.normalizeOutput := normalizeOutput;
      isTrained := false;
      sampledWeights := [];
      model := None;
      xStats := None;
      yStats := None;
    }

    /** Construction with the batch-size assertion: a batch size below one is refused. */
    static method Create(getNetwork: nat -> Net, batchSize: int := 20, normalizeInput: bool := true, normalizeOutput: bool := true)
      returns (r: Result<Bohamiann, ConfigError>)
      ensures r.Failure? <==> batchSize < 1
      ensures r.Failure? ==> r.error == InvalidBatchSize
      ensures r.Success? ==>
        && fresh(r.value) && r.value.Valid()
        && r.value.getNetwork == getNetwork && r.value.batchSize == batchSize
        && r.value.normalizeInput == normalizeInput && r.value.normalizeOutput == normalizeOutput
        && !r.value.isTrained && r.value.sampledWeights == []
        && r.value.model.None? && r.value.xStats.None? && r.value.yStats.None?
    {
      if batchSize < 1 {
        return Failure(InvalidBatchSize);
      }
      var b := new Bohamiann(getNetwork, batchSize, normalizeInput, normalizeOutput);
      return Success(b);
    }

    /**
     * The current parameter values, one per parameter in parameter order.
     * Writing them straight back leaves the parameters as they are.
     */
    function NetworkWeights(): (w: Snapshot)
      reads this
      requires model.Some?
      ensures SameShapes(w, model.value.params)
      ensures Restore(model.value.params, w, |w|) == model.value.params
    {
      RestoreRoundTrip(model.value.params, model.value.params);
      model.value.params
    }

    /**
     * Assigns `values` to the parameters pairwise, as `zip` offers them: the
     * copy stops at the shorter of the two, and fails at the first pair whose
     * shapes differ, keeping the copies made before it.
     */
    method SetNetworkWeights(values: Snapshot) returns (outcome: Outcome<nat>)
      requires model.Some?
      modifies this
      ensures outcome.Pass? <==> CopiedCount(old(model.value.params), values) == ZipLength(old(model.value.params), values)
      ensures outcome.Fail? ==> outcome.error == CopiedCount(old(model.value.params), values)
      ensures model == Some(old(model.value).(params :=
                Restore(old(model.value.params), values, CopiedCount(old(model.value.params), values))))
      ensures isTrained == old(isTrained) && sampledWeights == old(sampledWeights)
      ensures xStats == old(xStats) && yStats == old(yStats)
      ensures old(Valid()) ==> Valid()
    {
      var params := model.value.params;
      var n := ZipLength(params, values);
      var i := 0;
      assert Restore(params, values, 0) == params;
      while i < n
        invariant 0 <= i <= n && i <= CopiedCount(params, values)
        invariant model == Some(old(model.value).(params := Restore(params, values, i)))
        invariant isTrained == old(isTrained) && sampledWeights == old(sampledWeights)
        invariant xStats == old(xStats) && yStats == old(yStats)
        invariant old(Valid()) ==> Valid()
      {
        if params[i].shape != values[i].shape {
          return Fail(i);
        }
        RestoreStep(params, values, i);
        model := Some(model.value.(params := model.value.params[i := Tensor(params[i].shape, values[i].data)]));
        i := i + 1;
        if old(Valid()) {
          RestoreKeepsShapes(params, values, i);
          forall w | w in sampledWeights
            ensures SameShapes(w, model.value.params)
          {
            ShapesAgree(w, model.value.params, params);
          }
        }
      }
      return Pass;
    }

    /**
     * One training run. The store is cleared first; the normalised training
     * set is built (failing where the source reads a normalised array that a
     * switched-off flag left unbound, or where inputs and targets disagree in
     * length); a fresh network is built for the input width; then the sampler
     * runs `numSteps` steps and, after each step past the burn-in whose
     * distance from the burn-in is a multiple of `keepEvery`, the current
     * parameters are appended to the store. Only a run that completes marks
     * the model trained.
     */
    method Train(xTrain: Matrix, yTrain: seq<real>, norm: Normalization, sampler: Sampler,
                 numSteps: int := 13000, keepEvery: int := 100, numBurnInSteps: int := 3000,
                 lr: real := 0.01, noise: real := 0.0, mdecay: real := 0.05)
      returns (outcome: Outcome<TrainError>)
      requires Valid() && KeepsShapes(sampler)
      modifies this
      ensures Valid()
      ensures outcome == TrainOutcome(normalizeInput, normalizeOutput,
                |norm.normalizeInputs(xTrain).0.rows| == |norm.normalizeTargets(yTrain).0|,
                numSteps, numBurnInSteps, keepEvery)
      ensures isTrained == (outcome.Pass? || old(isTrained))
      ensures xStats == (if normalizeInput then Some(norm.normalizeInputs(xTrain).1) else old(xStats))
      ensures yStats == (if normalizeInput && normalizeOutput then Some(norm.normalizeTargets(yTrain).1) else old(yStats))
      ensures outcome == Fail(UnboundInputs) || outcome == Fail(UnboundTargets) || outcome == Fail(SizeMismatch) ==>
                model == old(model) && sampledWeights == []
      ensures outcome == Fail(NegativeNumSteps) ==> model == Some(getNetwork(xTrain.width)) && sampledWeights == []
      ensures (outcome.Pass? || outcome.error.ZeroKeepEvery?) && numSteps >= 0 ==>
                var init := getNetwork(xTrain.width);
                var data := TrainingData(norm, xTrain, yTrain, batchSize, numBurnInSteps, lr, mdecay, noise);
                var n := CheckedSteps(numSteps, numBurnInSteps, keepEvery);
                && model == Some(init.(params := RunSteps(data, init.params, sampler, if outcome.Pass? then n else n + 1)))
                && sampledWeights == Recorded(data, init.params, sampler, n, numBurnInSteps, keepEvery)
    {
      sampledWeights := [];
      if !normalizeInput {
        return Fail(UnboundInputs);
      }
      var (xNorm, xs) := norm.normalizeInputs(xTrain);
      xStats := Some(xs);
      if !normalizeOutput {
        return Fail(UnboundTargets);
      }
      var (yNorm, ys) := norm.normalizeTargets(yTrain);
      yStats := Some(ys);
      if |xNorm.rows| != |yNorm| {
        return Fail(SizeMismatch);
      }
      var net := getNetwork(xTrain.width);
      model := Some(net);
      if numSteps < 0 {
        return Fail(NegativeNumSteps);
      }
      var data := TrainingData(norm, xTrain, yTrain, batchSize, numBurnInSteps, lr, mdecay, noise);
      outcome := Sample(data, net, numSteps, numBurnInSteps, keepEvery, sampler);
    }

    /**
     * The sampling loop of `train`: one sampler update per step, a snapshot
     * after every step that passes the cadence test, and the model marked
     * trained once every step has run.
     */
    method Sample(data: SamplerInput, net: Net, numSteps: nat, numBurnInSteps: int, keepEvery: int, sampler: Sampler)
      returns (outcome: Outcome<TrainError>)
      requires model == Some(net) && sampledWeights == [] && KeepsShapes(sampler)
      modifies this
      ensures outcome == (match FirstZeroDivision(numSteps, numBurnInSteps, keepEvery)
                          case None => Pass
                          case Some(s) => Fail(ZeroKeepEvery(s)))
      ensures isTrained == (outcome.Pass? || old(isTrained))
      ensures xStats == old(xStats) && yStats == old(yStats)
      ensures var n := CheckedSteps(numSteps, numBurnInSteps, keepEvery);
              && model == Some(net.(params := RunSteps(data, net.params, sampler, if outcome.Pass? then n else n + 1)))
              && sampledWeights == Recorded(data, net.params, sampler, n, numBurnInSteps, keepEvery)
      ensures SameShapes(model.value.params, net.params)
      ensures forall w :: w in sampledWeights ==> SameShapes(w, net.params)
      ensures outcome.Fail? ==> sampledWeights == []
    {
      var step: nat := 0;
      while step < numSteps
        invariant step <= numSteps && Completes(step, numBurnInSteps, keepEvery)
        invariant model == Some(net.(params := RunSteps(data, net.params, sampler, step)))
        invariant sampledWeights == Recorded(data, net.params, sampler, step, numBurnInSteps, keepEvery)
        invariant forall w :: w in sampledWeights ==> SameShapes(w, net.params)
        invariant keepEvery == 0 ==> sampledWeights == []
        invariant isTrained == old(isTrained) && xStats == old(xStats) && yStats == old(yStats)
      {
        RunStepsKeepsShapes(data, net.params, sampler, step + 1);
        model := Some(model.value.(params := sampler(data, model.value.params, step)));
        if step > numBurnInSteps {
          if keepEvery == 0 {
            return Fail(ZeroKeepEvery(step));
          }
          if (step - numBurnInSteps) % keepEvery == 0 {
            var weights := NetworkWeights();
            sampledWeights := sampledWeights + [weights];
          }
        }
        step := step + 1;
      }
      RunStepsKeepsShapes(data, net.params, sampler, step);
      isTrained := true;
      return Pass;
    }

    /**
     * Runs the network once per stored snapshot, in store order: the
     * snapshot is assigned to the parameters and the network is applied to
     * every row of `x`. The network is left holding the last snapshot.
     */
    method NetworkOutputs(x: Matrix) returns (outs: seq<seq<Output>>)
      requires model.Some? && sampledWeights != []
      requires forall w :: w in sampledWeights ==> SameShapes(w, model.value.params)
      modifies this
      ensures isTrained == old(isTrained) && sampledWeights == old(sampledWeights)
      ensures outs == AllOutputs(old(model.value.forward), sampledWeights, x)
      ensures model == Some(old(model.value).(params := sampledWeights[|sampledWeights| - 1]))
      ensures forall w :: w in sampledWeights ==> SameShapes(w, model.value.params)
      ensures xStats == old(xStats) && yStats == old(yStats)
    {
      ghost var init := model.value.params;
      var i := 0;
      outs := [];
      while i < |sampledWeights|
        invariant 0 <= i <= |sampledWeights| && |outs| == i
        invariant forall k :: 0 <= k < i ==> outs[k] == Outputs(old(model.value.forward), sampledWeights[k], x)
        invariant model == Some(old(model.value).(params := if i == 0 then init else sampledWeights[i - 1]))
        invariant isTrained == old(isTrained) && sampledWeights == old(sampledWeights)
        invariant xStats == old(xStats) && yStats == old(yStats)
      {
        var w := sampledWeights[i];
        assert w in sampledWeights;
        if i > 0 {
          assert sampledWeights[i - 1] in sampledWeights;
          ShapesAgree(model.value.params, w, init);
        }
        RestoreRoundTrip(model.value.params, w);
        var _ := SetNetworkWeights(w);
        outs := outs + [Outputs(model.value.forward, model.value.params, x)];
        i := i + 1;
      }
      var last := sampledWeights[|sampledWeights| - 1];
      assert last in sampledWeights;
      forall w | w in sampledWeights
        ensures SameShapes(w, last)
      {
        ShapesAgree(w, last, init);
      }
    }

    /**
     * The prediction of the ensemble of stored snapshots for every row of
     * `xTest`, normalised with the recorded constants when input
     * normalisation is on. With output normalisation on, the predictive mean
     * is un-normalised, the predictive variance scaled by the square of the
     * target standard deviation, and both columns of every snapshot's outputs
     * un-normalised before the individual means are read.
     */
    method Predict(xTest: Matrix, norm: Normalization, exp: real -> real, returnIndividual: bool := false)
      returns (r: Result<Prediction, PredictError>)
      requires Valid()
      modifies this
      ensures Valid()
      ensures isTrained == old(isTrained) && sampledWeights == old(sampledWeights)
      ensures xStats == old(xStats) && yStats == old(yStats)
      ensures r.Failure? <==> (normalizeInput && xStats.None?) || sampledWeights == []
      ensures r.Failure? ==>
        && r.error == (if normalizeInput && xStats.None? then MissingInputStats else NoSamples)
        && model == old(model)
      ensures r.Success? ==>
        && old(model).Some? && (normalizeOutput ==> yStats.Some?)
        && model == Some(old(model.value).(params := sampledWeights[|sampledWeights| - 1]))
        && var x := if normalizeInput then norm.normalizeWith(xTest, xStats.value) else xTest;
           var outs := AllOutputs(old(model.value.forward), sampledWeights, x);
           var n := |x.rows|;
           var stats := if normalizeOutput then Some(yStats.value) else None;
           && r.value.mean == UnnormalizedMean(norm, stats, PredictiveMean(outs, n))
           && r.value.variance == Scaled(PredictiveVariance(outs, n, exp), VarianceScale(stats))
           && r.value.individual == (if returnIndividual then Some(Individual(UnnormalizedOutputs(norm, stats, outs), n)) else None)
    {
      var x := xTest;
      if normalizeInput {
        if xStats.None? {
          return Failure(MissingInputStats);
        }
        x := norm.normalizeWith(xTest, xStats.value);
      }
      if sampledWeights == [] {
        return Failure(NoSamples);
      }
      var outs := NetworkOutputs(x);
      var n := |x.rows|;
      var stats := if normalizeOutput then Some(yStats.value) else None;
      var mean := PredictiveMean(outs, n);
      var variance := PredictiveVariance(outs, n, exp);
      if normalizeOutput {
        mean := UnnormalizedMean(norm, stats, mean);
        variance := Scaled(variance, VarianceScale(stats));
        ghost var raw := outs;
        var i := 0;
        while i < |outs|
          invariant 0 <= i <= |outs| == |raw|
          invariant forall k :: 0 <= k < i ==> outs[k] == Unnormalized(norm, yStats.value, raw[k])
          invariant forall k :: i <= k < |outs| ==> outs[k] == raw[k]
        {
          outs := outs[i := Unnormalized(norm, yStats.value, outs[i])];
          i := i + 1;
        }
        assert outs == UnnormalizedOutputs(norm, stats, raw);
      }
      r := Success(Prediction(mean, variance, if returnIndividual then Some(Individual(outs, n)) else None));
    }
  }
}
