/**
 * Ensemble aggregation for one test point. Each recorded snapshot gives one
 * network output (a predicted mean and a predicted log-variance); the
 * ensemble mean is the average of the means, and the ensemble variance is
 * the average of `mean^2 + exp(logVar)` minus the square of the ensemble
 * mean. The exponential is a parameter `exp` of the functions that need it.
 */
module Ensemble {

  /** One row of a network's output: the predicted mean and the predicted log-variance. */
  datatype Output = Output(mean: real, logVar: real)

  function Sum(xs: seq<real>): real {
    if xs == [] then 0.0 else xs[0] + Sum(xs[1..])
  }

  /** The arithmetic mean, as `np.mean` computes it over the snapshot axis. */
  function Average(xs: seq<real>): real
    requires xs != []
  {
    Sum(xs) / (|xs| as real)
  }

  function Means(outs: seq<Output>): (ms: seq<real>)
    ensures |ms| == |outs|
  {
    if outs == [] then [] else [outs[0].mean] + Means(outs[1..])
  }

  /** Each snapshot's own predicted variance, `exp(logVar)`. */
  function Variances(outs: seq<Output>, exp: real -> real): (vs: seq<real>)
    ensures |vs| == |outs|
  {
    if outs == [] then [] else [exp(outs[0].logVar)] + Variances(outs[1..], exp)
  }

  /** Each snapshot's second moment `mean^2 + exp(logVar)`. */
  function SecondMoments(outs: seq<Output>, exp: real -> real): (ms: seq<real>)
    ensures |ms| == |outs|
  {
    if outs == [] then []
    else [outs[0].mean * outs[0].mean + exp(outs[0].logVar)] + SecondMoments(outs[1..], exp)
  }

  function Squares(xs: seq<real>): (ys: seq<real>)
    ensures |ys| == |xs|
  {
    if xs == [] then [] else [xs[0] * xs[0]] + Squares(xs[1..])
  }

  function SquaredDeviations(xs: seq<real>, c: real): (ys: seq<real>)
    ensures |ys| == |xs|
  {
    if xs == [] then [] else [(xs[0] - c) * (xs[0] - c)] + SquaredDeviations(xs[1..], c)
  }

  /** The ensemble mean of one test point. */
  function EnsembleMean(outs: seq<Output>): real
    requires outs != []
  {
    Average(Means(outs))
  }

  /** The ensemble ("total") variance of one test point. */
  function EnsembleVariance(outs: seq<Output>, exp: real -> real): real
    requires outs != []
  {
    Average(SecondMoments(outs, exp)) - EnsembleMean(outs) * EnsembleMean(outs)
  }

  /** The population variance (no Bessel correction) of `xs`. */
  function PopulationVariance(xs: seq<real>): real
    requires xs != []
  {
    Average(SquaredDeviations(xs, Average(xs)))
  }

  /** The outputs of every snapshot for test point `m`, in snapshot order: `network_outputs[:, m]`. */
  function Column(outputs: seq<seq<Output>>, m: nat): (col: seq<Output>)
    requires forall i :: 0 <= i < |outputs| ==> m < |outputs[i]|
    ensures |col| == |outputs| && forall i :: 0 <= i < |outputs| ==> col[i] == outputs[i][m]
  {
    seq(|outputs|, i requires 0 <= i < |outputs| => outputs[i][m])
  }

  lemma {:induction false} SumNonNegative(xs: seq<real>)
    requires forall i :: 0 <= i < |xs| ==> xs[i] >= 0.0
    ensures Sum(xs) >= 0.0
  {
    if xs != [] {
      SumNonNegative(xs[1..]);
    }
  }

  /** `sumSq - 2 c sum + n c^2`: the sum of `(x - c)^2` over `n` values with the given sum and sum of squares. */
  function ExpandedSquares(sumSq: real, c: real, sum: real, n: real): real {
    sumSq - 2.0 * c * sum + n * c * c
  }

  /**
   * One more value `x`: if `l` is the expansion for some values, then `l`
   * plus `(x - c)^2` is the expansion once `x` is added to them.
   */
  lemma ExpandStep(x: real, c: real, q: real, t: real, k: real, l: real, s: real, q': real, t': real, k': real)
    requires l == ExpandedSquares(q, c, t, k)
    requires s == (x - c) * (x - c) + l && q' == x * x + q && t' == x + t && k' == k + 1.0
    ensures s == ExpandedSquares(q', c, t', k')
  {
  }

  /** Expanding the squares: the sum of `(x - c)^2` is `sum x^2 - 2 c sum x + n c^2`. */
  lemma {:induction false} SumSquaredDeviations(xs: seq<real>, c: real)
    ensures Sum(SquaredDeviations(xs, c)) == ExpandedSquares(Sum(Squares(xs)), c, Sum(xs), |xs| as real)
  {
    if xs != [] {
      var rest := xs[1..];
      SumSquaredDeviations(rest, c);
      ExpandStep(xs[0], c, Sum(Squares(rest)), Sum(rest), |rest| as real, Sum(SquaredDeviations(rest, c)),
                 Sum(SquaredDeviations(xs, c)), Sum(Squares(xs)), Sum(xs), |xs| as real);
    }
  }

  /** The second moments add up to the squared means plus the variances. */
  lemma {:induction false} SumSecondMoments(outs: seq<Output>, exp: real -> real)
    ensures Sum(SecondMoments(outs, exp)) == Sum(Squares(Means(outs))) + Sum(Variances(outs, exp))
  {
    if outs != [] {
      var rest := outs[1..];
      SumSecondMoments(rest, exp);
      assert Means(outs) == [outs[0].mean] + Means(rest);
      assert Means(outs)[1..] == Means(rest);
      assert Sum(Squares(Means(outs))) == outs[0].mean * outs[0].mean + Sum(Squares(Means(rest)));
    }
  }

  lemma DivisionDistributes(a: real, b: real, n: real)
    requires n != 0.0
    ensures (a + b) / n == a / n + b / n
  {
  }

  /**
   * Centring at the mean `a = sum / n`: the expanded squares divided by `n`
   * are the mean square minus the squared mean.
   */
  lemma CompleteTheSquare(pv: real, d: real, sumSq: real, sum: real, n: real, a: real, meanSq: real)
    requires n > 0.0 && a == sum / n && meanSq == sumSq / n
    requires pv == d / n && d == ExpandedSquares(sumSq, a, sum, n)
    ensures pv == meanSq - a * a
  {
    assert sum == a * n;
    assert d == sumSq - n * a * a;
    DivisionDistributes(sumSq, - n * a * a, n);
  }

  /** The definitions behind the population variance, written out. */
  lemma {:induction false} PopulationVarianceUnfolded(xs: seq<real>)
    requires xs != []
    ensures |xs| as real > 0.0
    ensures PopulationVariance(xs) == Sum(SquaredDeviations(xs, Average(xs))) / (|xs| as real)
    ensures Average(xs) == Sum(xs) / (|xs| as real)
    ensures Average(Squares(xs)) == Sum(Squares(xs)) / (|xs| as real)
  {
  }

  /** The population variance is the mean of the squares minus the square of the mean. */
  lemma {:induction false} PopulationVarianceExpanded(xs: seq<real>)
    requires xs != []
    ensures PopulationVariance(xs) == Average(Squares(xs)) - Average(xs) * Average(xs)
  {
    var n, a, sumSq := |xs| as real, Average(xs), Sum(Squares(xs));
    var d := Sum(SquaredDeviations(xs, a));
    assert n > 0.0 && a == Sum(xs) / n && Average(Squares(xs)) == sumSq / n && PopulationVariance(xs) == d / n by {
      PopulationVarianceUnfolded(xs);
    }
    assert d == ExpandedSquares(sumSq, a, Sum(xs), n) by {
      SumSquaredDeviations(xs, a);
    }
    CompleteTheSquare(PopulationVariance(xs), d, sumSq, Sum(xs), n, a, Average(Squares(xs)));
  }

  /** The average second moment is the average squared mean plus the average variance. */
  lemma {:induction false} AverageSecondMoments(outs: seq<Output>, exp: real -> real)
    requires outs != []
    ensures Average(SecondMoments(outs, exp)) == Average(Squares(Means(outs))) + Average(Variances(outs, exp))
  {
    SumSecondMoments(outs, exp);
    DivisionDistributes(Sum(Squares(Means(outs))), Sum(Variances(outs, exp)), |outs| as real);
  }

  /**
   * Law of total variance: the ensemble variance is the average of the
   * snapshots' own variances (aleatoric) plus the population variance of
   * their means (epistemic).
   */
  lemma {:induction false} TotalVariance(outs: seq<Output>, exp: real -> real)
    requires outs != []
    ensures EnsembleVariance(outs, exp) == Average(Variances(outs, exp)) + PopulationVariance(Means(outs))
  {
    AverageSecondMoments(outs, exp);
    PopulationVarianceExpanded(Means(outs));
  }

  lemma DivisionNonNegative(a: real, n: real)
    requires a >= 0.0 && n > 0.0
    ensures a / n >= 0.0
  {
  }

  lemma {:induction false} AverageNonNegative(xs: seq<real>)
    requires xs != []
    requires forall i :: 0 <= i < |xs| ==> xs[i] >= 0.0
    ensures Average(xs) >= 0.0
  {
    SumNonNegative(xs);
    DivisionNonNegative(Sum(xs), |xs| as real);
  }

  /** With non-negative per-snapshot variances the ensemble variance is never negative. */
  lemma {:induction false} VarianceNonNegative(outs: seq<Output>, exp: real -> real)
    requires outs != []
    requires forall i :: 0 <= i < |outs| ==> exp(outs[i].logVar) >= 0.0
    ensures EnsembleVariance(outs, exp) >= 0.0
  {
    TotalVariance(outs, exp);
    VariancesNonNegative(outs, exp);
    AverageNonNegative(Variances(outs, exp));
    var ms := Means(outs);
    DeviationsNonNegative(ms, Average(ms));
    AverageNonNegative(SquaredDeviations(ms, Average(ms)));
  }

  lemma {:induction false} VariancesNonNegative(outs: seq<Output>, exp: real -> real)
    requires forall i :: 0 <= i < |outs| ==> exp(outs[i].logVar) >= 0.0
    ensures forall i :: 0 <= i < |outs| ==> Variances(outs, exp)[i] >= 0.0
  {
    if outs != [] {
      VariancesNonNegative(outs[1..], exp);
      assert forall i :: 1 <= i < |outs| ==> Variances(outs, exp)[i] == Variances(outs[1..], exp)[i - 1];
    }
  }

  lemma SquareNonNegative(d: real)
    ensures d * d >= 0.0
  {
    if d < 0.0 {
      assert d * d == (-d) * (-d);
    }
  }

  /** The `i`-th squared deviation is `(xs[i] - c)^2`. */
  lemma {:induction false} DeviationAt(xs: seq<real>, c: real, i: nat)
    requires i < |xs|
    ensures SquaredDeviations(xs, c)[i] == (xs[i] - c) * (xs[i] - c)
  {
    if i > 0 {
      DeviationAt(xs[1..], c, i - 1);
    }
  }

  /** The `i`-th entry of `Means(outs)` is the predicted mean of the `i`-th snapshot. */
  lemma {:induction false} MeansAt(outs: seq<Output>, i: nat)
    requires i < |outs|
    ensures Means(outs)[i] == outs[i].mean
  {
    if i > 0 {
      MeansAt(outs[1..], i - 1);
    }
  }

  /**
   * A single snapshot is its own ensemble: the mean is its predicted mean and
   * the variance its own predicted variance.
   */
  lemma SingleSnapshot(o: Output, exp: real -> real)
    ensures EnsembleMean([o]) == o.mean
    ensures EnsembleVariance([o], exp) == exp(o.logVar)
  {
    var e := exp(o.logVar);
    assert [o][0] == o && [o][1..] == [];
    assert SecondMoments([o][1..], exp) == [];
    assert SecondMoments([o], exp) == [o.mean * o.mean + e];
    assert Sum([o.mean * o.mean + e]) == o.mean * o.mean + e;
  }

  lemma {:induction false} DeviationsNonNegative(xs: seq<real>, c: real)
    ensures forall i :: 0 <= i < |xs| ==> SquaredDeviations(xs, c)[i] >= 0.0
  {
    forall i | 0 <= i < |xs|
      ensures SquaredDeviations(xs, c)[i] >= 0.0
    {
      DeviationAt(xs, c, i);
      SquareNonNegative(xs[i] - c);
    }
  }

  /**
   * When every snapshot predicts the same mean, there is no epistemic part:
   * the ensemble mean is that mean and the ensemble variance is the average
   * of the snapshots' own variances.
   */
  lemma {:induction false} AgreeingSnapshots(outs: seq<Output>, exp: real -> real, c: real)
    requires outs != []
    requires forall i :: 0 <= i < |outs| ==> outs[i].mean == c
    ensures EnsembleMean(outs) == c
    ensures EnsembleVariance(outs, exp) == Average(Variances(outs, exp))
  {
    AgreeingMean(outs, c);
    TotalVariance(outs, exp);
    NoSpread(outs, c);
  }

  lemma {:induction false} AgreeingMean(outs: seq<Output>, c: real)
    requires outs != []
    requires forall i :: 0 <= i < |outs| ==> outs[i].mean == c
    ensures EnsembleMean(outs) == c
  {
    ConstantSum(outs, c);
    ScaledAverage(|outs| as real, c);
  }

  /** Equal means have no spread. */
  lemma {:induction false} NoSpread(outs: seq<Output>, c: real)
    requires outs != []
    requires forall i :: 0 <= i < |outs| ==> outs[i].mean == c
    ensures PopulationVariance(Means(outs)) == 0.0
  {
    var ms := Means(outs);
    AgreeingMean(outs, c);
    ConstantDeviations(outs, c);
    assert PopulationVariance(ms) == Sum(SquaredDeviations(ms, c)) / (|ms| as real);
    ZeroOver(|ms| as real);
  }

  lemma ZeroOver(n: real)
    requires n > 0.0
    ensures 0.0 / n == 0.0
  {
  }

  lemma ScaledAverage(n: real, c: real)
    requires n > 0.0
    ensures (n * c) / n == c
  {
  }

  lemma {:induction false} ConstantSum(outs: seq<Output>, c: real)
    requires forall i :: 0 <= i < |outs| ==> outs[i].mean == c
    ensures Sum(Means(outs)) == (|outs| as real) * c
  {
    if outs != [] {
      ConstantSum(outs[1..], c);
      assert (|outs| as real) * c == (|outs[1..]| as real) * c + c;
    }
  }

  lemma {:induction false} ConstantDeviations(outs: seq<Output>, c: real)
    requires forall i :: 0 <= i < |outs| ==> outs[i].mean == c
    ensures Sum(SquaredDeviations(Means(outs), c)) == 0.0
  {
    if outs != [] {
      ConstantDeviations(outs[1..], c);
    }
  }

  /**
   * Two snapshots with means 1 and 3 and unit variances: ensemble mean 2,
   * ensemble variance (1 + 1 + 9 + 1) / 2 - 4 = 2.
   */
  lemma TwoSnapshotExample(exp: real -> real, l0: real, l1: real)
    requires exp(l0) == 1.0 && exp(l1) == 1.0
    ensures EnsembleMean([Output(1.0, l0), Output(3.0, l1)]) == 2.0
    ensures EnsembleVariance([Output(1.0, l0), Output(3.0, l1)], exp) == 2.0
  {
    var outs := [Output(1.0, l0), Output(3.0, l1)];
    assert outs[1..] == [Output(3.0, l1)] && outs[1..][1..] == [];
    assert Means(outs) == [1.0, 3.0];
    assert Sum([1.0, 3.0]) == 4.0;
    assert SecondMoments(outs, exp) == [2.0, 10.0];
    assert Sum([2.0, 10.0]) == 12.0;
  }
}
