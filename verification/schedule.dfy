/**
 * The training schedule: steps `0 .. numSteps - 1`, one sampler update per
 * step, and the cadence that decides after which steps a snapshot of the
 * parameters is recorded (only past the burn-in, every `keepEvery` steps).
 * The sampler is a parameter `update` applied to the data stream `data`, the
 * current parameters and the step index.
 */
module Schedule {
  import opened Wrappers
  import opened Params

  /** At `step` the cadence test gets past `step > burnIn` and then takes a remainder modulo zero. */
  predicate DividesByZero(step: int, burnIn: int, keepEvery: int) {
    step > burnIn && keepEvery == 0
  }

  /** A snapshot is recorded after the update of `step`. */
  predicate IsSampleStep(step: int, burnIn: int, keepEvery: int)
    requires !DividesByZero(step, burnIn, keepEvery)
  {
    step > burnIn && (step - burnIn) % keepEvery == 0
  }

  /** No step of a run of `numSteps` steps divides by zero. */
  predicate Completes(numSteps: nat, burnIn: int, keepEvery: int) {
    keepEvery != 0 || numSteps == 0 || numSteps - 1 <= burnIn
  }

  /** The step at which a run of `numSteps` steps raises a division by zero, if it does. */
  function FirstZeroDivision(numSteps: nat, burnIn: int, keepEvery: int): (r: Option<nat>)
    ensures r.None? <==> Completes(numSteps, burnIn, keepEvery)
    ensures r.None? ==> forall s :: 0 <= s < numSteps ==> !DividesByZero(s, burnIn, keepEvery)
    ensures r.Some? ==> r.value < numSteps && DividesByZero(r.value, burnIn, keepEvery)
    ensures r.Some? ==> forall s :: 0 <= s < r.value ==> !DividesByZero(s, burnIn, keepEvery)
  {
    if Completes(numSteps, burnIn, keepEvery) then None
    else if burnIn < 0 then Some(0)
    else Some(burnIn + 1)
  }

  /** The steps, in the order they run, after which a run of `numSteps` steps records a snapshot. */
  function SampleSteps(numSteps: nat, burnIn: int, keepEvery: int): seq<nat>
    requires Completes(numSteps, burnIn, keepEvery)
  {
    if numSteps == 0 then []
    else
      SampleSteps(numSteps - 1, burnIn, keepEvery)
      + (if IsSampleStep(numSteps - 1, burnIn, keepEvery) then [numSteps - 1] else [])
  }

  /** The parameters after the sampler has run steps `0 .. n - 1` from `init`. */
  function RunSteps<D>(data: D, init: Snapshot, update: (D, Snapshot, nat) -> Snapshot, n: nat): Snapshot {
    if n == 0 then init else update(data, RunSteps(data, init, update, n - 1), n - 1)
  }

  /** The snapshots a run of `n` steps appends to the store, in the order it appends them. */
  function Recorded<D>(data: D, init: Snapshot, update: (D, Snapshot, nat) -> Snapshot,
                       n: nat, burnIn: int, keepEvery: int): seq<Snapshot>
    requires Completes(n, burnIn, keepEvery)
  {
    if n == 0 then []
    else
      Recorded(data, init, update, n - 1, burnIn, keepEvery)
      + (if IsSampleStep(n - 1, burnIn, keepEvery) then [RunSteps(data, init, update, n)] else [])
  }

  /**
   * The sample steps are exactly the steps of the run that pass the cadence
   * test, each once and in increasing order; none is at or before the burn-in.
   */
  lemma {:induction false} SampleStepsExactly(numSteps: nat, burnIn: int, keepEvery: int)
    requires Completes(numSteps, burnIn, keepEvery)
    ensures forall i, j :: 0 <= i < j < |SampleSteps(numSteps, burnIn, keepEvery)| ==>
      SampleSteps(numSteps, burnIn, keepEvery)[i] < SampleSteps(numSteps, burnIn, keepEvery)[j]
    ensures forall i :: 0 <= i < |SampleSteps(numSteps, burnIn, keepEvery)| ==>
      burnIn < SampleSteps(numSteps, burnIn, keepEvery)[i] < numSteps
    ensures forall i :: 0 <= i < |SampleSteps(numSteps, burnIn, keepEvery)| ==>
      IsSampleStep(SampleSteps(numSteps, burnIn, keepEvery)[i], burnIn, keepEvery)
    ensures forall s :: 0 <= s < numSteps && IsSampleStep(s, burnIn, keepEvery) ==>
      s in SampleSteps(numSteps, burnIn, keepEvery)
  {
    if numSteps > 0 {
      var last := numSteps - 1;
      SampleStepsExactly(last, burnIn, keepEvery);
      var prefix := SampleSteps(last, burnIn, keepEvery);
      var steps := SampleSteps(numSteps, burnIn, keepEvery);
      if IsSampleStep(last, burnIn, keepEvery) {
        assert steps == prefix + [last];
      } else {
        assert steps == prefix;
      }
    }
  }

  /** A positive multiple of a positive number is at least that number. */
  lemma {:induction false} MulAtLeast(d: int, k: int)
    requires d >= 1 && k >= 1
    ensures d * k >= k
  {
    if d > 1 {
      MulAtLeast(d - 1, k);
      assert d * k == (d - 1) * k + k;
    }
  }

  /** Euclidean division is unique. */
  lemma DivModUnique(x: int, k: int, q: int, r: int)
    requires k >= 1 && 0 <= r < k && x == q * k + r
    ensures x / k == q && x % k == r
  {
    var q', r' := x / k, x % k;
    assert q' * k + r' == x;
    assert (q' - q) * k == q' * k - q * k;
    if q' > q {
      MulAtLeast(q' - q, k);
    } else if q' < q {
      MulAtLeast(q - q', k);
    }
  }

  /** Adding one to `a` raises its quotient by `k` exactly when the sum is a multiple of `k`. */
  lemma DivSucc(a: nat, k: int)
    requires k >= 1
    ensures (a + 1) / k == a / k + (if (a + 1) % k == 0 then 1 else 0)
  {
    var q, r := a / k, a % k;
    if r + 1 < k {
      DivModUnique(a + 1, k, q, r + 1);
    } else {
      DivModUnique(a + 1, k, q + 1, 0);
    }
  }

  /**
   * With a positive cadence and a non-negative burn-in, a run of `numSteps`
   * steps records `(numSteps - 1 - burnIn) / keepEvery` snapshots, and none
   * when the last step does not exceed the burn-in.
   */
  lemma {:induction false} SampleCount(numSteps: nat, burnIn: int, keepEvery: int)
    requires keepEvery >= 1 && burnIn >= 0
    ensures |SampleSteps(numSteps, burnIn, keepEvery)|
         == if numSteps - 1 >= burnIn then (numSteps - 1 - burnIn) / keepEvery else 0
  {
    if numSteps > 0 {
      var last := numSteps - 1;
      SampleCount(last, burnIn, keepEvery);
      var before := |SampleSteps(last, burnIn, keepEvery)|;
      if last > burnIn {
        var a: nat := last - 1 - burnIn;
        assert before == a / keepEvery;
        DivSucc(a, keepEvery);
        assert IsSampleStep(last, burnIn, keepEvery) <==> (a + 1) % keepEvery == 0;
      } else {
        assert before == 0;
        assert !IsSampleStep(last, burnIn, keepEvery);
        assert last - burnIn == 0 ==> (last - burnIn) / keepEvery == 0;
      }
    }
  }

  /**
   * The store holds one snapshot per sample step, in step order, and the
   * snapshot for step `s` is the parameters right after the update of step `s`.
   */
  lemma {:induction false} RecordedAtSampleSteps<D>(data: D, init: Snapshot, update: (D, Snapshot, nat) -> Snapshot,
                                                    n: nat, burnIn: int, keepEvery: int)
    requires Completes(n, burnIn, keepEvery)
    ensures var steps := SampleSteps(n, burnIn, keepEvery);
      var recorded := Recorded(data, init, update, n, burnIn, keepEvery);
      && |recorded| == |steps|
      && forall j :: 0 <= j < |steps| ==> recorded[j] == RunSteps(data, init, update, steps[j] + 1)
  {
    if n > 0 {
      RecordedAtSampleSteps(data, init, update, n - 1, burnIn, keepEvery);
    }
  }

  /** A sampler that keeps parameter shapes keeps them over a whole run. */
  lemma {:induction false} RunStepsKeepsShapes<D>(data: D, init: Snapshot, update: (D, Snapshot, nat) -> Snapshot, n: nat)
    requires forall d, w, s :: SameShapes(update(d, w, s), w)
    ensures SameShapes(RunSteps(data, init, update, n), init)
  {
    if n > 0 {
      RunStepsKeepsShapes(data, init, update, n - 1);
    }
  }

  /**
   * Worked figures: burn-in 100, cadence 10 and 150 steps record 4 snapshots
   * (steps 110 to 140); burn-in 500, cadence 50 and 2000 steps record 29; the
   * defaults of `train` (13000 steps, burn-in 3000, cadence 100) record 99.
   */
  lemma CadenceExamples()
    ensures |SampleSteps(150, 100, 10)| == 4
    ensures 110 in SampleSteps(150, 100, 10) && 140 in SampleSteps(150, 100, 10)
    ensures |SampleSteps(2000, 500, 50)| == 29
    ensures |SampleSteps(13000, 3000, 100)| == 99
  {
    SampleCount(13000, 3000, 100);
    SampleCount(150, 100, 10);
    SampleStepsExactly(150, 100, 10);
    assert IsSampleStep(110, 100, 10) && IsSampleStep(140, 100, 10);
    SampleCount(2000, 500, 50);
  }
}
