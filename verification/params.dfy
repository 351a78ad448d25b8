/**
 * Network parameters as values: each parameter tensor is its shape and its
 * values, and a snapshot is the ordered sequence of all of them, as the
 * `network_weights` getter returns it. The setter's `zip` copy is modelled by
 * `CopiedCount` (how far the copy gets) and `Restore` (what it leaves).
 */
module Params {

  /** One parameter tensor: its shape and its values in row-major order. */
  datatype Tensor = Tensor(shape: seq<nat>, data: seq<real>)

  /** The values of every parameter of a network, in parameter order. */
  type Snapshot = seq<Tensor>

  /** `a` and `b` have as many tensors, pairwise of equal shape. */
  predicate SameShapes(a: Snapshot, b: Snapshot) {
    |a| == |b| && forall i :: 0 <= i < |a| ==> a[i].shape == b[i].shape
  }

  /**
   * The number of (parameter, value) pairs the setter copies: `zip` stops at
   * the shorter sequence, and the copy stops at the first pair whose shapes
   * differ (where `copy_` raises).
   */
  function CopiedCount(params: Snapshot, values: Snapshot): (k: nat)
    ensures k <= |params| && k <= |values|
    ensures forall i :: 0 <= i < k ==> params[i].shape == values[i].shape
    ensures k < |params| && k < |values| ==> params[k].shape != values[k].shape
  {
    if params == [] || values == [] || params[0].shape != values[0].shape then 0
    else 1 + CopiedCount(params[1..], values[1..])
  }

  /** The number of pairs `zip` offers to the copy. */
  function ZipLength(params: Snapshot, values: Snapshot): nat {
    if |params| < |values| then |params| else |values|
  }

  /** The parameters once the first `k` values have been copied into them, each into the parameter with its index. */
  function Restore(params: Snapshot, values: Snapshot, k: nat): Snapshot
    requires k <= |params| && k <= |values|
  {
    seq(|params|, i requires 0 <= i < |params| =>
      if i < k then Tensor(params[i].shape, values[i].data) else params[i])
  }

  /** Copying keeps the number and the shapes of the parameters. */
  lemma RestoreKeepsShapes(params: Snapshot, values: Snapshot, k: nat)
    requires k <= |params| && k <= |values|
    ensures SameShapes(Restore(params, values, k), params)
  {
  }

  /**
   * Round trip of the setter and the getter: assigning values whose shapes
   * match the parameters copies every one of them, and reading the
   * parameters back gives exactly the values assigned.
   */
  lemma RestoreRoundTrip(params: Snapshot, values: Snapshot)
    requires SameShapes(params, values)
    ensures CopiedCount(params, values) == ZipLength(params, values) == |values|
    ensures Restore(params, values, |values|) == values
  {
    var r := Restore(params, values, |values|);
    forall i | 0 <= i < |values|
      ensures r[i] == values[i]
    {
    }
  }

  /** Copying the first `k` values and then value `k` is copying the first `k + 1`. */
  lemma RestoreStep(params: Snapshot, values: Snapshot, k: nat)
    requires k < |params| && k < |values|
    ensures Restore(params, values, k)[k := Tensor(params[k].shape, values[k].data)]
         == Restore(params, values, k + 1)
  {
  }

  /** Two snapshots that fit the same parameters fit each other. */
  lemma ShapesAgree(a: Snapshot, b: Snapshot, c: Snapshot)
    requires SameShapes(a, c) && SameShapes(b, c)
    ensures SameShapes(a, b) && SameShapes(b, a)
  {
  }
}
