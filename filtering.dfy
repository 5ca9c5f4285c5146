/**
 * The loading pattern both dataset loaders share: every input item is
 * processed in order; an item whose processing fails in a caught way is
 * logged and dropped, a good item appends one entry, and a failure outside
 * the `try` aborts the whole load.
 */
module Filtering {
  import opened Wrappers

  /**
   * The list a loader builds from `xs`: `step` answers `Ok(Some(b))` to keep
   * `b`, `Ok(None)` to skip the item and `Err(e)` to abort with `e`.
   */
  function Collect<A, B, E>(xs: seq<A>, step: A -> Result<Option<B>, E>): (r: Result<seq<B>, E>)
    ensures r.Err? <==> exists j :: 0 <= j < |xs| && step(xs[j]).Err?
    ensures r.Ok? ==> |r.value| <= |xs|
  {
    if xs == [] then Ok([])
    else
      match Collect(xs[..|xs| - 1], step)
      case Err(e) => Err(e)
      case Ok(acc) =>
        match step(xs[|xs| - 1])
        case Err(e) => Err(e)
        case Ok(None) => Ok(acc)
        case Ok(Some(b)) => Ok(acc + [b])
  }

  /** Processing one more item: the load so far, then that item's step. */
  lemma CollectSnoc<A, B, E>(xs: seq<A>, x: A, step: A -> Result<Option<B>, E>)
    ensures Collect(xs + [x], step) ==
              match Collect(xs, step)
              case Err(e) => Err(e)
              case Ok(acc) =>
                match step(x)
                case Err(e) => Err(e)
                case Ok(None) => Ok(acc)
                case Ok(Some(b)) => Ok(acc + [b])
  {
    assert (xs + [x])[..|xs|] == xs;
  }

  /** The positions of the items `step` keeps, in increasing order. */
  function KeptIndices<A, B, E>(xs: seq<A>, step: A -> Result<Option<B>, E>): (ks: seq<nat>)
    ensures forall k :: 0 <= k < |ks| ==> ks[k] < |xs|
  {
    if xs == [] then []
    else
      var ks := KeptIndices(xs[..|xs| - 1], step);
      var last := step(xs[|xs| - 1]);
      if last.Ok? && last.value.Some? then ks + [|xs| - 1] else ks
  }

  predicate StrictlyIncreasing(ks: seq<nat>) {
    forall k, l :: 0 <= k < l < |ks| ==> ks[k] < ks[l]
  }

  /**
   * When no item aborts, the load succeeds and keeps, in their original
   * order, exactly the items `step` accepts, each as the entry `step` built.
   */
  lemma {:induction false} CollectKeepsAcceptedInOrder<A, B, E>(xs: seq<A>, step: A -> Result<Option<B>, E>)
    requires forall j :: 0 <= j < |xs| ==> step(xs[j]).Ok?
    ensures Collect(xs, step).Ok?
    ensures var out := Collect(xs, step).value;
            var ks := KeptIndices(xs, step);
            |out| == |ks| &&
            StrictlyIncreasing(ks) &&
            (forall k :: 0 <= k < |ks| ==> step(xs[ks[k]]) == Ok(Some(out[k]))) &&
            (forall j :: 0 <= j < |xs| ==> (j in ks <==> step(xs[j]).value.Some?))
  {
    if xs != [] {
      var init := xs[..|xs| - 1];
      assert forall j :: 0 <= j < |init| ==> init[j] == xs[j];
      CollectKeepsAcceptedInOrder(init, step);
    }
  }

  /**
   * The load aborts exactly when some item aborts, and then with the error
   * of the first such item.
   */
  lemma {:induction false} CollectAbortsAtFirstFailure<A, B, E>(xs: seq<A>, step: A -> Result<Option<B>, E>, j: nat)
    requires j < |xs| && step(xs[j]).Err?
    requires forall i :: 0 <= i < j ==> step(xs[i]).Ok?
    ensures Collect(xs, step) == Err(step(xs[j]).error)
  {
    var init := xs[..|xs| - 1];
    if j < |xs| - 1 {
      assert init[j] == xs[j];
      assert forall i :: 0 <= i < j ==> init[i] == xs[i];
      CollectAbortsAtFirstFailure(init, step, j);
    } else {
      assert forall i :: 0 <= i < |init| ==> init[i] == xs[i];
      CollectKeepsAcceptedInOrder(init, step);
    }
  }

  /** Once a prefix has aborted, the rest of the items are never looked at. */
  lemma {:induction false} AbortIsFinal<A, B, E>(xs: seq<A>, step: A -> Result<Option<B>, E>, n: nat)
    requires n <= |xs| && Collect(xs[..n], step).Err?
    ensures Collect(xs, step) == Collect(xs[..n], step)
    decreases |xs| - n
  {
    if n < |xs| {
      var longer := xs[..n + 1];
      assert longer[..n] == xs[..n];
      assert Collect(longer, step) == Collect(xs[..n], step);
      assert xs[..n + 1][..n + 1] == xs[..n + 1];
      AbortIsFinal(xs, step, n + 1);
    } else {
      assert xs[..n] == xs;
    }
  }
}
