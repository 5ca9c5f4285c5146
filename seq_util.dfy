/** Sequence helpers shared by the batching and collation models. */
module SeqUtil {

  /** `[0, 1, ..., n-1]`, the positions of an `n`-element list. */
  function Indices(n: nat): (s: seq<nat>)
    ensures |s| == n && forall i :: 0 <= i < n ==> s[i] == i
  {
    seq(n, i => i)
  }

  /** The positions of an `n+1`-element list are those of an `n`-element one, then `n`. */
  lemma IndicesSnoc(n: nat)
    ensures Indices(n + 1) == Indices(n) + [n]
  {
    var a, b := Indices(n + 1), Indices(n) + [n];
    assert |a| == |b|;
    assert forall i :: 0 <= i < |a| ==> a[i] == b[i];
  }

  /** Counting positions: one more element adds exactly the position `n`. */
  lemma IndicesMultisetSnoc(n: nat)
    ensures multiset(Indices(n + 1)) == multiset(Indices(n)) + multiset{n}
  {
    IndicesSnoc(n);
  }
}
