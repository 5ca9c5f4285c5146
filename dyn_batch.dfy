/**
 * `DynBatchDataset`: length-bucketed dynamic batching over the line-file
 * dataset. Each sample (by its pitch-contour frame count) falls into the
 * first tier `i` with `max_lens[i] <= len < max_lens[i+1]`, where
 * `max_lens = [0] + max_lengths`; the tier names a batch size; samples are
 * grouped by batch size (tiers sharing a size share a group), each group is
 * shuffled and cut into consecutive chunks of its batch size.
 *
 * `np.random.shuffle` is modelled as an arbitrary permutation, chosen
 * nondeterministically; the chosen permutations are recorded in a ghost
 * field so that the contracts can speak about them.
 */
module DynBatch {
  import opened Wrappers
  import opened TextDataset
  import opened SeqUtil

  const DefaultMaxLengths: seq<int> := [1000, 1300, 1850, 30000]
  const DefaultBatchSizes: seq<int> := [10, 8, 6, 4]

  datatype ShuffleError =
    | NoTier(sample: nat, length: int)     // `next()` finds no tier: StopIteration
    | NoBatchSize(sample: nat, tier: nat)  // `b_sizes[b_idx]` is out of range: IndexError
    | ZeroBatchSize                        // `range(0, len(ids), 0)`: ValueError

  // ---- tiers ----

  predicate InTier(maxLens: seq<int>, len: int, i: nat)
    requires i + 1 < |maxLens|
  {
    maxLens[i] <= len < maxLens[i + 1]
  }

  /** The first tier at or after `i` that holds `len`. */
  function TierFrom(maxLens: seq<int>, len: int, i: nat): (t: Option<nat>)
    ensures t.Some? ==> i <= t.value && t.value + 1 < |maxLens| && InTier(maxLens, len, t.value) &&
                        forall k :: i <= k < t.value ==> !InTier(maxLens, len, k)
    ensures t.None? ==> forall k :: i <= k && k + 1 < |maxLens| ==> !InTier(maxLens, len, k)
    decreases |maxLens| - i
  {
    if i + 1 >= |maxLens| then None
    else if InTier(maxLens, len, i) then Some(i)
    else TierFrom(maxLens, len, i + 1)
  }

  /** `next(i for i in range(len(max_lens)-1) if max_lens[i] <= len < max_lens[i+1])`. */
  function Tier(maxLens: seq<int>, len: int): (t: Option<nat>)
    ensures t.Some? ==> t.value + 1 < |maxLens| && InTier(maxLens, len, t.value) &&
                        forall k :: 0 <= k < t.value ==> !InTier(maxLens, len, k)
    ensures t.None? <==> forall k :: 0 <= k && k + 1 < |maxLens| ==> !InTier(maxLens, len, k)
  {
    TierFrom(maxLens, len, 0)
  }

  predicate Ascending(s: seq<int>) {
    forall i, j :: 0 <= i < j < |s| ==> s[i] <= s[j]
  }

  /** With ascending bounds the tiers are disjoint, so a length's tier is the unique one holding it. */
  lemma TierIsUnique(maxLens: seq<int>, len: int, i: nat)
    requires Ascending(maxLens) && i + 1 < |maxLens| && InTier(maxLens, len, i)
    ensures Tier(maxLens, len) == Some(i)
  {
  }

  /**
   * With the default configuration every length below 30000 frames has a
   * tier (batch sizes 10, 8, 6, 4 from 0, 1000, 1300 and 1850 frames on),
   * and no longer sample has one.
   */
  lemma DefaultTiers(len: nat)
    ensures var t := Tier([0] + DefaultMaxLengths, len);
            (len < 1000 ==> t == Some(0)) &&
            (1000 <= len < 1300 ==> t == Some(1)) &&
            (1300 <= len < 1850 ==> t == Some(2)) &&
            (1850 <= len < 30000 ==> t == Some(3)) &&
            (len >= 30000 ==> t == None)
  {
    var m := [0] + DefaultMaxLengths;
    assert m == [0, 1000, 1300, 1850, 30000];
    if len < 30000 {
      var i := if len < 1000 then 0 else if len < 1300 then 1 else if len < 1850 then 2 else 3;
      TierIsUnique(m, len, i);
    }
  }

  // ---- assigning batch sizes ----

  /** The frame counts the sampler buckets by: one per sample, from its pitch contour. */
  function Lengths(data: seq<TextEntry>): (lens: seq<int>)
    ensures |lens| == |data| && forall i :: 0 <= i < |data| ==> lens[i] == |data[i].pitch|
  {
    seq(|data|, i requires 0 <= i < |data| => |data[i].pitch|)
  }

  /** A sample of length `len` has a tier, and that tier has a batch size. */
  predicate HasBatchSize(maxLens: seq<int>, bSizes: seq<int>, len: int) {
    Tier(maxLens, len).Some? && Tier(maxLens, len).value < |bSizes|
  }

  /** The batch size of a sample of length `len`: that of its tier. */
  function TierBatchSize(maxLens: seq<int>, bSizes: seq<int>, len: int): int
    requires HasBatchSize(maxLens, bSizes, len)
  {
    bSizes[Tier(maxLens, len).value]
  }

  /**
   * The first loop of `shuffle`: each sample's batch size, or the error of
   * the first sample without one. It succeeds exactly when every sample has
   * a tier with a batch size, and then every sample gets its own tier's size.
   */
  function Assign(lens: seq<int>, maxLens: seq<int>, bSizes: seq<int>): (r: Result<seq<int>, ShuffleError>)
    ensures r.Ok? <==> forall i :: 0 <= i < |lens| ==> HasBatchSize(maxLens, bSizes, lens[i])
    ensures r.Ok? ==> |r.value| == |lens| && forall i :: 0 <= i < |lens| ==> r.value[i] in bSizes
    ensures r.Ok? ==> forall i :: 0 <= i < |lens| ==> r.value[i] == TierBatchSize(maxLens, bSizes, lens[i])
  {
    if lens == [] then Ok([])
    else
      match Assign(lens[..|lens| - 1], maxLens, bSizes)
      case Err(e) => Err(e)
      case Ok(keys) =>
        var n := |lens| - 1;
        match Tier(maxLens, lens[n])
        case None => Err(NoTier(n, lens[n]))
        case Some(t) => if t < |bSizes| then Ok(keys + [bSizes[t]]) else Err(NoBatchSize(n, t))
  }

  /**
   * With the default configuration a sample gets batch size 10 below 1000
   * frames, 8 below 1300, 6 below 1850 and 4 below 30000; a longer one has
   * no tier, so the shuffle fails.
   */
  lemma DefaultBatchSize(len: nat)
    ensures var m := [0] + DefaultMaxLengths;
            (len < 30000 <==> HasBatchSize(m, DefaultBatchSizes, len)) &&
            (len < 1000 ==> TierBatchSize(m, DefaultBatchSizes, len) == 10) &&
            (1000 <= len < 1300 ==> TierBatchSize(m, DefaultBatchSizes, len) == 8) &&
            (1300 <= len < 1850 ==> TierBatchSize(m, DefaultBatchSizes, len) == 6) &&
            (1850 <= len < 30000 ==> TierBatchSize(m, DefaultBatchSizes, len) == 4)
  {
    DefaultTiers(len);
  }

  predicate Distinct(s: seq<int>) {
    forall i, j :: 0 <= i < j < |s| ==> s[i] != s[j]
  }

  /** The position of the first occurrence of `x` in `s`. */
  function FirstIndex(s: seq<int>, x: int): (k: nat)
    requires x in s
    ensures k < |s| && s[k] == x && forall j :: 0 <= j < k ==> s[j] != x
  {
    if s[0] == x then 0 else 1 + FirstIndex(s[1..], x)
  }

  /** Taking more elements does not move a first occurrence that is already there. */
  lemma FirstIndexOfPrefix(s: seq<int>, n: nat, x: int)
    requires n <= |s| && x in s[..n]
    ensures x in s && FirstIndex(s, x) == FirstIndex(s[..n], x)
  {
    var k := FirstIndex(s[..n], x);
    assert s[k] == x;
    var j := FirstIndex(s, x);
    assert j <= k;
    assert s[..n][j] == x;
  }

  /**
   * The keys of `{b: [] for b in b_sizes}` in the dictionary's (insertion)
   * order: each configured size once, ordered by its first occurrence.
   */
  function DistinctKeys(bSizes: seq<int>): (keys: seq<int>)
    ensures Distinct(keys)
    ensures forall b :: b in keys <==> b in bSizes
    ensures forall g :: 0 <= g < |keys| ==> keys[g] in bSizes
    ensures forall g, h :: 0 <= g < h < |keys| ==> FirstIndex(bSizes, keys[g]) < FirstIndex(bSizes, keys[h])
  {
    if bSizes == [] then []
    else
      var n := |bSizes| - 1;
      var keys := DistinctKeys(bSizes[..n]);
      var b := bSizes[n];
      assert forall x :: x in bSizes <==> x in bSizes[..n] || x == b;
      KeysKeepFirstIndex(bSizes, keys);
      if b in keys then keys
      else
        assert FirstIndex(bSizes, b) == n;
        keys + [b]
  }

  /** The first occurrences of keys taken from a prefix are the same in the whole list. */
  lemma KeysKeepFirstIndex(bSizes: seq<int>, keys: seq<int>)
    requires |bSizes| > 0 && forall g :: 0 <= g < |keys| ==> keys[g] in bSizes[..|bSizes| - 1]
    ensures forall g :: 0 <= g < |keys| ==>
              (keys[g] in bSizes &&
               FirstIndex(bSizes, keys[g]) == FirstIndex(bSizes[..|bSizes| - 1], keys[g]) < |bSizes| - 1)
  {
    forall g | 0 <= g < |keys|
      ensures keys[g] in bSizes &&
              FirstIndex(bSizes, keys[g]) == FirstIndex(bSizes[..|bSizes| - 1], keys[g]) < |bSizes| - 1
    {
      FirstIndexOfPrefix(bSizes, |bSizes| - 1, keys[g]);
    }
  }

  /** The samples, in order, whose batch size is `b`: the list `ids_per_bs[b]` after the first loop. */
  function GroupOf(keyOf: seq<int>, b: int): (g: seq<nat>)
    ensures forall j :: 0 <= j < |g| ==> g[j] < |keyOf| && keyOf[g[j]] == b
  {
    if keyOf == [] then []
    else GroupOf(keyOf[..|keyOf| - 1], b) + (if keyOf[|keyOf| - 1] == b then [|keyOf| - 1] else [])
  }

  /** `perms[g]` is a reordering of the group of the `g`-th batch size. */
  ghost predicate IsShuffleOf(perms: seq<seq<nat>>, keyOf: seq<int>, keys: seq<int>) {
    |perms| == |keys| && forall g :: 0 <= g < |keys| ==> multiset(perms[g]) == multiset(GroupOf(keyOf, keys[g]))
  }

  // ---- chunking ----

  /**
   * `[ids[i:i+bs] for i in range(0, len(ids), bs)]`; a negative `bs` makes
   * the range empty.
   */
  function Chunks(s: seq<nat>, bs: int): (r: seq<seq<nat>>)
    requires bs != 0
    ensures bs < 0 ==> r == []
    ensures forall j :: 0 <= j < |r| ==> 0 < |r[j]| <= bs
    decreases |s|
  {
    if bs < 0 || s == [] then []
    else if |s| <= bs then [s]
    else [s[..bs]] + Chunks(s[bs..], bs)
  }

  /** `id_batches` after the second loop: the chunks of every group in dictionary order. */
  function ChunkAll(keys: seq<int>, perms: seq<seq<nat>>): seq<seq<nat>>
    requires |keys| == |perms| && 0 !in keys
  {
    if keys == [] then []
    else ChunkAll(keys[..|keys| - 1], perms[..|perms| - 1]) + Chunks(perms[|perms| - 1], keys[|keys| - 1])
  }

  function Concat(ss: seq<seq<nat>>): seq<nat> {
    if ss == [] then [] else Concat(ss[..|ss| - 1]) + ss[|ss| - 1]
  }

  predicate AllPositive(keys: seq<int>) {
    forall g :: 0 <= g < |keys| ==> keys[g] > 0
  }

  /** The number of pieces of at most `d` that `n` items make: `ceil(n / d)`. */
  function CeilDiv(n: nat, d: int): nat
    requires d > 0
    decreases n
  {
    if n == 0 then 0 else if n <= d then 1 else 1 + CeilDiv(n - d, d)
  }

  /** `CeilDiv` is the ceiling of the quotient: the smallest `c` with `n <= c * d`. */
  lemma {:induction false} CeilDivIsCeiling(n: nat, d: int)
    requires d > 0
    ensures var c := CeilDiv(n, d);
            n <= c * d && (n > 0 ==> (c - 1) * d < n)
    decreases n
  {
    if n > d {
      CeilDivIsCeiling(n - d, d);
      var c' := CeilDiv(n - d, d);
      assert (c' + 1) * d == c' * d + d;
      assert c' * d == (c' - 1) * d + d;
    }
  }

  /** The number of batches a shuffle yields: it does not depend on the permutations. */
  function NumBatches(keyOf: seq<int>, keys: seq<int>): nat
    requires AllPositive(keys)
  {
    if keys == [] then 0
    else NumBatches(keyOf, keys[..|keys| - 1]) + CeilDiv(|GroupOf(keyOf, keys[|keys| - 1])|, keys[|keys| - 1])
  }

  lemma {:induction false} ConcatAppend(a: seq<seq<nat>>, b: seq<seq<nat>>)
    ensures Concat(a + b) == Concat(a) + Concat(b)
    decreases |b|
  {
    if b == [] {
      assert a + b == a;
    } else {
      var ab := a + b;
      assert ab[..|ab| - 1] == a + b[..|b| - 1];
      assert ab[|ab| - 1] == b[|b| - 1];
      ConcatAppend(a, b[..|b| - 1]);
      assert Concat(ab) == Concat(a + b[..|b| - 1]) + b[|b| - 1];
      assert Concat(b) == Concat(b[..|b| - 1]) + b[|b| - 1];
    }
  }

  /** Gluing the chunks back together gives the group. */
  lemma {:induction false} ChunksConcat(s: seq<nat>, bs: int)
    requires bs > 0
    ensures Concat(Chunks(s, bs)) == s
    decreases |s|
  {
    if s == [] {
    } else if |s| <= bs {
      assert Concat([s]) == Concat([]) + s;
    } else {
      ChunksConcat(s[bs..], bs);
      ConcatAppend([s[..bs]], Chunks(s[bs..], bs));
      assert Concat([s[..bs]]) == Concat([]) + s[..bs];
    }
  }

  /** `Chunks` takes at most `bs` samples off the front at a time. */
  lemma ChunksUnfold(s: seq<nat>, bs: int)
    requires bs > 0 && s != []
    ensures var k := if |s| < bs then |s| else bs;
            Chunks(s, bs) == [s[..k]] + Chunks(s[k..], bs)
  {
    if |s| <= bs {
      assert s[..|s|] == s;
      assert s[|s|..] == [];
    }
  }

  /**
   * Every chunk is non-empty and holds at most `bs` samples, every chunk but
   * the last holds exactly `bs`, and there are `ceil(|s| / bs)` of them.
   */
  lemma {:induction false} ChunksShape(s: seq<nat>, bs: int)
    requires bs > 0
    ensures var cs := Chunks(s, bs);
            |cs| == CeilDiv(|s|, bs) &&
            forall k :: 0 <= k < |cs| ==> 0 < |cs[k]| <= bs && (k < |cs| - 1 ==> |cs[k]| == bs)
    decreases |s|
  {
    if |s| > bs {
      ChunksShape(s[bs..], bs);
      var rest := Chunks(s[bs..], bs);
      var cs := Chunks(s, bs);
      assert cs == [s[..bs]] + rest;
      assert forall k :: 1 <= k < |cs| ==> cs[k] == rest[k - 1];
    }
  }

  lemma {:induction false} ChunkAllFlattens(keys: seq<int>, perms: seq<seq<nat>>)
    requires |keys| == |perms| && AllPositive(keys)
    ensures Concat(ChunkAll(keys, perms)) == Concat(perms)
    decreases |keys|
  {
    if keys != [] {
      var m := |keys| - 1;
      ChunkAllFlattens(keys[..m], perms[..m]);
      ConcatAppend(ChunkAll(keys[..m], perms[..m]), Chunks(perms[m], keys[m]));
      ChunksConcat(perms[m], keys[m]);
    }
  }

  lemma ChunkAllSnoc(keys: seq<int>, perms: seq<seq<nat>>, k: int, p: seq<nat>)
    requires |keys| == |perms| && 0 !in keys && k != 0
    ensures 0 !in keys + [k]
    ensures ChunkAll(keys + [k], perms + [p]) == ChunkAll(keys, perms) + Chunks(p, k)
  {
    assert (keys + [k])[..|keys|] == keys && (perms + [p])[..|perms|] == perms;
  }

  /** The union of the groups of the keys `keys`. */
  ghost function GroupsMultiset(keyOf: seq<int>, keys: seq<int>): multiset<nat> {
    if keys == [] then multiset{}
    else GroupsMultiset(keyOf, keys[..|keys| - 1]) + multiset(GroupOf(keyOf, keys[|keys| - 1]))
  }

  /** Adding one sample adds it to exactly the group of its key. */
  lemma {:induction false} GroupsMultisetStep(keyOf: seq<int>, keys: seq<int>)
    requires |keyOf| > 0 && Distinct(keys)
    ensures var n := |keyOf| - 1;
            GroupsMultiset(keyOf, keys) ==
            GroupsMultiset(keyOf[..n], keys) + (if keyOf[n] in keys then multiset{n} else multiset{})
    decreases |keys|
  {
    var n: nat := |keyOf| - 1;
    var prefix := keyOf[..n];
    if keys != [] {
      var m := |keys| - 1;
      var b := keys[m];
      assert Distinct(keys[..m]);
      GroupsMultisetStep(keyOf, keys[..m]);
      var before := GroupsMultiset(prefix, keys[..m]);
      var rest := GroupsMultiset(keyOf, keys[..m]);
      var grown := multiset(GroupOf(keyOf, b));
      var group := multiset(GroupOf(prefix, b));
      assert GroupsMultiset(keyOf, keys) == rest + grown;
      assert GroupsMultiset(prefix, keys) == before + group;
      assert GroupOf(keyOf, b) == GroupOf(prefix, b) + (if keyOf[n] == b then [n] else []);
      if keyOf[n] == b {
        assert keyOf[n] !in keys[..m];
        assert rest == before;
        assert grown == group + multiset{n};
        assert GroupsMultiset(keyOf, keys) == GroupsMultiset(prefix, keys) + multiset{n};
      } else {
        MemberOfInit(keys, keyOf[n]);
        var extra := if keyOf[n] in keys then multiset{n} else multiset{};
        assert rest == before + extra;
        assert grown == group;
        assert GroupsMultiset(keyOf, keys) == GroupsMultiset(prefix, keys) + extra;
      }
    }
  }

  /** A value other than the last element of `s` is in `s` exactly when it is in `s` without its last element. */
  lemma MemberOfInit(s: seq<int>, x: int)
    requires s != [] && x != s[|s| - 1]
    ensures x in s <==> x in s[..|s| - 1]
  {
    assert s == s[..|s| - 1] + [s[|s| - 1]];
  }

  /** When every sample's key is among `keys` (each once), the groups cover every sample exactly once. */
  lemma {:induction false} GroupsCoverIndices(keyOf: seq<int>, keys: seq<int>)
    requires Distinct(keys) && forall i :: 0 <= i < |keyOf| ==> keyOf[i] in keys
    ensures GroupsMultiset(keyOf, keys) == multiset(Indices(|keyOf|))
    decreases |keyOf|
  {
    if keyOf == [] {
      EmptyGroups(keys);
    } else {
      var n: nat := |keyOf| - 1;
      PrefixKeysInKeys(keyOf, keys);
      GroupsCoverIndices(keyOf[..n], keys);
      CoverStep(keyOf, keys);
    }
  }

  /** Every key of a prefix is one of the keys. */
  lemma PrefixKeysInKeys(keyOf: seq<int>, keys: seq<int>)
    requires |keyOf| > 0 && forall i :: 0 <= i < |keyOf| ==> keyOf[i] in keys
    ensures var prefix := keyOf[..|keyOf| - 1];
            forall i :: 0 <= i < |prefix| ==> prefix[i] in keys
  {
    var prefix := keyOf[..|keyOf| - 1];
    assert forall i :: 0 <= i < |prefix| ==> prefix[i] == keyOf[i];
  }

  /** Extending the samples by one whose key is a bucket adds exactly its index to the groups. */
  lemma CoverStep(keyOf: seq<int>, keys: seq<int>)
    requires |keyOf| > 0 && Distinct(keys) && keyOf[|keyOf| - 1] in keys
    requires GroupsMultiset(keyOf[..|keyOf| - 1], keys) == multiset(Indices(|keyOf| - 1))
    ensures GroupsMultiset(keyOf, keys) == multiset(Indices(|keyOf|))
  {
    var n := |keyOf| - 1;
    GroupsMultisetStep(keyOf, keys);
    IndicesMultisetSnoc(n);
  }

  lemma {:induction false} EmptyGroups(keys: seq<int>)
    ensures GroupsMultiset([], keys) == multiset{}
    decreases |keys|
  {
    if keys != [] {
      EmptyGroups(keys[..|keys| - 1]);
    }
  }

  lemma {:induction false} ShuffledGroups(keyOf: seq<int>, keys: seq<int>, perms: seq<seq<nat>>)
    requires IsShuffleOf(perms, keyOf, keys)
    ensures multiset(Concat(perms)) == GroupsMultiset(keyOf, keys)
    decreases |keys|
  {
    if keys != [] {
      var m := |keys| - 1;
      assert IsShuffleOf(perms[..m], keyOf, keys[..m]);
      ShuffledGroups(keyOf, keys[..m], perms[..m]);
      assert Concat(perms) == Concat(perms[..m]) + perms[m];
      assert multiset(Concat(perms)) == multiset(Concat(perms[..m])) + multiset(perms[m]);
      assert multiset(perms[m]) == multiset(GroupOf(keyOf, keys[m]));
    }
  }

  /**
   * After a successful shuffle every sample index appears in exactly one
   * batch, exactly once: the batches, laid end to end, are a permutation of
   * `0 .. len(data)-1`.
   */
  lemma EveryIndexInExactlyOneBatch(keyOf: seq<int>, bSizes: seq<int>, perms: seq<seq<nat>>)
    requires forall b :: b in bSizes ==> b > 0
    requires forall i :: 0 <= i < |keyOf| ==> keyOf[i] in bSizes
    requires IsShuffleOf(perms, keyOf, DistinctKeys(bSizes))
    ensures multiset(Concat(ChunkAll(DistinctKeys(bSizes), perms))) == multiset(Indices(|keyOf|))
  {
    var keys := DistinctKeys(bSizes);
    assert forall g :: 0 <= g < |keys| ==> keys[g] in keys;
    ChunkAllFlattens(keys, perms);
    ShuffledGroups(keyOf, keys, perms);
    GroupsCoverIndices(keyOf, keys);
  }

  /**
   * Every batch is one of its group's chunks, and so holds between one
   * sample and that group's batch size.
   */
  lemma {:induction false} BatchesAreGroupChunks(keys: seq<int>, perms: seq<seq<nat>>)
    requires |keys| == |perms| && AllPositive(keys)
    ensures forall c :: c in ChunkAll(keys, perms) ==>
              exists g :: 0 <= g < |keys| && c in Chunks(perms[g], keys[g]) && 0 < |c| <= keys[g]
    decreases |keys|
  {
    if keys != [] {
      var m := |keys| - 1;
      BatchesAreGroupChunks(keys[..m], perms[..m]);
      ChunksShape(perms[m], keys[m]);
      forall c | c in ChunkAll(keys, perms)
        ensures exists g :: 0 <= g < |keys| && c in Chunks(perms[g], keys[g]) && 0 < |c| <= keys[g]
      {
        if c in ChunkAll(keys[..m], perms[..m]) {
          var g :| 0 <= g < m && c in Chunks(perms[..m][g], keys[..m][g]) && 0 < |c| <= keys[..m][g];
          assert perms[..m][g] == perms[g] && keys[..m][g] == keys[g];
        } else {
          assert c in Chunks(perms[m], keys[m]);
        }
      }
    }
  }

  /** `__len__` after a shuffle depends only on the group sizes, not on the permutations. */
  lemma {:induction false} BatchCount(keyOf: seq<int>, keys: seq<int>, perms: seq<seq<nat>>)
    requires IsShuffleOf(perms, keyOf, keys) && AllPositive(keys)
    ensures |ChunkAll(keys, perms)| == NumBatches(keyOf, keys)
    decreases |keys|
  {
    if keys != [] {
      var m := |keys| - 1;
      assert IsShuffleOf(perms[..m], keyOf, keys[..m]);
      BatchCount(keyOf, keys[..m], perms[..m]);
      ChunksShape(perms[m], keys[m]);
      assert |perms[m]| == |multiset(perms[m])| == |multiset(GroupOf(keyOf, keys[m]))| == |GroupOf(keyOf, keys[m])|;
    }
  }

  /** `ids[i:i+bs] for i in range(0, len(ids), bs)`, for a positive or negative `bs`. */
  method ChunkList(ids: seq<nat>, bs: int) returns (chunks: seq<seq<nat>>)
    requires bs != 0
    ensures chunks == Chunks(ids, bs)
  {
    chunks := [];
    if bs < 0 {
      return;
    }
    var i := 0;
    while i < |ids|
      invariant 0 <= i <= |ids|
      invariant chunks + Chunks(ids[i..], bs) == Chunks(ids, bs)
      decreases |ids| - i
    {
      var stop := if i + bs <= |ids| then i + bs else |ids|;
      ChunksUnfold(ids[i..], bs);
      assert ids[i..][..stop - i] == ids[i..stop];
      assert ids[i..][stop - i..] == ids[stop..];
      var chunk, rest := ids[i..stop], Chunks(ids[stop..], bs);
      assert Chunks(ids[i..], bs) == [chunk] + rest;
      assert chunks + ([chunk] + rest) == (chunks + [chunk]) + rest;
      chunks := chunks + [ids[i..stop]];
      i := stop;
    }
    assert ids[i..] == [];
  }

  /**
   * The first loop of `shuffle`: each sample's index is appended to the list
   * of its tier's batch size. Fails at the first sample without a tier or
   * without a batch size for its tier.
   */
  method GroupByBatchSize(lens: seq<int>, maxLens: seq<int>, bSizes: seq<int>)
    returns (r: Result<map<int, seq<nat>>, ShuffleError>)
    ensures Assign(lens, maxLens, bSizes).Err? ==> r == Err(Assign(lens, maxLens, bSizes).error)
    ensures Assign(lens, maxLens, bSizes).Ok? ==>
              r.Ok? && (forall b :: b in r.value <==> b in bSizes) &&
              forall b :: b in r.value ==> r.value[b] == GroupOf(Assign(lens, maxLens, bSizes).value, b)
  {
    var idsPerBs: map<int, seq<nat>> := map b | b in bSizes :: [];
    ghost var keyOf: seq<int> := [];
    for i := 0 to |lens|
      invariant Assign(lens[..i], maxLens, bSizes) == Ok(keyOf)
      invariant forall b :: b in idsPerBs <==> b in bSizes
      invariant forall b :: b in idsPerBs ==> idsPerBs[b] == GroupOf(keyOf, b)
    {
      assert lens[..i + 1][..i] == lens[..i];
      var t := Tier(maxLens, lens[i]);
      if t.None? {
        AssignFailureIsFinal(lens, maxLens, bSizes, i + 1);
        return Err(NoTier(i, lens[i]));
      }
      if t.value >= |bSizes| {
        AssignFailureIsFinal(lens, maxLens, bSizes, i + 1);
        return Err(NoBatchSize(i, t.value));
      }
      var b := bSizes[t.value];
      assert (keyOf + [b])[..|keyOf|] == keyOf;
      idsPerBs := idsPerBs[b := idsPerBs[b] + [i]];
      keyOf := keyOf + [b];
    }
    assert lens[..|lens|] == lens;
    return Ok(idsPerBs);
  }

  /**
   * The second loop of `shuffle`: in dictionary order, each group is
   * permuted (`np.random.shuffle`) and cut into chunks. A zero batch size
   * makes `range` raise. `perms` records the permutations chosen.
   */
  method BatchGroups(order: seq<int>, idsPerBs: map<int, seq<nat>>)
    returns (r: Option<seq<seq<nat>>>, ghost perms: seq<seq<nat>>)
    requires forall g :: 0 <= g < |order| ==> order[g] in idsPerBs
    ensures r.None? <==> 0 in order
    ensures r.Some? ==> |perms| == |order| &&
                        (forall g :: 0 <= g < |order| ==> multiset(perms[g]) == multiset(idsPerBs[order[g]])) &&
                        r.value == ChunkAll(order, perms)
  {
    var newBatches: seq<seq<nat>> := [];
    perms := [];
    for g := 0 to |order|
      invariant |perms| == g
      invariant forall h :: 0 <= h < g ==> multiset(perms[h]) == multiset(idsPerBs[order[h]])
      invariant 0 !in order[..g]
      invariant newBatches == ChunkAll(order[..g], perms)
    {
      var bs := order[g];
      var ids := idsPerBs[bs];
      if bs == 0 {
        return None, perms;
      }
      // np.random.shuffle(ids): some permutation of the group
      var permuted: seq<nat> :| multiset(permuted) == multiset(ids);
      var chunks := ChunkList(permuted, bs);
      assert order[..g + 1] == order[..g] + [bs];
      ChunkAllSnoc(order[..g], perms, bs, permuted);
      assert forall h :: 0 <= h < g ==> (perms + [permuted])[h] == perms[h];
      newBatches := newBatches + chunks;
      perms := perms + [permuted];
    }
    assert order[..|order|] == order;
    return Some(newBatches), perms;
  }

  class DynBatchDataset {
    /** The samples `_process_textfile` kept. */
    const data: seq<TextEntry>
    /** `[0] + max_lengths`: the tier bounds. */
    const maxLens: seq<int>
    /** The batch size of each tier. */
    const bSizes: seq<int>
    /** The batches of the current epoch, as lists of sample indices. */
    var idBatches: seq<seq<nat>>
    /** The per-group permutations the last successful shuffle chose. */
    ghost var shuffled: seq<seq<nat>>

    /** Every batch indexes existing samples. */
    ghost predicate Valid()
      reads this
    {
      forall b, j :: 0 <= b < |idBatches| && 0 <= j < |idBatches[b]| ==> idBatches[b][j] < |data|
    }

    /** The batches are the chunks of a shuffle of the groups of the current data. */
    ghost predicate Shuffled()
      reads this
    {
      ShuffleOutcome(data, maxLens, bSizes, shuffled, idBatches)
    }

    /** The part of `__init__` before the first shuffle. */
    constructor (data: seq<TextEntry>, maxLengths: seq<int>, batchSizes: seq<int>)
      ensures this.data == data && maxLens == [0] + maxLengths && bSizes == batchSizes
      ensures idBatches == [] && Valid()
    {
      this.data := data;
      maxLens := [0] + maxLengths;
      bSizes := batchSizes;
      idBatches := [];
      shuffled := [];
    }

    /** `__init__`: build the sampler and shuffle once; a failing first shuffle fails construction. */
    static method Create(data: seq<TextEntry>, maxLengths: seq<int>, batchSizes: seq<int>)
      returns (r: Result<DynBatchDataset, ShuffleError>)
      ensures r.Err? <==> Assign(Lengths(data), [0] + maxLengths, batchSizes).Err? || 0 in batchSizes
      ensures r.Ok? ==> fresh(r.value) && r.value.data == data && r.value.maxLens == [0] + maxLengths &&
                        r.value.bSizes == batchSizes && r.value.Valid() && r.value.Shuffled()
    {
      var d := new DynBatchDataset(data, maxLengths, batchSizes);
      var err := d.Shuffle();
      if err.Some? {
        return Err(err.value);
      }
      return Ok(d);
    }

    /**
     * `shuffle`: regroup the samples by batch size, permute each group and
     * cut it into batches. On an error nothing changes: `self.id_batches`
     * is only assigned at the end.
     */
    method Shuffle() returns (err: Option<ShuffleError>)
      requires Valid()
      modifies this
      ensures Valid()
      ensures var a := Assign(Lengths(data), maxLens, bSizes);
              if a.Err? then err == Some(a.error) && idBatches == old(idBatches)
              else if 0 in bSizes then err == Some(ZeroBatchSize) && idBatches == old(idBatches)
              else err.None? && Shuffled()
    {
      var lens := seq(|data|, i requires 0 <= i < |data| => |data[i].pitch|);
      assert lens == Lengths(data);
      var grouped := GroupByBatchSize(lens, maxLens, bSizes);
      if grouped.Err? {
        return Some(grouped.error);
      }
      var order := DistinctKeys(bSizes);
      assert forall g :: 0 <= g < |order| ==> order[g] in grouped.value;
      var batches, perms := BatchGroups(order, grouped.value);
      if batches.None? {
        return Some(ZeroBatchSize);
      }
      ghost var keyOf := Assign(lens, maxLens, bSizes).value;
      assert IsShuffleOf(perms, keyOf, order);
      ShuffledBatchesIndexData(keyOf, bSizes, perms);
      idBatches := batches.value;
      shuffled := perms;
      return None;
    }

    /**
     * With positive batch sizes, a shuffled sampler's batches together hold
     * every sample index exactly once.
     */
    lemma PartitionsSamples()
      requires Shuffled() && forall b :: b in bSizes ==> b > 0
      ensures multiset(Concat(idBatches)) == multiset(Indices(|data|))
    {
      var keyOf := Assign(Lengths(data), maxLens, bSizes).value;
      EveryIndexInExactlyOneBatch(keyOf, bSizes, shuffled);
    }

    /** `__len__`: the number of batches; after a shuffle it is fixed by the group sizes alone. */
    function Length(): (n: nat)
      reads this
      ensures Shuffled() ==>
                var a := Assign(Lengths(data), maxLens, bSizes);
                (forall b :: b in bSizes ==> b > 0) ==> n == NumBatches(a.value, DistinctKeys(bSizes))
    {
      ShuffleOutcomeLength(data, maxLens, bSizes, shuffled, idBatches);
      |idBatches|
    }

    /**
     * `__getitem__`: the samples of batch `idx` (Python indexing, so negative
     * indices count from the end); an index out of range raises IndexError.
     * The samples are the entries the parent dataset's loader reads.
     */
    method GetItem(idx: int) returns (r: Option<seq<TextEntry>>)
      requires Valid()
      ensures r.None? <==> !(-|idBatches| <= idx < |idBatches|)
      ensures r.Some? ==> var ids := idBatches[if idx < 0 then idx + |idBatches| else idx];
                          |r.value| == |ids| && forall k :: 0 <= k < |ids| ==> r.value[k] == data[ids[k]]
    {
      if !(-|idBatches| <= idx < |idBatches|) {
        return None;
      }
      var ids := idBatches[if idx < 0 then idx + |idBatches| else idx];
      var batch: seq<TextEntry> := [];
      for k := 0 to |ids|
        invariant |batch| == k && forall m :: 0 <= m < k ==> batch[m] == data[ids[m]]
      {
        batch := batch + [data[ids[k]]];
      }
      return Some(batch);
    }
  }

  /** Once a prefix of the samples fails to get a batch size, so does the whole list, with the same error. */
  lemma {:induction false} AssignFailureIsFinal(lens: seq<int>, maxLens: seq<int>, bSizes: seq<int>, n: nat)
    requires n <= |lens| && Assign(lens[..n], maxLens, bSizes).Err?
    ensures Assign(lens, maxLens, bSizes) == Assign(lens[..n], maxLens, bSizes)
    decreases |lens| - n
  {
    if n < |lens| {
      assert lens[..n + 1][..n] == lens[..n];
      AssignFailureIsFinal(lens, maxLens, bSizes, n + 1);
    } else {
      assert lens[..n] == lens;
    }
  }

  /** `batches` are the chunks of the permutations `perms` of the groups of `data`'s samples. */
  ghost predicate ShuffleOutcome(data: seq<TextEntry>, maxLens: seq<int>, bSizes: seq<int>,
                                 perms: seq<seq<nat>>, batches: seq<seq<nat>>)
  {
    var a := Assign(Lengths(data), maxLens, bSizes);
    a.Ok? && 0 !in bSizes &&
    IsShuffleOf(perms, a.value, DistinctKeys(bSizes)) &&
    batches == ChunkAll(DistinctKeys(bSizes), perms)
  }

  lemma ShuffleOutcomeLength(data: seq<TextEntry>, maxLens: seq<int>, bSizes: seq<int>,
                             perms: seq<seq<nat>>, batches: seq<seq<nat>>)
    ensures ShuffleOutcome(data, maxLens, bSizes, perms, batches) && (forall b :: b in bSizes ==> b > 0) ==>
              |batches| == NumBatches(Assign(Lengths(data), maxLens, bSizes).value, DistinctKeys(bSizes))
  {
    if ShuffleOutcome(data, maxLens, bSizes, perms, batches) && (forall b :: b in bSizes ==> b > 0) {
      BatchCount(Assign(Lengths(data), maxLens, bSizes).value, DistinctKeys(bSizes), perms);
    }
  }

  /** Every sample index in a chunk comes from the chunked list. */
  lemma {:induction false} ChunkElements(s: seq<nat>, bs: int)
    requires bs != 0
    ensures forall c, x :: c in Chunks(s, bs) && x in c ==> x in s
    decreases |s|
  {
    if bs > 0 && |s| > bs {
      ChunkElements(s[bs..], bs);
    }
  }

  lemma {:induction false} ChunkAllElements(keys: seq<int>, perms: seq<seq<nat>>)
    requires |keys| == |perms| && 0 !in keys
    ensures forall c, x :: c in ChunkAll(keys, perms) && x in c ==> exists g :: 0 <= g < |keys| && x in perms[g]
    decreases |keys|
  {
    if keys != [] {
      var m := |keys| - 1;
      ChunkAllElements(keys[..m], perms[..m]);
      ChunkElements(perms[m], keys[m]);
      forall c, x | c in ChunkAll(keys, perms) && x in c
        ensures exists g :: 0 <= g < |keys| && x in perms[g]
      {
        if c in ChunkAll(keys[..m], perms[..m]) {
          var g :| 0 <= g < m && x in perms[..m][g];
          assert perms[..m][g] == perms[g];
        } else {
          assert x in perms[m];
        }
      }
    }
  }

  /** Every index in the batches of a shuffle is a sample index. */
  lemma ShuffledBatchesIndexData(keyOf: seq<int>, bSizes: seq<int>, perms: seq<seq<nat>>)
    requires 0 !in bSizes
    requires IsShuffleOf(perms, keyOf, DistinctKeys(bSizes))
    ensures var batches := ChunkAll(DistinctKeys(bSizes), perms);
            forall b, j :: 0 <= b < |batches| && 0 <= j < |batches[b]| ==> batches[b][j] < |keyOf|
  {
    var keys := DistinctKeys(bSizes);
    var batches := ChunkAll(keys, perms);
    ChunkAllElements(keys, perms);
    forall b, j | 0 <= b < |batches| && 0 <= j < |batches[b]|
      ensures batches[b][j] < |keyOf|
    {
      var x := batches[b][j];
      assert batches[b] in batches && x in batches[b];
      var g :| 0 <= g < |keys| && x in perms[g];
      assert x in multiset(perms[g]);
      assert x in multiset(GroupOf(keyOf, keys[g]));
      var group := GroupOf(keyOf, keys[g]);
      var k :| 0 <= k < |group| && group[k] == x;
    }
  }
}
