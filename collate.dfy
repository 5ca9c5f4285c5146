/**
 * `text_mel_collate_fn`: sorts a batch of (token ids, mel spectrogram)
 * pairs by token count, longest first, and packs them into zero-padded
 * tensors together with a "gate" (stop-token) target and the lengths.
 */
module Collate {
  import opened Wrappers
  import opened SeqUtil

  /**
   * A mel spectrogram tensor. `dims` is its number of dimensions; when it
   * is 2 the tensor has `|channels|` rows (mel bins) of `frames` values.
   * For any other rank only `dims` matters: the batch is rejected.
   */
  datatype Mel = Mel(dims: nat, channels: seq<seq<real>>, frames: nat)

  /** A two-dimensional tensor is rectangular. */
  predicate WellFormed(m: Mel)
  {
    m.dims == 2 ==> forall k :: 0 <= k < |m.channels| ==> |m.channels[k]| == m.frames
  }

  datatype Sample = Sample(textIds: seq<int>, mel: Mel)

  datatype CollateError =
    | EmptyBatch                           // `input_lens_sorted[0]` on an empty batch
    | BadMelDim(index: nat, dims: nat)     // the ValueError of the rank check
    | MelShapeMismatch                     // a mel that cannot be copied into `mel_pad`

  /** The five tensors returned, in order. */
  datatype Padded = Padded(
    textIds: array2<int>,
    inputLengths: seq<nat>,
    mel: array3<real>,
    gate: array2<real>,
    outputLengths: array<int>)

  function TextLengths(batch: seq<Sample>): (lens: seq<nat>)
    ensures |lens| == |batch| && forall i :: 0 <= i < |batch| ==> lens[i] == |batch[i].textIds|
  {
    seq(|batch|, i requires 0 <= i < |batch| => |batch[i].textIds|)
  }

  function FrameCounts(batch: seq<Sample>): (counts: seq<nat>)
    ensures |counts| == |batch| && forall i :: 0 <= i < |batch| ==> counts[i] == batch[i].mel.frames
  {
    seq(|batch|, i requires 0 <= i < |batch| => batch[i].mel.frames)
  }

  /** Python's `max` over a non-empty list. */
  function MaxOf(xs: seq<nat>): (m: nat)
    requires |xs| > 0
    ensures forall i :: 0 <= i < |xs| ==> xs[i] <= m
    ensures exists i :: 0 <= i < |xs| && xs[i] == m
  {
    if |xs| == 1 then xs[0]
    else
      var rest := MaxOf(xs[1..]);
      if xs[0] >= rest then xs[0] else rest
  }

  // ---------------------------------------------------------------------
  // Sorting by length
  // ---------------------------------------------------------------------

  /** `order` lists every position of `lens` exactly once. */
  predicate IsPermutation(order: seq<nat>, n: nat)
  {
    |order| == n && multiset(order) == multiset(Indices(n))
  }

  /** `order` visits positions of `lens` with non-increasing values. */
  predicate Descending(lens: seq<nat>, order: seq<nat>)
  {
    (forall i :: 0 <= i < |order| ==> order[i] < |lens|)
    && forall i, j :: 0 <= i < j < |order| ==> lens[order[i]] >= lens[order[j]]
  }

  lemma PermutationCovers(order: seq<nat>, n: nat, j: nat)
    requires IsPermutation(order, n) && j < n
    ensures exists i :: 0 <= i < |order| && order[i] == j
  {
    assert Indices(n)[j] == j;
    assert j in multiset(Indices(n));
    assert j in multiset(order);
  }

  /** Position in a longest-first `order` before which `v` goes, after its equals. */
  method FindSlot(lens: seq<nat>, order: seq<nat>, v: nat) returns (p: nat)
    requires Descending(lens, order)
    ensures p <= |order|
    ensures forall k :: 0 <= k < p ==> lens[order[k]] >= v
    ensures forall k :: p <= k < |order| ==> lens[order[k]] < v
  {
    p := 0;
    while p < |order| && lens[order[p]] >= v
      invariant p <= |order|
      invariant forall k :: 0 <= k < p ==> lens[order[k]] >= v
    {
      p := p + 1;
    }
  }

  lemma InsertKeepsDescending(lens: seq<nat>, order: seq<nat>, p: nat, i: nat)
    requires Descending(lens, order) && i < |lens| && p <= |order|
    requires forall k :: 0 <= k < p ==> lens[order[k]] >= lens[i]
    requires forall k :: p <= k < |order| ==> lens[order[k]] < lens[i]
    ensures Descending(lens, order[..p] + [i] + order[p..])
  {
  }

  lemma InsertExtendsPermutation(order: seq<nat>, p: nat, i: nat)
    requires IsPermutation(order, i) && p <= |order|
    ensures IsPermutation(order[..p] + [i] + order[p..], i + 1)
  {
    assert order[..p] + order[p..] == order;
    IndicesMultisetSnoc(i);
  }

  /**
   * `torch.sort(lens, descending=True)`: the returned permutation lists
   * the positions longest first. Ties may come out in any order in the
   * original; this model keeps them in input order.
   */
  method ArgSortDescending(lens: seq<nat>) returns (order: seq<nat>)
    ensures IsPermutation(order, |lens|)
    ensures Descending(lens, order)
  {
    order := [];
    for i := 0 to |lens|
      invariant IsPermutation(order, i)
      invariant Descending(lens, order)
    {
      var p := FindSlot(lens, order, lens[i]);
      InsertKeepsDescending(lens, order, p, i);
      InsertExtendsPermutation(order, p, i);
      order := order[..p] + [i] + order[p..];
    }
  }

  /** The head of a longest-first order carries the maximum length. */
  lemma SortedHeadIsMax(lens: seq<nat>, order: seq<nat>)
    requires |lens| > 0 && IsPermutation(order, |lens|) && Descending(lens, order)
    ensures lens[order[0]] == MaxOf(lens)
  {
    var m := MaxOf(lens);
    var j :| 0 <= j < |lens| && lens[j] == m;
    PermutationCovers(order, |lens|, j);
    var i :| 0 <= i < |order| && order[i] == j;
    assert i == 0 || lens[order[0]] >= lens[order[i]];
  }

  // ---------------------------------------------------------------------
  // Rank and shape checks
  // ---------------------------------------------------------------------

  predicate AllTwoDim(batch: seq<Sample>)
  {
    forall i :: 0 <= i < |batch| ==> batch[i].mel.dims == 2
  }

  /**
   * `mel_pad[i, :, :T] = mel` copies a (C, T) tensor into a (numMels, T)
   * slot: it needs the row counts to agree, or a single row that
   * broadcasts to every mel bin.
   */
  predicate Broadcastable(m: Mel, numMels: nat)
  {
    |m.channels| == numMels || |m.channels| == 1
  }

  predicate AllBroadcastable(batch: seq<Sample>)
    requires |batch| > 0
  {
    forall i :: 0 <= i < |batch| ==> Broadcastable(batch[i].mel, |batch[0].mel.channels|)
  }

  /** The rank check loop: the first sample whose mel is not 2-D, if any. */
  method FindBadDim(batch: seq<Sample>) returns (bad: Option<nat>)
    ensures bad.None? <==> AllTwoDim(batch)
    ensures bad.Some? ==>
      && bad.value < |batch| && batch[bad.value].mel.dims != 2
      && forall k :: 0 <= k < bad.value ==> batch[k].mel.dims == 2
  {
    for i := 0 to |batch|
      invariant forall k :: 0 <= k < i ==> batch[k].mel.dims == 2
    {
      if batch[i].mel.dims != 2 {
        return Some(i);
      }
    }
    return None;
  }

  // ---------------------------------------------------------------------
  // Cell values of the padded tensors
  // ---------------------------------------------------------------------

  /** `text_ids_pad[i, c]` for a row holding `ids`. */
  function TextCell(ids: seq<int>, c: nat): int
  {
    if c < |ids| then ids[c] else 0
  }

  /** Value of bin `k`, frame `c` of `m`, broadcasting a single row. */
  function MelValue(m: Mel, k: nat, c: nat): real
    requires WellFormed(m) && m.dims == 2
    requires |m.channels| == 1 || k < |m.channels|
    requires c < m.frames
  {
    m.channels[if |m.channels| == 1 then 0 else k][c]
  }

  /** `mel_pad[i, k, c]` for a row holding `m`. */
  function MelCell(m: Mel, k: nat, c: nat, padValue: real): real
    requires WellFormed(m) && m.dims == 2
    requires |m.channels| == 1 || k < |m.channels|
  {
    if c < m.frames then MelValue(m, k, c) else padValue
  }

  /** Where Python's slice `[k:]` starts on a sequence of length `n`. */
  function SliceStart(k: int, n: nat): (s: nat)
    ensures s <= n
    ensures 0 <= k <= n ==> s == k
    ensures k < 0 && -k <= n ==> s == n + k
    ensures k < -(n as int) ==> s == 0
    ensures k > n ==> s == n
  {
    if k >= 0 then (if k <= n then k else n)
    else if n + k >= 0 then n + k else 0
  }

  /**
   * `gate_pad[i, c]` after `gate_pad[i, frames-1:] = 1` on a row of width
   * `maxT`: ones from the last frame of the clip onwards; for a clip with
   * no frames the slice `[-1:]` marks only the last column.
   */
  function GateCell(frames: nat, maxT: nat, c: nat): (g: real)
    requires frames <= maxT && c < maxT
    ensures g == 0.0 || g == 1.0
    ensures frames >= 1 ==> (g == 1.0 <==> c >= frames - 1)
    ensures frames == 0 ==> (g == 1.0 <==> c == maxT - 1)
  {
    if c >= SliceStart(frames - 1, maxT) then 1.0 else 0.0
  }

  // ---------------------------------------------------------------------
  // Row writers
  // ---------------------------------------------------------------------

  /** `text_ids_pad[i, :len(ids)] = ids` */
  method FillTextRow(a: array2<int>, i: nat, ids: seq<int>)
    requires i < a.Length0 && |ids| <= a.Length1
    modifies a
    ensures forall r, c :: 0 <= r < a.Length0 && 0 <= c < a.Length1 ==>
      a[r, c] == (if r == i && c < |ids| then ids[c] else old(a[r, c]))
  {
    for c := 0 to |ids|
      invariant forall r, c' :: 0 <= r < a.Length0 && 0 <= c' < a.Length1 ==>
        a[r, c'] == (if r == i && c' < c then ids[c'] else old(a[r, c']))
    {
      a[i, c] := ids[c];
    }
  }

  /** `mel_pad[i, k, :len(row)] = row` for one mel bin `k`. */
  method FillMelBin(a: array3<real>, i: nat, k: nat, row: seq<real>)
    requires i < a.Length0 && k < a.Length1 && |row| <= a.Length2
    modifies a
    ensures forall r, b, c :: 0 <= r < a.Length0 && 0 <= b < a.Length1 && 0 <= c < a.Length2 ==>
      a[r, b, c] == (if r == i && b == k && c < |row| then row[c] else old(a[r, b, c]))
  {
    for c := 0 to |row|
      invariant forall r, b, c' :: 0 <= r < a.Length0 && 0 <= b < a.Length1 && 0 <= c' < a.Length2 ==>
        a[r, b, c'] == (if r == i && b == k && c' < c then row[c'] else old(a[r, b, c']))
    {
      a[i, k, c] := row[c];
    }
  }

  /** `mel_pad[i, :, :m.frames] = m`, broadcasting a single-row mel. */
  method FillMelRow(a: array3<real>, i: nat, m: Mel)
    requires WellFormed(m) && m.dims == 2 && Broadcastable(m, a.Length1)
    requires i < a.Length0 && m.frames <= a.Length2
    modifies a
    ensures forall r, b, c :: 0 <= r < a.Length0 && 0 <= b < a.Length1 && 0 <= c < a.Length2 ==>
      a[r, b, c] == (if r == i && c < m.frames then MelValue(m, b, c) else old(a[r, b, c]))
  {
    for k := 0 to a.Length1
      invariant forall r, b, c :: 0 <= r < a.Length0 && 0 <= b < a.Length1 && 0 <= c < a.Length2 ==>
        a[r, b, c] == (if r == i && b < k && c < m.frames then MelValue(m, b, c) else old(a[r, b, c]))
    {
      var row := m.channels[if |m.channels| == 1 then 0 else k];
      FillMelBin(a, i, k, row);
    }
  }

  /** `gate_pad[i, start:] = 1` */
  method FillGateRow(a: array2<real>, i: nat, start: nat)
    requires i < a.Length0 && start <= a.Length1
    modifies a
    ensures forall r, c :: 0 <= r < a.Length0 && 0 <= c < a.Length1 ==>
      a[r, c] == (if r == i && c >= start then 1.0 else old(a[r, c]))
  {
    for c := start to a.Length1
      invariant forall r, c' :: 0 <= r < a.Length0 && 0 <= c' < a.Length1 ==>
        a[r, c'] == (if r == i && start <= c' < c then 1.0 else old(a[r, c']))
    {
      a[i, c] := 1.0;
    }
  }

  // ---------------------------------------------------------------------
  // The collate function
  // ---------------------------------------------------------------------

  predicate AllWellFormed(batch: seq<Sample>)
  {
    forall i :: 0 <= i < |batch| ==> WellFormed(batch[i].mel)
  }

  /**
   * `p` is what `text_mel_collate_fn` returns for `batch` when row `i` of
   * every tensor holds sample `order[i]`: token ids zero-padded to the
   * longest text, mels padded with `padValue` to the longest clip, the
   * gate set from each clip's last frame on, and both length vectors.
   */
  ghost predicate PaddedAs(batch: seq<Sample>, order: seq<nat>, padValue: real, p: Padded)
    reads p.textIds, p.mel, p.gate, p.outputLengths
  {
    && |batch| > 0 && AllWellFormed(batch) && AllTwoDim(batch) && AllBroadcastable(batch)
    && IsPermutation(order, |batch|) && Descending(TextLengths(batch), order)
    && p.inputLengths == seq(|batch|, i requires 0 <= i < |batch| => |batch[order[i]].textIds|)
    && p.textIds.Length0 == |batch| && p.textIds.Length1 == MaxOf(TextLengths(batch))
    && p.mel.Length0 == |batch| && p.mel.Length1 == |batch[0].mel.channels|
    && p.mel.Length2 == MaxOf(FrameCounts(batch))
    && p.gate.Length0 == |batch| && p.gate.Length1 == MaxOf(FrameCounts(batch))
    && p.outputLengths.Length == |batch|
    && (forall i, c :: 0 <= i < |batch| && 0 <= c < p.textIds.Length1 ==>
          p.textIds[i, c] == TextCell(batch[order[i]].textIds, c))
    && (forall i, k, c :: 0 <= i < |batch| && 0 <= k < p.mel.Length1 && 0 <= c < p.mel.Length2 ==>
          p.mel[i, k, c] == MelCell(batch[order[i]].mel, k, c, padValue))
    && (forall i, c :: 0 <= i < |batch| && 0 <= c < p.gate.Length1 ==>
          p.gate[i, c] == GateCell(batch[order[i]].mel.frames, p.gate.Length1, c))
    && (forall i :: 0 <= i < |batch| ==> p.outputLengths[i] == batch[order[i]].mel.frames)
  }

  /** `order` is a list of positions of `batch`, one per sample. */
  predicate InRange(batch: seq<Sample>, order: seq<nat>)
  {
    |order| == |batch| && forall q :: 0 <= q < |order| ==> order[q] < |batch|
  }

  /** Rows before `i` of `a` hold their token ids; the others are zero. */
  ghost predicate TextRows(batch: seq<Sample>, order: seq<nat>, a: array2<int>, i: nat)
    requires InRange(batch, order)
    reads a
  {
    forall q, c :: 0 <= q < |order| && 0 <= c < a.Length1 && q < a.Length0 ==>
      a[q, c] == (if q < i then TextCell(batch[order[q]].textIds, c) else 0)
  }

  /** Rows before `i` of `a` hold their mel; the others are all `padValue`. */
  ghost predicate MelRows(batch: seq<Sample>, order: seq<nat>, padValue: real, a: array3<real>, i: nat)
    requires InRange(batch, order) && AllWellFormed(batch) && AllTwoDim(batch)
    reads a
  {
    (forall q :: 0 <= q < i && q < |order| ==> Broadcastable(batch[order[q]].mel, a.Length1))
    && forall q, k, c :: 0 <= q < |order| && q < a.Length0 && 0 <= k < a.Length1 && 0 <= c < a.Length2 ==>
      (q < i ==> Broadcastable(batch[order[q]].mel, a.Length1)
                 && a[q, k, c] == MelCell(batch[order[q]].mel, k, c, padValue))
      && (q >= i ==> a[q, k, c] == padValue)
  }

  /** Rows before `i` of `a` hold their gate; the others are zero. */
  ghost predicate GateRows(batch: seq<Sample>, order: seq<nat>, a: array2<real>, i: nat)
    requires InRange(batch, order)
    requires forall q :: 0 <= q < |batch| ==> batch[q].mel.frames <= a.Length1
    reads a
  {
    forall q, c :: 0 <= q < |order| && q < a.Length0 && 0 <= c < a.Length1 ==>
      a[q, c] == (if q < i then GateCell(batch[order[q]].mel.frames, a.Length1, c) else 0.0)
  }

  /** The first `i` output lengths are those of their clips. */
  ghost predicate LengthRows(batch: seq<Sample>, order: seq<nat>, a: array<int>, i: nat)
    requires InRange(batch, order)
    reads a
  {
    forall q :: 0 <= q < i && q < |order| && q < a.Length ==> a[q] == batch[order[q]].mel.frames
  }

  /** One iteration of the copy loop, for a sample whose mel fits. */
  method CopyRow(batch: seq<Sample>, order: seq<nat>, padValue: real, i: nat,
                 textPad: array2<int>, melPad: array3<real>, gatePad: array2<real>, outputLengths: array<int>)
    requires InRange(batch, order) && AllWellFormed(batch) && AllTwoDim(batch) && i < |batch|
    requires textPad.Length0 == melPad.Length0 == gatePad.Length0 == outputLengths.Length == |batch|
    requires |batch[order[i]].textIds| <= textPad.Length1
    requires gatePad.Length1 == melPad.Length2
    requires forall q :: 0 <= q < |batch| ==> batch[q].mel.frames <= melPad.Length2
    requires Broadcastable(batch[order[i]].mel, melPad.Length1)
    requires TextRows(batch, order, textPad, i) && MelRows(batch, order, padValue, melPad, i)
    requires GateRows(batch, order, gatePad, i) && LengthRows(batch, order, outputLengths, i)
    modifies textPad, melPad, gatePad, outputLengths
    ensures TextRows(batch, order, textPad, i + 1) && MelRows(batch, order, padValue, melPad, i + 1)
    ensures GateRows(batch, order, gatePad, i + 1) && LengthRows(batch, order, outputLengths, i + 1)
  {
    var sample := batch[order[i]];
    FillTextRow(textPad, i, sample.textIds);
    FillMelRow(melPad, i, sample.mel);
    FillGateRow(gatePad, i, SliceStart(sample.mel.frames - 1, gatePad.Length1));
    outputLengths[i] := sample.mel.frames;
  }

  /**
   * The copy loop over freshly initialised tensors: row `i` receives
   * sample `order[i]`. Answers false, leaving the copy unfinished, at the
   * first mel whose row count can neither match nor broadcast to that of
   * `batch[0]`.
   */
  method CopyRows(batch: seq<Sample>, order: seq<nat>, padValue: real,
                  textPad: array2<int>, melPad: array3<real>, gatePad: array2<real>, outputLengths: array<int>)
    returns (ok: bool)
    requires |batch| > 0 && AllWellFormed(batch) && AllTwoDim(batch)
    requires IsPermutation(order, |batch|) && Descending(TextLengths(batch), order)
    requires textPad.Length0 == |batch| && textPad.Length1 == MaxOf(TextLengths(batch))
    requires melPad.Length0 == |batch| && melPad.Length1 == |batch[0].mel.channels|
    requires melPad.Length2 == MaxOf(FrameCounts(batch))
    requires gatePad.Length0 == |batch| && gatePad.Length1 == MaxOf(FrameCounts(batch))
    requires outputLengths.Length == |batch|
    requires forall q, c :: 0 <= q < textPad.Length0 && 0 <= c < textPad.Length1 ==> textPad[q, c] == 0
    requires forall q, k, c :: 0 <= q < melPad.Length0 && 0 <= k < melPad.Length1 && 0 <= c < melPad.Length2 ==>
      melPad[q, k, c] == padValue
    requires forall q, c :: 0 <= q < gatePad.Length0 && 0 <= c < gatePad.Length1 ==> gatePad[q, c] == 0.0
    modifies textPad, melPad, gatePad, outputLengths
    ensures ok <==> AllBroadcastable(batch)
    ensures ok ==> forall q, c :: 0 <= q < textPad.Length0 && 0 <= c < textPad.Length1 ==>
      textPad[q, c] == TextCell(batch[order[q]].textIds, c)
    ensures ok ==> forall q, k, c :: 0 <= q < melPad.Length0 && 0 <= k < melPad.Length1 && 0 <= c < melPad.Length2 ==>
      melPad[q, k, c] == MelCell(batch[order[q]].mel, k, c, padValue)
    ensures ok ==> forall q, c :: 0 <= q < gatePad.Length0 && 0 <= c < gatePad.Length1 ==>
      gatePad[q, c] == GateCell(batch[order[q]].mel.frames, gatePad.Length1, c)
    ensures ok ==> forall q :: 0 <= q < outputLengths.Length ==> outputLengths[q] == batch[order[q]].mel.frames
  {
    var n := |batch|;
    var lens := TextLengths(batch);
    SortedHeadIsMax(lens, order);
    var numMels := melPad.Length1;
    assert forall q :: 0 <= q < n ==> batch[q].mel.frames <= melPad.Length2 by {
      assert forall q :: 0 <= q < n ==> FrameCounts(batch)[q] == batch[q].mel.frames;
    }
    for i := 0 to n
      invariant TextRows(batch, order, textPad, i) && MelRows(batch, order, padValue, melPad, i)
      invariant GateRows(batch, order, gatePad, i) && LengthRows(batch, order, outputLengths, i)
    {
      if !Broadcastable(batch[order[i]].mel, numMels) {
        return false;
      }
      assert i == 0 || lens[order[0]] >= lens[order[i]];
      CopyRow(batch, order, padValue, i, textPad, melPad, gatePad, outputLengths);
    }
    forall j | 0 <= j < n
      ensures Broadcastable(batch[j].mel, numMels)
    {
      PermutationCovers(order, n, j);
    }
    return true;
  }

  /**
   * Allocation and the copy, for a non-empty batch of 2-D mels already
   * sorted into `order`.
   */
  method PadSorted(batch: seq<Sample>, order: seq<nat>, padValue: real) returns (r: Result<Padded, CollateError>)
    requires |batch| > 0 && AllWellFormed(batch) && AllTwoDim(batch)
    requires IsPermutation(order, |batch|) && Descending(TextLengths(batch), order)
    ensures r.Err? <==> !AllBroadcastable(batch)
    ensures r.Err? ==> r.error == MelShapeMismatch
    ensures r.Ok? ==> PaddedAs(batch, order, padValue, r.value)
  {
    var n := |batch|;
    var lens := TextLengths(batch);
    var inputLengths := seq(n, i requires 0 <= i < n => lens[order[i]]);
    SortedHeadIsMax(lens, order);
    var maxIn := inputLengths[0];
    var numMels := |batch[0].mel.channels|;
    var maxT := MaxOf(FrameCounts(batch));

    var textPad := new int[n, maxIn]((_, _) => 0);
    var melPad := new real[n, numMels, maxT]((_, _, _) => padValue);
    var gatePad := new real[n, maxT]((_, _) => 0.0);
    var outputLengths := new int[n];
    var ok := CopyRows(batch, order, padValue, textPad, melPad, gatePad, outputLengths);
    if !ok {
      return Err(MelShapeMismatch);
    }
    r := Ok(Padded(textPad, inputLengths, melPad, gatePad, outputLengths));
  }

  /**
   * `text_mel_collate_fn(batch, pad_value)`. `order` is the permutation
   * `input_sort_ids` that the sort chose: row `i` of every output tensor
   * holds sample `order[i]`. Errors come in the order the original
   * raises them: empty batch, then the rank check, then the copy.
   */
  method CollateBatch(batch: seq<Sample>, padValue: real) returns (r: Result<Padded, CollateError>, order: seq<nat>)
    requires AllWellFormed(batch)
    ensures IsPermutation(order, |batch|) && Descending(TextLengths(batch), order)
    ensures r == Err(EmptyBatch) <==> |batch| == 0
    ensures r.Err? && r.error.BadMelDim? <==> |batch| > 0 && !AllTwoDim(batch)
    ensures r.Err? && r.error.BadMelDim? ==>
      && r.error.index < |batch| && r.error.dims == batch[r.error.index].mel.dims != 2
      && forall k :: 0 <= k < r.error.index ==> batch[k].mel.dims == 2
    ensures r == Err(MelShapeMismatch) <==> |batch| > 0 && AllTwoDim(batch) && !AllBroadcastable(batch)
    ensures r.Ok? ==> PaddedAs(batch, order, padValue, r.value)
  {
    order := ArgSortDescending(TextLengths(batch));
    if |batch| == 0 {
      return Err(EmptyBatch), order;
    }
    var bad := FindBadDim(batch);
    if bad.Some? {
      return Err(BadMelDim(bad.value, batch[bad.value].mel.dims)), order;
    }
    r := PadSorted(batch, order, padValue);
  }

  // ---------------------------------------------------------------------
  // Properties of the result
  // ---------------------------------------------------------------------

  /** The values of `lens` at the positions `o`, in that order. */
  function Pick(lens: seq<nat>, o: seq<nat>): (r: seq<nat>)
    requires forall q :: 0 <= q < |o| ==> o[q] < |lens|
    ensures |r| == |o| && forall q :: 0 <= q < |o| ==> r[q] == lens[o[q]]
  {
    if o == [] then [] else [lens[o[0]]] + Pick(lens, o[1..])
  }

  /** `o` with its element at position `j` taken out. */
  function Without(o: seq<nat>, j: nat): (r: seq<nat>)
    requires j < |o|
    ensures |r| == |o| - 1
    ensures forall q :: 0 <= q < |r| ==> r[q] == (if q < j then o[q] else o[q + 1])
  {
    o[..j] + o[j + 1..]
  }

  lemma WithoutMultiset(o: seq<nat>, j: nat)
    requires j < |o|
    ensures multiset(Without(o, j)) + multiset{o[j]} == multiset(o)
  {
    assert o == o[..j] + [o[j]] + o[j + 1..];
  }

  lemma PickWithout(lens: seq<nat>, o: seq<nat>, j: nat)
    requires forall q :: 0 <= q < |o| ==> o[q] < |lens|
    requires j < |o|
    ensures multiset(Pick(lens, Without(o, j))) + multiset{lens[o[j]]} == multiset(Pick(lens, o))
  {
    var t := Pick(lens, o);
    var u := Pick(lens, Without(o, j));
    var w := Without(t, j);
    assert |u| == |w|;
    assert forall q :: 0 <= q < |u| ==> u[q] == w[q];
    assert u == w;
    WithoutMultiset(t, j);
  }

  lemma CancelOne<T>(a: multiset<T>, b: multiset<T>, x: T)
    requires a + multiset{x} == b + multiset{x}
    ensures a == b
  {
    forall y
      ensures a[y] == b[y]
    {
      assert (a + multiset{x})[y] == (b + multiset{x})[y];
    }
  }

  /** Visiting the same positions in another order picks the same values. */
  lemma {:induction false} PickRespectsMultiset(lens: seq<nat>, o1: seq<nat>, o2: seq<nat>)
    requires forall q :: 0 <= q < |o1| ==> o1[q] < |lens|
    requires forall q :: 0 <= q < |o2| ==> o2[q] < |lens|
    requires multiset(o1) == multiset(o2)
    ensures multiset(Pick(lens, o1)) == multiset(Pick(lens, o2))
    decreases |o1|
  {
    if o1 == [] {
      assert |multiset(o2)| == 0;
    } else {
      var x := o1[0];
      assert x in multiset(o2);
      var j :| 0 <= j < |o2| && o2[j] == x;
      WithoutMultiset(o1, 0);
      WithoutMultiset(o2, j);
      CancelOne(multiset(Without(o1, 0)), multiset(Without(o2, j)), x);
      PickRespectsMultiset(lens, Without(o1, 0), Without(o2, j));
      PickWithout(lens, o1, 0);
      PickWithout(lens, o2, j);
    }
  }

  /**
   * `input_lens_sorted` is the batch's text lengths rearranged, longest
   * first.
   */
  lemma SortedInputLengths(batch: seq<Sample>, order: seq<nat>, padValue: real, p: Padded)
    requires PaddedAs(batch, order, padValue, p)
    ensures multiset(p.inputLengths) == multiset(TextLengths(batch))
    ensures forall i, j :: 0 <= i < j < |p.inputLengths| ==> p.inputLengths[i] >= p.inputLengths[j]
  {
    var lens := TextLengths(batch);
    PermutedValues(lens, order);
    assert Pick(lens, order) == p.inputLengths;
  }

  /** Reading `lens` through a permutation of its positions keeps its multiset of values. */
  lemma PermutedValues(lens: seq<nat>, order: seq<nat>)
    requires IsPermutation(order, |lens|) && Descending(lens, order)
    ensures multiset(Pick(lens, order)) == multiset(lens)
  {
    var n := |lens|;
    forall q | 0 <= q < n
      ensures Indices(n)[q] < |lens|
    {
    }
    PickRespectsMultiset(lens, order, Indices(n));
    assert Pick(lens, Indices(n)) == lens;
  }

  /**
   * Trimming row `i` of each tensor to its recorded length gives back the
   * sample it holds, the trimmed-off part is padding, and the gate turns
   * on at the clip's last frame.
   */
  lemma UnpadRecoversSample(batch: seq<Sample>, order: seq<nat>, padValue: real, p: Padded, i: nat)
    requires PaddedAs(batch, order, padValue, p) && i < |batch|
    ensures p.inputLengths[i] <= p.textIds.Length1 && p.outputLengths[i] <= p.mel.Length2
    ensures forall c :: 0 <= c < p.inputLengths[i] ==> p.textIds[i, c] == batch[order[i]].textIds[c]
    ensures forall c :: p.inputLengths[i] <= c < p.textIds.Length1 ==> p.textIds[i, c] == 0
    ensures |batch[order[i]].mel.channels| == p.mel.Length1 ==>
      forall k, c :: 0 <= k < p.mel.Length1 && 0 <= c < p.outputLengths[i] ==>
        p.mel[i, k, c] == batch[order[i]].mel.channels[k][c]
    ensures forall k, c :: 0 <= k < p.mel.Length1 && p.outputLengths[i] <= c < p.mel.Length2 ==>
      p.mel[i, k, c] == padValue
    ensures p.outputLengths[i] > 0 ==>
      forall c :: 0 <= c < p.gate.Length1 ==> (p.gate[i, c] == 1.0 <==> c >= p.outputLengths[i] - 1)
  {
    assert TextLengths(batch)[order[i]] == |batch[order[i]].textIds|;
    assert FrameCounts(batch)[order[i]] == batch[order[i]].mel.frames;
  }
}
