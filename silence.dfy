/**
 * Silence trimming: a frame is kept when its mean log-mel energy is above a
 * threshold, and the run of quiet frames at the end of the utterance is kept
 * as well, so that the end-of-speech silence survives trimming. The
 * threshold is a parameter (its default is -10.0).
 */
module Silence {
  import opened Wrappers

  /**
   * The first frame of the quiet tail: every frame from here on has energy at
   * most `thresh`, and the frame just before it (if any) is above `thresh`.
   */
  function QuietTailStart(energy: seq<real>, thresh: real): (s: nat)
    ensures s <= |energy|
    ensures forall k :: s <= k < |energy| ==> energy[k] <= thresh
    ensures s == 0 || energy[s - 1] > thresh
  {
    if energy == [] || energy[|energy| - 1] > thresh then |energy|
    else QuietTailStart(energy[..|energy| - 1], thresh)
  }

  /** The two properties of `QuietTailStart` determine it. */
  lemma QuietTailStartUnique(energy: seq<real>, thresh: real, s: nat)
    requires s <= |energy|
    requires forall k :: s <= k < |energy| ==> energy[k] <= thresh
    requires s == 0 || energy[s - 1] > thresh
    ensures s == QuietTailStart(energy, thresh)
  {
  }

  /**
   * `remove_silence`: the keep-mask of an energy contour. An empty contour
   * raises, because the loop starts by reading `keep[-1]`. Otherwise frames
   * before the quiet tail are kept exactly when they are above the threshold,
   * and the quiet tail is forced to `true` except for frame 0: the backward
   * loop stops at index 0 without forcing it.
   */
  method RemoveSilence(energy: seq<real>, thresh: real) returns (r: Option<array<bool>>)
    ensures r.None? <==> |energy| == 0
    ensures r.Some? ==> r.value.Length == |energy|
    ensures r.Some? ==> forall j :: 0 <= j < |energy| && energy[j] > thresh ==> r.value[j]
    ensures r.Some? ==> forall j :: 0 <= j < QuietTailStart(energy, thresh) ==>
                                      r.value[j] == (energy[j] > thresh)
    ensures r.Some? ==> forall j :: 1 <= j < |energy| && QuietTailStart(energy, thresh) <= j ==>
                                      r.value[j]
    ensures r.Some? ==> r.value[0] == (energy[0] > thresh)
    ensures r.Some? && |energy| >= 2 ==> r.value[|energy| - 1]
  {
    if |energy| == 0 {
      // keep[-1] on an empty tensor raises an IndexError
      return None;
    }
    var keep := new bool[|energy|](j requires 0 <= j < |energy| => energy[j] > thresh);
    var i := keep.Length - 1;
    while !keep[i] && i > 0
      invariant 0 <= i < keep.Length
      invariant forall j :: 0 <= j <= i ==> keep[j] == (energy[j] > thresh)
      invariant forall j :: i < j < keep.Length ==> keep[j] && energy[j] <= thresh
      decreases i
    {
      keep[i] := true;
      i := i - 1;
    }
    if keep[i] {
      QuietTailStartUnique(energy, thresh, i + 1);
    } else {
      QuietTailStartUnique(energy, thresh, 0);
    }
    return Some(keep);
  }

  /** A contour that is quiet everywhere loses its first frame and keeps all the others. */
  lemma {:induction false} AllQuietTail(energy: seq<real>, thresh: real)
    requires forall k :: 0 <= k < |energy| ==> energy[k] <= thresh
    ensures QuietTailStart(energy, thresh) == 0
  {
    QuietTailStartUnique(energy, thresh, 0);
  }
}
