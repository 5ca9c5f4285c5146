/**
 * Pitch normalisation: a pitch contour is standardised with a fixed mean and
 * standard deviation, and frames whose pitch was exactly zero (unvoiced)
 * stay zero. Reals stand for the source's single-precision floats. The
 * statistics are parameters (the loader's defaults are 130.05478 and
 * 22.86267).
 */
module Pitch {

  /** The value one frame holds after normalisation. */
  function NormalizedFrame(p: real, mean: real, std: real): real
    requires std != 0.0
  {
    if p == 0.0 then 0.0 else (p - mean) / std
  }

  /** The contour `normalize_pitch` leaves behind, frame by frame. */
  function NormalizedContour(pitch: seq<real>, mean: real, std: real): (r: seq<real>)
    requires std != 0.0
    ensures |r| == |pitch|
    ensures forall j :: 0 <= j < |pitch| && pitch[j] == 0.0 ==> r[j] == 0.0
    ensures forall j :: 0 <= j < |pitch| && pitch[j] != 0.0 ==> r[j] * std + mean == pitch[j]
  {
    seq(|pitch|, j requires 0 <= j < |pitch| => NormalizedFrame(pitch[j], mean, std))
  }

  /** Undoes the standardisation of one voiced frame. */
  function Denormalized(q: real, mean: real, std: real): real {
    q * std + mean
  }

  /**
   * Every voiced frame can be recovered from its normalised value, and every
   * unvoiced frame is zero afterwards.
   */
  lemma NormalizationInvertible(pitch: seq<real>, mean: real, std: real, j: nat)
    requires std != 0.0 && j < |pitch|
    ensures pitch[j] == 0.0 ==> NormalizedContour(pitch, mean, std)[j] == 0.0
    ensures pitch[j] != 0.0 ==> Denormalized(NormalizedContour(pitch, mean, std)[j], mean, std) == pitch[j]
  {
    if pitch[j] != 0.0 {
      var q := (pitch[j] - mean) / std;
      assert q * std == pitch[j] - mean;
    }
  }

  /** An all-zero contour stays all zero whatever the statistics. */
  lemma AllUnvoicedStaysZero(pitch: seq<real>, mean: real, std: real)
    requires std != 0.0
    requires forall j :: 0 <= j < |pitch| ==> pitch[j] == 0.0
    ensures forall j :: 0 <= j < |pitch| ==> NormalizedContour(pitch, mean, std)[j] == 0.0
  {
  }

  /**
   * `normalize_pitch`, in place: remember which frames are zero, subtract the
   * mean, divide by the deviation, then put the remembered zeros back.
   */
  method NormalizePitch(pitch: array<real>, mean: real, std: real)
    requires std != 0.0
    modifies pitch
    ensures pitch[..] == NormalizedContour(old(pitch[..]), mean, std)
  {
    ghost var original := pitch[..];
    var zeros := seq(pitch.Length, j reads pitch requires 0 <= j < pitch.Length => pitch[j] == 0.0);
    for j := 0 to pitch.Length
      invariant forall k :: 0 <= k < j ==> pitch[k] == original[k] - mean
      invariant forall k :: j <= k < pitch.Length ==> pitch[k] == original[k]
    {
      pitch[j] := pitch[j] - mean;
    }
    for j := 0 to pitch.Length
      invariant forall k :: 0 <= k < j ==> pitch[k] == (original[k] - mean) / std
      invariant forall k :: j <= k < pitch.Length ==> pitch[k] == original[k] - mean
    {
      pitch[j] := pitch[j] / std;
    }
    for j := 0 to pitch.Length
      invariant forall k :: 0 <= k < j ==> pitch[k] == NormalizedFrame(original[k], mean, std)
      invariant forall k :: j <= k < pitch.Length ==> pitch[k] == (original[k] - mean) / std
    {
      if zeros[j] {
        pitch[j] := 0.0;
      }
    }
    assert pitch[..] == NormalizedContour(original, mean, std);
  }
}
