/** `apply_anti_aliasing`: a one-pole low-pass recurrence. Nothing on the
    playback or export path calls it; it is modelled as the stand-alone
    operation it is, on one channel (on a stereo buffer numpy runs the same
    recurrence on each column independently). */
module Smoothing {
  import opened Wrappers

  /** The filter coefficient `alpha`. */
  const Alpha: real := 0.1

  /** The filtered signal: the first sample is copied, every later one is
      `alpha * data[i] + (1 - alpha) * filtered[i - 1]`. */
  function Smoothed(data: seq<real>): (r: seq<real>)
    requires |data| > 0
    ensures |r| == |data|
    ensures r[0] == data[0]
    decreases |data|
  {
    if |data| == 1 then [data[0]]
    else
      var prev := Smoothed(data[..|data| - 1]);
      prev + [Alpha * data[|data| - 1] + (1.0 - Alpha) * prev[|prev| - 1]]
  }

  /** Every sample after the first obeys the recurrence. */
  lemma {:induction false} SmoothedRecurrence(data: seq<real>)
    requires |data| > 0
    ensures forall i :: 1 <= i < |data| ==>
              Smoothed(data)[i] == Alpha * data[i] + (1.0 - Alpha) * Smoothed(data)[i - 1]
  {
    if |data| > 1 {
      var init := data[..|data| - 1];
      SmoothedRecurrence(init);
      assert forall i :: 0 <= i < |init| ==> init[i] == data[i];
      assert forall i :: 0 <= i < |init| ==> Smoothed(data)[i] == Smoothed(init)[i];
    }
  }

  /** A convex combination of two values in [lo, hi] stays in [lo, hi]. */
  lemma BlendBounded(x: real, y: real, lo: real, hi: real)
    requires lo <= x <= hi && lo <= y <= hi
    ensures lo <= Alpha * x + (1.0 - Alpha) * y <= hi
  {
  }

  /** The filter never leaves the range of its input: if every sample lies
      in [lo, hi], so does every filtered sample. */
  lemma {:induction false} SmoothedBounded(data: seq<real>, lo: real, hi: real)
    requires |data| > 0
    requires forall i :: 0 <= i < |data| ==> lo <= data[i] <= hi
    ensures forall i :: 0 <= i < |data| ==> lo <= Smoothed(data)[i] <= hi
  {
    if |data| > 1 {
      var init := data[..|data| - 1];
      SmoothedBounded(init, lo, hi);
      var prev := Smoothed(init);
      BlendBounded(data[|data| - 1], prev[|prev| - 1], lo, hi);
    }
  }

  /** A constant signal passes through unchanged. */
  lemma SmoothedConstant(data: seq<real>, c: real)
    requires |data| > 0
    requires forall i :: 0 <= i < |data| ==> data[i] == c
    ensures Smoothed(data) == data
  {
    SmoothedBounded(data, c, c);
  }

  /** `apply_anti_aliasing(data)`: None where `filtered[0] = data[0]`
      raises on an empty input, otherwise the filtered signal, computed
      sample by sample into a fresh buffer. */
  method AntiAlias(data: seq<real>) returns (r: Option<seq<real>>)
    ensures r.None? <==> |data| == 0
    ensures r.Some? ==> r.value == Smoothed(data)
  {
    if |data| == 0 {
      return None;
    }
    var filtered := new real[|data|];
    filtered[0] := data[0];
    var i := 1;
    while i < |data|
      invariant 1 <= i <= |data|
      invariant filtered[..i] == Smoothed(data[..i])
    {
      assert data[..i + 1][..i] == data[..i];
      filtered[i] := Alpha * data[i] + (1.0 - Alpha) * filtered[i - 1];
      assert filtered[..i + 1] == filtered[..i] + [filtered[i]];
      i := i + 1;
    }
    assert data[..|data|] == data;
    return Some(filtered[..]);
  }
}
