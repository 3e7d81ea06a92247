/** The arithmetic of the offline render in `export_wav`: how
    `[0, total_samples)` is cut into one-second chunks, which progress values
    are reported, and the final peak normalisation. The loop that fills the
    buffer is `App.BinauralApp.ExportWav`. */
module Export {
  import opened Signal

  /** `chunk_size`: one second at the sample rate. */
  const ChunkSize: nat := 44100

  /** `min(i + chunk_size, total_samples)`. */
  function ChunkEnd(i: nat, total: nat): (e: nat)
    ensures e <= total && e <= i + ChunkSize && (e == total || e == i + ChunkSize)
    ensures i < total ==> i < e <= total
  {
    if i + ChunkSize < total then i + ChunkSize else total
  }

  /** The `(i, chunk_end)` pairs of `range(i, total_samples, chunk_size)`.
      The k-th chunk starts at `i + k * chunk_size`, and there are just
      enough chunks for the last to reach `total`. */
  function ChunksFrom(i: nat, total: nat): (r: seq<(nat, nat)>)
    ensures i >= total <==> r == []
    ensures i < total ==> (|r| - 1) * ChunkSize + i < total <= |r| * ChunkSize + i
    ensures forall k :: 0 <= k < |r| ==> r[k].0 == i + k * ChunkSize && r[k].0 < total
    ensures forall k :: 0 <= k < |r| ==> r[k].1 == ChunkEnd(r[k].0, total)
    decreases total - i
  {
    if i >= total then []
    else [(i, ChunkEnd(i, total))] + ChunksFrom(i + ChunkSize, total)
  }

  /** The chunks `do_export` renders. */
  function Chunks(total: nat): seq<(nat, nat)> {
    ChunksFrom(0, total)
  }

  /** The chunks partition `[0, total)`: each is non-empty and at most one
      second long, each starts where the previous one ended, the first
      starts at 0, the last ends at `total`, and sample `n` lies in chunk
      `n / chunk_size`. */
  lemma ChunksPartition(total: nat)
    ensures var c := Chunks(total);
      && (c == [] <==> total == 0)
      && (forall k :: 0 <= k < |c| ==> c[k].0 < c[k].1 <= c[k].0 + ChunkSize)
      && (forall k :: 0 < k < |c| ==> c[k].0 == c[k - 1].1)
      && (c != [] ==> c[0].0 == 0 && c[|c| - 1].1 == total)
      && (forall n :: 0 <= n < total ==> n / ChunkSize < |c| && c[n / ChunkSize].0 <= n < c[n / ChunkSize].1)
  {
    var c := Chunks(total);
    forall k | 0 < k < |c|
      ensures c[k].0 == c[k - 1].1
    {
      assert c[k - 1].0 + ChunkSize == c[k].0 < total;
    }
    if c != [] {
      var last := c[|c| - 1];
      assert last.0 + ChunkSize >= total;
    }
    forall n | 0 <= n < total
      ensures n / ChunkSize < |c| && c[n / ChunkSize].0 <= n < c[n / ChunkSize].1
    {
      var k := n / ChunkSize;
      assert k * ChunkSize <= n < k * ChunkSize + ChunkSize;
      assert k < |c|;
    }
  }

  /** A duration of `d` whole seconds is rendered as exactly `d` full
      one-second chunks, the k-th covering `[k * chunk_size, (k + 1) * chunk_size)`. */
  lemma {:induction false} WholeSecondChunks(d: nat)
    ensures var c := Chunks(d * ChunkSize);
      && |c| == d
      && (forall k :: 0 <= k < d ==> c[k] == (k * ChunkSize, (k + 1) * ChunkSize))
  {
    var total := d * ChunkSize;
    var c := Chunks(total);
    if d > 0 {
      assert (|c| - 1) * ChunkSize < total <= |c| * ChunkSize;
    } else {
      assert c == [];
    }
    forall k | 0 <= k < d
      ensures c[k] == (k * ChunkSize, (k + 1) * ChunkSize)
    {
      assert c[k].0 == k * ChunkSize;
      assert k * ChunkSize + ChunkSize <= total;
    }
  }

  /** The `current` values `update_progress` receives: each chunk's end,
      then `total_samples` once more before the file is written. */
  function Progress(total: nat): (p: seq<nat>)
    ensures |p| == |Chunks(total)| + 1
  {
    ChunkEnds(Chunks(total)) + [total]
  }

  function ChunkEnds(c: seq<(nat, nat)>): (r: seq<nat>)
    ensures |r| == |c|
    ensures forall k :: 0 <= k < |c| ==> r[k] == c[k].1
  {
    seq(|c|, k requires 0 <= k < |c| => c[k].1)
  }

  /** Progress strictly increases over the chunks and ends at `total`; the
      final report repeats it, so the whole sequence never goes down. */
  lemma ProgressMonotone(total: nat)
    ensures var p := Progress(total);
      && p[|p| - 1] == total
      && (forall k :: 0 < k < |p| - 1 ==> p[k - 1] < p[k])
      && (forall k :: 0 < k < |p| ==> p[k - 1] <= p[k])
      && (forall k :: 0 <= k < |p| ==> p[k] <= total)
      && (total > 0 ==> p[|p| - 2] == total)
  {
    ChunksPartition(total);
  }

  /** `np.max(np.abs(audio_data))` over both channels. */
  function Peak(s: seq<Frame>): (m: real)
    requires |s| > 0
    ensures m >= 0.0
  {
    if |s| == 1 then Magnitude(s[0])
    else Max(Peak(s[..|s| - 1]), Magnitude(s[|s| - 1]))
  }

  /** The peak bounds every sample and is reached by one. */
  lemma {:induction false} PeakIsMax(s: seq<Frame>)
    requires |s| > 0
    ensures forall j :: 0 <= j < |s| ==> Magnitude(s[j]) <= Peak(s)
    ensures exists j :: 0 <= j < |s| && Magnitude(s[j]) == Peak(s)
  {
    if |s| > 1 {
      var init := s[..|s| - 1];
      PeakIsMax(init);
      assert forall j :: 0 <= j < |init| ==> s[j] == init[j];
      var w :| 0 <= w < |init| && Magnitude(init[w]) == Peak(init);
      if Peak(s) == Peak(init) {
        assert Magnitude(s[w]) == Peak(s);
      } else {
        assert Magnitude(s[|s| - 1]) == Peak(s);
      }
    } else {
      assert Magnitude(s[0]) == Peak(s);
    }
  }

  /** One frame divided by a positive peak. */
  function Divide(f: Frame, m: real): Frame
    requires m > 0.0
  {
    Frame(f.left / m, f.right / m)
  }

  /** The buffer after `if max_val > 1.0: audio_data /= max_val`. */
  function Normalized(s: seq<Frame>): (r: seq<Frame>)
    ensures |r| == |s|
  {
    if |s| == 0 || Peak(s) <= 1.0 then s
    else seq(|s|, j requires 0 <= j < |s| => Divide(s[j], Peak(s)))
  }

  /** Cancelling a positive factor keeps an inequality. */
  lemma CancelPositive(a: real, b: real, m: real)
    requires m > 0.0 && a * m <= b * m
    ensures a <= b
  {
    assert (b - a) * m >= 0.0;
  }

  lemma DivideBounded(x: real, m: real)
    requires m > 0.0 && Abs(x) <= m
    ensures Abs(x / m) <= 1.0
    ensures Abs(x) == m ==> Abs(x / m) == 1.0
  {
    assert -m <= x <= m;
    DivideWithin(x, m);
  }

  /** Dividing by m maps [-m, m] onto [-1, 1], and its ends onto the ends. */
  lemma DivideWithin(x: real, m: real)
    requires m > 0.0 && -m <= x <= m
    ensures -1.0 <= x / m <= 1.0
    ensures x == m ==> x / m == 1.0
    ensures x == -m ==> x / m == -1.0
  {
    var q := x / m;
    var lo, hi := -1.0 * m, 1.0 * m;
    assert q * m == x;
    assert lo == -m && hi == m;
    CancelPositive(q, 1.0, m);
    CancelPositive(-1.0, q, m);
    if x == m {
      CancelPositive(1.0, q, m);
    } else if x == -m {
      CancelPositive(q, -1.0, m);
    }
  }

  lemma DivideFrameBounded(f: Frame, m: real)
    requires m > 0.0 && Magnitude(f) <= m
    ensures Magnitude(Divide(f, m)) <= 1.0
    ensures Magnitude(f) == m ==> Magnitude(Divide(f, m)) == 1.0
  {
    DivideBounded(f.left, m);
    DivideBounded(f.right, m);
  }

  /** After normalisation no sample exceeds 1.0 in magnitude, unless the
      buffer was left alone because its peak already was at most 1.0; a
      buffer that was divided has peak exactly 1.0. */
  lemma NormalizedPeak(s: seq<Frame>)
    requires |s| > 0
    ensures Peak(s) <= 1.0 ==> Normalized(s) == s
    ensures forall j :: 0 <= j < |s| ==> Magnitude(Normalized(s)[j]) <= 1.0
    ensures Peak(s) > 1.0 ==> Peak(Normalized(s)) == 1.0
  {
    PeakIsMax(s);
    var r := Normalized(s);
    var m := Peak(s);
    if m > 1.0 {
      forall j | 0 <= j < |s|
        ensures Magnitude(r[j]) <= 1.0
      {
        DivideFrameBounded(s[j], m);
      }
      var w :| 0 <= w < |s| && Magnitude(s[w]) == m;
      DivideFrameBounded(s[w], m);
      PeakIsMax(r);
      var w' :| 0 <= w' < |r| && Magnitude(r[w']) == Peak(r);
      assert Peak(r) <= 1.0;
      assert Peak(r) >= Magnitude(r[w]) == 1.0;
    }
  }

  /** `if max_val > 1.0: audio_data /= max_val` on the render buffer, in
      place. */
  method NormalizeInPlace(audio: array<Frame>)
    modifies audio
    ensures audio[..] == Normalized(old(audio[..]))
  {
    if audio.Length == 0 {
      return;
    }
    var peak := Peak(audio[..]);
    if peak > 1.0 {
      forall k | 0 <= k < audio.Length {
        audio[k] := Divide(audio[k], peak);
      }
    }
  }
}
