/** The mixing pass of `generate_audio`: start from a silent (n, 2) block
    and add `track_data * volume` for every enabled track of a known type.
    `Mix` is that left-to-right fold over the track list; `MixSample` is an
    independent per-sample definition (the sum of each track's
    contribution at one sample), and `MixAt` proves the two agree. */
module Mixer {
  import opened Wrappers
  import opened Signal
  import opened Tracks
  import opened Generators

  /** The `track_data` block a track generates, or None for a type string
      `generate_audio` does not know (that track is skipped). */
  function TrackData(tr: Track, t: seq<real>, num: Numerics, noise: Noise): (r: Option<seq<Frame>>)
    ensures r.None? <==> tr.source.OtherSource?
    ensures r.Some? ==> |r.value| == |t|
  {
    match tr.source
    case BinauralSource(baseFreq, beatFreq) => Some(GenerateBinaural(t, baseFreq, beatFreq, num))
    case NoiseSource(_, _, _) => Some(GenerateNoise(|t|, (n: nat) => noise(tr.id, n)))
    case ToneSource(frequency, _, _, _, _, _, _, _) => Some(GenerateTone(t, frequency, num))
    case OtherSource(_) => None
  }

  /** Tracks that reach the mix: enabled and of a known type. */
  predicate Audible(tr: Track) {
    tr.enabled && !tr.source.OtherSource?
  }

  /** The block `generate_audio(t)` returns for a track list. */
  function Mix(tracks: seq<Track>, t: seq<real>, num: Numerics, noise: Noise): (r: seq<Frame>)
    ensures |r| == |t|
    decreases |tracks|
  {
    if tracks == [] then Zeros(|t|)
    else
      var prev := Mix(tracks[..|tracks| - 1], t, num, noise);
      var tr := tracks[|tracks| - 1];
      if !tr.enabled then prev
      else
        match TrackData(tr, t, num, noise)
        case None => prev
        case Some(data) => AddBlocks(prev, ScaleBlock(data, tr.volume))
  }

  /** What one track produces at one sample, before its volume. */
  function TrackSample(tr: Track, time: real, j: nat, num: Numerics, noise: Noise): Frame {
    match tr.source
    case BinauralSource(baseFreq, beatFreq) => BinauralFrame(baseFreq, beatFreq, time, num)
    case NoiseSource(_, _, _) => Frame(noise(tr.id, j), noise(tr.id, j))
    case ToneSource(frequency, _, _, _, _, _, _, _) => ToneFrame(frequency, time, num)
    case OtherSource(_) => Silence
  }

  /** What one track adds to the mix at one sample. */
  function Contribution(tr: Track, time: real, j: nat, num: Numerics, noise: Noise): Frame {
    if Audible(tr) then Scale(TrackSample(tr, time, j, num, noise), tr.volume) else Silence
  }

  /** The mix at one sample, summed from the head of the list. */
  function MixSample(tracks: seq<Track>, time: real, j: nat, num: Numerics, noise: Noise): Frame {
    if tracks == [] then Silence
    else Add(Contribution(tracks[0], time, j, num, noise), MixSample(tracks[1..], time, j, num, noise))
  }

  /** The tracks `generate_audio` does not skip, in list order. */
  function AudibleTracks(tracks: seq<Track>): (r: seq<Track>)
    ensures |r| <= |tracks|
    ensures forall i :: 0 <= i < |r| ==> Audible(r[i])
  {
    if tracks == [] then []
    else if Audible(tracks[0]) then [tracks[0]] + AudibleTracks(tracks[1..])
    else AudibleTracks(tracks[1..])
  }

  /** The filter splits over concatenation: each part keeps its audible
      tracks, and they stay in list order. */
  lemma {:induction false} AudibleTracksAppend(a: seq<Track>, b: seq<Track>)
    ensures AudibleTracks(a + b) == AudibleTracks(a) + AudibleTracks(b)
  {
    if a == [] {
      assert a + b == b;
    } else {
      assert (a + b)[1..] == a[1..] + b;
      AudibleTracksAppend(a[1..], b);
    }
  }

  /** Every audible track is kept as often as it occurs in the list, and
      no other track is kept. */
  lemma {:induction false} AudibleTracksContents(tracks: seq<Track>)
    ensures forall x :: Audible(x) ==> multiset(AudibleTracks(tracks))[x] == multiset(tracks)[x]
    ensures forall x :: !Audible(x) ==> multiset(AudibleTracks(tracks))[x] == 0
  {
    if tracks != [] {
      AudibleTracksContents(tracks[1..]);
      assert tracks == [tracks[0]] + tracks[1..];
      assert multiset(tracks) == multiset([tracks[0]]) + multiset(tracks[1..]);
      if Audible(tracks[0]) {
        assert multiset(AudibleTracks(tracks)) == multiset([tracks[0]]) + multiset(AudibleTracks(tracks[1..]));
      }
    }
  }

  /** Summing a list in two pieces: the per-sample mix is additive over
      concatenation of track lists. */
  lemma {:induction false} MixSampleAppend(a: seq<Track>, b: seq<Track>, time: real, j: nat, num: Numerics, noise: Noise)
    ensures MixSample(a + b, time, j, num, noise) == Add(MixSample(a, time, j, num, noise), MixSample(b, time, j, num, noise))
  {
    if a == [] {
      assert a + b == b;
    } else {
      assert (a + b)[1..] == a[1..] + b;
      MixSampleAppend(a[1..], b, time, j, num, noise);
    }
  }

  /** The fold `generate_audio` performs agrees, sample by sample, with the
      per-sample sum of every track's contribution. */
  lemma {:induction false} MixAt(tracks: seq<Track>, t: seq<real>, num: Numerics, noise: Noise, j: nat)
    requires j < |t|
    ensures Mix(tracks, t, num, noise)[j] == MixSample(tracks, t[j], j, num, noise)
    decreases |tracks|
  {
    if tracks != [] {
      var front := tracks[..|tracks| - 1];
      var tr := tracks[|tracks| - 1];
      MixAt(front, t, num, noise, j);
      MixStep(tracks, t, num, noise, j);
      MixSampleSnoc(tracks, t[j], j, num, noise);
    }
  }

  /** Summed from the head, the last track's contribution comes last. */
  lemma MixSampleSnoc(tracks: seq<Track>, time: real, j: nat, num: Numerics, noise: Noise)
    requires tracks != []
    ensures MixSample(tracks, time, j, num, noise)
         == Add(MixSample(tracks[..|tracks| - 1], time, j, num, noise), Contribution(tracks[|tracks| - 1], time, j, num, noise))
  {
    var front, tr := tracks[..|tracks| - 1], tracks[|tracks| - 1];
    assert tracks == front + [tr];
    MixSampleAppend(front, [tr], time, j, num, noise);
    assert MixSample([tr], time, j, num, noise) == Add(Contribution(tr, time, j, num, noise), Silence);
  }

  /** A generated block holds, at each sample, what the track produces at
      that sample's time. */
  lemma TrackDataAt(tr: Track, t: seq<real>, num: Numerics, noise: Noise, j: nat)
    requires j < |t|
    ensures TrackData(tr, t, num, noise).Some? ==> TrackData(tr, t, num, noise).value[j] == TrackSample(tr, t[j], j, num, noise)
  {
  }

  /** One step of the fold adds the last track's contribution. */
  lemma MixStep(tracks: seq<Track>, t: seq<real>, num: Numerics, noise: Noise, j: nat)
    requires tracks != [] && j < |t|
    ensures Mix(tracks, t, num, noise)[j]
         == Add(Mix(tracks[..|tracks| - 1], t, num, noise)[j], Contribution(tracks[|tracks| - 1], t[j], j, num, noise))
  {
    TrackDataAt(tracks[|tracks| - 1], t, num, noise, j);
  }

  /** With no track audible (an empty list, or every track disabled or of an
      unknown type) the mix is silence. */
  lemma {:induction false} MixOfInaudibleIsSilent(tracks: seq<Track>, t: seq<real>, num: Numerics, noise: Noise)
    requires forall i :: 0 <= i < |tracks| ==> !Audible(tracks[i])
    ensures Mix(tracks, t, num, noise) == Zeros(|t|)
  {
    forall j | 0 <= j < |t|
      ensures Mix(tracks, t, num, noise)[j] == Silence
    {
      MixAt(tracks, t, num, noise, j);
      MixSampleOfInaudible(tracks, t[j], j, num, noise);
    }
  }

  lemma {:induction false} MixSampleOfInaudible(tracks: seq<Track>, time: real, j: nat, num: Numerics, noise: Noise)
    requires forall i :: 0 <= i < |tracks| ==> !Audible(tracks[i])
    ensures MixSample(tracks, time, j, num, noise) == Silence
  {
    if tracks != [] {
      MixSampleOfInaudible(tracks[1..], time, j, num, noise);
    }
  }

  lemma {:induction false} MixSampleOfAudible(tracks: seq<Track>, time: real, j: nat, num: Numerics, noise: Noise)
    ensures MixSample(AudibleTracks(tracks), time, j, num, noise) == MixSample(tracks, time, j, num, noise)
  {
    if tracks != [] {
      MixSampleOfAudible(tracks[1..], time, j, num, noise);
    }
  }

  /** Disabled tracks and tracks of an unknown type contribute nothing:
      mixing the whole list gives the same block as mixing only the
      audible tracks. */
  lemma MixOnlyAudible(tracks: seq<Track>, t: seq<real>, num: Numerics, noise: Noise)
    ensures Mix(tracks, t, num, noise) == Mix(AudibleTracks(tracks), t, num, noise)
  {
    forall j | 0 <= j < |t|
      ensures Mix(tracks, t, num, noise)[j] == Mix(AudibleTracks(tracks), t, num, noise)[j]
    {
      MixAt(tracks, t, num, noise, j);
      MixAt(AudibleTracks(tracks), t, num, noise, j);
      MixSampleOfAudible(tracks, t[j], j, num, noise);
    }
  }

  /** Unticking a track's "Enable" box has the same effect on the mix as
      removing the track from the list. */
  lemma DisableIsRemove(tracks: seq<Track>, i: nat, t: seq<real>, num: Numerics, noise: Noise)
    requires i < |tracks|
    ensures Mix(tracks[i := tracks[i].(enabled := false)], t, num, noise)
         == Mix(tracks[..i] + tracks[i + 1..], t, num, noise)
  {
    var off := tracks[i := tracks[i].(enabled := false)];
    var removed := tracks[..i] + tracks[i + 1..];
    forall j | 0 <= j < |t|
      ensures Mix(off, t, num, noise)[j] == Mix(removed, t, num, noise)[j]
    {
      MixAt(off, t, num, noise, j);
      MixAt(removed, t, num, noise, j);
      DisableSample(tracks, i, t[j], j, num, noise);
    }
  }

  lemma DisableSample(tracks: seq<Track>, i: nat, time: real, j: nat, num: Numerics, noise: Noise)
    requires i < |tracks|
    ensures MixSample(tracks[i := tracks[i].(enabled := false)], time, j, num, noise)
         == MixSample(tracks[..i] + tracks[i + 1..], time, j, num, noise)
  {
    var off := tracks[i := tracks[i].(enabled := false)];
    var pre, post := tracks[..i], tracks[i + 1..];
    assert off == (pre + [off[i]]) + post;
    MixSampleAppend(pre + [off[i]], post, time, j, num, noise);
    MixSampleAppend(pre, [off[i]], time, j, num, noise);
    MixSampleAppend(pre, post, time, j, num, noise);
    assert MixSample([off[i]], time, j, num, noise) == Silence;
  }

  /** Reading the draws `offset` samples further on is the same as mixing
      at the sample `offset` further on. */
  lemma {:induction false} MixSampleShift(tracks: seq<Track>, time: real, j: nat, offset: nat, num: Numerics, noise: Noise)
    ensures MixSample(tracks, time, j, num, Shift(noise, offset)) == MixSample(tracks, time, offset + j, num, noise)
  {
    if tracks != [] {
      MixSampleShift(tracks[1..], time, j, offset, num, noise);
    }
  }

  /** A window of a mixed block is the mix of that window of sample times,
      with the noise draws taken from the window onwards: rendering a
      time range in pieces gives the same samples as rendering it at once. */
  lemma MixWindow(tracks: seq<Track>, t: seq<real>, num: Numerics, noise: Noise, a: nat, b: nat)
    requires a <= b <= |t|
    ensures Mix(tracks, t, num, noise)[a..b] == Mix(tracks, t[a..b], num, Shift(noise, a))
  {
    var whole := Mix(tracks, t, num, noise);
    var part := Mix(tracks, t[a..b], num, Shift(noise, a));
    forall j | 0 <= j < b - a
      ensures whole[a..b][j] == part[j]
    {
      MixWindowAt(tracks, t, num, noise, a, b, j);
    }
  }

  lemma MixWindowAt(tracks: seq<Track>, t: seq<real>, num: Numerics, noise: Noise, a: nat, b: nat, j: nat)
    requires a <= b <= |t| && j < b - a
    ensures Mix(tracks, t, num, noise)[a + j] == Mix(tracks, t[a..b], num, Shift(noise, a))[j]
  {
    var time := t[a + j];
    assert t[a..b][j] == time;
    MixAt(tracks, t, num, noise, a + j);
    MixAt(tracks, t[a..b], num, Shift(noise, a), j);
    MixSampleShift(tracks, time, j, a, num, noise);
  }
  /** Mixing two runs of sample times back to back, the second with the
      draws that continue those of the first, gives the mix of the joined
      run. */
  lemma MixConcat(tracks: seq<Track>, t1: seq<real>, t2: seq<real>, num: Numerics, noise: Noise)
    ensures Mix(tracks, t1, num, noise) + Mix(tracks, t2, num, Shift(noise, |t1|)) == Mix(tracks, t1 + t2, num, noise)
  {
    var first, second := Mix(tracks, t1, num, noise), Mix(tracks, t2, num, Shift(noise, |t1|));
    var whole := Mix(tracks, t1 + t2, num, noise);
    forall j | 0 <= j < |t1| + |t2|
      ensures (first + second)[j] == whole[j]
    {
      if j < |t1| {
        assert (first + second)[j] == first[j];
        ConcatFirstAt(tracks, t1, t2, num, noise, j);
      } else {
        assert (first + second)[j] == second[j - |t1|];
        ConcatSecondAt(tracks, t1, t2, num, noise, j);
      }
    }
  }

  lemma ConcatFirstAt(tracks: seq<Track>, t1: seq<real>, t2: seq<real>, num: Numerics, noise: Noise, j: nat)
    requires j < |t1|
    ensures Mix(tracks, t1, num, noise)[j] == Mix(tracks, t1 + t2, num, noise)[j]
  {
    assert (t1 + t2)[j] == t1[j];
    MixAt(tracks, t1, num, noise, j);
    MixAt(tracks, t1 + t2, num, noise, j);
  }

  lemma ConcatSecondAt(tracks: seq<Track>, t1: seq<real>, t2: seq<real>, num: Numerics, noise: Noise, j: nat)
    requires |t1| <= j < |t1| + |t2|
    ensures Mix(tracks, t2, num, Shift(noise, |t1|))[j - |t1|] == Mix(tracks, t1 + t2, num, noise)[j]
  {
    var k := j - |t1|;
    var time := t2[k];
    assert (t1 + t2)[j] == time;
    MixAt(tracks, t2, num, Shift(noise, |t1|), k);
    MixAt(tracks, t1 + t2, num, noise, j);
    MixSampleShift(tracks, time, k, |t1|, num, noise);
  }

  /** A block that starts at the same sample is a prefix of a longer one. */
  lemma BlockPrefix(tracks: seq<Track>, start: nat, m: nat, n: nat, num: Numerics, noise: Noise)
    ensures Mix(tracks, TimeGrid(start, m), num, noise) == Mix(tracks, TimeGrid(start, m + n), num, noise)[..m]
  {
    BlocksJoin(tracks, start, m, n, num, noise);
  }

  /** Two consecutive playback blocks, the second starting where the first
      ended, join into the block that covers both: the mix depends on the
      absolute sample time only (given draws for the second block that
      continue those of the first). */
  lemma BlocksJoin(tracks: seq<Track>, start: nat, m: nat, n: nat, num: Numerics, noise: Noise)
    ensures Mix(tracks, TimeGrid(start, m), num, noise) + Mix(tracks, TimeGrid(start + m, n), num, Shift(noise, m))
         == Mix(tracks, TimeGrid(start, m + n), num, noise)
  {
    TimeGridSplit(start, m, n);
    MixConcat(tracks, TimeGrid(start, m), TimeGrid(start + m, n), num, noise);
  }

  lemma ScaledBounded(f: Frame, v: real, b: real)
    requires Magnitude(f) <= b && 0.0 <= v <= 1.0
    ensures Magnitude(Scale(f, v)) <= b
  {
    AbsScaled(f.left, v);
    AbsScaled(f.right, v);
  }

  lemma AbsScaled(x: real, v: real)
    requires 0.0 <= v <= 1.0
    ensures Abs(x * v) <= Abs(x)
  {
    if x >= 0.0 {
      assert x * v <= x * 1.0;
    } else {
      assert (-x) * v <= (-x) * 1.0;
    }
  }

  lemma AddMagnitude(a: Frame, c: Frame)
    ensures Magnitude(Add(a, c)) <= Magnitude(a) + Magnitude(c)
  {
  }

  lemma SampleBounded(tr: Track, time: real, j: nat, num: Numerics, noise: Noise, b: real)
    requires Bounded(num) && 0.5 <= b
    requires forall id, n :: Abs(noise(id, n)) <= b
    ensures Magnitude(TrackSample(tr, time, j, num, noise)) <= b
  {
    match tr.source {
      case BinauralSource(baseFreq, beatFreq) =>
        HalfSineBounded(num, 2.0 * Pi * (baseFreq - beatFreq / 2.0) * time);
        HalfSineBounded(num, 2.0 * Pi * (baseFreq + beatFreq / 2.0) * time);
      case ToneSource(frequency, _, _, _, _, _, _, _) =>
        HalfSineBounded(num, 2.0 * Pi * frequency * time);
      case NoiseSource(_, _, _) =>
        assert Abs(noise(tr.id, j)) <= b;
      case OtherSource(_) =>
    }
  }

  lemma ContributionBounded(tr: Track, time: real, j: nat, num: Numerics, noise: Noise, b: real)
    requires Bounded(num) && 0.5 <= b
    requires forall id, n :: Abs(noise(id, n)) <= b
    requires 0.0 <= tr.volume <= 1.0
    ensures Magnitude(Contribution(tr, time, j, num, noise)) <= if Audible(tr) then b else 0.0
  {
    if Audible(tr) {
      SampleBounded(tr, time, j, num, noise, b);
      ScaledBounded(TrackSample(tr, time, j, num, noise), tr.volume, b);
    }
  }

  /** b for every audible track of the list. */
  function Budget(tracks: seq<Track>, b: real): real {
    if tracks == [] then 0.0
    else (if Audible(tracks[0]) then b else 0.0) + Budget(tracks[1..], b)
  }

  lemma {:induction false} BudgetIsProduct(tracks: seq<Track>, b: real)
    ensures Budget(tracks, b) == b * |AudibleTracks(tracks)| as real
  {
    if tracks != [] {
      BudgetIsProduct(tracks[1..], b);
      var k := |AudibleTracks(tracks[1..])| as real;
      assert b * (k + 1.0) == b * k + b;
    }
  }

  lemma {:induction false} MixSampleBounded(tracks: seq<Track>, time: real, j: nat, num: Numerics, noise: Noise, b: real)
    requires Bounded(num) && 0.5 <= b
    requires forall id, n :: Abs(noise(id, n)) <= b
    requires forall i :: 0 <= i < |tracks| ==> 0.0 <= tracks[i].volume <= 1.0
    ensures Magnitude(MixSample(tracks, time, j, num, noise)) <= Budget(tracks, b)
  {
    if tracks != [] {
      var c := Contribution(tracks[0], time, j, num, noise);
      var rest := MixSample(tracks[1..], time, j, num, noise);
      MixSampleBounded(tracks[1..], time, j, num, noise, b);
      ContributionBounded(tracks[0], time, j, num, noise, b);
      AddMagnitude(c, rest);
    }
  }

  /** With volumes in [0, 1], a bounded sine and noise draws within +-b
      (b >= 0.5, the generators' own amplitude), no sample of the mix is
      louder than b times the number of audible tracks. */
  lemma MixBounded(tracks: seq<Track>, t: seq<real>, num: Numerics, noise: Noise, b: real)
    requires Bounded(num) && 0.5 <= b
    requires forall id, n :: Abs(noise(id, n)) <= b
    requires forall i :: 0 <= i < |tracks| ==> 0.0 <= tracks[i].volume <= 1.0
    ensures forall j :: 0 <= j < |t| ==> Magnitude(Mix(tracks, t, num, noise)[j]) <= b * |AudibleTracks(tracks)| as real
  {
    var mix := Mix(tracks, t, num, noise);
    var bound := Budget(tracks, b);
    forall j | 0 <= j < |t|
      ensures Magnitude(mix[j]) <= bound
    {
      MixAt(tracks, t, num, noise, j);
      MixSampleBounded(tracks, t[j], j, num, noise, b);
    }
    BudgetIsProduct(tracks, b);
  }
}
