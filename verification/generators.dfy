/** The three signal generators and the export's tanh soft clipper, as
    per-sample expressions over the uninterpreted sine and tanh. Every
    generator scales its waveform by 0.5. */
module Generators {
  import opened Signal

  /** Left ear at base - beat/2, right ear at base + beat/2. */
  function BinauralFrame(baseFreq: real, beatFreq: real, time: real, num: Numerics): Frame {
    var leftFreq := baseFreq - beatFreq / 2.0;
    var rightFreq := baseFreq + beatFreq / 2.0;
    Frame(num.sin(2.0 * Pi * leftFreq * time) * 0.5, num.sin(2.0 * Pi * rightFreq * time) * 0.5)
  }

  /** One sine at `frequency`, the same value in both channels. */
  function ToneFrame(frequency: real, time: real, num: Numerics): Frame {
    var tone := num.sin(2.0 * Pi * frequency * time) * 0.5;
    Frame(tone, tone)
  }

  lemma HalfSineBounded(num: Numerics, x: real)
    requires Bounded(num)
    ensures Abs(num.sin(x) * 0.5) <= 0.5
  {
  }

  /** `generate_binaural`: one frame per sample time, never louder than 0.5. */
  function GenerateBinaural(t: seq<real>, baseFreq: real, beatFreq: real, num: Numerics): (r: seq<Frame>)
    ensures |r| == |t|
    ensures forall j :: 0 <= j < |t| ==> r[j] == BinauralFrame(baseFreq, beatFreq, t[j], num)
    ensures Bounded(num) ==> forall j :: 0 <= j < |t| ==> Magnitude(r[j]) <= 0.5
  {
    var r := seq(|t|, j requires 0 <= j < |t| => BinauralFrame(baseFreq, beatFreq, t[j], num));
    assert Bounded(num) ==> forall j :: 0 <= j < |t| ==> Magnitude(r[j]) <= 0.5 by {
      if Bounded(num) {
        forall j | 0 <= j < |t| ensures Magnitude(r[j]) <= 0.5 {
          HalfSineBounded(num, 2.0 * Pi * (baseFreq - beatFreq / 2.0) * t[j]);
          HalfSineBounded(num, 2.0 * Pi * (baseFreq + beatFreq / 2.0) * t[j]);
        }
      }
    }
    r
  }

  /** `generate_tone`: a mono sine duplicated to both channels, never louder
      than 0.5. The isochronic and modulation settings play no part. */
  function GenerateTone(t: seq<real>, frequency: real, num: Numerics): (r: seq<Frame>)
    ensures |r| == |t|
    ensures forall j :: 0 <= j < |t| ==> r[j] == ToneFrame(frequency, t[j], num)
    ensures forall j :: 0 <= j < |t| ==> r[j].left == r[j].right
    ensures Bounded(num) ==> forall j :: 0 <= j < |t| ==> Magnitude(r[j]) <= 0.5
  {
    var r := seq(|t|, j requires 0 <= j < |t| => ToneFrame(frequency, t[j], num));
    assert Bounded(num) ==> forall j :: 0 <= j < |t| ==> Magnitude(r[j]) <= 0.5 by {
      if Bounded(num) {
        forall j | 0 <= j < |t| ensures Magnitude(r[j]) <= 0.5 {
          HalfSineBounded(num, 2.0 * Pi * frequency * t[j]);
        }
      }
    }
    r
  }

  /** `generate_noise`: one Gaussian draw per sample, the same value in
      both channels. The colour and cut-off settings play no part. */
  function GenerateNoise(numSamples: nat, draw: nat -> real): (r: seq<Frame>)
    ensures |r| == numSamples
    ensures forall j :: 0 <= j < numSamples ==> r[j].left == r[j].right == draw(j)
  {
    seq(numSamples, (j: nat) => Frame(draw(j), draw(j)))
  }

  /** `soft_clip` with its default threshold 0.8: tanh(0.8 x) / 0.8. */
  function SoftClip(x: real, num: Numerics): real {
    num.tanh(x * 0.8) / 0.8
  }

  /** The soft clipper applied to every sample of a block; with |tanh| <= 1
      no sample leaves [-1.25, 1.25]. */
  function SoftClipBlock(a: seq<Frame>, num: Numerics): (r: seq<Frame>)
    ensures |r| == |a|
    ensures forall j :: 0 <= j < |a| ==> r[j] == Frame(SoftClip(a[j].left, num), SoftClip(a[j].right, num))
    ensures Bounded(num) ==> forall j :: 0 <= j < |a| ==> Magnitude(r[j]) <= 1.25
  {
    seq(|a|, j requires 0 <= j < |a| => Frame(SoftClip(a[j].left, num), SoftClip(a[j].right, num)))
  }
}
