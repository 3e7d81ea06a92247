/** `apply_panning`: the three static pan modes and the equal-power
    auto-pan. Nothing on the playback or export path calls it; it is
    modelled as the stand-alone operation it is. */
module Panner {
  import opened Signal
  import opened Tracks

  /** Every mode string other than the three static ones takes the
      auto-pan branch. */
  predicate IsAutoPan(mode: string) {
    mode != "center" && mode != "hard-left" && mode != "hard-right"
  }

  /** `np.clip(x, -1, 1)`. */
  function Clip(x: real): (r: real)
    ensures -1.0 <= r <= 1.0
    ensures -1.0 <= x <= 1.0 ==> r == x
    ensures x < -1.0 ==> r == -1.0
    ensures x > 1.0 ==> r == 1.0
  {
    if x < -1.0 then -1.0 else if x > 1.0 then 1.0 else x
  }

  /** `np.sin(2 * np.pi * pan_speed * t)` at one sample time. */
  function PanWave(speed: real, time: real, num: Numerics): real {
    num.sin(2.0 * Pi * speed * time)
  }

  /** The pan envelope at one sample time. "right-to-left" negates it;
      "alternate" (and any other direction string) computes exactly what
      "left-to-right" computes. With a bounded sine the envelope never
      swings further than the depth. */
  function Envelope(pan: Pan, time: real, num: Numerics): (e: real)
    ensures Bounded(num) ==> Abs(e) <= Abs(pan.depth)
  {
    var w := PanWave(pan.speed, time, num);
    EnvelopeWithinDepth(pan.depth, pan.speed, time, num);
    if pan.direction == "left-to-right" then pan.depth * w
    else if pan.direction == "right-to-left" then -pan.depth * w
    else pan.depth * w
  }

  /** The pan wave scales a depth down, in either sign, when the sine is bounded. */
  lemma EnvelopeWithinDepth(depth: real, speed: real, time: real, num: Numerics)
    ensures var w := PanWave(speed, time, num);
      Bounded(num) ==> Abs(depth * w) <= Abs(depth) && Abs(-depth * w) <= Abs(depth)
  {
    var w := PanWave(speed, time, num);
    if Bounded(num) {
      assert -1.0 <= num.sin(2.0 * Pi * speed * time) <= 1.0;
      GainNeverAmplifies(depth, w);
      assert -depth * w == -(depth * w);
    }
  }

  /** `(pan_pos + 1) * pi / 4`: a position in [-1, 1] becomes an angle in
      [0, pi/2], hard left at 0 and hard right at pi/2. */
  function PanAngle(pos: real): (angle: real)
    requires -1.0 <= pos <= 1.0
    ensures 0.0 <= angle <= Pi / 2.0
    ensures pos == -1.0 ==> angle == 0.0
    ensures pos == 1.0 ==> angle == Pi / 2.0
  {
    (pos + 1.0) * Pi / 4.0
  }

  /** The angle auto-pan uses at one sample time. */
  function AutoPanAngle(pan: Pan, time: real, num: Numerics): (angle: real)
    ensures 0.0 <= angle <= Pi / 2.0
  {
    PanAngle(Clip(Envelope(pan, time, num)))
  }

  /** Left channel times cos(angle), right channel times sin(angle). */
  function AutoPanFrame(f: Frame, angle: real, num: Numerics): Frame {
    Frame(f.left * num.cos(angle), f.right * num.sin(angle))
  }

  lemma GainNeverAmplifies(x: real, g: real)
    requires -1.0 <= g <= 1.0
    ensures Abs(x * g) <= Abs(x)
  {
    if x >= 0.0 {
      if g >= 0.0 { assert x * g <= x * 1.0; } else { assert x * (-g) <= x * 1.0; }
    } else {
      if g >= 0.0 { assert (-x) * g <= (-x) * 1.0; } else { assert (-x) * (-g) <= (-x) * 1.0; }
    }
  }

  /** Gains taken from a bounded sine and cosine never amplify. */
  lemma AutoPanFrameNeverAmplifies(f: Frame, angle: real, num: Numerics)
    requires Bounded(num)
    ensures Abs(AutoPanFrame(f, angle, num).left) <= Abs(f.left)
    ensures Abs(AutoPanFrame(f, angle, num).right) <= Abs(f.right)
  {
    GainNeverAmplifies(f.left, num.cos(angle));
    GainNeverAmplifies(f.right, num.sin(angle));
  }

  /** Auto-pan over a block: each frame scaled by the gains of its own
      sample time, neither channel ever louder than before. */
  function AutoPanBlock(data: seq<Frame>, t: seq<real>, pan: Pan, num: Numerics): (r: seq<Frame>)
    requires |t| == |data|
    ensures |r| == |data|
    ensures forall j :: 0 <= j < |data| ==> r[j] == AutoPanFrame(data[j], AutoPanAngle(pan, t[j], num), num)
    ensures Bounded(num) ==> forall j :: 0 <= j < |data| ==>
              Abs(r[j].left) <= Abs(data[j].left) && Abs(r[j].right) <= Abs(data[j].right)
  {
    var r := seq(|data|, j requires 0 <= j < |data| => AutoPanFrame(data[j], AutoPanAngle(pan, t[j], num), num));
    assert Bounded(num) ==> forall j :: 0 <= j < |data| ==>
             Abs(r[j].left) <= Abs(data[j].left) && Abs(r[j].right) <= Abs(data[j].right) by {
      if Bounded(num) {
        forall j | 0 <= j < |data|
          ensures Abs(r[j].left) <= Abs(data[j].left) && Abs(r[j].right) <= Abs(data[j].right)
        {
          AutoPanFrameNeverAmplifies(data[j], AutoPanAngle(pan, t[j], num), num);
        }
      }
    }
    r
  }

  /** `apply_panning(stereo_data, t, track)`: the same number of frames as
      its input; "center" returns the input, "hard-left" silences the right
      channel, "hard-right" the left one, and no mode makes either channel
      of any frame louder. The sample times matter only to auto-pan, whose
      envelope has one value per time. */
  function ApplyPanning(data: seq<Frame>, t: seq<real>, pan: Pan, num: Numerics): (r: seq<Frame>)
    requires IsAutoPan(pan.mode) ==> |t| == |data|
    ensures |r| == |data|
    ensures pan.mode == "center" ==> r == data
    ensures pan.mode == "hard-left" ==> forall j :: 0 <= j < |data| ==> r[j] == Frame(data[j].left, 0.0)
    ensures pan.mode == "hard-right" ==> forall j :: 0 <= j < |data| ==> r[j] == Frame(0.0, data[j].right)
    ensures IsAutoPan(pan.mode) ==> r == AutoPanBlock(data, t, pan, num)
    ensures Bounded(num) ==> forall j :: 0 <= j < |data| ==>
              Abs(r[j].left) <= Abs(data[j].left) && Abs(r[j].right) <= Abs(data[j].right)
  {
    if pan.mode == "center" then data
    else if pan.mode == "hard-left" then seq(|data|, j requires 0 <= j < |data| => Frame(data[j].left, 0.0))
    else if pan.mode == "hard-right" then seq(|data|, j requires 0 <= j < |data| => Frame(0.0, data[j].right))
    else AutoPanBlock(data, t, pan, num)
  }

  lemma EnvelopeRightToLeft(pan: Pan, time: real, num: Numerics)
    requires pan.direction == "right-to-left"
    ensures Envelope(pan, time, num) == -(pan.depth * PanWave(pan.speed, time, num))
  {
  }

  lemma EnvelopeOtherwise(pan: Pan, time: real, num: Numerics)
    requires pan.direction != "right-to-left"
    ensures Envelope(pan, time, num) == pan.depth * PanWave(pan.speed, time, num)
  {
  }

  lemma AlternateAngle(pan: Pan, time: real, num: Numerics)
    ensures AutoPanAngle(pan.(direction := "alternate"), time, num)
         == AutoPanAngle(pan.(direction := "left-to-right"), time, num)
  {
    EnvelopeOtherwise(pan.(direction := "alternate"), time, num);
    EnvelopeOtherwise(pan.(direction := "left-to-right"), time, num);
  }

  /** The "alternate" direction pans exactly like "left-to-right". */
  lemma AlternateIsLeftToRight(data: seq<Frame>, t: seq<real>, pan: Pan, num: Numerics)
    requires |t| == |data|
    ensures ApplyPanning(data, t, pan.(direction := "alternate"), num)
         == ApplyPanning(data, t, pan.(direction := "left-to-right"), num)
  {
    var alt, ltr := pan.(direction := "alternate"), pan.(direction := "left-to-right");
    if IsAutoPan(pan.mode) {
      var ra, rl := AutoPanBlock(data, t, alt, num), AutoPanBlock(data, t, ltr, num);
      forall j | 0 <= j < |data|
        ensures ra[j] == rl[j]
      {
        AlternateAngle(pan, t[j], num);
      }
      assert ra == rl;
    }
  }

  /** "right-to-left" mirrors "left-to-right": its position is the negated
      one, so its angle is the complement pi/2 - angle. */
  lemma RightToLeftMirrors(pan: Pan, time: real, num: Numerics)
    ensures Envelope(pan.(direction := "right-to-left"), time, num)
         == -Envelope(pan.(direction := "left-to-right"), time, num)
    ensures AutoPanAngle(pan.(direction := "right-to-left"), time, num)
         == Pi / 2.0 - AutoPanAngle(pan.(direction := "left-to-right"), time, num)
  {
    var rtl, ltr := pan.(direction := "right-to-left"), pan.(direction := "left-to-right");
    EnvelopeRightToLeft(rtl, time, num);
    EnvelopeOtherwise(ltr, time, num);
    var e := Envelope(ltr, time, num);
    assert Clip(-e) == -Clip(e);
  }

  /** Equal power: where sin^2 + cos^2 = 1 holds at the pan angle, auto-pan
      splits the power x^2 of a mono frame (every generator but the
      binaural one produces one) between the two channels without
      changing it. */
  lemma AutoPanKeepsPower(x: real, angle: real, num: Numerics)
    requires num.sin(angle) * num.sin(angle) + num.cos(angle) * num.cos(angle) == 1.0
    ensures var f := AutoPanFrame(Frame(x, x), angle, num);
            f.left * f.left + f.right * f.right == x * x
  {
    var c, s := num.cos(angle), num.sin(angle);
    calc {
      (x * c) * (x * c) + (x * s) * (x * s);
      x * x * (c * c + s * s);
      x * x;
    }
  }
}
