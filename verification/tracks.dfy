/** The track record the application keeps for every row of its track list,
    with the parameter defaults `add_track` uses when no saved settings are
    given. The application keys tracks by a type string; the model uses a
    tagged union whose `OtherSource` case stands for any type string other
    than the three it knows. */
module Tracks {

  /** Kind-specific parameters. Only the binaural base/beat frequencies and
      the tone frequency are read by the generators; the noise colour and
      cut-offs and the isochronic / modulation fields are stored and saved,
      nothing more. */
  datatype Source =
    | BinauralSource(baseFreq: real, beatFreq: real)
    | NoiseSource(noiseType: string, lowCut: real, highCut: real)
    | ToneSource(frequency: real, isoEnabled: bool, isoFreq: real, isoDepth: real,
                 modEnabled: bool, minFreq: real, maxFreq: real, modSpeed: real)
    | OtherSource(typeName: string)

  /** The `type` string of a track. */
  function TypeName(s: Source): string {
    match s
    case BinauralSource(_, _) => "binaural"
    case NoiseSource(_, _, _) => "noise"
    case ToneSource(_, _, _, _, _, _, _, _) => "tone"
    case OtherSource(name) => name
  }

  predicate KnownType(name: string) {
    name == "binaural" || name == "noise" || name == "tone"
  }

  /** Pan settings. `mode` is one of the strings "center", "hard-left",
      "hard-right", "auto-pan" offered by the combo box (any other string
      behaves like "auto-pan"); `direction` is "left-to-right",
      "right-to-left" or "alternate". */
  datatype Pan = Pan(mode: string, direction: string, speed: real, depth: real)

  datatype Track = Track(id: nat, source: Source, title: string, enabled: bool, volume: real, pan: Pan)

  /** A track whose `OtherSource` really is of an unknown type: every track
      the application builds has this shape, since the type string decides
      which parameters it gets. */
  predicate WellFormed(tr: Track) {
    tr.source.OtherSource? ==> !KnownType(tr.source.typeName)
  }

  /** The parameter defaults of `setup_binaural_controls`,
      `setup_noise_controls` and `setup_tone_controls`. */
  function DefaultSource(typeName: string): (s: Source)
    ensures TypeName(s) == typeName
    ensures s.OtherSource? <==> !KnownType(typeName)
  {
    if typeName == "binaural" then BinauralSource(200.0, 7.83)
    else if typeName == "noise" then NoiseSource("white", 20.0, 20000.0)
    else if typeName == "tone" then ToneSource(432.0, false, 7.83, 1.0, false, 20.0, 1000.0, 0.5)
    else OtherSource(typeName)
  }

  /** The pan defaults of `setup_pan_controls`. */
  const DefaultPan: Pan := Pan("center", "alternate", 0.5, 0.5)

  predicate IsAsciiLetter(c: char) {
    ('a' <= c <= 'z') || ('A' <= c <= 'Z')
  }

  function Upper(c: char): char {
    if 'a' <= c <= 'z' then (c as int - 32) as char else c
  }

  function Lower(c: char): char {
    if 'A' <= c <= 'Z' then (c as int + 32) as char else c
  }

  /** `str.title()` on ASCII text: a letter is upper-cased when the
      character before it is not a letter, lower-cased otherwise. */
  function TitleCase(s: string, afterLetter: bool := false): (r: string)
    ensures |r| == |s|
    ensures forall i :: 0 <= i < |s| ==> IsAsciiLetter(r[i]) == IsAsciiLetter(s[i])
    ensures forall i :: 0 <= i < |s| && !IsAsciiLetter(s[i]) ==> r[i] == s[i]
    ensures forall i :: 0 < i < |s| && IsAsciiLetter(s[i]) ==>
              r[i] == if IsAsciiLetter(s[i - 1]) then Lower(s[i]) else Upper(s[i])
    ensures |s| > 0 && IsAsciiLetter(s[0]) ==> r[0] == if afterLetter then Lower(s[0]) else Upper(s[0])
  {
    if s == [] then []
    else
      var c := s[0];
      var d := if !IsAsciiLetter(c) then c else if afterLetter then Lower(c) else Upper(c);
      [d] + TitleCase(s[1..], IsAsciiLetter(c))
  }

  function Digit(d: nat): char
    requires d < 10
  {
    ('0' as int + d) as char
  }

  /** The decimal digits of n, as Python's `str(n)` writes them. */
  function Decimal(n: nat): (r: string)
    ensures |r| > 0
    ensures forall i :: 0 <= i < |r| ==> '0' <= r[i] <= '9'
    ensures (r[0] == '0') <==> (n == 0)
  {
    if n < 10 then [Digit(n)] else Decimal(n / 10) + [Digit(n % 10)]
  }

  /** The number a string of decimal digits denotes. */
  function DigitsValue(s: string): nat
    requires forall i :: 0 <= i < |s| ==> '0' <= s[i] <= '9'
  {
    if s == [] then 0 else 10 * DigitsValue(s[..|s| - 1]) + (s[|s| - 1] as int - '0' as int)
  }

  /** `str(n)` denotes n. */
  lemma {:induction false} DecimalValue(n: nat)
    ensures DigitsValue(Decimal(n)) == n
  {
    if n >= 10 {
      DecimalValue(n / 10);
      var r := Decimal(n);
      assert r[..|r| - 1] == Decimal(n / 10);
    }
  }

  /** `f"{track_type.title()} {track_id+1}"`. */
  function DefaultTitle(typeName: string, id: nat): string {
    TitleCase(typeName) + " " + Decimal(id + 1)
  }

  /** The track `add_track(track_type)` builds when it is given no saved
      settings: enabled, full volume, centred, with the default parameters. */
  function DefaultTrack(id: nat, typeName: string): (tr: Track)
    ensures WellFormed(tr) && tr.id == id && TypeName(tr.source) == typeName
    ensures tr.enabled && tr.volume == 1.0 && tr.pan == DefaultPan
  {
    Track(id, DefaultSource(typeName), DefaultTitle(typeName, id), true, 1.0, DefaultPan)
  }
}
