/** The settings file: the record `export_settings` writes for each track,
    and how `add_track` reads such a record back when `import_settings`
    passes it in. JSON text and file handling are not modelled; a record is
    the dictionary `json.load` returns for one track. */
module Settings {
  import opened Wrappers
  import opened Tracks

  /** A JSON value as it appears in a track record. */
  datatype Value = Num(num: real) | Flag(flag: bool) | Text(text: string)

  /** The keys `export_settings` writes and `add_track` reads. A record
      loaded from a file may hold other keys too; nothing reads them, so
      the model leaves them out. */
  datatype Key =
    | TypeKey | TitleKey | EnabledKey | VolumeKey
    | PanModeKey | PanDirectionKey | PanSpeedKey | PanDepthKey
    | BaseFreqKey | BeatFreqKey
    | NoiseTypeKey | LowCutKey | HighCutKey
    | FrequencyKey | IsoEnabledKey | IsoFreqKey | IsoDepthKey
    | ModEnabledKey | MinFreqKey | MaxFreqKey | ModSpeedKey

  /** The JSON name of each key. */
  function KeyName(k: Key): string {
    match k
    case TypeKey => "type"
    case TitleKey => "title"
    case EnabledKey => "enabled"
    case VolumeKey => "volume"
    case PanModeKey => "pan_mode"
    case PanDirectionKey => "pan_direction"
    case PanSpeedKey => "pan_speed"
    case PanDepthKey => "pan_depth"
    case BaseFreqKey => "base_freq"
    case BeatFreqKey => "beat_freq"
    case NoiseTypeKey => "noise_type"
    case LowCutKey => "low_cut"
    case HighCutKey => "high_cut"
    case FrequencyKey => "frequency"
    case IsoEnabledKey => "iso_enabled"
    case IsoFreqKey => "iso_freq"
    case IsoDepthKey => "iso_depth"
    case ModEnabledKey => "mod_enabled"
    case MinFreqKey => "min_freq"
    case MaxFreqKey => "max_freq"
    case ModSpeedKey => "mod_speed"
  }

  type Record = map<Key, Value>

  /** The whole file: the global volume and duration and the track list.
      A field that is None is absent from the file. */
  datatype Document = Document(volume: Option<real>, duration: Option<int>, tracks: Option<seq<Record>>)

  const AllKeys: set<Key> := {
    TypeKey, TitleKey, EnabledKey, VolumeKey, PanModeKey, PanDirectionKey, PanSpeedKey, PanDepthKey,
    BaseFreqKey, BeatFreqKey, NoiseTypeKey, LowCutKey, HighCutKey, FrequencyKey, IsoEnabledKey,
    IsoFreqKey, IsoDepthKey, ModEnabledKey, MinFreqKey, MaxFreqKey, ModSpeedKey
  }

  lemma AllKeysComplete()
    ensures forall k: Key :: k in AllKeys
  {
    forall k: Key
      ensures k in AllKeys
    {
      match k {
        case TypeKey => case TitleKey => case EnabledKey => case VolumeKey =>
        case PanModeKey => case PanDirectionKey => case PanSpeedKey => case PanDepthKey =>
        case BaseFreqKey => case BeatFreqKey => case NoiseTypeKey => case LowCutKey =>
        case HighCutKey => case FrequencyKey => case IsoEnabledKey => case IsoFreqKey =>
        case IsoDepthKey => case ModEnabledKey => case MinFreqKey => case MaxFreqKey =>
        case ModSpeedKey =>
      }
    }
  }

  /** The value `export_settings` writes under one key for a track, or None
      where it writes nothing: the five common keys always, the three
      auto-pan keys only when the pan mode is "auto-pan", and the keys of
      the track's own kind. */
  function Field(tr: Track, k: Key): Option<Value> {
    var s, pan := tr.source, tr.pan;
    match k
    case TypeKey => Some(Text(TypeName(s)))
    case TitleKey => Some(Text(tr.title))
    case EnabledKey => Some(Flag(tr.enabled))
    case VolumeKey => Some(Num(tr.volume))
    case PanModeKey => Some(Text(pan.mode))
    case PanDirectionKey => if pan.mode == "auto-pan" then Some(Text(pan.direction)) else None
    case PanSpeedKey => if pan.mode == "auto-pan" then Some(Num(pan.speed)) else None
    case PanDepthKey => if pan.mode == "auto-pan" then Some(Num(pan.depth)) else None
    case BaseFreqKey => if s.BinauralSource? then Some(Num(s.baseFreq)) else None
    case BeatFreqKey => if s.BinauralSource? then Some(Num(s.beatFreq)) else None
    case NoiseTypeKey => if s.NoiseSource? then Some(Text(s.noiseType)) else None
    case LowCutKey => if s.NoiseSource? then Some(Num(s.lowCut)) else None
    case HighCutKey => if s.NoiseSource? then Some(Num(s.highCut)) else None
    case FrequencyKey => if s.ToneSource? then Some(Num(s.frequency)) else None
    case IsoEnabledKey => if s.ToneSource? then Some(Flag(s.isoEnabled)) else None
    case IsoFreqKey => if s.ToneSource? then Some(Num(s.isoFreq)) else None
    case IsoDepthKey => if s.ToneSource? then Some(Num(s.isoDepth)) else None
    case ModEnabledKey => if s.ToneSource? then Some(Flag(s.modEnabled)) else None
    case MinFreqKey => if s.ToneSource? then Some(Num(s.minFreq)) else None
    case MaxFreqKey => if s.ToneSource? then Some(Num(s.maxFreq)) else None
    case ModSpeedKey => if s.ToneSource? then Some(Num(s.modSpeed)) else None
  }

  /** The record `export_settings` writes for a track. */
  function ExportRecord(tr: Track): (rec: Record)
    ensures forall k :: k in rec <==> Field(tr, k).Some?
    ensures forall k :: k in rec ==> rec[k] == Field(tr, k).value
  {
    AllKeysComplete();
    map k | k in AllKeys && Field(tr, k).Some? :: Field(tr, k).value
  }

  /** `settings[key]` read as a number; the error names the key that is
      missing (a KeyError) or holds another kind of value. */
  function GetNum(rec: Record, key: Key): (r: Result<real, Key>)
    ensures r.Ok? <==> key in rec && rec[key].Num?
    ensures r.Ok? ==> rec[key] == Num(r.value)
    ensures r.Err? ==> r.error == key
  {
    if key in rec && rec[key].Num? then Ok(rec[key].num) else Err(key)
  }

  function GetFlag(rec: Record, key: Key): (r: Result<bool, Key>)
    ensures r.Ok? <==> key in rec && rec[key].Flag?
    ensures r.Ok? ==> rec[key] == Flag(r.value)
    ensures r.Err? ==> r.error == key
  {
    if key in rec && rec[key].Flag? then Ok(rec[key].flag) else Err(key)
  }

  function GetText(rec: Record, key: Key): (r: Result<string, Key>)
    ensures r.Ok? <==> key in rec && rec[key].Text?
    ensures r.Ok? ==> rec[key] == Text(r.value)
    ensures r.Err? ==> r.error == key
  {
    if key in rec && rec[key].Text? then Ok(rec[key].text) else Err(key)
  }

  /** The kind-specific parameters, read in the order
      `setup_binaural_controls`, `setup_noise_controls` and
      `setup_tone_controls` read them; an unknown type reads none. */
  function DecodeSource(typeName: string, rec: Record): (r: Result<Source, Key>)
    ensures r.Ok? ==> TypeName(r.value) == typeName
    ensures r.Ok? ==> (r.value.OtherSource? <==> !KnownType(typeName))
  {
    if typeName == "binaural" then
      var baseFreq :- GetNum(rec, BaseFreqKey);
      var beatFreq :- GetNum(rec, BeatFreqKey);
      Ok(BinauralSource(baseFreq, beatFreq))
    else if typeName == "noise" then
      var noiseType :- GetText(rec, NoiseTypeKey);
      var lowCut :- GetNum(rec, LowCutKey);
      var highCut :- GetNum(rec, HighCutKey);
      Ok(NoiseSource(noiseType, lowCut, highCut))
    else if typeName == "tone" then
      var frequency :- GetNum(rec, FrequencyKey);
      var iso :- DecodeIsochronic(rec);
      var modulation :- DecodeModulation(rec);
      Ok(ToneSource(frequency, iso.0, iso.1, iso.2, modulation.0, modulation.1, modulation.2, modulation.3))
    else Ok(OtherSource(typeName))
  }

  /** The isochronic keys of a tone record, in reading order. */
  function DecodeIsochronic(rec: Record): Result<(bool, real, real), Key> {
    var isoEnabled :- GetFlag(rec, IsoEnabledKey);
    var isoFreq :- GetNum(rec, IsoFreqKey);
    var isoDepth :- GetNum(rec, IsoDepthKey);
    Ok((isoEnabled, isoFreq, isoDepth))
  }

  /** The frequency-modulation keys of a tone record, in reading order. */
  function DecodeModulation(rec: Record): Result<(bool, real, real, real), Key> {
    var modEnabled :- GetFlag(rec, ModEnabledKey);
    var minFreq :- GetNum(rec, MinFreqKey);
    var maxFreq :- GetNum(rec, MaxFreqKey);
    var modSpeed :- GetNum(rec, ModSpeedKey);
    Ok((modEnabled, minFreq, maxFreq, modSpeed))
  }

  /** `setup_pan_controls` as written: all four pan keys are required. */
  function DecodePanAsWritten(rec: Record): (r: Result<Pan, Key>)
    ensures r.Ok? <==> GetText(rec, PanModeKey).Ok? && GetText(rec, PanDirectionKey).Ok?
                       && GetNum(rec, PanSpeedKey).Ok? && GetNum(rec, PanDepthKey).Ok?
  {
    var mode :- GetText(rec, PanModeKey);
    var direction :- GetText(rec, PanDirectionKey);
    var speed :- GetNum(rec, PanSpeedKey);
    var depth :- GetNum(rec, PanDepthKey);
    Ok(Pan(mode, direction, speed, depth))
  }

  /** A key that may be absent, falling back to the control's default. */
  function GetTextOr(rec: Record, key: Key, default: string): (r: Result<string, Key>)
    ensures key !in rec ==> r == Ok(default)
    ensures key in rec ==> r == GetText(rec, key)
  {
    if key in rec then GetText(rec, key) else Ok(default)
  }

  function GetNumOr(rec: Record, key: Key, default: real): (r: Result<real, Key>)
    ensures key !in rec ==> r == Ok(default)
    ensures key in rec ==> r == GetNum(rec, key)
  {
    if key in rec then GetNum(rec, key) else Ok(default)
  }

  /** `setup_pan_controls` reading the keys `export_settings` may leave
      out: an absent direction, speed or depth takes the control's own
      default, as it does when no settings are given. */
  function DecodePan(rec: Record): (r: Result<Pan, Key>)
    ensures PanModeKey in rec && rec[PanModeKey].Text?
            && PanDirectionKey !in rec && PanSpeedKey !in rec && PanDepthKey !in rec
            ==> r == Ok(DefaultPan.(mode := rec[PanModeKey].text))
    ensures DecodePanAsWritten(rec).Ok? ==> r == DecodePanAsWritten(rec)
  {
    var mode :- GetText(rec, PanModeKey);
    var direction :- GetTextOr(rec, PanDirectionKey, DefaultPan.direction);
    var speed :- GetNumOr(rec, PanSpeedKey, DefaultPan.speed);
    var depth :- GetNumOr(rec, PanDepthKey, DefaultPan.depth);
    Ok(Pan(mode, direction, speed, depth))
  }

  /** `add_track(track_type, settings)` with a non-empty settings record:
      title, enabled flag and volume first, then the kind-specific
      controls, then the pan controls; the first key that fails is the
      error. */
  function Assemble(id: nat, typeName: string, rec: Record, pan: Result<Pan, Key>): (r: Result<Track, Key>)
    ensures r.Ok? ==> r.value.id == id && TypeName(r.value.source) == typeName && WellFormed(r.value)
  {
    var title :- GetText(rec, TitleKey);
    var enabled :- GetFlag(rec, EnabledKey);
    var volume :- GetNum(rec, VolumeKey);
    var source :- DecodeSource(typeName, rec);
    var p :- pan;
    Ok(Track(id, source, title, enabled, volume, p))
  }

  /** Which reading of the pan keys a decoder uses: the application's own,
      which requires all four, or the one that falls back to the control
      defaults for the three `export_settings` may leave out. */
  datatype Reading = AsWritten | WithDefaults

  /** The record decoder as the application has it. */
  function DecodeTrackAsWritten(id: nat, typeName: string, rec: Record): Result<Track, Key> {
    Assemble(id, typeName, rec, DecodePanAsWritten(rec))
  }

  /** The record decoder with absent pan keys defaulted. */
  function DecodeTrack(id: nat, typeName: string, rec: Record): Result<Track, Key> {
    Assemble(id, typeName, rec, DecodePan(rec))
  }

  /** The track `add_track` builds: from the defaults when `settings` is
      None or empty (an empty dict is false in Python), from the record
      otherwise. The application reads records `AsWritten`. */
  function NewTrack(id: nat, typeName: string, settings: Option<Record>, reading: Reading): (r: Result<Track, Key>)
    ensures r.Ok? ==> r.value.id == id && TypeName(r.value.source) == typeName && WellFormed(r.value)
    ensures settings.None? || settings == Some(map[]) ==> r == Ok(DefaultTrack(id, typeName))
  {
    if settings.None? || settings.value == map[] then Ok(DefaultTrack(id, typeName))
    else match reading
      case AsWritten => DecodeTrackAsWritten(id, typeName, settings.value)
      case WithDefaults => DecodeTrack(id, typeName, settings.value)
  }

  /** What of a track a saved record keeps: everything but the id, and the
      pan direction, speed and depth only in "auto-pan" mode; otherwise
      those come back as the defaults. */
  function Saved(tr: Track, id: nat): Track {
    if tr.pan.mode == "auto-pan" then tr.(id := id)
    else tr.(id := id, pan := DefaultPan.(mode := tr.pan.mode))
  }

  lemma SourceRoundTrip(tr: Track)
    requires WellFormed(tr)
    ensures DecodeSource(TypeName(tr.source), ExportRecord(tr)) == Ok(tr.source)
  {
    var rec, s := ExportRecord(tr), tr.source;
    match s {
      case BinauralSource(baseFreq, beatFreq) =>
        assert GetNum(rec, BaseFreqKey) == Ok(baseFreq);
        assert GetNum(rec, BeatFreqKey) == Ok(beatFreq);
      case NoiseSource(noiseType, lowCut, highCut) =>
        assert GetText(rec, NoiseTypeKey) == Ok(noiseType);
        assert GetNum(rec, LowCutKey) == Ok(lowCut);
        assert GetNum(rec, HighCutKey) == Ok(highCut);
      case ToneSource(_, _, _, _, _, _, _, _) =>
        ToneRoundTrip(tr);
      case OtherSource(_) =>
    }
  }

  lemma ToneRoundTrip(tr: Track)
    requires tr.source.ToneSource?
    ensures DecodeSource("tone", ExportRecord(tr)) == Ok(tr.source)
  {
    var rec, s := ExportRecord(tr), tr.source;
    assert GetNum(rec, FrequencyKey) == Ok(s.frequency);
    IsochronicRoundTrip(tr);
    ModulationRoundTrip(tr);
  }

  lemma IsochronicRoundTrip(tr: Track)
    requires tr.source.ToneSource?
    ensures var s := tr.source;
            DecodeIsochronic(ExportRecord(tr)) == Ok((s.isoEnabled, s.isoFreq, s.isoDepth))
  {
    var rec, s := ExportRecord(tr), tr.source;
    assert GetFlag(rec, IsoEnabledKey) == Ok(s.isoEnabled);
    assert GetNum(rec, IsoFreqKey) == Ok(s.isoFreq);
    assert GetNum(rec, IsoDepthKey) == Ok(s.isoDepth);
  }

  lemma ModulationRoundTrip(tr: Track)
    requires tr.source.ToneSource?
    ensures var s := tr.source;
            DecodeModulation(ExportRecord(tr)) == Ok((s.modEnabled, s.minFreq, s.maxFreq, s.modSpeed))
  {
    var rec, s := ExportRecord(tr), tr.source;
    assert GetFlag(rec, ModEnabledKey) == Ok(s.modEnabled);
    assert GetNum(rec, MinFreqKey) == Ok(s.minFreq);
    assert GetNum(rec, MaxFreqKey) == Ok(s.maxFreq);
    assert GetNum(rec, ModSpeedKey) == Ok(s.modSpeed);
  }

  /** Exporting a track and reading the record back gives the saved track. */
  lemma ExportImportRoundTrip(tr: Track, id: nat)
    requires WellFormed(tr)
    ensures DecodeTrack(id, TypeName(tr.source), ExportRecord(tr)) == Ok(Saved(tr, id))
  {
    var rec := ExportRecord(tr);
    SourceRoundTrip(tr);
    assert rec[TitleKey] == Text(tr.title) && rec[EnabledKey] == Flag(tr.enabled) && rec[VolumeKey] == Num(tr.volume);
    if tr.pan.mode == "auto-pan" {
      assert rec[PanDirectionKey] == Text(tr.pan.direction);
      assert rec[PanSpeedKey] == Num(tr.pan.speed) && rec[PanDepthKey] == Num(tr.pan.depth);
    } else {
      assert PanSpeedKey !in rec && PanDepthKey !in rec;
    }
  }

  /** As written, the round trip of any track not in "auto-pan" mode
      stops at the missing "pan_direction" key. */
  lemma AsWrittenRoundTripFails(tr: Track, id: nat)
    requires WellFormed(tr) && tr.pan.mode != "auto-pan"
    ensures DecodeTrackAsWritten(id, TypeName(tr.source), ExportRecord(tr)) == Err(PanDirectionKey)
  {
    var rec := ExportRecord(tr);
    SourceRoundTrip(tr);
    assert rec[TitleKey] == Text(tr.title) && rec[EnabledKey] == Flag(tr.enabled) && rec[VolumeKey] == Num(tr.volume);
  }

  /** As written, "auto-pan" tracks do survive the round trip. */
  lemma AsWrittenAutoPanRoundTrip(tr: Track, id: nat)
    requires WellFormed(tr) && tr.pan.mode == "auto-pan"
    ensures DecodeTrackAsWritten(id, TypeName(tr.source), ExportRecord(tr)) == Ok(tr.(id := id))
  {
    ExportImportRoundTrip(tr, id);
  }

  /** A freshly added track (pan mode "center") is written in a form the
      decoder as written cannot read back. */
  lemma DefaultTrackDoesNotRoundTrip()
    ensures DecodeTrackAsWritten(0, "tone", ExportRecord(DefaultTrack(0, "tone"))) == Err(PanDirectionKey)
  {
    AsWrittenRoundTripFails(DefaultTrack(0, "tone"), 0);
  }

  /** One entry of the "tracks" list of an imported file: its "type" is
      read first, then `add_track` decodes the record with the next id. */
  function ImportOne(rec: Record, id: nat, reading: Reading): (r: Result<Track, Key>)
    ensures r.Ok? ==> r.value.id == id && WellFormed(r.value)
    ensures TypeKey !in rec ==> r == Err(TypeKey)
  {
    var typeName :- GetText(rec, TypeKey);
    NewTrack(id, typeName, Some(rec), reading)
  }

  /** The outcome of the track loop of `import_settings`: the tracks added
      before the first failing record, and the key that failed, if any. */
  datatype Imported = Imported(tracks: seq<Track>, error: Option<Key>)

  /** The track loop of `import_settings` over a record list, numbering
      tracks from 0 (the counter has just been reset). */
  function ImportTracks(records: seq<Record>, reading: Reading): (r: Imported)
    ensures |r.tracks| <= |records|
    ensures r.error.None? ==> |r.tracks| == |records|
    ensures forall i :: 0 <= i < |r.tracks| ==> r.tracks[i].id == i && WellFormed(r.tracks[i])
    decreases |records|
  {
    if records == [] then Imported([], None)
    else
      var prev := ImportTracks(records[..|records| - 1], reading);
      if prev.error.Some? then prev
      else
        match ImportOne(records[|records| - 1], |prev.tracks|, reading)
        case Err(key) => Imported(prev.tracks, Some(key))
        case Ok(tr) => Imported(prev.tracks + [tr], None)
  }

  /** The loop's step: a list that has already failed stays as it is;
      otherwise the next record is imported with the next id. */
  lemma ImportStep(records: seq<Record>, k: nat, reading: Reading)
    requires k < |records|
    ensures var prev := ImportTracks(records[..k], reading);
            ImportTracks(records[..k + 1], reading) ==
              if prev.error.Some? then prev
              else match ImportOne(records[k], |prev.tracks|, reading)
                   case Err(key) => Imported(prev.tracks, Some(key))
                   case Ok(tr) => Imported(prev.tracks + [tr], None)
  {
    assert records[..k + 1][..k] == records[..k];
  }

  /** Once a record fails, the rest of the list is not read. */
  lemma {:induction false} ImportStops(records: seq<Record>, k: nat, reading: Reading)
    requires k <= |records|
    requires ImportTracks(records[..k], reading).error.Some?
    ensures ImportTracks(records, reading) == ImportTracks(records[..k], reading)
    decreases |records| - k
  {
    if k < |records| {
      ImportStep(records, k, reading);
      assert ImportTracks(records[..k + 1], reading) == ImportTracks(records[..k], reading);
      ImportStops(records, k + 1, reading);
    } else {
      assert records[..k] == records;
    }
  }

  /** The records `export_settings` writes for a track list. */
  function ExportRecords(ts: seq<Track>): (rs: seq<Record>)
    ensures |rs| == |ts|
    ensures forall i :: 0 <= i < |ts| ==> rs[i] == ExportRecord(ts[i])
  {
    seq(|ts|, i requires 0 <= i < |ts| => ExportRecord(ts[i]))
  }

  /** With absent pan keys defaulted, importing an exported track list
      restores every track, renumbered from 0, with what a record does not
      keep reset to the defaults. */
  lemma {:induction false} ImportOfExport(ts: seq<Track>)
    requires forall i :: 0 <= i < |ts| ==> WellFormed(ts[i])
    ensures ImportTracks(ExportRecords(ts), WithDefaults).error.None?
    ensures var r := ImportTracks(ExportRecords(ts), WithDefaults);
            forall i :: 0 <= i < |ts| ==> r.tracks[i] == Saved(ts[i], i)
    decreases |ts|
  {
    if ts != [] {
      var init := ts[..|ts| - 1];
      var tr := ts[|ts| - 1];
      ImportOfExport(init);
      var rs := ExportRecords(ts);
      assert rs[..|rs| - 1] == ExportRecords(init);
      var prev := ImportTracks(ExportRecords(init), WithDefaults);
      assert |prev.tracks| == |init|;
      ImportOneOfExport(tr, |init|);
      assert ImportTracks(rs, WithDefaults) == Imported(prev.tracks + [Saved(tr, |init|)], None);
    }
  }

  /** With absent pan keys defaulted, one exported record imports as the
      saved track. */
  lemma ImportOneOfExport(tr: Track, id: nat)
    requires WellFormed(tr)
    ensures ImportOne(ExportRecord(tr), id, WithDefaults) == Ok(Saved(tr, id))
  {
    var rec := ExportRecord(tr);
    ExportImportRoundTrip(tr, id);
    assert rec != map[] by { assert TypeKey in rec; }
  }

  /** As written, one exported record imports exactly when its track is in
      "auto-pan" mode, and otherwise fails at "pan_direction". */
  lemma ImportOneOfExportAsWritten(tr: Track, id: nat)
    requires WellFormed(tr)
    ensures tr.pan.mode == "auto-pan" ==> ImportOne(ExportRecord(tr), id, AsWritten) == Ok(tr.(id := id))
    ensures tr.pan.mode != "auto-pan" ==> ImportOne(ExportRecord(tr), id, AsWritten) == Err(PanDirectionKey)
  {
    var rec := ExportRecord(tr);
    assert rec != map[] by { assert TypeKey in rec; }
    if tr.pan.mode == "auto-pan" {
      AsWrittenAutoPanRoundTrip(tr, id);
    } else {
      AsWrittenRoundTripFails(tr, id);
    }
  }

  /** As written, a list of "auto-pan" tracks survives export and import. */
  lemma {:induction false} ImportOfAutoPanExport(ts: seq<Track>)
    requires forall i :: 0 <= i < |ts| ==> WellFormed(ts[i]) && ts[i].pan.mode == "auto-pan"
    ensures ImportTracks(ExportRecords(ts), AsWritten).error.None?
    ensures var r := ImportTracks(ExportRecords(ts), AsWritten);
            forall i :: 0 <= i < |ts| ==> r.tracks[i] == ts[i].(id := i)
    decreases |ts|
  {
    if ts != [] {
      var init := ts[..|ts| - 1];
      var tr := ts[|ts| - 1];
      ImportOfAutoPanExport(init);
      var rs := ExportRecords(ts);
      assert rs[..|rs| - 1] == ExportRecords(init);
      var prev := ImportTracks(ExportRecords(init), AsWritten);
      assert |prev.tracks| == |init|;
      ImportOneOfExportAsWritten(tr, |init|);
      assert ImportTracks(rs, AsWritten) == Imported(prev.tracks + [tr.(id := |init|)], None);
    }
  }

  /** As written, importing an exported track list stops at the first
      track `k` that is not in "auto-pan" mode, failing at "pan_direction"
      and keeping the tracks before it; a list with no such track imports
      whole. */
  lemma ImportOfExportAsWritten(ts: seq<Track>, k: nat)
    requires forall i :: 0 <= i < |ts| ==> WellFormed(ts[i])
    requires k <= |ts| && forall i :: 0 <= i < k ==> ts[i].pan.mode == "auto-pan"
    requires k < |ts| ==> ts[k].pan.mode != "auto-pan"
    ensures var r := ImportTracks(ExportRecords(ts), AsWritten);
            && |r.tracks| == k
            && (forall i :: 0 <= i < k ==> r.tracks[i] == ts[i].(id := i))
            && r.error == (if k < |ts| then Some(PanDirectionKey) else None)
  {
    var rs := ExportRecords(ts);
    ImportOfAutoPanExport(ts[..k]);
    assert rs[..k] == ExportRecords(ts[..k]);
    var prev := ImportTracks(rs[..k], AsWritten);
    if k < |ts| {
      assert rs[..k + 1][..k] == rs[..k];
      ImportOneOfExportAsWritten(ts[k], k);
      assert ImportTracks(rs[..k + 1], AsWritten) == Imported(prev.tracks, Some(PanDirectionKey));
      ImportStops(rs, k + 1, AsWritten);
    } else {
      assert rs[..k] == rs;
    }
  }
}
