/** The application object `BinauralApp` with its widgets taken away: the
    track list and id counter, the global volume and duration, the playback
    counter, and the operations that change them. */
module App {
  import opened Wrappers
  import opened Signal
  import opened Tracks
  import opened Generators
  import opened Mixer
  import opened Export
  import opened Settings

  /** `tracks.pop(i)` for the first `i` whose track has the given id, or
      nothing when no track has it. */
  function RemoveFirst(ts: seq<Track>, id: nat): (r: seq<Track>)
    ensures |r| == |ts| || |r| == |ts| - 1
  {
    if ts == [] then []
    else if ts[0].id == id then ts[1..]
    else [ts[0]] + RemoveFirst(ts[1..], id)
  }

  /** When `i` is the first position holding the id, exactly that track
      goes and the others keep their order. */
  lemma {:induction false} RemoveFirstAt(ts: seq<Track>, id: nat, i: nat)
    requires i < |ts| && ts[i].id == id
    requires forall k :: 0 <= k < i ==> ts[k].id != id
    ensures RemoveFirst(ts, id) == ts[..i] + ts[i + 1..]
    decreases i
  {
    if i > 0 {
      var tail := ts[1..];
      RemoveFirstAt(tail, id, i - 1);
      assert [ts[0]] + (tail[..i - 1] + tail[i..]) == ts[..i] + ts[i + 1..];
    }
  }

  /** An id no track has leaves the list as it is. */
  lemma {:induction false} RemoveFirstAbsent(ts: seq<Track>, id: nat)
    requires forall k :: 0 <= k < |ts| ==> ts[k].id != id
    ensures RemoveFirst(ts, id) == ts
    decreases |ts|
  {
    if ts != [] {
      RemoveFirstAbsent(ts[1..], id);
    }
  }

  /** Ids strictly increase along the list and are all below the counter. */
  predicate IdsFresh(ts: seq<Track>, counter: nat) {
    && (forall i :: 0 <= i < |ts| ==> ts[i].id < counter)
    && (forall i, k :: 0 <= i < k < |ts| ==> ts[i].id < ts[k].id)
  }

  /** Strictly increasing ids are distinct. */
  lemma FreshIdsUnique(ts: seq<Track>, counter: nat)
    requires IdsFresh(ts, counter)
    ensures forall i, k :: 0 <= i < |ts| && 0 <= k < |ts| && i != k ==> ts[i].id != ts[k].id
  {
  }

  /** Deleting one track keeps the ids fresh, and with distinct ids no
      other track had the deleted one's id. */
  lemma DeleteKeepsFresh(ts: seq<Track>, counter: nat, i: nat, r: seq<Track>)
    requires IdsFresh(ts, counter) && i < |ts|
    requires r == ts[..i] + ts[i + 1..]
    ensures IdsFresh(r, counter)
    ensures forall k :: 0 <= k < |r| ==> r[k].id != ts[i].id
  {
    assert forall k :: 0 <= k < |r| ==> r[k] == if k < i then ts[k] else ts[k + 1];
  }

  /** `int(x)` on a float: truncation toward zero. */
  function Truncate(x: real): (n: int)
    ensures x >= 0.0 ==> 0 <= n && n as real <= x < n as real + 1.0
    ensures x < 0.0 ==> n <= 0 && n as real - 1.0 < x <= n as real
  {
    if x >= 0.0 then x.Floor else -((-x).Floor)
  }

  /** The duration entry accepts exactly the numbers in [1, 3601). */
  lemma DurationAcceptsRange(x: real)
    ensures 1 <= Truncate(x) <= 3600 <==> 1.0 <= x < 3601.0
  {
  }

  /** `s.rstrip(c)`: every trailing `c` removed. */
  function StripTrailing(s: string, c: char): (r: string)
    ensures |r| <= |s| && r == s[..|r|]
    ensures r == [] || r[|r| - 1] != c
    ensures forall i :: |r| <= i < |s| ==> s[i] == c
  {
    if s == [] || s[|s| - 1] != c then s else StripTrailing(s[..|s| - 1], c)
  }

  /** The value a `ttk.Scale` ranging over [lo, hi] takes on `set(x)`: x
      clipped to the range. The scale then passes that value to its
      command. */
  function ScaleSet(x: real, lo: real, hi: real): (v: real)
    requires lo <= hi
    ensures lo <= v <= hi
    ensures lo <= x <= hi ==> v == x
    ensures x < lo ==> v == lo
    ensures x > hi ==> v == hi
  {
    if x < lo then lo else if x > hi then hi else x
  }

  /** The duration left by `duration_slider.set(min(d, 600))`: the scale
      clips to its range [10, 600] and its command
      `set_duration_from_slider` stores `int(float(value))`. Only a
      duration within the slider's range is kept. */
  function SliderDuration(d: int): (r: int)
    ensures 10 <= r <= 600
    ensures r == d <==> 10 <= d <= 600
    ensures d < 10 ==> r == 10
    ensures d > 600 ==> r == 600
  {
    Truncate(ScaleSet(if d < 600 then d as real else 600.0, 10.0, 600.0))
  }

  /** As written, accepted entries outside the slider's range are not
      kept: 1200 seconds become 600, and 5 seconds become 10. */
  lemma EntryDurationCut()
    ensures 1 <= Truncate(1200.0) <= 3600 && SliderDuration(Truncate(1200.0)) == 600
    ensures 1 <= Truncate(5.0) <= 3600 && SliderDuration(Truncate(5.0)) == 10
  {
    assert Truncate(1200.0) == 1200;
    assert Truncate(5.0) == 5;
  }

  /** The duration `set_duration_from_entry` evidently means to store: the
      truncated entry when it lies in 1..3600, the current duration
      otherwise. */
  function IntendedEntryDuration(current: int, entry: Option<real>): (d: int)
    ensures entry.Some? && 1 <= Truncate(entry.value) <= 3600 ==> 1 <= d <= 3600
    ensures 1 <= current <= 3600 ==> 1 <= d <= 3600
  {
    if entry.Some? && 1 <= Truncate(entry.value) <= 3600 then Truncate(entry.value) else current
  }

  /** Read as intended, every whole number of seconds in 1..3600 that is
      typed in becomes the duration, so the export renders all of it: `d`
      full one-second chunks, the last ending at `d` seconds of samples. */
  lemma IntendedEntryKept(current: int, d: int)
    requires 1 <= d <= 3600
    ensures IntendedEntryDuration(current, Some(d as real)) == d
    ensures var c := Chunks(IntendedEntryDuration(current, Some(d as real)) * SampleRate);
      |c| == d && c[d - 1].1 == d * SampleRate
  {
    assert Truncate(d as real) == d;
    WholeSecondChunks(d);
  }

  /** The volume entry accepts exactly the percentages in [0, 100]. */
  lemma VolumeAcceptsRange(v: real)
    ensures 0.0 <= v / 100.0 <= 1.0 <==> 0.0 <= v <= 100.0
  {
  }

  /** Whether a typed value was taken. */
  datatype EntryOutcome = Accepted | OutOfRange | NotANumber

  /** How `import_settings` ends. */
  datatype ImportOutcome = ImportCancelled | ImportFailed(key: string) | ImportDone

  /** How `export_wav` ends: a message box for no tracks, nothing when the
      file dialog is cancelled, an error box when the render raises, or the
      rendered buffer and the progress reports. */
  datatype ExportOutcome =
    | NoTracks
    | ExportCancelled
    | ExportFailed
    | Exported(audio: seq<Frame>, progress: seq<nat>)

  /** The buffer `do_export` writes: the whole duration mixed, soft-clipped
      and peak-normalised. The noise draws of each chunk are those of the
      whole render from the chunk's first sample on. */
  function Rendered(tracks: seq<Track>, total: nat, num: Numerics, noise: Noise): (r: seq<Frame>)
    ensures |r| == total
  {
    Normalized(SoftClipBlock(Mix(tracks, TimeGrid(0, total), num, noise), num))
  }

  /** A render never exceeds full scale. */
  lemma RenderedBounded(tracks: seq<Track>, total: nat, num: Numerics, noise: Noise)
    requires total > 0
    ensures forall j :: 0 <= j < total ==> Magnitude(Rendered(tracks, total, num, noise)[j]) <= 1.0
  {
    NormalizedPeak(SoftClipBlock(Mix(tracks, TimeGrid(0, total), num, noise), num));
  }

  class BinauralApp {
    var tracks: seq<Track>
    var trackCounter: nat
    var volume: real
    var duration: int
    var currentSample: nat
    var isPlaying: bool
    /** Whether `self.stream` holds an open output stream. */
    var streamOpen: bool
    /** Reset on every start and never read. */
    var phaseAccumulator: map<nat, real>

    /** Every track was built by `add_track` (so it is well formed) and got
        its id from the counter, which only grows between imports. */
    ghost predicate Valid()
      reads this
    {
      IdsFresh(tracks, trackCounter) && forall i :: 0 <= i < |tracks| ==> WellFormed(tracks[i])
    }

    /** `__init__`'s audio settings. */
    constructor()
      ensures Valid()
      ensures tracks == [] && trackCounter == 0 && volume == 0.5 && duration == 180
      ensures currentSample == 0 && !isPlaying && !streamOpen && phaseAccumulator == map[]
    {
      tracks := [];
      trackCounter := 0;
      volume := 0.5;
      duration := 180;
      currentSample := 0;
      isPlaying := false;
      streamOpen := false;
      phaseAccumulator := map[];
    }

    /** `add_track(track_type, settings)`: the new track takes the counter
        as its id and is appended, and the counter goes up by one. When the
        settings record lacks a key the track is not added and the key is
        returned. */
    method AddTrack(typeName: string, settings: Option<Record>) returns (err: Option<Key>)
      requires Valid()
      modifies this
      ensures Valid()
      ensures var made := NewTrack(old(trackCounter), typeName, settings, AsWritten);
              if made.Ok? then
                tracks == old(tracks) + [made.value] && trackCounter == old(trackCounter) + 1 && err.None?
              else
                tracks == old(tracks) && trackCounter == old(trackCounter) && err == Some(made.error)
      ensures volume == old(volume) && duration == old(duration) && currentSample == old(currentSample)
      ensures isPlaying == old(isPlaying) && streamOpen == old(streamOpen)
      ensures phaseAccumulator == old(phaseAccumulator)
    {
      var made := NewTrack(trackCounter, typeName, settings, AsWritten);
      match made {
        case Err(key) =>
          return Some(key);
        case Ok(track) =>
          tracks := tracks + [track];
          trackCounter := trackCounter + 1;
          return None;
      }
    }

    /** `remove_track(track_id)`: the first track with that id leaves the
        list; the counter is untouched, so the id is never handed out
        again. */
    method RemoveTrack(id: nat)
      requires Valid()
      modifies this
      ensures Valid()
      ensures tracks == RemoveFirst(old(tracks), id)
      ensures forall i :: 0 <= i < |tracks| ==> tracks[i].id != id
      ensures trackCounter == old(trackCounter)
      ensures volume == old(volume) && duration == old(duration) && currentSample == old(currentSample)
      ensures isPlaying == old(isPlaying) && streamOpen == old(streamOpen)
      ensures phaseAccumulator == old(phaseAccumulator)
    {
      var i := 0;
      while i < |tracks|
        invariant 0 <= i <= |tracks|
        invariant tracks == old(tracks)
        invariant forall k :: 0 <= k < i ==> tracks[k].id != id
      {
        if tracks[i].id == id {
          RemoveFirstAt(tracks, id, i);
          DeleteKeepsFresh(tracks, trackCounter, i, tracks[..i] + tracks[i + 1..]);
          tracks := tracks[..i] + tracks[i + 1..];
          assert forall k :: 0 <= k < |tracks| ==> tracks[k] in old(tracks);
          return;
        }
        i := i + 1;
      }
      RemoveFirstAbsent(tracks, id);
    }

    /** `generate_audio(t)`: start from silence and add every enabled
        track of a known type, scaled by its volume. */
    method GenerateAudio(t: seq<real>, num: Numerics, noise: Noise) returns (output: seq<Frame>)
      ensures output == Mix(tracks, t, num, noise)
    {
      if tracks == [] {
        return Zeros(|t|);
      }
      output := Zeros(|t|);
      var k := 0;
      while k < |tracks|
        invariant 0 <= k <= |tracks|
        invariant output == Mix(tracks[..k], t, num, noise)
      {
        var track := tracks[k];
        assert tracks[..k + 1][..k] == tracks[..k];
        if track.enabled {
          match TrackData(track, t, num, noise) {
            case None =>
            case Some(data) =>
              output := AddBlocks(output, ScaleBlock(data, track.volume));
          }
        }
        k := k + 1;
      }
      assert tracks[..|tracks|] == tracks;
    }

    /** `audio_callback(outdata, frames, ...)`: while playing, the next
        `frames` samples of the mix times the global volume, and the
        playback counter moves on by `frames`; otherwise silence, and the
        counter stays. */
    method AudioCallback(frames: nat, num: Numerics, noise: Noise) returns (out: seq<Frame>)
      modifies this
      ensures old(isPlaying) ==> out == ScaleBlock(Mix(tracks, TimeGrid(old(currentSample), frames), num, noise), volume)
      ensures old(isPlaying) ==> currentSample == old(currentSample) + frames
      ensures !old(isPlaying) ==> out == Zeros(frames) && currentSample == old(currentSample)
      ensures tracks == old(tracks) && trackCounter == old(trackCounter) && volume == old(volume)
      ensures duration == old(duration) && isPlaying == old(isPlaying) && streamOpen == old(streamOpen)
      ensures phaseAccumulator == old(phaseAccumulator)
    {
      if isPlaying {
        var t := TimeGrid(currentSample, frames);
        var data := GenerateAudio(t, num, noise);
        out := ScaleBlock(data, volume);
        currentSample := currentSample + frames;
      } else {
        out := Zeros(frames);
      }
    }

    /** `start_playback()`: with no tracks nothing happens; otherwise the
        playback counter and the phase table are reset and a stream is
        opened, and when opening fails playback is stopped again. */
    method StartPlayback(streamStarts: bool)
      modifies this
      ensures old(tracks) == [] ==> isPlaying == old(isPlaying) && streamOpen == old(streamOpen)
                                    && currentSample == old(currentSample)
                                    && phaseAccumulator == old(phaseAccumulator)
      ensures old(tracks) != [] ==> currentSample == 0 && phaseAccumulator == map[]
                                    && isPlaying == streamStarts && streamOpen == streamStarts
      ensures tracks == old(tracks) && trackCounter == old(trackCounter)
      ensures volume == old(volume) && duration == old(duration)
    {
      if tracks == [] {
        return;
      }
      isPlaying := true;
      currentSample := 0;
      phaseAccumulator := map[];
      if streamStarts {
        streamOpen := true;
      } else {
        StopPlayback();
      }
    }

    /** `stop_playback()`: playing stops and any open stream is closed. */
    method StopPlayback()
      modifies this
      ensures !isPlaying && !streamOpen
      ensures tracks == old(tracks) && trackCounter == old(trackCounter)
      ensures volume == old(volume) && duration == old(duration)
      ensures currentSample == old(currentSample) && phaseAccumulator == old(phaseAccumulator)
    {
      isPlaying := false;
      streamOpen := false;
    }

    /** `toggle_play()`. */
    method TogglePlay(streamStarts: bool)
      modifies this
      ensures old(isPlaying) ==> !isPlaying && !streamOpen && currentSample == old(currentSample)
      ensures old(isPlaying) ==> phaseAccumulator == old(phaseAccumulator)
      ensures !old(isPlaying) && old(tracks) != [] ==> isPlaying == streamStarts && currentSample == 0
      ensures !old(isPlaying) && old(tracks) != [] ==> streamOpen == streamStarts && phaseAccumulator == map[]
      ensures !old(isPlaying) && old(tracks) == [] ==> !isPlaying && currentSample == old(currentSample)
      ensures !old(isPlaying) && old(tracks) == [] ==> streamOpen == old(streamOpen) && phaseAccumulator == old(phaseAccumulator)
      ensures tracks == old(tracks) && trackCounter == old(trackCounter)
      ensures volume == old(volume) && duration == old(duration)
    {
      if isPlaying {
        StopPlayback();
      } else {
        StartPlayback(streamStarts);
      }
    }

    /** `set_duration_from_slider(value)`, the duration slider's command. */
    method SetDurationFromSlider(value: real)
      modifies this
      ensures duration == Truncate(value)
      ensures tracks == old(tracks) && trackCounter == old(trackCounter) && volume == old(volume)
      ensures currentSample == old(currentSample) && isPlaying == old(isPlaying)
      ensures streamOpen == old(streamOpen) && phaseAccumulator == old(phaseAccumulator)
    {
      duration := Truncate(value);
    }

    /** `update_volume_from_slider(value)`, the volume slider's command. */
    method UpdateVolumeFromSlider(value: real)
      modifies this
      ensures volume == value
      ensures tracks == old(tracks) && trackCounter == old(trackCounter) && duration == old(duration)
      ensures currentSample == old(currentSample) && isPlaying == old(isPlaying)
      ensures streamOpen == old(streamOpen) && phaseAccumulator == old(phaseAccumulator)
    {
      volume := value;
    }

    /** `set_duration_from_entry()`: `entry` is the typed text read as a
        float, None when it is not a number. The truncated value is taken
        when it lies in 1..3600; the slider is then set to it, which clips
        it to [10, 600] and stores that through the slider's command. */
    method SetDurationFromEntry(entry: Option<real>) returns (outcome: EntryOutcome)
      modifies this
      ensures outcome == Accepted <==> entry.Some? && 1 <= Truncate(entry.value) <= 3600
      ensures outcome == NotANumber <==> entry.None?
      ensures duration == if outcome == Accepted then SliderDuration(Truncate(entry.value)) else old(duration)
      ensures tracks == old(tracks) && trackCounter == old(trackCounter) && volume == old(volume)
      ensures currentSample == old(currentSample) && isPlaying == old(isPlaying)
      ensures streamOpen == old(streamOpen) && phaseAccumulator == old(phaseAccumulator)
    {
      if entry.None? {
        return NotANumber;
      }
      var d := Truncate(entry.value);
      if 1 <= d <= 3600 {
        duration := d;
        SetDurationFromSlider(ScaleSet(if d < 600 then d as real else 600.0, 10.0, 600.0));
        return Accepted;
      }
      return OutOfRange;
    }

    /** `update_volume_from_entry()`: trailing '%' signs are stripped, the
        rest read as a float by `parseFloat` (None when it is not a
        number), and one hundredth of it is taken when that lies in
        [0, 1]; setting the slider to it runs the slider's command with the
        same value. */
    method UpdateVolumeFromEntry(text: string, parseFloat: string -> Option<real>) returns (outcome: EntryOutcome)
      modifies this
      ensures var v := parseFloat(StripTrailing(text, '%'));
              && (outcome == NotANumber <==> v.None?)
              && (outcome == Accepted <==> v.Some? && 0.0 <= v.value / 100.0 <= 1.0)
              && volume == if outcome == Accepted then v.value / 100.0 else old(volume)
      ensures tracks == old(tracks) && trackCounter == old(trackCounter) && duration == old(duration)
      ensures currentSample == old(currentSample) && isPlaying == old(isPlaying)
      ensures streamOpen == old(streamOpen) && phaseAccumulator == old(phaseAccumulator)
    {
      var value := parseFloat(StripTrailing(text, '%'));
      if value.None? {
        return NotANumber;
      }
      var v := value.value / 100.0;
      if 0.0 <= v <= 1.0 {
        volume := v;
        UpdateVolumeFromSlider(ScaleSet(v, 0.0, 1.0));
        return Accepted;
      }
      return OutOfRange;
    }

    /** `export_settings()`: with tracks and a chosen file, the document
        holding the global volume and duration and one record per track. */
    method ExportSettings(pathChosen: bool) returns (doc: Option<Document>)
      ensures doc.Some? <==> tracks != [] && pathChosen
      ensures doc.Some? ==> doc.value == Document(Some(volume), Some(duration), Some(ExportRecords(tracks)))
    {
      if tracks == [] || !pathChosen {
        return None;
      }
      var records: seq<Record> := [];
      var k := 0;
      while k < |tracks|
        invariant 0 <= k <= |tracks|
        invariant records == ExportRecords(tracks[..k])
      {
        records := records + [ExportRecord(tracks[k])];
        k := k + 1;
      }
      assert tracks[..|tracks|] == tracks;
      return Some(Document(Some(volume), Some(duration), Some(records)));
    }

    /** `import_settings()`: None when no file is chosen (nothing changes).
        Otherwise the track list is cleared and the counter reset, the
        global volume and duration are read, each passed through its slider
        (which clips it to the slider's range and stores it through the
        slider's command), and each record is added in turn; the first
        missing key stops the import, leaving what was read so far in
        place. */
    method ImportSettings(doc: Option<Document>) returns (outcome: ImportOutcome)
      requires Valid()
      modifies this
      ensures Valid()
      ensures doc.None? ==> outcome == ImportCancelled && tracks == old(tracks)
                            && trackCounter == old(trackCounter) && volume == old(volume)
                            && duration == old(duration)
      ensures doc.Some? ==> trackCounter == |tracks|
      ensures doc.Some? && doc.value.volume.None? ==> outcome == ImportFailed("volume") && tracks == []
                                                      && volume == old(volume) && duration == old(duration)
      ensures doc.Some? && doc.value.volume.Some? ==> volume == ScaleSet(doc.value.volume.value, 0.0, 1.0)
      ensures doc.Some? && doc.value.volume.Some? && doc.value.duration.None? ==>
                outcome == ImportFailed("duration") && tracks == [] && duration == old(duration)
      ensures doc.Some? && doc.value.volume.Some? && doc.value.duration.Some? ==>
                duration == SliderDuration(doc.value.duration.value)
      ensures doc.Some? && doc.value.volume.Some? && doc.value.duration.Some? && doc.value.tracks.None? ==>
                outcome == ImportFailed("tracks") && tracks == []
      ensures doc.Some? && doc.value.volume.Some? && doc.value.duration.Some? && doc.value.tracks.Some? ==>
                var r := ImportTracks(doc.value.tracks.value, AsWritten);
                && tracks == r.tracks
                && (r.error.None? ==> outcome == ImportDone)
                && (r.error.Some? ==> outcome == ImportFailed(KeyName(r.error.value)))
      ensures currentSample == old(currentSample) && isPlaying == old(isPlaying)
      ensures streamOpen == old(streamOpen) && phaseAccumulator == old(phaseAccumulator)
    {
      if doc.None? {
        return ImportCancelled;
      }
      tracks := [];
      trackCounter := 0;
      var settings := doc.value;
      if settings.volume.None? {
        return ImportFailed("volume");
      }
      volume := settings.volume.value;
      UpdateVolumeFromSlider(ScaleSet(volume, 0.0, 1.0));
      if settings.duration.None? {
        return ImportFailed("duration");
      }
      duration := settings.duration.value;
      SetDurationFromSlider(ScaleSet(if duration < 600 then duration as real else 600.0, 10.0, 600.0));
      if settings.tracks.None? {
        return ImportFailed("tracks");
      }
      outcome := ImportRecords(settings.tracks.value);
    }

    /** The track loop of `import_settings`, run on an emptied list: each
        record's "type" is read and the record handed to `add_track`, until
        the first record that fails. */
    method ImportRecords(records: seq<Record>) returns (outcome: ImportOutcome)
      requires Valid() && tracks == [] && trackCounter == 0
      modifies this
      ensures Valid()
      ensures var r := ImportTracks(records, AsWritten);
              && tracks == r.tracks
              && (r.error.None? ==> outcome == ImportDone)
              && (r.error.Some? ==> outcome == ImportFailed(KeyName(r.error.value)))
      ensures trackCounter == |tracks|
      ensures volume == old(volume) && duration == old(duration)
      ensures currentSample == old(currentSample) && isPlaying == old(isPlaying)
      ensures streamOpen == old(streamOpen) && phaseAccumulator == old(phaseAccumulator)
    {
      var k := 0;
      var err: Option<Key> := None;
      while k < |records| && err.None?
        invariant 0 <= k <= |records|
        invariant Valid() && trackCounter == |tracks|
        invariant ImportTracks(records[..k], AsWritten) == Imported(tracks, err)
        invariant volume == old(volume) && duration == old(duration)
        invariant currentSample == old(currentSample) && isPlaying == old(isPlaying)
        invariant streamOpen == old(streamOpen) && phaseAccumulator == old(phaseAccumulator)
      {
        err := ImportRecord(records, k);
        k := k + 1;
      }
      if err.Some? {
        ImportStops(records, k, AsWritten);
        outcome := ImportFailed(KeyName(err.value));
      } else {
        assert records[..k] == records;
        outcome := ImportDone;
      }
    }

    /** One pass of that loop, on record `k`:
        `add_track(track_data["type"], track_data)`. A record without a
        "type" fails before `add_track` is called. The list afterwards is
        what `ImportTracks` gives for the records up to `k`, with the error
        if this record failed. */
    method ImportRecord(records: seq<Record>, k: nat) returns (err: Option<Key>)
      requires Valid() && k < |records| && trackCounter == |tracks|
      requires ImportTracks(records[..k], AsWritten) == Imported(tracks, None)
      modifies this
      ensures Valid() && trackCounter == |tracks|
      ensures ImportTracks(records[..k + 1], AsWritten) == Imported(tracks, err)
      ensures volume == old(volume) && duration == old(duration) && currentSample == old(currentSample)
      ensures isPlaying == old(isPlaying) && streamOpen == old(streamOpen)
      ensures phaseAccumulator == old(phaseAccumulator)
    {
      ImportStep(records, k, AsWritten);
      var record := records[k];
      var typeName := GetText(record, TypeKey);
      if typeName.Err? {
        return Some(TypeKey);
      }
      err := AddTrack(typeName.value, Some(record));
    }

    /** `export_wav()` and its worker `do_export`: the render of
        `duration * 44100` samples, chunk by chunk, then normalised; the
        progress reports are the chunk ends and a final `total`. */
    method ExportWav(pathChosen: bool, num: Numerics, noise: Noise) returns (outcome: ExportOutcome)
      ensures outcome == NoTracks <==> tracks == []
      ensures outcome == ExportCancelled <==> tracks != [] && !pathChosen
      ensures outcome.Exported? <==> tracks != [] && pathChosen && duration * SampleRate > 0
      ensures outcome.Exported? ==> outcome.audio == Rendered(tracks, duration * SampleRate, num, noise)
                                    && outcome.progress == Progress(duration * SampleRate)
    {
      if tracks == [] {
        return NoTracks;
      }
      if !pathChosen {
        return ExportCancelled;
      }
      var totalSamples := duration * SampleRate;
      if totalSamples <= 0 {
        // np.zeros rejects a negative length; np.max rejects an empty buffer.
        return ExportFailed;
      }
      var total: nat := totalSamples;
      var audio, progress := RenderChunks(total, num, noise);
      NormalizeInPlace(audio);
      return Exported(audio[..], progress + [total]);
    }

    /** The chunk loop of `do_export`: `[0, total)` rendered one chunk at a
        time, each chunk mixed and soft-clipped on its own and stored at its
        place, with a progress report after each. The noise draws of the
        chunk starting at `i` are `noise` shifted by `i`. */
    method RenderChunks(total: nat, num: Numerics, noise: Noise) returns (audio: array<Frame>, progress: seq<nat>)
      ensures fresh(audio)
      ensures audio[..] == SoftClipBlock(Mix(tracks, TimeGrid(0, total), num, noise), num)
      ensures progress == ChunkEnds(Chunks(total))
    {
      ghost var whole := SoftClipBlock(Mix(tracks, TimeGrid(0, total), num, noise), num);
      audio := new Frame[total](_ => Silence);
      progress := [];
      var i: nat := 0;
      while i < total
        invariant progress + EndsFrom(i, total) == EndsFrom(0, total)
        invariant forall k :: 0 <= k < i && k < total ==> audio[k] == whole[k]
        decreases total - i
      {
        var chunkEnd := ChunkEnd(i, total);
        var t := TimeGrid(i, chunkEnd - i);
        var mixed := GenerateAudio(t, num, Shift(noise, i));
        var chunk := SoftClipBlock(mixed, num);
        ChunkMatchesWhole(tracks, total, i, chunkEnd, num, noise, whole, chunk);
        forall k | i <= k < chunkEnd {
          audio[k] := chunk[k - i];
        }
        ChunkStep(total, i, progress);
        progress := progress + [chunkEnd];
        i := i + ChunkSize;
      }
      assert audio[..] == whole;
      EndsFromChunks(0, total);
    }
  }

  /** The progress values still to come when the loop is at `i`. */
  function EndsFrom(i: nat, total: nat): seq<nat>
    decreases total - i
  {
    if i >= total then [] else [ChunkEnd(i, total)] + EndsFrom(i + ChunkSize, total)
  }

  lemma {:induction false} EndsFromChunks(i: nat, total: nat)
    ensures EndsFrom(i, total) == ChunkEnds(ChunksFrom(i, total))
    decreases total - i
  {
    if i < total {
      EndsFromChunks(i + ChunkSize, total);
      var rest := ChunksFrom(i + ChunkSize, total);
      assert ChunksFrom(i, total) == [(i, ChunkEnd(i, total))] + rest;
      assert ChunkEnds(ChunksFrom(i, total)) == [ChunkEnd(i, total)] + ChunkEnds(rest);
    }
  }

  /** One more chunk of the loop moves its end from the progress values to
      come to the ones reported. */
  lemma ChunkStep(total: nat, i: nat, progress: seq<nat>)
    requires i < total && progress + EndsFrom(i, total) == EndsFrom(0, total)
    ensures (progress + [ChunkEnd(i, total)]) + EndsFrom(i + ChunkSize, total) == EndsFrom(0, total)
  {
    var e, rest := [ChunkEnd(i, total)], EndsFrom(i + ChunkSize, total);
    assert EndsFrom(i, total) == e + rest;
    assert progress + (e + rest) == (progress + e) + rest;
  }

  /** The chunk `[i, e)` rendered on its own is that part of the whole
      render. */
  lemma ChunkMatchesWhole(tracks: seq<Track>, total: nat, i: nat, e: nat, num: Numerics, noise: Noise,
                          whole: seq<Frame>, chunk: seq<Frame>)
    requires i <= e <= total
    requires whole == SoftClipBlock(Mix(tracks, TimeGrid(0, total), num, noise), num)
    requires chunk == SoftClipBlock(Mix(tracks, TimeGrid(i, e - i), num, Shift(noise, i)), num)
    ensures |chunk| == e - i && |whole| == total
    ensures forall k :: i <= k < e ==> chunk[k - i] == whole[k]
  {
    var grid := TimeGrid(0, total);
    var mixed := Mix(tracks, grid, num, noise);
    var window := Mix(tracks, TimeGrid(i, e - i), num, Shift(noise, i));
    TimeGridWindow(0, total, i, e);
    MixWindow(tracks, grid, num, noise, i, e);
    assert mixed[i..e] == window;
    forall k | i <= k < e
      ensures chunk[k - i] == whole[k]
    {
      assert window[k - i] == mixed[k];
    }
  }

}
