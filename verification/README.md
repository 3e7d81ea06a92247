# PYnaural binaural-beat generator: a Dafny model of its engine

PYnaural is a Tkinter application (`binaural_app.py`). It mixes binaural-beat,
white-noise and pure-tone tracks into a stereo stream. The stream is played
through a pull callback, or rendered offline to a WAV file in one-second chunks
and peak-normalised. The track list can be saved to and loaded from a JSON
settings file.

This project models the application's engine with its widgets taken away:

- `Signal`: stereo frames, blocks, the sample-time grid, and the uninterpreted
  sine, cosine and tanh.
- `Tracks`: the track record and the defaults `add_track` fills in.
- `Generators`: the three generators and the tanh soft clipper.
- `Mixer`: `generate_audio` as a fold over the track list. `MixSample` is an
  independent per-sample definition, and `MixAt` proves the two agree.
- `Panner`: `apply_panning`, a stand-alone operation that nothing on the
  playback or export path calls.
- `Export`: the chunking, progress and peak normalisation of `do_export`.
- `Smoothing`: `apply_anti_aliasing`, also stand-alone.
- `Settings`: the records `export_settings` writes and the decoder that
  `add_track` applies to them.
- `App`: the class `BinauralApp`, holding the track list, the id counter, the
  global volume and duration, the playback counter and the play state. Its
  methods are the operations that change them:
  - adding and removing tracks;
  - the audio callback, start, stop and toggle;
  - the two entry validators;
  - importing and exporting settings;
  - the chunked WAV render.

Sample values are `real`. `np.sin`, `np.cos` and `np.tanh` are
function-valued fields of a `Numerics` record. The model assumes only that
they stay in [-1, 1] (`Bounded`), and only where a lemma says so. The
Gaussian draws of `np.random.normal` are a parameter `noise(track id, sample
index)`. A chunk or block that starts `i` samples later reads `Shift(noise,
i)`.

The Tk variables of a track become plain fields of a `Track` value. A JSON
settings file becomes a `Document`, and each track entry a `Record`: a map
from the 21 known keys to numbers, flags or strings. The file dialog, the
output stream and the float parser become parameters of the methods
(`pathChosen`, `streamStarts`, `parseFloat`, `doc`).

The offline render has no cancel path: the export loop renders every chunk.
No phase state is kept across blocks: `phase_accumulator` is reset on start
and never read.

A `ttk.Scale`'s `set(x)` clips x to the scale's range and then calls the
scale's command with that value. The duration and volume sliders have
commands that store the value, so every `set` on them also changes the
stored duration or volume. The model includes these calls.

The class `BinauralApp` follows the code as written. In two places the code
does not do what it evidently means to, and both are listed under
"## Findings":

- Saved tracks that are not in "auto-pan" mode cannot be read back.
- Typed durations outside [10, 600] are cut by the slider.

For each, a corrected definition stands beside the as-written one, and the
intended property is proved about it:

- `Settings.DecodeTrack`, which is what `Settings.NewTrack` and
  `Settings.ImportTracks` do under the `WithDefaults` reading;
- `App.IntendedEntryDuration`.

## Model

| member | source | states |
|---|---|---|
| Signal.Zeros | binaural_app.py:296-300 | the all-zero (n, 2) buffer: n frames, each silent |
| Signal.AddBlocks | binaural_app.py:320 | element-wise sum of two equally long blocks, frame by frame |
| Signal.ScaleBlock | binaural_app.py:56 | every frame of a block multiplied by one gain, length kept |
| Signal.TimeGrid | binaural_app.py:50 | n sample times, the j-th being (start + j) / 44100 |
| Signal.TimeGridSplit | binaural_app.py:50-59 | the grids of two consecutive blocks, the second starting where the first ended, join into the grid of both: the advancing counter leaves no gap or overlap |
| Signal.TimeGridWindow | binaural_app.py:431-433 | a window [a, b) of a grid is the grid starting at sample start + a, which is the grid each export chunk builds |
| Tracks.DefaultSource | binaural_app.py:642-724 | the control defaults for each kind; the kind's type string is kept, and only an unknown type yields no parameters |
| Tracks.TitleCase | binaural_app.py:586 | `str.title()` on ASCII keeps the length and which characters are letters. A non-letter is unchanged. A letter is upper-cased when it comes first or follows a non-letter, and lower-cased when it follows a letter |
| Tracks.Decimal | binaural_app.py:586 | `str(n)` is a non-empty string of digits with no leading zero unless n is 0 |
| Tracks.DecimalValue | binaural_app.py:586 | the digits `str(n)` writes denote n |
| Tracks.DefaultTrack | binaural_app.py:575-633 | the track `add_track` builds without settings: the given id and type, enabled, volume 1.0, pan defaults ("center", "alternate", 0.5, 0.5) |
| Generators.GenerateBinaural | binaural_app.py:324-335 | one frame per sample time: the left ear at base - beat/2, the right at base + beat/2, halved; no channel exceeds 0.5 under bounded sine |
| Generators.GenerateNoise | binaural_app.py:337-340 | one draw per sample, the same in both channels |
| Generators.GenerateTone | binaural_app.py:342-348 | a halved sine at the track frequency, equal in both channels and at most 0.5 |
| Generators.SoftClipBlock | binaural_app.py:288-291 | tanh(0.8 x) / 0.8 applied to every sample; with bounded tanh no sample exceeds 1.25 |
| Mixer.TrackData | binaural_app.py:307-317 | a block as long as the time grid for the three known types, and no block exactly for an unknown type |
| Mixer.Mix | binaural_app.py:293-322 | the buffer `generate_audio` returns is as long as its time grid |
| Mixer.AudibleTracks | binaural_app.py:303-317 | the kept tracks are all enabled and of a known type, and there are no more of them than of the input. AudibleTracksContents and AudibleTracksAppend say which tracks are kept and in what order |
| Mixer.AudibleTracksContents | binaural_app.py:304-317 | every enabled track of a known type is kept as often as it occurs, and no other track is kept |
| Mixer.AudibleTracksAppend | binaural_app.py:303 | the filter splits over concatenation, so the kept tracks stay in list order |
| Mixer.MixSampleAppend | binaural_app.py:303-320 | the per-sample sum over two concatenated track lists is the sum of the two parts |
| Mixer.MixAt | binaural_app.py:293-322 | the fold agrees at every sample with the sum of every track's contribution: volume times its sample if enabled and known, nothing otherwise |
| Mixer.MixOfInaudibleIsSilent | binaural_app.py:296-300 | with no tracks, or none enabled and of a known type, the mix is all zeros |
| Mixer.MixSampleOfInaudible | binaural_app.py:304-317 | disabled and unknown-type tracks add nothing at a sample |
| Mixer.MixSampleOfAudible | binaural_app.py:304-317 | summing only the audible tracks gives the same sample as summing all |
| Mixer.MixOnlyAudible | binaural_app.py:303-320 | mixing the whole list equals mixing its audible tracks alone |
| Mixer.DisableIsRemove | binaural_app.py:304-305 | clearing one track's enabled flag gives the same mix as removing that track |
| Mixer.DisableSample | binaural_app.py:304-305 | the same, at one sample |
| Mixer.MixSampleShift | binaural_app.py:337-340 | mixing with the draws shifted by an offset is mixing at the sample that offset further on |
| Mixer.MixWindow | binaural_app.py:431-436 | a window of a mixed block is the mix of that window of sample times, with draws from the window on |
| Mixer.MixConcat | binaural_app.py:431-442 | mixing two runs of times back to back, the second with continuing draws, gives the mix of the joined run |
| Mixer.BlockPrefix | binaural_app.py:46-59 | a block is a prefix of a longer block starting at the same sample |
| Mixer.BlocksJoin | binaural_app.py:46-59 | two consecutive callback blocks, the second starting where the first ended, join into the block covering both |
| Mixer.SampleBounded | binaural_app.py:324-348 | a track's raw sample never exceeds b when sine is bounded, draws stay within b and b >= 0.5 |
| Mixer.BudgetIsProduct | binaural_app.py:303-320 | the per-track bound summed over the list is b times the number of audible tracks |
| Mixer.MixSampleBounded | binaural_app.py:303-320 | a mixed sample is at most the sum of the audible tracks' bounds, for volumes in [0, 1] |
| Mixer.MixBounded | binaural_app.py:293-322 | with volumes in [0, 1], no mixed sample exceeds b times the number of audible tracks |
| Panner.Envelope | binaural_app.py:360-370 | with a sine bounded by 1 the envelope never swings further than the depth, in any direction |
| Panner.EnvelopeWithinDepth | binaural_app.py:365-370 | the depth times the pan wave, with either sign, is no larger in magnitude than the depth when the sine is bounded |
| Panner.Clip | binaural_app.py:373 | `np.clip(x, -1, 1)`: in range, identity inside, the nearer bound outside |
| Panner.PanAngle | binaural_app.py:374 | (pos + 1) pi / 4 lies in [0, pi/2], 0 at hard left and pi/2 at hard right |
| Panner.AutoPanAngle | binaural_app.py:364-374 | the auto-pan angle at any time lies in [0, pi/2] |
| Panner.AutoPanFrameNeverAmplifies | binaural_app.py:376-382 | gains cos and sin of the angle never make either channel louder |
| Panner.AutoPanBlock | binaural_app.py:359-384 | each frame is scaled by the gains of its own time; same length; no channel louder than before |
| Panner.ApplyPanning | binaural_app.py:350-384 | same length as the input; "center" is the identity, "hard-left" zeroes the right channel, "hard-right" the left one, any other mode auto-pans; no mode amplifies |
| Panner.AlternateIsLeftToRight | binaural_app.py:365-370 | "alternate" pans exactly like "left-to-right" |
| Panner.RightToLeftMirrors | binaural_app.py:365-374 | the "right-to-left" envelope is the negated "left-to-right" one, and its angle is pi/2 minus the other |
| Panner.AutoPanKeepsPower | binaural_app.py:372-382 | where sin^2 + cos^2 = 1, auto-pan keeps the power of a mono frame |
| Export.ChunkEnd | binaural_app.py:432 | `min(i + chunk_size, total)`: at most total and at most i + 44100, equal to one of them, and past i when i < total |
| Export.ChunksFrom | binaural_app.py:431-432 | chunk k starts at i + 44100 k, below total, and ends at its ChunkEnd; empty exactly when i >= total; just enough chunks to reach total |
| Export.WholeSecondChunks | binaural_app.py:428-432 | d whole seconds of samples are cut into exactly d full chunks, the k-th covering [44100 k, 44100 (k + 1)) |
| Export.ChunksPartition | binaural_app.py:428-432 | the chunks are non-empty, at most 44100 long, contiguous, start at 0, end at total, and sample n lies in chunk n / 44100 |
| Export.Progress | binaural_app.py:445-453 | one report per chunk plus the final one |
| Export.ChunkEnds | binaural_app.py:445 | the reported value after each chunk is that chunk's end |
| Export.ProgressMonotone | binaural_app.py:445-453 | reports strictly increase over the chunks, never exceed total, and end with total reported twice when total > 0 |
| Export.Peak | binaural_app.py:448 | `np.max(np.abs(audio))` is non-negative |
| Export.PeakIsMax | binaural_app.py:448 | the peak bounds every sample's magnitude and is reached by one |
| Export.Normalized | binaural_app.py:448-450 | normalisation keeps the buffer's length |
| Export.NormalizedPeak | binaural_app.py:448-450 | a buffer with peak at most 1.0 is unchanged; otherwise every sample ends within 1.0 and the new peak is exactly 1.0 |
| Export.NormalizeInPlace | binaural_app.py:447-450 | dividing the array in place leaves the normalised contents |
| Smoothing.Smoothed | binaural_app.py:777-781 | the filtered signal has the input's length and starts with data[0] |
| Smoothing.SmoothedRecurrence | binaural_app.py:779-780 | every later sample is 0.1 data[i] + 0.9 filtered[i - 1] |
| Smoothing.SmoothedBounded | binaural_app.py:777-781 | if every input sample lies in [lo, hi], so does every output sample |
| Smoothing.SmoothedConstant | binaural_app.py:777-781 | a constant signal passes through unchanged |
| Smoothing.AntiAlias | binaural_app.py:773-781 | an empty input fails at `filtered[0] = data[0]`; otherwise the loop returns exactly the filtered signal |
| Settings.ExportRecord | binaural_app.py:489-527 | a key is written exactly when the track has that field: pan direction, speed and depth only in "auto-pan" mode, kind parameters only for their kind; the value is the field's |
| Settings.GetNum | binaural_app.py:647 | `settings[key]`: a missing key fails and names the key, and a number is read as it is. Any other kind of value also fails; see "## Left out" |
| Settings.GetFlag | binaural_app.py:602 | the same for a flag |
| Settings.GetText | binaural_app.py:586 | the same for a string |
| Settings.DecodeSource | binaural_app.py:620-626 | a decoded source has the given type, and no parameters exactly for an unknown type |
| Settings.DecodePanAsWritten | binaural_app.py:732-759 | `setup_pan_controls` succeeds exactly when all four pan keys are present |
| Settings.DecodePan | binaural_app.py:732-759 | corrected reading: absent direction, speed and depth take the defaults, and it agrees with the as-written reading wherever that succeeds |
| Settings.Assemble | binaural_app.py:575-633 | a decoded track has the given id and type and is well formed |
| Settings.NewTrack | binaural_app.py:575-633 | the track `add_track` builds has the counter's id and the given type. With no settings, or an empty record, it is the default track. Otherwise the record is decoded: `AsWritten` requires all four pan keys, `WithDefaults` is the corrected reading |
| Settings.SourceRoundTrip | binaural_app.py:506-527 | decoding a written record gives back the track's kind parameters |
| Settings.ExportImportRoundTrip | binaural_app.py:489-529 | with the corrected reading, reading a written record gives the track back with its new id; the pan extras come back as defaults outside "auto-pan" |
| Settings.AsWrittenRoundTripFails | binaural_app.py:745 | as written, reading back any track not in "auto-pan" mode fails at "pan_direction" |
| Settings.AsWrittenAutoPanRoundTrip | binaural_app.py:499-504 | as written, "auto-pan" tracks do survive the round trip |
| Settings.DefaultTrackDoesNotRoundTrip | binaural_app.py:745 | a freshly added tone track cannot be read back as written |
| Settings.ImportOne | binaural_app.py:568-569 | an entry without "type" fails at that key. An entry that decodes has the next id and is well formed |
| Settings.ImportTracks | binaural_app.py:568-573 | import stops at the first failing entry, and the tracks before it get ids 0, 1, …. The application uses the `AsWritten` reading |
| Settings.ImportStops | binaural_app.py:568-573 | once an entry fails, the rest are not read |
| Settings.ExportRecords | binaural_app.py:489-529 | one record per track, in order |
| Settings.ImportOfExport | binaural_app.py:489-529 | with the corrected reading, importing an exported track list fails nowhere and restores every track renumbered from 0 |
| Settings.ImportOneOfExport | binaural_app.py:489-529 | with the corrected reading, one written record imports as the saved track |
| Settings.ImportOneOfExportAsWritten | binaural_app.py:568-569 | as written, a written record imports exactly when its track is in "auto-pan" mode, and otherwise fails at "pan_direction" |
| Settings.ImportOfAutoPanExport | binaural_app.py:538-573 | as written, a list of "auto-pan" tracks survives export and import, renumbered from 0 |
| Settings.ImportOfExportAsWritten | binaural_app.py:538-573 | as written, importing an exported list stops at the first track not in "auto-pan" mode. It fails at "pan_direction" and keeps exactly the tracks before that one; a list with no such track imports whole |
| App.RemoveFirst | binaural_app.py:635-640 | removing by id shortens the list by at most one |
| App.RemoveFirstAt | binaural_app.py:636-640 | when position i is the first with the id, exactly that track goes and the rest keep their order |
| App.RemoveFirstAbsent | binaural_app.py:636-640 | an id no track has leaves the list unchanged |
| App.FreshIdsUnique | binaural_app.py:577 | ids that increase along the list and stay below the counter are distinct |
| App.DeleteKeepsFresh | binaural_app.py:639 | deleting a track keeps the ids fresh, and no remaining track has the removed id |
| App.Truncate | binaural_app.py:270 | `int(x)` truncates toward zero |
| App.DurationAcceptsRange | binaural_app.py:270-271 | a duration is taken exactly for inputs in [1, 3601) |
| App.StripTrailing | binaural_app.py:218 | `rstrip('%')` removes exactly the trailing '%' signs |
| App.VolumeAcceptsRange | binaural_app.py:219-220 | a volume is taken exactly for percentages in [0, 100] |
| App.ScaleSet | binaural_app.py:273 | the value a scale takes on `set(x)` lies in its range: x itself inside the range, the nearer end outside |
| App.SliderDuration | binaural_app.py:272-273 | the duration left by setting the duration slider to `min(d, 600)` lies in [10, 600]. It equals d exactly when d is in that range, and is 10 below it and 600 above |
| App.EntryDurationCut | binaural_app.py:271-273 | as written, the accepted entries 1200 and 5 leave durations of 600 and 10 |
| App.IntendedEntryDuration | binaural_app.py:268-280 | corrected reading: an accepted entry gives a duration in 1..3600 |
| App.IntendedEntryKept | binaural_app.py:270-272 | corrected reading: every whole number of seconds in 1..3600 that is typed in becomes the duration, and the export renders it as d one-second chunks, the last ending at d * 44100 samples |
| App.Rendered | binaural_app.py:428-450 | the exported buffer holds one frame per sample of the duration |
| App.RenderedBounded | binaural_app.py:428-450 | no exported sample exceeds 1.0 in magnitude |
| App.BinauralApp.constructor | binaural_app.py:20-30 | no tracks, counter 0, volume 0.5, duration 180, counter at sample 0, not playing, no stream |
| App.BinauralApp.AddTrack | binaural_app.py:575-633 | decoding the record as written: on success, one track is appended with the old counter as id, and the counter goes up by one. On a missing key nothing changes and the key is returned. Ids stay fresh |
| App.BinauralApp.RemoveTrack | binaural_app.py:635-640 | the list becomes RemoveFirst of the old one, no remaining track has the id, the counter is unchanged, and ids stay fresh |
| App.BinauralApp.GenerateAudio | binaural_app.py:293-322 | the accumulation loop returns exactly the fold Mix |
| App.BinauralApp.AudioCallback | binaural_app.py:46-68 | while playing, the mix of the next frames sample times times the volume, and the counter advances by frames; otherwise silence and the counter stays |
| App.BinauralApp.StartPlayback | binaural_app.py:70-96 | with no tracks nothing changes; otherwise counter and phase table reset, and playing exactly when the stream opens |
| App.BinauralApp.StopPlayback | binaural_app.py:98-106 | not playing and no open stream, all else unchanged |
| App.BinauralApp.TogglePlay | binaural_app.py:282-286 | when playing, stops and closes the stream keeping position and phases; otherwise, with tracks, restarts at sample 0 with fresh phases and a stream open exactly when it starts; with no tracks nothing changes; tracks, volume and duration untouched |
| App.BinauralApp.SetDurationFromSlider | binaural_app.py:264-266 | the slider's value, truncated, becomes the duration, and nothing else changes |
| App.BinauralApp.UpdateVolumeFromSlider | binaural_app.py:211-214 | the slider's value becomes the volume, and nothing else changes |
| App.BinauralApp.SetDurationFromEntry | binaural_app.py:268-280 | the truncated entry is accepted exactly when it lies in 1..3600, and the stored duration is then that value clipped to [10, 600] by the slider. A non-number or out-of-range value leaves the duration alone |
| App.BinauralApp.UpdateVolumeFromEntry | binaural_app.py:216-227 | the stripped, parsed entry over 100 is taken exactly when it lies in [0, 1]. The slider passes it on unchanged. Otherwise the volume stays |
| App.BinauralApp.ExportSettings | binaural_app.py:469-529 | a document exactly when there are tracks and a path, holding the volume, the duration and one record per track |
| App.BinauralApp.ImportSettings | binaural_app.py:538-573 | cancel changes nothing. Otherwise the list is cleared, the counter reset, and volume, duration and tracks read in order. The sliders clip the volume to [0, 1] and the duration to [10, 600]. Tracks are decoded as written, and the first missing key stops the import with the earlier effects kept |
| App.BinauralApp.ImportRecords | binaural_app.py:568-573 | the loop leaves exactly the tracks of the as-written ImportTracks, with the counter at their number, and reports the failing key |
| App.BinauralApp.ImportRecord | binaural_app.py:568-569 | one pass of the loop extends the import of the records before it by this record's track, or by its error |
| App.BinauralApp.ExportWav | binaural_app.py:386-467 | no tracks or no path: nothing rendered; a non-positive length fails; otherwise the buffer is the soft-clipped, normalised mix of the whole duration, and progress is the chunk ends then total |
| App.BinauralApp.RenderChunks | binaural_app.py:428-445 | rendering chunk by chunk into the array gives the soft-clipped mix of the whole duration at once, reporting each chunk's end |
| App.ChunkMatchesWhole | binaural_app.py:431-442 | a chunk rendered on its own equals that slice of the whole render |

## Left out

- Widgets, layout, message boxes, file dialogs and the progress window are not modelled. The outcomes they report are the `EntryOutcome`, `ImportOutcome` and `ExportOutcome` values, and a chosen path is a boolean.
- The `sounddevice` stream is a flag, `streamOpen`, plus a parameter saying whether opening it succeeds. Its latency and block size are not modelled.
- The `soundfile` write and the JSON text are not modelled. A parsed settings file is a `Document`, since the file formats belong to foreign libraries.
- The audio lock, the export worker thread, `audio_queue` and `last_buffer` are left out. They concern concurrency, or are never read.
- Floating-point rounding, NaN and infinity are left out: samples are reals. In particular `float('inf')` typed into the duration entry, which makes `int()` raise OverflowError, is not modelled.
- The distribution of `np.random.normal` is not modelled. Each block and chunk reads fresh draws, modelled as one draw function read from the block's first sample on.
- `audio_callback`'s exception handler (silence) is not modelled, because the modelled `generate_audio` cannot fail.
- Export failures other than a non-positive sample count are not modelled; they are I/O errors.
- `create_slider_with_entry` and `on_closing` are left out as UI wiring. Text shown in entries and labels is not modelled.
- Noise colour and cut-offs, isochronic pulses and frequency modulation are stored and saved but never used by the code, so they are kept as data only.
- `phase_accumulator` is reset on start and never read, so it is kept as a field only.
- `apply_panning` and `apply_anti_aliasing` are not called by playback or export, so they are modelled stand-alone. The filter is modelled on one channel; numpy runs the same recurrence on each column.
- Settings.GetText: a JSON value of another kind than the one the control holds is an error here, while a Tk variable would accept some of them. JSON values of the wrong type at the top level (a non-numeric volume, a fractional duration) are not representable in a `Document`.
- Settings.GetNum: a number written as a string (`"base_freq": "200"`) is an error here. `tk.DoubleVar` would hold it and read it back as 200.0.
- Settings.GetFlag: a number used as a flag (`"enabled": 1`) is an error here. `tk.BooleanVar` would read it back as True.
- Tracks.TitleCase: only ASCII letters are cased. Python's `str.title()` also cases other Unicode letters.
- Panner.AutoPanKeepsPower: equal power is stated only where sin² + cos² = 1 holds at the angle, because sine and cosine are uninterpreted.
- Mixer.MixBounded: the bound assumes track volumes in [0, 1] (the slider's range) and draws within ±b. Gaussian draws are unbounded.

## Findings

| source | as written | input that shows it | evidently intended | confidence | as-written member | corrected member |
|---|---|---|---|---|---|---|
| binaural_app.py:745 | `export_settings` writes "pan_direction", "pan_speed" and "pan_depth" only for "auto-pan" tracks (lines 499-504), but `setup_pan_controls` reads `settings["pan_direction"]` for every track | export settings with one freshly added tone track (pan mode "center"), then import the file: KeyError 'pan_direction', and the import stops with no tracks | absent pan keys fall back to the control defaults ("alternate", 0.5, 0.5), so every exported file imports | high, not executed | Settings.AsWrittenRoundTripFails | Settings.ExportImportRoundTrip |
| binaural_app.py:273 | an accepted entry in 1..3600 is stored, and then `duration_slider.set(min(duration, 600))` runs the slider's command with the value clipped to [10, 600], which overwrites the duration. `import_settings` does the same at lines 563-564 | type 1200 into the duration entry: the duration becomes 600, and the export renders 600 seconds | every accepted entry, as the 1..3600 range test and the "Slider max is 600" comment say, is kept as the duration | medium (relies on `ttk.Scale.set` calling the scale's command), not executed | App.EntryDurationCut | App.IntendedEntryKept |
