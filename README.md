# whisper-wrapper in Dafny

A Dafny model of the core of whisper-wrapper, a push-to-talk dictation tool.
The tool records the microphone, finds where speech starts and stops, and
hands the recorded audio, whole or in growing partial chunks, to a
transcription engine. The model covers these parts:

- **The per-frame recording state machine** (`src/audio/callback.py`). The
  callback state, the bounded pre-roll deque and the main buffer are classes
  updated in place. Every phase method is proved against a function over a
  `Session` value. The properties of the step are lemmas over that function:
  onset flushes the pre-roll, the main buffer only grows, the timeout fires
  at most once per session, and so on.
- **Chunk emission** (`src/audio/chunks.py`), a pure gate on elapsed time
  and on the count of new samples.
- **The recorder** (`src/audio/recorder.py`): the `_audio_callback` gate,
  `start` with microphone resolution, `stop`, `cancel` and `is_recording`.
  It also covers the pre-roll capacity `6400 // 480 + 1 = 14`.
- **The VAD wrapper** (`src/audio/vad.py`): the aggressiveness clamp, and
  `is_speech` failing open.
- **Stream opening with device fallback** (`src/audio/stream.py`) and
  **input-device listing** (`src/audio/devices.py`).
- **Settings** (`src/config.py`): `validate`, key filtering in `load`,
  `save`, `update`, `is_wayland` and `get_display_server`.
- **The model cache** (`src/model/cache.py`): directory matching, listing,
  the cached check and removal, over a listing of directory entries.
- **Version bumping** (`scripts/bump_version.py`): semantic-version parsing
  and bumping, the one-line regular-expression substitution in the version
  files, and the decisions of `main`.
- **Global hotkeys** (`src/hotkeys.py`): single-key parsing, the combo map,
  and the running flag of `start`/`stop`.
- **Text injection** (`src/injector.py`): the method decision chain, the
  dispatch with its clipboard fallback, and the paste-key sender of
  `wl-copy`.

Time, the sound library, the VAD classifier, the keyboard library, external
tools and the file system are never called. Their answers are parameters:
the clock reads, the frame's RMS level, the classifier's verdict or
exception, the device enumeration, which streams open, which tools
`shutil.which` finds, and which tool runs exit with 0. Callbacks are
modelled as the ordered list of events a step produces. Only callbacks that
are set appear in that list.

Modules: `Wrappers` (Option/Result), `Clamp`, `Text` (the `str` methods
used), `Frames` (frames, `np.concatenate`, the deque and the list),
`Chunks`, `Vad`, `Config`, `Callback`, `Stream`, `Devices`, `Recorder`,
`Cache`, `Version`, `Hotkeys` and `Injector`.

Where the prose design and the code disagree, the model follows the code:

- The amplitude fallback uses one threshold, 0.01, both to detect speech and
  to count activity. The lower 0.004 threshold is used only on the VAD path,
  for activity (`src/audio/callback.py:118`, `147-157`). On the fallback
  path, silence accounting starts on the first frame below 0.01. The
  `FallbackSingleThresholdExample` lemma shows this on the design's own
  example `[0.005, 0.011, 0.005, 0.003]`.
- A chunk is the whole main buffer so far, not only the new samples
  (`src/audio/chunks.py:26-30`).
- On the VAD path, only the frame on which the silence timeout latches is
  dropped. Later silent frames are appended again
  (`src/audio/callback.py:126-132`).

## Model

| member | source | states |
|---|---|---|
| Clamp.ClampInt | src/config.py:56 | `max(lo, min(hi, x))` lies in `[lo, hi]`; it is `x` inside, `lo` below and `hi` above |
| Clamp.ClampReal | src/config.py:55 | the same clamp over reals |
| Clamp.AtLeast | src/config.py:62 | `max(lo, x)` is at least `lo`; it is `x` when `x >= lo`, else `lo` |
| Text.Lower | src/hotkeys.py:112 | `lower()` keeps the length and lower-cases each ASCII letter in place |
| Text.Strip | src/hotkeys.py:112 | `strip()` returns a slice `s[i..j]` of its input with only whitespace before `i` and after `j`, and the slice neither starts nor ends with whitespace |
| Text.StripUnique | src/hotkeys.py:112 | any slice with that description is the result of `strip()`: the characterisation determines it |
| Text.ContainsIff | src/model/cache.py:19 | Python's `p in s` holds exactly when `p` occurs at some index of `s` |
| Frames.Concat | src/audio/callback.py:174 | `np.concatenate` has as many samples as the frames hold in total |
| Frames.ConcatAppend | src/audio/chunks.py:26 | concatenation distributes over appending frame lists |
| Frames.BoundedAppend | src/audio/recorder.py:25-27 | appending to a full `deque(maxlen=cap)` evicts the oldest frame; the contents are the newest `cap` frames of old contents plus `x` |
| Frames.AppendAllKeepsNewest | src/audio/recorder.py:25-27 | after any run of appends the deque holds exactly the last `cap` frames appended, or all of them if fewer |
| Frames.FrameDeque.Append | src/audio/callback.py:134 | `deque.append` changes the contents to `BoundedAppend` of the old contents and keeps the size bound |
| Frames.FrameDeque.Clear | src/audio/callback.py:115 | `deque.clear` empties the deque |
| Frames.FrameList.Append | src/audio/callback.py:117 | `list.append` adds the frame at the end |
| Frames.FrameList.Clear | src/audio/recorder.py:74 | `list.clear` empties the list |
| Chunks.EmitChunkIfReady | src/audio/chunks.py:8-31 | a chunk is emitted iff at least `chunk_interval` has passed and more than `sample_rate` samples exist past the last index; it is then the whole concatenation, and the time and index move to now and its length; otherwise both stay |
| Chunks.EmissionsGrow | src/audio/chunks.py:8-31 | of two successive emissions, the first chunk is a prefix of the second, the index grows by more than one second of samples, and the times are at least one interval apart |
| Chunks.TwoSecondExample | src/audio/chunks.py:8-31 | two one-second frames checked at 2.5 s give the 32000-sample concatenation and index 32000; a check 0.1 s later emits nothing |
| Vad.VadProcessor.constructor | src/audio/vad.py:12-15 | the aggressiveness is clamped to [0, 3], and the classifier is loaded exactly when its library imports |
| Vad.VadProcessor.InitVad | src/audio/vad.py:17-26 | the classifier is present exactly when the import succeeds; the aggressiveness is unchanged |
| Vad.VadProcessor.IsSpeech | src/audio/vad.py:28-36 | fails open: without a classifier, or when it raises, a frame is speech; otherwise the classifier's verdict decides |
| Config.OrDefault | src/config.py:57-64 | a value among the choices is kept, any other becomes the default; its use in `validate` is stated by `ValidatedFields` |
| Config.AtLeastIfSet | src/config.py:61-62 | an unset cap stays unset; a set cap becomes the larger of 5.0 and itself |
| Config.Validated | src/config.py:53-66 | the validated settings satisfy every range and choice constraint, and the fields `validate` does not touch are unchanged |
| Config.ValidatedFields | src/config.py:53-66 | each clamped field: kept inside its range, the bound outside it; unknown model, device and theme become "medium", "auto" and "auto"; `auto_paste` becomes its truth value |
| Config.ValidatedFixesValid | src/config.py:53-66 | already valid settings are left unchanged |
| Config.ValidatedIdempotent | src/config.py:53-66 | validating twice is validating once |
| Config.ValidateExample | src/config.py:53-66 | a concrete out-of-range settings value is clamped field by field to the expected result |
| Config.FieldNamed | src/config.py:100 | a key names a field only under that field's own name |
| Config.FieldNamedName | src/config.py:100 | each field is found under its name |
| Config.Get | src/config.py:36-51 | a field's value always has that field's kind |
| Config.GetDetermines | src/config.py:36-51 | settings that agree on every field are equal |
| Config.AssignGet | src/config.py:122 | `setattr` changes only the named field; a float or non-numeric value is stored as given |
| Config.AssignNamed | src/config.py:121-122 | assigning under a key that names no field changes nothing |
| Config.KnownEntries | src/config.py:97-101 | the filtered entries are exactly the entries whose key names a field, in order |
| Config.KnownEntriesAppend | src/config.py:97-101 | filtering distributes over concatenation |
| Config.KnownEntriesSkip | src/config.py:97-101 | filtering drops an entry whose key names no field, wherever it stands |
| Config.ApplyAllKnownOnly | src/config.py:96-102 | applying all entries equals applying only the known ones |
| Config.Load | src/config.py:90-107 | a missing file or one that is not JSON gives the defaults; JSON that is not an object fails with the `AttributeError` that `data.items()` raises and the handler does not catch; otherwise the loaded settings are valid |
| Config.LoadIgnoresUnknownKeys | src/config.py:97-101 | inserting an entry with an unknown key anywhere in the file does not change what is loaded |
| Config.LoadExample | src/config.py:90-107 | a known key is applied and an unknown one is dropped |
| Config.Serialize | src/config.py:116 | the written object holds every field under its name with its value |
| Config.ApplyEntriesOf | src/config.py:96-102 | applying a settings value's entries sets exactly those fields to its values |
| Config.SaveLoadRoundTrip | src/config.py:109-116 | loading what `save` writes gives back the saved (valid) settings |
| Config.IsWayland | src/config.py:130-132 | true exactly when the session type is set to "wayland", case-sensitively |
| Config.DisplayServer | src/config.py:135-147 | the result is "wayland", "x11" or "unknown"; the lower-cased session type decides first; "wayland" exactly when that type is "wayland", or it is not "x11" and `WAYLAND_DISPLAY` is set; "x11" exactly when the type is "x11", or it is not "wayland", `WAYLAND_DISPLAY` is unset and `DISPLAY` is set; "unknown" exactly when neither type nor display variable is set |
| Config.DisplayServerFallbacks | tests/test_display_server.py:9-26 | with no session type, `WAYLAND_DISPLAY` alone gives "wayland", `DISPLAY` alone gives "x11", and nothing gives "unknown"; a session type "x11" wins over `WAYLAND_DISPLAY` |
| Config.IsWaylandStricter | src/config.py:130-147 | `is_wayland` implies Wayland detection, and "Wayland" in capitals is detected as Wayland but not accepted by `is_wayland` |
| Config.Settings.constructor | src/config.py:36-51 | the settings object holds the given value |
| Config.Settings.Validate | src/config.py:53-66 | `validate` replaces the value with its validated form |
| Config.Settings.SetField | src/config.py:122 | `setattr` replaces one field as `Assign` says |
| Config.ConfigManager.constructor | src/config.py:72-74 | nothing is cached yet |
| Config.ConfigManager.LoadSettings | src/config.py:90-107 | fails exactly when `Load` does, with its error; otherwise a fresh settings object holding `Load` of the file |
| Config.ConfigManager.GetSettings | src/config.py:83-88 | the cached object is returned, loaded on first use |
| Config.ConfigManager.Save | src/config.py:109-116 | the given or cached settings become cached, are validated, and the file holds their serialisation; with neither, nothing happens |
| Config.ConfigManager.AssignAll | src/config.py:120-122 | each key-value pair in turn is assigned to the current settings |
| Config.ConfigManager.Update | src/config.py:118-123 | after `update` the cache holds the validated result of the assignments and the file holds its serialisation |
| Callback.PreludeStep | src/audio/callback.py:52-60 | the activity clock starts on the first frame; the level is reported iff its callback is set and the interval has passed, and then the report time moves to now |
| Callback.OnsetStep | src/audio/callback.py:107-115 | on the first speech frame, speech becomes detected, the start is announced, and the main buffer becomes old main ++ pre-roll with the pre-roll emptied |
| Callback.VadStep | src/audio/callback.py:93-134 | speech becomes detected iff the classifier says so or it already was; the latch is never cleared; the events are the timeout if the latch rose, else the speech start at onset, else none |
| Callback.FallbackStep | src/audio/callback.py:137-169 | the same on the fallback path, where a frame is speech iff its level is at least 0.01 |
| Callback.TimeoutStep | src/audio/callback.py:172-190 | buffers untouched; the latch is set when the sample cap is reached, or after onset when the inactivity reaches the timeout; a timeout is announced iff the latch was set now |
| Callback.ChunkStep | src/audio/callback.py:193-203 | buffers untouched; a chunk, if any, is the whole main buffer and is emitted only after onset with its callback set |
| Callback.ProcessFrame | src/audio/callback.py:65-87 | the classification phase: speech is detected iff the frame is speech on its route; the latch only rises |
| Callback.CountTimeoutsAppend | src/audio/callback.py:126-130 | counting timeout events distributes over concatenating event lists |
| Callback.StepPhases | src/audio/callback.py:37-90 | one step is the prelude, the classification, the timeout check and the chunk check in that order, with their events concatenated |
| Callback.OnsetAnnounced | src/audio/callback.py:111-112 | in a step's events at onset, the speech start appears iff its callback is set |
| Callback.StepOnset | src/audio/callback.py:107-117 | on the first speech frame, speech becomes detected, the main buffer becomes old main ++ pre-roll ++ [frame], the pre-roll is emptied, and `on_speech_start` fires iff set |
| Callback.StepBeforeSpeech | src/audio/callback.py:133-134 | before onset, a non-speech frame goes only to the pre-roll (evicting the oldest when full); the main buffer is unchanged; no speech start |
| Callback.StepMainAppendOnly | src/audio/callback.py:93-169 | a step leaves the main buffer alone, appends the frame, or appends the pre-roll and the frame; the old buffer is always a prefix |
| Callback.StepSilentVad | src/audio/callback.py:120-132 | after onset on the VAD path, a silent frame is appended unless it is the frame on which the silence timeout latches, which is dropped |
| Callback.StepSilentFallback | src/audio/callback.py:158-167 | after onset on the fallback path, every frame is appended, including the one on which the timeout latches |
| Callback.LatchAnnounced | src/audio/callback.py:126-130 | a step's event list holds one timeout exactly when the latch rose during the step and the callback is set |
| Callback.StepLatch | src/audio/callback.py:126-130 | a step never clears the latch, and fires `on_silence_timeout` once iff it set the latch and the callback is set, else never |
| Callback.StepCapLatches | src/audio/callback.py:173-182 | reaching 16000 × `max_recording_sec` samples sets the latch, with or without speech |
| Callback.StepIdleLatches | src/audio/callback.py:184-190 | after onset, inactivity of at least the silence timeout sets the latch |
| Callback.StepActivity | src/audio/callback.py:52-53 | `last_activity_time` is set on the first frame and afterwards only on activity frames (VAD speech with level ≥ 0.004, or fallback level ≥ 0.01) |
| Callback.StepLevelTime | src/audio/callback.py:55-60 | the report time moves to now exactly when the level is reported |
| Callback.LevelFirst | src/audio/callback.py:55-60 | in a step's event list, a level report can only be the first event |
| Callback.StepLevel | src/audio/callback.py:55-60 | the level is reported first iff it is due; then the report time is now; no later event is a level report |
| Callback.ChunkLast | src/audio/callback.py:89-90 | in a step's event list, a chunk can only be the last event |
| Callback.StepChunk | src/audio/callback.py:193-203 | a chunk is handed over only after onset with its callback set, as the last event, carrying the whole main buffer |
| Callback.RunLatch | src/audio/callback.py:33-34 | over any run of frames without reset, `on_silence_timeout` fires at most once, and exactly once if the run sets the latch with the callback set |
| Callback.RunMainGrows | src/audio/callback.py:93-169 | over any run the old main buffer stays a prefix |
| Callback.Audios | src/audio/callback.py:117 | the frames of a run, one per input |
| Callback.RunFallbackKeepsAll | src/audio/callback.py:147-167 | after onset on the fallback path, a run appends every one of its frames in order |
| Callback.StepSpeechVad | src/audio/callback.py:107-119 | after onset, a speech frame on the VAD path is appended to the main buffer and speech stays detected |
| Callback.StepVadShape | src/audio/callback.py:93-134 | after onset, one VAD-path step keeps speech detected and either appends its frame or, as the step on which the latch rises, leaves the main buffer as it was |
| Callback.RunVadDropsAtMostOne | src/audio/callback.py:120-132 | after onset on the VAD path, the main buffer ends as the old buffer followed by the run's own frames in order, or, only when the run raises the latch, by those frames with exactly one left out; once the latch is already set, every frame is kept |
| Callback.FallbackSingleThresholdExample | src/audio/callback.py:147-169 | for levels 0.005, 0.011, 0.005, 0.003 the fallback detects speech at the second frame and starts silence accounting at the third |
| Callback.CallbackState.constructor | src/audio/callback.py:21-31 | the initial state: nothing detected, no latch, intervals 0.05 s and 2.0 s |
| Callback.CallbackState.Reset | src/audio/callback.py:33-34 | `reset` restores the initial state |
| Callback.FlushPreRoll | src/audio/callback.py:113-115 | the pre-roll frames, oldest first, are appended to the main buffer, then the pre-roll is emptied |
| Callback.Onset | src/audio/callback.py:107-115 | the onset on the objects is `OnsetStep` of the old session |
| Callback.Prelude | src/audio/callback.py:52-60 | the prelude on the state is `PreludeStep` of the old state |
| Callback.ProcessVad | src/audio/callback.py:93-134 | `_process_vad` on the objects is `VadStep` of the old session, with the verdict of `is_speech` |
| Callback.ProcessNonVad | src/audio/callback.py:137-169 | `_process_non_vad` on the objects is `FallbackStep` of the old session |
| Callback.CheckTimeouts | src/audio/callback.py:172-190 | `_check_timeouts` on the state is `TimeoutStep` of the old session |
| Callback.EmitChunks | src/audio/callback.py:193-203 | `_emit_chunks` on the state is `ChunkStep` of the old session |
| Callback.ProcessAudioCallback | src/audio/callback.py:37-90 | one callback on the objects is `Step` of the old session on the route the settings and processor select |
| Stream.DevicesToTry | src/audio/stream.py:21-23 | the explicit device and then the default, or the default alone |
| Stream.FirstOpening | src/audio/stream.py:25-44 | the first device in order on which a stream opens; none iff none opens |
| Stream.Attempted | src/audio/stream.py:25-44 | the devices tried: every failing one before the first that opens, and that one |
| Stream.OpenStreamWithFallback | src/audio/stream.py:11-44 | the loop tries the devices in order and returns the stream on the first that opens, or nothing |
| Stream.TryOrder | src/audio/stream.py:21-44 | with a device: that device, then the default if it fails; without: the default only |
| Stream.OpenOutcome | src/audio/stream.py:11-44 | the outcome is the explicit device when it opens, else the default when it opens, else nothing |
| Devices.DefaultRate | src/audio/devices.py:24 | a device's default rate, or 16000 when none is reported; each listed entry carries it, as `InputsOfSound` states |
| Devices.InputsOfSound | src/audio/devices.py:18-27 | each listed entry describes an input device at its enumeration index |
| Devices.InputsOfOrdered | src/audio/devices.py:18-27 | entries keep enumeration order |
| Devices.InputsOfComplete | src/audio/devices.py:18-27 | every device with input channels is listed |
| Devices.InputsOfCount | src/audio/devices.py:18-27 | there are as many entries as devices with input channels |
| Devices.ListDevices | src/audio/devices.py:11-31 | the loop builds exactly the input entries; a failing query gives the empty list |
| Devices.GetDefaultDevice | src/audio/devices.py:34-41 | the input half of the default pair, or nothing when the query fails |
| Devices.ListExample | src/audio/devices.py:11-31 | a three-device enumeration lists the two input devices with their indices and rates |
| Recorder.MonoOf | src/audio/recorder.py:53 | channel 0 of a multi-channel block, the block itself otherwise |
| Recorder.FirstNamed | src/audio/recorder.py:83-86 | the index of the first listed device whose name contains the microphone name; none iff no name contains it |
| Recorder.ResolvedDevice | src/audio/recorder.py:81-86 | an explicit device wins; without a microphone setting nothing is resolved |
| Recorder.ResolvedByName | src/audio/recorder.py:81-86 | a device resolved by name is an enumerated input device whose name contains the setting |
| Recorder.ResolveMicrophone | src/audio/recorder.py:83-86 | the search loop finds `FirstNamed` |
| Recorder.StartStreamOutcome | src/audio/recorder.py:88-92 | `start` opens the resolved device, else the default, else nothing |
| Recorder.OpenForStart | src/audio/recorder.py:81-92 | resolution and opening together give `StartStream` |
| Recorder.StopAudio | src/audio/recorder.py:121-132 | stop returns audio iff either buffer holds a frame: the concatenated frames of the main buffer if non-empty, else of the pre-roll, with their total sample count |
| Recorder.StopAudioGrows | src/audio/recorder.py:121-124 | once the main buffer holds a frame, more frames appended to it extend the returned audio by exactly their samples |
| Recorder.StopThenStop | src/audio/recorder.py:107-132 | stop ends the recording and drops the stream, keeps the buffers, and a second stop returns nothing |
| Recorder.CancelIdempotent | src/audio/recorder.py:134-147 | cancel empties both buffers, drops the stream, stops recording; a stop after it returns nothing; cancelling twice is cancelling once |
| Recorder.AudioRecorder.constructor | src/audio/recorder.py:21-34 | not recording, empty buffers, a pre-roll of capacity 14, the initial callback state |
| Recorder.AudioRecorder.SetCallbacks | src/audio/recorder.py:36-46 | the four callbacks are replaced, nothing else |
| Recorder.AudioRecorder.AudioCallback | src/audio/recorder.py:48-66 | while not recording nothing changes; while recording the block's mono frame goes through `Step` |
| Recorder.AudioRecorder.Start | src/audio/recorder.py:68-105 | when already recording, nothing changes and the result is false; otherwise the buffers and state are reset, the VAD exists iff enabled with the clamped level, and recording is true iff a stream opened |
| Recorder.AudioRecorder.Stop | src/audio/recorder.py:107-132 | the new view and the returned audio are `Stopped` of the old view |
| Recorder.AudioRecorder.Cancel | src/audio/recorder.py:134-147 | the new view is `Cancelled` of the old view |
| Recorder.AudioRecorder.IsRecording | src/audio/recorder.py:149-151 | true exactly while recording |
| Cache.NameMatchesIsContains | src/model/cache.py:19 | the three-way name test is the same as `model_name in name` |
| Cache.MatchingMembers | src/model/cache.py:10-21 | an entry matches iff it is a listed directory whose name contains the model name |
| Cache.KeptMembers | src/model/cache.py:42-47 | after removal an entry remains iff it was listed and does not match |
| Cache.DropNamesTwice | src/model/cache.py:44-46 | removing one set of names, then another, removes their union |
| Cache.DropNamesIsKept | src/model/cache.py:44-46 | removing exactly the matching names keeps the non-matching entries |
| Cache.NamesOfMembers | src/model/cache.py:44-46 | a name is removed iff some matched entry has it |
| Cache.AfterLastDash | src/model/cache.py:32 | `split("-")[-1]` is the suffix after the last dash, holding no dash |
| Cache.AfterLastDashUnique | src/model/cache.py:32 | any dash-free suffix preceded by a dash, or the whole string, is that suffix |
| Cache.CachedName | src/model/cache.py:31-34 | names starting "models--" report their last dash-separated part; others report themselves; that part is characterised by `AfterLastDashUnique`, and the listing by `CachedNamesMembers` |
| Cache.CachedNamesMembers | src/model/cache.py:24-35 | a name is listed iff some directory entry reports it |
| Cache.CachedExample | src/model/cache.py:24-35 | "models--openai--small" and "base" are listed as "small" and "base"; a file is skipped |
| Cache.ModelsDir.constructor | src/model/cache.py:12 | the listing of an existing or missing directory |
| Cache.ModelsDir.ModelDirs | src/model/cache.py:10-21 | the loop collects the matching directories, none when the directory is missing |
| Cache.ModelsDir.ListCachedModels | src/model/cache.py:24-35 | the loop collects the reported names, none when the directory is missing |
| Cache.ModelsDir.IsModelCached | src/model/cache.py:38-39 | true iff some directory's name contains the model name |
| Cache.ModelsDir.RemoveModelCache | src/model/cache.py:42-47 | the matching directories are removed and the rest kept; the result is true iff anything matched |
| Cache.MatchNames | src/model/cache.py:42-46 | with distinct names, a name is among the matched names iff its entry matches |
| Cache.KeptDistinct | src/model/cache.py:42-47 | the kept entries still have distinct names |
| Cache.RemoveEffect | src/model/cache.py:42-47 | removing the matched names leaves exactly the kept entries, still distinct |
| Version.Show | scripts/bump_version.py:51-55 | `str(n)` is a digit string without a leading zero |
| Version.ValueShow | scripts/bump_version.py:45 | `int(str(n)) == n` |
| Version.JoinSplit | scripts/bump_version.py:18 | joining the parts of a split gives back the string |
| Version.SplitAt | scripts/bump_version.py:18 | splitting at the first separator |
| Version.TripleSplits | scripts/bump_version.py:18 | three digit runs joined by dots split back into themselves |
| Version.ParseSemverIff | scripts/bump_version.py:41-45 | `_parse_semver` succeeds iff the body is three digit runs joined by dots, and then gives their values |
| Version.ParseShow | scripts/bump_version.py:41-45 | a printed version parses back to itself, also with one trailing newline |
| Version.RejectsTwoParts | scripts/bump_version.py:41-45 | "1.2" is refused |
| Version.RejectsEmptyPart | scripts/bump_version.py:41-45 | "1..3" is refused |
| Version.RejectsTwoNewlines | scripts/bump_version.py:18 | `$` allows only one trailing newline: "1.2.3\n\n" is refused |
| Version.Bump | scripts/bump_version.py:48-56 | a bump fails only as an invalid version or an unknown kind |
| Version.BumpReparses | scripts/bump_version.py:48-56 | an invalid version fails, an unknown kind fails, and a known kind gives a version that parses to the bumped triple |
| Version.BumpIsTriple | scripts/bump_version.py:51-55 | a bumped version is three digit runs joined by dots |
| Version.BumpOfRead | scripts/bump_version.py:117-128 | bumping a version read from the file succeeds and parses |
| Version.Key | scripts/bump_version.py:16-17 | the key of each version pattern is a well-formed key |
| Version.Opening | scripts/bump_version.py:16-17 | group 1 ends after the key and inside the text |
| Version.Triple | scripts/bump_version.py:16-17 | group 2, when it matches, ends inside the text |
| Version.MatchAt | scripts/bump_version.py:16-17 | a match at `p` has its three groups in order inside the text |
| Version.FirstMatch | scripts/bump_version.py:21-26 | the first match from a position starts a line and matches there |
| Version.FirstMatchFirst | scripts/bump_version.py:21-26 | no line start before the first match matches |
| Version.FirstMatchIs | scripts/bump_version.py:21-26 | a matching line start with no earlier match is the first match |
| Version.FirstMatchNone | scripts/bump_version.py:23-25 | with no matching line start there is no match |
| Version.ReadVersion | scripts/bump_version.py:21-26 | reading fails only as "version not found" |
| Version.WriteVersion | scripts/bump_version.py:29-38 | writing fails only as "failed to update" |
| Version.ReadParses | scripts/bump_version.py:21-26 | a version read from a file parses |
| Version.WriteWhereRead | scripts/bump_version.py:29-38 | writing succeeds exactly on the files that reading succeeds on |
| Version.WriteThenRead | scripts/bump_version.py:29-38 | after writing a well-formed version, reading gives that version |
| Version.NoEarlierMatch | scripts/bump_version.py:29-38 | rewriting the first match creates no earlier match |
| Version.ReadEndsInDigit | scripts/bump_version.py:16-17 | a version read from a file ends in a digit |
| Version.Chosen | scripts/bump_version.py:124-131 | an explicit non-empty version is the one chosen; the choice fails only as an invalid version or an unknown bump |
| Version.UpdateSucceeds | scripts/bump_version.py:137-145 | with both files readable, both are rewritten; when a tag is asked for, absent, and a name git refuses, the status is that refusal and the tags are unchanged; otherwise the status is 0 and the tag is added when asked for |
| Version.TripleTagAccepted | scripts/bump_version.py:83-89 | git accepts the tag `v` + a version of three digit runs, so tagging such a version cannot fail |
| Version.NewlineTagRefused | scripts/bump_version.py:83-89 | git refuses the tag of a version ending in a newline |
| Version.MainLeavesOrWrites | scripts/bump_version.py:92-147 | `main` never fails while writing; unless it returns 0 without a dry run or fails on a refused tag, it changes neither file nor the tags; a refused tag leaves the tags |
| Version.MainNeedsVersion | scripts/bump_version.py:129-131 | without a version or a bump nothing changes, and the status is 2 when both files read |
| Version.MainValidatesVersion | scripts/bump_version.py:124-126 | an explicit version that does not parse changes nothing and fails |
| Version.MainDryRun | scripts/bump_version.py:133-135 | a dry run changes nothing, and returns 0 when a version was chosen |
| Version.MainBumps | scripts/bump_version.py:127-147 | a bump writes the bumped version to both files, both read it back, and the tag is added when asked for and git is present |
| Version.MainSetsVersion | scripts/bump_version.py:124-147 | an accepted explicit version is written to both files, both read it back, and the tag is added when asked for and git is present |
| Version.MainKeepsFilesReadable | scripts/bump_version.py:41-45 | with a full-match version check, a successful run leaves both files readable with the same parsing version |
| Version.NewlineAccepted | scripts/bump_version.py:18 | a version with one trailing newline passes `$` but not a full match |
| Version.NewlineLineBreaks | scripts/bump_version.py:29-38 | writing a version with a trailing newline leaves the first version line unmatched |
| Version.NewlineVersionBreaksFiles | scripts/bump_version.py:124-145 | as written, `main` accepts `X.Y.Z\n` and writes both files, yet neither reads that version back; it returns 0 unless a new tag is to be created, which git refuses after the files are written; with a full match it is refused as invalid |
| Version.Release.constructor | scripts/bump_version.py:13-14 | the two files and the tags as given |
| Version.Release.Execute | scripts/bump_version.py:92-147 | `main` on the files and the tags is `MainOutcome` of the old contents |
| Version.Release.WriteAll | scripts/bump_version.py:137-145 | writing both files and tagging is `Update` of the old contents |
| Version.Release.CreateTag | scripts/bump_version.py:83-89 | an existing tag is kept and reported as not created; a new one is added when git accepts its name and fails as refused otherwise; the files are unchanged |
| Hotkeys.KeyTable | src/hotkeys.py:141 | `key_map.get`: a key exactly for names in the table; checked against an independent list of names per key by `KeyTableNames` |
| Hotkeys.Unbracket | src/hotkeys.py:115-116 | one `<` `>` pair is removed when both are present; otherwise the string is unchanged; its effect on parsing is stated by `ParseNames`, `ParseBracketed` and `ParseOnePairOnly` |
| Hotkeys.ParseSingleKey | src/hotkeys.py:107-145 | without the keyboard library there is no key |
| Hotkeys.ParseIgnoresCase | src/hotkeys.py:112 | lower-casing the input first does not change the result |
| Hotkeys.ParsePlain | src/hotkeys.py:112-141 | a lower-case name is looked up as it is |
| Hotkeys.ParseBracketed | src/hotkeys.py:115-141 | a name inside one bracket pair is looked up without the brackets |
| Hotkeys.KeyTableNames | src/hotkeys.py:118-141 | the table gives a key exactly under its names: "esc" and "escape" give escape, "enter" and "return" give enter, only F1–F12 exist, and any other name gives nothing |
| Hotkeys.ParseNames | src/hotkeys.py:107-141 | a key is parsed exactly when the lower-cased, stripped, unbracketed input is one of its names |
| Hotkeys.ParseOnePairOnly | src/hotkeys.py:115-116 | a name inside two bracket pairs is no key |
| Hotkeys.ParseLoneBracket | src/hotkeys.py:115-116 | a name after a lone `<` is no key |
| Hotkeys.CombosContents | src/hotkeys.py:66-75 | each fixed combo is registered iff its callback is set (or the toggle hotkey equals it); the toggle hotkey iff it is non-empty with its callback; a fixed combo keeps its action; nothing else is registered |
| Hotkeys.ToggleRegistered | src/hotkeys.py:66-68 | a non-empty toggle hotkey with its callback, different from the fixed combos, triggers the toggle |
| Hotkeys.ToggleOverridden | src/hotkeys.py:66-71 | a toggle hotkey equal to the copy combo is taken over by copy |
| Hotkeys.BuildHotkeys | src/hotkeys.py:66-75 | the dictionary built update by update is `Combos` |
| Hotkeys.IsSupported | src/hotkeys.py:180-183 | supported exactly when the lower-cased session type is "x11", or there is no Wayland session type or socket and DISPLAY is set |
| Hotkeys.HotkeyManager.constructor | src/hotkeys.py:15-27 | the display server is detected, nothing is registered or running, and no callback is set |
| Hotkeys.HotkeyManager.SetCallbacks | src/hotkeys.py:29-42 | the callbacks are replaced, nothing else |
| Hotkeys.HotkeyManager.Start | src/hotkeys.py:44-105 | while running: true, nothing changes; off X11 or without the library: false, not running; otherwise the combo listener is registered if there is a combo and it can be created, a combo failure is ignored, and the result and the running flag are true unless the cancel-key listener fails |
| Hotkeys.HotkeyManager.RegisterCombos | src/hotkeys.py:77-83 | the combo listener is kept only when there is a combo and it could be created |
| Hotkeys.HotkeyManager.RegisterCancelKey | src/hotkeys.py:86-97 | a cancel-key listener is created when the setting and callback exist and name a key; a failure to create or start it makes the start fail |
| Hotkeys.HotkeyManager.Stop | src/hotkeys.py:147-168 | when not running nothing changes; otherwise both listeners are dropped and running is false |
| Hotkeys.HotkeyManager.IsRunning | src/hotkeys.py:170-173 | true exactly while running |
| Injector.ChosenMethod | src/injector.py:18-38 | "xclip" iff X11 with xclip and xdotool; otherwise "wl-copy" iff wl-copy and wtype, "wtype" iff wtype alone, "ydotool" iff ydotool without wtype, and "clipboard" iff neither wtype nor ydotool |
| Injector.ChoiceIgnoresServer | src/injector.py:20-38 | without the X11 pair of tools, the choice is the same as off X11 |
| Injector.PasteSender | src/injector.py:131-146 | the paste key is sent with wtype when present, else ydotool, else by nothing; `WlCopyInject` states that injection needs such a sender |
| Injector.WlCopyInject | src/injector.py:119-150 | `_inject_wl_copy` succeeds iff the copy succeeds, a sender exists, and it succeeds; false without wtype and ydotool |
| Injector.ClipboardInject | src/injector.py:152-162 | the clipboard fallback succeeds iff the library copies, with the success message or "Failed to copy: " and the error; its place after a failed primary method is stated by `TextInjector.Inject` |
| Injector.Primary | src/injector.py:176-185 | only a known tool method can succeed, and only when its tool runs succeed |
| Injector.TextInjector.constructor | src/injector.py:13-16 | the display server is detected and the method is `ChosenMethod` of it and the tools |
| Injector.TextInjector.DetectMethod | src/injector.py:18-38 | the if-chain sets the method to `ChosenMethod` |
| Injector.TextInjector.Inject | src/injector.py:164-194 | empty text succeeds with no message; on primary failure or the clipboard method the result is the clipboard fallback's; on primary success it is success with no message |
| Injector.TextInjector.MethodName | src/injector.py:196-198 | "none" when no method is set, otherwise the method when it is non-empty |

## Left out

- Concurrency: the locks of the recorder and the hotkey manager, the audio thread, and the stream opened outside the lock. Each operation is modelled as sequential.
- Floating point: the RMS computation, the int16 conversion and the clipping check are inputs (an RMS level and a classifier verdict per frame). Reals stand for Python floats, without NaN or rounding.
- The clipping check `np.abs(audio).max()` raises on an empty frame; frames are not required to be non-empty, and that exception is not modelled.
- The clock: every `time.time()` read is a parameter. The VAD silence branch reads it twice (`src/audio/callback.py:123-124`), so it gets two parameters.
- Foreign libraries: the sound device, webrtcvad, pynput, pyperclip and the external tools are oracles, given as parameters. Transcription, device selection and CUDA probing are not part of this model.
- Config.Load: JSON decoding and dynamic typing are not modelled. A value of the wrong kind for a field is excluded by `requires`, and only `auto_paste` is a loose value that `bool()` coerces; so the `TypeError` the handler at src/config.py:105 catches (raised by `validate` on such values, e.g. `float(None)`) is not modelled, nor the `ValueError` of `float("abc")`, which it lets through.
- Config.ConfigManager: modelled only for files `load` returns on; for JSON that is not an object the `settings` property raises `AttributeError`, and the manager's methods (other than `LoadSettings`, which returns the error) require a file without that failure.
- Config.AssignNamed: `hasattr` is also true for the method `validate` and for dunder attributes; the model treats every key that names no field as unknown and ignores it, whereas the source would overwrite such an attribute.
- Config.ConfigManager.Update: inherits the gap of `AssignNamed`: `update(validate=1)` replaces the method in the source, and the `save()` that follows raises `TypeError`; the model ignores the key. No caller in the repository passes such a key.
- File I/O: the config file, the version files and the model directory are in-memory values. `_ensure_dirs` is not part of this model.
- Version.Release.CreateTag: `git tag --list` output is searched as a substring in the source; the model uses set membership on tags. Of git's ref-name rules only the forbidden characters (control characters, DEL and ` ~^:?*[\`) are modelled; the others (`..`, `@{`, a trailing `.` or `.lock`) cannot arise for `v` followed by a version `main` accepts. Other reasons `git tag` may fail (no commit, a locked repository) are not modelled.
- Version.Release.Execute: `_git_available` is a boolean parameter; the version-mismatch warning and all printing are not modelled; the argparse rejection of an unknown `--bump` is modelled as status 2 (argparse's exit code).
- Version.ParseSemver: `\d` is taken as ASCII digits only; Python's `\d` also matches other Unicode decimal digits.
- Version.ReadVersion: the `\d` of the version-line patterns (scripts/bump_version.py:16-17) is likewise ASCII only, so a version line with another Unicode decimal digit, which Python matches, gives `VersionNotFound` here.
- Version.WriteVersion: the same ASCII-only `\d`: such a line is not rewritten here, and the write fails with `UpdateFailed` where Python would substitute.
- Text.Lower: only ASCII letters are lower-cased; Python's `lower()` also folds other letters.
- Cache.ModelsDir.RemoveModelCache: `shutil.rmtree(..., ignore_errors=True)` is modelled as always removing the entry.
- Callback.ChunkStep: `on_audio_chunk` receives a copy; the copy is not distinguished from the buffer's contents.
- Injector: the tool invocations (`_inject_xdotool`, `_inject_xclip`, `_inject_wtype`, `_inject_ydotool`, the process calls of `_inject_wl_copy`) and `check_tools` are I/O; only their exit outcome is an input. The 0.1 s and 0.15 s sleeps are not modelled.
- Hotkeys: the listener objects are recorded by what they listen for and whether they started; the key-press dispatch to the callbacks and `get_wayland_hotkey_instructions` are not modelled.
- IPC, single-instance locking, the UI and the application orchestration are not part of this model.

## Findings

| source | as written | input that shows it | evidently intended | confidence | as-written member | corrected member |
|---|---|---|---|---|---|---|
| scripts/bump_version.py:18 | `SEMVER_RE` ends in `$`, which also matches before one trailing newline, so `_parse_semver` accepts `"1.2.3\n"`; `main` then writes the newline inside the quotes of both version lines, which the version patterns no longer match (and with `--tag`, git then refuses the tag name) | `bump_version.py $'1.2.3\n'` | the whole argument must be `X.Y.Z` (`\Z` or `fullmatch`), so a successful run leaves both files readable | not executed | Version.NewlineVersionBreaksFiles | Version.MainKeepsFilesReadable |
