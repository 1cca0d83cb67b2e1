/** The audio recorder (src/audio/recorder.py): it owns the pre-roll deque,
    the main buffer and the callback state, feeds each incoming block to the
    frame step while recording, and starts, stops and cancels recordings.
    The device query, the stream library and the classifier library are
    oracles passed in; the settings are passed as a value. */
module Recorder {
  import opened Wrappers
  import opened Text
  import opened Frames
  import opened Clamp
  import Config
  import Vad
  import Devices
  import Stream
  import opened Callback

  /** `PRE_BUFFER_FRAMES`: samples in 400 ms at 16 kHz. */
  const PreBufferFrames: nat := Config.SampleRate * Config.PreBufferMs / 1000
  const VadFrameMs: nat := 30
  /** `VAD_FRAME_SAMPLES`: samples in one 30 ms block, the stream's block size. */
  const VadFrameSamples: nat := Config.SampleRate * VadFrameMs / 1000
  /** The pre-roll's `maxlen`: `6400 // 480 + 1`. */
  const PreRollCapacity: nat := PreBufferFrames / VadFrameSamples + 1

  /** One time step of a multi-channel block: at least one channel. */
  type Row = r: seq<Sample> | |r| >= 1 witness [0.0]

  /** The block the stream delivers: one-dimensional, or one row of channels
      per time step. */
  datatype Block = Flat(samples: Frame) | Rows(rows: seq<Row>)

  /** Line 53: channel 0 of a multi-channel block, the block itself otherwise. */
  function MonoOf(b: Block): (r: Frame)
    ensures b.Flat? ==> r == b.samples
    ensures b.Rows? ==> |r| == |b.rows| && forall i :: 0 <= i < |r| ==> r[i] == b.rows[i][0]
  {
    match b
    case Flat(samples) => samples
    case Rows(rows) => FirstChannel(rows)
  }

  function FirstChannel(rows: seq<Row>): (r: Frame)
    ensures |r| == |rows| && forall i :: 0 <= i < |r| ==> r[i] == rows[i][0]
  {
    if rows == [] then [] else [rows[0][0]] + FirstChannel(rows[1..])
  }

  /** `config.settings.microphone` is truthy: set and not empty. */
  predicate MicrophoneSet(microphone: Option<string>)
  {
    microphone.Some? && microphone.value != ""
  }

  /** The index of the first listed device whose name contains `name`. */
  function FirstNamed(devices: seq<Devices.InputDevice>, name: string): (r: Option<int>)
    ensures r.Some? ==> exists k :: 0 <= k < |devices| && devices[k].index == r.value
                                    && Contains(devices[k].name, name)
                                    && forall j :: 0 <= j < k ==> !Contains(devices[j].name, name)
    ensures r.None? <==> forall k :: 0 <= k < |devices| ==> !Contains(devices[k].name, name)
  {
    if devices == [] then None
    else if Contains(devices[0].name, name) then Some(devices[0].index)
    else
      var r := FirstNamed(devices[1..], name);
      assert forall k :: 1 <= k < |devices| ==> devices[k] == devices[1..][k - 1];
      r
  }

  /** What `list_devices` returns for the query outcome. */
  function Listed(query: Option<seq<Devices.DeviceInfo>>): seq<Devices.InputDevice>
  {
    if query.None? then [] else Devices.InputsOf(query.value)
  }

  /** Lines 81-86: the device passed in, or else, when a microphone name is
      configured, the first input device whose name contains it. */
  function ResolvedDevice(device: Option<int>, microphone: Option<string>,
                          query: Option<seq<Devices.DeviceInfo>>): (r: Option<int>)
    ensures device.Some? ==> r == device
    ensures device.None? && !MicrophoneSet(microphone) ==> r.None?
  {
    if device.None? && MicrophoneSet(microphone) then FirstNamed(Listed(query), microphone.value)
    else device
  }

  /** A device found by name is an enumerated input device whose name
      contains the configured microphone name. */
  lemma ResolvedByName(microphone: Option<string>, query: Option<seq<Devices.DeviceInfo>>)
    requires MicrophoneSet(microphone)
    ensures var r := ResolvedDevice(None, microphone, query);
      r.Some? ==> query.Some? && 0 <= r.value < |query.value|
                  && query.value[r.value].maxInputChannels > 0
                  && Contains(query.value[r.value].name, microphone.value)
  {
    var r := ResolvedDevice(None, microphone, query);
    if r.Some? {
      var listed := Listed(query);
      var k :| 0 <= k < |listed| && listed[k].index == r.value && Contains(listed[k].name, microphone.value);
      Devices.InputsOfSound(query.value);
      assert Devices.Describes(query.value, listed[k]);
    }
  }

  /** The loop of lines 83-86. */
  method ResolveMicrophone(devices: seq<Devices.InputDevice>, name: string) returns (resolved: Option<int>)
    ensures resolved == FirstNamed(devices, name)
  {
    resolved := None;
    var i := 0;
    while i < |devices|
      invariant 0 <= i <= |devices|
      invariant FirstNamed(devices, name) == FirstNamed(devices[i..], name)
    {
      if Contains(devices[i].name, name) {
        resolved := Some(devices[i].index);
        break;
      }
      assert devices[i..][1..] == devices[i + 1..];
      i := i + 1;
    }
  }

  /** The stream `start` ends up with: opened on the resolved device, or on
      the system default when that fails, or none. */
  function StartStream(device: Option<int>, microphone: Option<string>,
                       query: Option<seq<Devices.DeviceInfo>>, opens: Option<int> -> bool): Option<Stream.Opened>
  {
    var first := Stream.FirstOpening(Stream.DevicesToTry(ResolvedDevice(device, microphone, query)), opens);
    if first.Some? then Some(Stream.Opened(first.value)) else None
  }

  /** With the device resolved, the stream opens on it when it can, else on
      the system default when that can, else not at all. */
  lemma StartStreamOutcome(device: Option<int>, microphone: Option<string>,
                           query: Option<seq<Devices.DeviceInfo>>, opens: Option<int> -> bool)
    ensures var resolved := ResolvedDevice(device, microphone, query);
      StartStream(device, microphone, query, opens)
      == if opens(resolved) then Some(Stream.Opened(resolved))
         else if opens(None) then Some(Stream.Opened(None))
         else None
  {
    Stream.OpenOutcome(ResolvedDevice(device, microphone, query), opens);
  }

  /** Lines 81-89: resolve the microphone, then open the stream with
      fallback. */
  method OpenForStart(device: Option<int>, microphone: Option<string>,
                      query: Option<seq<Devices.DeviceInfo>>, opens: Option<int> -> bool)
      returns (info: Option<Stream.Opened>)
    ensures info == StartStream(device, microphone, query, opens)
  {
    var resolved := device;
    if resolved.None? && MicrophoneSet(microphone) {
      var devices := Devices.ListDevices(query);
      resolved := ResolveMicrophone(devices, microphone.value);
    }
    var tried;
    info, tried := Stream.OpenStreamWithFallback(resolved, opens);
  }

  /** What the recorder holds, as a value. */
  datatype RecorderView = RecorderView(recording: bool, stream: Option<Stream.Opened>, pre: seq<Frame>, main: seq<Frame>)

  /** The audio `stop` hands back: the main buffer when it holds frames, else
      the pre-roll when it does, else nothing. */
  function StopAudio(main: seq<Frame>, pre: seq<Frame>): (r: Option<seq<Sample>>)
    ensures r.None? <==> main == [] && pre == []
    ensures r.Some? ==> r.value == Concat(if main != [] then main else pre)
    ensures r.Some? ==> |r.value| == if main != [] then TotalSamples(main) else TotalSamples(pre)
  {
    if main != [] then Some(Concat(main))
    else if pre != [] then Some(Concat(pre))
    else None
  }

  /** Frames recorded after speech started extend the audio `stop` returns:
      the earlier audio is a prefix, followed by the new frames' samples. */
  lemma StopAudioGrows(main: seq<Frame>, pre: seq<Frame>, more: seq<Frame>)
    requires main != []
    ensures StopAudio(main + more, pre) == Some(StopAudio(main, pre).value + Concat(more))
  {
    ConcatAppend(main, more);
  }

  /** `stop` on a view: the new view and the audio returned. */
  function Stopped(v: RecorderView): (RecorderView, Option<seq<Sample>>)
  {
    if !v.recording then (v, None)
    else (v.(recording := false, stream := None), StopAudio(v.main, v.pre))
  }

  /** `cancel` on a view. */
  function Cancelled(v: RecorderView): RecorderView
  {
    RecorderView(false, None, [], [])
  }

  /** Stopping leaves the recorder idle with both buffers untouched; a second
      stop returns nothing and changes nothing. */
  lemma StopThenStop(v: RecorderView)
    ensures var (w, audio) := Stopped(v);
      && !w.recording && w.pre == v.pre && w.main == v.main
      && (v.recording ==> w.stream.None?)
      && (!v.recording ==> audio.None? && w == v)
      && Stopped(w) == (w, None)
  {
  }

  /** Cancelling twice is cancelling once, and a stop after a cancel returns
      nothing. */
  lemma CancelIdempotent(v: RecorderView)
    ensures Cancelled(Cancelled(v)) == Cancelled(v)
    ensures Stopped(Cancelled(v)).1.None?
    ensures !Cancelled(v).recording && Cancelled(v).stream.None?
    ensures Cancelled(v).pre == [] && Cancelled(v).main == []
  {
  }

  class AudioRecorder {
    /** `_stream`: the running stream, if any. */
    var stream: Option<Stream.Opened>
    /** `_recording`. */
    var recording: bool
    /** `_pre_buffer`. */
    const pre: FrameDeque
    /** `_main_buffer`. */
    const main: FrameList
    /** `_vad`: a classifier wrapper when VAD is enabled. */
    var vad: Vad.VadProcessor?
    /** `_state`. */
    const state: CallbackState
    /** Which of the four callbacks are set. */
    var handlers: Handlers

    ghost predicate Valid()
      reads this, pre
    {
      pre.maxLen == PreRollCapacity && pre.Valid()
    }

    function View(): RecorderView
      reads this, pre, main
    {
      RecorderView(recording, stream, pre.frames, main.frames)
    }

    /** `__init__`: idle, no stream, empty buffers, a pre-roll of 14 frames. */
    constructor ()
      ensures Valid() && pre.maxLen == 14
      ensures View() == RecorderView(false, None, [], [])
      ensures vad == null && state.Value() == Initial && handlers == Handlers(false, false, false, false)
    {
      stream := None;
      recording := false;
      pre := new FrameDeque(PreRollCapacity);
      main := new FrameList();
      vad := null;
      state := new CallbackState();
      handlers := Handlers(false, false, false, false);
    }

    /** `set_callbacks`. */
    method SetCallbacks(h: Handlers)
      modifies this
      ensures handlers == h
      ensures stream == old(stream) && recording == old(recording) && vad == old(vad)
    {
      handlers := h;
    }

    /** `_audio_callback`: ignored unless recording; otherwise channel 0 of
        the block goes through the frame step with the current processor. */
    method AudioCallback(block: Block, rms: real, clock: Clock, classifier: Vad.ClassifierOutcome,
                         cfg: Config.SettingsValue) returns (events: seq<Event>)
      requires Valid()
      modifies state, pre, main
      ensures Valid()
      ensures !recording ==> events == [] && Snapshot(state, pre, main) == old(Snapshot(state, pre, main))
      ensures recording ==>
                Outcome(Snapshot(state, pre, main), events)
                == Step(old(Snapshot(state, pre, main)), FrameInput(MonoOf(block), rms, clock),
                        RouteOf(cfg, vad, classifier), cfg, handlers, PreRollCapacity)
    {
      if !recording {
        return [];
      }
      var audio := MonoOf(block);
      events := ProcessAudioCallback(FrameInput(audio, rms, clock), state, vad, classifier, pre, main, cfg, handlers);
    }

    /** `start`: refused while recording; otherwise clear both buffers, reset
        the state, create the processor when VAD is enabled, resolve the
        microphone and open the stream with fallback. */
    method Start(device: Option<int>, cfg: Config.SettingsValue, query: Option<seq<Devices.DeviceInfo>>,
                 libraryPresent: bool, opens: Option<int> -> bool) returns (ok: bool)
      requires Valid()
      modifies this, pre, main, state
      ensures Valid() && handlers == old(handlers)
      ensures old(recording) ==>
                && !ok && View() == old(View()) && vad == old(vad)
                && state.Value() == old(state.Value())
      ensures !old(recording) ==>
                && pre.frames == [] && main.frames == [] && state.Value() == Initial
                && (vad != null <==> cfg.vadEnabled)
                && (vad != null ==> fresh(vad) && vad.aggressiveness == ClampInt(0, 3, cfg.vadThreshold)
                                    && vad.classifierLoaded == libraryPresent)
                && stream == StartStream(device, cfg.microphone, query, opens)
                && recording == ok == stream.Some?
    {
      if recording {
        return false;
      }
      pre.Clear();
      main.Clear();
      state.Reset();
      if cfg.vadEnabled {
        vad := new Vad.VadProcessor(cfg.vadThreshold, libraryPresent);
      } else {
        vad := null;
      }
      var info := OpenForStart(device, cfg.microphone, query, opens);
      if info.Some? {
        stream := info;
        recording := true;
        return true;
      }
      stream := None;
      recording := false;
      return false;
    }

    /** `stop`: nothing while idle; otherwise go idle, drop the stream and
        hand back the recorded audio. The buffers are left as they are. */
    method Stop() returns (audio: Option<seq<Sample>>)
      modifies this
      ensures (View(), audio) == Stopped(old(View()))
      ensures vad == old(vad) && handlers == old(handlers)
    {
      if !recording {
        return None;
      }
      recording := false;
      stream := None;
      if main.frames != [] {
        return Some(Concat(main.frames));
      }
      if pre.frames != [] {
        return Some(Concat(pre.frames));
      }
      return None;
    }

    /** `cancel`: go idle, drop the stream and empty both buffers. */
    method Cancel()
      requires Valid()
      modifies this, pre, main
      ensures Valid()
      ensures View() == Cancelled(old(View()))
      ensures vad == old(vad) && handlers == old(handlers)
    {
      recording := false;
      stream := None;
      main.Clear();
      pre.Clear();
    }

    /** `is_recording`. */
    function IsRecording(): (r: bool)
      reads this
      ensures r <==> recording
    {
      recording
    }
  }
}
