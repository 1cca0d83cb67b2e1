/** The per-frame recording state machine (src/audio/callback.py).

    Every stream callback delivers one frame. The step updates a mutable
    `CallbackState`, the bounded pre-roll and the main buffer, and invokes the
    callbacks that are set. The model returns the invoked callbacks as an
    ordered list of events. The frame's RMS level, the classifier's verdict
    and the three clock reads of a step are inputs. */
module Callback {
  import opened Wrappers
  import opened Frames
  import Chunks
  import Config
  import Vad

  /** `NON_VAD_SPEECH_START`: the level at which the fallback path hears speech. */
  const SpeechStart: real := 0.01
  /** `NON_VAD_SPEECH_STOP`: the level a VAD speech frame needs to count as activity. */
  const SpeechStop: real := 0.004
  const SampleRate: nat := 16000

  /** The fields of `CallbackState`, as a value. */
  datatype StateValue = StateValue(
    silenceStart: Option<real>,
    speechDetected: bool,
    timeoutTriggered: bool,
    silenceStartNonVad: Option<real>,
    lastLevelUpdate: real,
    levelUpdateInterval: real,
    lastActivityTime: real,
    chunkInterval: real,
    lastChunkTime: real,
    lastChunkIndex: nat)

  /** `CallbackState()`: the state at the start of every recording. */
  const Initial: StateValue := StateValue(None, false, false, None, 0.0, 0.05, 0.0, 2.0, 0.0, 0)

  /** A callback invocation. */
  datatype Event =
    | AudioLevel(level: real)        // on_audio_level(rms)
    | SpeechStarted                  // on_speech_start()
    | SilenceTimeout                 // on_silence_timeout()
    | AudioChunk(samples: seq<Sample>) // on_audio_chunk(all_audio)

  /** Which of the four callbacks are set (a callback that is None is skipped). */
  datatype Handlers = Handlers(onAudioLevel: bool, onSpeechStart: bool, onSilenceTimeout: bool, onAudioChunk: bool)

  /** The three `time.time()` reads of a step: at the start (line 49), and
      when a silent VAD frame starts and measures the silence (lines 123, 124). */
  datatype Clock = Clock(now: real, silenceMark: real, silenceNow: real)

  /** One stream callback's input: the mono frame, its RMS level and the clock. */
  datatype FrameInput = FrameInput(audio: Frame, rms: real, clock: Clock)

  /** Which path classifies the frame: the VAD path with the classifier's
      answer, or the amplitude fallback. */
  datatype Route = VadPath(isSpeech: bool) | Fallback

  /** The callback state with the pre-roll and main buffer contents. */
  datatype Session = Session(st: StateValue, pre: seq<Frame>, main: seq<Frame>)

  /** The session after a step, and the callbacks it invoked, in order. */
  datatype Outcome = Outcome(s: Session, events: seq<Event>)

  function SpeechStartEvents(h: Handlers): seq<Event>
  {
    if h.onSpeechStart then [SpeechStarted] else []
  }

  function TimeoutEvents(h: Handlers): seq<Event>
  {
    if h.onSilenceTimeout then [SilenceTimeout] else []
  }

  /** The frame counts as speech on its route: the classifier says so, or
      the level reaches 0.01 on the fallback path. */
  predicate IsSpeechFrame(route: Route, rms: real)
  {
    match route
    case VadPath(isSpeech) => isSpeech
    case Fallback => rms >= SpeechStart
  }

  /** The frame counts as activity for the inactivity timeout: a VAD speech
      frame of level at least 0.004, or a fallback frame of level at least 0.01. */
  predicate IsActivityFrame(route: Route, rms: real)
  {
    match route
    case VadPath(isSpeech) => isSpeech && rms >= SpeechStop
    case Fallback => rms >= SpeechStart
  }

  // ---------------------------------------------------------------------
  // The step, phase by phase, as functions of the session
  // ---------------------------------------------------------------------

  /** Lines 52-60: start the inactivity clock on the first frame, and report
      the level at most once per `level_update_interval`. */
  function PreludeStep(st: StateValue, rms: real, now: real, h: Handlers): (r: (StateValue, seq<Event>))
    ensures r.0.lastActivityTime == if st.lastActivityTime == 0.0 then now else st.lastActivityTime
    ensures r.1 != [] <==> h.onAudioLevel && now - st.lastLevelUpdate >= st.levelUpdateInterval
    ensures r.1 != [] ==> r.1 == [AudioLevel(rms)] && r.0.lastLevelUpdate == now
    ensures r.1 == [] ==> r.0.lastLevelUpdate == st.lastLevelUpdate
    ensures r.0 == st.(lastActivityTime := r.0.lastActivityTime, lastLevelUpdate := r.0.lastLevelUpdate)
  {
    var st1 := if st.lastActivityTime == 0.0 then st.(lastActivityTime := now) else st;
    if h.onAudioLevel && now - st1.lastLevelUpdate >= st1.levelUpdateInterval then
      (st1.(lastLevelUpdate := now), [AudioLevel(rms)])
    else
      (st1, [])
  }

  /** Lines 108-115 and 148-154: on the first speech frame, mark speech as
      detected, announce it and move the pre-roll, in order, to the main buffer. */
  function OnsetStep(s: Session, h: Handlers): (r: Outcome)
    ensures r.s.st.speechDetected
    ensures s.st.speechDetected ==> r == Outcome(s, [])
    ensures !s.st.speechDetected ==>
              && r.s == Session(s.st.(speechDetected := true), [], s.main + s.pre)
              && r.events == SpeechStartEvents(h)
  {
    if s.st.speechDetected then Outcome(s, [])
    else Outcome(Session(s.st.(speechDetected := true), [], s.main + s.pre), SpeechStartEvents(h))
  }

  /** `_process_vad` (lines 93-134), given the classifier's verdict. */
  function VadStep(s: Session, audio: Frame, rms: real, isSpeech: bool, clock: Clock,
                   timeout: real, h: Handlers, cap: nat): (r: Outcome)
    ensures r.s.st.speechDetected == (s.st.speechDetected || isSpeech)
    ensures s.st.timeoutTriggered ==> r.s.st.timeoutTriggered
    ensures r.events == (if r.s.st.timeoutTriggered != s.st.timeoutTriggered then TimeoutEvents(h)
                         else if r.s.st.speechDetected != s.st.speechDetected then SpeechStartEvents(h)
                         else [])
  {
    if isSpeech then
      var o := OnsetStep(s, h);
      var st := o.s.st.(silenceStart := None,
                        lastActivityTime := if rms >= SpeechStop then clock.now else s.st.lastActivityTime);
      Outcome(Session(st, o.s.pre, o.s.main + [audio]), o.events)
    else if s.st.speechDetected then
      var start := if s.st.silenceStart.None? then clock.silenceMark else s.st.silenceStart.value;
      var st := s.st.(silenceStart := Some(start));
      if clock.silenceNow - start >= timeout && !s.st.timeoutTriggered then
        Outcome(Session(st.(timeoutTriggered := true), s.pre, s.main), TimeoutEvents(h))
      else
        Outcome(Session(st, s.pre, s.main + [audio]), [])
    else
      Outcome(Session(s.st, BoundedAppend(s.pre, audio, cap), s.main), [])
  }

  /** `_process_non_vad` (lines 137-169): one level threshold, 0.01, for both
      onset and activity; silence is timed from the first quiet frame after
      speech, and every frame after onset is kept. */
  function FallbackStep(s: Session, audio: Frame, rms: real, now: real,
                        timeout: real, h: Handlers, cap: nat): (r: Outcome)
    ensures r.s.st.speechDetected == (s.st.speechDetected || rms >= SpeechStart)
    ensures s.st.timeoutTriggered ==> r.s.st.timeoutTriggered
    ensures r.events == (if r.s.st.timeoutTriggered != s.st.timeoutTriggered then TimeoutEvents(h)
                         else if r.s.st.speechDetected != s.st.speechDetected then SpeechStartEvents(h)
                         else [])
  {
    if rms >= SpeechStart then
      var o := OnsetStep(s, h);
      var st := o.s.st.(silenceStartNonVad := None, lastActivityTime := now);
      Outcome(Session(st, o.s.pre, o.s.main + [audio]), o.events)
    else if s.st.speechDetected then
      if s.st.silenceStartNonVad.None? then
        Outcome(Session(s.st.(silenceStartNonVad := Some(now)), s.pre, s.main + [audio]), [])
      else if now - s.st.silenceStartNonVad.value >= timeout && !s.st.timeoutTriggered then
        Outcome(Session(s.st.(timeoutTriggered := true), s.pre, s.main + [audio]), TimeoutEvents(h))
      else
        Outcome(Session(s.st, s.pre, s.main + [audio]), [])
    else
      Outcome(Session(s.st, BoundedAppend(s.pre, audio, cap), s.main), [])
  }

  /** `config.settings.max_recording_sec` is truthy: set and not zero. */
  predicate CapSet(maxRecordingSec: Option<real>)
  {
    maxRecordingSec.Some? && maxRecordingSec.value != 0.0
  }

  /** The hard cap of line 176 is reached. */
  predicate CapReached(main: seq<Frame>, maxRecordingSec: Option<real>)
  {
    CapSet(maxRecordingSec) && TotalSamples(main) as real >= SampleRate as real * maxRecordingSec.value
  }

  /** `_check_timeouts` (lines 172-190): latch on the sample cap, then on
      inactivity after onset. Buffers are left alone. */
  function TimeoutStep(s: Session, now: real, cfg: Config.SettingsValue, h: Handlers): (r: Outcome)
    ensures r.s.pre == s.pre && r.s.main == s.main
    ensures r.s.st == s.st.(timeoutTriggered := r.s.st.timeoutTriggered)
    ensures s.st.timeoutTriggered ==> r.s.st.timeoutTriggered
    ensures CapReached(s.main, cfg.maxRecordingSec) ==> r.s.st.timeoutTriggered
    ensures s.st.speechDetected && now - s.st.lastActivityTime >= cfg.vadSilenceTimeout ==> r.s.st.timeoutTriggered
    ensures r.events == if r.s.st.timeoutTriggered != s.st.timeoutTriggered then TimeoutEvents(h) else []
  {
    var capHit := !s.st.timeoutTriggered && CapReached(s.main, cfg.maxRecordingSec);
    var st1 := if capHit then s.st.(timeoutTriggered := true) else s.st;
    var idle := st1.speechDetected && !st1.timeoutTriggered && now - st1.lastActivityTime >= cfg.vadSilenceTimeout;
    var st2 := if idle then st1.(timeoutTriggered := true) else st1;
    Outcome(Session(st2, s.pre, s.main),
            (if capHit then TimeoutEvents(h) else []) + (if idle then TimeoutEvents(h) else []))
  }

  /** `_emit_chunks` (lines 193-203): after onset and with a chunk callback,
      let `emit_chunk_if_ready` decide. */
  function ChunkStep(s: Session, now: real, h: Handlers): (r: Outcome)
    ensures r.s.pre == s.pre && r.s.main == s.main
    ensures r.s.st == s.st.(lastChunkTime := r.s.st.lastChunkTime, lastChunkIndex := r.s.st.lastChunkIndex)
    ensures r.events == [] || (h.onAudioChunk && s.st.speechDetected && r.events == [AudioChunk(Concat(s.main))])
  {
    if h.onAudioChunk && s.st.speechDetected then
      var e := Chunks.EmitChunkIfReady(s.main, s.st.lastChunkTime, s.st.lastChunkIndex, now, s.st.chunkInterval, SampleRate);
      Outcome(Session(s.st.(lastChunkTime := e.lastTime, lastChunkIndex := e.lastIndex), s.pre, s.main),
              if e.chunk.Some? then [AudioChunk(e.chunk.value)] else [])
    else
      Outcome(s, [])
  }

  /** The classification of the frame (lines 65-87): the VAD path runs when
      VAD is enabled in the settings and a processor exists. */
  function ProcessFrame(s: Session, input: FrameInput, route: Route, cfg: Config.SettingsValue,
                        h: Handlers, cap: nat): (r: Outcome)
    ensures r.s.st.speechDetected == (s.st.speechDetected || IsSpeechFrame(route, input.rms))
    ensures s.st.timeoutTriggered ==> r.s.st.timeoutTriggered
    ensures r.events == (if r.s.st.timeoutTriggered != s.st.timeoutTriggered then TimeoutEvents(h)
                         else if r.s.st.speechDetected != s.st.speechDetected then SpeechStartEvents(h)
                         else [])
  {
    match route
    case VadPath(isSpeech) =>
      VadStep(s, input.audio, input.rms, isSpeech, input.clock, cfg.vadSilenceTimeout, h, cap)
    case Fallback =>
      FallbackStep(s, input.audio, input.rms, input.clock.now, cfg.vadSilenceTimeout, h, cap)
  }

  /** `process_audio_callback` (lines 37-90): one whole frame step. */
  function Step(s: Session, input: FrameInput, route: Route, cfg: Config.SettingsValue,
                h: Handlers, cap: nat): (r: Outcome)
  {
    var now := input.clock.now;
    var p := PreludeStep(s.st, input.rms, now, h);
    var o1 := ProcessFrame(Session(p.0, s.pre, s.main), input, route, cfg, h, cap);
    var o2 := TimeoutStep(o1.s, now, cfg, h);
    var o3 := ChunkStep(o2.s, now, h);
    Outcome(o3.s, p.1 + o1.events + o2.events + o3.events)
  }

  /** Several frames in a row, with the same settings and callbacks. */
  function Run(s: Session, inputs: seq<(FrameInput, Route)>, cfg: Config.SettingsValue,
               h: Handlers, cap: nat): (r: Outcome)
    decreases |inputs|
  {
    if inputs == [] then Outcome(s, [])
    else
      var o := Step(s, inputs[0].0, inputs[0].1, cfg, h, cap);
      var rest := Run(o.s, inputs[1..], cfg, h, cap);
      Outcome(rest.s, o.events + rest.events)
  }

  // ---------------------------------------------------------------------
  // Properties of one step
  // ---------------------------------------------------------------------

  lemma AppendAssoc<T>(a: seq<T>, b: seq<T>, c: seq<T>)
    ensures (a + b) + c == a + (b + c)
  {
  }

  lemma PrefixOfAppend<T>(a: seq<T>, b: seq<T>)
    ensures a <= a + b
  {
  }

  /** The number of `on_silence_timeout` calls in a list of events. */
  function CountTimeouts(events: seq<Event>): nat
  {
    if events == [] then 0
    else (if events[0] == SilenceTimeout then 1 else 0) + CountTimeouts(events[1..])
  }

  lemma {:induction false} CountTimeoutsAppend(a: seq<Event>, b: seq<Event>)
    ensures CountTimeouts(a + b) == CountTimeouts(a) + CountTimeouts(b)
    decreases |a|
  {
    if a == [] {
      assert a + b == b;
    } else {
      assert (a + b)[1..] == a[1..] + b;
      CountTimeoutsAppend(a[1..], b);
    }
  }

  /** The phases of one step, named. */
  lemma StepPhases(s: Session, input: FrameInput, route: Route, cfg: Config.SettingsValue, h: Handlers, cap: nat)
      returns (p: (StateValue, seq<Event>), o1: Outcome, o2: Outcome, o3: Outcome)
    ensures p == PreludeStep(s.st, input.rms, input.clock.now, h)
    ensures o1 == ProcessFrame(Session(p.0, s.pre, s.main), input, route, cfg, h, cap)
    ensures o2 == TimeoutStep(o1.s, input.clock.now, cfg, h)
    ensures o3 == ChunkStep(o2.s, input.clock.now, h)
    ensures Step(s, input, route, cfg, h, cap) == Outcome(o3.s, p.1 + o1.events + o2.events + o3.events)
  {
    p := PreludeStep(s.st, input.rms, input.clock.now, h);
    o1 := ProcessFrame(Session(p.0, s.pre, s.main), input, route, cfg, h, cap);
    o2 := TimeoutStep(o1.s, input.clock.now, cfg, h);
    o3 := ChunkStep(o2.s, input.clock.now, h);
  }

  /** No level report among `events`. */
  predicate NoLevel(events: seq<Event>)
  {
    forall i :: 0 <= i < |events| ==> !events[i].AudioLevel?
  }

  /** No chunk among `events`. */
  predicate NoChunk(events: seq<Event>)
  {
    forall i :: 0 <= i < |events| ==> !events[i].AudioChunk?
  }

  /** The callbacks of the classification and timeout phases are speech
      starts and timeouts only. */
  lemma PhaseEventKinds(e1: seq<Event>, e2: seq<Event>, h: Handlers)
    requires e1 == [] || e1 == SpeechStartEvents(h) || e1 == TimeoutEvents(h)
    requires e2 == [] || e2 == TimeoutEvents(h)
    ensures NoLevel(e1 + e2) && NoChunk(e1 + e2)
  {
  }

  /** Event lists shaped like a step's at onset: the speech start is
      announced exactly when its callback is set. */
  lemma OnsetAnnounced(p1: seq<Event>, e1: seq<Event>, e2: seq<Event>, e3: seq<Event>, rms: real, h: Handlers)
    requires p1 == [] || p1 == [AudioLevel(rms)]
    requires e1 == SpeechStartEvents(h)
    requires e2 == [] || e2 == TimeoutEvents(h)
    requires e3 == [] || (|e3| == 1 && e3[0].AudioChunk?)
    ensures SpeechStarted in p1 + e1 + e2 + e3 <==> h.onSpeechStart
  {
    assert p1 + e1 + e2 + e3 == p1 + (e1 + (e2 + e3));
    assert SpeechStarted !in p1 && SpeechStarted !in e2 + e3;
  }

  /** Onset: the first speech frame marks speech as detected, announces it
      (when the callback is set), and leaves the main buffer holding the old
      main buffer, then the pre-roll in order, then the frame; the pre-roll
      is emptied. */
  lemma StepOnset(s: Session, input: FrameInput, route: Route, cfg: Config.SettingsValue, h: Handlers, cap: nat)
    requires !s.st.speechDetected && IsSpeechFrame(route, input.rms)
    ensures var r := Step(s, input, route, cfg, h, cap);
      && r.s.st.speechDetected
      && r.s.main == s.main + s.pre + [input.audio]
      && r.s.pre == []
      && (SpeechStarted in r.events <==> h.onSpeechStart)
  {
    var p, o1, o2, o3 := StepPhases(s, input, route, cfg, h, cap);
    assert o1.s.main == s.main + s.pre + [input.audio] && o1.s.pre == [];
    assert o1.s.st.timeoutTriggered == p.0.timeoutTriggered;
    OnsetAnnounced(p.1, o1.events, o2.events, o3.events, input.rms, h);
  }

  /** Before speech, a non-speech frame goes to the pre-roll only (evicting
      the oldest frame when full), and the main buffer is unchanged. */
  lemma StepBeforeSpeech(s: Session, input: FrameInput, route: Route, cfg: Config.SettingsValue, h: Handlers, cap: nat)
    requires !s.st.speechDetected && !IsSpeechFrame(route, input.rms)
    ensures var r := Step(s, input, route, cfg, h, cap);
      && !r.s.st.speechDetected
      && r.s.main == s.main
      && r.s.pre == BoundedAppend(s.pre, input.audio, cap)
      && SpeechStarted !in r.events
  {
  }

  /** A step either leaves the main buffer alone, or appends the frame, or
      (at onset) appends the pre-roll and then the frame: it never shortens
      or rewrites it. */
  lemma StepMainAppendOnly(s: Session, input: FrameInput, route: Route, cfg: Config.SettingsValue, h: Handlers, cap: nat)
    ensures var r := Step(s, input, route, cfg, h, cap);
      && (r.s.main == s.main || r.s.main == s.main + [input.audio] || r.s.main == s.main + s.pre + [input.audio])
      && s.main <= r.s.main
  {
    var p, o1, o2, o3 := StepPhases(s, input, route, cfg, h, cap);
    assert o1.s.main == s.main || o1.s.main == s.main + [input.audio] || o1.s.main == s.main + s.pre + [input.audio];
    AppendAssoc(s.main, s.pre, [input.audio]);
    PrefixOfAppend(s.main, [input.audio]);
    PrefixOfAppend(s.main, s.pre + [input.audio]);
  }

  /** After onset on the VAD path, a silent frame is kept unless it is the
      frame on which the silence timeout latches; that one frame is dropped. */
  lemma StepSilentVad(s: Session, input: FrameInput, cfg: Config.SettingsValue, h: Handlers, cap: nat)
    requires s.st.speechDetected
    ensures var r := Step(s, input, VadPath(false), cfg, h, cap);
      var start := if s.st.silenceStart.None? then input.clock.silenceMark else s.st.silenceStart.value;
      var fires := input.clock.silenceNow - start >= cfg.vadSilenceTimeout && !s.st.timeoutTriggered;
      && r.s.pre == s.pre
      && r.s.st.silenceStart == Some(start)
      && (fires ==> r.s.main == s.main && r.s.st.timeoutTriggered)
      && (!fires ==> r.s.main == s.main + [input.audio])
  {
  }

  /** After onset on the fallback path, every frame is kept, including the
      one on which the silence timeout latches. */
  lemma StepSilentFallback(s: Session, input: FrameInput, cfg: Config.SettingsValue, h: Handlers, cap: nat)
    requires s.st.speechDetected
    ensures var r := Step(s, input, Fallback, cfg, h, cap);
      && r.s.st.speechDetected
      && r.s.pre == s.pre
      && r.s.main == s.main + [input.audio]
  {
  }

  /** Event lists shaped like a step's, where the latch goes from `t0` to
      `t1` in the classification phase and to `t2` in the timeout phase:
      the timeout is announced once exactly when the latch was set. */
  lemma LatchAnnounced(p1: seq<Event>, e1: seq<Event>, e2: seq<Event>, e3: seq<Event>, rms: real, h: Handlers,
                       t0: bool, t1: bool, t2: bool, onset: bool)
    requires p1 == [] || p1 == [AudioLevel(rms)]
    requires (t0 ==> t1) && (t1 ==> t2)
    requires e1 == if t1 != t0 then TimeoutEvents(h) else if onset then SpeechStartEvents(h) else []
    requires e2 == if t2 != t1 then TimeoutEvents(h) else []
    requires |e3| <= 1 && (e3 == [] || e3[0].AudioChunk?)
    ensures CountTimeouts(p1 + e1 + e2 + e3) == if h.onSilenceTimeout && !t0 && t2 then 1 else 0
  {
    CountTimeoutsAppend(p1, e1);
    CountTimeoutsAppend(p1 + e1, e2);
    CountTimeoutsAppend(p1 + e1 + e2, e3);
  }

  /** The latch: a step never clears `timeout_triggered`, and it calls
      `on_silence_timeout` exactly once if it sets the latch (and the
      callback is set), and never otherwise. */
  lemma StepLatch(s: Session, input: FrameInput, route: Route, cfg: Config.SettingsValue, h: Handlers, cap: nat)
    ensures var r := Step(s, input, route, cfg, h, cap);
      && (s.st.timeoutTriggered ==> r.s.st.timeoutTriggered)
      && CountTimeouts(r.events)
         == if h.onSilenceTimeout && !s.st.timeoutTriggered && r.s.st.timeoutTriggered then 1 else 0
  {
    var p, o1, o2, o3 := StepPhases(s, input, route, cfg, h, cap);
    LatchAnnounced(p.1, o1.events, o2.events, o3.events, input.rms, h,
                   p.0.timeoutTriggered, o1.s.st.timeoutTriggered, o2.s.st.timeoutTriggered,
                   o1.s.st.speechDetected != p.0.speechDetected);
  }

  /** The hard cap latches whether or not speech was detected: after any step
      whose main buffer holds at least 16000 x `max_recording_sec` samples (a
      cap being set), the latch is set. */
  lemma StepCapLatches(s: Session, input: FrameInput, route: Route, cfg: Config.SettingsValue, h: Handlers, cap: nat)
    ensures var r := Step(s, input, route, cfg, h, cap);
      CapReached(r.s.main, cfg.maxRecordingSec) ==> r.s.st.timeoutTriggered
  {
  }

  /** Inactivity latches: after a step that ends with speech detected and at
      least `vad_silence_timeout` seconds since the last activity, the latch
      is set. */
  lemma StepIdleLatches(s: Session, input: FrameInput, route: Route, cfg: Config.SettingsValue, h: Handlers, cap: nat)
    ensures var r := Step(s, input, route, cfg, h, cap);
      r.s.st.speechDetected && input.clock.now - r.s.st.lastActivityTime >= cfg.vadSilenceTimeout
      ==> r.s.st.timeoutTriggered
  {
  }

  /** `last_activity_time` is set on the first frame (while it is 0) and
      afterwards moves only on activity frames, to the step's time. */
  lemma StepActivity(s: Session, input: FrameInput, route: Route, cfg: Config.SettingsValue, h: Handlers, cap: nat)
    ensures var r := Step(s, input, route, cfg, h, cap);
      r.s.st.lastActivityTime ==
        if IsActivityFrame(route, input.rms) || s.st.lastActivityTime == 0.0 then input.clock.now
        else s.st.lastActivityTime
  {
  }

  /** The report time moves exactly when the level is reported. */
  lemma StepLevelTime(s: Session, input: FrameInput, route: Route, cfg: Config.SettingsValue, h: Handlers, cap: nat)
    ensures var r := Step(s, input, route, cfg, h, cap);
      var due := h.onAudioLevel && input.clock.now - s.st.lastLevelUpdate >= s.st.levelUpdateInterval;
      r.s.st.lastLevelUpdate == if due then input.clock.now else s.st.lastLevelUpdate
  {
  }

  /** Event lists shaped like a step's: a level report, if any, can only
      come first. */
  lemma LevelFirst(p1: seq<Event>, e1: seq<Event>, e2: seq<Event>, e3: seq<Event>, rms: real, h: Handlers)
    requires p1 == [] || p1 == [AudioLevel(rms)]
    requires e1 == [] || e1 == SpeechStartEvents(h) || e1 == TimeoutEvents(h)
    requires e2 == [] || e2 == TimeoutEvents(h)
    requires e3 == [] || (|e3| == 1 && e3[0].AudioChunk?)
    ensures var es := p1 + e1 + e2 + e3;
      && ((|es| > 0 && es[0].AudioLevel?) <==> p1 != [])
      && (p1 != [] ==> es[0] == AudioLevel(rms))
      && (forall i :: 0 < i < |es| ==> !es[i].AudioLevel?)
  {
    var es := p1 + e1 + e2 + e3;
    var rest := e1 + e2 + e3;
    assert es == p1 + rest;
    assert NoLevel(rest);
  }

  /** The level callback is rate limited: it is called, first and only once,
      exactly when it is set and `level_update_interval` has passed since the
      last report, and only then does the report time move. */
  lemma StepLevel(s: Session, input: FrameInput, route: Route, cfg: Config.SettingsValue, h: Handlers, cap: nat)
    ensures var r := Step(s, input, route, cfg, h, cap);
      var due := h.onAudioLevel && input.clock.now - s.st.lastLevelUpdate >= s.st.levelUpdateInterval;
      && ((|r.events| > 0 && r.events[0].AudioLevel?) <==> due)
      && (due ==> r.events[0] == AudioLevel(input.rms) && r.s.st.lastLevelUpdate == input.clock.now)
      && (!due ==> r.s.st.lastLevelUpdate == s.st.lastLevelUpdate)
      && (forall i :: 0 < i < |r.events| ==> !r.events[i].AudioLevel?)
  {
    var p, o1, o2, o3 := StepPhases(s, input, route, cfg, h, cap);
    StepLevelTime(s, input, route, cfg, h, cap);
    LevelFirst(p.1, o1.events, o2.events, o3.events, input.rms, h);
  }

  /** Event lists shaped like a step's: a chunk, if any, is the last event. */
  lemma ChunkLast(p1: seq<Event>, e1: seq<Event>, e2: seq<Event>, e3: seq<Event>, rms: real, h: Handlers)
    requires p1 == [] || p1 == [AudioLevel(rms)]
    requires e1 == [] || e1 == SpeechStartEvents(h) || e1 == TimeoutEvents(h)
    requires e2 == [] || e2 == TimeoutEvents(h)
    requires |e3| <= 1
    ensures var es := p1 + e1 + e2 + e3;
      forall i :: 0 <= i < |es| && es[i].AudioChunk? ==> e3 != [] && i == |es| - 1 && es[i] == e3[0]
  {
    var es := p1 + e1 + e2 + e3;
    var before := p1 + e1 + e2;
    assert es == before + e3;
    PhaseEventKinds(e1, e2, h);
    assert NoChunk(before);
  }

  /** A chunk is handed over only after onset with a chunk callback set, as
      the last callback of the step, and it is the whole main buffer so far. */
  lemma StepChunk(s: Session, input: FrameInput, route: Route, cfg: Config.SettingsValue, h: Handlers, cap: nat)
    ensures var r := Step(s, input, route, cfg, h, cap);
      forall i :: 0 <= i < |r.events| && r.events[i].AudioChunk? ==>
        && h.onAudioChunk && r.s.st.speechDetected
        && i == |r.events| - 1
        && r.events[i].samples == Concat(r.s.main)
  {
    var p, o1, o2, o3 := StepPhases(s, input, route, cfg, h, cap);
    ChunkLast(p.1, o1.events, o2.events, o3.events, input.rms, h);
  }

  // ---------------------------------------------------------------------
  // Properties of a run of frames
  // ---------------------------------------------------------------------

  /** Over any run without a reset, `on_silence_timeout` is called at most
      once: exactly once if the run sets the latch and the callback is set. */
  lemma {:induction false} RunLatch(s: Session, inputs: seq<(FrameInput, Route)>, cfg: Config.SettingsValue, h: Handlers, cap: nat)
    ensures var r := Run(s, inputs, cfg, h, cap);
      && (s.st.timeoutTriggered ==> r.s.st.timeoutTriggered)
      && CountTimeouts(r.events)
         == (if h.onSilenceTimeout && !s.st.timeoutTriggered && r.s.st.timeoutTriggered then 1 else 0)
      && CountTimeouts(r.events) <= 1
    decreases |inputs|
  {
    if inputs != [] {
      var o := Step(s, inputs[0].0, inputs[0].1, cfg, h, cap);
      StepLatch(s, inputs[0].0, inputs[0].1, cfg, h, cap);
      RunLatch(o.s, inputs[1..], cfg, h, cap);
      CountTimeoutsAppend(o.events, Run(o.s, inputs[1..], cfg, h, cap).events);
    }
  }

  /** Over any run the main buffer only grows: the old contents stay a prefix. */
  lemma {:induction false} RunMainGrows(s: Session, inputs: seq<(FrameInput, Route)>, cfg: Config.SettingsValue, h: Handlers, cap: nat)
    ensures s.main <= Run(s, inputs, cfg, h, cap).s.main
    decreases |inputs|
  {
    if inputs != [] {
      var o := Step(s, inputs[0].0, inputs[0].1, cfg, h, cap);
      StepMainAppendOnly(s, inputs[0].0, inputs[0].1, cfg, h, cap);
      RunMainGrows(o.s, inputs[1..], cfg, h, cap);
    }
  }

  /** Every frame of a run takes `route`. */
  predicate OnRoute(inputs: seq<(FrameInput, Route)>, route: Route)
  {
    forall i :: 0 <= i < |inputs| ==> inputs[i].1 == route
  }

  /** The frames of a run, in order. */
  function Audios(inputs: seq<(FrameInput, Route)>): (r: seq<Frame>)
    ensures |r| == |inputs|
  {
    if inputs == [] then [] else [inputs[0].0.audio] + Audios(inputs[1..])
  }

  /** On the fallback path, once speech has been detected, every frame of a
      run is appended to the main buffer, in order. */
  lemma {:induction false} RunFallbackKeepsAll(s: Session, inputs: seq<(FrameInput, Route)>, cfg: Config.SettingsValue, h: Handlers, cap: nat)
    requires s.st.speechDetected
    requires OnRoute(inputs, Fallback)
    ensures Run(s, inputs, cfg, h, cap).s.main == s.main + Audios(inputs)
    decreases |inputs|
  {
    if inputs != [] {
      var input := inputs[0].0;
      var o := Step(s, input, Fallback, cfg, h, cap);
      StepSilentFallback(s, input, cfg, h, cap);
      RunFallbackKeepsAll(o.s, inputs[1..], cfg, h, cap);
      assert Run(s, inputs, cfg, h, cap).s == Run(o.s, inputs[1..], cfg, h, cap).s;
      AppendAssoc(s.main, [input.audio], Audios(inputs[1..]));
    }
  }

  /** `kept` is `all` with exactly one element left out. */
  predicate MissesOne<T(==)>(kept: seq<T>, all: seq<T>)
  {
    exists k :: 0 <= k < |all| && kept == all[..k] + all[k + 1..]
  }

  /** Leaving out the first element. */
  lemma MissesFirst<T>(x: T, rest: seq<T>)
    ensures MissesOne(rest, [x] + rest)
  {
    var all := [x] + rest;
    assert rest == all[..0] + all[1..];
  }

  /** Leaving out a later element. */
  lemma MissesLater<T>(x: T, kept: seq<T>, rest: seq<T>)
    requires MissesOne(kept, rest)
    ensures MissesOne([x] + kept, [x] + rest)
  {
    var k :| 0 <= k < |rest| && kept == rest[..k] + rest[k + 1..];
    var all := [x] + rest;
    assert all[..k + 1] == [x] + rest[..k];
    assert all[k + 2..] == rest[k + 1..];
    assert [x] + kept == all[..k + 1] + all[k + 2..];
  }

  /** After onset, a speech frame on the VAD path is appended to the main
      buffer, and speech stays detected. */
  lemma StepSpeechVad(s: Session, input: FrameInput, cfg: Config.SettingsValue, h: Handlers, cap: nat)
    requires s.st.speechDetected
    ensures var r := Step(s, input, VadPath(true), cfg, h, cap);
      r.s.st.speechDetected && r.s.main == s.main + [input.audio]
  {
    var p, o1, o2, o3 := StepPhases(s, input, VadPath(true), cfg, h, cap);
    assert o1.s.main == s.main + [input.audio];
  }

  /** After onset, one VAD-path step keeps speech detected and either appends
      its frame to the main buffer or, as the step on which the latch
      rises, leaves the main buffer as it was. */
  lemma StepVadShape(s: Session, input: FrameInput, route: Route, cfg: Config.SettingsValue, h: Handlers, cap: nat)
    requires s.st.speechDetected && route.VadPath?
    ensures var r := Step(s, input, route, cfg, h, cap);
      && r.s.st.speechDetected
      && (s.st.timeoutTriggered ==> r.s.st.timeoutTriggered)
      && (|| r.s.main == s.main + [input.audio]
          || (!s.st.timeoutTriggered && r.s.st.timeoutTriggered && r.s.main == s.main))
  {
    StepLatch(s, input, route, cfg, h, cap);
    if route.isSpeech {
      StepSpeechVad(s, input, cfg, h, cap);
    } else {
      StepSilentVad(s, input, cfg, h, cap);
      var p, o1, o2, o3 := StepPhases(s, input, route, cfg, h, cap);
      assert o1.s.st.speechDetected;
    }
  }

  /** On the VAD path, once speech has been detected, a run appends its own
      frames to the main buffer in order, except that at most one frame may
      be missing: the one on which the silence timeout latches. Once the
      latch is already set, no frame is lost. */
  lemma {:induction false} RunVadDropsAtMostOne(s: Session, inputs: seq<(FrameInput, Route)>, cfg: Config.SettingsValue, h: Handlers, cap: nat)
    requires s.st.speechDetected
    requires forall i :: 0 <= i < |inputs| ==> inputs[i].1.VadPath?
    ensures var r := Run(s, inputs, cfg, h, cap);
      || r.s.main == s.main + Audios(inputs)
      || (&& !s.st.timeoutTriggered && r.s.st.timeoutTriggered
          && s.main <= r.s.main && MissesOne(r.s.main[|s.main|..], Audios(inputs)))
    decreases |inputs|
  {
    if inputs != [] {
      var input := inputs[0].0;
      var o := Step(s, input, inputs[0].1, cfg, h, cap);
      var r := Run(o.s, inputs[1..], cfg, h, cap);
      assert Run(s, inputs, cfg, h, cap).s == r.s;
      var rest := Audios(inputs[1..]);
      assert Audios(inputs) == [input.audio] + rest;
      StepVadShape(s, input, inputs[0].1, cfg, h, cap);
      RunVadDropsAtMostOne(o.s, inputs[1..], cfg, h, cap);
      RunLatch(o.s, inputs[1..], cfg, h, cap);
      if o.s.main == s.main + [input.audio] {
        if r.s.main == o.s.main + rest {
          AppendAssoc(s.main, [input.audio], rest);
        } else {
          var tail := r.s.main[|o.s.main|..];
          assert r.s.main == o.s.main + tail;
          AppendAssoc(s.main, [input.audio], tail);
          assert r.s.main[|s.main|..] == [input.audio] + tail;
          MissesLater(input.audio, tail, rest);
        }
      } else {
        assert r.s.main == s.main + rest;
        assert r.s.main[|s.main|..] == rest;
        MissesFirst(input.audio, rest);
      }
    }
  }

  /** The fallback path has no hysteresis: with levels 0.005, 0.011, 0.005
      and 0.003 at times 1 to 4 and the default 1.5-second timeout, speech
      starts on the second frame and silence is timed from the third,
      although its level is above 0.004. */
  lemma FallbackSingleThresholdExample()
    ensures
      var h := Handlers(false, false, false, false);
      var f := [1.0];
      var s0 := Session(Initial, [], []);
      var s1 := FallbackStep(s0, f, 0.005, 1.0, 1.5, h, 14).s;
      var s2 := FallbackStep(s1, f, 0.011, 2.0, 1.5, h, 14).s;
      var s3 := FallbackStep(s2, f, 0.005, 3.0, 1.5, h, 14).s;
      var s4 := FallbackStep(s3, f, 0.003, 4.0, 1.5, h, 14).s;
      && !s1.st.speechDetected && s2.st.speechDetected
      && s2.st.silenceStartNonVad.None?
      && s3.st.silenceStartNonVad == Some(3.0)
      && s4.st.silenceStartNonVad == Some(3.0)
      && s4.main == [f, f, f, f]
  {
  }

  // ---------------------------------------------------------------------
  // The mutable objects and the step as methods
  // ---------------------------------------------------------------------

  /** `CallbackState`. */
  class CallbackState {
    var silenceStart: Option<real>
    var speechDetected: bool
    var timeoutTriggered: bool
    var silenceStartNonVad: Option<real>
    var lastLevelUpdate: real
    var levelUpdateInterval: real
    var lastActivityTime: real
    var chunkInterval: real
    var lastChunkTime: real
    var lastChunkIndex: nat

    function Value(): StateValue
      reads this
    {
      StateValue(silenceStart, speechDetected, timeoutTriggered, silenceStartNonVad, lastLevelUpdate,
                 levelUpdateInterval, lastActivityTime, chunkInterval, lastChunkTime, lastChunkIndex)
    }

    /** `__init__`. */
    constructor ()
      ensures Value() == Initial
    {
      silenceStart, speechDetected, timeoutTriggered, silenceStartNonVad := None, false, false, None;
      lastLevelUpdate, levelUpdateInterval, lastActivityTime := 0.0, 0.05, 0.0;
      chunkInterval, lastChunkTime, lastChunkIndex := 2.0, 0.0, 0;
    }

    /** `reset`: re-run `__init__` on the same object. */
    method Reset()
      modifies this
      ensures Value() == Initial
    {
      silenceStart, speechDetected, timeoutTriggered, silenceStartNonVad := None, false, false, None;
      lastLevelUpdate, levelUpdateInterval, lastActivityTime := 0.0, 0.05, 0.0;
      chunkInterval, lastChunkTime, lastChunkIndex := 2.0, 0.0, 0;
    }
  }

  /** The session the three objects hold. */
  function Snapshot(state: CallbackState, pre: FrameDeque, main: FrameList): Session
    reads state, pre, main
  {
    Session(state.Value(), pre.frames, main.frames)
  }

  /** Lines 113-115 and 152-154: append every pre-roll frame, oldest first,
      to the main buffer, then clear the pre-roll. */
  method FlushPreRoll(pre: FrameDeque, main: FrameList)
    modifies pre, main
    ensures pre.Valid() && pre.frames == []
    ensures main.frames == old(main.frames) + old(pre.frames)
  {
    var i := 0;
    while i < |pre.frames|
      invariant 0 <= i <= |pre.frames|
      invariant pre.frames == old(pre.frames)
      invariant main.frames == old(main.frames) + pre.frames[..i]
    {
      main.Append(pre.frames[i]);
      i := i + 1;
    }
    assert pre.frames[..i] == pre.frames;
    pre.Clear();
  }

  /** Lines 108-115 / 148-154 on the objects. */
  method Onset(state: CallbackState, pre: FrameDeque, main: FrameList, h: Handlers) returns (events: seq<Event>)
    requires pre.Valid()
    modifies state, pre, main
    ensures pre.Valid()
    ensures Outcome(Snapshot(state, pre, main), events) == OnsetStep(old(Snapshot(state, pre, main)), h)
  {
    events := [];
    if !state.speechDetected {
      state.speechDetected := true;
      events := SpeechStartEvents(h);
      FlushPreRoll(pre, main);
    }
  }

  /** Lines 52-60 on the state. */
  method Prelude(state: CallbackState, rms: real, now: real, h: Handlers) returns (events: seq<Event>)
    modifies state
    ensures (state.Value(), events) == PreludeStep(old(state.Value()), rms, now, h)
  {
    events := [];
    if state.lastActivityTime == 0.0 {
      state.lastActivityTime := now;
    }
    if h.onAudioLevel && now - state.lastLevelUpdate >= state.levelUpdateInterval {
      events := [AudioLevel(rms)];
      state.lastLevelUpdate := now;
    }
  }

  /** `_process_vad`: the classifier is consulted through `is_speech`. */
  method ProcessVad(audio: Frame, rms: real, clock: Clock, state: CallbackState, vad: Vad.VadProcessor,
                    classifier: Vad.ClassifierOutcome, pre: FrameDeque, main: FrameList,
                    timeout: real, h: Handlers) returns (events: seq<Event>)
    requires pre.Valid()
    modifies state, pre, main
    ensures pre.Valid()
    ensures Outcome(Snapshot(state, pre, main), events)
            == VadStep(old(Snapshot(state, pre, main)), audio, rms, vad.IsSpeech(classifier), clock, timeout, h, pre.maxLen)
  {
    var isSpeech := vad.IsSpeech(classifier);
    events := [];
    if isSpeech {
      ghost var lastActivity := state.lastActivityTime;
      events := Onset(state, pre, main, h);
      state.silenceStart := None;
      main.Append(audio);
      if rms >= SpeechStop {
        state.lastActivityTime := clock.now;
      }
      assert state.lastActivityTime == if rms >= SpeechStop then clock.now else lastActivity;
    } else if state.speechDetected {
      if state.silenceStart.None? {
        state.silenceStart := Some(clock.silenceMark);
      }
      var silenceDuration := clock.silenceNow - state.silenceStart.value;
      if silenceDuration >= timeout && !state.timeoutTriggered {
        state.timeoutTriggered := true;
        events := TimeoutEvents(h);
      } else {
        main.Append(audio);
      }
    } else {
      pre.Append(audio);
    }
  }

  /** `_process_non_vad`. */
  method ProcessNonVad(audio: Frame, rms: real, now: real, state: CallbackState, pre: FrameDeque,
                       main: FrameList, timeout: real, h: Handlers) returns (events: seq<Event>)
    requires pre.Valid()
    modifies state, pre, main
    ensures pre.Valid()
    ensures Outcome(Snapshot(state, pre, main), events)
            == FallbackStep(old(Snapshot(state, pre, main)), audio, rms, now, timeout, h, pre.maxLen)
  {
    events := [];
    if rms >= SpeechStart {
      events := Onset(state, pre, main, h);
      state.silenceStartNonVad := None;
      main.Append(audio);
      state.lastActivityTime := now;
    } else if state.speechDetected {
      if state.silenceStartNonVad.None? {
        state.silenceStartNonVad := Some(now);
      } else if now - state.silenceStartNonVad.value >= timeout && !state.timeoutTriggered {
        state.timeoutTriggered := true;
        events := TimeoutEvents(h);
      }
      main.Append(audio);
    } else {
      pre.Append(audio);
    }
  }

  /** `_check_timeouts`. */
  method CheckTimeouts(now: real, state: CallbackState, pre: FrameDeque, main: FrameList, cfg: Config.SettingsValue,
                       h: Handlers) returns (events: seq<Event>)
    modifies state
    ensures Outcome(Snapshot(state, pre, main), events) == TimeoutStep(old(Snapshot(state, pre, main)), now, cfg, h)
  {
    events := [];
    if !state.timeoutTriggered && CapSet(cfg.maxRecordingSec) {
      var totalSamples := TotalSamples(main.frames);
      var maxSamples := SampleRate as real * cfg.maxRecordingSec.value;
      if totalSamples as real >= maxSamples {
        state.timeoutTriggered := true;
        events := TimeoutEvents(h);
      }
    }
    if state.speechDetected && !state.timeoutTriggered {
      if now - state.lastActivityTime >= cfg.vadSilenceTimeout {
        state.timeoutTriggered := true;
        events := events + TimeoutEvents(h);
      }
    }
  }

  /** `_emit_chunks`. */
  method EmitChunks(now: real, state: CallbackState, pre: FrameDeque, main: FrameList, h: Handlers)
      returns (events: seq<Event>)
    modifies state
    ensures Outcome(Snapshot(state, pre, main), events) == ChunkStep(old(Snapshot(state, pre, main)), now, h)
  {
    events := [];
    if h.onAudioChunk && state.speechDetected {
      var e := Chunks.EmitChunkIfReady(main.frames, state.lastChunkTime, state.lastChunkIndex, now,
                                       state.chunkInterval, SampleRate);
      state.lastChunkTime, state.lastChunkIndex := e.lastTime, e.lastIndex;
      if e.chunk.Some? {
        events := [AudioChunk(e.chunk.value)];
      }
    }
  }

  /** The route `process_audio_callback` takes for the given processor. */
  function RouteOf(cfg: Config.SettingsValue, vad: Vad.VadProcessor?, classifier: Vad.ClassifierOutcome): Route
    reads vad
  {
    if cfg.vadEnabled && vad != null then VadPath(vad.IsSpeech(classifier)) else Fallback
  }

  /** `process_audio_callback`: one frame through all four phases. */
  method ProcessAudioCallback(input: FrameInput, state: CallbackState, vad: Vad.VadProcessor?,
                              classifier: Vad.ClassifierOutcome, pre: FrameDeque, main: FrameList,
                              cfg: Config.SettingsValue, h: Handlers) returns (events: seq<Event>)
    requires pre.Valid()
    modifies state, pre, main
    ensures pre.Valid()
    ensures Outcome(Snapshot(state, pre, main), events)
            == Step(old(Snapshot(state, pre, main)), input, RouteOf(cfg, vad, classifier), cfg, h, pre.maxLen)
  {
    ghost var s0 := Snapshot(state, pre, main);
    ghost var route := RouteOf(cfg, vad, classifier);
    var now := input.clock.now;
    ghost var p := PreludeStep(s0.st, input.rms, now, h);
    var ev0 := Prelude(state, input.rms, now, h);
    assert Snapshot(state, pre, main) == Session(p.0, s0.pre, s0.main);
    ghost var o1 := ProcessFrame(Session(p.0, s0.pre, s0.main), input, route, cfg, h, pre.maxLen);
    var ev1;
    if cfg.vadEnabled && vad != null {
      ev1 := ProcessVad(input.audio, input.rms, input.clock, state, vad, classifier, pre, main, cfg.vadSilenceTimeout, h);
    } else {
      ev1 := ProcessNonVad(input.audio, input.rms, now, state, pre, main, cfg.vadSilenceTimeout, h);
    }
    assert Outcome(Snapshot(state, pre, main), ev1) == o1;
    ghost var o2 := TimeoutStep(o1.s, now, cfg, h);
    var ev2 := CheckTimeouts(now, state, pre, main, cfg, h);
    assert Outcome(Snapshot(state, pre, main), ev2) == o2;
    ghost var o3 := ChunkStep(o2.s, now, h);
    var ev3 := EmitChunks(now, state, pre, main, h);
    assert Outcome(Snapshot(state, pre, main), ev3) == o3;
    events := ev0 + ev1 + ev2 + ev3;
  }
}
