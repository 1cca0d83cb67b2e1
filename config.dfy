/** User settings, their validation, loading and saving, and display-server
    detection (src/config.py). The config file is modelled by its parsed
    contents and the process environment by a map. */
module Config {
  import opened Wrappers
  import opened Clamp
  import opened Text

  const SampleRate: nat := 16000
  const Channels: nat := 1
  const PreBufferMs: nat := 400
  const AvailableModels: seq<string> := ["tiny", "base", "small", "medium", "large-v3"]
  const ComputeDevices: seq<string> := ["auto", "cpu", "cuda"]
  const OverlayThemes: seq<string> := ["auto", "dark", "light"]
  const DefaultHotkeyToggle: string := "<ctrl>+<alt>+r"
  const DefaultHotkeyCancel: string := "escape"

  /** A scalar as it comes out of the JSON config file or a keyword argument. */
  datatype Value = VNone | VBool(b: bool) | VInt(i: int) | VReal(x: real) | VText(s: string)

  /** Python's `bool(v)`. */
  predicate Truthy(v: Value)
  {
    match v
    case VNone => false
    case VBool(b) => b
    case VInt(i) => i != 0
    case VReal(x) => x != 0.0
    case VText(s) => s != ""
  }

  /** The fields of the `Settings` dataclass, as values. `autoPaste` keeps
      whatever value it was given until `validate` coerces it to a bool. */
  datatype SettingsValue = SettingsValue(
    microphone: Option<string>,
    vadEnabled: bool,
    vadSilenceTimeout: real,
    vadThreshold: int,
    modelSize: string,
    device: string,
    language: Option<string>,
    hotkeyToggle: string,
    hotkeyCancel: string,
    maxRecordingSec: Option<real>,
    overlayTheme: string,
    overlayOpacity: real,
    autoPaste: Value)

  /** `Settings()` with every field at its default. */
  const Defaults: SettingsValue := SettingsValue(
    None, true, 1.5, 2, "medium", "auto", None, DefaultHotkeyToggle, DefaultHotkeyCancel,
    None, "auto", 0.8, VBool(true))

  /** `x if x in choices else default`. */
  function OrDefault(x: string, choices: seq<string>, default: string): (r: string)
    ensures x in choices ==> r == x
    ensures x !in choices ==> r == default
  {
    if x in choices then x else default
  }

  /** `max(lo, x)` when `x` is set; None stays None. */
  function AtLeastIfSet(lo: real, x: Option<real>): (r: Option<real>)
    ensures x.None? <==> r.None?
    ensures x.Some? ==> r.value >= lo && r.value >= x.value && (r.value == lo || r.value == x.value)
  {
    if x.Some? then Some(AtLeast(lo, x.value)) else None
  }

  /** The ranges and choices `validate` enforces. */
  predicate IsValid(s: SettingsValue)
  {
    && 0.5 <= s.vadSilenceTimeout <= 3.0
    && 0 <= s.vadThreshold <= 3
    && s.modelSize in AvailableModels
    && s.device in ComputeDevices
    && (s.maxRecordingSec.Some? ==> s.maxRecordingSec.value >= 5.0)
    && s.overlayTheme in OverlayThemes
    && 0.1 <= s.overlayOpacity <= 1.0
    && s.autoPaste.VBool?
  }

  /** `Settings.validate`: clamp the numeric settings, reset unknown choices to
      their defaults and coerce `auto_paste` to a bool. Fields it does not
      mention are kept. */
  function Validated(s: SettingsValue): (r: SettingsValue)
    ensures IsValid(r)
    ensures && r.microphone == s.microphone && r.vadEnabled == s.vadEnabled && r.language == s.language
            && r.hotkeyToggle == s.hotkeyToggle && r.hotkeyCancel == s.hotkeyCancel
  {
    s.(vadSilenceTimeout := ClampReal(0.5, 3.0, s.vadSilenceTimeout),
       vadThreshold := ClampInt(0, 3, s.vadThreshold),
       modelSize := OrDefault(s.modelSize, AvailableModels, "medium"),
       device := OrDefault(s.device, ComputeDevices, "auto"),
       maxRecordingSec := AtLeastIfSet(5.0, s.maxRecordingSec),
       overlayTheme := OrDefault(s.overlayTheme, OverlayThemes, "auto"),
       overlayOpacity := ClampReal(0.1, 1.0, s.overlayOpacity),
       autoPaste := VBool(Truthy(s.autoPaste)))
  }

  /** What `validate` does to each field it checks: a value in range or among
      the choices is kept, one below or above a bound becomes that bound, an
      unknown choice becomes the default, and `auto_paste` becomes its truth value. */
  lemma ValidatedFields(s: SettingsValue)
    ensures var r := Validated(s);
      && (0.5 <= s.vadSilenceTimeout <= 3.0 ==> r.vadSilenceTimeout == s.vadSilenceTimeout)
      && (s.vadSilenceTimeout < 0.5 ==> r.vadSilenceTimeout == 0.5)
      && (s.vadSilenceTimeout > 3.0 ==> r.vadSilenceTimeout == 3.0)
      && (0 <= s.vadThreshold <= 3 ==> r.vadThreshold == s.vadThreshold)
      && (s.vadThreshold < 0 ==> r.vadThreshold == 0)
      && (s.vadThreshold > 3 ==> r.vadThreshold == 3)
      && (s.modelSize in AvailableModels ==> r.modelSize == s.modelSize)
      && (s.modelSize !in AvailableModels ==> r.modelSize == "medium")
      && (s.device in ComputeDevices ==> r.device == s.device)
      && (s.device !in ComputeDevices ==> r.device == "auto")
      && (s.maxRecordingSec.None? <==> r.maxRecordingSec.None?)
      && (s.maxRecordingSec.Some? && s.maxRecordingSec.value >= 5.0 ==> r.maxRecordingSec == s.maxRecordingSec)
      && (s.maxRecordingSec.Some? && s.maxRecordingSec.value < 5.0 ==> r.maxRecordingSec == Some(5.0))
      && (s.overlayTheme in OverlayThemes ==> r.overlayTheme == s.overlayTheme)
      && (s.overlayTheme !in OverlayThemes ==> r.overlayTheme == "auto")
      && (0.1 <= s.overlayOpacity <= 1.0 ==> r.overlayOpacity == s.overlayOpacity)
      && (s.overlayOpacity < 0.1 ==> r.overlayOpacity == 0.1)
      && (s.overlayOpacity > 1.0 ==> r.overlayOpacity == 1.0)
      && r.autoPaste == VBool(Truthy(s.autoPaste))
  {
  }

  /** Settings that are already valid pass through `validate` unchanged. */
  lemma ValidatedFixesValid(s: SettingsValue)
    requires IsValid(s)
    ensures Validated(s) == s
  {
  }

  /** `validate` is idempotent. */
  lemma {:induction false} ValidatedIdempotent(s: SettingsValue)
    ensures Validated(Validated(s)) == Validated(s)
  {
    ValidatedFixesValid(Validated(s));
  }

  /** The test case of the repository: every field out of range or unknown. */
  lemma ValidateExample()
    ensures
      var s := Defaults.(vadSilenceTimeout := 0.1, vadThreshold := 99, modelSize := "nope",
                         device := "gpu", maxRecordingSec := Some(2.0), overlayTheme := "neon",
                         overlayOpacity := 2.5, autoPaste := VInt(0));
      Validated(s) == Defaults.(vadSilenceTimeout := 0.5, vadThreshold := 3, maxRecordingSec := Some(5.0),
                                overlayOpacity := 1.0, autoPaste := VBool(false))
  {
  }

  // ---------------------------------------------------------------------
  // Fields by name (`Settings(**kwargs)`, `setattr`, `asdict`)
  // ---------------------------------------------------------------------

  /** The fields of `Settings`, in declaration order. */
  datatype Field =
    | Microphone | VadEnabled | VadSilenceTimeout | VadThreshold | ModelSize | Device
    | Language | HotkeyToggle | HotkeyCancel | MaxRecordingSec | OverlayTheme
    | OverlayOpacity | AutoPaste

  const AllFields: seq<Field> := [
    Microphone, VadEnabled, VadSilenceTimeout, VadThreshold, ModelSize, Device, Language,
    HotkeyToggle, HotkeyCancel, MaxRecordingSec, OverlayTheme, OverlayOpacity, AutoPaste]

  lemma AllFieldsComplete(f: Field)
    ensures f in AllFields
  {
  }

  /** The attribute name of a field. */
  function Name(f: Field): string
  {
    match f
    case Microphone => "microphone"
    case VadEnabled => "vad_enabled"
    case VadSilenceTimeout => "vad_silence_timeout"
    case VadThreshold => "vad_threshold"
    case ModelSize => "model_size"
    case Device => "device"
    case Language => "language"
    case HotkeyToggle => "hotkey_toggle"
    case HotkeyCancel => "hotkey_cancel"
    case MaxRecordingSec => "max_recording_sec"
    case OverlayTheme => "overlay_theme"
    case OverlayOpacity => "overlay_opacity"
    case AutoPaste => "auto_paste"
  }

  /** `key in Settings.__dataclass_fields__`, answering which field. */
  function FieldNamed(key: string): (r: Option<Field>)
    ensures r.Some? ==> Name(r.value) == key
  {
    if key == "microphone" then Some(Microphone)
    else if key == "vad_enabled" then Some(VadEnabled)
    else if key == "vad_silence_timeout" then Some(VadSilenceTimeout)
    else if key == "vad_threshold" then Some(VadThreshold)
    else if key == "model_size" then Some(ModelSize)
    else if key == "device" then Some(Device)
    else if key == "language" then Some(Language)
    else if key == "hotkey_toggle" then Some(HotkeyToggle)
    else if key == "hotkey_cancel" then Some(HotkeyCancel)
    else if key == "max_recording_sec" then Some(MaxRecordingSec)
    else if key == "overlay_theme" then Some(OverlayTheme)
    else if key == "overlay_opacity" then Some(OverlayOpacity)
    else if key == "auto_paste" then Some(AutoPaste)
    else None
  }

  /** Every field is found under its own name: the names are distinct. */
  lemma FieldNamedName(f: Field)
    ensures FieldNamed(Name(f)) == Some(f)
  {
  }

  predicate IsNumber(v: Value)
  {
    v.VInt? || v.VReal?
  }

  function AsReal(v: Value): real
    requires IsNumber(v)
  {
    if v.VInt? then v.i as real else v.x
  }

  function TextOrNone(v: Value): Option<string>
    requires v.VNone? || v.VText?
  {
    if v.VText? then Some(v.s) else None
  }

  function OptionText(o: Option<string>): Value
  {
    if o.Some? then VText(o.value) else VNone
  }

  /** The value has the kind the field holds. Python does not check this;
      the model only assigns values of the field's kind. */
  predicate FitsField(f: Field, v: Value)
  {
    match f
    case Microphone => v.VNone? || v.VText?
    case Language => v.VNone? || v.VText?
    case VadEnabled => v.VBool?
    case VadSilenceTimeout => IsNumber(v)
    case OverlayOpacity => IsNumber(v)
    case VadThreshold => v.VInt?
    case MaxRecordingSec => v.VNone? || IsNumber(v)
    case AutoPaste => true
    case _ => v.VText?
  }

  /** An entry under a field's name carries a value of that field's kind;
      entries under other names may carry anything. */
  predicate Fits(key: string, v: Value)
  {
    FieldNamed(key).Some? ==> FitsField(FieldNamed(key).value, v)
  }

  predicate AllFit(entries: seq<(string, Value)>)
  {
    forall i :: 0 <= i < |entries| ==> Fits(entries[i].0, entries[i].1)
  }

  /** The value `asdict` writes for a field. */
  function Get(s: SettingsValue, f: Field): (r: Value)
    ensures FitsField(f, r)
  {
    match f
    case Microphone => OptionText(s.microphone)
    case VadEnabled => VBool(s.vadEnabled)
    case VadSilenceTimeout => VReal(s.vadSilenceTimeout)
    case VadThreshold => VInt(s.vadThreshold)
    case ModelSize => VText(s.modelSize)
    case Device => VText(s.device)
    case Language => OptionText(s.language)
    case HotkeyToggle => VText(s.hotkeyToggle)
    case HotkeyCancel => VText(s.hotkeyCancel)
    case MaxRecordingSec => if s.maxRecordingSec.Some? then VReal(s.maxRecordingSec.value) else VNone
    case OverlayTheme => VText(s.overlayTheme)
    case OverlayOpacity => VReal(s.overlayOpacity)
    case AutoPaste => s.autoPaste
  }

  /** Settings are determined by what `asdict` writes for them. */
  lemma GetDetermines(a: SettingsValue, b: SettingsValue)
    requires forall f :: Get(a, f) == Get(b, f)
    ensures a == b
  {
    assert Get(a, Microphone) == Get(b, Microphone);
    assert Get(a, Language) == Get(b, Language);
    assert Get(a, MaxRecordingSec) == Get(b, MaxRecordingSec);
    assert Get(a, VadEnabled) == Get(b, VadEnabled);
    assert Get(a, VadSilenceTimeout) == Get(b, VadSilenceTimeout);
    assert Get(a, VadThreshold) == Get(b, VadThreshold);
    assert Get(a, ModelSize) == Get(b, ModelSize);
    assert Get(a, Device) == Get(b, Device);
    assert Get(a, HotkeyToggle) == Get(b, HotkeyToggle);
    assert Get(a, HotkeyCancel) == Get(b, HotkeyCancel);
    assert Get(a, OverlayTheme) == Get(b, OverlayTheme);
    assert Get(a, OverlayOpacity) == Get(b, OverlayOpacity);
    assert Get(a, AutoPaste) == Get(b, AutoPaste);
  }

  /** `setattr(settings, name, v)` on one field: that field takes the value,
      the others keep theirs. */
  function Assign(s: SettingsValue, f: Field, v: Value): SettingsValue
    requires FitsField(f, v)
  {
    match f
    case Microphone => s.(microphone := TextOrNone(v))
    case VadEnabled => s.(vadEnabled := v.b)
    case VadSilenceTimeout => s.(vadSilenceTimeout := AsReal(v))
    case VadThreshold => s.(vadThreshold := v.i)
    case ModelSize => s.(modelSize := v.s)
    case Device => s.(device := v.s)
    case Language => s.(language := TextOrNone(v))
    case HotkeyToggle => s.(hotkeyToggle := v.s)
    case HotkeyCancel => s.(hotkeyCancel := v.s)
    case MaxRecordingSec => s.(maxRecordingSec := if v.VNone? then None else Some(AsReal(v)))
    case OverlayTheme => s.(overlayTheme := v.s)
    case OverlayOpacity => s.(overlayOpacity := AsReal(v))
    case AutoPaste => s.(autoPaste := v)
  }

  /** Assigning a field changes what `asdict` writes for that field only,
      and writes back a value as it was given unless an integer was given
      for a float field. */
  lemma AssignGet(s: SettingsValue, f: Field, v: Value)
    requires FitsField(f, v)
    ensures forall g :: g != f ==> Get(Assign(s, f, v), g) == Get(s, g)
    ensures v.VReal? || !IsNumber(v) ==> Get(Assign(s, f, v), f) == v
  {
  }

  /** Assigning one entry by name: a name that is not a field changes nothing. */
  function AssignNamed(s: SettingsValue, key: string, v: Value): (r: SettingsValue)
    requires Fits(key, v)
    ensures FieldNamed(key).None? ==> r == s
  {
    match FieldNamed(key)
    case Some(f) => Assign(s, f, v)
    case None => s
  }

  /** Assigning each entry in turn; a later entry for the same key wins. */
  function ApplyAll(s: SettingsValue, entries: seq<(string, Value)>): SettingsValue
    requires AllFit(entries)
    decreases |entries|
  {
    if entries == [] then s
    else ApplyAll(AssignNamed(s, entries[0].0, entries[0].1), entries[1..])
  }

  lemma {:induction false} ApplyAllStep(s: SettingsValue, entries: seq<(string, Value)>, i: nat)
    requires AllFit(entries) && i < |entries|
    ensures AllFit(entries[..i]) && AllFit(entries[..i + 1])
    ensures ApplyAll(s, entries[..i + 1]) == AssignNamed(ApplyAll(s, entries[..i]), entries[i].0, entries[i].1)
    decreases i
  {
    if i > 0 {
      var t := AssignNamed(s, entries[0].0, entries[0].1);
      ApplyAllStep(t, entries[1..], i - 1);
      assert entries[..i + 1][1..] == entries[1..][..i];
      assert entries[..i][1..] == entries[1..][..i - 1];
    } else {
      assert entries[..1][1..] == [];
    }
  }

  /** The entries `load` passes on as keyword arguments: those whose key
      names a `Settings` field, in their original order. */
  function KnownEntries(entries: seq<(string, Value)>): (r: seq<(string, Value)>)
    ensures |r| <= |entries|
    ensures forall i :: 0 <= i < |r| ==> FieldNamed(r[i].0).Some?
    ensures forall e :: e in r ==> e in entries
    ensures forall i :: 0 <= i < |entries| && FieldNamed(entries[i].0).Some? ==> entries[i] in r
  {
    if entries == [] then []
    else if FieldNamed(entries[0].0).Some? then [entries[0]] + KnownEntries(entries[1..])
    else KnownEntries(entries[1..])
  }

  lemma {:induction false} KnownEntriesAppend(a: seq<(string, Value)>, b: seq<(string, Value)>)
    ensures KnownEntries(a + b) == KnownEntries(a) + KnownEntries(b)
    decreases |a|
  {
    if a != [] {
      assert (a + b)[1..] == a[1..] + b;
      KnownEntriesAppend(a[1..], b);
    } else {
      assert a + b == b;
    }
  }

  /** Filtering out the unknown keys first changes nothing. */
  lemma {:induction false} ApplyAllKnownOnly(s: SettingsValue, entries: seq<(string, Value)>)
    requires AllFit(entries)
    ensures AllFit(KnownEntries(entries))
    ensures ApplyAll(s, entries) == ApplyAll(s, KnownEntries(entries))
    decreases |entries|
  {
    if entries != [] {
      ApplyAllKnownOnly(AssignNamed(s, entries[0].0, entries[0].1), entries[1..]);
      ApplyAllKnownOnly(s, entries[1..]);
    }
  }

  // ---------------------------------------------------------------------
  // Load and save
  // ---------------------------------------------------------------------

  /** The config file: absent, not valid JSON, valid JSON that is not an
      object (a list, a number, a string or null), or a JSON object's entries
      in order. */
  datatype ConfigFile = Missing | Malformed | NotAnObject | Object(entries: seq<(string, Value)>)

  /** The exception `load` lets escape: `data.items()` on JSON that is not an
      object raises `AttributeError`, which the handler does not catch. */
  datatype LoadError = AttributeError

  predicate Readable(file: ConfigFile)
  {
    file.Object? ==> AllFit(file.entries)
  }

  /** `ConfigManager.load`: defaults when the file is missing or not JSON;
      the `AttributeError` of `data.items()` when the JSON is not an object;
      otherwise the file's known keys over the defaults, validated. */
  function Load(file: ConfigFile): (r: Result<SettingsValue, LoadError>)
    requires Readable(file)
    ensures r.Err? <==> file.NotAnObject?
    ensures r.Ok? ==> IsValid(r.value)
    ensures file.Missing? || file.Malformed? ==> r == Ok(Defaults)
  {
    match file
    case Object(entries) =>
      ApplyAllKnownOnly(Defaults, entries);
      Ok(Validated(ApplyAll(Defaults, KnownEntries(entries))))
    case NotAnObject => Err(AttributeError)
    case _ => Ok(Defaults)
  }

  /** A file `load` returns settings for. */
  predicate Loadable(file: ConfigFile)
  {
    Readable(file) && !file.NotAnObject?
  }

  /** Keys that are not `Settings` fields are ignored, wherever they appear. */
  lemma LoadIgnoresUnknownKeys(xs: seq<(string, Value)>, key: string, v: Value, ys: seq<(string, Value)>)
    requires AllFit(xs) && AllFit(ys) && FieldNamed(key).None?
    ensures Readable(Object(xs + [(key, v)] + ys)) && Readable(Object(xs + ys))
    ensures Load(Object(xs + [(key, v)] + ys)) == Load(Object(xs + ys))
  {
    AllFitAround(xs, key, v, ys);
    KnownEntriesSkip(xs, key, v, ys);
  }

  /** An entry with an unknown key between two fitting lists still fits. */
  lemma AllFitAround(xs: seq<(string, Value)>, key: string, v: Value, ys: seq<(string, Value)>)
    requires AllFit(xs) && AllFit(ys) && FieldNamed(key).None?
    ensures AllFit(xs + [(key, v)] + ys) && AllFit(xs + ys)
  {
    var withKey := xs + [(key, v)] + ys;
    forall i | 0 <= i < |withKey| ensures Fits(withKey[i].0, withKey[i].1) {
      if i > |xs| {
        assert withKey[i] == ys[i - |xs| - 1];
      }
    }
  }

  /** Filtering drops an entry with an unknown key. */
  lemma KnownEntriesSkip(xs: seq<(string, Value)>, key: string, v: Value, ys: seq<(string, Value)>)
    requires FieldNamed(key).None?
    ensures KnownEntries(xs + [(key, v)] + ys) == KnownEntries(xs + ys)
  {
    KnownEntriesAppend(xs + [(key, v)], ys);
    KnownEntriesAppend(xs, [(key, v)]);
    KnownEntriesAppend(xs, ys);
    assert KnownEntries([(key, v)]) == [];
  }

  /** The repository's test: a known key is loaded, an extra key is dropped. */
  lemma LoadExample()
    ensures Load(Object([("model_size", VText("small")), ("extra_key", VText("ignored"))])).value.modelSize == "small"
  {
    assert KnownEntries([("model_size", VText("small")), ("extra_key", VText("ignored"))])
        == [("model_size", VText("small"))];
  }

  /** `asdict(settings)` restricted to some fields, in their order. */
  function EntriesOf(s: SettingsValue, fields: seq<Field>): (r: seq<(string, Value)>)
    ensures |r| == |fields|
    ensures forall i :: 0 <= i < |r| ==> r[i] == (Name(fields[i]), Get(s, fields[i]))
  {
    if fields == [] then [] else [(Name(fields[0]), Get(s, fields[0]))] + EntriesOf(s, fields[1..])
  }

  /** `json.dump(asdict(settings))`: every field under its name, in declaration order. */
  function Serialize(s: SettingsValue): (r: seq<(string, Value)>)
    ensures AllFit(r)
    ensures forall f :: (Name(f), Get(s, f)) in r
  {
    var r := EntriesOf(s, AllFields);
    assert forall i :: 0 <= i < |r| ==> FieldNamed(r[i].0) == Some(AllFields[i]) by {
      forall i | 0 <= i < |r| ensures FieldNamed(r[i].0) == Some(AllFields[i]) {
        FieldNamedName(AllFields[i]);
      }
    }
    forall f ensures (Name(f), Get(s, f)) in r {
      AllFieldsComplete(f);
      var i :| 0 <= i < |AllFields| && AllFields[i] == f;
      assert r[i] == (Name(f), Get(s, f));
    }
    r
  }

  /** Loading the entries of some fields sets exactly those fields. */
  lemma {:induction false} ApplyEntriesOf(x: SettingsValue, s: SettingsValue, fields: seq<Field>)
    ensures AllFit(EntriesOf(s, fields))
    ensures KnownEntries(EntriesOf(s, fields)) == EntriesOf(s, fields)
    ensures forall g :: Get(ApplyAll(x, EntriesOf(s, fields)), g) == if g in fields then Get(s, g) else Get(x, g)
    decreases |fields|
  {
    var e := EntriesOf(s, fields);
    forall i | 0 <= i < |e| ensures FieldNamed(e[i].0) == Some(fields[i]) {
      FieldNamedName(fields[i]);
    }
    if fields != [] {
      var f := fields[0];
      var x' := Assign(x, f, Get(s, f));
      AssignGet(x, f, Get(s, f));
      ApplyEntriesOf(x', s, fields[1..]);
      assert e[1..] == EntriesOf(s, fields[1..]);
      assert ApplyAll(x, e) == ApplyAll(x', e[1..]);
    }
  }

  /** Loading what was saved gives back the saved settings. */
  lemma SaveLoadRoundTrip(s: SettingsValue)
    requires IsValid(s)
    ensures Readable(Object(Serialize(s)))
    ensures Load(Object(Serialize(s))) == Ok(s)
  {
    ApplyEntriesOf(Defaults, s, AllFields);
    var loaded := ApplyAll(Defaults, Serialize(s));
    forall g ensures Get(loaded, g) == Get(s, g) {
      AllFieldsComplete(g);
    }
    GetDetermines(loaded, s);
    ValidatedFixesValid(s);
  }

  // ---------------------------------------------------------------------
  // Display server detection
  // ---------------------------------------------------------------------

  /** The process environment. */
  type Env = map<string, string>

  /** `os.environ.get(key, "")`. */
  function EnvGet(env: Env, key: string): string
  {
    if key in env then env[key] else ""
  }

  /** `is_wayland`: the session type is exactly "wayland" (no case folding). */
  function IsWayland(env: Env): (r: bool)
    ensures r <==> "XDG_SESSION_TYPE" in env && env["XDG_SESSION_TYPE"] == "wayland"
  {
    EnvGet(env, "XDG_SESSION_TYPE") == "wayland"
  }

  /** `get_display_server`: the lower-cased session type decides when it is
      "wayland" or "x11"; otherwise a non-empty WAYLAND_DISPLAY means Wayland,
      then a non-empty DISPLAY means X11, else "unknown". */
  function DisplayServer(env: Env): (r: string)
    ensures r == "wayland" || r == "x11" || r == "unknown"
    ensures Lower(EnvGet(env, "XDG_SESSION_TYPE")) == "wayland" ==> r == "wayland"
    ensures Lower(EnvGet(env, "XDG_SESSION_TYPE")) == "x11" ==> r == "x11"
    ensures r == "unknown" <==>
              && Lower(EnvGet(env, "XDG_SESSION_TYPE")) != "wayland"
              && Lower(EnvGet(env, "XDG_SESSION_TYPE")) != "x11"
              && EnvGet(env, "WAYLAND_DISPLAY") == "" && EnvGet(env, "DISPLAY") == ""
    ensures r == "wayland" <==>
              || Lower(EnvGet(env, "XDG_SESSION_TYPE")) == "wayland"
              || (Lower(EnvGet(env, "XDG_SESSION_TYPE")) != "x11" && EnvGet(env, "WAYLAND_DISPLAY") != "")
    ensures r == "x11" <==>
              || Lower(EnvGet(env, "XDG_SESSION_TYPE")) == "x11"
              || (&& Lower(EnvGet(env, "XDG_SESSION_TYPE")) != "wayland"
                  && EnvGet(env, "WAYLAND_DISPLAY") == "" && EnvGet(env, "DISPLAY") != "")
  {
    var sessionType := Lower(EnvGet(env, "XDG_SESSION_TYPE"));
    if sessionType == "wayland" then "wayland"
    else if sessionType == "x11" then "x11"
    else if EnvGet(env, "WAYLAND_DISPLAY") != "" then "wayland"
    else if EnvGet(env, "DISPLAY") != "" then "x11"
    else "unknown"
  }

  /** The repository's fallback test: with no session type, a Wayland
      socket means Wayland, else a display means X11, else unknown. */
  lemma DisplayServerFallbacks()
    ensures DisplayServer(map["WAYLAND_DISPLAY" := "wayland-0"]) == "wayland"
    ensures DisplayServer(map["DISPLAY" := ":0"]) == "x11"
    ensures DisplayServer(map[]) == "unknown"
    ensures DisplayServer(map["XDG_SESSION_TYPE" := "x11", "WAYLAND_DISPLAY" := "wayland-0"]) == "x11"
  {
  }

  /** `is_wayland` implies Wayland detection, but not conversely: a session
      type written in capitals is Wayland to `get_display_server` only. */
  lemma IsWaylandStricter()
    ensures forall env :: IsWayland(env) ==> DisplayServer(env) == "wayland"
    ensures var env := map["XDG_SESSION_TYPE" := "Wayland"];
            DisplayServer(env) == "wayland" && !IsWayland(env)
  {
    forall env | IsWayland(env) ensures DisplayServer(env) == "wayland" {
      assert Lower("wayland") == "wayland";
    }
    var env := map["XDG_SESSION_TYPE" := "Wayland"];
    assert Lower("Wayland") == "wayland";
  }

  // ---------------------------------------------------------------------
  // The mutable objects: Settings and ConfigManager
  // ---------------------------------------------------------------------

  /** The `Settings` dataclass instance, whose fields `validate` and `update`
      reassign in place. */
  class Settings {
    var microphone: Option<string>
    var vadEnabled: bool
    var vadSilenceTimeout: real
    var vadThreshold: int
    var modelSize: string
    var device: string
    var language: Option<string>
    var hotkeyToggle: string
    var hotkeyCancel: string
    var maxRecordingSec: Option<real>
    var overlayTheme: string
    var overlayOpacity: real
    var autoPaste: Value

    function Value(): SettingsValue
      reads this
    {
      SettingsValue(microphone, vadEnabled, vadSilenceTimeout, vadThreshold, modelSize, device,
                    language, hotkeyToggle, hotkeyCancel, maxRecordingSec, overlayTheme,
                    overlayOpacity, autoPaste)
    }

    /** `Settings(**fields)`. */
    constructor (v: SettingsValue)
      ensures Value() == v
    {
      microphone, vadEnabled, vadSilenceTimeout, vadThreshold := v.microphone, v.vadEnabled, v.vadSilenceTimeout, v.vadThreshold;
      modelSize, device, language := v.modelSize, v.device, v.language;
      hotkeyToggle, hotkeyCancel, maxRecordingSec := v.hotkeyToggle, v.hotkeyCancel, v.maxRecordingSec;
      overlayTheme, overlayOpacity, autoPaste := v.overlayTheme, v.overlayOpacity, v.autoPaste;
    }

    /** `validate`, field by field. */
    method Validate()
      modifies this
      ensures Value() == Validated(old(Value()))
    {
      var timeout := ClampReal(0.5, 3.0, vadSilenceTimeout);
      var threshold := ClampInt(0, 3, vadThreshold);
      var model := OrDefault(modelSize, AvailableModels, "medium");
      var dev := OrDefault(device, ComputeDevices, "auto");
      var maxSec := AtLeastIfSet(5.0, maxRecordingSec);
      var theme := OrDefault(overlayTheme, OverlayThemes, "auto");
      var opacity := ClampReal(0.1, 1.0, overlayOpacity);
      var paste := VBool(Truthy(autoPaste));
      vadSilenceTimeout, vadThreshold, modelSize, device, maxRecordingSec, overlayTheme, overlayOpacity, autoPaste
        := timeout, threshold, model, dev, maxSec, theme, opacity, paste;
    }

    /** `setattr(self, name, v)` for a field. */
    method SetField(f: Field, v: Value)
      requires FitsField(f, v)
      modifies this
      ensures Value() == Assign(old(Value()), f, v)
    {
      match f
      case Microphone => microphone := TextOrNone(v);
      case VadEnabled => vadEnabled := v.b;
      case VadSilenceTimeout => vadSilenceTimeout := AsReal(v);
      case VadThreshold => vadThreshold := v.i;
      case ModelSize => modelSize := v.s;
      case Device => device := v.s;
      case Language => language := TextOrNone(v);
      case HotkeyToggle => hotkeyToggle := v.s;
      case HotkeyCancel => hotkeyCancel := v.s;
      case MaxRecordingSec => maxRecordingSec := if v.VNone? then None else Some(AsReal(v));
      case OverlayTheme => overlayTheme := v.s;
      case OverlayOpacity => overlayOpacity := AsReal(v);
      case AutoPaste => autoPaste := v;
    }
  }

  /** `ConfigManager`: the lazily loaded settings object and the config file. */
  class ConfigManager {
    /** `_settings` */
    var cached: Settings?
    /** The contents of config.json. */
    var file: ConfigFile

    ghost predicate Valid()
      reads this
    {
      Loadable(file)
    }

    /** The settings `self.settings` would return now. */
    ghost function Current(): SettingsValue
      reads this, cached
      requires Valid()
    {
      if cached == null then Load(file).value else cached.Value()
    }

    constructor (file: ConfigFile)
      requires Loadable(file)
      ensures Valid() && cached == null && this.file == file
    {
      cached := null;
      this.file := file;
    }

    /** `load`: a fresh settings object built from the file, or the
        exception it raises. */
    method LoadSettings() returns (r: Result<Settings, LoadError>)
      requires Readable(file)
      ensures r.Err? <==> Load(file).Err?
      ensures r.Err? ==> r.error == Load(file).error
      ensures r.Ok? ==> fresh(r.value) && r.value.Value() == Load(file).value
    {
      match file
      case Object(entries) =>
        ApplyAllKnownOnly(Defaults, entries);
        var s := new Settings(ApplyAll(Defaults, KnownEntries(entries)));
        s.Validate();
        r := Ok(s);
      case NotAnObject =>
        r := Err(AttributeError);
      case _ =>
        var s := new Settings(Defaults);
        r := Ok(s);
    }

    /** The `settings` property: load on first use, then keep the same object. */
    method GetSettings() returns (s: Settings)
      requires Valid()
      modifies this
      ensures Valid() && file == old(file) && cached == s
      ensures old(cached) != null ==> s == old(cached)
      ensures old(cached) == null ==> fresh(s) && s.Value() == Load(file).value
    {
      if cached == null {
        var loaded := LoadSettings();
        cached := loaded.value;
      }
      s := cached;
    }

    /** `save`: adopt the given settings object if any, then, if there is a
        settings object, validate it in place and write it to the file. */
    method Save(settings: Settings?)
      requires Valid()
      modifies this, settings, cached
      ensures Valid()
      ensures settings != null ==>
                && cached == settings
                && settings.Value() == Validated(old(settings.Value()))
                && file == Object(Serialize(settings.Value()))
      ensures settings != null && old(cached) != null && old(cached) != settings ==> unchanged(old(cached))
      ensures settings == null && old(cached) != null ==>
                && cached == old(cached)
                && cached.Value() == Validated(old(cached.Value()))
                && file == Object(Serialize(cached.Value()))
      ensures settings == null && old(cached) == null ==> cached == null && file == old(file)
    {
      if settings != null {
        cached := settings;
      }
      if cached != null {
        cached.Validate();
        file := Object(Serialize(cached.Value()));
      }
    }

    /** One step of `update`'s loop: `if hasattr(self.settings, key):
        setattr(self.settings, key, value)`. */
    method AssignByName(key: string, value: Value)
      requires Valid() && Fits(key, value)
      modifies this, cached
      ensures Valid() && file == old(file) && cached != null
      ensures old(cached) != null ==> cached == old(cached)
      ensures old(cached) == null ==> fresh(cached)
      ensures cached.Value() == AssignNamed(old(Current()), key, value)
    {
      var s := GetSettings();
      match FieldNamed(key) {
        case Some(f) => s.SetField(f, value);
        case None =>
      }
    }

    /** The loop of `update`: each keyword in turn, through `AssignByName`. */
    method AssignAll(kwargs: seq<(string, Value)>)
      requires Valid() && AllFit(kwargs)
      modifies this, cached
      ensures Valid() && file == old(file)
      ensures kwargs == [] ==> cached == old(cached)
      ensures kwargs != [] ==> cached != null
      ensures old(cached) != null ==> cached == old(cached)
      ensures old(cached) == null && cached != null ==> fresh(cached)
      ensures Current() == ApplyAll(old(Current()), kwargs)
    {
      ghost var base := Current();
      var i := 0;
      while i < |kwargs|
        invariant 0 <= i <= |kwargs|
        invariant Valid() && file == old(file)
        invariant i == 0 ==> cached == old(cached)
        invariant i > 0 ==> cached != null
        invariant old(cached) != null ==> cached == old(cached)
        invariant old(cached) == null && cached != null ==> fresh(cached)
        invariant Current() == ApplyAll(base, kwargs[..i])
      {
        ApplyAllStep(base, kwargs, i);
        ghost var before := Current();
        var (key, value) := kwargs[i];
        AssignByName(key, value);
        assert Current() == AssignNamed(before, key, value);
        i := i + 1;
      }
      assert kwargs[..|kwargs|] == kwargs;
    }

    /** `update(**kwargs)`: assign each keyword that names a field, then save.
        With no keywords and nothing loaded yet, nothing happens. */
    method Update(kwargs: seq<(string, Value)>)
      requires Valid() && AllFit(kwargs)
      modifies this, cached
      ensures Valid()
      ensures kwargs == [] && old(cached) == null ==> cached == null && file == old(file)
      ensures kwargs != [] || old(cached) != null ==>
                && cached != null
                && (old(cached) != null ==> cached == old(cached))
                && cached.Value() == Validated(ApplyAll(old(Current()), kwargs))
                && file == Object(Serialize(cached.Value()))
    {
      AssignAll(kwargs);
      Save(null);
    }
  }
}
