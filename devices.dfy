/** Input-device listing (src/audio/devices.py). The device query of the
    audio library is an oracle: `None` when it raised, otherwise the
    enumerated devices in order. */
module Devices {
  import opened Wrappers

  const SampleRate: nat := 16000

  /** One enumerated device: its name, its number of input channels and its
      default sample rate, when the library reports one. */
  datatype DeviceInfo = DeviceInfo(name: string, maxInputChannels: int, defaultSampleRate: Option<real>)

  /** One entry of `list_devices`: `index` is the position in the full
      enumeration. */
  datatype InputDevice = InputDevice(index: nat, name: string, channels: int, default: real)

  /** `dev.get("default_samplerate", SAMPLE_RATE)`. */
  function DefaultRate(dev: DeviceInfo): (r: real)
    ensures dev.defaultSampleRate.None? ==> r == SampleRate as real
    ensures dev.defaultSampleRate.Some? ==> r == dev.defaultSampleRate.value
  {
    match dev.defaultSampleRate
    case Some(rate) => rate
    case None => SampleRate as real
  }

  /** The entry for device number `i`. */
  function EntryFor(i: nat, dev: DeviceInfo): InputDevice
  {
    InputDevice(i, dev.name, dev.maxInputChannels, DefaultRate(dev))
  }

  /** The entries for the devices with at least one input channel, in
      enumeration order. */
  function InputsOf(devs: seq<DeviceInfo>): seq<InputDevice>
  {
    if devs == [] then []
    else
      var n := |devs| - 1;
      InputsOf(devs[..n]) + (if devs[n].maxInputChannels > 0 then [EntryFor(n, devs[n])] else [])
  }

  /** `e` describes the input device at its position in `devs`. */
  predicate Describes(devs: seq<DeviceInfo>, e: InputDevice)
  {
    e.index < |devs| && e == EntryFor(e.index, devs[e.index]) && devs[e.index].maxInputChannels > 0
  }

  /** Every listed entry is an input device, described by its position in the
      enumeration, its name, its channel count and its rate. */
  lemma {:induction false} InputsOfSound(devs: seq<DeviceInfo>)
    ensures forall k :: 0 <= k < |InputsOf(devs)| ==> Describes(devs, InputsOf(devs)[k])
  {
    if devs != [] {
      var n := |devs| - 1;
      InputsOfSound(devs[..n]);
      var prev := InputsOf(devs[..n]);
      var r := InputsOf(devs);
      assert r == prev + (if devs[n].maxInputChannels > 0 then [EntryFor(n, devs[n])] else []);
      forall k | 0 <= k < |r|
        ensures Describes(devs, r[k])
      {
        if k < |prev| {
          assert r[k] == prev[k];
          assert Describes(devs[..n], prev[k]);
          assert devs[..n][prev[k].index] == devs[prev[k].index];
        } else {
          assert r[k] == EntryFor(n, devs[n]);
        }
      }
    }
  }

  /** The entries keep the enumeration order: indices strictly increase. */
  lemma {:induction false} InputsOfOrdered(devs: seq<DeviceInfo>)
    ensures forall k, l :: 0 <= k < l < |InputsOf(devs)| ==> InputsOf(devs)[k].index < InputsOf(devs)[l].index
  {
    if devs != [] {
      var n := |devs| - 1;
      InputsOfOrdered(devs[..n]);
      InputsOfSound(devs[..n]);
      var prev := InputsOf(devs[..n]);
      var r := InputsOf(devs);
      assert r == prev + (if devs[n].maxInputChannels > 0 then [EntryFor(n, devs[n])] else []);
      forall k, l | 0 <= k < l < |r|
        ensures r[k].index < r[l].index
      {
        assert r[k] == prev[k];
        assert Describes(devs[..n], prev[k]);
        if l < |prev| {
          assert r[l] == prev[l];
        } else {
          assert r[l].index == n;
        }
      }
    }
  }

  /** No input device is missed: each device with input channels has an
      entry. */
  lemma {:induction false} InputsOfComplete(devs: seq<DeviceInfo>, i: nat)
    requires i < |devs| && devs[i].maxInputChannels > 0
    ensures exists k :: 0 <= k < |InputsOf(devs)| && InputsOf(devs)[k].index == i
  {
    var n := |devs| - 1;
    var prev := InputsOf(devs[..n]);
    var r := InputsOf(devs);
    if i == n {
      assert r[|prev|].index == i;
    } else {
      assert devs[..n][i] == devs[i];
      InputsOfComplete(devs[..n], i);
      var k :| 0 <= k < |prev| && prev[k].index == i;
      assert r[k] == prev[k];
    }
  }

  /** `list_devices`: one pass over the enumeration, keeping the devices with
      input channels; any failure of the query gives the empty list. */
  method ListDevices(query: Option<seq<DeviceInfo>>) returns (inputs: seq<InputDevice>)
    ensures query.None? ==> inputs == []
    ensures query.Some? ==> inputs == InputsOf(query.value)
  {
    if query.None? {
      return [];
    }
    var devices := query.value;
    inputs := [];
    var i := 0;
    while i < |devices|
      invariant 0 <= i <= |devices|
      invariant inputs == InputsOf(devices[..i])
    {
      var dev := devices[i];
      assert devices[..i + 1][..i] == devices[..i];
      if dev.maxInputChannels > 0 {
        inputs := inputs + [InputDevice(i, dev.name, dev.maxInputChannels, DefaultRate(dev))];
      }
      i := i + 1;
    }
    assert devices[..i] == devices;
  }

  /** The number of entries is the number of devices with input channels. */
  function CountInputs(devs: seq<DeviceInfo>): nat
  {
    if devs == [] then 0
    else CountInputs(devs[..|devs| - 1]) + (if devs[|devs| - 1].maxInputChannels > 0 then 1 else 0)
  }

  /** Exactly the input devices are listed: as many entries as devices with
      input channels. */
  lemma {:induction false} InputsOfCount(devs: seq<DeviceInfo>)
    ensures |InputsOf(devs)| == CountInputs(devs)
  {
    if devs != [] {
      InputsOfCount(devs[..|devs| - 1]);
    }
  }

  /** `get_default_device`: the input half of the default device pair, or
      nothing when the query raised. */
  function GetDefaultDevice(defaults: Option<(int, int)>): (r: Option<int>)
    ensures r.None? <==> defaults.None?
    ensures defaults.Some? ==> r == Some(defaults.value.0)
  {
    match defaults
    case Some(pair) => Some(pair.0)
    case None => None
  }

  /** A listing with a capture device, a playback-only device and a device
      without a reported rate: the indices are positions in the full
      enumeration, and the rate defaults to 16000. */
  lemma ListExample()
    ensures InputsOf([DeviceInfo("mic", 2, Some(44100.0)), DeviceInfo("hdmi", 0, Some(48000.0)),
                      DeviceInfo("usb", 1, None)])
            == [InputDevice(0, "mic", 2, 44100.0), InputDevice(2, "usb", 1, 16000.0)]
  {
    var devs := [DeviceInfo("mic", 2, Some(44100.0)), DeviceInfo("hdmi", 0, Some(48000.0)),
                 DeviceInfo("usb", 1, None)];
    assert devs[..2][..1] == devs[..1];
    assert devs[..1][..0] == [];
    assert InputsOf(devs[..1]) == [InputDevice(0, "mic", 2, 44100.0)];
    assert InputsOf(devs[..2]) == [InputDevice(0, "mic", 2, 44100.0)];
  }
}
