/** Opening the input stream, preferred device first and the system default
    as fallback (src/audio/stream.py). The stream library is an oracle:
    `opens(dev)` says whether a stream on `dev` (`None` for the system
    default) can be both constructed and started. */
module Stream {
  import opened Wrappers

  /** An input stream that is running, and the device it was opened on. */
  datatype Opened = Opened(device: Option<int>)

  /** Lines 21-23: the explicit device and then the default, or the default
      alone. */
  function DevicesToTry(device: Option<int>): (r: seq<Option<int>>)
    ensures |r| == if device.Some? then 2 else 1
    ensures r[0] == device && r[|r| - 1] == None
  {
    if device.Some? then [device, None] else [None]
  }

  /** The first device of `devs` on which a stream opens, if any. */
  function FirstOpening(devs: seq<Option<int>>, opens: Option<int> -> bool): (r: Option<Option<int>>)
    ensures r.Some? ==> exists k :: 0 <= k < |devs| && devs[k] == r.value && opens(devs[k])
                                    && forall j :: 0 <= j < k ==> !opens(devs[j])
    ensures r.None? <==> forall k :: 0 <= k < |devs| ==> !opens(devs[k])
  {
    if devs == [] then None
    else if opens(devs[0]) then Some(devs[0])
    else
      var r := FirstOpening(devs[1..], opens);
      assert forall k :: 1 <= k < |devs| ==> devs[k] == devs[1..][k - 1];
      r
  }

  /** The devices tried before the loop stops: all of them up to and
      including the first that opens. */
  function Attempted(devs: seq<Option<int>>, opens: Option<int> -> bool): (r: seq<Option<int>>)
    ensures r <= devs
    ensures r != [] && r != devs ==> opens(r[|r| - 1])
    ensures forall k :: 0 <= k < |r| - 1 ==> !opens(r[k])
  {
    if devs == [] then []
    else if opens(devs[0]) then [devs[0]]
    else [devs[0]] + Attempted(devs[1..], opens)
  }

  /** `open_stream_with_fallback`: build the list of devices, then try each in
      turn and stop at the first stream that starts. Also returns the devices
      tried, in order. */
  method OpenStreamWithFallback(device: Option<int>, opens: Option<int> -> bool)
      returns (result: Option<Opened>, tried: seq<Option<int>>)
    ensures tried == Attempted(DevicesToTry(device), opens)
    ensures result == if FirstOpening(DevicesToTry(device), opens).Some?
                      then Some(Opened(FirstOpening(DevicesToTry(device), opens).value))
                      else None
  {
    var devicesToTry := [device];
    if device.Some? {
      devicesToTry := devicesToTry + [None];
    }
    assert devicesToTry == DevicesToTry(device);
    tried := [];
    var i := 0;
    while i < |devicesToTry|
      invariant 0 <= i <= |devicesToTry|
      invariant tried == devicesToTry[..i]
      invariant forall k :: 0 <= k < i ==> !opens(devicesToTry[k])
    {
      var dev := devicesToTry[i];
      tried := tried + [dev];
      if opens(dev) {
        AttemptedUpTo(devicesToTry, i, opens);
        FirstOpeningAt(devicesToTry, i, opens);
        return Some(Opened(dev)), tried;
      }
      i := i + 1;
    }
    AttemptedUpTo(devicesToTry, |devicesToTry|, opens);
    return None, tried;
  }

  /** When the first `i` devices fail, the attempts are those `i` devices
      followed by the attempts on the rest. */
  lemma {:induction false} AttemptedUpTo(devs: seq<Option<int>>, i: nat, opens: Option<int> -> bool)
    requires i <= |devs|
    requires forall k :: 0 <= k < i ==> !opens(devs[k])
    ensures i == |devs| ==> Attempted(devs, opens) == devs
    ensures i < |devs| && opens(devs[i]) ==> Attempted(devs, opens) == devs[..i + 1]
    decreases i
  {
    if i > 0 {
      assert !opens(devs[0]);
      AttemptedUpTo(devs[1..], i - 1, opens);
      if i < |devs| {
        assert devs[..i + 1] == [devs[0]] + devs[1..][..i];
      } else {
        assert devs == [devs[0]] + devs[1..];
      }
    } else if |devs| > 0 && opens(devs[0]) {
      assert devs[..1] == [devs[0]];
    }
  }

  /** When the first `i` devices fail and device `i` opens, it is the first
      opening device. */
  lemma FirstOpeningAt(devs: seq<Option<int>>, i: nat, opens: Option<int> -> bool)
    requires i < |devs| && opens(devs[i])
    requires forall k :: 0 <= k < i ==> !opens(devs[k])
    ensures FirstOpening(devs, opens) == Some(devs[i])
  {
    var r := FirstOpening(devs, opens);
    if r.Some? {
      var k :| 0 <= k < |devs| && devs[k] == r.value && opens(devs[k])
               && forall j :: 0 <= j < k ==> !opens(devs[j]);
      assert k == i;
    }
  }

  /** The order of attempts: at most two devices are tried, the explicit one
      first; the default is tried only when the explicit device fails, and
      without an explicit device only the default is tried. */
  lemma TryOrder(device: Option<int>, opens: Option<int> -> bool)
    ensures var tried := Attempted(DevicesToTry(device), opens);
      && 1 <= |tried| <= 2
      && tried[0] == device
      && (device.None? ==> tried == [None])
      && (device.Some? && opens(device) ==> tried == [device])
      && (device.Some? && !opens(device) ==> tried == [device, None])
  {
    var devs := DevicesToTry(device);
    if device.Some? && !opens(device) {
      assert Attempted(devs[1..], opens) == [None];
    }
  }

  /** The outcome: the explicit device when it opens, else the default when
      that opens, else nothing. */
  lemma OpenOutcome(device: Option<int>, opens: Option<int> -> bool)
    ensures FirstOpening(DevicesToTry(device), opens)
            == if opens(device) then Some(device) else if opens(None) then Some(None) else None
  {
    var devs := DevicesToTry(device);
    if device.Some? && !opens(device) {
      assert devs[1..] == [None];
    }
  }
}
