/** The per-channel sender script (`send_rgb_old.py`, also shipped unchanged
    under `touchdesigner/scripts/`): a channel `<type>_<id>` changing to `val`
    is rate limited per device-id string, then sent to the bridge on port 8000
    as a device select followed by the device's colour (and, for red, a
    vibration intensity), or by a vibration frequency. */
module OldSender {
  import opened Common
  import opened Osc
  import opened ChannelNames
  import RateGate

  const MinUpdateInterval: real := 0.033

  predicate IsRgbType(channelType: string)
  {
    channelType == "red" || channelType == "green" || channelType == "blue"
  }

  /** `channel_type, device_id = name.split('_')`: `None` where Python raises
      `ValueError` because the name does not have exactly two parts. */
  function SplitChannel(name: string): (r: Option<(string, string)>)
    ensures r.Some? <==> Occurrences(name, '_') == 1
    ensures r.Some? ==> name == r.value.0 + "_" + r.value.1
    ensures r.Some? ==> '_' !in r.value.0 && '_' !in r.value.1
  {
    var parts := Split(name, '_');
    JoinSplit(name, '_');
    if |parts| == 2 then
      assert Join(parts[1..], '_') == parts[1];
      Some((parts[0], parts[1]))
    else None
  }

  /** `float(device_id)`, for the digit strings that channel names carry;
      `None` where the conversion raises. */
  function DeviceNumber(deviceId: string): (r: Option<real>)
    ensures r.Some? <==> IsDigits(deviceId)
    ensures r.Some? ==> r.value == DigitsValue(deviceId) as real && r.value >= 0.0
  {
    if IsDigits(deviceId) then Some(DigitsValue(deviceId) as real) else None
  }

  function SelectSend(device: real): Send
  {
    Send(BridgePort, SelectAddress, [FloatArg(device)])
  }

  /** The type dispatch of `onValueChange`, once the gate has accepted the
      change: at most three sends to the bridge, and whenever anything is sent
      the group opens with the one `device/select` it contains. Only a device
      id that `float` rejects raises. */
  function Dispatch(channelType: string, deviceId: string, val: real, channels: map<string, real>): (r: Reply)
    ensures r.Raised? ==> !IsDigits(deviceId)
    ensures |SendsOf(r)| <= 3
    ensures forall k :: 0 <= k < |SendsOf(r)| ==> SendsOf(r)[k].port == BridgePort
    ensures SendsOf(r) != [] ==> SelectFramed(SendsOf(r))
  {
    if IsRgbType(channelType) then
      var red, green, blue := "red_" + deviceId, "green_" + deviceId, "blue_" + deviceId;
      if red !in channels || green !in channels || blue !in channels then Sent([])
      else
        match DeviceNumber(deviceId)
        case None => Raised
        case Some(device) =>
          Sent([SelectSend(device),
                Send(BridgePort, RgbAddress, [FloatArg(channels[red]), FloatArg(channels[green]), FloatArg(channels[blue])])]
               + (if channelType == "red" then [Send(BridgePort, IntensityAddress, [FloatArg(val / 255.0)])] else []))
    else if channelType == "frequency" then
      match DeviceNumber(deviceId)
      case None => Raised
      case Some(device) => Sent([SelectSend(device), Send(BridgePort, FrequencyAddress, [FloatArg(val)])])
    else Sent([])
  }

  /** The colour path: select, then the device's current red, green and blue,
      then for `red` only the intensity `val / 255`. */
  lemma DispatchColor(channelType: string, deviceId: string, val: real, channels: map<string, real>)
    requires IsRgbType(channelType) && IsDigits(deviceId)
    requires "red_" + deviceId in channels && "green_" + deviceId in channels && "blue_" + deviceId in channels
    ensures var sends := SendsOf(Dispatch(channelType, deviceId, val, channels));
      && |sends| == (if channelType == "red" then 3 else 2)
      && sends[0] == Send(BridgePort, SelectAddress, [FloatArg(DigitsValue(deviceId) as real)])
      && sends[1] == Send(BridgePort, RgbAddress, [FloatArg(channels["red_" + deviceId]),
                                                   FloatArg(channels["green_" + deviceId]),
                                                   FloatArg(channels["blue_" + deviceId])])
      && (channelType == "red" ==> sends[2] == Send(BridgePort, IntensityAddress, [FloatArg(val / 255.0)]))
  {
  }

  /** The frequency path: select, then the unscaled value. */
  lemma DispatchFrequency(deviceId: string, val: real, channels: map<string, real>)
    requires IsDigits(deviceId)
    ensures SendsOf(Dispatch("frequency", deviceId, val, channels))
      == [Send(BridgePort, SelectAddress, [FloatArg(DigitsValue(deviceId) as real)]),
          Send(BridgePort, FrequencyAddress, [FloatArg(val)])]
  {
  }

  /** Nothing but red, green, blue and frequency sends anything; a colour change
      whose three channels are not all present sends nothing either. */
  lemma DispatchSilent(channelType: string, deviceId: string, val: real, channels: map<string, real>)
    ensures !IsRgbType(channelType) && channelType != "frequency"
            ==> Dispatch(channelType, deviceId, val, channels) == Sent([])
    ensures IsRgbType(channelType)
            && ("red_" + deviceId !in channels || "green_" + deviceId !in channels || "blue_" + deviceId !in channels)
            ==> Dispatch(channelType, deviceId, val, channels) == Sent([])
  {
  }

  /** Every send a change makes is applied to the device named in the channel,
      whatever was sent before it. */
  lemma DispatchAddressesChannelDevice(log: seq<Send>, channelType: string, deviceId: string, val: real,
                                       channels: map<string, real>, k: nat)
    requires Dispatch(channelType, deviceId, val, channels).Sent?
    requires 1 <= k <= |SendsOf(Dispatch(channelType, deviceId, val, channels))|
    ensures IsDigits(deviceId)
    ensures SelectedDevice(log + SendsOf(Dispatch(channelType, deviceId, val, channels))[..k])
            == Some([FloatArg(DigitsValue(deviceId) as real)])
  {
    var sends := SendsOf(Dispatch(channelType, deviceId, val, channels));
    FramedSendsAddressSelected(log, sends, k);
  }

  /** The script's state: the gate map and the sends made so far. */
  class Sender {
    var lastUpdate: map<string, real>
    var sent: seq<Send>

    constructor ()
      ensures lastUpdate == map[] && sent == []
    {
      lastUpdate := map[];
      sent := [];
    }

    method ShouldUpdate(deviceId: string, now: real) returns (ok: bool)
      modifies this`lastUpdate
      ensures ok == RateGate.Admits(old(lastUpdate), deviceId, now, MinUpdateInterval)
      ensures lastUpdate == RateGate.After(old(lastUpdate), deviceId, now, MinUpdateInterval)
    {
      var lastTime := GetOrZero(lastUpdate, deviceId);
      if now - lastTime >= MinUpdateInterval {
        lastUpdate := lastUpdate[deviceId := now];
        return true;
      }
      return false;
    }

    /** `onValueChange`: `hasOscout` and `out1` say whether the operators
        `oscout2` and `out1` exist; `out1` maps channel names to values. */
    method OnValueChange(hasOscout: bool, out1: Option<map<string, real>>, name: string, val: real, now: real)
      returns (raised: bool)
      modifies this
      ensures !hasOscout || out1.None? || SplitChannel(name).None?
              ==> lastUpdate == old(lastUpdate) && sent == old(sent) && !raised
      ensures hasOscout && out1.Some? && SplitChannel(name).Some? ==>
                var channelType, deviceId := SplitChannel(name).value.0, SplitChannel(name).value.1;
                var accepted := RateGate.Admits(old(lastUpdate), deviceId, now, MinUpdateInterval);
                var reply := if accepted then Dispatch(channelType, deviceId, val, out1.value) else Sent([]);
                && lastUpdate == RateGate.After(old(lastUpdate), deviceId, now, MinUpdateInterval)
                && sent == old(sent) + SendsOf(reply)
                && raised == reply.Raised?
    {
      raised := false;
      if !hasOscout || out1.None? {
        return;
      }
      var split := SplitChannel(name);
      if split.None? {
        return;
      }
      var channelType, deviceId := split.value.0, split.value.1;
      var ok := ShouldUpdate(deviceId, now);
      if !ok {
        return;
      }
      var reply := Dispatch(channelType, deviceId, val, out1.value);
      sent := sent + SendsOf(reply);
      raised := reply.Raised?;
    }
  }
}
