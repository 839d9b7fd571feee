/** What the TouchDesigner senders emit: OSC sends recorded in order, each to
    a port, an address and a list of arguments, and the addressing convention
    they rely on: a `device/select` send names the device that the following
    rgb, intensity and frequency sends apply to. */
module Osc {
  import opened Common

  const SelectAddress := "/datafeel/device/select"
  const RgbAddress := "/datafeel/led/rgb"
  const IntensityAddress := "/datafeel/vibration/intensity"
  const FrequencyAddress := "/datafeel/vibration/frequency"
  const BatchAddress := "/datafeel/batch_update"

  /** The port the bridge listens on for OSC. */
  const BridgePort := 8000

  /** The `rgb` list of a device state: three 8-bit channel values. */
  datatype Color = Color(red: int, green: int, blue: int)

  /** One device's entry of a batch update: `{'rgb', 'vibration', 'frequency'}`. */
  datatype DeviceState = DeviceState(rgb: Color, vibration: real, frequency: real)

  /** An OSC argument. `BatchJson` stands for the JSON string
      `{"timestamp": ..., "devices": ...}` that a batch update carries. */
  datatype Arg =
    | IntArg(i: int)
    | FloatArg(r: real)
    | BatchJson(timestamp: real, devices: map<string, DeviceState>)

  /** One `sendOSC(address, args)` through an OSC out operator set to `port`. */
  datatype Send = Send(port: int, address: string, args: seq<Arg>)

  /** What a callback did: the sends it made, or an uncaught exception raised
      before its first send. */
  datatype Reply = Sent(sends: seq<Send>) | Raised

  function SendsOf(reply: Reply): seq<Send>
  {
    match reply
    case Sent(sends) => sends
    case Raised => []
  }

  /** The arguments of the last `device/select` in `log`: the device a receiver
      applies the next rgb, intensity or frequency send to. */
  function SelectedDevice(log: seq<Send>): Option<seq<Arg>>
  {
    if log == [] then None
    else if log[|log| - 1].address == SelectAddress then Some(log[|log| - 1].args)
    else SelectedDevice(log[..|log| - 1])
  }

  /** A group of sends that opens with a `device/select` and has no other. */
  predicate SelectFramed(sends: seq<Send>)
  {
    |sends| > 0 && sends[0].address == SelectAddress
    && forall i :: 1 <= i < |sends| ==> sends[i].address != SelectAddress
  }

  /** Whatever was sent before, every send of a select-framed group is applied
      to the device its opening select names. */
  lemma {:induction false} FramedSendsAddressSelected(log: seq<Send>, sends: seq<Send>, k: nat)
    requires SelectFramed(sends)
    requires 1 <= k <= |sends|
    ensures SelectedDevice(log + sends[..k]) == Some(sends[0].args)
  {
    var prefix := log + sends[..k];
    if k == 1 {
      assert prefix[|prefix| - 1] == sends[0];
    } else {
      FramedSendsAddressSelected(log, sends, k - 1);
      assert prefix[|prefix| - 1] == sends[k - 1];
      assert prefix[..|prefix| - 1] == log + sends[..k - 1];
    }
  }
}
