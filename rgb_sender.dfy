/** The single-device sender script (`send_rgb.py`): channels named `red`,
    `green`, `blue`, `intensity`, `frequency` and `device` are routed through a
    fixed table to an OSC address; a colour change sends the whole colour,
    scaled from 0..1 to 0..255, and the other three send the value itself. */
module RgbSender {
  import opened Common
  import opened Osc

  /** The value mappers of the routing table: a colour slot or the value itself. */
  datatype Mapper = RedSlot | GreenSlot | BlueSlot | Passthrough

  datatype Route = Route(address: string, mapper: Mapper)

  /** `osc_map`. */
  function OscMap(name: string): (r: Option<Route>)
    ensures r.Some? <==> name in {"red", "green", "blue", "intensity", "frequency", "device"}
    ensures r.Some? ==> (r.value.address == RgbAddress <==> name in {"red", "green", "blue"})
  {
    if name == "red" then Some(Route(RgbAddress, RedSlot))
    else if name == "green" then Some(Route(RgbAddress, GreenSlot))
    else if name == "blue" then Some(Route(RgbAddress, BlueSlot))
    else if name == "intensity" then Some(Route(IntensityAddress, Passthrough))
    else if name == "frequency" then Some(Route(FrequencyAddress, Passthrough))
    else if name == "device" then Some(Route(SelectAddress, Passthrough))
    else None
  }

  /** `int(v * 255)`. */
  function Scaled(v: real): int
  {
    Trunc(v * 255.0)
  }

  /** The lambdas of `osc_map`; `None` stands for Python's `None` placeholder. */
  function MapValue(m: Mapper, v: real): seq<Option<Arg>>
  {
    match m
    case RedSlot => [Some(IntArg(Scaled(v))), None, None]
    case GreenSlot => [None, Some(IntArg(Scaled(v))), None]
    case BlueSlot => [None, None, Some(IntArg(Scaled(v)))]
    case Passthrough => [Some(FloatArg(v))]
  }

  /** `[v if v is not None else 0 for v in values]`: each placeholder becomes
      the integer 0 and every other value stays in its place. */
  function FillNone(values: seq<Option<Arg>>): (r: seq<Arg>)
    ensures |r| == |values|
    ensures forall i :: 0 <= i < |values| && values[i].Some? ==> r[i] == values[i].value
    ensures forall i :: 0 <= i < |values| && values[i].None? ==> r[i] == IntArg(0)
  {
    seq(|values|, i requires 0 <= i < |values| => if values[i].Some? then values[i].value else IntArg(0))
  }

  /** The colour channel a slot of the `led/rgb` triple holds. */
  function SlotName(k: nat): string
  {
    if k == 0 then "red" else if k == 1 then "green" else "blue"
  }

  /** The `rgb_values` list of `onValueChange`: the current out1 colour scaled
      to 0..255, with the changed channel's slot overwritten by the new value. */
  function RgbValues(channels: map<string, real>, name: string, val: real): (rgb: seq<int>)
    requires "red" in channels && "green" in channels && "blue" in channels
    ensures |rgb| == 3
    ensures forall k :: 0 <= k < 3 && name == SlotName(k) ==> rgb[k] == Scaled(val)
    ensures forall k :: 0 <= k < 3 && name != SlotName(k) ==> rgb[k] == Scaled(channels[SlotName(k)])
  {
    var current := [Scaled(channels["red"]), Scaled(channels["green"]), Scaled(channels["blue"])];
    if name == "red" then current[0 := Scaled(val)]
    else if name == "green" then current[1 := Scaled(val)]
    else if name == "blue" then current[2 := Scaled(val)]
    else current
  }

  /** `onValueChange`: `hasOscout` says whether `oscout2` exists and `out1`
      gives the channel values when that operator exists. A colour change
      reads `out1['red']`, `out1['green']` and `out1['blue']` outside any
      `try`, so a missing one raises. Whatever happens, at most one send is
      made, to the bridge port and to the address the name is mapped to. */
  function OnValueChange(hasOscout: bool, out1: Option<map<string, real>>, name: string, val: real): (r: Reply)
    ensures |SendsOf(r)| <= 1
    ensures forall k :: 0 <= k < |SendsOf(r)| ==>
              && OscMap(name).Some?
              && SendsOf(r)[k].port == BridgePort
              && SendsOf(r)[k].address == OscMap(name).value.address
  {
    if !hasOscout then Sent([])
    else
      match OscMap(name)
      case None => Sent([])
      case Some(route) =>
        if route.address == RgbAddress then
          match out1
          case None => Sent([])
          case Some(channels) =>
            if "red" !in channels || "green" !in channels || "blue" !in channels then Raised
            else
              var rgb := RgbValues(channels, name, val);
              Sent([Send(BridgePort, RgbAddress, [IntArg(rgb[0]), IntArg(rgb[1]), IntArg(rgb[2])])])
        else Sent([Send(BridgePort, route.address, FillNone(MapValue(route.mapper, val)))])
  }

  /** A change sends at most once, and only on one of the six mapped names,
      with `oscout2` present and, for a colour, `out1` present. */
  lemma AtMostOneSend(hasOscout: bool, out1: Option<map<string, real>>, name: string, val: real)
    ensures |SendsOf(OnValueChange(hasOscout, out1, name, val))| <= 1
    ensures |SendsOf(OnValueChange(hasOscout, out1, name, val))| == 1
            <==> && hasOscout && OscMap(name).Some?
                 && (OscMap(name).value.address == RgbAddress ==>
                       out1.Some? && "red" in out1.value && "green" in out1.value && "blue" in out1.value)
  {
  }

  /** The call raises exactly when a colour change finds `out1` without one of
      its `red`, `green` or `blue` channels. */
  lemma RaisesIff(hasOscout: bool, out1: Option<map<string, real>>, name: string, val: real)
    ensures OnValueChange(hasOscout, out1, name, val).Raised?
            <==> && hasOscout && name in {"red", "green", "blue"} && out1.Some?
                 && !("red" in out1.value && "green" in out1.value && "blue" in out1.value)
  {
  }

  /** A colour change sends the three slots to `led/rgb`: the changed channel's
      slot is `int(val * 255)`, the other two are out1's values scaled. */
  lemma ColorSend(out1: map<string, real>, name: string, val: real)
    requires name in {"red", "green", "blue"}
    requires "red" in out1 && "green" in out1 && "blue" in out1
    ensures var sends := SendsOf(OnValueChange(true, Some(out1), name, val));
      && |sends| == 1 && sends[0].port == BridgePort && sends[0].address == RgbAddress
      && sends[0].args == [IntArg(if name == "red" then Scaled(val) else Scaled(out1["red"])),
                           IntArg(if name == "green" then Scaled(val) else Scaled(out1["green"])),
                           IntArg(if name == "blue" then Scaled(val) else Scaled(out1["blue"]))]
  {
  }

  /** When out1 already holds the new value, the colour sent is out1's colour
      whichever channel changed: the overwrite only matters when out1 lags. */
  lemma ColorAgreesWithOut1(out1: map<string, real>, name: string)
    requires name in {"red", "green", "blue"}
    requires "red" in out1 && "green" in out1 && "blue" in out1
    ensures RgbValues(out1, name, out1[name]) == [Scaled(out1["red"]), Scaled(out1["green"]), Scaled(out1["blue"])]
  {
  }

  /** Channel values in 0..1 give colour values in 0..255. */
  lemma ColorInByteRange(out1: map<string, real>, name: string, val: real)
    requires "red" in out1 && "green" in out1 && "blue" in out1
    requires 0.0 <= val <= 1.0
    requires 0.0 <= out1["red"] <= 1.0 && 0.0 <= out1["green"] <= 1.0 && 0.0 <= out1["blue"] <= 1.0
    ensures forall i :: 0 <= i < 3 ==> 0 <= RgbValues(out1, name, val)[i] <= 255
  {
  }

  /** `intensity`, `frequency` and `device` send the one-element list `[val]`:
      the placeholder replacement never fires on them. */
  lemma SingleValueSend(name: string, out1: Option<map<string, real>>, val: real)
    requires name in {"intensity", "frequency", "device"}
    ensures OnValueChange(true, out1, name, val) == Sent([Send(BridgePort, OscMap(name).value.address, [FloatArg(val)])])
  {
    assert FillNone([Some(FloatArg(val))]) == [FloatArg(val)];
  }
}
