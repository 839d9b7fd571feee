/** The batching sender script (`touchdesigner_script.py`): a change on a
    channel `<type>_<N>` with N in 1..MaxDevices passes a per-device rate gate,
    then the state of every device present in `out1` is collected, shown in a
    debug table and sent to port 9001 as one batch update. */
module TouchScript {
  import opened Common
  import opened Osc
  import opened ChannelNames
  import RateGate

  const MaxDevices := 4
  const MinUpdateInterval: real := 0.016
  const BatchPort := 9001

  /** Channel-name validation: exactly two `_`-separated parts, a digit-only
      second part, and an id in 1..MaxDevices; `None` rejects the change. */
  function ParseDeviceId(name: string): (id: Option<int>)
    ensures id.Some? ==> 1 <= id.value <= MaxDevices
    ensures Occurrences(name, '_') != 1 ==> id.None?
  {
    var parts := Split(name, '_');
    if |parts| != 2 || !IsDigits(parts[1]) then None
    else
      var n := DigitsValue(parts[1]);
      if n < 1 || n > MaxDevices then None else Some(n)
  }

  /** Every `<type>_<digits>` with a `_`-free type and digits denoting an id in
      range is accepted with that id, leading zeros included (`red_01` is
      device 1). */
  lemma ParseChannelName(channelType: string, digits: string)
    requires '_' !in channelType && IsDigits(digits)
    requires 1 <= DigitsValue(digits) <= MaxDevices
    ensures ParseDeviceId(channelType + "_" + digits) == Some(DigitsValue(digits))
  {
    ChannelNameSplits(channelType, digits);
  }

  /** In particular `<type>_<str(N)>` is accepted with id N. */
  lemma ParseCanonicalName(channelType: string, n: nat)
    requires '_' !in channelType
    requires 1 <= n <= MaxDevices
    ensures ParseDeviceId(channelType + "_" + Decimal(n)) == Some(n)
  {
    DecimalRoundTrip(n);
    ParseChannelName(channelType, Decimal(n));
  }

  /** An accepted name is `<type>_<digits>` with no other `_`, and the digits
      denote the id. */
  lemma ParsedNameShape(name: string) returns (channelType: string, digits: string)
    requires ParseDeviceId(name).Some?
    ensures name == channelType + "_" + digits
    ensures '_' !in channelType && IsDigits(digits)
    ensures DigitsValue(digits) == ParseDeviceId(name).value
  {
    var parts := Split(name, '_');
    JoinSplit(name, '_');
    assert Join(parts[1..], '_') == parts[1];
    channelType, digits := parts[0], parts[1];
  }

  function RedName(id: nat): string { "red_" + Decimal(id) }

  /** `b` is the byte `collect_device_states` makes of the channel value `x`:
      its integer part inside 0..255, saturated outside. */
  predicate ByteReads(b: int, x: real)
  {
    && 0 <= b <= 255
    && (0.0 <= x <= 255.0 ==> b as real <= x < b as real + 1.0)
    && (x <= 0.0 ==> b == 0)
    && (255.0 <= x ==> b == 255)
  }

  /** `u` is the channel value `x` normalised to 0..1: `x / 255` inside
      0..255, saturated outside. */
  predicate UnitReads(u: real, x: real)
  {
    && 0.0 <= u <= 1.0
    && (0.0 <= x <= 255.0 ==> u == x / 255.0)
    && (x <= 0.0 ==> u == 0.0)
    && (255.0 <= x ==> u == 1.0)
  }

  /** The state of device `id` as `collect_device_states` reads it from the
      channel values: each colour byte from its own channel, the vibration
      from the red channel and the frequency from the frequency channel, a
      missing channel reading as 0. */
  function StateOf(channels: map<string, real>, id: nat): (s: DeviceState)
    ensures ByteReads(s.rgb.red, GetOrZero(channels, RedName(id)))
    ensures ByteReads(s.rgb.green, GetOrZero(channels, "green_" + Decimal(id)))
    ensures ByteReads(s.rgb.blue, GetOrZero(channels, "blue_" + Decimal(id)))
    ensures UnitReads(s.vibration, GetOrZero(channels, RedName(id)))
    ensures UnitReads(s.frequency, GetOrZero(channels, "frequency_" + Decimal(id)))
    ensures "green_" + Decimal(id) !in channels ==> s.rgb.green == 0
    ensures "blue_" + Decimal(id) !in channels ==> s.rgb.blue == 0
    ensures "frequency_" + Decimal(id) !in channels ==> s.frequency == 0.0
  {
    var red := GetOrZero(channels, RedName(id));
    var green := GetOrZero(channels, "green_" + Decimal(id));
    var blue := GetOrZero(channels, "blue_" + Decimal(id));
    var freq := GetOrZero(channels, "frequency_" + Decimal(id));
    DeviceState(Color(ByteOf(red), ByteOf(green), ByteOf(blue)),
                Clamp(0.0, 1.0, red / 255.0),
                Clamp(0.0, 1.0, freq / 255.0))
  }

  /** The states collected for the devices 1..n, keyed by `str(id)`: at most
      one entry per device, each keyed by a digit string. */
  function StatesUpTo(channels: map<string, real>, n: nat): (states: map<string, DeviceState>)
    ensures |states| <= n
    ensures forall key :: key in states ==> IsDigits(key)
  {
    if n == 0 then map[]
    else
      var prev := StatesUpTo(channels, n - 1);
      if RedName(n) in channels then prev[Decimal(n) := StateOf(channels, n)] else prev
  }

  /** `collect_device_states`: one pass over the ids 1..MaxDevices. */
  method CollectDeviceStates(channels: map<string, real>) returns (states: map<string, DeviceState>)
    ensures states == StatesUpTo(channels, MaxDevices)
  {
    states := map[];
    for id := 1 to MaxDevices + 1
      invariant states == StatesUpTo(channels, id - 1)
    {
      var redName := RedName(id);
      if redName !in channels {
        continue;
      }
      states := states[Decimal(id) := StateOf(channels, id)];
    }
  }

  /** Device `id` is collected iff its red channel exists. */
  lemma {:induction false} CollectedIff(channels: map<string, real>, n: nat, id: nat)
    requires 1 <= id <= n
    ensures Decimal(id) in StatesUpTo(channels, n) <==> RedName(id) in channels
  {
    if id < n {
      CollectedIff(channels, n - 1, id);
      DecimalDistinct(id, n);
    } else if Decimal(n) in StatesUpTo(channels, n - 1) {
      CollectedKeys(channels, n - 1, Decimal(n));
      var other :| 1 <= other <= n - 1 && Decimal(n) == Decimal(other) && RedName(other) in channels;
      DecimalDistinct(other, n);
    }
  }

  /** A collected device holds the state read from its channels. */
  lemma {:induction false} CollectedState(channels: map<string, real>, n: nat, id: nat)
    requires 1 <= id <= n && RedName(id) in channels
    ensures Decimal(id) in StatesUpTo(channels, n)
    ensures StatesUpTo(channels, n)[Decimal(id)] == StateOf(channels, id)
  {
    if id < n {
      CollectedState(channels, n - 1, id);
      DecimalDistinct(id, n);
    }
  }

  /** Nothing but `str(1)`..`str(n)` of a device with a red channel is a key. */
  lemma {:induction false} CollectedKeys(channels: map<string, real>, n: nat, key: string)
    requires key in StatesUpTo(channels, n)
    ensures exists id :: 1 <= id <= n && key == Decimal(id) && RedName(id) in channels
  {
    if key == Decimal(n) && RedName(n) in channels {
      assert 1 <= n <= n && key == Decimal(n) && RedName(n) in channels;
    } else {
      CollectedKeys(channels, n - 1, key);
    }
  }

  lemma DecimalDistinct(a: nat, b: nat)
    requires a != b
    ensures Decimal(a) != Decimal(b)
  {
    if Decimal(a) == Decimal(b) {
      DecimalInjective(a, b);
    }
  }

  /** A batch is sent iff some device 1..MaxDevices has its red channel. */
  lemma BatchNonEmptyIff(channels: map<string, real>)
    ensures |StatesUpTo(channels, MaxDevices)| > 0
            <==> exists id :: 1 <= id <= MaxDevices && RedName(id) in channels
  {
    var states := StatesUpTo(channels, MaxDevices);
    if |states| > 0 {
      var key :| key in states;
      CollectedKeys(channels, MaxDevices, key);
    }
    if exists id :: 1 <= id <= MaxDevices && RedName(id) in channels {
      var id :| 1 <= id <= MaxDevices && RedName(id) in channels;
      CollectedState(channels, MaxDevices, id);
    }
  }

  /** A cell of the debug table; `Fixed3` is a value printed with `.3f`. */
  datatype Cell = Num(n: int) | Text(s: string) | Fixed3(x: real)

  type Row = seq<Cell>

  const Header: Row := [Text("Device"), Text("Red"), Text("Green"), Text("Blue"), Text("Vibration"), Text("Frequency")]

  /** The debug row of device `id`: its id, then its red, green and blue
      values and its vibration and frequency, or five `-` placeholders when
      the device was not collected. */
  function DeviceRow(states: map<string, DeviceState>, id: nat): (row: Row)
    ensures |row| == 6 && row[0] == Num(id)
    ensures Decimal(id) !in states ==> forall k :: 1 <= k < 6 ==> row[k] == Text("-")
    ensures Decimal(id) in states ==>
              var rgb := states[Decimal(id)].rgb;
              row[1..4] == [Num(rgb.red), Num(rgb.green), Num(rgb.blue)]
  {
    if Decimal(id) in states then
      var s := states[Decimal(id)];
      [Num(id), Num(s.rgb.red), Num(s.rgb.green), Num(s.rgb.blue), Fixed3(s.vibration), Fixed3(s.frequency)]
    else
      [Num(id), Text("-"), Text("-"), Text("-"), Text("-"), Text("-")]
  }

  /** The rows for the devices 1..n, in id order. */
  function DeviceRows(states: map<string, DeviceState>, n: nat): seq<Row>
  {
    if n == 0 then [] else DeviceRows(states, n - 1) + [DeviceRow(states, n)]
  }

  function DebugRows(states: map<string, DeviceState>): seq<Row>
  {
    [Header] + DeviceRows(states, MaxDevices)
  }

  lemma {:induction false} DeviceRowsInOrder(states: map<string, DeviceState>, n: nat)
    ensures |DeviceRows(states, n)| == n
    ensures forall i :: 0 <= i < n ==> DeviceRows(states, n)[i] == DeviceRow(states, i + 1)
  {
    if n > 0 {
      DeviceRowsInOrder(states, n - 1);
    }
  }

  /** The debug table: the header and then exactly one six-cell row per id
      1..MaxDevices, in order, holding the device's values or `-` placeholders. */
  lemma DebugTableShape(states: map<string, DeviceState>)
    ensures |DebugRows(states)| == MaxDevices + 1
    ensures DebugRows(states)[0] == Header
    ensures forall id :: 1 <= id <= MaxDevices ==> DebugRows(states)[id] == DeviceRow(states, id)
    ensures forall id :: 1 <= id <= MaxDevices ==>
              |DebugRows(states)[id]| == 6 && DebugRows(states)[id][0] == Num(id)
    ensures forall id :: 1 <= id <= MaxDevices && Decimal(id) !in states ==>
              DebugRows(states)[id][1..] == [Text("-"), Text("-"), Text("-"), Text("-"), Text("-")]
    ensures forall id :: 1 <= id <= MaxDevices && Decimal(id) in states ==>
              var s := states[Decimal(id)];
              DebugRows(states)[id][1..] == [Num(s.rgb.red), Num(s.rgb.green), Num(s.rgb.blue),
                                             Fixed3(s.vibration), Fixed3(s.frequency)]
  {
    DeviceRowsInOrder(states, MaxDevices);
    forall id | 1 <= id <= MaxDevices
      ensures DebugRows(states)[id] == DeviceRow(states, id)
    {
      assert DebugRows(states)[id] == DeviceRows(states, MaxDevices)[id - 1];
    }
  }

  /** The TouchDesigner table operator `debug_table`. */
  class DebugTable {
    var rows: seq<Row>

    constructor ()
      ensures rows == []
    {
      rows := [];
    }

    method Clear()
      modifies this
      ensures rows == []
    {
      rows := [];
    }

    method AppendRow(row: Row)
      modifies this
      ensures rows == old(rows) + [row]
    {
      rows := rows + [row];
    }
  }

  /** `update_debug_table`: a missing table (`null`) is left alone; otherwise
      its rows are replaced in place by the header and one row per device. */
  method UpdateDebugTable(table: DebugTable?, states: map<string, DeviceState>)
    modifies table
    ensures table != null ==> table.rows == DebugRows(states)
  {
    if table == null {
      return;
    }
    table.Clear();
    table.AppendRow(Header);
    for id := 1 to MaxDevices + 1
      invariant table.rows == [Header] + DeviceRows(states, id - 1)
    {
      table.AppendRow(DeviceRow(states, id));
    }
  }

  /** The batch send for the collected states, if there are any. */
  function BatchSends(states: map<string, DeviceState>, now: real): seq<Send>
  {
    if |states| > 0 then [Send(BatchPort, BatchAddress, [BatchJson(now, states)])] else []
  }

  /** The script's state: the gate map and the sends made so far. */
  class Script {
    var lastUpdate: map<int, real>
    var sent: seq<Send>

    constructor ()
      ensures lastUpdate == map[] && sent == []
    {
      lastUpdate := map[];
      sent := [];
    }

    method ShouldUpdate(deviceId: int, now: real) returns (ok: bool)
      modifies this`lastUpdate
      ensures ok == RateGate.Admits(old(lastUpdate), deviceId, now, MinUpdateInterval)
      ensures lastUpdate == RateGate.After(old(lastUpdate), deviceId, now, MinUpdateInterval)
    {
      var lastTime := GetOrZero(lastUpdate, deviceId);
      if now - lastTime >= MinUpdateInterval {
        lastUpdate := lastUpdate[deviceId := now];
        return true;
      }
      return false;
    }

    /** `onValueChange`: `hasOscout` says whether `oscout2` exists, `out1` gives
        the channel values when that operator exists, `table` is `debug_table`.
        The channel name is validated before the gate is consulted; an accepted
        change refreshes the table and sends one batch of every present device. */
    method OnValueChange(hasOscout: bool, out1: Option<map<string, real>>, table: DebugTable?, name: string, now: real)
      modifies this, table
      ensures !hasOscout || out1.None? || ParseDeviceId(name).None? ==>
                && lastUpdate == old(lastUpdate) && sent == old(sent)
                && (table != null ==> table.rows == old(table.rows))
      ensures hasOscout && out1.Some? && ParseDeviceId(name).Some? ==>
                var id := ParseDeviceId(name).value;
                var accepted := RateGate.Admits(old(lastUpdate), id, now, MinUpdateInterval);
                var states := StatesUpTo(out1.value, MaxDevices);
                && lastUpdate == RateGate.After(old(lastUpdate), id, now, MinUpdateInterval)
                && sent == old(sent) + (if accepted then BatchSends(states, now) else [])
                && (table != null ==> table.rows == if accepted then DebugRows(states) else old(table.rows))
    {
      if !hasOscout || out1.None? {
        return;
      }
      var parsed := ParseDeviceId(name);
      if parsed.None? {
        return;
      }
      var ok := ShouldUpdate(parsed.value, now);
      if !ok {
        return;
      }
      var states := CollectDeviceStates(out1.value);
      UpdateDebugTable(table, states);
      if |states| > 0 {
        sent := sent + [Send(BatchPort, BatchAddress, [BatchJson(now, states)])];
      }
    }
  }
}
