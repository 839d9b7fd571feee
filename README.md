# OSC bridge tooling, modelled in Dafny

This project models the Python tooling around the DataFeel OSC bridge. It has two parts.

- **The relay** (`main.py`) receives OSC messages and passes them through one global rate gate. It forwards the accepted messages to the bridge with float arguments and broadcasts each one, with a timestamp, to every open WebSocket connection. The relay keeps the last 100 broadcasts in a history, drops each connection whose send fails, and searches an ascending range of ports when it starts.
- **Four TouchDesigner sender scripts** react to a channel change:
  - `touchdesigner_script.py` sends one batch of every device's state to port 9001 and refreshes a debug table;
  - `send_rgb_old.py`, with a byte-identical copy under `touchdesigner/scripts/`, sends a device select followed by the colour or the vibration frequency;
  - `send_rgb.py` routes six fixed channel names to OSC addresses;
  - `batched.py` holds a per-device gate whose interval is one frame.

The modules follow these programs.

- `Common`: `Option`, `Result`, and Python's `int()` on floats (truncation toward zero), clamping and `dict.get(k, 0)`.
- `ChannelNames`: `str.split` on one separator, ASCII `isdigit`, `int()` of a digit string and `str()` of a number, with their round trips.
- `RateGate`: the per-key "enough time since the last accepted call" gate the three scripts share, with lemmas about whole runs of calls.
- `Osc`: the OSC addresses, argument values and recorded sends. Every `sendOSC` becomes a `Send(port, address, args)` appended to a log.
- `Relay`: the relay's global state as the class `Bridge`, with pure specification functions for a broadcast and a flush.
- `PortSearch`: the two port searches of the relay, over an abstract `binds` predicate.
- `TouchScript`, `OldSender`, `RgbSender`, `Batched`: the four scripts.

Time is a `real` number of seconds, passed in by the caller. The host operators (`oscout2`, `out1`, `debug_table`, `export_parms`) are parameters. A missing operator is `None` or `null`, and `out1` is a map from channel name to value. A WebSocket send that raises is modelled by a set `fails` of connections whose sends fail.

## Model

| member | source | states |
|---|---|---|
| Common.Trunc | DevkitSamples/OscBridge/send_rgb.py:56-58 | `int(x)` truncates toward zero: the result is the integer part, below `x` for positive and above it for negative values |
| Common.Clamp | DevkitSamples/OscBridge/touchdesigner_script.py:78-79 | `max(lo, min(hi, x))` lies in `lo..hi`, is `x` inside that range and the nearer bound outside it |
| Common.ByteOf | DevkitSamples/OscBridge/touchdesigner_script.py:70-73 | a colour component is in 0..255, the integer part of the value inside that range, 0 at or below 0 and 255 at or above 255 |
| ChannelNames.Split | DevkitSamples/OscBridge/touchdesigner_script.py:96-97 | `split('_')` yields one more part than there are separators, and no part contains the separator |
| ChannelNames.JoinSplit | DevkitSamples/OscBridge/send_rgb_old.py:40 | joining the parts of a split with the separator gives back the channel name |
| ChannelNames.SplitJoin | DevkitSamples/OscBridge/touchdesigner/scripts/send_rgb_old.py:40 | splitting the join of separator-free parts gives back the parts |
| ChannelNames.ChannelNameSplits | DevkitSamples/OscBridge/touchdesigner_script.py:96 | a name `<type>_<id>` with both parts free of `_` splits into exactly `[type, id]` |
| ChannelNames.Decimal | DevkitSamples/OscBridge/touchdesigner_script.py:59 | `str(n)` of a device number is a non-empty digit string with no `_` |
| ChannelNames.DecimalRoundTrip | DevkitSamples/OscBridge/touchdesigner_script.py:97-100 | `int(str(n)) == n`: the digits of a number parse back to it |
| ChannelNames.DecimalInjective | DevkitSamples/OscBridge/touchdesigner_script.py:76 | different device numbers give different `str()` keys |
| RateGate.After | DevkitSamples/OscBridge/touchdesigner_script.py:16-22 | an accepted call sets only its key's entry to `now`; a rejected call leaves the map unchanged; no other key is added or changed |
| RateGate.AcceptedCallsSpaced | DevkitSamples/OscBridge/send_rgb_old.py:13-19 | over any run of calls with non-decreasing times, two accepted calls for the same key are at least one interval apart |
| RateGate.OtherKeysUntouched | DevkitSamples/OscBridge/touchdesigner/scripts/batched.py:26-31 | over any run of calls, the entry of a key that is never called keeps its last time |
| Osc.FramedSendsAddressSelected | DevkitSamples/OscBridge/send_rgb_old.py:65-67 | every send of a batch that opens with `device/select` is applied to that device, whatever the log held before |
| OldSender.DeviceNumber | DevkitSamples/OscBridge/send_rgb_old.py:66 | `float(device_id)` on a digit string gives its non-negative value; in the model every other string raises (see "## Left out") |
| OldSender.Dispatch | DevkitSamples/OscBridge/send_rgb_old.py:50-80 | a dispatch raises only for an id that is not a digit string, sends at most three messages, all to the bridge port 8000, and any sends open with `device/select` |
| OldSender.SplitChannel | DevkitSamples/OscBridge/send_rgb_old.py:38-44 | the two-name unpacking succeeds iff the name has exactly one `_`, and then the name is `type + "_" + id` with both parts free of `_` |
| OldSender.DispatchColor | DevkitSamples/OscBridge/send_rgb_old.py:51-73 | red, green or blue send `device/select [id]`, then `led/rgb` with the device's current red, green and blue, then for red only `vibration/intensity [val/255]` |
| OldSender.DispatchFrequency | DevkitSamples/OscBridge/touchdesigner/scripts/send_rgb_old.py:75-80 | frequency sends `device/select [id]` then `vibration/frequency [val]`, with `val` unscaled |
| OldSender.DispatchSilent | DevkitSamples/OscBridge/send_rgb_old.py:51-59 | any other type sends nothing; a colour change sends nothing when any one of the device's red, green or blue channels is missing |
| OldSender.DispatchAddressesChannelDevice | DevkitSamples/OscBridge/touchdesigner/scripts/send_rgb_old.py:61-73 | every send a change makes reaches the bridge with the channel's own device selected |
| OldSender.Sender.constructor | DevkitSamples/OscBridge/send_rgb_old.py:10 | the gate map starts empty and nothing has been sent |
| OldSender.Sender.ShouldUpdate | DevkitSamples/OscBridge/touchdesigner/scripts/send_rgb_old.py:13-19 | accepts iff `now - last_update.get(id, 0) >= 0.033`; only an accepted call changes the map, and only the id's entry |
| OldSender.Sender.OnValueChange | DevkitSamples/OscBridge/send_rgb_old.py:21-80 | a missing operator or a malformed name sends nothing and leaves the gate untouched; otherwise the gate, keyed by the id string, is consulted before the type is checked, and only an accepted change sends its dispatch |
| TouchScript.ParseDeviceId | DevkitSamples/OscBridge/touchdesigner_script.py:96-102 | an accepted name yields an id in 1..4; a name without exactly one `_` is rejected |
| TouchScript.ParseChannelName | DevkitSamples/OscBridge/touchdesigner_script.py:96-102 | every `<type>_<digits>` with `_`-free type and any ASCII digit string whose value is in 1..4 (leading zeros included, so `red_01` is device 1) is accepted with that value as id |
| TouchScript.ParseCanonicalName | DevkitSamples/OscBridge/touchdesigner_script.py:96-102 | in particular `<type>_<str(N)>` with N in 1..4 is accepted with id N |
| TouchScript.ParsedNameShape | DevkitSamples/OscBridge/touchdesigner_script.py:96-100 | every accepted name is `<type>_<digits>` with no other `_`, and its digits denote the id |
| TouchScript.StateOf | DevkitSamples/OscBridge/touchdesigner_script.py:63-80 | each colour byte is its own channel's value truncated inside 0..255 and saturated at 0 and 255; vibration is the red channel and frequency the `frequency_N` channel divided by 255, saturated at 0 and 1; a missing green, blue or frequency channel gives 0 |
| TouchScript.CollectDeviceStates | DevkitSamples/OscBridge/touchdesigner_script.py:57-80 | the loop over ids 1..4 collects exactly the states of the specification `StatesUpTo(channels, 4)` |
| TouchScript.StatesUpTo | DevkitSamples/OscBridge/touchdesigner_script.py:57-80 | the collected map has at most one entry per id and every key is a digit string |
| TouchScript.CollectedIff | DevkitSamples/OscBridge/touchdesigner_script.py:57-61 | device N is collected iff `red_N` exists |
| TouchScript.CollectedState | DevkitSamples/OscBridge/touchdesigner_script.py:63-80 | a collected device's state is the one read from its own channels |
| TouchScript.CollectedKeys | DevkitSamples/OscBridge/touchdesigner_script.py:76 | every key of the map is `str(N)` for some N in range whose `red_N` exists |
| TouchScript.BatchNonEmptyIff | DevkitSamples/OscBridge/touchdesigner_script.py:109-110 | a batch is sent iff some device 1..4 has its red channel |
| TouchScript.DeviceRowsInOrder | DevkitSamples/OscBridge/touchdesigner_script.py:32-45 | the device rows are one per id, in id order |
| TouchScript.DeviceRow | DevkitSamples/OscBridge/touchdesigner_script.py:33-45 | a row has six cells starting with the id; an absent device has `-` in the other five, a present one its red, green and blue first |
| TouchScript.DebugTableShape | DevkitSamples/OscBridge/touchdesigner_script.py:29-45 | the table is the header and then four rows for ids 1..4 in order, each the device's row: `-` placeholders for an absent device, and red, green, blue and vibration and frequency to three decimals for a present one |
| TouchScript.DebugTable.Clear | DevkitSamples/OscBridge/touchdesigner_script.py:29 | clearing leaves the table with no rows |
| TouchScript.DebugTable.AppendRow | DevkitSamples/OscBridge/touchdesigner_script.py:30 | a row is appended after the existing rows |
| TouchScript.UpdateDebugTable | DevkitSamples/OscBridge/touchdesigner_script.py:24-45 | a missing table is left alone; otherwise its rows become exactly the debug rows of the states |
| TouchScript.Script.constructor | DevkitSamples/OscBridge/touchdesigner_script.py:14 | the gate map starts empty and nothing has been sent |
| TouchScript.Script.ShouldUpdate | DevkitSamples/OscBridge/touchdesigner_script.py:16-22 | accepts iff `now - last_update.get(id, 0) >= 0.016`; only an accepted call changes the map, and only the id's entry |
| TouchScript.Script.OnValueChange | DevkitSamples/OscBridge/touchdesigner_script.py:85-119 | a missing operator or an invalid name changes nothing, and the gate is not consulted; an accepted change refreshes the table and sends one batch of every present device to port 9001 if any device is present |
| RgbSender.OscMap | DevkitSamples/OscBridge/send_rgb.py:30-40 | exactly the six names red, green, blue, intensity, frequency and device are mapped, and exactly the three colours map to `led/rgb` |
| RgbSender.AtMostOneSend | DevkitSamples/OscBridge/send_rgb.py:20-52 | a change sends at most once, and it sends iff `oscout2` exists, the name is mapped and, for a colour, `out1` exists and has the red, green and blue channels |
| RgbSender.RaisesIff | DevkitSamples/OscBridge/send_rgb.py:44-52 | the handler raises iff `oscout2` exists, the name is a colour, `out1` exists and one of its red, green or blue channels is missing |
| RgbSender.OnValueChange | DevkitSamples/OscBridge/send_rgb.py:16-76 | at most one send, only for a mapped name, on the bridge port 8000 and to the name's mapped address |
| RgbSender.RgbValues | DevkitSamples/OscBridge/send_rgb.py:55-67 | three slots in red, green, blue order: the changed slot is `int(val*255)`, each other one `int(x*255)` of out1's value |
| RgbSender.FillNone | DevkitSamples/OscBridge/send_rgb.py:74 | same length; each present value is kept and each `None` becomes 0 |
| RgbSender.ColorSend | DevkitSamples/OscBridge/send_rgb.py:50-70 | a colour change sends one `led/rgb` with three slots: `int(val*255)` for the changed channel and `int(x*255)` of out1's value for the other two |
| RgbSender.ColorAgreesWithOut1 | DevkitSamples/OscBridge/send_rgb.py:61-67 | when out1 already holds the new value, the colour sent is out1's colour |
| RgbSender.ColorInByteRange | DevkitSamples/OscBridge/send_rgb.py:55-67 | channel values in 0..1 give colour values in 0..255 |
| RgbSender.SingleValueSend | DevkitSamples/OscBridge/send_rgb.py:72-76 | intensity, frequency and device send the one-element list `[val]` to their mapped address |
| Batched.MinUpdateInterval | DevkitSamples/OscBridge/touchdesigner/scripts/batched.py:21-24 | the interval is positive, one frame at a positive framerate, and 1/60 when the framerate is not positive |
| Batched.Script.constructor | DevkitSamples/OscBridge/touchdesigner/scripts/batched.py:13 | the gate map starts empty |
| Batched.Script.ShouldUpdate | DevkitSamples/OscBridge/touchdesigner/scripts/batched.py:15-31 | a missing `export_parms` rejects the call and changes nothing; otherwise the call is accepted iff one frame has passed since the device's last accepted call, and only then is the device's entry changed |
| Relay.FloatArgs | DevkitSamples/OscBridge/main.py:80 | every argument is converted to float, position by position |
| Relay.AppendBounded | DevkitSamples/OscBridge/main.py:65-67 | the new entry is last, the history grows by at most one and stays within 100 entries once within them |
| Relay.RemoveFirstAt | DevkitSamples/OscBridge/main.py:74 | `list.remove(x)` drops the first occurrence of `x` and keeps the rest in order |
| Relay.BroadcastStep | DevkitSamples/OscBridge/main.py:58-74 | a broadcast grows the history by at most one and only appends deliveries, never changing earlier ones |
| Relay.SurvivingMember | DevkitSamples/OscBridge/main.py:69-74 | a connection stays iff it was open and its send did not fail |
| Relay.SurvivingNoDuplicates | DevkitSamples/OscBridge/main.py:69-74 | pruning never duplicates a connection |
| Relay.BroadcastHistory | DevkitSamples/OscBridge/main.py:60-67 | the history stays within 100 entries, the new entry is last and the oldest go first; with no connections nothing changes |
| Relay.BroadcastConnections | DevkitSamples/OscBridge/main.py:69-74 | exactly the failing connections are dropped, the others stay in order, and each survivor receives the message once while a dropped one receives nothing |
| Relay.BroadcastAllNoDuplicates | DevkitSamples/OscBridge/main.py:50-56 | a flush never duplicates a connection |
| Relay.FlushDeliversEachOnce | DevkitSamples/OscBridge/main.py:50-56 | in a flush, a connection whose sends succeed stays open and receives every queued message exactly once, in queue order |
| Relay.FlushDropsFailing | DevkitSamples/OscBridge/main.py:69-74 | in a flush, a connection whose send fails is closed and receives nothing |
| Relay.Bridge.constructor | DevkitSamples/OscBridge/main.py:17-30 | the relay starts with an empty history, no connections, no queue and last update time 0 |
| Relay.Bridge.Connect | DevkitSamples/OscBridge/main.py:99 | a new connection is appended to the open connections |
| Relay.Bridge.ShouldProcessMessage | DevkitSamples/OscBridge/main.py:32-41 | accepts iff `now - last_update_time >= 1/60`, whatever the address; only an accepted call moves `last_update_time` to `now` |
| Relay.Bridge.Broadcast | DevkitSamples/OscBridge/main.py:58-74 | the history, connections and deliveries become those of the specification `BroadcastStep`, and the invariants (history bound, no duplicate connections) hold |
| Relay.Bridge.SendToAll | DevkitSamples/OscBridge/main.py:69-74 | the loop over a snapshot leaves exactly the non-failing connections, in order, and delivers the message to each of them once, in order |
| Relay.Bridge.SendOne | DevkitSamples/OscBridge/main.py:69-74 | a failing send removes the connection's first occurrence and delivers nothing; a successful one appends one delivery and keeps the connections; either way the connections become the survivors so far followed by the rest of the snapshot |
| Relay.Bridge.ProcessPending | DevkitSamples/OscBridge/main.py:43-56 | an empty queue changes nothing and the gate is not consulted; an accepted flush empties the queue and broadcasts each queued message once, in order (`BroadcastAll`); a rejected one changes nothing |
| Relay.Bridge.HandleOscMessage | DevkitSamples/OscBridge/main.py:76-92 | a rejected message is dropped and never queued; an accepted one is forwarded with float arguments when the client exists, then broadcast |
| PortSearch.SearchPorts | DevkitSamples/OscBridge/main.py:135-148 | ports are tried in ascending order from the base; the result is the first port that binds, else the last port's failure, and nothing is tried iff `max_attempts <= 0` |
| PortSearch.TryCreateOscServer | DevkitSamples/OscBridge/main.py:133-149 | succeeds iff some port of the range binds, with the first such port; otherwise re-raises the last port's error, or raises `RuntimeError` iff the range is empty; by default the range is 8001..8005 |
| PortSearch.TryCreateWebSocketServer | DevkitSamples/OscBridge/main.py:151-163 | succeeds iff some port of the range binds, with the first such port; otherwise re-raises the last port's error, or raises an `OSError` naming the range iff the range is empty; by default the range is 8081..8085 |
| PortSearch.StartServers | DevkitSamples/OscBridge/main.py:165-193 | start-up succeeds iff both 8001..8005 and 8081..8085 have a free port, and then takes the first free port of each; otherwise it fails with the last port's error of the first range that has none |

## Left out

- I/O is left out: the aiohttp application, `websocket_handler` (apart from adding a connection), `index_handler`, the CORS handlers, `main` with its endless loop, `webbrowser.open`, logging and `print`.
- Concurrency is left out. Each relay operation runs to completion; the interleaving of other handlers at each `await` is not modelled.
- Socket binding, WebSocket sends and the TouchDesigner operators are inputs: the `binds` predicate, the `fails` set and the `out1` map.
- `datetime.now().isoformat()` and `json.dumps` are left out. The broadcast timestamp is an abstract string and the batch payload is the structured `BatchJson` value.
- IEEE floating point is left out: values are real numbers, with no rounding, NaN or infinities.
- Relay.Bridge.ProcessPending: a flush uses one timestamp and one `fails` set for all its broadcasts, whereas the source takes a fresh timestamp and a fresh send outcome for each message.
- Relay.Bridge.HandleOscMessage: only numeric OSC arguments (int and float) are modelled. A string or blob argument, which `float()` could reject, is not.
- Relay.RemoveFirst, Relay.Surviving: their properties are stated as the lemmas RemoveFirstAt, SurvivingMember and SurvivingNoDuplicates rather than as their own postconditions.
- Relay.Bridge: nothing in the source fills `pending_messages`, so no operation adds to the queue; `ProcessPending` is stated for any queue with distinct addresses.
- OldSender.DeviceNumber, OldSender.Dispatch, OldSender.Sender.OnValueChange: `float(device_id)` is modelled only for ASCII digit strings. Other strings are treated as raising, including the ones Python's `float` accepts such as `1.5`, ` 2` or `inf`.
- TouchScript.ParseDeviceId: `isdigit` is modelled on ASCII digits; non-ASCII Unicode digits are not.
- TouchScript.Script.OnValueChange: the batch timestamp is the gate's `now`, whereas the source calls `time.time()` a second time.
- PortSearch.SearchPorts: only the `OSError` of a failed bind is modelled. Any other exception propagates in the source and is not represented.
- `test_osc.py` and its copy are left out: demo drivers with no decision logic.
- The C# bridge is not part of this model: its scheduler, retry executor, signal conditioner and ingest queue.
