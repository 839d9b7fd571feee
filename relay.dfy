/** The OSC/WebSocket relay (`main.py`): OSC messages pass one global rate
    gate, are forwarded to the bridge with float arguments and broadcast to
    every open WebSocket connection; broadcasts keep a bounded history and
    drop the connections whose send fails. */
module Relay {
  import RateGate

  const MaxHistory: nat := 100
  const MinUpdateInterval: real := 1.0 / 60.0

  /** Identity of one open WebSocket connection. */
  type Conn = nat

  /** A numeric OSC argument as received. */
  datatype InArg = IntIn(i: int) | FloatIn(r: real)

  /** `float(arg)`. */
  function ToFloat(a: InArg): real
  {
    match a
    case IntIn(i) => i as real
    case FloatIn(r) => r
  }

  /** `[float(arg) for arg in args]`. */
  function FloatArgs(args: seq<InArg>): (r: seq<real>)
    ensures |r| == |args|
    ensures forall i :: 0 <= i < |args| && args[i].IntIn? ==> r[i] == args[i].i as real
    ensures forall i :: 0 <= i < |args| && args[i].FloatIn? ==> r[i] == args[i].r
  {
    seq(|args|, i requires 0 <= i < |args| => ToFloat(args[i]))
  }

  /** `{"type": "osc_message", "address": ..., "args": ...}`. */
  datatype Message = Message(address: string, args: seq<real>)

  /** The message with the `timestamp` key a broadcast adds. */
  datatype Stamped = Stamped(message: Message, timestamp: string)

  /** One successful `send_json` of a stamped message to a connection. */
  datatype Delivery = Delivery(conn: Conn, payload: Stamped)

  /** The part of the relay a broadcast changes. */
  datatype RelayState = RelayState(history: seq<Stamped>, connections: seq<Conn>, delivered: seq<Delivery>)

  /** Every connection differs from all the ones before it. */
  predicate NoDuplicates(cs: seq<Conn>)
    decreases |cs|
  {
    cs == [] || (cs[|cs| - 1] !in cs[..|cs| - 1] && NoDuplicates(cs[..|cs| - 1]))
  }

  lemma {:induction false} NoDuplicatesAt(cs: seq<Conn>, i: nat)
    requires NoDuplicates(cs) && i < |cs|
    ensures cs[i] !in cs[..i]
    decreases |cs|
  {
    if i < |cs| - 1 {
      var init := cs[..|cs| - 1];
      NoDuplicatesAt(init, i);
      assert init[..i] == cs[..i];
    }
  }

  lemma NoDuplicatesSnoc(cs: seq<Conn>, c: Conn)
    requires NoDuplicates(cs) && c !in cs
    ensures NoDuplicates(cs + [c])
  {
    assert (cs + [c])[..|cs|] == cs;
  }

  /** Whether the global gate lets a message through at `now`: the rate gate
      with one key for every address. */
  predicate Due(lastUpdateTime: real, now: real)
  {
    RateGate.Elapsed(lastUpdateTime, now, MinUpdateInterval)
  }

  /** `history.append(entry)` followed by one `pop(0)` when over the bound. */
  function AppendBounded(history: seq<Stamped>, entry: Stamped): (r: seq<Stamped>)
    ensures 0 < |r| && r[|r| - 1] == entry
    ensures |history| <= |r| <= |history| + 1
    ensures |history| <= MaxHistory ==> |r| <= MaxHistory
  {
    var h := history + [entry];
    if |h| > MaxHistory then h[1..] else h
  }

  /** The connections, in order, whose send does not fail. */
  function Surviving(cs: seq<Conn>, fails: set<Conn>): seq<Conn>
    decreases |cs|
  {
    if cs == [] then []
    else Surviving(cs[..|cs| - 1], fails) + (if cs[|cs| - 1] in fails then [] else [cs[|cs| - 1]])
  }

  /** A connection survives iff it was open and its send did not fail. */
  lemma {:induction false} SurvivingMember(cs: seq<Conn>, fails: set<Conn>, c: Conn)
    ensures c in Surviving(cs, fails) <==> c in cs && c !in fails
    decreases |cs|
  {
    if cs != [] {
      var init, last := cs[..|cs| - 1], cs[|cs| - 1];
      SurvivingMember(init, fails, c);
      assert cs == init + [last];
    }
  }

  /** Pruning never duplicates a connection. */
  lemma {:induction false} SurvivingNoDuplicates(cs: seq<Conn>, fails: set<Conn>)
    requires NoDuplicates(cs)
    ensures NoDuplicates(Surviving(cs, fails))
    decreases |cs|
  {
    if cs != [] {
      var init, last := cs[..|cs| - 1], cs[|cs| - 1];
      SurvivingNoDuplicates(init, fails);
      SurvivingMember(init, fails, last);
      assert Surviving(cs, fails) == Surviving(init, fails) + (if last in fails then [] else [last]);
      if last !in fails {
        NoDuplicatesSnoc(Surviving(init, fails), last);
      } else {
        assert Surviving(cs, fails) == Surviving(init, fails);
      }
    }
  }

  lemma SurvivingSnoc(cs: seq<Conn>, x: Conn, fails: set<Conn>)
    ensures Surviving(cs + [x], fails) == Surviving(cs, fails) + (if x in fails then [] else [x])
  {
    assert (cs + [x])[..|cs|] == cs;
  }

  lemma DeliveriesToSnoc(cs: seq<Conn>, x: Conn, s: Stamped)
    ensures DeliveriesTo(cs + [x], s) == DeliveriesTo(cs, s) + [Delivery(x, s)]
  {
    assert (cs + [x])[..|cs|] == cs;
  }

  lemma DeliveredStep(before: seq<Delivery>, cs: seq<Conn>, x: Conn, s: Stamped)
    ensures before + DeliveriesTo(cs, s) + [Delivery(x, s)] == before + DeliveriesTo(cs + [x], s)
  {
    DeliveriesToSnoc(cs, x, s);
  }

  /** One loop step of a broadcast on a connection whose send fails: the
      connection leaves the list and the survivors so far are unchanged. */
  lemma PruneStep(snapshot: seq<Conn>, i: nat, fails: set<Conn>, kept: seq<Conn>)
    requires NoDuplicates(snapshot)
    requires i < |snapshot| && snapshot[i] in fails
    requires kept == Surviving(snapshot[..i], fails)
    ensures kept == Surviving(snapshot[..i + 1], fails)
    ensures RemoveFirst(kept + snapshot[i..], snapshot[i]) == kept + snapshot[i + 1..]
  {
    var ws := snapshot[i];
    assert snapshot[..i + 1] == snapshot[..i] + [ws];
    SurvivingSnoc(snapshot[..i], ws, fails);
    NoDuplicatesAt(snapshot, i);
    SurvivingMember(snapshot[..i], fails, ws);
    assert kept + snapshot[i..] == kept + [ws] + snapshot[i + 1..];
    RemoveFirstAt(kept, ws, snapshot[i + 1..]);
  }

  /** One loop step of a broadcast on a connection whose send succeeds: the
      connection joins the survivors so far. */
  lemma KeepStep(snapshot: seq<Conn>, i: nat, fails: set<Conn>, kept: seq<Conn>)
    requires i < |snapshot| && snapshot[i] !in fails
    requires kept == Surviving(snapshot[..i], fails)
    ensures kept + [snapshot[i]] == Surviving(snapshot[..i + 1], fails)
    ensures kept + snapshot[i..] == kept + [snapshot[i]] + snapshot[i + 1..]
  {
    var ws := snapshot[i];
    assert snapshot[..i + 1] == snapshot[..i] + [ws];
    SurvivingSnoc(snapshot[..i], ws, fails);
    assert snapshot[i..] == [ws] + snapshot[i + 1..];
  }

  /** One delivery of `s` to each of `cs`, in order. */
  function DeliveriesTo(cs: seq<Conn>, s: Stamped): seq<Delivery>
  {
    if cs == [] then [] else DeliveriesTo(cs[..|cs| - 1], s) + [Delivery(cs[|cs| - 1], s)]
  }

  /** `broadcast_to_websockets` on the relay's state; `fails` holds the
      connections whose `send_json` raises. */
  function BroadcastStep(v: RelayState, m: Message, timestamp: string, fails: set<Conn>): (w: RelayState)
    ensures |v.history| <= |w.history| <= |v.history| + 1
    ensures |v.delivered| <= |w.delivered| && w.delivered[..|v.delivered|] == v.delivered
  {
    if v.connections == [] then v
    else
      var s := Stamped(m, timestamp);
      var survivors := Surviving(v.connections, fails);
      RelayState(AppendBounded(v.history, s), survivors, v.delivered + DeliveriesTo(survivors, s))
  }

  /** One broadcast per message of `ms`, in order. */
  function BroadcastAll(v: RelayState, ms: seq<Message>, timestamp: string, fails: set<Conn>): RelayState
  {
    if ms == [] then v
    else BroadcastStep(BroadcastAll(v, ms[..|ms| - 1], timestamp, fails), ms[|ms| - 1], timestamp, fails)
  }

  /** Python's `list.remove(x)`: drops the first occurrence. */
  function RemoveFirst(cs: seq<Conn>, x: Conn): seq<Conn>
  {
    if cs == [] then []
    else if cs[0] == x then cs[1..]
    else [cs[0]] + RemoveFirst(cs[1..], x)
  }

  lemma RemoveFirstCons(y: Conn, t: seq<Conn>, x: Conn)
    requires y != x
    ensures RemoveFirst([y] + t, x) == [y] + RemoveFirst(t, x)
  {
    assert ([y] + t)[1..] == t;
  }

  lemma {:induction false} RemoveFirstAt(a: seq<Conn>, x: Conn, b: seq<Conn>)
    requires x !in a
    ensures RemoveFirst(a + [x] + b, x) == a + b
    decreases |a|
  {
    if a == [] {
      assert a + [x] + b == [x] + b;
      assert ([x] + b)[1..] == b;
    } else {
      var rest := a[1..];
      assert a == [a[0]] + rest;
      assert a + [x] + b == [a[0]] + (rest + [x] + b);
      RemoveFirstCons(a[0], rest + [x] + b, x);
      RemoveFirstAt(rest, x, b);
      assert [a[0]] + (rest + b) == a + b;
    }
  }

  /** The messages that reached connection `c`, in order. */
  function DeliveredTo(ds: seq<Delivery>, c: Conn): seq<Stamped>
  {
    if ds == [] then []
    else DeliveredTo(ds[..|ds| - 1], c) + (if ds[|ds| - 1].conn == c then [ds[|ds| - 1].payload] else [])
  }

  lemma {:induction false} DeliveredToAppend(a: seq<Delivery>, b: seq<Delivery>, c: Conn)
    ensures DeliveredTo(a + b, c) == DeliveredTo(a, c) + DeliveredTo(b, c)
    decreases |b|
  {
    if b == [] {
      assert a + b == a;
    } else {
      DeliveredToAppend(a, b[..|b| - 1], c);
      assert (a + b)[..|a + b| - 1] == a + b[..|b| - 1];
    }
  }

  lemma {:induction false} DeliveredToEach(cs: seq<Conn>, s: Stamped, c: Conn)
    requires NoDuplicates(cs)
    ensures DeliveredTo(DeliveriesTo(cs, s), c) == if c in cs then [s] else []
    decreases |cs|
  {
    if cs != [] {
      var init := cs[..|cs| - 1];
      DeliveredToEach(init, s, c);
      assert cs == init + [cs[|cs| - 1]];
    }
  }

  /** A broadcast keeps the history within its bound, with the new entry last
      and the oldest entries dropped first; with no connections it changes nothing. */
  lemma BroadcastHistory(v: RelayState, m: Message, timestamp: string, fails: set<Conn>)
    requires |v.history| <= MaxHistory
    ensures var w := BroadcastStep(v, m, timestamp, fails);
      && |w.history| <= MaxHistory
      && (v.connections == [] ==> w == v)
      && (v.connections != [] ==>
            && w.history[|w.history| - 1] == Stamped(m, timestamp)
            && w.history == (v.history + [Stamped(m, timestamp)])[|v.history| + 1 - |w.history|..]
            && |w.history| == if |v.history| < MaxHistory then |v.history| + 1 else MaxHistory)
  {
    if v.connections != [] {
      var s := Stamped(m, timestamp);
      var h := v.history + [s];
      assert BroadcastStep(v, m, timestamp, fails).history == AppendBounded(v.history, s);
      if |h| > MaxHistory {
        assert AppendBounded(v.history, s) == h[1..];
      } else {
        assert AppendBounded(v.history, s) == h[0..];
      }
    }
  }

  /** A broadcast drops exactly the connections whose send failed and keeps
      the others in their order; each survivor receives the message once and
      a dropped connection receives nothing. */
  lemma BroadcastConnections(v: RelayState, m: Message, timestamp: string, fails: set<Conn>, c: Conn)
    requires NoDuplicates(v.connections)
    requires v.connections != []
    ensures var w := BroadcastStep(v, m, timestamp, fails);
      && w.connections == Surviving(v.connections, fails)
      && (c in w.connections <==> c in v.connections && c !in fails)
      && DeliveredTo(w.delivered, c)
         == DeliveredTo(v.delivered, c) + (if c in v.connections && c !in fails then [Stamped(m, timestamp)] else [])
  {
    var s := Stamped(m, timestamp);
    var survivors := Surviving(v.connections, fails);
    SurvivingMember(v.connections, fails, c);
    SurvivingNoDuplicates(v.connections, fails);
    DeliveredToAppend(v.delivered, DeliveriesTo(survivors, s), c);
    DeliveredToEach(survivors, s, c);
  }

  function StampAll(ms: seq<Message>, timestamp: string): seq<Stamped>
  {
    seq(|ms|, i requires 0 <= i < |ms| => Stamped(ms[i], timestamp))
  }

  lemma StampAllSnoc(ms: seq<Message>, timestamp: string)
    requires ms != []
    ensures StampAll(ms, timestamp) == StampAll(ms[..|ms| - 1], timestamp) + [Stamped(ms[|ms| - 1], timestamp)]
  {
    var a, b := StampAll(ms, timestamp), StampAll(ms[..|ms| - 1], timestamp) + [Stamped(ms[|ms| - 1], timestamp)];
    assert |a| == |b|;
    forall k | 0 <= k < |a| ensures a[k] == b[k] {
      if k < |ms| - 1 {
        assert b[k] == StampAll(ms[..|ms| - 1], timestamp)[k];
      }
    }
  }

  /** Broadcasting never duplicates a connection. */
  lemma {:induction false} BroadcastAllNoDuplicates(v: RelayState, ms: seq<Message>, timestamp: string, fails: set<Conn>)
    requires NoDuplicates(v.connections)
    ensures NoDuplicates(BroadcastAll(v, ms, timestamp, fails).connections)
    decreases |ms|
  {
    if ms != [] {
      var u := BroadcastAll(v, ms[..|ms| - 1], timestamp, fails);
      BroadcastAllNoDuplicates(v, ms[..|ms| - 1], timestamp, fails);
      SurvivingNoDuplicates(u.connections, fails);
    }
  }

  lemma FlushStep(u: RelayState, m: Message, timestamp: string, fails: set<Conn>, c: Conn, before: seq<Stamped>)
    requires NoDuplicates(u.connections)
    requires c in u.connections && c !in fails
    requires DeliveredTo(u.delivered, c) == before
    ensures c in BroadcastStep(u, m, timestamp, fails).connections
    ensures DeliveredTo(BroadcastStep(u, m, timestamp, fails).delivered, c) == before + [Stamped(m, timestamp)]
  {
    BroadcastConnections(u, m, timestamp, fails, c);
  }

  /** Flushing `ms`: a connection whose sends do not fail stays open and
      receives every message of `ms` exactly once, in order. */
  lemma {:induction false} FlushDeliversEachOnce(v: RelayState, ms: seq<Message>, timestamp: string, fails: set<Conn>, c: Conn)
    requires NoDuplicates(v.connections)
    requires c in v.connections && c !in fails
    ensures c in BroadcastAll(v, ms, timestamp, fails).connections
    ensures DeliveredTo(BroadcastAll(v, ms, timestamp, fails).delivered, c)
            == DeliveredTo(v.delivered, c) + StampAll(ms, timestamp)
    decreases |ms|
  {
    if ms == [] {
      assert StampAll(ms, timestamp) == [];
    } else {
      var init, last := ms[..|ms| - 1], ms[|ms| - 1];
      FlushDeliversEachOnce(v, init, timestamp, fails, c);
      BroadcastAllNoDuplicates(v, init, timestamp, fails);
      var u := BroadcastAll(v, init, timestamp, fails);
      assert BroadcastAll(v, ms, timestamp, fails) == BroadcastStep(u, last, timestamp, fails);
      FlushStep(u, last, timestamp, fails, c, DeliveredTo(v.delivered, c) + StampAll(init, timestamp));
      StampAllSnoc(ms, timestamp);
    }
  }

  /** Flushing `ms`: a connection whose send fails is closed and receives nothing. */
  lemma {:induction false} FlushDropsFailing(v: RelayState, ms: seq<Message>, timestamp: string, fails: set<Conn>, c: Conn)
    requires NoDuplicates(v.connections)
    requires c in fails
    ensures ms != [] ==> c !in BroadcastAll(v, ms, timestamp, fails).connections
    ensures DeliveredTo(BroadcastAll(v, ms, timestamp, fails).delivered, c) == DeliveredTo(v.delivered, c)
    decreases |ms|
  {
    if ms != [] {
      var init, last := ms[..|ms| - 1], ms[|ms| - 1];
      FlushDropsFailing(v, init, timestamp, fails, c);
      BroadcastAllNoDuplicates(v, init, timestamp, fails);
      var u := BroadcastAll(v, init, timestamp, fails);
      if u.connections != [] {
        BroadcastConnections(u, last, timestamp, fails, c);
      }
    }
  }

  /** The relay's global state. */
  class Bridge {
    /** `osc_client` is set: forwarding to the bridge is possible. */
    const hasOscClient: bool
    var lastUpdateTime: real
    /** `pending_messages`: address to arguments, in insertion order. */
    var pending: seq<(string, seq<real>)>
    var history: seq<Stamped>
    var connections: seq<Conn>
    var delivered: seq<Delivery>
    /** The messages sent to the bridge through `osc_client`. */
    var forwarded: seq<Message>

    ghost predicate Valid()
      reads this
    {
      && |history| <= MaxHistory
      && NoDuplicates(connections)
      && forall i, j :: 0 <= i < j < |pending| ==> pending[i].0 != pending[j].0
    }

    function State(): RelayState
      reads this
    {
      RelayState(history, connections, delivered)
    }

    constructor (hasOscClient: bool)
      ensures Valid()
      ensures this.hasOscClient == hasOscClient && lastUpdateTime == 0.0
      ensures pending == [] && history == [] && connections == [] && delivered == [] && forwarded == []
    {
      this.hasOscClient := hasOscClient;
      lastUpdateTime := 0.0;
      pending, history, connections, delivered, forwarded := [], [], [], [], [];
    }

    /** A new WebSocket connection joins the end of `active_connections`;
        each accepted connection is a new object, so it is not yet open. */
    method Connect(c: Conn)
      requires Valid() && c !in connections
      modifies this`connections
      ensures Valid()
      ensures connections == old(connections) + [c]
    {
      NoDuplicatesSnoc(connections, c);
      connections := connections + [c];
    }

    /** `should_process_message`: one gate for every address. */
    method ShouldProcessMessage(address: string, now: real) returns (ok: bool)
      modifies this`lastUpdateTime
      ensures ok == Due(old(lastUpdateTime), now)
      ensures lastUpdateTime == if ok then now else old(lastUpdateTime)
    {
      var timeSinceLastUpdate := now - lastUpdateTime;
      if timeSinceLastUpdate >= MinUpdateInterval {
        lastUpdateTime := now;
        return true;
      }
      return false;
    }

    /** `broadcast_to_websockets`: records the stamped message in the bounded
        history, then sends it to every open connection. */
    method Broadcast(m: Message, timestamp: string, fails: set<Conn>)
      requires Valid()
      modifies this`history, this`connections, this`delivered
      ensures Valid()
      ensures State() == BroadcastStep(old(State()), m, timestamp, fails)
    {
      if |connections| == 0 {
        return;
      }
      var s := Stamped(m, timestamp);
      history := history + [s];
      if |history| > MaxHistory {
        history := history[1..];
      }
      SendToAll(s, fails);
    }

    /** The send loop of `broadcast_to_websockets`: iterates over a snapshot
        of the connections, removing each one whose send fails. */
    method SendToAll(s: Stamped, fails: set<Conn>)
      requires NoDuplicates(connections)
      modifies this`connections, this`delivered
      ensures NoDuplicates(connections)
      ensures connections == Surviving(old(connections), fails)
      ensures delivered == old(delivered) + DeliveriesTo(connections, s)
    {
      var snapshot := connections;
      ghost var kept: seq<Conn> := [];
      var i := 0;
      while i < |snapshot|
        invariant 0 <= i <= |snapshot|
        invariant kept == Surviving(snapshot[..i], fails)
        invariant connections == kept + snapshot[i..]
        invariant delivered == old(delivered) + DeliveriesTo(kept, s)
      {
        kept := SendOne(snapshot[i], s, fails, snapshot, i, old(delivered), kept);
        i := i + 1;
      }
      assert snapshot[..i] == snapshot && connections == kept;
      SurvivingNoDuplicates(snapshot, fails);
    }

    /** One iteration of the send loop: `send_json` to `ws`, and
        `active_connections.remove(ws)` when that send raises. The ghost
        parameters carry the loop's position in the snapshot and the
        survivors so far, and `kept'` the survivors after this step. */
    method SendOne(ws: Conn, s: Stamped, fails: set<Conn>, ghost snapshot: seq<Conn>, ghost i: nat,
                   ghost before: seq<Delivery>, ghost kept: seq<Conn>) returns (ghost kept': seq<Conn>)
      requires NoDuplicates(snapshot) && i < |snapshot| && ws == snapshot[i]
      requires kept == Surviving(snapshot[..i], fails)
      requires connections == kept + snapshot[i..]
      requires delivered == before + DeliveriesTo(kept, s)
      modifies this`connections, this`delivered
      ensures ws in fails ==> connections == RemoveFirst(old(connections), ws) && delivered == old(delivered)
      ensures ws !in fails ==> connections == old(connections) && delivered == old(delivered) + [Delivery(ws, s)]
      ensures kept' == Surviving(snapshot[..i + 1], fails)
      ensures connections == kept' + snapshot[i + 1..]
      ensures delivered == before + DeliveriesTo(kept', s)
    {
      if ws in fails {
        PruneStep(snapshot, i, fails, kept);
        connections := RemoveFirst(connections, ws);
        kept' := kept;
      } else {
        KeepStep(snapshot, i, fails, kept);
        DeliveredStep(before, kept, ws, s);
        delivered := delivered + [Delivery(ws, s)];
        kept' := kept + [ws];
      }
    }

    /** `process_pending_messages`: only a non-empty queue consults the gate;
        an accepted flush empties the queue first, then broadcasts each queued
        message once, in insertion order. */
    method ProcessPending(now: real, timestamp: string, fails: set<Conn>)
      requires Valid()
      modifies this
      ensures Valid()
      ensures forwarded == old(forwarded)
      ensures old(pending) == [] || !Due(old(lastUpdateTime), now) ==>
                lastUpdateTime == old(lastUpdateTime) && pending == old(pending) && State() == old(State())
      ensures old(pending) != [] && Due(old(lastUpdateTime), now) ==>
                && lastUpdateTime == now && pending == []
                && State() == BroadcastAll(old(State()), PendingMessages(old(pending)), timestamp, fails)
    {
      if |pending| == 0 {
        return;
      }
      var ok := ShouldProcessMessage("batch", now);
      if !ok {
        return;
      }
      var messagesToSend := pending;
      pending := [];
      var i := 0;
      while i < |messagesToSend|
        invariant 0 <= i <= |messagesToSend|
        invariant Valid()
        invariant lastUpdateTime == now && pending == [] && forwarded == old(forwarded)
        invariant State() == BroadcastAll(old(State()), PendingMessages(messagesToSend[..i]), timestamp, fails)
      {
        var entry := messagesToSend[i];
        BroadcastAllPendingSnoc(old(State()), messagesToSend, i, timestamp, fails);
        Broadcast(Message(entry.0, entry.1), timestamp, fails);
        i := i + 1;
      }
      assert messagesToSend[..i] == messagesToSend;
    }

    /** `handle_osc_message`: a message the gate rejects is dropped; an
        accepted one is forwarded with float arguments, then broadcast. */
    method HandleOscMessage(address: string, args: seq<InArg>, now: real, timestamp: string, fails: set<Conn>)
      requires Valid()
      modifies this
      ensures Valid()
      ensures pending == old(pending)
      ensures !Due(old(lastUpdateTime), now) ==>
                lastUpdateTime == old(lastUpdateTime) && forwarded == old(forwarded) && State() == old(State())
      ensures Due(old(lastUpdateTime), now) ==>
                var m := Message(address, FloatArgs(args));
                && lastUpdateTime == now
                && forwarded == old(forwarded) + (if hasOscClient then [m] else [])
                && State() == BroadcastStep(old(State()), m, timestamp, fails)
    {
      var ok := ShouldProcessMessage(address, now);
      if ok {
        var floatArgs := FloatArgs(args);
        if hasOscClient {
          forwarded := forwarded + [Message(address, floatArgs)];
        }
        Broadcast(Message(address, floatArgs), timestamp, fails);
      }
    }
  }

  /** The queued entries as messages, in insertion order. */
  function PendingMessages(pending: seq<(string, seq<real>)>): seq<Message>
  {
    seq(|pending|, i requires 0 <= i < |pending| => Message(pending[i].0, pending[i].1))
  }

  /** Broadcasting one more pending entry extends the batch by one step. */
  lemma BroadcastAllPendingSnoc(v: RelayState, p: seq<(string, seq<real>)>, i: nat, timestamp: string, fails: set<Conn>)
    requires i < |p|
    ensures BroadcastAll(v, PendingMessages(p[..i + 1]), timestamp, fails)
            == BroadcastStep(BroadcastAll(v, PendingMessages(p[..i]), timestamp, fails), Message(p[i].0, p[i].1), timestamp, fails)
  {
    assert PendingMessages(p[..i + 1])[..i] == PendingMessages(p[..i]);
  }
}
