/** The per-device rate gate shared by the TouchDesigner senders: a map from
    device key to the time (seconds) of that device's last accepted update.
    A call for `key` at time `now` is accepted iff at least `interval` has
    passed since that time, a never-seen key counting as last updated at 0;
    only an accepted call moves the key's entry, and only to `now`. */
module RateGate {
  import opened Common

  /** Whether at least `interval` has passed between `last` and `now`. */
  predicate Elapsed(last: real, now: real, interval: real)
  {
    now - last >= interval
  }

  /** Whether the gate accepts a call for `key` at `now`; the last time of a
      key is `last_update.get(key, 0)`. */
  predicate Admits<K>(last: map<K, real>, key: K, now: real, interval: real)
  {
    Elapsed(GetOrZero(last, key), now, interval)
  }

  /** The map after one call of the gate. */
  function After<K>(last: map<K, real>, key: K, now: real, interval: real): (r: map<K, real>)
    ensures Admits(last, key, now, interval) ==> r.Keys == last.Keys + {key} && r[key] == now
    ensures !Admits(last, key, now, interval) ==> r == last
    ensures forall k :: k in last && k != key ==> k in r && r[k] == last[k]
    ensures forall k :: k in r ==> k in last || k == key
  {
    if Admits(last, key, now, interval) then last[key := now] else last
  }

  /** One call of a gate: the device key and the time it was made. */
  datatype Call<K> = Call(key: K, time: real)

  /** The gate's map after the first `n` calls of `calls`, starting from `last`. */
  function StateAt<K>(last: map<K, real>, calls: seq<Call<K>>, interval: real, n: nat): map<K, real>
    requires n <= |calls|
  {
    if n == 0 then last
    else After(StateAt(last, calls, interval, n - 1), calls[n - 1].key, calls[n - 1].time, interval)
  }

  /** Whether the `i`-th call of the run is accepted. */
  predicate AcceptedAt<K>(last: map<K, real>, calls: seq<Call<K>>, interval: real, i: nat)
    requires i < |calls|
  {
    Admits(StateAt(last, calls, interval, i), calls[i].key, calls[i].time, interval)
  }

  /** Clock readings that never go backwards. */
  predicate NonDecreasing<K>(calls: seq<Call<K>>)
  {
    forall i, j :: 0 <= i <= j < |calls| ==> calls[i].time <= calls[j].time
  }

  /** Once call `i` is accepted, its key's entry never falls below that call's time. */
  lemma {:induction false} EntryCoversAccepted<K>(last: map<K, real>, calls: seq<Call<K>>, interval: real, i: nat, n: nat)
    requires NonDecreasing(calls)
    requires i < n <= |calls|
    requires AcceptedAt(last, calls, interval, i)
    ensures GetOrZero(StateAt(last, calls, interval, n), calls[i].key) >= calls[i].time
  {
    if n > i + 1 {
      EntryCoversAccepted(last, calls, interval, i, n - 1);
      assert calls[i].time <= calls[n - 1].time;
    }
  }

  /** The rate bound: two accepted calls for the same key, on a clock that
      never goes backwards, are at least `interval` apart. So a device's
      accepted rate never exceeds one per `interval`, whatever the input rate. */
  lemma AcceptedCallsSpaced<K>(last: map<K, real>, calls: seq<Call<K>>, interval: real, i: nat, j: nat)
    requires NonDecreasing(calls)
    requires i < j < |calls|
    requires calls[i].key == calls[j].key
    requires AcceptedAt(last, calls, interval, i) && AcceptedAt(last, calls, interval, j)
    ensures calls[j].time - calls[i].time >= interval
  {
    EntryCoversAccepted(last, calls, interval, i, j);
  }

  /** Calls for other keys never change whether a key's call is accepted:
      each key's entry is touched by that key's calls only. */
  lemma {:induction false} OtherKeysUntouched<K>(last: map<K, real>, calls: seq<Call<K>>, interval: real, key: K, n: nat)
    requires n <= |calls|
    requires forall i :: 0 <= i < n ==> calls[i].key != key
    ensures GetOrZero(StateAt(last, calls, interval, n), key) == GetOrZero(last, key)
  {
    if n > 0 {
      OtherKeysUntouched(last, calls, interval, key, n - 1);
    }
  }
}
