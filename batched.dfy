/** The frame-rate driven gate of `batched.py`: the minimum interval between
    two updates of a device is one frame at the rate read from the
    `export_parms` operator, with 60 frames per second when that rate is not
    positive. */
module Batched {
  import opened Common
  import RateGate

  const FallbackFramerate: real := 60.0

  /** `1.0 / framerate` after the fallback: always a positive interval. */
  function MinUpdateInterval(framerate: real): (interval: real)
    ensures interval > 0.0
    ensures framerate > 0.0 ==> interval * framerate == 1.0
    ensures framerate <= 0.0 ==> interval * FallbackFramerate == 1.0
  {
    var rate := if framerate <= 0.0 then FallbackFramerate else framerate;
    1.0 / rate
  }

  /** The script's `last_update` map, keyed by whatever device id its caller passes. */
  class Script<K(==)> {
    var lastUpdate: map<K, real>

    constructor ()
      ensures lastUpdate == map[]
    {
      lastUpdate := map[];
    }

    /** `should_update`: `exportParms` is the framerate of `export_parms`, or
        `None` when that operator is missing. */
    method ShouldUpdate(deviceId: K, exportParms: Option<real>, now: real) returns (ok: bool)
      modifies this`lastUpdate
      ensures exportParms.None? ==> !ok && lastUpdate == old(lastUpdate)
      ensures exportParms.Some? ==>
                var interval := MinUpdateInterval(exportParms.value);
                && ok == RateGate.Admits(old(lastUpdate), deviceId, now, interval)
                && lastUpdate == RateGate.After(old(lastUpdate), deviceId, now, interval)
    {
      if exportParms.None? {
        return false;
      }
      var framerate := exportParms.value;
      if framerate <= 0.0 {
        framerate := FallbackFramerate;
      }
      var minUpdateInterval := 1.0 / framerate;
      var lastTime := GetOrZero(lastUpdate, deviceId);
      if now - lastTime >= minUpdateInterval {
        lastUpdate := lastUpdate[deviceId := now];
        return true;
      }
      return false;
    }
  }
}
