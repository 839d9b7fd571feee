/** The port searches of the relay (`try_create_osc_server` and
    `try_create_websocket_server` in `main.py`): the ports `basePort`,
    `basePort + 1`, ... are tried in ascending order, at most `maxAttempts` of
    them, and the first one that binds is used. Whether a port binds is the
    environment's answer, given as the predicate `binds`. */
module PortSearch {
  import opened Common

  const OscBasePort := 8001
  const WebSocketBasePort := 8081
  const DefaultMaxAttempts := 5

  /** How a search ends: a bound port, the error of the last port tried, or
      an empty range with nothing tried. */
  datatype Outcome = Bound(port: int) | LastPortFailed(port: int) | NothingTried

  /** The error a failed search raises. */
  datatype StartupError =
    | PortInUse(port: int)                  // the `OSError` of the last port, re-raised
    | NoOscPort                             // `RuntimeError`: the OSC range was empty
    | NoWebSocketPort(first: int, last: int) // `OSError` naming the empty range

  /** The shared `for port in range(base_port, base_port + max_attempts)` loop
      with its early return; `tried` lists the ports attempted, in order. */
  method SearchPorts(basePort: int, maxAttempts: int, binds: int -> bool) returns (outcome: Outcome, tried: seq<int>)
    ensures outcome.NothingTried? <==> maxAttempts <= 0
    ensures outcome.Bound? ==>
              && basePort <= outcome.port < basePort + maxAttempts
              && binds(outcome.port)
              && forall p :: basePort <= p < outcome.port ==> !binds(p)
    ensures outcome.LastPortFailed? ==>
              && 0 < maxAttempts
              && outcome.port == basePort + maxAttempts - 1
              && forall p :: basePort <= p < basePort + maxAttempts ==> !binds(p)
    ensures (exists p :: basePort <= p < basePort + maxAttempts && binds(p)) ==> outcome.Bound?
    ensures |tried| == match outcome
                       case Bound(port) => port - basePort + 1
                       case LastPortFailed(_) => maxAttempts
                       case NothingTried => 0
    ensures forall i :: 0 <= i < |tried| ==> tried[i] == basePort + i
  {
    tried := [];
    var port := basePort;
    while port < basePort + maxAttempts
      invariant basePort <= port
      invariant 0 < maxAttempts ==> port < basePort + maxAttempts
      invariant maxAttempts <= 0 ==> port == basePort
      invariant |tried| == port - basePort
      invariant forall i :: 0 <= i < |tried| ==> tried[i] == basePort + i
      invariant forall p :: basePort <= p < port ==> !binds(p)
      decreases basePort + maxAttempts - port
    {
      tried := tried + [port];
      if binds(port) {
        return Bound(port), tried;
      }
      if port < basePort + maxAttempts - 1 {
        port := port + 1;
        continue;
      }
      return LastPortFailed(port), tried;
    }
    return NothingTried, tried;
  }

  /** `try_create_osc_server`: the bound port, or the error it raises; the
      search starts at 8001 and tries 5 ports unless told otherwise. */
  method TryCreateOscServer(binds: int -> bool, basePort: int := OscBasePort, maxAttempts: int := DefaultMaxAttempts) returns (r: Result<int, StartupError>)
    ensures r.Ok? ==>
              && basePort <= r.value < basePort + maxAttempts && binds(r.value)
              && forall p :: basePort <= p < r.value ==> !binds(p)
    ensures r.Ok? <==> exists p :: basePort <= p < basePort + maxAttempts && binds(p)
    ensures r == Err(NoOscPort) <==> maxAttempts <= 0
    ensures r.Err? && 0 < maxAttempts ==> r == Err(PortInUse(basePort + maxAttempts - 1))
  {
    var outcome, _ := SearchPorts(basePort, maxAttempts, binds);
    match outcome
    case Bound(port) => r := Ok(port);
    case LastPortFailed(port) => r := Err(PortInUse(port));
    case NothingTried => r := Err(NoOscPort);
  }

  /** `try_create_websocket_server`: the bound port, or the error it raises;
      the search starts at 8081 and tries 5 ports unless told otherwise. */
  method TryCreateWebSocketServer(binds: int -> bool, basePort: int := WebSocketBasePort, maxAttempts: int := DefaultMaxAttempts) returns (r: Result<int, StartupError>)
    ensures r.Ok? ==>
              && basePort <= r.value < basePort + maxAttempts && binds(r.value)
              && forall p :: basePort <= p < r.value ==> !binds(p)
    ensures r.Ok? <==> exists p :: basePort <= p < basePort + maxAttempts && binds(p)
    ensures r == Err(NoWebSocketPort(basePort, basePort + maxAttempts - 1)) <==> maxAttempts <= 0
    ensures r.Err? && 0 < maxAttempts ==> r == Err(PortInUse(basePort + maxAttempts - 1))
  {
    var outcome, _ := SearchPorts(basePort, maxAttempts, binds);
    match outcome
    case Bound(port) => r := Ok(port);
    case LastPortFailed(port) => r := Err(PortInUse(port));
    case NothingTried => r := Err(NoWebSocketPort(basePort, basePort + maxAttempts - 1));
  }

  /** Start-up as `main` calls the searches, with their default ranges: the
      OSC server takes the first free port of 8001..8005 and the WebSocket
      server the first free port of 8081..8085; when none is free, start-up
      fails with the error of the range's last port. */
  method StartServers(oscBinds: int -> bool, webBinds: int -> bool)
    returns (r: Result<(int, int), StartupError>)
    ensures r.Ok? ==>
              && 8001 <= r.value.0 <= 8005 && oscBinds(r.value.0)
              && (forall p :: 8001 <= p < r.value.0 ==> !oscBinds(p))
              && 8081 <= r.value.1 <= 8085 && webBinds(r.value.1)
              && (forall p :: 8081 <= p < r.value.1 ==> !webBinds(p))
    ensures (forall p :: 8001 <= p <= 8005 ==> !oscBinds(p)) ==> r == Err(PortInUse(8005))
    ensures (exists p :: 8001 <= p <= 8005 && oscBinds(p)) && (forall p :: 8081 <= p <= 8085 ==> !webBinds(p))
            ==> r == Err(PortInUse(8085))
    ensures r.Ok? <==> (exists p :: 8001 <= p <= 8005 && oscBinds(p)) && (exists p :: 8081 <= p <= 8085 && webBinds(p))
  {
    var osc := TryCreateOscServer(oscBinds);
    if osc.Err? {
      return Err(osc.error);
    }
    var web := TryCreateWebSocketServer(webBinds);
    if web.Err? {
      return Err(web.error);
    }
    return Ok((osc.value, web.value));
  }
}
