/**
 * The UDP telemetry receiver (class UdpServerThread): per-datagram
 * acceptance and renaming, the time of the last valid datagram, and the two
 * silence checks that declare the stream down. The socket and the clocks
 * are inputs: a received datagram, a receive timeout, a timer tick, each
 * with the current time.
 */
module Telemetry {
  import opened Protocol
  import opened Wrappers
  import DataProcessing

  /** The renamed datagram handed to the cache: t, c, d, sc and the sender. */
  datatype Normalized = Normalized(timestamp: Json, packetCount: Json, data: Json, streamCount: Json, deviceIp: string)

  /** The dictionary form in which the cache receives a normalised datagram. */
  function AsDict(n: Normalized): map<string, Json>
  {
    map["timestamp" := n.timestamp, "packetCount" := n.packetCount, "data" := n.data,
        "streamCount" := n.streamCount, "device_ip" := JStr(n.deviceIp)]
  }

  /** What the receive loop does with one decoded datagram. */
  datatype Verdict =
    | Forward(n: Normalized) // emitted as a sample, stream marked up
    | Ignore                 // logged as lacking a required field
    | Halt                   // a TypeError escapes to line 301: the receive loop ends

  datatype Acceptance = Acceptance(verdict: Verdict, refreshed: bool)

  /** Python's `k in s` on strings: k occurs somewhere in s. */
  predicate IsSubstring(k: string, s: string)
  {
    k <= s || (s != [] && IsSubstring(k, s[1..]))
  }

  /**
   * Python's `key in v`: a key test on an object, a membership test on a
   * list, a substring test on a string, and a TypeError on anything else.
   */
  function Contains(v: Json, key: string): Option<bool>
  {
    match v
    case JObject(m) => Some(key in m)
    case JList(xs) => Some(JStr(key) in xs)
    case JStr(s) => Some(IsSubstring(key, s))
    case _ => None
  }

  /** all(key in v for key in ["t", "d", "c"]), None when the first test raises. */
  function HasRequiredKeys(v: Json): Option<bool>
  {
    match Contains(v, "t")
    case None => None
    case Some(false) => Some(false)
    case Some(true) =>
      match Contains(v, "d")
      case Some(false) => Some(false)
      case _ => Contains(v, "c")
  }

  /**
   * Lines 276-288: when the three keys are present the time of the last
   * valid datagram is refreshed first, then the fields are read by key,
   * which only an object supports.
   */
  function Accept(v: Json, addr: string): Acceptance
  {
    match HasRequiredKeys(v)
    case None => Acceptance(Halt, false)
    case Some(false) => Acceptance(Ignore, false)
    case Some(true) =>
      if v.JObject? then
        var m := v.fields;
        Acceptance(Forward(Normalized(m["t"], m["c"], m["d"], if "sc" in m then m["sc"] else JInt(0), addr)), true)
      else Acceptance(Halt, true)
  }

  /**
   * An object datagram is forwarded, and the last-data time refreshed,
   * exactly when it has t, d and c; the forwarded stream count is sc when
   * present and 0 otherwise.
   */
  lemma AcceptObject(m: map<string, Json>, addr: string)
    ensures var a := Accept(JObject(m), addr);
      (a.verdict.Forward? <==> "t" in m && "d" in m && "c" in m) &&
      (a.refreshed <==> a.verdict.Forward?) &&
      (!a.verdict.Forward? ==> a.verdict == Ignore)
    ensures var a := Accept(JObject(m), addr);
      a.verdict.Forward? ==>
        a.verdict.n == Normalized(m["t"], m["c"], m["d"], if "sc" in m then m["sc"] else JInt(0), addr)
  {
  }

  /** A datagram that is a bare number, boolean or null ends the receive loop. */
  lemma AcceptScalarHalts(v: Json, addr: string)
    requires v.JNull? || v.JBool? || v.JInt?
    ensures Accept(v, addr) == Acceptance(Halt, false)
  {
  }

  /**
   * A list holding the strings "t", "d" and "c" passes the key test,
   * refreshes the last-data time, then ends the receive loop.
   */
  lemma AcceptListWithKeyNames(xs: seq<Json>, addr: string)
    requires JStr("t") in xs && JStr("d") in xs && JStr("c") in xs
    ensures Accept(JList(xs), addr) == Acceptance(Halt, true)
  {
  }

  /**
   * A forwarded datagram whose d is a list of at least eight readings is
   * flattened by the cache with its packet counter and stream count kept.
   */
  lemma ForwardedFlattens(m: map<string, Json>, addr: string)
    requires "t" in m && "d" in m && "c" in m
    requires m["d"].JList? && |m["d"].items| >= 8
    ensures Accept(JObject(m), addr).verdict.Forward?
    ensures var d := AsDict(Accept(JObject(m), addr).verdict.n);
      var r := DataProcessing.Flatten(d);
      r.Success? && r.value.packetCount == m["c"] && r.value.timestamp == m["t"] &&
      r.value.streamCount == (if "sc" in m then m["sc"] else JInt(0)) &&
      r.value.channels == m["d"].items[..8]
  {
    var d := AsDict(Accept(JObject(m), addr).verdict.n);
    DataProcessing.FlattenList(d);
  }

  /** Silence long enough for the receive-timeout path (line 297) to report the stream down. */
  predicate SilentOnReceiveTimeout(now: real, lastDataTime: real)
  {
    now - lastDataTime > 10.0
  }

  /** Silence long enough for the periodic check (line 331) to report the stream down. */
  predicate SilentOnPeriodicCheck(now: real, lastDataTime: real)
  {
    now - lastDataTime > 5.0
  }

  /**
   * The periodic check reinforces the receive-timeout check: whenever the
   * latter reports the stream down the former does too, and a valid
   * datagram received at `now` silences both.
   */
  lemma PeriodicCheckReinforces(now: real, lastDataTime: real)
    ensures SilentOnReceiveTimeout(now, lastDataTime) ==> SilentOnPeriodicCheck(now, lastDataTime)
    ensures !SilentOnReceiveTimeout(now, now) && !SilentOnPeriodicCheck(now, now)
  {
  }

  datatype TelemetryEvent =
    | SpectralData(n: Normalized)
    | DataStatus(up: bool)
    | JsonParseError
    | ServerError

  class UdpReceiver {
    var running: bool
    var lastDataTime: real
    var events: seq<TelemetryEvent>

    constructor (now: real)
      ensures !running && lastDataTime == now && events == []
    {
      running := false;
      lastDataTime := now;
      events := [];
    }

    method Start()
      modifies this`running
      ensures running
    {
      running := true;
    }

    /**
     * One pass of the receive loop with a datagram: empty datagrams are
     * skipped, undecodable ones reported, decoded ones judged by Accept.
     * Returns false when the loop ends.
     */
    method OnDatagram(raw: seq<byte>, addr: string, now: real, parse: seq<byte> -> Option<Json>)
      returns (keepReceiving: bool)
      modifies this`lastDataTime, this`events
      ensures raw == [] ==> keepReceiving && lastDataTime == old(lastDataTime) && events == old(events)
      ensures raw != [] && parse(raw).None? ==>
        keepReceiving && lastDataTime == old(lastDataTime) && events == old(events) + [JsonParseError]
      ensures raw != [] && parse(raw).Some? ==>
        var a := Accept(parse(raw).value, addr);
        keepReceiving == !a.verdict.Halt? &&
        lastDataTime == (if a.refreshed then now else old(lastDataTime)) &&
        events == old(events) + match a.verdict
          case Forward(n) => [SpectralData(n), DataStatus(true)]
          case Ignore => []
          case Halt => if running then [ServerError] else []
    {
      if raw == [] {
        return true;
      }
      var decoded := parse(raw);
      if decoded.None? {
        events := events + [JsonParseError];
        return true;
      }
      var a := Accept(decoded.value, addr);
      if a.refreshed {
        lastDataTime := now;
      }
      match a.verdict {
        case Forward(n) =>
          events := events + [SpectralData(n), DataStatus(true)];
          keepReceiving := true;
        case Ignore =>
          keepReceiving := true;
        case Halt =>
          if running {
            events := events + [ServerError];
          }
          keepReceiving := false;
      }
    }

    /** The receive call timed out: report the stream down after 10 s of silence. */
    method OnReceiveTimeout(now: real)
      modifies this`events
      ensures events == old(events) + if SilentOnReceiveTimeout(now, lastDataTime) then [DataStatus(false)] else []
    {
      if now - lastDataTime > 10.0 {
        events := events + [DataStatus(false)];
      }
    }

    /** The 3-second timer (check_data_status): report the stream down after 5 s of silence. */
    method CheckDataStatus(now: real)
      modifies this`events
      ensures events == old(events) +
        if running && SilentOnPeriodicCheck(now, lastDataTime) then [DataStatus(false)] else []
    {
      if !running {
        return;
      }
      if now - lastDataTime > 5.0 {
        events := events + [DataStatus(false)];
      }
    }

    method Stop()
      modifies this`running
      ensures !running
    {
      running := false;
    }
  }
}
