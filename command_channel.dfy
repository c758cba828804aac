/**
 * The command channel (class TcpClientThread): the controller connects to
 * the device's command port, writes newline-terminated JSON commands,
 * sends a heartbeat when the last one is old enough, and drops the link
 * when the last heartbeat is older than the timeout. One pass of the run
 * loop is one call of Iteration; the clock reading and every socket
 * outcome are inputs.
 */
module CommandChannel {
  import opened Protocol

  /** heartbeat_timeout as set by the constructor, in seconds. */
  const HEARTBEAT_TIMEOUT: real := 10.0

  /** What the client reports to the window (its Qt signals). */
  datatype ClientEvent =
    | Established          // connection_established_signal
    | ClientStatus(up: bool)
    | HeartbeatSent
    | Response(text: string)
    | SendError

  /** How the connect attempt of a reconnecting pass ends. */
  datatype ConnectOutcome =
    | Connected
    | ConnectTimeout       // socket.timeout, line 438
    | Refused              // ConnectionRefusedError, line 441
    | ConnectError         // any other exception, line 445

  /** How the non-blocking recv of a connected pass ends. */
  datatype RecvOutcome =
    | Received(raw: seq<byte>)
    | RecvTimeout
    | RecvError

  /** The heartbeat and timeout decisions of one pass (lines 403-418). */
  datatype Phase = Phase(sent: bool, last: real, timedOut: bool)

  /**
   * First the heartbeat: due once `interval` seconds have passed since the
   * last one, and the reference time moves to `now` only when it was
   * written. Then the timeout, measured from the possibly updated time.
   */
  function HeartbeatPhase(now: real, last: real, interval: real, timeout: real, sendOk: bool): Phase
  {
    var sent := now - last >= interval && sendOk;
    var last' := if sent then now else last;
    Phase(sent, last', now - last' > timeout)
  }

  /** A heartbeat written in a pass resets the reference time, so that pass cannot time out. */
  lemma HeartbeatPreventsTimeout(now: real, last: real, interval: real, timeout: real, sendOk: bool)
    requires timeout >= 0.0
    ensures var p := HeartbeatPhase(now, last, interval, timeout, sendOk);
      p.sent ==> p.last == now && !p.timedOut
  {
  }

  /** Without a heartbeat in the pass, more than `timeout` seconds of silence drop the link. */
  lemma SilenceTimesOut(now: real, last: real, interval: real, timeout: real, sendOk: bool)
    ensures var p := HeartbeatPhase(now, last, interval, timeout, sendOk);
      !p.sent ==> (p.timedOut <==> now - last > timeout) && p.last == last
  {
  }

  /**
   * With the constants as written, a heartbeat that fails to go out always
   * ends in the timeout of the same pass: 20 seconds of silence exceed 10.
   */
  lemma FailedHeartbeatTimesOut(now: real, last: real)
    requires now - last >= HEARTBEAT_INTERVAL as real
    ensures HeartbeatPhase(now, last, HEARTBEAT_INTERVAL as real, HEARTBEAT_TIMEOUT, false).timedOut
  {
  }

  /** Which decision comes first over successive passes of a link that stays up. */
  datatype Watch = Quiet | BeatFirst | DropFirst

  /**
   * The passes at clock readings `times`, each heartbeat succeeding: the
   * first pass that writes a heartbeat or times out decides.
   */
  function Watchdog(times: seq<real>, last: real, interval: real, timeout: real): Watch
  {
    if times == [] then Quiet
    else
      var p := HeartbeatPhase(times[0], last, interval, timeout, true);
      if p.sent then BeatFirst
      else if p.timedOut then DropFirst
      else Watchdog(times[1..], last, interval, timeout)
  }

  /** Clock readings that never jump by `step` seconds or more. */
  predicate SmallSteps(times: seq<real>, step: real)
  {
    forall i :: 0 <= i < |times| - 1 ==> times[i + 1] - times[i] < step
  }

  /**
   * As written, the heartbeat never gets its turn: when the readings after
   * a heartbeat advance by less than 10 s per pass and eventually pass
   * 10 s of silence, the link is dropped before a heartbeat is due.
   */
  lemma {:induction false} DropBeforeBeat(times: seq<real>, last: real)
    requires times != [] && times[0] - last < HEARTBEAT_INTERVAL as real
    requires SmallSteps(times, HEARTBEAT_INTERVAL as real - HEARTBEAT_TIMEOUT)
    requires times[|times| - 1] - last > HEARTBEAT_TIMEOUT
    ensures Watchdog(times, last, HEARTBEAT_INTERVAL as real, HEARTBEAT_TIMEOUT) == DropFirst
  {
    var p := HeartbeatPhase(times[0], last, HEARTBEAT_INTERVAL as real, HEARTBEAT_TIMEOUT, true);
    if !p.timedOut {
      assert |times| > 1;
      assert times[1] - times[0] < HEARTBEAT_INTERVAL as real - HEARTBEAT_TIMEOUT;
      var rest := times[1..];
      assert rest[|rest| - 1] == times[|times| - 1];
      assert SmallSteps(rest, HEARTBEAT_INTERVAL as real - HEARTBEAT_TIMEOUT) by {
        forall i | 0 <= i < |rest| - 1
          ensures rest[i + 1] - rest[i] < HEARTBEAT_INTERVAL as real - HEARTBEAT_TIMEOUT
        {
          assert rest[i] == times[i + 1] && rest[i + 1] == times[i + 2];
        }
      }
      DropBeforeBeat(rest, last);
    }
  }

  /** Passes at 0, 8 and 15 s after a heartbeat: the third drops the link, five seconds before the next heartbeat is due. */
  lemma DropsAfterFifteenSeconds()
    ensures Watchdog([0.0, 8.0, 15.0], 0.0, HEARTBEAT_INTERVAL as real, HEARTBEAT_TIMEOUT) == DropFirst
  {
    DropBeforeBeat([0.0, 8.0, 15.0], 0.0);
  }

  /**
   * The intended relation: with a timeout longer than the interval and
   * readings that advance by at most the difference per pass, a heartbeat
   * always comes before the link is dropped.
   */
  lemma {:induction false} BeatBeforeDrop(times: seq<real>, last: real, interval: real, timeout: real)
    requires interval < timeout
    requires times != [] ==> times[0] - last <= timeout
    requires SmallSteps(times, timeout - interval)
    ensures Watchdog(times, last, interval, timeout) != DropFirst
  {
    if times != [] {
      var p := HeartbeatPhase(times[0], last, interval, timeout, true);
      if !p.sent && |times| > 1 {
        var rest := times[1..];
        assert times[0] - last < interval;
        assert times[1] - times[0] < timeout - interval;
        assert SmallSteps(rest, timeout - interval) by {
          forall i | 0 <= i < |rest| - 1
            ensures rest[i + 1] - rest[i] < timeout - interval
          {
            assert rest[i] == times[i + 1] && rest[i + 1] == times[i + 2];
          }
        }
        BeatBeforeDrop(rest, last, interval, timeout);
      }
    }
  }

  /** The responses a pass reports: the decoded, stripped reply when it is non-empty. */
  function RecvEvents(recv: RecvOutcome, decode: seq<byte> -> string): seq<ClientEvent>
  {
    match recv
    case Received(raw) =>
      if raw == [] || decode(raw) == [] then [] else [Response(decode(raw))]
    case _ => []
  }

  class CommandClient {
    var running: bool
    var connected: bool
    var socketPresent: bool
    var reconnectCount: nat
    var lastHeartbeatTime: real
    /** The commands written to the socket, heartbeats included, in order. */
    var written: seq<Command>
    var events: seq<ClientEvent>

    /** A link is only ever marked connected while its socket exists. */
    ghost predicate Valid()
      reads this
    {
      connected ==> socketPresent
    }

    constructor ()
      ensures Valid()
      ensures !running && !connected && !socketPresent && reconnectCount == 0
      ensures lastHeartbeatTime == 0.0 && written == [] && events == []
    {
      running := false;
      connected := false;
      socketPresent := false;
      reconnectCount := 0;
      lastHeartbeatTime := 0.0;
      written := [];
      events := [];
    }

    /** The start of run: the loop is on and the attempt counter is reset. */
    method Start()
      modifies this`running, this`reconnectCount
      ensures running && reconnectCount == 0
    {
      running := true;
      reconnectCount := 0;
    }

    /** close_socket: the socket is dropped, and the link with it, in every case. */
    method CloseSocket()
      modifies this`socketPresent, this`connected
      ensures !socketPresent && !connected
    {
      if socketPresent {
        socketPresent := false;
      }
      connected := false;
    }

    /**
     * send_heartbeat: refused without a link or a socket; a failed write
     * drops the link.
     */
    method SendHeartbeat(sendOk: bool) returns (ok: bool)
      modifies this`connected, this`written
      ensures ok <==> old(connected) && socketPresent && sendOk
      ensures written == old(written) + if ok then [HEARTBEAT] else []
      ensures connected == (old(connected) && (!socketPresent || sendOk))
    {
      if !connected || !socketPresent {
        return false;
      }
      if sendOk {
        written := written + [HEARTBEAT];
        return true;
      }
      connected := false;
      return false;
    }

    /**
     * send_cmd: nothing is written and an error is reported unless the
     * client is running and connected; a failed write also drops the link.
     */
    method SendCmd(cmd: Command, sendOk: bool) returns (ok: bool)
      modifies this`connected, this`written, this`events
      ensures ok <==> running && old(connected) && sendOk
      ensures written == old(written) + if ok then [cmd] else []
      ensures events == old(events) + if ok then [] else [SendError]
      ensures connected == (old(connected) && (!running || sendOk))
    {
      if !running || !connected {
        events := events + [SendError];
        return false;
      }
      if sendOk {
        written := written + [cmd];
        return true;
      }
      events := events + [SendError];
      connected := false;
      return false;
    }

    /** is_connected: running, marked connected, and holding a socket. */
    method IsConnected() returns (up: bool)
      ensures up <==> running && connected && socketPresent
    {
      up := running && connected && socketPresent;
    }

    /** stop: the loop is switched off and the socket closed. */
    method Stop()
      modifies this`running, this`socketPresent, this`connected
      ensures !running && !socketPresent && !connected
    {
      running := false;
      CloseSocket();
    }

    /**
     * One pass of the run loop. A pass without a link counts an attempt,
     * replaces the socket and connects; a failed attempt closes the socket
     * at the end of the pass. A pass with a link (old or new) takes the
     * heartbeat decision, then the timeout decision, then one recv. A
     * timeout or a recv error leaves the pass early, with the link down and
     * the socket still open; the next pass closes it before reconnecting.
     */
    method Iteration(now: real, connect: ConnectOutcome, sendOk: bool, recv: RecvOutcome,
                     decode: seq<byte> -> string)
      requires running && Valid()
      modifies this`connected, this`socketPresent, this`reconnectCount, this`lastHeartbeatTime,
               this`written, this`events
      ensures Valid()
      ensures !old(connected) && !connect.Connected? ==>
        !connected && !socketPresent && reconnectCount == old(reconnectCount) + 1 &&
        lastHeartbeatTime == old(lastHeartbeatTime) && written == old(written) && events == old(events)
      ensures !old(connected) && connect.Connected? ==>
        reconnectCount == 0 && lastHeartbeatTime == now && socketPresent &&
        connected == !recv.RecvError? && written == old(written) &&
        events == old(events) + [Established, ClientStatus(true)] + RecvEvents(recv, decode)
      ensures old(connected) ==>
        var p := HeartbeatPhase(now, old(lastHeartbeatTime), HEARTBEAT_INTERVAL as real, HEARTBEAT_TIMEOUT, sendOk);
        reconnectCount == old(reconnectCount) && lastHeartbeatTime == p.last && socketPresent &&
        connected == (!p.timedOut && !recv.RecvError?) &&
        written == old(written) + (if p.sent then [HEARTBEAT] else []) &&
        events == old(events) + (if p.sent then [HeartbeatSent] else []) +
                  (if p.timedOut then [] else RecvEvents(recv, decode))
    {
      if !connected {
        reconnectCount := reconnectCount + 1;
        CloseSocket();
        socketPresent := true;
        if !connect.Connected? {
          // the exception handlers mark the link down; the end of the pass closes the socket
          connected := false;
          CloseSocket();
          return;
        }
        connected := true;
        reconnectCount := 0;
        lastHeartbeatTime := now;
        events := events + [Established, ClientStatus(true)];
      }
      var current := now;
      if current - lastHeartbeatTime >= HEARTBEAT_INTERVAL as real {
        var ok := SendHeartbeat(sendOk);
        if ok {
          lastHeartbeatTime := current;
          events := events + [HeartbeatSent];
        }
      }
      if current - lastHeartbeatTime > HEARTBEAT_TIMEOUT {
        connected := false;
        return;
      }
      match recv {
        case Received(raw) =>
          if raw != [] {
            var response := decode(raw);
            if response != [] {
              events := events + [Response(response)];
            }
          }
        case RecvTimeout =>
        case RecvError =>
          connected := false;
          return;
      }
    }
  }
}
