/**
 * The stream-control commands the window builds for the device: the
 * interval request with its minimum (set_stream_interval) and the combined
 * "stream on, paused" request of toggle_data_stream.
 */
module StreamControl {
  import opened Protocol

  /** current_stream_mode: "continuous" or "fixed". */
  datatype StreamMode = Continuous | Fixed

  function ModeName(m: StreamMode): string
  {
    match m
    case Continuous => "continuous"
    case Fixed => "fixed"
  }

  /** What set_stream_interval does with the value of the interval spin box. */
  datatype IntervalRequest =
    | IntervalNotConnected          // warning, nothing sent
    | IntervalTooSmall(resetTo: int) // warning, spin box reset to the minimum
    | SendInterval(cmd: Command)     // handed to send_cmd

  function RequestInterval(connected: bool, interval: int): IntervalRequest
  {
    if !connected then IntervalNotConnected
    else if interval < MIN_STREAM_INTERVAL then IntervalTooSmall(MIN_STREAM_INTERVAL)
    else SendInterval(map["streamInterval" := CInt(interval)])
  }

  /**
   * A request is sent exactly when the command client is connected and the
   * interval is at least the minimum; what is sent is that interval alone.
   * A too small value puts the spin box back to the minimum.
   */
  lemma IntervalGuard(connected: bool, interval: int)
    ensures var r := RequestInterval(connected, interval);
      (r.SendInterval? <==> connected && interval >= MIN_STREAM_INTERVAL) &&
      (r.SendInterval? ==> r.cmd.Keys == {"streamInterval"} && r.cmd["streamInterval"] == CInt(interval)) &&
      (r.IntervalTooSmall? <==> connected && interval < MIN_STREAM_INTERVAL) &&
      (r.IntervalTooSmall? ==> r.resetTo == MIN_STREAM_INTERVAL)
  {
  }

  /**
   * The request that turns the stream on and pauses it at once; the target
   * count is added only in fixed mode.
   */
  function StreamOnCommand(mode: StreamMode, interval: int, target: int): Command
  {
    var base := map["dataStream" := CBool(true), "streamPause" := CBool(true),
                    "streamMode" := CStr(ModeName(mode)), "streamInterval" := CInt(interval)];
    if mode == Fixed then base["streamCount" := CInt(target)] else base
  }

  const STREAM_OFF: Command := map["dataStream" := CBool(false)]

  /**
   * The stream-on request always asks for a paused stream with the chosen
   * mode and interval, and carries streamCount if and only if the mode is
   * fixed.
   */
  lemma StreamOnShape(mode: StreamMode, interval: int, target: int)
    ensures var cmd := StreamOnCommand(mode, interval, target);
      cmd["dataStream"] == CBool(true) && cmd["streamPause"] == CBool(true) &&
      cmd["streamMode"] == CStr(ModeName(mode)) && cmd["streamInterval"] == CInt(interval) &&
      ("streamCount" in cmd <==> mode == Fixed) &&
      (mode == Fixed ==> cmd["streamCount"] == CInt(target)) &&
      cmd.Keys <= {"dataStream", "streamPause", "streamMode", "streamInterval", "streamCount"}
  {
  }

  /** A command either carries no stream interval or carries one of at least the minimum. */
  predicate IntervalAllowed(cmd: Command)
  {
    "streamInterval" in cmd ==> cmd["streamInterval"].CInt? && cmd["streamInterval"].n >= MIN_STREAM_INTERVAL
  }

  /**
   * No interval below the minimum reaches the device: set_stream_interval
   * checks it, toggle_data_stream takes it from a spin box whose range starts
   * at the minimum, and the other commands carry no interval at all.
   */
  lemma SentIntervalIsAllowed(connected: bool, requested: int, mode: StreamMode, spinValue: int, target: int)
    requires MIN_STREAM_INTERVAL <= spinValue
    ensures RequestInterval(connected, requested).SendInterval? ==> IntervalAllowed(RequestInterval(connected, requested).cmd)
    ensures IntervalAllowed(StreamOnCommand(mode, spinValue, target)) && IntervalAllowed(STREAM_OFF)
    ensures IntervalAllowed(LED_ON) && IntervalAllowed(LED_OFF) && IntervalAllowed(UV_ON) && IntervalAllowed(UV_OFF)
    ensures IntervalAllowed(GET_DEVICE_STATUS) && IntervalAllowed(HEARTBEAT)
    ensures forall b: bool :: IntervalAllowed(map["streamPause" := CBool(b)])
  {
  }
}
