/**
 * Wire-level vocabulary shared by the three device channels: bytes, the
 * JSON values the device sends, the flat key/value commands the controller
 * sends, and the protocol constants of Spectrometer_v2_PC.py (lines 17-24).
 */
module Protocol {

  newtype byte = x: int | 0 <= x < 256

  /** The line terminator of the status and command channels (b'\n'). */
  const NEWLINE: byte := 10

  const TCP_SERVER_PORT := 6677
  const UDP_SERVER_PORT := 6699
  const DEVICE_CMD_PORT := 6688
  /** Seconds between two heartbeats of the command channel. */
  const HEARTBEAT_INTERVAL := 20
  /** Capacity of the live sample cache. */
  const MAX_DATA_CACHE := 1000
  /** Smallest stream interval the device protocol accepts, in milliseconds. */
  const MIN_STREAM_INTERVAL := 400

  /**
   * A decoded JSON value. Floating-point numbers are not modelled: every
   * number is an integer.
   */
  datatype Json =
    | JNull
    | JBool(b: bool)
    | JInt(i: int)
    | JStr(s: string)
    | JList(items: seq<Json>)
    | JObject(fields: map<string, Json>)

  /** A value of an outgoing command; commands are flat key/value maps. */
  datatype CmdValue = CBool(b: bool) | CInt(n: int) | CStr(s: string)

  type Command = map<string, CmdValue>

  /** The heartbeat line written by send_heartbeat: {"type":"heartbeat"}. */
  const HEARTBEAT: Command := map["type" := CStr("heartbeat")]

  const LED_ON: Command := map["as7341Led" := CBool(true)]
  const LED_OFF: Command := map["as7341Led" := CBool(false)]
  const UV_ON: Command := map["uvLed" := CBool(true)]
  const UV_OFF: Command := map["uvLed" := CBool(false)]
  const GET_DEVICE_STATUS: Command := map["getDeviceStatus" := CBool(true)]
}
