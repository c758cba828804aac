/**
 * The status channel (class TcpServerThread): bytes from the one accepted
 * device connection are buffered, cut into newline-terminated lines in
 * order, and each non-empty line is decoded and dispatched on its "type".
 * Decoding (UTF-8 with errors ignored, strip, json.loads) is the injected
 * function `parse`; None stands for a JSONDecodeError.
 */
module StatusChannel {
  import opened Protocol
  import opened Wrappers

  datatype StatusEvent =
    | DeviceConnected(info: map<string, Json>)
    | DeviceStatus(status: map<string, Json>)
    | StreamComplete(info: map<string, Json>)
    | JsonParseError(line: seq<byte>)

  /** Index of the first newline in `s` (bytes.find(b'\n')). */
  function FirstNewline(s: seq<byte>): (i: nat)
    requires NEWLINE in s
    ensures i < |s| && s[i] == NEWLINE && NEWLINE !in s[..i]
  {
    if s[0] == NEWLINE then 0 else 1 + FirstNewline(s[1..])
  }

  /** A buffer cut into its complete lines (terminators dropped) and its unterminated tail. */
  datatype Framing = Framing(lines: seq<seq<byte>>, rest: seq<byte>)

  function Frame(buf: seq<byte>): Framing
    decreases |buf|
  {
    if NEWLINE !in buf then Framing([], buf)
    else
      var i := FirstNewline(buf);
      var tail := Frame(buf[i + 1..]);
      Framing([buf[..i]] + tail.lines, tail.rest)
  }

  /** The inverse of Frame: every line with its terminator, then the tail. */
  function Unframe(f: Framing): seq<byte>
    decreases |f.lines|
  {
    if f.lines == [] then f.rest
    else f.lines[0] + [NEWLINE] + Unframe(Framing(f.lines[1..], f.rest))
  }

  predicate NewlineFree(s: seq<byte>) { NEWLINE !in s }

  /** Framing loses nothing and reorders nothing: Unframe gives back the buffer. */
  lemma {:induction false} FrameUnframes(buf: seq<byte>)
    ensures Unframe(Frame(buf)) == buf
    decreases |buf|
  {
    if NEWLINE in buf {
      var i := FirstNewline(buf);
      var t := Frame(buf[i + 1..]);
      FrameUnframes(buf[i + 1..]);
      FrameStep(buf);
      UnframeCons(buf[..i], t.lines, t.rest);
      CutAt(buf, i);
    }
  }

  lemma UnframeCons(line: seq<byte>, lines: seq<seq<byte>>, rest: seq<byte>)
    ensures Unframe(Framing([line] + lines, rest)) == line + [NEWLINE] + Unframe(Framing(lines, rest))
  {
    assert ([line] + lines)[1..] == lines;
  }

  lemma CutAt(buf: seq<byte>, i: nat)
    requires i < |buf|
    ensures buf == buf[..i] + [buf[i]] + buf[i + 1..]
  {
  }

  /** The unterminated tail holds no newline. */
  lemma {:induction false} FrameRestIsFree(buf: seq<byte>)
    ensures NewlineFree(Frame(buf).rest)
    decreases |buf|
  {
    if NEWLINE in buf {
      var i := FirstNewline(buf);
      FrameRestIsFree(buf[i + 1..]);
      FrameStep(buf);
    }
  }

  /** No cut line holds a newline. */
  lemma {:induction false} FrameLinesAreFree(buf: seq<byte>)
    ensures forall j :: 0 <= j < |Frame(buf).lines| ==> NewlineFree(Frame(buf).lines[j])
    decreases |buf|
  {
    if NEWLINE in buf {
      var i := FirstNewline(buf);
      var t := Frame(buf[i + 1..]).lines;
      FrameLinesAreFree(buf[i + 1..]);
      FrameStep(buf);
      var lines := Frame(buf).lines;
      forall j | 0 <= j < |lines|
        ensures NewlineFree(lines[j])
      {
        if j > 0 {
          assert lines[j] == t[j - 1];
        }
      }
    }
  }

  lemma {:induction false} FirstNewlineAt(s: seq<byte>, k: nat)
    requires k < |s| && s[k] == NEWLINE && NEWLINE !in s[..k]
    ensures FirstNewline(s) == k
  {
    if k > 0 {
      assert s[0] == s[..k][0];
      assert s[1..][..k - 1] == s[..k][1..];
      FirstNewlineAt(s[1..], k - 1);
    }
  }

  /** The other direction: newline-free lines and tail are recovered from their concatenation. */
  lemma {:induction false} UnframeIsExact(f: Framing)
    requires NewlineFree(f.rest)
    requires forall j :: 0 <= j < |f.lines| ==> NewlineFree(f.lines[j])
    ensures Frame(Unframe(f)) == f
    decreases |f.lines|
  {
    if f.lines != [] {
      var a := f.lines[0];
      var g := Framing(f.lines[1..], f.rest);
      var s := Unframe(f);
      assert s == a + [NEWLINE] + Unframe(g);
      assert s[..|a|] == a && s[|a|] == NEWLINE;
      FirstNewlineAt(s, |a|);
      assert s[|a| + 1..] == Unframe(g);
      UnframeIsExact(g);
    }
  }

  /** dict.get('type') compared with a type name. */
  predicate HasType(m: map<string, Json>, name: string)
  {
    "type" in m && m["type"] == JStr(name)
  }

  /** The event a decoded object raises: one per known type, none otherwise. */
  function Classify(m: map<string, Json>): (r: seq<StatusEvent>)
    ensures |r| <= 1
    ensures r == [] <==> !HasType(m, "connection") && !HasType(m, "status") && !HasType(m, "stream_complete")
  {
    if HasType(m, "connection") then [DeviceConnected(m)]
    else if HasType(m, "status") then [DeviceStatus(m)]
    else if HasType(m, "stream_complete") then [StreamComplete(m)]
    else []
  }

  /** The events of a run of lines, and whether a line ended the connection. */
  datatype Processed = Processed(events: seq<StatusEvent>, aborted: bool)

  /**
   * A non-empty line that decodes to something other than an object makes
   * `json_data.get` raise AttributeError, which ends the handler (line 196).
   */
  predicate LineAborts(line: seq<byte>, parse: seq<byte> -> Option<Json>)
  {
    line != [] && parse(line).Some? && !parse(line).value.JObject?
  }

  /**
   * The events one line raises (lines 164-182): none for an empty line, a
   * parse error for an undecodable one, the classification of an object.
   */
  function LineEvents(line: seq<byte>, parse: seq<byte> -> Option<Json>): seq<StatusEvent>
  {
    if line == [] then []
    else match parse(line)
      case None => [JsonParseError(line)]
      case Some(JObject(m)) => Classify(m)
      case Some(_) => []
  }

  /**
   * A run of lines handled first to last; after a line that ends the
   * handler the remaining lines are left unprocessed.
   */
  function ProcessLines(lines: seq<seq<byte>>, parse: seq<byte> -> Option<Json>): Processed
  {
    if lines == [] then Processed([], false)
    else
      var p := ProcessLines(lines[..|lines| - 1], parse);
      var line := lines[|lines| - 1];
      if p.aborted then p
      else if LineAborts(line, parse) then Processed(p.events, true)
      else Processed(p.events + LineEvents(line, parse), false)
  }

  /** One cut of the framing: the first line, then the framing of what follows it. */
  lemma FrameStep(buf: seq<byte>)
    requires NEWLINE in buf
    ensures var i := FirstNewline(buf);
      Frame(buf).lines == [buf[..i]] + Frame(buf[i + 1..]).lines &&
      Frame(buf).rest == Frame(buf[i + 1..]).rest
  {
  }

  lemma ProcessSnoc(a: seq<seq<byte>>, line: seq<byte>, parse: seq<byte> -> Option<Json>)
    ensures ProcessLines(a + [line], parse) ==
      var p := ProcessLines(a, parse);
      if p.aborted then p
      else if LineAborts(line, parse) then Processed(p.events, true)
      else Processed(p.events + LineEvents(line, parse), false)
  {
    assert (a + [line])[..|a|] == a;
  }

  lemma SnocAssoc(a: seq<seq<byte>>, x: seq<byte>, b: seq<seq<byte>>)
    ensures a + ([x] + b) == (a + [x]) + b
  {
  }

  /** A run cut short by an aborting line: the rest of the framing is not handled. */
  lemma AbortedRun(total: Framing, done: seq<seq<byte>>, buf: seq<byte>, parse: seq<byte> -> Option<Json>)
    requires Cut(total, done, buf)
    requires ProcessLines(done, parse).aborted
    ensures ProcessLines(total.lines, parse) == ProcessLines(done, parse)
  {
    AbortIsFinal(done, Frame(buf).lines, parse);
  }

  /** A run that used up every complete line: the framing is exactly what was cut. */
  lemma FinishedRun(total: Framing, done: seq<seq<byte>>, buf: seq<byte>)
    requires NEWLINE !in buf
    requires Cut(total, done, buf)
    ensures total.lines == done && total.rest == buf
  {
    assert done + [] == done;
  }

  lemma EventsAssoc(a: seq<StatusEvent>, b: seq<StatusEvent>, c: seq<StatusEvent>)
    ensures (a + b) + c == a + (b + c)
  {
  }

  /**
   * The framing `total` of a buffer is the lines already cut, `done`,
   * followed by the framing of what is left, `buf`.
   */
  predicate Cut(total: Framing, done: seq<seq<byte>>, buf: seq<byte>)
  {
    total == Framing(done + Frame(buf).lines, Frame(buf).rest)
  }

  /** Cutting one more line off the buffer keeps the overall framing. */
  lemma FrameAdvance(total: Framing, done: seq<seq<byte>>, buf: seq<byte>)
    requires NEWLINE in buf
    requires Cut(total, done, buf)
    ensures var i := FirstNewline(buf); Cut(total, done + [buf[..i]], buf[i + 1..])
  {
    FrameStep(buf);
    var i := FirstNewline(buf);
    SnocAssoc(done, buf[..i], Frame(buf[i + 1..]).lines);
  }

  /** Handling one more line, seen from the events log that precedes the run. */
  lemma ProcessStep(before: seq<StatusEvent>, done: seq<seq<byte>>, line: seq<byte>, parse: seq<byte> -> Option<Json>)
    requires !ProcessLines(done, parse).aborted
    ensures var p := ProcessLines(done + [line], parse);
      p.aborted == LineAborts(line, parse) &&
      (p.aborted ==> p.events == ProcessLines(done, parse).events) &&
      before + p.events == (before + ProcessLines(done, parse).events) + LineEvents(line, parse)
  {
    ProcessSnoc(done, line, parse);
    if !LineAborts(line, parse) {
      EventsAssoc(before, ProcessLines(done, parse).events, LineEvents(line, parse));
    } else {
      assert LineEvents(line, parse) == [];
    }
  }

  /** Once a line has ended the handler, later lines change nothing. */
  lemma {:induction false} AbortIsFinal(a: seq<seq<byte>>, b: seq<seq<byte>>, parse: seq<byte> -> Option<Json>)
    requires ProcessLines(a, parse).aborted
    ensures ProcessLines(a + b, parse) == ProcessLines(a, parse)
    decreases |b|
  {
    if b != [] {
      var b', last := b[..|b| - 1], b[|b| - 1];
      assert b == b' + [last];
      AbortIsFinal(a, b', parse);
      assert a + b == (a + b') + [last];
      ProcessSnoc(a + b', last, parse);
    } else {
      assert a + b == a;
    }
  }

  /**
   * Lines are handled in order: the events of a + b are those of a followed
   * by those of b, unless a ended the handler.
   */
  lemma {:induction false} ProcessInOrder(a: seq<seq<byte>>, b: seq<seq<byte>>, parse: seq<byte> -> Option<Json>)
    requires !ProcessLines(a, parse).aborted
    ensures ProcessLines(a + b, parse).events == ProcessLines(a, parse).events + ProcessLines(b, parse).events
    ensures ProcessLines(a + b, parse).aborted == ProcessLines(b, parse).aborted
    decreases |b|
  {
    if b == [] {
      assert a + b == a;
    } else {
      var b', last := b[..|b| - 1], b[|b| - 1];
      assert b == b' + [last];
      assert a + b == (a + b') + [last];
      ProcessInOrder(a, b', parse);
      ProcessSnoc(a + b', last, parse);
      ProcessSnoc(b', last, parse);
      var pa, pb := ProcessLines(a, parse), ProcessLines(b', parse);
      if !pb.aborted && !LineAborts(last, parse) {
        EventsAssoc(pa.events, pb.events, LineEvents(last, parse));
      }
    }
  }

  /** An empty line produces no event. */
  lemma EmptyLineIsSilent(a: seq<seq<byte>>, parse: seq<byte> -> Option<Json>)
    ensures ProcessLines(a + [[]], parse) == ProcessLines(a, parse)
  {
    ProcessSnoc(a, [], parse);
  }

  class StatusServer {
    var running: bool
    var clientPresent: bool
    var buffer: seq<byte>
    var events: seq<StatusEvent>

    constructor ()
      ensures !running && !clientPresent && buffer == [] && events == []
    {
      running := false;
      clientPresent := false;
      buffer := [];
      events := [];
    }

    /** A device connection was accepted (lines 89-98). */
    method AcceptClient()
      modifies this`clientPresent
      ensures clientPresent
    {
      clientPresent := true;
    }

    /**
     * client_disconnect: with a client present, forget it and empty the
     * buffer; without one, nothing happens.
     */
    method ClientDisconnect()
      modifies this`clientPresent, this`buffer
      ensures !clientPresent
      ensures buffer == if old(clientPresent) then [] else old(buffer)
    {
      if clientPresent {
        clientPresent := false;
        buffer := [];
      }
    }

    /**
     * One recv of handle_client. Empty data is the peer closing: the
     * handler ends and the client is dropped without an event. Otherwise
     * the data is appended and every complete line is consumed; returns
     * false when a line ended the handler, which then drops the client.
     */
    method OnRecv(data: seq<byte>, parse: seq<byte> -> Option<Json>) returns (keepReading: bool)
      requires clientPresent
      modifies this`buffer, this`events, this`clientPresent
      ensures data == [] ==> !keepReading && !clientPresent && buffer == [] && events == old(events)
      ensures data != [] ==>
        var f := Frame(old(buffer) + data);
        var p := ProcessLines(f.lines, parse);
        keepReading == !p.aborted && events == old(events) + p.events &&
        (keepReading ==> clientPresent && buffer == f.rest) &&
        (!keepReading ==> !clientPresent && buffer == [])
    {
      if data == [] {
        ClientDisconnect();
        return false;
      }
      buffer := buffer + data;
      keepReading := ConsumeLines(parse);
    }

    /**
     * The inner loop of handle_client: cut and handle complete lines until
     * none is left or one ends the handler, which then drops the client.
     */
    method ConsumeLines(parse: seq<byte> -> Option<Json>) returns (keepReading: bool)
      requires clientPresent
      modifies this`buffer, this`events, this`clientPresent
      ensures var f := Frame(old(buffer));
        var p := ProcessLines(f.lines, parse);
        keepReading == !p.aborted && events == old(events) + p.events &&
        (keepReading ==> clientPresent && buffer == f.rest) &&
        (!keepReading ==> !clientPresent && buffer == [])
    {
      ghost var done: seq<seq<byte>> := [];
      ghost var total := Frame(buffer);
      ghost var before := events;
      while NEWLINE in buffer
        invariant clientPresent
        invariant Cut(total, done, buffer)
        invariant !ProcessLines(done, parse).aborted
        invariant events == before + ProcessLines(done, parse).events
        decreases |buffer|
      {
        var aborted;
        aborted, done := CutLine(total, done, before, parse);
        if aborted {
          AbortedRun(total, done, buffer, parse);
          ClientDisconnect();
          return false;
        }
      }
      FinishedRun(total, done, buffer);
      return true;
    }

    /** One pass of the inner loop: cut the first line off the buffer and handle it. */
    method CutLine(ghost total: Framing, ghost done: seq<seq<byte>>, ghost before: seq<StatusEvent>,
                   parse: seq<byte> -> Option<Json>)
      returns (aborted: bool, ghost done': seq<seq<byte>>)
      requires NEWLINE in buffer
      requires Cut(total, done, buffer)
      requires !ProcessLines(done, parse).aborted
      requires events == before + ProcessLines(done, parse).events
      modifies this`buffer, this`events
      ensures |buffer| < |old(buffer)|
      ensures Cut(total, done', buffer)
      ensures aborted == ProcessLines(done', parse).aborted
      ensures events == before + ProcessLines(done', parse).events
    {
      var lineEnd := FirstNewline(buffer);
      var line := buffer[..lineEnd];
      FrameAdvance(total, done, buffer);
      ProcessStep(before, done, line, parse);
      buffer := buffer[lineEnd + 1..];
      done' := done + [line];
      aborted := DispatchLine(line, parse);
    }

    /** Lines 164-182 for one cut line; returns true when `.get` raises. */
    method DispatchLine(line: seq<byte>, parse: seq<byte> -> Option<Json>) returns (aborted: bool)
      modifies this`events
      ensures aborted == LineAborts(line, parse)
      ensures events == old(events) + LineEvents(line, parse)
    {
      aborted := false;
      if line != [] {
        var decoded := parse(line);
        if decoded.None? {
          events := events + [JsonParseError(line)];
        } else if decoded.value.JObject? {
          var m := decoded.value.fields;
          if HasType(m, "connection") {
            events := events + [DeviceConnected(m)];
          } else if HasType(m, "status") {
            events := events + [DeviceStatus(m)];
          } else if HasType(m, "stream_complete") {
            events := events + [StreamComplete(m)];
          }
        } else {
          aborted := true;
        }
      }
    }

    /** stop: clear the running flag and drop the client. */
    method Stop()
      modifies this`running, this`clientPresent, this`buffer
      ensures !running && !clientPresent
      ensures buffer == if old(clientPresent) then [] else old(buffer)
    {
      running := false;
      ClientDisconnect();
    }
  }

  /** After a pass that keeps reading, the buffer holds no newline. */
  lemma BufferHasNoNewline(old_buffer: seq<byte>, data: seq<byte>)
    ensures NewlineFree(Frame(old_buffer + data).rest)
    ensures Unframe(Frame(old_buffer + data)) == old_buffer + data
  {
    FrameUnframes(old_buffer + data);
    FrameRestIsFree(old_buffer + data);
  }
}
