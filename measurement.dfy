/**
 * The measurement orchestrator of the main window (SpectrometerUpperPC): a
 * run switches the LED and UV lamps through three phases, collects five
 * readings from the live cache in each, and stores the run in the timed
 * session.
 *
 * Every QTimer.singleShot callback is a pending Step; Fire runs one of
 * them. Commands handed to send_cmd and the calls into helpers the file
 * does not define are appended to an effect log. The sample cache is passed
 * to each callback as it stands when the callback runs.
 */
module Measurement {
  import opened Protocol
  import opened Wrappers
  import opened DataProcessing
  import opened MeasurementRecords
  import opened StreamControl
  import Telemetry

  /** Readings per phase (measurement_target). */
  const MEASUREMENT_TARGET: nat := 5
  /** Retries of the LED-only collector before it gives up. */
  const MAX_RETRIES: nat := 10
  /** Seconds between two status queries. */
  const STATUS_QUERY_INTERVAL: real := 10.0

  /** measurement_state: "idle", "led_only", "uv_only" or "led_uv". */
  datatype Stage = Idle | LedOnly | UvOnly | LedUv

  /** A callback scheduled with QTimer.singleShot. */
  datatype Step =
    | StartLedOnly                                      // start_led_only_measurement, 2493
    | BeginLedOnly                                      // begin_led_only_data_collection
    | Collect(phase: Phase, watermark: Json, retry: nat) // collect_measurement_data
    | StartUvOnly                                       // start_uv_only_measurement
    | BeginUvOnly                                       // start_uv_only_collection
    | CollectUvOnly
    | StartLedUv                                        // start_led_uv_measurement
    | BeginLedUv                                        // start_led_uv_collection
    | CollectLedUv

  datatype Scheduled = Scheduled(delayMs: nat, step: Step)

  datatype Effect =
    | Send(cmd: Command)                                  // tcp_client.send_cmd
    | PauseStream                                         // pause_data_stream_for_measurement
    | ResumeStream                                        // resume_data_stream_after_measurement
    | SaveMeasurementData                                 // save_measurement_data
    | WriteSessionFile(rows: seq<Row>)                    // save_measurement_to_csv
    | Plot(led: seq<Average>, uv: seq<Average>, both: seq<Average>) // update_single_measurement_plot

  /** spectral_cache[-1].get("packetCount", 0), or 0 for an empty cache. */
  function LatestPacketCount(cache: seq<Sample>): Json
  {
    if cache == [] then JInt(0) else cache[|cache| - 1].packetCount
  }

  /** Python's x < y on strings: code point by code point, a proper prefix first. */
  predicate StrLess(x: string, y: string)
  {
    y != [] && (x == [] || (if x[0] != y[0] then x[0] < y[0] else StrLess(x[1..], y[1..])))
  }

  /**
   * Python's a > b on two packet counters: numbers (booleans count as 0
   * and 1) and strings compare; any other pair raises TypeError (None).
   */
  function Greater(a: Json, b: Json): Option<bool>
  {
    if a.JStr? && b.JStr? then Some(StrLess(b.s, a.s))
    else if Numeric(a).Some? && Numeric(b).Some? then Some(Numeric(a).value > Numeric(b).value)
    else None
  }

  lemma {:induction false} StrLessIrreflexive(x: string)
    ensures !StrLess(x, x)
  {
    if x != [] {
      StrLessIrreflexive(x[1..]);
    }
  }

  /** A counter is never greater than itself: the same packet is never taken as new. */
  lemma GreaterIsStrict(a: Json)
    ensures Greater(a, a) != Some(true)
  {
    if a.JStr? {
      StrLessIrreflexive(a.s);
    }
  }

  /** The reading a fixed-tick collector takes: the newest cached record, if any. */
  function Sampled(cache: seq<Sample>, p: Phase, index: nat): (r: seq<Reading>)
    ensures |r| <= 1 && (r != [] <==> cache != [])
    ensures r != [] ==> r[0].sample == cache[|cache| - 1] && r[0].phase == p && r[0].index == index
  {
    if cache == [] then [] else [Reading(cache[|cache| - 1], p, index)]
  }

  /** What cancel_measurement_sequence hands out: both lamps off, then the stream resumed if it is on. */
  function CancelEffects(streamActive: bool): seq<Effect>
  {
    [Send(LED_OFF), Send(UV_OFF)] + if streamActive then [ResumeStream] else []
  }

  /** finish_measurement_stage gives the run up: a timeout with nothing collected in the phase. */
  predicate GivesUp(timedOut: bool, collected: seq<Reading>)
  {
    timedOut && collected == []
  }

  /** The lamps switched off when a phase ends. */
  function LampsOff(p: Phase): seq<Effect>
  {
    match p
    case LedPhase => [Send(LED_OFF)]
    case UvPhase => [Send(UV_OFF)]
    case LedUvPhase => [Send(LED_OFF), Send(UV_OFF)]
  }

  /** The effects of finish_measurement_stage. */
  function FinishEffects(p: Phase, timedOut: bool, collected: seq<Reading>, streamActive: bool): seq<Effect>
  {
    if GivesUp(timedOut, collected) then LampsOff(p) + CancelEffects(streamActive)
    else if p == LedUvPhase then LampsOff(p) + [SaveMeasurementData] + (if streamActive then [ResumeStream] else [])
    else LampsOff(p)
  }

  /** The callback finish_measurement_stage schedules, if any. */
  function FinishNext(p: Phase, timedOut: bool, collected: seq<Reading>): seq<Scheduled>
  {
    if GivesUp(timedOut, collected) || p == LedUvPhase then []
    else [Scheduled(1000, if p == LedPhase then StartUvOnly else StartLedUv)]
  }

  /** measurement_state after finish_measurement_stage. */
  function FinishStage(p: Phase, timedOut: bool, collected: seq<Reading>, s: Stage): Stage
  {
    if GivesUp(timedOut, collected) || p == LedUvPhase then Idle else s
  }

  /**
   * The end of the LED-only phase: the LED is always switched off first; a
   * timeout with no reading cancels the run (both lamps off, idle, nothing
   * scheduled) and otherwise, timeout or not, the UV-only phase follows.
   */
  lemma FinishLedOnly(timedOut: bool, collected: seq<Reading>, streamActive: bool, s: Stage)
    ensures FinishEffects(LedPhase, timedOut, collected, streamActive)[0] == Send(LED_OFF)
    ensures GivesUp(timedOut, collected) ==>
      FinishEffects(LedPhase, timedOut, collected, streamActive) == [Send(LED_OFF)] + CancelEffects(streamActive) &&
      FinishNext(LedPhase, timedOut, collected) == [] && FinishStage(LedPhase, timedOut, collected, s) == Idle
    ensures !GivesUp(timedOut, collected) ==>
      FinishEffects(LedPhase, timedOut, collected, streamActive) == [Send(LED_OFF)] &&
      FinishNext(LedPhase, timedOut, collected) == [Scheduled(1000, StartUvOnly)] &&
      FinishStage(LedPhase, timedOut, collected, s) == s
    ensures forall e :: e in FinishEffects(LedPhase, timedOut, collected, streamActive) ==> !e.WriteSessionFile?
  {
  }

  lemma EffectsAssoc(a: seq<Effect>, b: seq<Effect>, c: seq<Effect>)
    ensures (a + b) + c == a + (b + c)
  {
  }

  /** Every pending collector works for the LED-only phase. */
  /** The closing save of toggle_timer_measurement: the session file is written only when runs are stored. */
  function SessionSave(session: Option<seq<MeasurementRecord>>): seq<Effect>
  {
    if session.Some? && session.value != [] then [WriteSessionFile(SessionRows(session.value))] else []
  }

  predicate LedCollectorsOnly(pending: seq<Scheduled>)
  {
    forall k :: 0 <= k < |pending| && pending[k].step.Collect? ==> pending[k].step.phase == LedPhase
  }

  /** after keeps every callback of before and adds at most one; a collector it adds works for p. */
  predicate AddsAtMostOne(before: seq<Scheduled>, after: seq<Scheduled>, p: Phase)
  {
    before <= after && |after| <= |before| + 1 &&
    forall k :: |before| <= k < |after| && after[k].step.Collect? ==> after[k].step.phase == p
  }

  lemma KeepsLedCollectors(before: seq<Scheduled>, after: seq<Scheduled>)
    requires LedCollectorsOnly(before) && AddsAtMostOne(before, after, LedPhase)
    ensures LedCollectorsOnly(after)
  {
    forall k | 0 <= k < |after| && after[k].step.Collect?
      ensures after[k].step.phase == LedPhase
    {
      if k < |before| {
        assert after[k] == before[k];
      }
    }
  }

  predicate Tagged(data: seq<Reading>, p: Phase)
  {
    forall i :: 0 <= i < |data| ==> data[i].phase == p
  }

  /**
   * Whether the UDP pre-check of start_instant_measurement lets the run
   * start: a stream silent for more than five seconds (or never heard)
   * needs the user's consent.
   */
  predicate StreamCheckPasses(now: real, lastDataTime: Option<real>, userContinues: bool)
  {
    if lastDataTime.None? || Telemetry.SilentOnPeriodicCheck(now, lastDataTime.value) then userContinues else true
  }

  /** The status-query condition of check_device_connection. */
  predicate ShouldQueryStatus(now: real, lastQuery: real, clientPresent: bool, clientConnected: bool, state: Stage)
  {
    now - lastQuery > STATUS_QUERY_INTERVAL && clientPresent && clientConnected && state == Idle
  }

  /**
   * The device is never queried during a run, and after a query at time t
   * the next one comes more than ten seconds later.
   */
  lemma StatusQueryThrottled(now: real, t: real, clientPresent: bool, clientConnected: bool, state: Stage)
    ensures state != Idle ==> !ShouldQueryStatus(now, t, clientPresent, clientConnected, state)
    ensures now <= t + STATUS_QUERY_INTERVAL ==> !ShouldQueryStatus(now, t, clientPresent, clientConnected, state)
  {
  }

  /** One second of the measurement countdown: whether a run is started, and the next value. */
  function CountdownTick(remaining: int, interval: int): (bool, int)
  {
    if remaining - 1 <= 0 then (true, interval) else (false, remaining - 1)
  }

  /** The number of run starts over n seconds of countdown. */
  function Starts(remaining: int, interval: int, n: nat): nat
    decreases n
  {
    if n == 0 then 0
    else
      var (fires, next) := CountdownTick(remaining, interval);
      (if fires then 1 else 0) + Starts(next, interval, n - 1)
  }

  /** Before the countdown first reaches zero nothing starts. */
  lemma {:induction false} NoStartBefore(remaining: int, interval: int, n: nat)
    requires n < remaining
    ensures Starts(remaining, interval, n) == 0
    decreases n
  {
    if n > 0 {
      NoStartBefore(remaining - 1, interval, n - 1);
    }
  }

  /** When the countdown reaches zero a run starts and the countdown restarts from the interval. */
  lemma {:induction false} StartAtZero(remaining: int, interval: int, m: nat)
    requires remaining >= 1
    ensures Starts(remaining, interval, remaining + m) == 1 + Starts(interval, interval, m)
    decreases remaining
  {
    if remaining > 1 {
      StartAtZero(remaining - 1, interval, m);
    }
  }

  /** From a full countdown, k whole intervals and a part of one hold k starts. */
  lemma {:induction false} StartsPerInterval(interval: int, k: nat, j: nat)
    requires interval >= 1 && j < interval
    ensures Starts(interval, interval, k * interval + j) == k
    decreases k
  {
    if k == 0 {
      NoStartBefore(interval, interval, j);
    } else {
      assert k * interval + j == interval + ((k - 1) * interval + j);
      StartAtZero(interval, interval, (k - 1) * interval + j);
      StartsPerInterval(interval, k - 1, j);
    }
  }

  /**
   * With the countdown at 0 when the timer is enabled, the first run starts
   * on the first tick and one more every interval: k whole intervals and
   * j more seconds (1 <= j <= interval) hold k + 1 starts.
   */
  lemma CountdownStartsEveryInterval(interval: int, k: nat, j: nat)
    requires interval >= 1 && 1 <= j <= interval
    ensures Starts(0, interval, 0) == 0
    ensures Starts(0, interval, k * interval + j) == k + 1
  {
    assert Starts(0, interval, k * interval + j) == 1 + Starts(interval, interval, k * interval + (j - 1));
    StartsPerInterval(interval, k, j - 1);
  }

  class Orchestrator {
    var state: Stage
    var count: nat
    var ledOnlyData: seq<Reading>
    var uvOnlyData: seq<Reading>
    var ledUvData: seq<Reading>
    var group: nat
    /** measurement_session_data["measurements"], None while the session dict has no such key. */
    var session: Option<seq<MeasurementRecord>>
    var startPacketCount: Json
    var dataStreamActive: bool
    var streamPaused: bool
    var lastStatusQuery: real
    var effects: seq<Effect>
    var pending: seq<Scheduled>
    var timerEnabled: bool
    var sessionActive: bool
    var timerStart: int
    var timerDuration: int
    var timerInterval: int
    var timerRemaining: int
    var timerTicking: bool

    /** The phase lists hold readings of their own phase, and the state is never uv_only or led_uv. */
    ghost predicate Consistent()
      reads this`state, this`ledOnlyData, this`uvOnlyData, this`ledUvData
    {
      (state == Idle || state == LedOnly) &&
      Tagged(ledOnlyData, LedPhase) && Tagged(uvOnlyData, UvPhase) && Tagged(ledUvData, LedUvPhase)
    }

    /** Consistent, and only LED-only collectors are ever pending. */
    ghost predicate Valid()
      reads this`state, this`ledOnlyData, this`uvOnlyData, this`ledUvData, this`pending
    {
      Consistent() && LedCollectorsOnly(pending)
    }

    function PhaseData(p: Phase): seq<Reading>
      reads this`ledOnlyData, this`uvOnlyData, this`ledUvData
    {
      match p
      case LedPhase => ledOnlyData
      case UvPhase => uvOnlyData
      case LedUvPhase => ledUvData
    }

    constructor ()
      ensures Valid()
      ensures state == Idle && count == 0 && ledOnlyData == [] && uvOnlyData == [] && ledUvData == []
      ensures group == 0 && session == None && startPacketCount == JInt(0)
      ensures !dataStreamActive && !streamPaused && lastStatusQuery == 0.0 && effects == [] && pending == []
      ensures !timerEnabled && !sessionActive && timerDuration == 30 && timerInterval == 300
      ensures timerRemaining == 0 && !timerTicking
    {
      state := Idle;
      count := 0;
      ledOnlyData, uvOnlyData, ledUvData := [], [], [];
      group := 0;
      session := None;
      startPacketCount := JInt(0);
      dataStreamActive, streamPaused := false, false;
      lastStatusQuery := 0.0;
      effects, pending := [], [];
      timerEnabled, sessionActive := false, false;
      timerStart := 0;
      timerDuration, timerInterval := 30, 300;
      timerRemaining := 0;
      timerTicking := false;
    }

    /** The run state (stage, count, phase lists, effect log, pending callbacks) is as it was. */
    twostate predicate RunUntouched()
      reads this`state, this`count, this`ledOnlyData, this`uvOnlyData, this`ledUvData, this`effects, this`pending
    {
      state == old(state) && count == old(count) && effects == old(effects) && pending == old(pending) &&
      ledOnlyData == old(ledOnlyData) && uvOnlyData == old(uvOnlyData) && ledUvData == old(ledUvData)
    }

    /** The outcome of start_single_measurement: refused with nothing changed, or the reset and the LED-only phase. */
    twostate predicate SingleStarted(clientConnected: bool, started: bool)
      reads this`state, this`count, this`ledOnlyData, this`uvOnlyData, this`ledUvData, this`effects, this`pending,
        this`dataStreamActive, this`streamPaused
    {
      (started <==> clientConnected && dataStreamActive && !streamPaused) &&
      (!started ==> RunUntouched()) &&
      (started ==>
         state == LedOnly && count == 0 && ledOnlyData == [] && uvOnlyData == [] && ledUvData == [] &&
         effects == old(effects) + [Send(LED_OFF), Send(UV_OFF)] &&
         pending == old(pending) + [Scheduled(1000, StartLedOnly)])
    }

    /**
     * start_single_measurement (the timer's entry): refused unless the
     * command client is connected and the stream is on and running;
     * otherwise the phase lists are emptied, both lamps switched off and
     * the LED-only phase scheduled. A run already under way is not checked.
     */
    method StartSingleMeasurement(clientConnected: bool) returns (started: bool)
      requires Consistent()
      modifies this`state, this`count, this`ledOnlyData, this`uvOnlyData, this`ledUvData, this`effects, this`pending
      ensures Consistent() && AddsAtMostOne(old(pending), pending, LedPhase)
      ensures SingleStarted(clientConnected, started)
    {
      if !clientConnected || !dataStreamActive || streamPaused {
        return false;
      }
      state := LedOnly;
      count := 0;
      ledOnlyData, uvOnlyData, ledUvData := [], [], [];
      effects := effects + [Send(LED_OFF), Send(UV_OFF)];
      pending := pending + [Scheduled(1000, StartLedOnly)];
      return true;
    }

    /**
     * start_measurement_sequence: the same reset without any guard, the
     * starting packet counter noted, and the stream paused.
     */
    method StartMeasurementSequence(cache: seq<Sample>)
      requires Consistent()
      modifies this`state, this`count, this`ledOnlyData, this`uvOnlyData, this`ledUvData, this`effects, this`pending,
        this`startPacketCount
      ensures Consistent() && AddsAtMostOne(old(pending), pending, LedPhase)
      ensures state == LedOnly && count == 0 && ledOnlyData == [] && uvOnlyData == [] && ledUvData == []
      ensures startPacketCount == LatestPacketCount(cache)
      ensures effects == old(effects) + [Send(LED_OFF), Send(UV_OFF), PauseStream]
      ensures pending == old(pending) + [Scheduled(1000, StartLedOnly)]
    {
      state := LedOnly;
      count := 0;
      ledOnlyData, uvOnlyData, ledUvData := [], [], [];
      startPacketCount := LatestPacketCount(cache);
      effects := effects + [Send(LED_OFF), Send(UV_OFF), PauseStream];
      pending := pending + [Scheduled(1000, StartLedOnly)];
    }

    /** start_instant_measurement: the connection and stream pre-checks, then the sequence. */
    method StartInstantMeasurement(clientConnected: bool, now: real, lastDataTime: Option<real>, userContinues: bool,
                                   cache: seq<Sample>) returns (started: bool)
      requires Consistent()
      modifies this`state, this`count, this`ledOnlyData, this`uvOnlyData, this`ledUvData, this`effects, this`pending,
        this`startPacketCount
      ensures Consistent() && AddsAtMostOne(old(pending), pending, LedPhase)
      ensures started <==> clientConnected && StreamCheckPasses(now, lastDataTime, userContinues)
      ensures !started ==> effects == old(effects) && pending == old(pending) && state == old(state)
      ensures started ==> state == LedOnly && effects == old(effects) + [Send(LED_OFF), Send(UV_OFF), PauseStream]
      ensures started ==> pending == old(pending) + [Scheduled(1000, StartLedOnly)]
    {
      if !clientConnected {
        return false;
      }
      if lastDataTime.None? || now - lastDataTime.value > 5.0 {
        if !userContinues {
          return false;
        }
      }
      StartMeasurementSequence(cache);
      return true;
    }

    /** start_led_only_measurement (2493): LED on, UV off, collection in a second. */
    method StartLedOnlyMeasurement()
      requires Consistent()
      modifies this`count, this`effects, this`pending
      ensures Consistent() && AddsAtMostOne(old(pending), pending, LedPhase)
      ensures count == 0 && effects == old(effects) + [Send(LED_ON), Send(UV_OFF)]
      ensures pending == old(pending) + [Scheduled(1000, BeginLedOnly)]
    {
      count := 0;
      effects := effects + [Send(LED_ON), Send(UV_OFF)];
      pending := pending + [Scheduled(1000, BeginLedOnly)];
    }

    /**
     * begin_led_only_data_collection: the LED-only list is emptied and the
     * newest packet counter becomes the watermark. That packet is never
     * taken: the first collector call always waits for a newer one, unless
     * the counter cannot be compared at all.
     */
    method BeginLedOnlyCollection(cache: seq<Sample>) returns (raised: bool)
      requires Consistent()
      modifies this`state, this`count, this`ledOnlyData, this`uvOnlyData, this`ledUvData, this`effects, this`pending
      ensures Consistent() && AddsAtMostOne(old(pending), pending, LedPhase)
      ensures raised <==> Greater(LatestPacketCount(cache), LatestPacketCount(cache)).None?
      ensures count == 0 && ledOnlyData == [] && effects == old(effects) && state == old(state)
      ensures !raised ==> pending == old(pending) + [Scheduled(500, Collect(LedPhase, LatestPacketCount(cache), 1))]
    {
      count := 0;
      ledOnlyData := [];
      var watermark := LatestPacketCount(cache);
      GreaterIsStrict(watermark);
      raised := CollectMeasurementData(LedPhase, watermark, 0, cache);
    }

    /**
     * collect_measurement_data: a reading is taken exactly when the newest
     * packet counter exceeds the watermark; otherwise the call is repeated
     * with the same watermark up to ten times, then the phase ends with a
     * timeout. A counter that cannot be compared raises, and so does a
     * counter of 0 above the watermark read from an emptied cache.
     */
    method CollectMeasurementData(phase: Phase, watermark: Json, retry: nat, cache: seq<Sample>) returns (raised: bool)
      requires Consistent()
      modifies this`state, this`count, this`ledOnlyData, this`uvOnlyData, this`ledUvData, this`effects, this`pending
      ensures Consistent() && AddsAtMostOne(old(pending), pending, phase)
      ensures var newer := Greater(LatestPacketCount(cache), watermark);
        raised <==> newer.None? || (newer == Some(true) && cache == [])
      ensures raised ==> count == old(count) && effects == old(effects) && pending == old(pending) && state == old(state)
      ensures raised || Greater(LatestPacketCount(cache), watermark) == Some(false) ==>
        ledOnlyData == old(ledOnlyData) && uvOnlyData == old(uvOnlyData) && ledUvData == old(ledUvData)
      ensures !raised && Greater(LatestPacketCount(cache), watermark) == Some(true) ==> ReadingTaken(phase, cache)
      ensures Greater(LatestPacketCount(cache), watermark) == Some(false) ==> NoNewPacket(phase, watermark, retry)
    {
      var newer := Greater(LatestPacketCount(cache), watermark);
      if newer.None? {
        return true;
      }
      if newer.value {
        if cache == [] {
          return true;
        }
        TakeReading(phase, cache);
      } else {
        RetryOrTimeOut(phase, watermark, retry);
      }
      return false;
    }

    /**
     * A new packet: it is tagged with the phase and the current count and
     * appended to the phase's list, the count goes up, and either the next
     * call is scheduled with that packet's counter as the watermark and no
     * retries, or the fifth reading ends the phase.
     */
    twostate predicate ReadingTaken(phase: Phase, cache: seq<Sample>)
      reads this`count, this`ledOnlyData, this`uvOnlyData, this`ledUvData, this`effects, this`pending, this`state,
        this`dataStreamActive
    {
      cache != [] &&
      count == old(count) + 1 &&
      PhaseData(phase) == old(PhaseData(phase)) + [Reading(cache[|cache| - 1], phase, old(count))] &&
      (forall p :: p != phase ==> PhaseData(p) == old(PhaseData(p))) &&
      (count < MEASUREMENT_TARGET ==>
        pending == old(pending) + [Scheduled(200, Collect(phase, LatestPacketCount(cache), 0))] &&
        effects == old(effects) && state == old(state)) &&
      (count >= MEASUREMENT_TARGET ==> StageFinished(phase, false))
    }

    /** No new packet: a retry with the same watermark while fewer than ten were made, then a timeout. */
    twostate predicate NoNewPacket(phase: Phase, watermark: Json, retry: nat)
      reads this`count, this`ledOnlyData, this`uvOnlyData, this`ledUvData, this`effects, this`pending, this`state,
        this`dataStreamActive
    {
      count == old(count) &&
      (retry < MAX_RETRIES ==>
        pending == old(pending) + [Scheduled(500, Collect(phase, watermark, retry + 1))] &&
        effects == old(effects) && state == old(state)) &&
      (retry >= MAX_RETRIES ==> StageFinished(phase, true))
    }

    /** What finish_measurement_stage leaves behind, from the state it is called in. */
    twostate predicate StageFinished(phase: Phase, timedOut: bool)
      reads this`ledOnlyData, this`uvOnlyData, this`ledUvData, this`effects, this`pending, this`state, this`dataStreamActive
    {
      effects == old(effects) + FinishEffects(phase, timedOut, PhaseData(phase), dataStreamActive) &&
      pending == old(pending) + FinishNext(phase, timedOut, PhaseData(phase)) &&
      state == FinishStage(phase, timedOut, PhaseData(phase), old(state))
    }

    method TakeReading(phase: Phase, cache: seq<Sample>)
      requires Consistent() && cache != []
      modifies this`state, this`count, this`ledOnlyData, this`uvOnlyData, this`ledUvData, this`effects, this`pending
      ensures Consistent() && AddsAtMostOne(old(pending), pending, phase)
      ensures ReadingTaken(phase, cache)
    {
      var reading := Reading(cache[|cache| - 1], phase, count);
      match phase {
        case LedPhase => ledOnlyData := ledOnlyData + [reading];
        case UvPhase => uvOnlyData := uvOnlyData + [reading];
        case LedUvPhase => ledUvData := ledUvData + [reading];
      }
      count := count + 1;
      if count < MEASUREMENT_TARGET {
        pending := pending + [Scheduled(200, Collect(phase, LatestPacketCount(cache), 0))];
      } else {
        FinishMeasurementStage(phase, false);
      }
    }

    method RetryOrTimeOut(phase: Phase, watermark: Json, retry: nat)
      requires Consistent()
      modifies this`state, this`effects, this`pending
      ensures Consistent() && AddsAtMostOne(old(pending), pending, phase)
      ensures NoNewPacket(phase, watermark, retry)
    {
      if retry < MAX_RETRIES {
        pending := pending + [Scheduled(500, Collect(phase, watermark, retry + 1))];
      } else {
        FinishMeasurementStage(phase, true);
      }
    }

    /**
     * finish_measurement_stage: the phase's lamps off; a timeout with an
     * empty list cancels the run; otherwise the next phase is scheduled,
     * or, after LED+UV, the data saved, the stream resumed and the state
     * reset. Only the LED-only branch is ever reached.
     */
    method FinishMeasurementStage(phase: Phase, timedOut: bool)
      requires Consistent()
      modifies this`state, this`effects, this`pending
      ensures Consistent() && AddsAtMostOne(old(pending), pending, phase)
      ensures StageFinished(phase, timedOut)
    {
      ghost var before := effects;
      effects := effects + LampsOff(phase);
      if timedOut && PhaseData(phase) == [] {
        CancelMeasurementSequence();
        EffectsAssoc(before, LampsOff(phase), CancelEffects(dataStreamActive));
        return;
      }
      match phase {
        case LedPhase =>
          pending := pending + [Scheduled(1000, StartUvOnly)];
        case UvPhase =>
          pending := pending + [Scheduled(1000, StartLedUv)];
        case LedUvPhase =>
          var resume := if dataStreamActive then [ResumeStream] else [];
          effects := effects + [SaveMeasurementData] + resume;
          EffectsAssoc(before, LampsOff(phase), [SaveMeasurementData]);
          EffectsAssoc(before, LampsOff(phase) + [SaveMeasurementData], resume);
          state := Idle;
      }
    }

    /** cancel_measurement_sequence: both lamps off, the stream resumed if on, idle; nothing is saved. */
    method CancelMeasurementSequence()
      requires Consistent()
      modifies this`state, this`effects
      ensures Consistent()
      ensures state == Idle && effects == old(effects) + CancelEffects(dataStreamActive)
    {
      ghost var before := effects;
      effects := effects + [Send(LED_OFF), Send(UV_OFF)];
      if dataStreamActive {
        effects := effects + [ResumeStream];
        EffectsAssoc(before, [Send(LED_OFF), Send(UV_OFF)], [ResumeStream]);
      }
      state := Idle;
    }

    /** start_uv_only_measurement: UV on, LED off, the UV-only list emptied. */
    method StartUvOnlyMeasurement()
      requires Consistent()
      modifies this`count, this`uvOnlyData, this`effects, this`pending
      ensures Consistent() && AddsAtMostOne(old(pending), pending, LedPhase)
      ensures count == 0 && uvOnlyData == [] && effects == old(effects) + [Send(UV_ON), Send(LED_OFF)]
      ensures pending == old(pending) + [Scheduled(1000, BeginUvOnly)]
    {
      count := 0;
      uvOnlyData := [];
      effects := effects + [Send(UV_ON), Send(LED_OFF)];
      pending := pending + [Scheduled(1000, BeginUvOnly)];
    }

    /**
     * collect_uv_only_data: one tick of the fixed-tick collector. While
     * fewer than five ticks have run, the newest cached record is taken if
     * the cache is not empty and the count goes up either way; the fifth
     * tick switches UV off and schedules the LED+UV phase.
     */
    method CollectUvOnlyData(cache: seq<Sample>)
      requires Consistent()
      modifies this`count, this`uvOnlyData, this`effects, this`pending
      ensures Consistent() && AddsAtMostOne(old(pending), pending, LedPhase)
      ensures old(count) < MEASUREMENT_TARGET ==>
        count == old(count) + 1 && uvOnlyData == old(uvOnlyData) + Sampled(cache, UvPhase, old(count)) &&
        (count < MEASUREMENT_TARGET ==> effects == old(effects) && pending == old(pending) + [Scheduled(500, CollectUvOnly)]) &&
        (count >= MEASUREMENT_TARGET ==>
          effects == old(effects) + [Send(UV_OFF)] && pending == old(pending) + [Scheduled(1000, StartLedUv)])
      ensures old(count) >= MEASUREMENT_TARGET ==>
        count == old(count) && uvOnlyData == old(uvOnlyData) && pending == old(pending) &&
        effects == old(effects) + [Send(UV_OFF)]
    {
      if count < MEASUREMENT_TARGET {
        uvOnlyData := uvOnlyData + Sampled(cache, UvPhase, count);
        count := count + 1;
        if count < MEASUREMENT_TARGET {
          pending := pending + [Scheduled(500, CollectUvOnly)];
        } else {
          effects := effects + [Send(UV_OFF)];
          pending := pending + [Scheduled(1000, StartLedUv)];
        }
      } else {
        effects := effects + [Send(UV_OFF)];
      }
    }

    /** start_led_uv_measurement: both lamps on, the LED+UV list emptied. */
    method StartLedUvMeasurement()
      requires Consistent()
      modifies this`count, this`ledUvData, this`effects, this`pending
      ensures Consistent() && AddsAtMostOne(old(pending), pending, LedPhase)
      ensures count == 0 && ledUvData == [] && effects == old(effects) + [Send(LED_ON), Send(UV_ON)]
      ensures pending == old(pending) + [Scheduled(1000, BeginLedUv)]
    {
      count := 0;
      ledUvData := [];
      effects := effects + [Send(LED_ON), Send(UV_ON)];
      pending := pending + [Scheduled(1000, BeginLedUv)];
    }

    /**
     * save_single_measurement: the three lists are stored as one run under
     * the current group number and the session file rewritten with all
     * runs. Without a "measurements" key the lookup raises KeyError and
     * nothing is stored.
     */
    method SaveSingleMeasurement() returns (raised: bool)
      modifies this`session, this`effects
      ensures raised <==> old(session).None?
      ensures raised ==> session == old(session) && effects == old(effects)
      ensures !raised ==>
        session == Some(old(session).value + [MeasurementRecord(group, ledOnlyData, uvOnlyData, ledUvData)]) &&
        effects == old(effects) + [WriteSessionFile(SessionRows(session.value))]
    {
      if session.None? {
        return true;
      }
      session := Some(session.value + [MeasurementRecord(group, ledOnlyData, uvOnlyData, ledUvData)]);
      effects := effects + [WriteSessionFile(SessionRows(session.value))];
      return false;
    }

    /**
     * collect_led_uv_data: one tick of the fixed-tick collector. The fifth
     * tick switches both lamps off, stores the run, plots the per-run
     * averages, returns to idle and advances the group number; a missing
     * session or a non-numeric channel raises before the state is reset.
     */
    method CollectLedUvData(cache: seq<Sample>) returns (raised: bool)
      requires Consistent()
      modifies this`state, this`count, this`ledUvData, this`effects, this`pending, this`session, this`group
      ensures Consistent() && AddsAtMostOne(old(pending), pending, LedPhase)
      ensures old(count) >= MEASUREMENT_TARGET ==>
        !raised && count == old(count) && ledUvData == old(ledUvData) && pending == old(pending) &&
        effects == old(effects) + [Send(LED_OFF), Send(UV_OFF)] && session == old(session) && state == old(state)
      ensures old(count) < MEASUREMENT_TARGET ==>
        count == old(count) + 1 && ledUvData == old(ledUvData) + Sampled(cache, LedUvPhase, old(count))
      ensures old(count) + 1 < MEASUREMENT_TARGET ==>
        !raised && effects == old(effects) && pending == old(pending) + [Scheduled(500, CollectLedUv)] &&
        session == old(session) && state == old(state) && group == old(group)
      ensures old(count) + 1 == MEASUREMENT_TARGET ==> pending == old(pending) && RunStored(raised)
    {
      if count >= MEASUREMENT_TARGET {
        effects := effects + [Send(LED_OFF), Send(UV_OFF)];
        return false;
      }
      ledUvData := ledUvData + Sampled(cache, LedUvPhase, count);
      count := count + 1;
      if count < MEASUREMENT_TARGET {
        pending := pending + [Scheduled(500, CollectLedUv)];
        return false;
      }
      raised := CompleteRun();
    }

    /**
     * The end of a run, from the state it starts in: both lamps off; the run
     * stored and the file rewritten unless the session has no
     * "measurements" key (KeyError); the averages plotted unless a channel
     * is not a number (TypeError); then idle with the group number advanced.
     * An exception leaves the state and the group number as they were.
     */
    twostate predicate RunStored(raised: bool)
      reads this`state, this`effects, this`session, this`group, this`ledOnlyData, this`uvOnlyData, this`ledUvData
    {
      var run := MeasurementRecord(old(group), ledOnlyData, uvOnlyData, ledUvData);
      var lampsOff := [Send(LED_OFF), Send(UV_OFF)];
      (raised <==> old(session).None? || PlotsFail(old(session).value + [run])) &&
      (old(session).None? ==>
        session == old(session) && effects == old(effects) + lampsOff && state == old(state) && group == old(group)) &&
      (old(session).Some? ==> session == Some(old(session).value + [run])) &&
      (old(session).Some? && raised ==>
        effects == old(effects) + lampsOff + [WriteSessionFile(SessionRows(session.value))] &&
        state == old(state) && group == old(group)) &&
      (!raised ==>
        effects == old(effects) + lampsOff + [WriteSessionFile(SessionRows(session.value))] +
          [Plot(PhaseAverages(session.value, LedPhase), PhaseAverages(session.value, UvPhase),
                PhaseAverages(session.value, LedUvPhase))] &&
        state == Idle && group == old(group) + 1)
    }

    /**
     * The end of collect_led_uv_data: both lamps off, the run stored, the
     * averages plotted, idle, and the group number advanced. A missing
     * session or a non-numeric channel raises before the state is reset.
     */
    method CompleteRun() returns (raised: bool)
      requires Consistent()
      modifies this`state, this`effects, this`session, this`group
      ensures Consistent() && RunStored(raised)
    {
      effects := effects + [Send(LED_OFF), Send(UV_OFF)];
      raised := SaveSingleMeasurement();
      if raised {
        return;
      }
      var failed, led, uv, both := MeasurementAverages(session.value);
      if failed {
        return true;
      }
      effects := effects + [Plot(led, uv, both)];
      state := Idle;
      group := group + 1;
    }

    /** start_uv_only_collection: the count reset, then the first tick. */
    method StartUvOnlyCollection(cache: seq<Sample>)
      requires Consistent()
      modifies this`count, this`uvOnlyData, this`effects, this`pending
      ensures Consistent() && AddsAtMostOne(old(pending), pending, LedPhase)
      ensures count == 1 && uvOnlyData == old(uvOnlyData) + Sampled(cache, UvPhase, 0)
      ensures effects == old(effects) && pending == old(pending) + [Scheduled(500, CollectUvOnly)]
    {
      count := 0;
      CollectUvOnlyData(cache);
    }

    /** start_led_uv_collection: the count reset, then the first tick. */
    method StartLedUvCollection(cache: seq<Sample>)
      requires Consistent()
      modifies this`state, this`count, this`ledUvData, this`effects, this`pending, this`session, this`group
      ensures Consistent() && AddsAtMostOne(old(pending), pending, LedPhase)
      ensures count == 1 && ledUvData == old(ledUvData) + Sampled(cache, LedUvPhase, 0)
      ensures effects == old(effects) && pending == old(pending) + [Scheduled(500, CollectLedUv)]
      ensures session == old(session) && state == old(state) && group == old(group)
    {
      count := 0;
      var _ := CollectLedUvData(cache);
    }

    /**
     * The event loop runs the i-th pending callback with the cache as it
     * now stands. Each callback schedules at most one more, the others stay
     * pending, and only LED-only collectors are ever scheduled, so the
     * uv_only and led_uv branches of finish_measurement_stage never run.
     * The result says whether an exception escaped the callback.
     */
    method Fire(i: nat, cache: seq<Sample>) returns (raised: bool)
      requires Valid() && i < |pending|
      modifies this`state, this`count, this`ledOnlyData, this`uvOnlyData, this`ledUvData, this`effects, this`pending,
        this`session, this`group
      ensures Valid()
      ensures AddsAtMostOne(old(pending[..i] + pending[i + 1..]), pending, LedPhase)
      ensures old(pending[i].step).Collect? ==> !old(pending[i].step).phase.UvPhase? && !old(pending[i].step).phase.LedUvPhase?
    {
      var step := pending[i].step;
      pending := pending[..i] + pending[i + 1..];
      assert LedCollectorsOnly(pending) by {
        forall k | 0 <= k < |pending| && pending[k].step.Collect?
          ensures pending[k].step.phase == LedPhase
        {
          assert pending[k] == old(pending)[if k < i then k else k + 1];
        }
      }
      ghost var before := pending;
      raised := false;
      match step {
        case StartLedOnly => StartLedOnlyMeasurement();
        case BeginLedOnly => raised := BeginLedOnlyCollection(cache);
        case Collect(phase, watermark, retry) =>
          assert old(pending)[i].step == step;
          raised := CollectMeasurementData(phase, watermark, retry, cache);
        case StartUvOnly => StartUvOnlyMeasurement();
        case BeginUvOnly => StartUvOnlyCollection(cache);
        case CollectUvOnly => CollectUvOnlyData(cache);
        case StartLedUv => StartLedUvMeasurement();
        case BeginLedUv => StartLedUvCollection(cache);
        case CollectLedUv => raised := CollectLedUvData(cache);
      }
      KeepsLedCollectors(before, pending);
    }

    /**
     * toggle_data_stream: with the command client connected, switches the
     * stream on (and paused at once) or off; the flags change only when the
     * command goes out.
     */
    method ToggleDataStream(clientConnected: bool, mode: StreamMode, interval: int, target: int, sendOk: bool)
      requires MIN_STREAM_INTERVAL <= interval <= 5000
      modifies this`dataStreamActive, this`streamPaused, this`effects
      ensures forall k :: |old(effects)| <= k < |effects| && effects[k].Send? ==> IntervalAllowed(effects[k].cmd)
      ensures !clientConnected ==>
        effects == old(effects) && dataStreamActive == old(dataStreamActive) && streamPaused == old(streamPaused)
      ensures clientConnected ==>
        effects == old(effects) + [Send(if old(dataStreamActive) then STREAM_OFF else StreamOnCommand(mode, interval, target))]
      ensures clientConnected && sendOk ==> dataStreamActive == !old(dataStreamActive) && streamPaused == dataStreamActive
      ensures clientConnected && !sendOk ==> dataStreamActive == old(dataStreamActive) && streamPaused == old(streamPaused)
    {
      if !clientConnected {
        return;
      }
      if !dataStreamActive {
        effects := effects + [Send(StreamOnCommand(mode, interval, target))];
        if sendOk {
          dataStreamActive, streamPaused := true, true;
        }
      } else {
        effects := effects + [Send(STREAM_OFF)];
        if sendOk {
          dataStreamActive, streamPaused := false, false;
        }
      }
    }

    /** toggle_stream_pause: only with the stream on and the client connected; the flag flips when the command goes out. */
    method ToggleStreamPause(clientConnected: bool, sendOk: bool)
      modifies this`streamPaused, this`effects
      ensures !(dataStreamActive && clientConnected) ==> effects == old(effects) && streamPaused == old(streamPaused)
      ensures dataStreamActive && clientConnected ==>
        effects == old(effects) + [Send(map["streamPause" := CBool(!old(streamPaused))])] &&
        streamPaused == (if sendOk then !old(streamPaused) else old(streamPaused))
    {
      if !dataStreamActive || !clientConnected {
        return;
      }
      var paused := !streamPaused;
      effects := effects + [Send(map["streamPause" := CBool(paused)])];
      if sendOk {
        streamPaused := paused;
      }
    }

    /** check_device_connection: a status query at most every ten seconds, never during a run. */
    method CheckDeviceConnection(now: real, deviceKnown: bool, clientPresent: bool, clientConnected: bool)
      modifies this`effects, this`lastStatusQuery
      ensures deviceKnown && ShouldQueryStatus(now, old(lastStatusQuery), clientPresent, clientConnected, state) ==>
        effects == old(effects) + [Send(GET_DEVICE_STATUS)] && lastStatusQuery == now
      ensures !(deviceKnown && ShouldQueryStatus(now, old(lastStatusQuery), clientPresent, clientConnected, state)) ==>
        effects == old(effects) && lastStatusQuery == old(lastStatusQuery)
    {
      if !deviceKnown {
        return;
      }
      if now - lastStatusQuery > STATUS_QUERY_INTERVAL && clientPresent && clientConnected && state == Idle {
        effects := effects + [Send(GET_DEVICE_STATUS)];
        lastStatusQuery := now;
      }
    }

    /**
     * The disabling branch of toggle_timer_measurement: the timer and the
     * session flags off, then the session file written if it holds runs.
     * With no "measurements" key the lookup raises KeyError.
     */
    method DisableTimer() returns (raised: bool)
      modifies this`timerEnabled, this`sessionActive, this`timerTicking, this`effects
      ensures !timerEnabled && !sessionActive && !timerTicking
      ensures raised <==> session.None?
      ensures effects == old(effects) + SessionSave(session)
    {
      timerEnabled, sessionActive, timerTicking := false, false, false;
      if session.None? {
        return true;
      }
      if session.value != [] {
        effects := effects + [WriteSessionFile(SessionRows(session.value))];
      }
      return false;
    }

    /**
     * The enabling branch of toggle_timer_measurement. Without a connected
     * client the check box is unticked again, which runs the disabling
     * branch at once; otherwise a new session starts with no runs, group 0
     * and the countdown at 0, so that the first tick starts a run.
     */
    method EnableTimer(clientConnected: bool, now: int, intervalMinutes: int, durationMinutes: int) returns (raised: bool)
      modifies this`timerEnabled, this`sessionActive, this`timerTicking, this`effects, this`timerStart, this`group,
        this`session, this`timerInterval, this`timerDuration, this`timerRemaining
      ensures !clientConnected ==>
        !timerEnabled && !sessionActive && !timerTicking && (raised <==> session.None?) && session == old(session) &&
        group == old(group) && timerRemaining == old(timerRemaining) && effects == old(effects) + SessionSave(session) &&
        timerStart == old(timerStart) && timerInterval == old(timerInterval) && timerDuration == old(timerDuration)
      ensures clientConnected ==>
        !raised && timerEnabled && sessionActive && timerTicking && timerStart == now && group == 0 &&
        session == Some([]) && timerInterval == intervalMinutes * 60 && timerDuration == durationMinutes * 60 &&
        timerRemaining == 0 && effects == old(effects)
    {
      if !clientConnected {
        raised := DisableTimer();
        return;
      }
      sessionActive := true;
      timerStart := now;
      group := 0;
      session := Some([]);
      timerEnabled := true;
      timerInterval := intervalMinutes * 60;
      timerDuration := durationMinutes * 60;
      timerRemaining := 0;
      timerTicking := true;
      return false;
    }

    /** update_timer_interval: takes effect only while the timer is enabled. */
    method SetTimerInterval(minutes: int)
      modifies this`timerInterval
      ensures timerInterval == if timerEnabled then minutes * 60 else old(timerInterval)
    {
      if timerEnabled {
        timerInterval := minutes * 60;
      }
    }

    /** update_timer_duration: takes effect only while the timer is enabled. */
    method SetTimerDuration(minutes: int)
      modifies this`timerDuration
      ensures timerDuration == if timerEnabled then minutes * 60 else old(timerDuration)
    {
      if timerEnabled {
        timerDuration := minutes * 60;
      }
    }

    /**
     * update_timer_measurement, once a second: once the session has lasted
     * its duration the timer is switched off and nothing else happens;
     * otherwise the countdown moves on and, when it reaches zero, a run is
     * attempted and the countdown restarts from the interval.
     */
    method TimerTick(now: int, clientConnected: bool) returns (attempted: bool, started: bool, raised: bool)
      requires Consistent()
      modifies this`timerEnabled, this`sessionActive, this`timerTicking, this`effects, this`timerRemaining,
        this`state, this`count, this`ledOnlyData, this`uvOnlyData, this`ledUvData, this`pending
      ensures Consistent() && AddsAtMostOne(old(pending), pending, LedPhase)
      ensures !old(timerEnabled) ==>
        !attempted && !started && !raised && RunUntouched() && timerRemaining == old(timerRemaining) &&
        !timerEnabled && sessionActive == old(sessionActive) && timerTicking == old(timerTicking)
      ensures old(timerEnabled) && old(sessionActive) && now - timerStart >= timerDuration ==>
        !attempted && !started && !timerEnabled && !sessionActive && !timerTicking && (raised <==> session.None?) &&
        state == old(state) && count == old(count) && pending == old(pending) && timerRemaining == old(timerRemaining) &&
        ledOnlyData == old(ledOnlyData) && uvOnlyData == old(uvOnlyData) && ledUvData == old(ledUvData) &&
        effects == old(effects) + SessionSave(session)
      ensures old(timerEnabled) && !(old(sessionActive) && now - timerStart >= timerDuration) ==>
        !raised && timerEnabled && sessionActive == old(sessionActive) && timerTicking == old(timerTicking) &&
        (attempted, timerRemaining) == CountdownTick(old(timerRemaining), timerInterval) &&
        (attempted ==> SingleStarted(clientConnected, started)) &&
        (!attempted ==> !started && RunUntouched())
    {
      attempted, started, raised := false, false, false;
      if !timerEnabled {
        return;
      }
      if sessionActive && now - timerStart >= timerDuration {
        raised := DisableTimer();
        return;
      }
      timerRemaining := timerRemaining - 1;
      if timerRemaining <= 0 {
        started := StartSingleMeasurement(clientConnected);
        attempted := true;
        timerRemaining := timerInterval;
      }
    }
  }
}
