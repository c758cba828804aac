/**
 * What a measurement run produces: the tagged readings of the three
 * illumination phases, the per-run record kept in the session, the rows of
 * the session CSV file (save_measurement_to_csv) and the per-channel
 * average used for the measurement plots (calculate_average_measurement).
 */
module MeasurementRecords {
  import opened Protocol
  import opened DataProcessing
  import opened Wrappers

  /** The illumination of a phase; measurement_type "led_only", "uv_only" or "led_uv". */
  datatype Phase = LedPhase | UvPhase | LedUvPhase

  /** A copy of the newest cached record tagged with its phase and index. */
  datatype Reading = Reading(sample: Sample, phase: Phase, index: nat)

  /** One completed run as save_single_measurement stores it. */
  datatype MeasurementRecord = MeasurementRecord(index: nat, ledOnly: seq<Reading>, uvOnly: seq<Reading>, ledUv: seq<Reading>)

  /** One CSV row: measurement_index, measurement_type, data_index, F1..F8. */
  datatype Row = Row(measurementIndex: nat, measurementType: string, dataIndex: nat, channels: Channels)

  /** The measurement_type column of each phase. */
  function PhaseLabel(p: Phase): string
  {
    match p
    case LedPhase => "LED Only"
    case UvPhase => "UV Only"
    case LedUvPhase => "LED+UV"
  }

  /** The rows of one phase list, numbered by position (enumerate). */
  function PhaseRows(index: nat, kind: string, data: seq<Reading>): (rows: seq<Row>)
    ensures |rows| == |data|
    ensures forall i :: 0 <= i < |rows| ==>
      rows[i].dataIndex == i && rows[i].channels == data[i].sample.channels &&
      rows[i].measurementIndex == index && rows[i].measurementType == kind
  {
    seq(|data|, i requires 0 <= i < |data| => Row(index, kind, i, data[i].sample.channels))
  }

  /** The rows of one run: LED Only, then UV Only, then LED+UV. */
  function MeasurementRows(m: MeasurementRecord): seq<Row>
  {
    PhaseRows(m.index, PhaseLabel(LedPhase), m.ledOnly) +
    PhaseRows(m.index, PhaseLabel(UvPhase), m.uvOnly) +
    PhaseRows(m.index, PhaseLabel(LedUvPhase), m.ledUv)
  }

  /** The rows of the whole file, one run after the other in session order. */
  function SessionRows(ms: seq<MeasurementRecord>): seq<Row>
  {
    if ms == [] then [] else SessionRows(ms[..|ms| - 1]) + MeasurementRows(ms[|ms| - 1])
  }

  function ReadingCount(ms: seq<MeasurementRecord>): nat
  {
    if ms == [] then 0
    else
      var m := ms[|ms| - 1];
      ReadingCount(ms[..|ms| - 1]) + |m.ledOnly| + |m.uvOnly| + |m.ledUv|
  }

  /** The file has one row per stored reading, and no other row. */
  lemma {:induction false} SessionRowCount(ms: seq<MeasurementRecord>)
    ensures |SessionRows(ms)| == ReadingCount(ms)
  {
    if ms != [] {
      SessionRowCount(ms[..|ms| - 1]);
    }
  }

  /**
   * The file is rewritten after every run; the new content extends the old
   * one: the rows of the earlier runs come first, unchanged.
   */
  lemma {:induction false} SessionRowsAppend(ms: seq<MeasurementRecord>, more: seq<MeasurementRecord>)
    ensures SessionRows(ms + more) == SessionRows(ms) + SessionRows(more)
    decreases |more|
  {
    if more == [] {
      assert ms + more == ms;
    } else {
      var init, last := more[..|more| - 1], more[|more| - 1];
      var all := ms + more;
      assert all[..|all| - 1] == ms + init && all[|all| - 1] == last;
      assert SessionRows(all) == SessionRows(ms + init) + MeasurementRows(last);
      SessionRowsAppend(ms, init);
      assert SessionRows(more) == SessionRows(init) + MeasurementRows(last);
    }
  }

  /** Within a run, the rows of a phase carry that phase's label and its readings' channels in order. */
  lemma RunRowsByPhase(m: MeasurementRecord)
    ensures var rows := MeasurementRows(m);
      var a, b := |m.ledOnly|, |m.ledOnly| + |m.uvOnly|;
      |rows| == b + |m.ledUv| &&
      (forall i :: 0 <= i < a ==> rows[i].measurementType == "LED Only" && rows[i].channels == m.ledOnly[i].sample.channels) &&
      (forall i :: a <= i < b ==> rows[i].measurementType == "UV Only" && rows[i].channels == m.uvOnly[i - a].sample.channels) &&
      (forall i :: b <= i < |rows| ==> rows[i].measurementType == "LED+UV" && rows[i].channels == m.ledUv[i - b].sample.channels)
  {
  }

  /** The value Python adds for a channel: an integer or a boolean counts as a number. */
  function Numeric(v: Json): Option<int>
  {
    match v
    case JInt(i) => Some(i)
    case JBool(b) => Some(if b then 1 else 0)
    case _ => None
  }

  /** Every channel of every reading is a number. */
  predicate AllNumeric(data: seq<Reading>)
  {
    forall i, c :: 0 <= i < |data| && 0 <= c < 8 ==> Numeric(data[i].sample.channels[c]).Some?
  }

  function ChannelSum(data: seq<Reading>, c: nat): int
    requires c < 8 && AllNumeric(data)
  {
    if data == [] then 0
    else
      assert Numeric(data[|data| - 1].sample.channels[c]).Some?;
      ChannelSum(data[..|data| - 1], c) + Numeric(data[|data| - 1].sample.channels[c]).value
  }

  /** None for an empty list, the TypeError of a non-numeric channel, or the eight means. */
  datatype Average = NoData | AverageTypeError | Means(values: seq<real>)

  function AverageOf(data: seq<Reading>): (r: Average)
    ensures r.Means? ==> |r.values| == 8
  {
    if data == [] then NoData
    else if !AllNumeric(data) then AverageTypeError
    else Means(seq(8, c requires 0 <= c < 8 => ChannelSum(data, c) as real / |data| as real))
  }

  /**
   * calculate_average_measurement: the sums per channel, reading by reading
   * and channel by channel, then each sum divided by the number of readings.
   */
  method CalculateAverage(data: seq<Reading>) returns (r: Average)
    ensures r == AverageOf(data)
  {
    if data == [] {
      return NoData;
    }
    var sums := [0, 0, 0, 0, 0, 0, 0, 0];
    for i := 0 to |data|
      invariant AllNumeric(data[..i])
      invariant |sums| == 8 && forall c :: 0 <= c < 8 ==> sums[c] == ChannelSum(data[..i], c)
    {
      for c := 0 to 8
        invariant |sums| == 8
        invariant forall k :: 0 <= k < c ==> Numeric(data[i].sample.channels[k]).Some?
        invariant forall k :: 0 <= k < 8 ==>
          sums[k] == ChannelSum(data[..i], k) + (if k < c then Numeric(data[i].sample.channels[k]).value else 0)
      {
        var v := Numeric(data[i].sample.channels[c]);
        if v.None? {
          NonNumericAt(data, i, c);
          return AverageTypeError;
        }
        sums := sums[c := sums[c] + v.value];
      }
      NumericPrefix(data, i);
    }
    assert data[..|data|] == data;
    var means: seq<real> := [];
    for c := 0 to 8
      invariant means == seq(c, k requires 0 <= k < c => ChannelSum(data, k) as real / |data| as real)
    {
      means := means + [sums[c] as real / |data| as real];
    }
    return Means(means);
  }

  lemma NonNumericAt(data: seq<Reading>, i: nat, c: nat)
    requires i < |data| && c < 8 && Numeric(data[i].sample.channels[c]).None?
    ensures AverageOf(data) == AverageTypeError
  {
  }

  /** Extending a numeric prefix by a numeric reading. */
  lemma NumericPrefix(data: seq<Reading>, i: nat)
    requires i < |data| && AllNumeric(data[..i])
    requires forall k :: 0 <= k < 8 ==> Numeric(data[i].sample.channels[k]).Some?
    ensures AllNumeric(data[..i + 1])
    ensures forall k :: 0 <= k < 8 ==>
      ChannelSum(data[..i + 1], k) == ChannelSum(data[..i], k) + Numeric(data[i].sample.channels[k]).value
  {
    assert data[..i + 1][..i] == data[..i];
  }

  /** Readings whose channels all hold the same numbers. */
  predicate Constant(data: seq<Reading>, v: seq<int>)
  {
    |v| == 8 && forall i, c :: 0 <= i < |data| && 0 <= c < 8 ==> data[i].sample.channels[c] == JInt(v[c])
  }

  lemma ConstantIsNumeric(data: seq<Reading>, v: seq<int>)
    requires Constant(data, v)
    ensures AllNumeric(data)
  {
    forall i, c | 0 <= i < |data| && 0 <= c < 8
      ensures Numeric(data[i].sample.channels[c]).Some?
    {
      assert data[i].sample.channels[c] == JInt(v[c]);
    }
  }

  lemma {:induction false} ConstantSum(data: seq<Reading>, v: seq<int>, c: nat)
    requires Constant(data, v) && c < 8
    ensures AllNumeric(data) && ChannelSum(data, c) == |data| * v[c]
  {
    ConstantIsNumeric(data, v);
    if data != [] {
      assert data[|data| - 1].sample.channels[c] == JInt(v[c]);
      ConstantSum(data[..|data| - 1], v, c);
    }
  }

  /** The average of identical readings is that reading, channel by channel. */
  lemma AverageOfConstant(data: seq<Reading>, v: seq<int>)
    requires data != [] && Constant(data, v)
    ensures AverageOf(data).Means?
    ensures forall c :: 0 <= c < 8 ==> AverageOf(data).values[c] == v[c] as real
  {
    ConstantIsNumeric(data, v);
    forall c | 0 <= c < 8
      ensures ChannelSum(data, c) == |data| * v[c]
    {
      ConstantSum(data, v, c);
    }
  }

  /** The list of a phase within a stored run. */
  function PhaseList(m: MeasurementRecord, p: Phase): seq<Reading>
  {
    match p
    case LedPhase => m.ledOnly
    case UvPhase => m.uvOnly
    case LedUvPhase => m.ledUv
  }

  /** The average of one run's phase list raises. */
  predicate RunFails(m: MeasurementRecord)
  {
    AverageOf(m.ledOnly).AverageTypeError? || AverageOf(m.uvOnly).AverageTypeError? || AverageOf(m.ledUv).AverageTypeError?
  }

  /** update_measurement_plots raises: some stored run has a phase whose average raises. */
  predicate PlotsFail(ms: seq<MeasurementRecord>)
  {
    ms != [] && (PlotsFail(ms[..|ms| - 1]) || RunFails(ms[|ms| - 1]))
  }

  /** The averages plotted for a phase: one per stored run whose list of that phase is non-empty. */
  function PhaseAverages(ms: seq<MeasurementRecord>, p: Phase): seq<Average>
  {
    if ms == [] then []
    else
      var m := ms[|ms| - 1];
      PhaseAverages(ms[..|ms| - 1], p) + if PhaseList(m, p) != [] then [AverageOf(PhaseList(m, p))] else []
  }

  lemma {:induction false} PlotsFailSomewhere(ms: seq<MeasurementRecord>)
    ensures PlotsFail(ms) <==> exists k :: 0 <= k < |ms| && RunFails(ms[k])
  {
    if ms != [] {
      var init := ms[..|ms| - 1];
      PlotsFailSomewhere(init);
      if PlotsFail(init) {
        var k :| 0 <= k < |init| && RunFails(init[k]);
        assert ms[k] == init[k];
      }
      if k :| 0 <= k < |ms| && RunFails(ms[k]) {
        if k < |init| {
          assert init[k] == ms[k];
        }
      }
    }
  }

  /** Runs whose readings all carry numbers are always plotted. */
  lemma {:induction false} NumericRunsPlot(ms: seq<MeasurementRecord>)
    requires forall k :: 0 <= k < |ms| ==>
      AllNumeric(ms[k].ledOnly) && AllNumeric(ms[k].uvOnly) && AllNumeric(ms[k].ledUv)
    ensures !PlotsFail(ms)
  {
    if ms != [] {
      NumericRunsPlot(ms[..|ms| - 1]);
    }
  }

  /**
   * The averaging part of update_measurement_plots: run by run, the LED
   * Only, UV Only and LED+UV averages of the non-empty lists, or the
   * TypeError that escapes from the first non-numeric channel.
   */
  method MeasurementAverages(ms: seq<MeasurementRecord>) returns (failed: bool, led: seq<Average>, uv: seq<Average>, both: seq<Average>)
    ensures failed <==> PlotsFail(ms)
    ensures !failed ==>
      led == PhaseAverages(ms, LedPhase) && uv == PhaseAverages(ms, UvPhase) && both == PhaseAverages(ms, LedUvPhase)
  {
    led, uv, both := [], [], [];
    for i := 0 to |ms|
      invariant !PlotsFail(ms[..i])
      invariant led == PhaseAverages(ms[..i], LedPhase) && uv == PhaseAverages(ms[..i], UvPhase)
      invariant both == PhaseAverages(ms[..i], LedUvPhase)
    {
      var m := ms[i];
      assert ms[..i + 1][..i] == ms[..i] && ms[..i + 1][i] == m;
      if m.ledOnly != [] {
        var a := CalculateAverage(m.ledOnly);
        if a.AverageTypeError? {
          PlotsFailSomewhere(ms);
          return true, led, uv, both;
        }
        led := led + [a];
      }
      if m.uvOnly != [] {
        var a := CalculateAverage(m.uvOnly);
        if a.AverageTypeError? {
          PlotsFailSomewhere(ms);
          return true, led, uv, both;
        }
        uv := uv + [a];
      }
      if m.ledUv != [] {
        var a := CalculateAverage(m.ledUv);
        if a.AverageTypeError? {
          PlotsFailSomewhere(ms);
          return true, led, uv, both;
        }
        both := both + [a];
      }
    }
    assert ms[..|ms|] == ms;
    return false, led, uv, both;
  }
}
