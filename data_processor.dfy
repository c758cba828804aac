/**
 * The sample cache and recorder (class DataProcessor): a live cache capped
 * at MAX_DATA_CACHE samples, oldest evicted first, and a recording list
 * that grows only while recording is on.
 */
module DataProcessing {
  import opened Protocol
  import opened Wrappers

  /** The exception parse_spectral_data catches when it builds a record. */
  datatype ParseFault =
    | IndexError   // the channel list or string is shorter than eight
    | TypeError    // the channel value is a number, boolean or null
    | KeyError     // the channel value is an object: d[0] looks up key 0

  type Channels = c: seq<Json> | |c| == 8
    witness [JInt(0), JInt(0), JInt(0), JInt(0), JInt(0), JInt(0), JInt(0), JInt(0)]

  /** One flattened record: timestamp, packetCount, streamCount, F1..F8. */
  datatype Sample = Sample(timestamp: Json, packetCount: Json, streamCount: Json, channels: Channels)

  /** dict.get(key, default). */
  function Get(m: map<string, Json>, key: string, default: Json): Json
  {
    if key in m then m[key] else default
  }

  /** The default channel list [0]*8 used when "data" is absent. */
  const ZERO_CHANNELS: Channels := [JInt(0), JInt(0), JInt(0), JInt(0), JInt(0), JInt(0), JInt(0), JInt(0)]

  /**
   * Python's d[i]: a list or a string is indexed (a string gives a
   * one-character string), an object is looked up with the integer key i
   * and never has it, anything else is not subscriptable.
   */
  function Item(d: Json, i: nat): (r: Result<Json, ParseFault>)
    ensures d.JList? ==> (r.Success? <==> i < |d.items|)
    ensures d.JList? && i < |d.items| ==> r == Success(d.items[i])
  {
    match d
    case JList(xs) => if i < |xs| then Success(xs[i]) else Failure(IndexError)
    case JStr(s) => if i < |s| then Success(JStr([s[i]])) else Failure(IndexError)
    case JObject(_) => Failure(KeyError)
    case _ => Failure(TypeError)
  }

  /** The first of data[0], ..., data[n-1] to raise, if any. */
  function FirstFault(d: Json, n: nat): (r: Option<ParseFault>)
    ensures r.None? <==> forall i :: 0 <= i < n ==> Item(d, i).Success?
  {
    if n == 0 then None
    else
      match FirstFault(d, n - 1)
      case Some(f) => Some(f)
      case None => if Item(d, n - 1).Failure? then Some(Item(d, n - 1).error) else None
  }

  /**
   * The record parse_spectral_data builds from a normalised datagram, or
   * the exception that stops it before the cache is touched.
   */
  function Flatten(json: map<string, Json>): Result<Sample, ParseFault>
  {
    var data := Get(json, "data", JList(ZERO_CHANNELS));
    match FirstFault(data, 8)
    case Some(f) => Failure(f)
    case None =>
      Success(Sample(Get(json, "timestamp", JInt(0)), Get(json, "packetCount", JInt(0)),
                     Get(json, "streamCount", JInt(0)),
                     [Item(data, 0).value, Item(data, 1).value, Item(data, 2).value, Item(data, 3).value,
                      Item(data, 4).value, Item(data, 5).value, Item(data, 6).value, Item(data, 7).value]))
  }

  /** A list of at least eight channel values always flattens, keeping the first eight. */
  lemma FlattenList(json: map<string, Json>)
    requires "data" in json && json["data"].JList? && |json["data"].items| >= 8
    ensures Flatten(json).Success?
    ensures Flatten(json).value.channels == json["data"].items[..8]
    ensures Flatten(json).value.packetCount == Get(json, "packetCount", JInt(0))
  {
  }

  /** A channel list shorter than eight raises IndexError. */
  lemma FlattenShortList(json: map<string, Json>)
    requires "data" in json && json["data"].JList? && |json["data"].items| < 8
    ensures Flatten(json) == Failure(IndexError)
  {
    var d := json["data"];
    var n := |d.items|;
    assert FirstFault(d, n) == None;
    assert FirstFault(d, n + 1) == Some(IndexError);
    var k := n + 1;
    while k < 8
      invariant n + 1 <= k <= 8
      invariant FirstFault(d, k) == Some(IndexError)
    {
      k := k + 1;
    }
  }

  /**
   * The cache after one append: the new sample goes last and, when the
   * length then exceeds the capacity, the first element is popped.
   */
  function CacheAppend(cache: seq<Sample>, s: Sample): (r: seq<Sample>)
    requires |cache| <= MAX_DATA_CACHE
    ensures |r| <= MAX_DATA_CACHE && r != [] && r[|r| - 1] == s
    ensures |r| == if |cache| < MAX_DATA_CACHE then |cache| + 1 else MAX_DATA_CACHE
  {
    var grown := cache + [s];
    if |grown| > MAX_DATA_CACHE then grown[1..] else grown
  }

  /** The cache after a run of appends, first sample first. */
  function Feed(cache: seq<Sample>, samples: seq<Sample>): (r: seq<Sample>)
    requires |cache| <= MAX_DATA_CACHE
    ensures |r| <= MAX_DATA_CACHE
    decreases |samples|
  {
    if samples == [] then cache else Feed(CacheAppend(cache, samples[0]), samples[1..])
  }

  /** The last n elements of s (all of s when it is shorter). */
  function Newest(s: seq<Sample>, n: nat): seq<Sample>
  {
    if |s| <= n then s else s[|s| - n..]
  }

  /**
   * The cache always holds the most recent min(N, capacity) samples in
   * arrival order.
   */
  lemma {:induction false} FeedKeepsNewest(cache: seq<Sample>, samples: seq<Sample>)
    requires |cache| <= MAX_DATA_CACHE
    ensures Feed(cache, samples) == Newest(cache + samples, MAX_DATA_CACHE)
    decreases |samples|
  {
    if samples != [] {
      var c1 := CacheAppend(cache, samples[0]);
      FeedKeepsNewest(c1, samples[1..]);
      assert c1 == Newest(cache + [samples[0]], MAX_DATA_CACHE);
      var all := cache + samples;
      assert cache + [samples[0]] + samples[1..] == all;
      if |cache| == MAX_DATA_CACHE {
        assert c1 + samples[1..] == all[1..];
        assert Newest(all[1..], MAX_DATA_CACHE) == Newest(all, MAX_DATA_CACHE);
      } else {
        assert c1 + samples[1..] == all;
      }
    }
  }

  /** From an empty cache, N arrivals leave min(N, capacity) of them. */
  lemma FeedFromEmpty(samples: seq<Sample>)
    ensures |Feed([], samples)| == if |samples| < MAX_DATA_CACHE then |samples| else MAX_DATA_CACHE
    ensures Feed([], samples) == Newest(samples, MAX_DATA_CACHE)
  {
    FeedKeepsNewest([], samples);
    assert [] + samples == samples;
  }

  class DataProcessor {
    var spectralCache: seq<Sample>
    var recording: bool
    var recordData: seq<Sample>
    var streamComplete: bool

    ghost predicate Valid()
      reads this
    {
      |spectralCache| <= MAX_DATA_CACHE
    }

    constructor ()
      ensures Valid()
      ensures spectralCache == [] && !recording && recordData == [] && !streamComplete
    {
      spectralCache := [];
      recording := false;
      recordData := [];
      streamComplete := false;
    }

    method GetCacheCount() returns (n: nat)
      ensures n == |spectralCache|
    {
      n := |spectralCache|;
    }

    method GetRecordCount() returns (n: nat)
      ensures n == |recordData|
    {
      n := |recordData|;
    }

    method ClearCacheData() returns (ok: bool)
      modifies this`spectralCache
      ensures ok && spectralCache == [] && Valid()
    {
      spectralCache := [];
      ok := true;
    }

    /** The recording list may be emptied only while not recording. */
    method ClearRecordData() returns (ok: bool)
      modifies this`recordData
      ensures ok <==> !recording
      ensures recordData == if ok then [] else old(recordData)
    {
      if !recording {
        recordData := [];
        return true;
      }
      return false;
    }

    /**
     * parse_spectral_data: on success the record is appended to the cache
     * (evicting the oldest beyond capacity) and, while recording, to the
     * recording list; on an exception nothing changes.
     */
    method ParseSpectralData(json: map<string, Json>) returns (r: Result<Sample, ParseFault>)
      requires Valid()
      modifies this`spectralCache, this`recordData
      ensures Valid() && r == Flatten(json)
      ensures r.Success? ==> spectralCache == CacheAppend(old(spectralCache), r.value)
      ensures r.Success? ==> recordData == if recording then old(recordData) + [r.value] else old(recordData)
      ensures r.Failure? ==> spectralCache == old(spectralCache) && recordData == old(recordData)
    {
      r := Flatten(json);
      if r.Failure? {
        return;
      }
      spectralCache := spectralCache + [r.value];
      if |spectralCache| > MAX_DATA_CACHE {
        spectralCache := spectralCache[1..];
      }
      if recording {
        recordData := recordData + [r.value];
      }
    }

    method StartRecord() returns (ok: bool)
      modifies this`recording, this`recordData, this`streamComplete
      ensures ok && recording && recordData == [] && !streamComplete
    {
      recording := true;
      recordData := [];
      streamComplete := false;
      ok := true;
    }

    /** Stops recording and hands back the list and its length. */
    method StopRecord() returns (data: seq<Sample>, count: nat)
      modifies this`recording
      ensures !recording && data == recordData && count == |data|
    {
      recording := false;
      data := recordData;
      count := |recordData|;
    }

    method MarkStreamComplete()
      modifies this`streamComplete
      ensures streamComplete
    {
      streamComplete := true;
    }
  }

  /** The records that a run of datagrams yields, in order, skipping those that raise. */
  function Parsed(inputs: seq<map<string, Json>>): seq<Sample>
  {
    if inputs == [] then []
    else
      var rest := Parsed(inputs[..|inputs| - 1]);
      match Flatten(inputs[|inputs| - 1])
      case Success(s) => rest + [s]
      case Failure(_) => rest
  }

  /**
   * Start recording, receive a run of datagrams, stop recording: the list
   * handed back is exactly the records parsed meanwhile, in arrival order.
   */
  method RecordRun(inputs: seq<map<string, Json>>) returns (recorded: seq<Sample>, count: nat)
    ensures recorded == Parsed(inputs) && count == |recorded|
  {
    var p := new DataProcessor();
    var _ := p.StartRecord();
    for i := 0 to |inputs|
      invariant p.Valid() && p.recording
      invariant p.recordData == Parsed(inputs[..i])
    {
      var r := p.ParseSpectralData(inputs[i]);
      assert inputs[..i + 1][..i] == inputs[..i];
    }
    assert inputs[..|inputs|] == inputs;
    recorded, count := p.StopRecord();
  }
}
