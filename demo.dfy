/** The demonstration collectors: one replays logged sample dictionaries
    in a cycle, one synthesises samples for a few named scenarios, and a
    logger keeps the dictionaries of the samples it is given. Both
    collectors set up only their own fields, not the ring buffers of the
    base collector they reuse the collection loop of. Clock readings and
    the sine function are parameters. */
module TelemetryDemo {
  import opened Common
  import opened Text
  import opened Bounded
  import opened Telemetry

  /** The entry `collect_sample` reads with the cursor at `cursor`: past
      the end of the replay list it starts again at the beginning. */
  function ReplayIndex(cursor: nat, len: nat): nat
  {
    if cursor >= len then 0 else cursor
  }

  /** The cursor of a fresh replay collector after `k` calls that read an
      entry. */
  function CursorAfter(len: nat, k: nat): nat
    decreases k
  {
    if k == 0 then 0 else ReplayIndex(CursorAfter(len, k - 1), len) + 1
  }

  /** A positive multiple of `n` is at least `n`. */
  lemma {:induction false} MultipleAtLeast(a: int, n: int)
    requires a >= 1 && n > 0
    ensures a * n >= n
    decreases a
  {
    if a > 1 {
      MultipleAtLeast(a - 1, n);
      assert a * n == (a - 1) * n + n;
    }
  }

  /** `x % n` is determined by any decomposition `x = q * n + r` with
      `0 <= r < n`. */
  lemma ModUnique(x: int, n: int, q: int, r: int)
    requires n > 0 && 0 <= r < n && x == q * n + r
    ensures x % n == r
  {
    var q' := x / n;
    var r' := x % n;
    assert x == q' * n + r';
    var d := q - q';
    assert d * n == r' - r by {
      assert q * n - q' * n == d * n;
    }
    if d >= 1 {
      MultipleAtLeast(d, n);
    } else if d <= -1 {
      MultipleAtLeast(-d, n);
    }
  }

  /** Counting on by one moves the remainder on by one, wrapping at `n`. */
  lemma ModSucc(a: nat, n: nat)
    requires n > 0
    ensures (a + 1) % n == if a % n == n - 1 then 0 else a % n + 1
  {
    var q := a / n;
    var r := a % n;
    assert a == q * n + r;
    if r == n - 1 {
      ModUnique(a + 1, n, q + 1, 0);
    } else {
      ModUnique(a + 1, n, q, r + 1);
    }
  }

  /** After `k > 0` calls the cursor sits just past entry `(k - 1) mod len`. */
  lemma {:induction false} CursorClosedForm(len: nat, k: nat)
    requires len > 0
    ensures CursorAfter(len, k) == if k == 0 then 0 else (k - 1) % len + 1
    decreases k
  {
    if k > 1 {
      CursorClosedForm(len, k - 1);
      ModSucc(k - 2, len);
    }
  }

  /** The replay is cyclic: call number `k` (counting from 0) reads entry
      `k mod len`, and afterwards the cursor lies in [1, len]. */
  lemma ReplayCycles(len: nat, k: nat)
    requires len > 0
    ensures ReplayIndex(CursorAfter(len, k), len) == k % len
    ensures 1 <= CursorAfter(len, k + 1) <= len
  {
    CursorClosedForm(len, k);
    if k > 0 {
      ModSucc(k - 1, len);
    }
  }

  /** The measurements of a sample rebuilt from a logged dictionary: the
      logged fields, defaults for the rest. */
  function ReplayedData(e: SampleDict): SampleData
  {
    DefaultData.(solarPower := e.solarPower, batteryPower := e.batteryPower,
                 gridPower := e.gridPower, batterySoc := e.batterySoc,
                 gridFrequency := e.gridFrequency,
                 inverterTemperature := e.inverterTemperature, systemState := e.systemState)
  }

  const DemoQueueMaxsize := 100

  /** The replay collector, with the ring buffers of the base collector
      that its constructor leaves out; `RunCollectorStepAsWritten` runs the
      loop without them, `RunCollectorStep` with them. */
  class MockTelemetryCollector {
    const sampleData: seq<SampleDict>
    const sampleInterval: real
    const shortBufferSize: nat
    const longBufferSize: nat
    const bufferKeys: seq<string>
    var running: bool
    var sampleCount: nat
    var errorCount: nat
    var currentIndex: nat
    var queue: seq<TelemetrySample>
    var sampleBuffer: seq<TelemetrySample>
    var shortBuffers: map<string, seq<real>>
    var longBuffers: map<string, seq<real>>

    /** The cursor follows the number of entries read so far, and every
        buffer is within its capacity. */
    ghost predicate Valid()
      reads this
    {
      && currentIndex <= |sampleData|
      && (|sampleData| > 0 ==> currentIndex == CursorAfter(|sampleData|, sampleCount))
      && |queue| <= DemoQueueMaxsize
      && |sampleBuffer| <= shortBufferSize
      && (forall k :: k in shortBuffers ==> |shortBuffers[k]| <= shortBufferSize)
      && (forall k :: k in longBuffers ==> |longBuffers[k]| <= longBufferSize)
    }

    /** The fields `__init__` sets, plus the ring buffers it leaves out,
        which only the corrected loop `RunCollectorStep` uses; they take the
        base collector's default windows of 30 s and 300 s, and no room
        when a negative rate makes a window negative. */
    constructor(sampleData: seq<SampleDict>, sampleRate: real)
      requires sampleRate != 0.0
      ensures Valid()
      ensures this.sampleData == sampleData && sampleInterval == 1.0 / sampleRate
      ensures shortBufferSize == (if Trunc(30.0 * sampleRate) >= 0 then Trunc(30.0 * sampleRate) else 0)
      ensures longBufferSize == (if Trunc(300.0 * sampleRate) >= 0 then Trunc(300.0 * sampleRate) else 0)
      ensures bufferKeys == BufferKeys
      ensures !running && sampleCount == 0 && errorCount == 0 && currentIndex == 0 && queue == []
      ensures sampleBuffer == [] && shortBuffers == map[] && longBuffers == map[]
    {
      this.sampleData := sampleData;
      sampleInterval := 1.0 / sampleRate;
      shortBufferSize := if Trunc(30.0 * sampleRate) >= 0 then Trunc(30.0 * sampleRate) else 0;
      longBufferSize := if Trunc(300.0 * sampleRate) >= 0 then Trunc(300.0 * sampleRate) else 0;
      bufferKeys := BufferKeys;
      running := false;
      sampleCount := 0;
      errorCount := 0;
      currentIndex := 0;
      queue := [];
      sampleBuffer := [];
      shortBuffers := map[];
      longBuffers := map[];
    }

    method Start() returns (ok: bool)
      modifies this`running
      ensures ok && running
    {
      running := true;
      return true;
    }

    method Stop()
      modifies this`running
      ensures !running
    {
      running := false;
    }

    /** `collect_sample`: the entry under the cursor, wrapping to the first
        one past the end, rebuilt as a sample stamped `now`. An empty list
        raises (None here) after resetting the cursor. */
    method CollectSample(now: real) returns (r: Option<TelemetrySample>)
      requires Valid()
      modifies this`currentIndex, this`sampleCount
      ensures Valid()
      ensures |sampleData| == 0 ==> r.None? && currentIndex == 0 && sampleCount == old(sampleCount)
      ensures |sampleData| > 0 ==>
        && r.Some? && fresh(r.value)
        && sampleCount == old(sampleCount) + 1
        && 1 <= currentIndex <= |sampleData|
        && r.value.data == ReplayedData(sampleData[old(sampleCount) % |sampleData|])
        && r.value.ToDict() == sampleData[old(sampleCount) % |sampleData|].(timestamp := now)
        && r.value.readErrors == 0
    {
      if currentIndex >= |sampleData| {
        currentIndex := 0;
      }
      if |sampleData| == 0 {
        return None;
      }
      ReplayCycles(|sampleData|, sampleCount);
      var e := sampleData[currentIndex];
      currentIndex := currentIndex + 1;
      var s := new TelemetrySample(now, ReplayedData(e), e.loadPower, e.dataValid,
                                   e.connectionStatus, 0);
      sampleCount := sampleCount + 1;
      return Some(s);
    }

    /** One pass of the inherited `run_collector` loop on this object as
        its constructor leaves it: with no sample buffer, the append of a
        valid sample raises, so only invalid samples are ever queued, and
        an empty replay list raises in `collect_sample`. */
    method RunCollectorStepAsWritten(now: real) returns (r: Option<TelemetrySample>, raised: bool)
      requires Valid()
      modifies this`currentIndex, this`sampleCount, this`queue
      ensures Valid()
      ensures raised <==> |sampleData| == 0 || sampleData[old(sampleCount) % |sampleData|].dataValid
      ensures raised ==> queue == old(queue)
      ensures !raised ==> r.Some? && queue == Enqueue(old(queue), r.value, DemoQueueMaxsize)
    {
      r := CollectSample(now);
      if r.None? {
        return r, true;
      }
      if r.value.dataValid {
        return r, true;
      }
      EnqueueKeepsOrder(queue, r.value, DemoQueueMaxsize);
      queue := Enqueue(queue, r.value, DemoQueueMaxsize);
      raised := false;
    }

    /** The same pass with the ring buffers in place: a valid sample is
        buffered, and every sample read is queued. */
    method RunCollectorStep(now: real) returns (r: Option<TelemetrySample>)
      requires Valid()
      modifies this`currentIndex, this`sampleCount, this`queue, this`sampleBuffer,
               this`shortBuffers, this`longBuffers
      ensures Valid()
      ensures |sampleData| == 0 ==> r.None? && queue == old(queue)
      ensures |sampleData| > 0 ==> r.Some? && queue == Enqueue(old(queue), r.value, DemoQueueMaxsize)
      ensures r.Some? && r.value.dataValid ==>
        && sampleBuffer == BoundedAppend(old(sampleBuffer), r.value, shortBufferSize)
        && shortBuffers == AppendChannels(old(shortBuffers), bufferKeys,
                                          SampleChannels(r.value.data, r.value.loadPower), shortBufferSize)
        && longBuffers == AppendChannels(old(longBuffers), bufferKeys,
                                         SampleChannels(r.value.data, r.value.loadPower), longBufferSize)
      ensures !(r.Some? && r.value.dataValid) ==>
        sampleBuffer == old(sampleBuffer) && shortBuffers == old(shortBuffers)
        && longBuffers == old(longBuffers)
    {
      r := CollectSample(now);
      if r.None? {
        return;
      }
      AppendToRingBuffers(r.value);
      EnqueueKeepsOrder(queue, r.value, DemoQueueMaxsize);
      queue := Enqueue(queue, r.value, DemoQueueMaxsize);
    }

    /** The base collector's `_append_to_ring_buffers` on the buffers the
        corrected constructor creates. */
    method AppendToRingBuffers(s: TelemetrySample)
      requires Valid()
      modifies this`sampleBuffer, this`shortBuffers, this`longBuffers
      ensures Valid()
      ensures s.dataValid ==>
        && sampleBuffer == BoundedAppend(old(sampleBuffer), s, shortBufferSize)
        && shortBuffers == AppendChannels(old(shortBuffers), bufferKeys,
                                          SampleChannels(s.data, s.loadPower), shortBufferSize)
        && longBuffers == AppendChannels(old(longBuffers), bufferKeys,
                                         SampleChannels(s.data, s.loadPower), longBufferSize)
      ensures !s.dataValid ==>
        sampleBuffer == old(sampleBuffer) && shortBuffers == old(shortBuffers)
        && longBuffers == old(longBuffers)
    {
      if s.dataValid {
        var vals := SampleChannels(s.data, s.loadPower);
        AppendChannelsBounded(shortBuffers, bufferKeys, vals, shortBufferSize);
        AppendChannelsBounded(longBuffers, bufferKeys, vals, longBufferSize);
        sampleBuffer := BoundedAppend(sampleBuffer, s, shortBufferSize);
        shortBuffers := AppendChannels(shortBuffers, bufferKeys, vals, shortBufferSize);
        longBuffers := AppendChannels(longBuffers, bufferKeys, vals, longBufferSize);
      }
    }
  }

  /** The dictionary `_generate_scenario_data` returns, before it becomes
      a sample. */
  datatype ScenarioDict = ScenarioDict(
    solarPower: real, batteryPower: real, gridPower: real, loadPower: real,
    batterySoc: real, gridFrequency: real, inverterTemperature: real,
    systemState: string, runningState: real, emsMode: real)

  /** The scenario's powers and state of charge at `t` seconds since the
      start, before clamping; the load is what balances them. */
  function ScenarioPowers(scenario: string, t: real, sin: real -> real): (real, real, real, real)
  {
    if scenario == "normal" then
      var solar := Max(0.0, 4000.0 + 2000.0 * (0.5 + 0.4 * sin(t / 10.0)));
      var battery := 1000.0 * sin(t / 20.0);
      (solar, battery, solar - 1200.0 - battery, 50.0 + 30.0 * sin(t / 60.0))
    else if scenario == "peak_shaving" then
      var m := FloatMod(t, 60.0);
      var solar := if 10.0 < m < 50.0 then 6000.0 else 2000.0;
      var soc := Max(20.0, 80.0 - t / 10.0);
      var battery := if soc > 25.0 then -2000.0 else 0.0;
      (solar, battery, solar - 3000.0 - battery, soc)
    else if scenario == "grid_outage" then
      (3000.0, -2500.0, 0.0, Max(10.0, 60.0 - t / 5.0))
    else
      (2000.0, 0.0, 500.0, 50.0)
  }

  /** `_generate_scenario_data`: the solar power and load are never
      negative and the state of charge lies in [0, 100]; the load of each
      scenario is fixed, and peak shaving discharges at 2 kW exactly while
      the falling state of charge stays above 25 %. */
  function GenerateScenarioData(scenario: string, t: real, sin: real -> real): (r: ScenarioDict)
    ensures r.solarPower >= 0.0 && r.loadPower >= 0.0 && 0.0 <= r.batterySoc <= 100.0
    ensures scenario == "normal" ==> r.loadPower == 1200.0
    ensures scenario == "peak_shaving" ==>
      && r.loadPower == 3000.0
      && (r.batteryPower == -2000.0 <==> Max(20.0, 80.0 - t / 10.0) > 25.0)
      && (r.batteryPower == 0.0 <==> Max(20.0, 80.0 - t / 10.0) <= 25.0)
    ensures scenario == "grid_outage" ==>
      r.gridPower == 0.0 && r.batteryPower == -2500.0 && r.loadPower == 5500.0
    ensures scenario != "normal" && scenario != "peak_shaving" && scenario != "grid_outage" ==>
      r.loadPower == 1500.0
    ensures r.loadPower == r.solarPower - r.batteryPower - r.gridPower
    ensures r.systemState == "Running " + Title(scenario)
    ensures r.runningState == 11.0 && r.emsMode == 0.0
  {
    var p := ScenarioPowers(scenario, t, sin);
    var load := p.0 - p.1 - p.2;
    ScenarioDict(Max(0.0, p.0), p.1, p.2, Max(0.0, load), Max(0.0, Min(100.0, p.3)),
                 50.0 + 0.1 * sin(t), 45.0 + 10.0 * sin(t / 30.0),
                 "Running " + Title(scenario), 11.0, 0.0)
  }

  /** The sample built from a scenario dictionary: the listed fields,
      defaults for the rest. */
  function ScenarioSampleData(d: ScenarioDict): SampleData
  {
    DefaultData.(solarPower := d.solarPower, batteryPower := d.batteryPower,
                 gridPower := d.gridPower, batterySoc := d.batterySoc,
                 gridFrequency := d.gridFrequency, inverterTemperature := d.inverterTemperature,
                 systemState := d.systemState, runningState := d.runningState, emsMode := d.emsMode)
  }

  /** The synthetic collector. */
  class StubTelemetryCollector {
    const scenario: string
    const sampleInterval: real
    var running: bool
    var sampleCount: nat
    var startTime: real

    constructor(scenario: string, sampleRate: real, now: real)
      requires sampleRate != 0.0
      ensures this.scenario == scenario && sampleInterval == 1.0 / sampleRate
      ensures !running && sampleCount == 0 && startTime == now
    {
      this.scenario := scenario;
      sampleInterval := 1.0 / sampleRate;
      running := false;
      sampleCount := 0;
      startTime := now;
    }

    /** `start`: always succeeds and restarts the scenario clock. */
    method Start(now: real) returns (ok: bool)
      modifies this`running, this`startTime
      ensures ok && running && startTime == now
    {
      running := true;
      startTime := now;
      return true;
    }

    method Stop()
      modifies this`running
      ensures !running
    {
      running := false;
    }

    /** `collect_sample`: the scenario at the elapsed time `now - startTime`,
        as a valid "stubbed" sample stamped `stamp`. */
    method CollectSample(now: real, stamp: real, sin: real -> real) returns (s: TelemetrySample)
      modifies this`sampleCount
      ensures fresh(s) && sampleCount == old(sampleCount) + 1
      ensures s.data == ScenarioSampleData(GenerateScenarioData(scenario, now - startTime, sin))
      ensures s.loadPower == GenerateScenarioData(scenario, now - startTime, sin).loadPower
      ensures s.timestamp == stamp && s.dataValid && s.connectionStatus == "stubbed"
      ensures s.readErrors == 0
    {
      var d := GenerateScenarioData(scenario, now - startTime, sin);
      s := new TelemetrySample(stamp, ScenarioSampleData(d), d.loadPower, true, "stubbed", 0);
      sampleCount := sampleCount + 1;
    }
  }

  /** The in-memory log of sample dictionaries. */
  class TelemetryLogger {
    const filename: string
    var samples: seq<SampleDict>

    constructor(filename: string)
      ensures this.filename == filename && samples == []
    {
      this.filename := filename;
      samples := [];
    }

    /** `log_sample`: exactly one dictionary more, after the earlier ones. */
    method LogSample(s: TelemetrySample)
      modifies this`samples
      ensures samples == old(samples) + [s.ToDict()]
    {
      samples := samples + [s.ToDict()];
    }
  }
}
