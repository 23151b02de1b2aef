/** The telemetry pipeline: a sample record that validates itself and
    repairs its load figure from the energy balance, and the collector that
    turns controller readings into samples, keeps per-channel ring buffers
    of valid samples, counts successes and failures, and hands samples to
    consumers through a bounded queue that drops its oldest entry when
    full. Clock readings, the controller's update and its state are
    parameters. */
module Telemetry {
  import opened Common
  import opened Bounded
  import opened Controller

  /** The fields of a sample that no method changes after it is built. */
  datatype SampleData = SampleData(
    solarPower: real, batteryPower: real, gridPower: real, totalPower: real,
    batterySoc: real, batteryVoltage: real, batteryCurrent: real, batteryTemperature: real,
    batterySoh: real, batteryCapacity: real,
    gridFrequency: real, inverterTemperature: real, systemState: string,
    runningState: real, emsMode: real,
    minSoc: real, maxSoc: real, exportPowerLimit: real, exportPowerLimitEnabled: bool,
    dailyPvGeneration: real, dailyImportedEnergy: real, dailyExportedEnergy: real,
    dailyBatteryCharge: real, dailyBatteryDischarge: real,
    inverterSerial: string, deviceTypeCode: int)

  /** The dataclass defaults. */
  const DefaultData := SampleData(
    0.0, 0.0, 0.0, 0.0, 0.0, 0.0, 0.0, 0.0, 0.0, 0.0, 0.0, 0.0, "", 0.0, 0.0,
    0.0, 0.0, 0.0, false, 0.0, 0.0, 0.0, 0.0, 0.0, "", 0)

  /** The outcome of the plausibility gates, checked in this order. */
  datatype Verdict = Accepted | BadSoc | BadFrequency | BadSolar

  /** SOC must lie in [0, 100], the grid frequency in [45, 55] Hz, and the
      solar power must not be below -50 kW; the first gate that fails
      decides. */
  function Check(d: SampleData): (v: Verdict)
    ensures v == BadSoc <==> !(0.0 <= d.batterySoc <= 100.0)
    ensures v == BadFrequency <==>
      0.0 <= d.batterySoc <= 100.0 && !(45.0 <= d.gridFrequency <= 55.0)
    ensures v == BadSolar <==>
      0.0 <= d.batterySoc <= 100.0 && 45.0 <= d.gridFrequency <= 55.0 && d.solarPower < -50000.0
    ensures v == Accepted <==>
      0.0 <= d.batterySoc <= 100.0 && 45.0 <= d.gridFrequency <= 55.0 && d.solarPower >= -50000.0
  {
    if !(0.0 <= d.batterySoc <= 100.0) then BadSoc
    else if !(45.0 <= d.gridFrequency <= 55.0) then BadFrequency
    else if d.solarPower < -50000.0 then BadSolar
    else Accepted
  }

  /** The load the energy balance implies: grid minus battery minus solar. */
  function BalancedLoad(d: SampleData): real
  {
    d.gridPower - d.batteryPower - d.solarPower
  }

  /** The stored load is kept when it is within 100 W of the balanced
      load, and replaced by it otherwise. */
  function Reconcile(d: SampleData, load: real): (r: real)
    ensures Abs(BalancedLoad(d) - r) <= 100.0
    ensures Abs(BalancedLoad(d) - load) <= 100.0 ==> r == load
    ensures Abs(BalancedLoad(d) - load) > 100.0 ==> r == BalancedLoad(d)
  {
    var calculated := BalancedLoad(d);
    if Abs(calculated - load) > 100.0 then calculated else load
  }

  /** Reconciling twice changes nothing more. */
  lemma ReconcileIdempotent(d: SampleData, load: real)
    ensures Reconcile(d, Reconcile(d, load)) == Reconcile(d, load)
  {
  }

  /** The serialised form `to_dict` produces (the wall-clock `datetime`
      field is not part of this model). */
  datatype SampleDict = SampleDict(
    timestamp: real, solarPower: real, batteryPower: real, gridPower: real, loadPower: real,
    batterySoc: real, gridFrequency: real, inverterTemperature: real, systemState: string,
    dataValid: bool, connectionStatus: string)

  class TelemetrySample {
    const timestamp: real
    const data: SampleData
    var loadPower: real
    var dataValid: bool
    const connectionStatus: string
    const readErrors: int

    constructor(timestamp: real, data: SampleData, loadPower: real, dataValid: bool,
                connectionStatus: string, readErrors: int)
      ensures this.timestamp == timestamp && this.data == data && this.loadPower == loadPower
      ensures this.dataValid == dataValid && this.connectionStatus == connectionStatus
      ensures this.readErrors == readErrors
    {
      this.timestamp := timestamp;
      this.data := data;
      this.loadPower := loadPower;
      this.dataValid := dataValid;
      this.connectionStatus := connectionStatus;
      this.readErrors := readErrors;
    }

    /** `validate`: the gates run before anything changes; a sample that
        passes them has its load reconciled with the energy balance. */
    method Validate() returns (ok: bool)
      modifies this`loadPower
      ensures ok <==> Check(data) == Accepted
      ensures ok ==> loadPower == Reconcile(data, old(loadPower))
      ensures !ok ==> loadPower == old(loadPower)
      ensures ok ==> Abs(BalancedLoad(data) - loadPower) <= 100.0
    {
      if !(0.0 <= data.batterySoc <= 100.0) {
        return false;
      }
      if !(45.0 <= data.gridFrequency <= 55.0) {
        return false;
      }
      if data.solarPower < -50000.0 {
        return false;
      }
      var calculated := data.gridPower - data.batteryPower - data.solarPower;
      if Abs(calculated - loadPower) > 100.0 {
        loadPower := calculated;
      }
      ok := true;
    }

    /** `to_dict`: the sample's current load and validity, with the
        measurements it was built from. */
    function ToDict(): (r: SampleDict)
      reads this
      ensures r.loadPower == loadPower && r.dataValid == dataValid
      ensures r.solarPower == data.solarPower && r.batteryPower == data.batteryPower
      ensures r.gridPower == data.gridPower && r.batterySoc == data.batterySoc
      ensures r.timestamp == timestamp && r.connectionStatus == connectionStatus
      ensures r.gridFrequency == data.gridFrequency && r.inverterTemperature == data.inverterTemperature
      ensures r.systemState == data.systemState
    {
      SampleDict(timestamp, data.solarPower, data.batteryPower, data.gridPower, loadPower,
                 data.batterySoc, data.gridFrequency, data.inverterTemperature, data.systemState,
                 dataValid, connectionStatus)
    }
  }

  /** The fields `_create_sample_from_controller_data` copies. The device
      type code is always 0 because the state does not carry it. */
  function SampleFromState(s: ControllerState): (d: SampleData)
    ensures d.solarPower == s.power.solarPower && d.gridPower == s.power.gridPower
    ensures d.batteryPower == s.power.batteryPower
    ensures d.batterySoc == s.battery.level && d.gridFrequency == s.power.gridFrequency
    ensures d.systemState == s.info.systemStateText && d.deviceTypeCode == 0
  {
    SampleData(
      solarPower := s.power.solarPower, batteryPower := s.power.batteryPower,
      gridPower := s.power.gridPower, totalPower := s.power.totalPower,
      batterySoc := s.battery.level, batteryVoltage := s.battery.voltage,
      batteryCurrent := s.battery.current, batteryTemperature := s.battery.temperature,
      batterySoh := s.battery.stateOfHealth, batteryCapacity := s.battery.capacity,
      gridFrequency := s.power.gridFrequency, inverterTemperature := s.power.inverterTemperature,
      systemState := s.info.systemStateText, runningState := s.info.runningState,
      emsMode := s.info.emsMode, minSoc := s.info.minSoc, maxSoc := s.info.maxSoc,
      exportPowerLimit := s.info.exportPowerLimit,
      exportPowerLimitEnabled := s.info.exportPowerLimitEnabled,
      dailyPvGeneration := s.energy.dailyPvGeneration,
      dailyImportedEnergy := s.energy.dailyImportedEnergy,
      dailyExportedEnergy := s.energy.dailyExportedEnergy,
      dailyBatteryCharge := s.energy.dailyBatteryCharge,
      dailyBatteryDischarge := s.energy.dailyBatteryDischarge,
      inverterSerial := s.info.inverterSerial, deviceTypeCode := 0)
  }

  /** The channels kept in ring buffers, in the order they are appended. */
  const BufferKeys: seq<string> := [
    "solar_power", "battery_power", "grid_power", "load_power",
    "battery_soc", "battery_voltage", "battery_current", "battery_temperature",
    "grid_frequency", "inverter_temperature"
  ]

  lemma BufferKeysDistinct()
    ensures Distinct(BufferKeys)
  {
  }

  /** The `sample_data` dictionary: the value a sample contributes to each
      buffered channel. */
  function SampleChannels(d: SampleData, load: real): map<string, real>
  {
    map["solar_power" := d.solarPower, "battery_power" := d.batteryPower,
        "grid_power" := d.gridPower, "load_power" := load,
        "battery_soc" := d.batterySoc, "battery_voltage" := d.batteryVoltage,
        "battery_current" := d.batteryCurrent,
        "battery_temperature" := d.batteryTemperature,
        "grid_frequency" := d.gridFrequency,
        "inverter_temperature" := d.inverterTemperature]
  }

  /** The queue after a `put_nowait`, or, when it is full, after dropping
      the oldest entry and then putting; a `maxsize` of 0 or less means
      unbounded. */
  function Enqueue<T>(q: seq<T>, x: T, maxsize: int): (r: seq<T>)
    ensures !(maxsize > 0 && |q| >= maxsize) ==> r == q + [x]
    ensures maxsize > 0 && |q| >= maxsize ==> r == q[1..] + [x]
    ensures |r| > 0 && r[|r| - 1] == x
    ensures maxsize > 0 && |q| <= maxsize ==> |r| <= maxsize
  {
    if maxsize > 0 && |q| >= maxsize then q[1..] + [x] else q + [x]
  }

  /** Enqueueing preserves the order of what is kept: the result minus its
      newest entry is a suffix of the old queue, at most one entry shorter. */
  lemma EnqueueKeepsOrder<T>(q: seq<T>, x: T, maxsize: int)
    ensures var r := Enqueue(q, x, maxsize);
      && r[..|r| - 1] == q[|q| - (|r| - 1)..]
      && |q| - 1 <= |r| - 1 <= |q|
  {
    var r := Enqueue(q, x, maxsize);
    assert r[..|r| - 1] == if maxsize > 0 && |q| >= maxsize then q[1..] else q;
  }

  /** How the update step went: it returned a flag, or it raised. */
  datatype UpdateResult = Updated(ok: bool) | Raised

  /** `get_stats`. */
  datatype CollectorStats = CollectorStats(
    running: bool, sampleCount: nat, errorCount: nat, errorRate: real,
    queueSize: nat, queueMaxsize: int, sampleRateHz: real)

  class TelemetryCollector {
    const sampleRate: real
    const sampleInterval: real
    const queueMaxsize: int
    const shortBufferSize: nat
    const longBufferSize: nat
    const bufferKeys: seq<string>
    var running: bool
    var sampleCount: nat
    var errorCount: nat
    var shortBuffers: map<string, seq<real>>
    var longBuffers: map<string, seq<real>>
    var sampleBuffer: seq<TelemetrySample>
    var queue: seq<TelemetrySample>

    /** The buffer capacities are `int(window * rate)`; `1 / rate` and the
        capacity checks of `deque` are what the source needs to succeed. */
    constructor(sampleRate: real, queueMaxsize: int, shortWindowSeconds: real, longWindowSeconds: real)
      requires sampleRate != 0.0
      requires Trunc(shortWindowSeconds * sampleRate) >= 0
      requires Trunc(longWindowSeconds * sampleRate) >= 0
      ensures this.sampleRate == sampleRate && sampleInterval == 1.0 / sampleRate
      ensures this.queueMaxsize == queueMaxsize
      ensures shortBufferSize == Trunc(shortWindowSeconds * sampleRate)
      ensures longBufferSize == Trunc(longWindowSeconds * sampleRate)
      ensures bufferKeys == BufferKeys
      ensures !running && sampleCount == 0 && errorCount == 0
      ensures shortBuffers == map[] && longBuffers == map[] && sampleBuffer == [] && queue == []
    {
      this.sampleRate := sampleRate;
      sampleInterval := 1.0 / sampleRate;
      this.queueMaxsize := queueMaxsize;
      shortBufferSize := Trunc(shortWindowSeconds * sampleRate);
      longBufferSize := Trunc(longWindowSeconds * sampleRate);
      bufferKeys := BufferKeys;
      running := false;
      sampleCount := 0;
      errorCount := 0;
      shortBuffers := map[];
      longBuffers := map[];
      sampleBuffer := [];
      queue := [];
    }

    /** Every buffer within its capacity and the queue within its bound. */
    ghost predicate Valid()
      reads this
    {
      && (forall k :: k in shortBuffers ==> |shortBuffers[k]| <= shortBufferSize)
      && (forall k :: k in longBuffers ==> |longBuffers[k]| <= longBufferSize)
      && |sampleBuffer| <= shortBufferSize
      && (queueMaxsize > 0 ==> |queue| <= queueMaxsize)
    }

    /** `start`: running once the controller connected. */
    method Start(connected: bool) returns (ok: bool)
      modifies this`running
      ensures ok == connected
      ensures running == (connected || old(running))
    {
      if connected {
        running := true;
        return true;
      }
      return false;
    }

    method Stop()
      modifies this`running
      ensures !running
    {
      running := false;
    }

    /** `_append_to_ring_buffers`: an invalid sample changes nothing; a valid
        one is appended once to the sample buffer and its value for every
        channel to both that channel's short and long buffer. */
    method AppendToRingBuffers(sample: TelemetrySample)
      requires Valid()
      modifies this`shortBuffers, this`longBuffers, this`sampleBuffer
      ensures Valid()
      ensures !sample.dataValid ==>
        shortBuffers == old(shortBuffers) && longBuffers == old(longBuffers)
        && sampleBuffer == old(sampleBuffer)
      ensures sample.dataValid ==>
        && sampleBuffer == BoundedAppend(old(sampleBuffer), sample, shortBufferSize)
        && shortBuffers == AppendChannels(old(shortBuffers), bufferKeys,
                                          SampleChannels(sample.data, sample.loadPower), shortBufferSize)
        && longBuffers == AppendChannels(old(longBuffers), bufferKeys,
                                         SampleChannels(sample.data, sample.loadPower), longBufferSize)
    {
      if !sample.dataValid {
        return;
      }
      var vals := SampleChannels(sample.data, sample.loadPower);
      sampleBuffer := BoundedAppend(sampleBuffer, sample, shortBufferSize);
      AppendValues(bufferKeys, vals);
    }

    /** The loop over the channel keys: each key's value goes to the end of
        its short and its long buffer. */
    method AppendValues(keys: seq<string>, vals: map<string, real>)
      requires forall k :: k in shortBuffers ==> |shortBuffers[k]| <= shortBufferSize
      requires forall k :: k in longBuffers ==> |longBuffers[k]| <= longBufferSize
      modifies this`shortBuffers, this`longBuffers
      ensures shortBuffers == AppendChannels(old(shortBuffers), keys, vals, shortBufferSize)
      ensures longBuffers == AppendChannels(old(longBuffers), keys, vals, longBufferSize)
      ensures forall k :: k in shortBuffers ==> |shortBuffers[k]| <= shortBufferSize
      ensures forall k :: k in longBuffers ==> |longBuffers[k]| <= longBufferSize
    {
      ghost var short0, long0 := shortBuffers, longBuffers;
      var i := 0;
      while i < |keys|
        invariant 0 <= i <= |keys|
        invariant shortBuffers == AppendChannels(short0, keys[..i], vals, shortBufferSize)
        invariant longBuffers == AppendChannels(long0, keys[..i], vals, longBufferSize)
      {
        AppendChannelsStep(short0, keys, i, vals, shortBufferSize);
        AppendChannelsStep(long0, keys, i, vals, longBufferSize);
        var key := keys[i];
        if key in vals {
          var value := vals[key];
          var shortNext := BoundedAppend(GetOrEmpty(shortBuffers, key), value, shortBufferSize);
          var longNext := BoundedAppend(GetOrEmpty(longBuffers, key), value, longBufferSize);
          shortBuffers := shortBuffers[key := shortNext];
          longBuffers := longBuffers[key := longNext];
        }
        i := i + 1;
      }
      assert keys[..i] == keys;
      AppendChannelsBounded(short0, keys, vals, shortBufferSize);
      AppendChannelsBounded(long0, keys, vals, longBufferSize);
    }

    /** `_create_sample_from_controller_data`: a valid sample whose load is
        the balance `grid - battery - solar`, or, when reading the state
        raised, a default invalid sample counting one more error. */
    method CreateSample(state: Option<ControllerState>, now: real) returns (s: TelemetrySample)
      ensures fresh(s)
      ensures state.Some? ==>
        && s.data == SampleFromState(state.value)
        && s.loadPower == BalancedLoad(s.data)
        && s.dataValid && s.connectionStatus == "connected" && s.readErrors == errorCount
      ensures state.None? ==>
        && s.data == DefaultData && s.loadPower == 0.0
        && !s.dataValid && s.connectionStatus == "error" && s.readErrors == errorCount + 1
      ensures s.timestamp == now
    {
      if state.None? {
        s := new TelemetrySample(now, DefaultData, 0.0, false, "error", errorCount + 1);
        return;
      }
      var d := SampleFromState(state.value);
      var calculated := d.gridPower - d.batteryPower - d.solarPower;
      s := new TelemetrySample(now, d, calculated, true, "connected", errorCount);
    }

    /** What `collect_sample` returns for an update outcome and an optional
        controller state, with `errors0` the error count before the call:
        the "exception" and "read_error" samples for a raising or failed
        update, the "error" sample when reading the state raised, and
        otherwise the sample built from the state, valid exactly when it
        passes the gates. */
    ghost predicate CollectedFrom(s: TelemetrySample, update: UpdateResult,
                                  state: Option<ControllerState>, errors0: nat, now: real)
      reads s
    {
      && s.timestamp == now
      && (update == Raised ==>
            && s.data == DefaultData && s.loadPower == 0.0 && !s.dataValid
            && s.connectionStatus == "exception" && s.readErrors == errors0 + 1)
      && (update == Updated(false) ==>
            && s.data == DefaultData && s.loadPower == 0.0 && !s.dataValid
            && s.connectionStatus == "read_error" && s.readErrors == errors0 + 1)
      && (update == Updated(true) && state.None? ==>
            && s.data == DefaultData && s.loadPower == 0.0 && !s.dataValid
            && s.connectionStatus == "error" && s.readErrors == errors0 + 1)
      && (update == Updated(true) && state.Some? ==>
            && s.data == SampleFromState(state.value)
            && (s.dataValid <==> Check(s.data) == Accepted)
            && s.loadPower == (if s.dataValid then Reconcile(s.data, BalancedLoad(s.data))
                               else BalancedLoad(s.data))
            && s.connectionStatus == "connected" && s.readErrors == errors0)
    }

    /** A collected sample is valid exactly when the update succeeded, the
        state could be read and the sample built from it passes the gates. */
    lemma CollectedValidIff(s: TelemetrySample, update: UpdateResult,
                            state: Option<ControllerState>, errors0: nat, now: real)
      requires CollectedFrom(s, update, state, errors0, now)
      ensures s.dataValid <==>
        update == Updated(true) && state.Some? && Check(SampleFromState(state.value)) == Accepted
    {
      if update.Updated? && update.ok && state.Some? {
        assert s.data == SampleFromState(state.value);
      }
    }

    /** `collect_sample`: exactly one of the two counters advances, the
        success counter exactly when the returned sample is valid, and the
        sample is the one `CollectedFrom` describes. */
    method CollectSample(update: UpdateResult, state: Option<ControllerState>, now: real)
      returns (s: TelemetrySample)
      modifies this`sampleCount, this`errorCount
      ensures fresh(s)
      ensures CollectedFrom(s, update, state, old(errorCount), now)
      ensures s.dataValid ==> sampleCount == old(sampleCount) + 1 && errorCount == old(errorCount)
      ensures !s.dataValid ==> sampleCount == old(sampleCount) && errorCount == old(errorCount) + 1
    {
      if update == Raised {
        errorCount := errorCount + 1;
        s := new TelemetrySample(now, DefaultData, 0.0, false, "exception", errorCount);
        return;
      }
      if !update.ok {
        errorCount := errorCount + 1;
        s := new TelemetrySample(now, DefaultData, 0.0, false, "read_error", errorCount);
        return;
      }
      s := CreateSample(state, now);
      var passed := s.Validate();
      if passed {
        sampleCount := sampleCount + 1;
      } else {
        errorCount := errorCount + 1;
        s.dataValid := false;
      }
    }

    /** One pass of `run_collector`'s loop body while running: collect,
        buffer, then enqueue with drop-oldest. */
    method RunCollectorStep(update: UpdateResult, state: Option<ControllerState>, now: real)
      returns (s: TelemetrySample)
      requires Valid()
      modifies this`sampleCount, this`errorCount, this`shortBuffers, this`longBuffers,
               this`sampleBuffer, this`queue
      ensures Valid()
      ensures fresh(s)
      ensures CollectedFrom(s, update, state, old(errorCount), now)
      ensures s.dataValid ==> sampleCount == old(sampleCount) + 1 && errorCount == old(errorCount)
      ensures !s.dataValid ==> sampleCount == old(sampleCount) && errorCount == old(errorCount) + 1
      ensures queue == Enqueue(old(queue), s, queueMaxsize)
      ensures !s.dataValid ==>
        shortBuffers == old(shortBuffers) && longBuffers == old(longBuffers)
        && sampleBuffer == old(sampleBuffer)
      ensures s.dataValid ==>
        && sampleBuffer == BoundedAppend(old(sampleBuffer), s, shortBufferSize)
        && shortBuffers == AppendChannels(old(shortBuffers), bufferKeys,
                                          SampleChannels(s.data, s.loadPower), shortBufferSize)
        && longBuffers == AppendChannels(old(longBuffers), bufferKeys,
                                         SampleChannels(s.data, s.loadPower), longBufferSize)
    {
      s := CollectSample(update, state, now);
      AppendToRingBuffers(s);
      queue := Enqueue(queue, s, queueMaxsize);
    }

    /** `get_sample_nowait`: None exactly when the queue is empty, else the
        oldest entry, which leaves the queue. */
    method GetSampleNowait() returns (r: Option<TelemetrySample>)
      modifies this`queue
      ensures old(queue) == [] ==> r == None && queue == []
      ensures old(queue) != [] ==> r == Some(old(queue)[0]) && queue == old(queue)[1..]
    {
      if queue == [] {
        return None;
      }
      r := Some(queue[0]);
      queue := queue[1..];
    }

    /** `get_samples_batch`: up to `maxSamples` samples in queue order. The
        first `get` waits when the queue is empty; `arriving` is the sample
        a producer then supplies. */
    method GetSamplesBatch(maxSamples: int, arriving: TelemetrySample) returns (samples: seq<TelemetrySample>)
      modifies this`queue
      ensures maxSamples <= 0 ==> samples == [] && queue == old(queue)
      ensures maxSamples > 0 && old(queue) == [] ==> samples == [arriving] && queue == []
      ensures maxSamples > 0 && old(queue) != [] ==>
        var n := MinInt(maxSamples, |old(queue)|);
        samples == old(queue)[..n] && queue == old(queue)[n..]
      ensures |samples| <= MaxInt(0, maxSamples)
      ensures maxSamples > 0 ==> |samples| >= 1
    {
      samples := [];
      if maxSamples <= 0 {
        return;
      }
      var remaining := maxSamples;
      var first: TelemetrySample;
      if queue == [] {
        first := arriving;
      } else {
        first := queue[0];
        queue := queue[1..];
      }
      samples := [first];
      remaining := remaining - 1;
      ghost var q0 := old(queue);
      while remaining > 0
        invariant 0 <= remaining < maxSamples
        invariant |samples| == maxSamples - remaining
        invariant q0 == [] ==> samples == [arriving] && queue == []
        invariant q0 != [] ==> samples + queue == q0 && |samples| <= |q0|
        decreases remaining
      {
        var next := GetSampleNowait();
        if next.None? {
          break;
        }
        samples := samples + [next.value];
        remaining := remaining - 1;
      }
      if q0 != [] {
        assert samples == q0[..|samples|];
        assert queue == q0[|samples|..];
      }
    }

    /** `get_stats`: the error rate divides by the success count, or by 1
        before any success; the rate in Hz is the inverse of the interval. */
    function GetStats(): (r: CollectorStats)
      reads this
      requires sampleRate != 0.0 && sampleInterval == 1.0 / sampleRate
      ensures r.sampleCount == sampleCount && r.errorCount == errorCount
      ensures sampleCount == 0 ==> r.errorRate == errorCount as real
      ensures sampleCount > 0 ==> r.errorRate * sampleCount as real == errorCount as real
      ensures r.errorRate >= 0.0
      ensures r.queueSize == |queue| && r.sampleRateHz == sampleRate
      ensures r.running == running && r.queueMaxsize == queueMaxsize
    {
      CollectorStats(running, sampleCount, errorCount,
                     errorCount as real / MaxInt(1, sampleCount) as real,
                     |queue|, queueMaxsize, 1.0 / sampleInterval)
    }
  }
}
