/** The synchronous terminal monitor: rolling statistics over the newest
    readings of each channel, the EMS mode names, the house load derived
    from the energy balance, the per-channel histories the polling loop
    fills, and the balance arithmetic behind its display. Battery power is
    positive when charging. The source mixes two grid conventions: the
    polling loop's readings and `HouseLoad` take grid positive when
    importing, while the balance display, `DisplayedBalance`, takes it
    positive when exporting. The square root is a parameter. */
module Monitor {
  import opened Common
  import opened Series
  import opened Text
  import opened Bounded
  import opened Controller

  datatype SeriesStats = SeriesStats(
    current: real, avg: real, maxValue: real, minValue: real,
    stdDev: real, range: real, trend: real)

  const ZeroStats := SeriesStats(0.0, 0.0, 0.0, 0.0, 0.0, 0.0, 0.0)

  /** The number of newest readings the statistics use. */
  const StatsWindow: nat := 20

  /** The number of newest readings the trend is fitted to. */
  const TrendPoints: nat := 20

  /** The capacities of the short and the long history of each channel. */
  const HistoryLength: nat := 60
  const LongHistoryLength: nat := 600

  /** The least-squares slope of the newest twenty readings of `recent`,
      scaled to a per-second rate; zero with fewer than twenty. */
  function Trend(recent: seq<real>, updateFrequency: real): (t: real)
    ensures |recent| < TrendPoints ==> t == 0.0
  {
    if |recent| >= TrendPoints then Slope(recent[|recent| - TrendPoints..]) * updateFrequency
    else 0.0
  }

  /** The statistics of a non-empty window of readings: the sample
      standard deviation needs two of them and is 0 otherwise. */
  function WindowStats(w: seq<real>, updateFrequency: real, sqrt: real -> real): (r: SeriesStats)
    requires |w| >= 1
    ensures r.current == w[|w| - 1]
    ensures r.minValue in w && r.maxValue in w
    ensures forall i :: 0 <= i < |w| ==> r.minValue <= w[i] <= r.maxValue
    ensures r.minValue <= r.avg <= r.maxValue
    ensures r.range == r.maxValue - r.minValue && r.range >= 0.0
    ensures r.trend == Trend(w, updateFrequency)
    ensures |w| == 1 ==> r.stdDev == 0.0
    ensures r.avg == Mean(w)
    ensures |w| > 1 ==> r.stdDev == sqrt(SampleVariance(w))
  {
    var mx := MaxOf(w);
    var mn := MinOf(w);
    MeanBetween(w);
    var stdDev := if |w| > 1 then sqrt(SampleVariance(w)) else 0.0;
    SeriesStats(w[|w| - 1], Mean(w), mx, mn, stdDev, mx - mn, Trend(w, updateFrequency))
  }

  /** `calculate_statistics`: nothing to report for an unknown channel or
      fewer than two readings; otherwise the statistics of the newest
      `min(20, len)` readings, with the least-squares trend of the newest
      twenty scaled to a per-second rate. */
  function CalculateStatistics(history: map<string, seq<real>>, key: string, updateFrequency: real,
                               sqrt: real -> real): (r: SeriesStats)
    ensures key !in history || |history[key]| < 2 ==> r == ZeroStats
    ensures key in history && |history[key]| >= 2 ==>
      var data := history[key];
      var w := data[|data| - MinInt(StatsWindow, |data|)..];
      && r.current == data[|data| - 1]
      && r.minValue in w && r.maxValue in w
      && (forall i :: 0 <= i < |w| ==> r.minValue <= w[i] <= r.maxValue)
      && r.avg == Mean(w) && r.stdDev == sqrt(SampleVariance(w))
      && r.minValue <= r.avg <= r.maxValue
      && r.range == r.maxValue - r.minValue && r.range >= 0.0
      && r.trend == Trend(w, updateFrequency)
      && r == WindowStats(w, updateFrequency, sqrt)
  {
    if key !in history || |history[key]| < 2 then ZeroStats
    else
      var data := history[key];
      // `data[-min(20, len(data)):]`, with at least two readings
      var recent := data[|data| - MinInt(StatsWindow, |data|)..];
      assert recent[|recent| - 1] == data[|data| - 1];
      WindowStats(recent, updateFrequency, sqrt)
  }

  /** The trend is zero until twenty readings are stored, and a channel
      whose newest twenty readings are `a + b*i` has trend
      `b * updateFrequency`. */
  lemma LinearTrend(data: seq<real>, updateFrequency: real, a: real, b: real)
    requires |data| >= TrendPoints
    requires OnLine(data[|data| - TrendPoints..], a, b)
    ensures Trend(data[|data| - MinInt(StatsWindow, |data|)..], updateFrequency) == b * updateFrequency
  {
    var recent := data[|data| - MinInt(StatsWindow, |data|)..];
    assert MinInt(StatsWindow, |data|) == TrendPoints;
    assert recent[|recent| - TrendPoints..] == data[|data| - TrendPoints..];
    LinearWindowTrend(recent, updateFrequency, a, b);
  }

  /** The trend of a window whose newest twenty readings lie on a line. */
  lemma LinearWindowTrend(w: seq<real>, rate: real, a: real, b: real)
    requires |w| >= TrendPoints
    requires OnLine(w[|w| - TrendPoints..], a, b)
    ensures Trend(w, rate) == b * rate
  {
    LinearSlope(w[|w| - TrendPoints..], a, b);
  }

  /** Readings older than the newest twenty do not affect the statistics. */
  lemma OnlyRecentReadingsCount(h1: map<string, seq<real>>, h2: map<string, seq<real>>, key: string,
                                updateFrequency: real, sqrt: real -> real)
    requires key in h1 && key in h2
    requires |h1[key]| >= StatsWindow && |h2[key]| >= StatsWindow
    requires h1[key][|h1[key]| - StatsWindow..] == h2[key][|h2[key]| - StatsWindow..]
    ensures CalculateStatistics(h1, key, updateFrequency, sqrt)
            == CalculateStatistics(h2, key, updateFrequency, sqrt)
  {
    StatisticsOfFullWindow(h1, key, updateFrequency, sqrt);
    StatisticsOfFullWindow(h2, key, updateFrequency, sqrt);
  }

  /** Once twenty readings are stored the statistics are those of the
      newest twenty. */
  lemma StatisticsOfFullWindow(h: map<string, seq<real>>, key: string, updateFrequency: real,
                               sqrt: real -> real)
    requires key in h && |h[key]| >= StatsWindow
    ensures CalculateStatistics(h, key, updateFrequency, sqrt)
            == WindowStats(h[key][|h[key]| - StatsWindow..], updateFrequency, sqrt)
  {
    assert MinInt(StatsWindow, |h[key]|) == StatsWindow;
  }

  /** The names `get_ems_mode_description` knows, by mode number. */
  const EmsModes: map<int, string> := map[
    0 := "Self Consumption", 1 := "Forced Time", 2 := "Backup Mode",
    3 := "Feed-in Priority", 4 := "Off-Grid Mode", 5 := "External EMS"]

  const EmsModeNames: seq<string> := [
    "Self Consumption", "Forced Time", "Backup Mode",
    "Feed-in Priority", "Off-Grid Mode", "External EMS"]

  /** `get_ems_mode_description`: the name of modes 0 to 5, otherwise
      `Unknown (n)`. */
  function EmsModeDescription(mode: int): (r: string)
    ensures 0 <= mode < 6 ==> r == EmsModeNames[mode]
    ensures !(0 <= mode < 6) ==> r == "Unknown (" + IntToDecimal(mode) + ")"
  {
    if mode in EmsModes then EmsModes[mode] else "Unknown (" + IntToDecimal(mode) + ")"
  }

  /** Different modes are described differently, so the description
      identifies the mode. */
  lemma EmsModeDescriptionInjective(a: int, b: int)
    requires EmsModeDescription(a) == EmsModeDescription(b)
    ensures a == b
  {
    var da, db := EmsModeDescription(a), EmsModeDescription(b);
    if 0 <= a < 6 && 0 <= b < 6 {
      KnownModeSignature(a);
      KnownModeSignature(b);
    } else if !(0 <= a < 6) && !(0 <= b < 6) {
      UnknownModeNumber(a);
      UnknownModeNumber(b);
      IntToDecimalInjective(a, b);
    } else {
      var known := if 0 <= a < 6 then a else b;
      KnownModeSignature(known);
    }
  }

  /** Each known name is told apart by its first letter and its length,
      and none starts like `Unknown (`. */
  lemma KnownModeSignature(m: int)
    requires 0 <= m < 6
    ensures var d := EmsModeDescription(m);
      && |d| > 0 && d[0] != 'U'
      && d[0] == "SFBFOE"[m] && |d| == [16, 11, 11, 16, 13, 12][m]
  {
  }

  /** The number can be read back out of an unknown-mode description. */
  lemma UnknownModeNumber(m: int)
    requires !(0 <= m < 6)
    ensures var d := EmsModeDescription(m);
      && |d| > 10 && d[0] == 'U' && d[9..|d| - 1] == IntToDecimal(m)
  {
    var d := EmsModeDescription(m);
    assert d == "Unknown (" + IntToDecimal(m) + ")";
  }

  /** The house load `run` derives from the import/export and
      charge/discharge parts of the grid and battery flows. */
  function HouseLoad(solar: real, grid: real, battery: real): (r: real)
    ensures r == solar + grid - battery
  {
    var gridImport := Max(0.0, grid);
    var gridExport := Max(0.0, -grid);
    var batteryCharge := Max(0.0, battery);
    var batteryDischarge := Max(0.0, -battery);
    solar + gridImport - batteryCharge + batteryDischarge - gridExport
  }

  /** The load and the balance error `display_thermodynamic_balance`
      prints: the load closes the balance `grid = sun - load - battery`, so
      in exact arithmetic the error is zero. */
  function DisplayedBalance(sun: real, grid: real, battery: real): (r: (real, real))
    ensures r.0 + battery + grid == sun
    ensures r.1 == 0.0
  {
    var load := sun - battery - grid;
    var calculatedGrid := sun - load - battery;
    (load, Abs(grid - calculatedGrid))
  }

  /** The keys of the flattened reading, in insertion order. */
  const CurrentKeys: seq<string> := [
    "solar_power", "battery_power", "grid_power", "battery_soc", "grid_frequency",
    "inverter_temp", "ems_mode", "system_state", "running_state", "house_load"]

  lemma CurrentKeysDistinct()
    ensures Distinct(CurrentKeys)
  {
  }

  /** The numeric entries of the flattened reading; `system_state` holds
      text, so the history skips it. */
  function NumericReadings(s: ControllerState): map<string, real>
  {
    map["solar_power" := s.power.solarPower, "battery_power" := s.power.batteryPower,
        "grid_power" := s.power.gridPower, "battery_soc" := s.battery.level,
        "grid_frequency" := s.power.gridFrequency,
        "inverter_temp" := s.power.inverterTemperature,
        "ems_mode" := s.info.emsMode, "running_state" := s.info.runningState,
        "house_load" := HouseLoad(s.power.solarPower, s.power.gridPower, s.power.batteryPower)]
  }

  /** The long history stores each reading with its timestamp. */
  function Stamped(vals: map<string, real>, timestamp: real): map<string, (real, real)>
  {
    map k | k in vals :: (timestamp, vals[k])
  }

  /** After one reading the house-load history ends with the balance
      `HouseLoad` computes (`solar + grid - battery`) and the text state gets no history,
      whatever the order of the distinct keys visited (the monitor visits
      `CurrentKeys`); every other numeric channel is covered by
      `AppendChannelsCovers` with `NumericReadingsKeys`. */
  lemma RecordedReadings(m: map<string, seq<real>>, keys: seq<string>, s: ControllerState)
    requires Distinct(keys) && "house_load" in keys
    ensures var r := AppendChannels(m, keys, NumericReadings(s), HistoryLength);
      && "house_load" in r
      && r["house_load"] == BoundedAppend(GetOrEmpty(m, "house_load"),
                                          HouseLoad(s.power.solarPower, s.power.gridPower, s.power.batteryPower),
                                          HistoryLength)
      && ("system_state" in r <==> "system_state" in m)
      && ("system_state" in m ==> r["system_state"] == m["system_state"])
  {
    HouseLoadEntry(s);
    HouseLoadAppended(m, keys, NumericReadings(s),
                      HouseLoad(s.power.solarPower, s.power.gridPower, s.power.batteryPower));
  }

  lemma HouseLoadEntry(s: ControllerState)
    ensures "house_load" in NumericReadings(s) && "system_state" !in NumericReadings(s)
    ensures NumericReadings(s)["house_load"]
            == HouseLoad(s.power.solarPower, s.power.gridPower, s.power.batteryPower)
  {
  }

  /** `RecordedReadings` for any reading with a house-load entry `x` and no
      system-state entry. */
  lemma HouseLoadAppended(m: map<string, seq<real>>, keys: seq<string>, vals: map<string, real>, x: real)
    requires Distinct(keys) && "house_load" in keys
    requires "house_load" in vals && vals["house_load"] == x && "system_state" !in vals
    ensures var r := AppendChannels(m, keys, vals, HistoryLength);
      && "house_load" in r
      && r["house_load"] == BoundedAppend(GetOrEmpty(m, "house_load"), x, HistoryLength)
      && ("system_state" in r <==> "system_state" in m)
      && ("system_state" in m ==> r["system_state"] == m["system_state"])
  {
    AppendChannelsAt(m, keys, vals, HistoryLength, "house_load");
    AppendChannelsSkips(m, keys, vals, HistoryLength, "system_state");
  }

  /** The reading has a house-load entry, no system-state entry, and only
      keys of the flattened reading. */
  lemma NumericReadingsKeys(s: ControllerState)
    ensures var vals := NumericReadings(s);
      && "house_load" in vals && "house_load" in CurrentKeys
      && vals["house_load"] == s.power.solarPower + s.power.gridPower - s.power.batteryPower
      && "system_state" !in vals
      && (forall k :: k in vals ==> k in CurrentKeys)
  {
    assert CurrentKeys[9] == "house_load";
  }

  class EnhancedSungrowMonitor {
    const updateFrequency: real
    const updateInterval: real
    var running: bool
    var dataHistory: map<string, seq<real>>
    var longHistory: map<string, seq<(real, real)>>

    constructor(updateFrequency: real)
      requires updateFrequency != 0.0
      ensures this.updateFrequency == updateFrequency && updateInterval == 1.0 / updateFrequency
      ensures !running && dataHistory == map[] && longHistory == map[]
    {
      this.updateFrequency := updateFrequency;
      updateInterval := 1.0 / updateFrequency;
      running := false;
      dataHistory := map[];
      longHistory := map[];
    }

    /** Every history within its capacity. */
    ghost predicate Valid()
      reads this
    {
      && (forall k :: k in dataHistory ==> |dataHistory[k]| <= HistoryLength)
      && (forall k :: k in longHistory ==> |longHistory[k]| <= LongHistoryLength)
    }

    /** The start of `run`: polling begins only once the controller
        connected. */
    method Start(connected: bool) returns (ok: bool)
      modifies this`running
      ensures ok == connected
      ensures running == (connected || old(running))
    {
      if !connected {
        return false;
      }
      running := true;
      return true;
    }

    /** The signal handler. */
    method Stop()
      modifies this`running
      ensures !running
    {
      running := false;
    }

    /** The history step of one pass of `run`: every numeric entry of the
        flattened reading goes to the end of its short history and, with
        the timestamp, of its long history. */
    method RecordReading(s: ControllerState, timestamp: real)
      requires Valid()
      modifies this`dataHistory, this`longHistory
      ensures Valid()
      ensures dataHistory == AppendChannels(old(dataHistory), CurrentKeys, NumericReadings(s), HistoryLength)
      ensures longHistory
              == AppendChannels(old(longHistory), CurrentKeys, Stamped(NumericReadings(s), timestamp),
                                LongHistoryLength)
    {
      AppendReadings(CurrentKeys, NumericReadings(s), timestamp);
    }

    /** The loop over the reading's entries. */
    method AppendReadings(keys: seq<string>, vals: map<string, real>, timestamp: real)
      requires Valid()
      modifies this`dataHistory, this`longHistory
      ensures Valid()
      ensures dataHistory == AppendChannels(old(dataHistory), keys, vals, HistoryLength)
      ensures longHistory == AppendChannels(old(longHistory), keys, Stamped(vals, timestamp), LongHistoryLength)
    {
      var stamped := Stamped(vals, timestamp);
      ghost var short0, long0 := dataHistory, longHistory;
      var i := 0;
      while i < |keys|
        invariant 0 <= i <= |keys|
        invariant dataHistory == AppendChannels(short0, keys[..i], vals, HistoryLength)
        invariant longHistory == AppendChannels(long0, keys[..i], stamped, LongHistoryLength)
      {
        AppendChannelsStep(short0, keys, i, vals, HistoryLength);
        AppendChannelsStep(long0, keys, i, stamped, LongHistoryLength);
        var key := keys[i];
        if key in vals {
          var value := vals[key];
          var shortNext := BoundedAppend(GetOrEmpty(dataHistory, key), value, HistoryLength);
          var longNext := BoundedAppend(GetOrEmpty(longHistory, key), (timestamp, value), LongHistoryLength);
          dataHistory := dataHistory[key := shortNext];
          longHistory := longHistory[key := longNext];
        }
        i := i + 1;
      }
      assert keys[..i] == keys;
      AppendChannelsBounded(short0, keys, vals, HistoryLength);
      AppendChannelsBounded(long0, keys, stamped, LongHistoryLength);
    }
  }
}
