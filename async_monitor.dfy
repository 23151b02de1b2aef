/** The legacy asynchronous monitor: the same rolling statistics as the
    synchronous monitor, computed over the telemetry collector's short ring
    buffers with a window of ten seconds' worth of samples and a trend
    scaled by the collector's sample rate. */
module AsyncMonitor {
  import opened Common
  import opened Bounded
  import opened Series
  import opened Monitor
  import opened Telemetry

  /** `calculate_statistics` on one ring buffer: nothing to report with
      fewer than two readings; otherwise the statistics of
      `data[-min(statsWindow, len):]`. A window of 0 makes that slice
      `data[-0:]`, the whole buffer. */
  function BufferStatistics(buffer: seq<real>, statsWindow: nat, sampleRate: real,
                            sqrt: real -> real): (r: SeriesStats)
    ensures |buffer| < 2 ==> r == ZeroStats
    ensures |buffer| >= 2 ==>
      var w := if statsWindow == 0 then buffer else buffer[|buffer| - MinInt(statsWindow, |buffer|)..];
      && r.current == buffer[|buffer| - 1]
      && r.minValue in w && r.maxValue in w
      && (forall i :: 0 <= i < |w| ==> r.minValue <= w[i] <= r.maxValue)
      && r.avg == Mean(w)
      && (|w| > 1 ==> r.stdDev == sqrt(SampleVariance(w))) && (|w| == 1 ==> r.stdDev == 0.0)
      && r.minValue <= r.avg <= r.maxValue
      && r.range == r.maxValue - r.minValue && r.range >= 0.0
      && r.trend == Trend(w, sampleRate)
      && r == WindowStats(w, sampleRate, sqrt)
  {
    if |buffer| < 2 then ZeroStats
    else
      var recent := SliceFrom(buffer, -MinInt(statsWindow, |buffer|));
      assert recent[|recent| - 1] == buffer[|buffer| - 1];
      WindowStats(recent, sampleRate, sqrt)
  }

  /** With a window under twenty samples, which is every sample rate below
      2 Hz, the trend is always 0. */
  lemma ShortWindowHasNoTrend(buffer: seq<real>, statsWindow: nat, sampleRate: real, sqrt: real -> real)
    requires 0 < statsWindow < TrendPoints
    ensures BufferStatistics(buffer, statsWindow, sampleRate, sqrt).trend == 0.0
  {
  }

  /** A window of at least twenty samples over a buffer whose newest twenty
      readings are `a + b*i` gives trend `b * sampleRate`. */
  lemma LinearBufferTrend(buffer: seq<real>, statsWindow: nat, sampleRate: real, sqrt: real -> real,
                          a: real, b: real)
    requires statsWindow >= TrendPoints && |buffer| >= TrendPoints
    requires OnLine(buffer[|buffer| - TrendPoints..], a, b)
    ensures BufferStatistics(buffer, statsWindow, sampleRate, sqrt).trend == b * sampleRate
  {
    var w := buffer[|buffer| - MinInt(statsWindow, |buffer|)..];
    assert w[|w| - TrendPoints..] == buffer[|buffer| - TrendPoints..];
    LinearWindowTrend(w, sampleRate, a, b);
  }

  class AsyncSungrowMonitor {
    const collector: TelemetryCollector
    const sampleRate: real
    const statsWindow: nat
    var running: bool

    /** The window is `int(10 * sample_rate)` samples. */
    constructor(collector: TelemetryCollector)
      requires Trunc(10.0 * collector.sampleRate) >= 0
      ensures this.collector == collector && sampleRate == collector.sampleRate
      ensures statsWindow == Trunc(10.0 * collector.sampleRate) && !running
    {
      this.collector := collector;
      sampleRate := collector.sampleRate;
      statsWindow := Trunc(10.0 * collector.sampleRate);
      running := false;
    }

    /** `process_telemetry_sample`: one entry per buffered channel, each the
        statistics of that channel's short buffer (an empty buffer for a
        channel not yet seen). */
    method ProcessTelemetrySample(sqrt: real -> real) returns (stats: map<string, SeriesStats>)
      ensures forall k :: k in stats <==> k in collector.bufferKeys
      ensures forall k :: k in collector.bufferKeys ==>
        stats[k] == BufferStatistics(GetOrEmpty(collector.shortBuffers, k), statsWindow, sampleRate, sqrt)
    {
      var keys := collector.bufferKeys;
      stats := map[];
      var i := 0;
      while i < |keys|
        invariant 0 <= i <= |keys|
        invariant forall k :: k in stats <==> k in keys[..i]
        invariant forall k :: k in keys[..i] ==>
          stats[k] == BufferStatistics(GetOrEmpty(collector.shortBuffers, k), statsWindow, sampleRate, sqrt)
      {
        var key := keys[i];
        assert keys[..i + 1] == keys[..i] + [key];
        stats := stats[key := BufferStatistics(GetOrEmpty(collector.shortBuffers, key), statsWindow,
                                               sampleRate, sqrt)];
        i := i + 1;
      }
      assert keys[..i] == keys;
    }
  }
}
