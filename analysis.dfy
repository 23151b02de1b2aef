/** The pure analysis kernel: statistics per power stream, the instantaneous
    energy balance with its direction flags, the guarded and clamped energy
    ratios, and the snapshot that combines them with a data-quality score and
    a stability index. Here solar is negative (generation), grid is positive
    when importing and battery is positive when charging. The square root is
    a parameter. */
module Analysis {
  import opened Common
  import opened Series

  datatype PowerStreamStats = PowerStreamStats(
    current: real,
    mean: real,
    stdDev: real,
    firstDerivative: real,
    oscillationIndex: real,
    minValue: real,
    maxValue: real,
    sampleCount: nat)

  const EmptyStats := PowerStreamStats(0.0, 0.0, 0.0, 0.0, 0.0, 0.0, 0.0, 0)

  /** The number of trailing samples the derivative is fitted to. */
  const DerivativeWindow: nat := 10

  ghost predicate SqrtNonNegative(sqrt: real -> real)
  {
    forall x :: x >= 0.0 ==> sqrt(x) >= 0.0
  }

  /** Statistics of one stream buffer: the newest value, the mean, the sample
      standard deviation, the least-squares slope of the last ten samples
      scaled by the sample rate, the RMS deviation relative to |mean|, the
      extremes and the count. */
  function StreamStats(buffer: seq<real>, sampleRate: real, sqrt: real -> real): (r: PowerStreamStats)
    ensures |buffer| == 0 ==> r == EmptyStats
    ensures |buffer| > 0 ==> r.current == buffer[|buffer| - 1] && r.sampleCount == |buffer|
    ensures |buffer| > 0 ==> r.minValue <= r.current <= r.maxValue
    ensures |buffer| > 0 ==> r.minValue <= r.mean <= r.maxValue
    ensures |buffer| > 0 ==> r.minValue in buffer && r.maxValue in buffer
    ensures |buffer| > 0 ==> forall i :: 0 <= i < |buffer| ==> r.minValue <= buffer[i] <= r.maxValue
    ensures |buffer| < DerivativeWindow ==> r.firstDerivative == 0.0
    ensures |buffer| <= 1 ==> r.stdDev == 0.0
    ensures Abs(r.mean) <= 1.0 ==> r.oscillationIndex == 0.0
    ensures |buffer| > 0 ==> r.mean == Mean(buffer)
    ensures |buffer| > 1 ==> r.stdDev == sqrt(SampleVariance(buffer))
    ensures |buffer| > 0 && Abs(r.mean) > 1.0 ==>
      r.oscillationIndex == sqrt(PopulationVariance(buffer)) / Abs(r.mean)
  {
    if |buffer| == 0 then EmptyStats
    else
      var n := |buffer|;
      var mean := Mean(buffer);
      var stdDev := if n > 1 then sqrt(SampleVariance(buffer)) else 0.0;
      var derivative := Derivative(buffer, sampleRate);
      var oscillation :=
        if Abs(mean) > 1.0 then sqrt(PopulationVariance(buffer)) / Abs(mean) else 0.0;
      MeanBetween(buffer);
      PowerStreamStats(buffer[n - 1], mean, stdDev, derivative, oscillation,
                       MinOf(buffer), MaxOf(buffer), n)
  }

  /** The least-squares slope of the last ten samples scaled by the sample
      rate, or 0 while fewer samples are held. */
  function Derivative(buffer: seq<real>, sampleRate: real): real
  {
    if |buffer| >= DerivativeWindow then Slope(SliceFrom(buffer, -(DerivativeWindow as int))) * sampleRate
    else 0.0
  }

  /** A stream whose last ten samples are `a + b*i` has derivative
      `b * sampleRate`. */
  lemma LinearDerivative(buffer: seq<real>, sampleRate: real, sqrt: real -> real, a: real, b: real)
    requires |buffer| >= DerivativeWindow
    requires OnLine(buffer[|buffer| - DerivativeWindow..], a, b)
    ensures StreamStats(buffer, sampleRate, sqrt).firstDerivative == b * sampleRate
  {
    var w := buffer[|buffer| - DerivativeWindow..];
    assert SliceFrom(buffer, -(DerivativeWindow as int)) == w;
    LinearSlope(w, a, b);
    assert Derivative(buffer, sampleRate) == b * sampleRate;
  }

  /** A stream whose last ten samples are equal has derivative zero. */
  lemma ConstantDerivative(buffer: seq<real>, sampleRate: real, sqrt: real -> real)
    requires |buffer| >= DerivativeWindow
    requires forall i :: |buffer| - DerivativeWindow <= i < |buffer| ==> buffer[i] == buffer[|buffer| - 1]
    ensures StreamStats(buffer, sampleRate, sqrt).firstDerivative == 0.0
  {
    var c := buffer[|buffer| - 1];
    var w := buffer[|buffer| - DerivativeWindow..];
    assert OnLine(w, c, 0.0) by {
      forall i | 0 <= i < |w| ensures w[i] == c + 0.0 * i as real {
        assert w[i] == buffer[|buffer| - DerivativeWindow + i];
      }
    }
    LinearDerivative(buffer, sampleRate, sqrt, c, 0.0);
  }

  /** With a non-negative square root the oscillation index and the standard
      deviation are never negative. */
  lemma StatsNonNegative(buffer: seq<real>, sampleRate: real, sqrt: real -> real)
    requires SqrtNonNegative(sqrt)
    ensures StreamStats(buffer, sampleRate, sqrt).oscillationIndex >= 0.0
    ensures StreamStats(buffer, sampleRate, sqrt).stdDev >= 0.0
  {
    if |buffer| > 0 {
      var mean := Mean(buffer);
      var v := PopulationVariance(buffer);
      if Abs(mean) > 1.0 {
        assert sqrt(v) >= 0.0;
        assert sqrt(v) / Abs(mean) >= 0.0;
      }
      if |buffer| > 1 {
        assert sqrt(SampleVariance(buffer)) >= 0.0;
      }
    }
  }

  datatype EnergyBalance = EnergyBalance(
    solarPower: real,
    batteryPower: real,
    gridPower: real,
    loadPower: real,
    balanceError: real,
    balanceValid: bool,
    gridImporting: bool,
    gridExporting: bool,
    batteryCharging: bool,
    batteryDischarging: bool)

  const DefaultTolerance: real := 50.0

  /** The deadband below which a grid or battery flow counts as none. */
  const FlowDeadband: real := 10.0

  /** The balance `solar + grid = load + battery` and its flow directions. */
  function CalculateEnergyBalance(solar: real, battery: real, grid: real, load: real,
                                  tolerance: real): (r: EnergyBalance)
    ensures r.solarPower == solar && r.batteryPower == battery
    ensures r.gridPower == grid && r.loadPower == load
    ensures r.balanceError + load + battery == solar + grid
    ensures r.balanceValid <==> -tolerance < r.balanceError < tolerance
    ensures r.gridImporting <==> grid > FlowDeadband
    ensures r.gridExporting <==> grid < -FlowDeadband
    ensures r.batteryCharging <==> battery > FlowDeadband
    ensures r.batteryDischarging <==> battery < -FlowDeadband
  {
    var err := solar + grid - load - battery;
    EnergyBalance(solar, battery, grid, load, err, Abs(err) < tolerance,
                  grid > FlowDeadband, grid < -FlowDeadband,
                  battery > FlowDeadband, battery < -FlowDeadband)
  }

  /** Opposite directions of the same flow are never both reported. */
  lemma FlowFlagsExclusive(solar: real, battery: real, grid: real, load: real, tolerance: real)
    ensures var b := CalculateEnergyBalance(solar, battery, grid, load, tolerance);
      !(b.gridImporting && b.gridExporting) && !(b.batteryCharging && b.batteryDischarging)
  {
  }

  /** Fed with the collector's derived load `grid - battery - solar`, the
      balance equation here does not close: the error is twice the solar value,
      because the two files use different sign conventions for the balance. */
  lemma CollectorLoadBalance(solar: real, battery: real, grid: real, tolerance: real)
    ensures CalculateEnergyBalance(solar, battery, grid, grid - battery - solar, tolerance).balanceError
      == 2.0 * solar
  {
  }

  datatype EnergyRatios = EnergyRatios(
    selfConsumptionRatio: real,
    solarCoverageRatio: real,
    batteryUtilizationRatio: real,
    gridDependencyRatio: real,
    selfConsuming: bool,
    gridFeeding: bool,
    gridDependent: bool,
    batteryActive: bool)

  /** Below these magnitudes a ratio is reported as 0 instead of dividing. */
  const RatioGuard: real := 10.0
  const ModeThreshold: real := 50.0

  function Clamp01(x: real): (r: real)
    ensures 0.0 <= r <= 1.0
    ensures 0.0 <= x <= 1.0 ==> r == x
  {
    Max(0.0, Min(1.0, x))
  }

  /** Self-consumption, solar coverage, battery utilisation and grid
      dependency ratios, with the generation taken as |solar|. */
  function CalculateEnergyRatios(solar: real, battery: real, grid: real, load: real): (r: EnergyRatios)
    ensures 0.0 <= r.selfConsumptionRatio <= 1.0
    ensures Abs(solar) <= RatioGuard ==> r.selfConsumptionRatio == 0.0 && r.batteryUtilizationRatio == 0.0
    ensures Abs(solar) > RatioGuard ==>
      && r.selfConsumptionRatio == Clamp01((Abs(solar) - Max(0.0, -grid)) / Abs(solar))
      && r.batteryUtilizationRatio == Abs(battery) / Abs(solar)
      && r.batteryUtilizationRatio >= 0.0
    ensures load <= RatioGuard ==> r.solarCoverageRatio == 0.0 && r.gridDependencyRatio == 0.0
    ensures load > RatioGuard ==>
      && r.solarCoverageRatio == Abs(solar) / load
      && r.gridDependencyRatio == Max(0.0, grid) / load
      && r.solarCoverageRatio >= 0.0 && r.gridDependencyRatio >= 0.0
    ensures r.selfConsuming <==> r.selfConsumptionRatio > 0.1
    ensures r.gridFeeding <==> grid < -ModeThreshold
    ensures r.gridDependent <==> grid > ModeThreshold
    ensures r.batteryActive <==> Abs(battery) > ModeThreshold
    ensures !(r.gridFeeding && r.gridDependent)
  {
    var generation := Abs(solar);
    var selfConsumption :=
      if generation > RatioGuard then Clamp01((generation - Max(0.0, -grid)) / generation) else 0.0;
    var coverage := if load > RatioGuard then generation / load else 0.0;
    var utilization := if generation > RatioGuard then Abs(battery) / generation else 0.0;
    var dependency := if load > RatioGuard then Max(0.0, grid) / load else 0.0;
    EnergyRatios(selfConsumption, coverage, utilization, dependency,
                 selfConsumption > 0.1, grid < -ModeThreshold, grid > ModeThreshold,
                 Abs(battery) > ModeThreshold)
  }

  lemma SelfQuotient(x: real)
    requires x != 0.0
    ensures x / x == 1.0
  {
    assert 1.0 * x == x;
  }

  /** Self-consumption is complete when nothing is exported. */
  lemma NoExportFullSelfConsumption(solar: real, battery: real, grid: real, load: real)
    requires Abs(solar) > RatioGuard && grid >= 0.0
    ensures CalculateEnergyRatios(solar, battery, grid, load).selfConsumptionRatio == 1.0
  {
    var g := Abs(solar);
    assert Max(0.0, -grid) == 0.0;
    SelfQuotient(g);
    assert Clamp01(1.0) == 1.0;
  }

  datatype AnalysisSnapshot = AnalysisSnapshot(
    timestamp: real,
    analysisWindowSeconds: real,
    sampleCount: nat,
    solarStats: PowerStreamStats,
    batteryStats: PowerStreamStats,
    gridStats: PowerStreamStats,
    loadStats: PowerStreamStats,
    energyBalance: EnergyBalance,
    energyRatios: EnergyRatios,
    dataQualityScore: real,
    systemStabilityIndex: real)

  /** The share of the expected samples present, capped at 1. */
  function SampleQuality(minSamples: nat, expected: real): (r: real)
    ensures 0.0 <= r <= 1.0
    ensures expected <= 0.0 ==> r == 0.0
    ensures expected > 0.0 && minSamples as real >= expected ==> r == 1.0
    ensures expected > 0.0 && minSamples as real < expected ==> r == minSamples as real / expected
  {
    if expected > 0.0 then Min(1.0, minSamples as real / expected) else 0.0
  }

  /** The data-quality score: the mean of the sample quality and the balance
      quality (1 when the balance closes, else one half). */
  function QualityScore(minSamples: nat, expected: real, balanceValid: bool): (r: real)
    ensures 0.25 <= r <= 1.0
    ensures balanceValid ==> r >= 0.5
    ensures !balanceValid ==> r <= 0.75
    ensures expected <= 0.0 ==> r == if balanceValid then 0.5 else 0.25
  {
    (SampleQuality(minSamples, expected) + (if balanceValid then 1.0 else 0.5)) / 2.0
  }

  /** The whole snapshot over the four stream buffers. */
  function Analyze(solar: seq<real>, battery: seq<real>, grid: seq<real>, load: seq<real>,
                   nowTs: real, sampleRate: real, windowSeconds: real,
                   sqrt: real -> real): (r: AnalysisSnapshot)
    ensures r.timestamp == nowTs && r.analysisWindowSeconds == windowSeconds
    ensures r.solarStats == StreamStats(solar, sampleRate, sqrt)
    ensures r.batteryStats == StreamStats(battery, sampleRate, sqrt)
    ensures r.gridStats == StreamStats(grid, sampleRate, sqrt)
    ensures r.loadStats == StreamStats(load, sampleRate, sqrt)
    ensures r.sampleCount <= |solar| && r.sampleCount <= |battery|
    ensures r.sampleCount <= |grid| && r.sampleCount <= |load|
    ensures r.sampleCount in {|solar|, |battery|, |grid|, |load|}
    ensures r.energyBalance == CalculateEnergyBalance(r.solarStats.current, r.batteryStats.current,
                                                     r.gridStats.current, r.loadStats.current,
                                                     DefaultTolerance)
    ensures r.energyRatios == CalculateEnergyRatios(r.solarStats.current, r.batteryStats.current,
                                                   r.gridStats.current, r.loadStats.current)
    ensures r.dataQualityScore
      == QualityScore(r.sampleCount, windowSeconds * sampleRate, r.energyBalance.balanceValid)
    ensures 0.25 <= r.dataQualityScore <= 1.0
    ensures 4.0 * r.systemStabilityIndex
      == r.solarStats.oscillationIndex + r.batteryStats.oscillationIndex
         + r.gridStats.oscillationIndex + r.loadStats.oscillationIndex
  {
    var s := StreamStats(solar, sampleRate, sqrt);
    var b := StreamStats(battery, sampleRate, sqrt);
    var g := StreamStats(grid, sampleRate, sqrt);
    var l := StreamStats(load, sampleRate, sqrt);
    assert s.sampleCount == |solar| && b.sampleCount == |battery|;
    assert g.sampleCount == |grid| && l.sampleCount == |load|;
    var balance := CalculateEnergyBalance(s.current, b.current, g.current, l.current, DefaultTolerance);
    var ratios := CalculateEnergyRatios(s.current, b.current, g.current, l.current);
    var minSamples := MinInt(MinInt(s.sampleCount, b.sampleCount), MinInt(g.sampleCount, l.sampleCount));
    var stability :=
      (s.oscillationIndex + b.oscillationIndex + g.oscillationIndex + l.oscillationIndex) / 4.0;
    AnalysisSnapshot(nowTs, windowSeconds, minSamples, s, b, g, l, balance, ratios,
                     QualityScore(minSamples, windowSeconds * sampleRate, balance.balanceValid),
                     stability)
  }

  /** Four empty buffers give zero statistics, a balanced zero state and so a
      quality score of exactly one half. */
  lemma EmptyAnalysis(nowTs: real, sampleRate: real, windowSeconds: real, sqrt: real -> real)
    ensures var r := Analyze([], [], [], [], nowTs, sampleRate, windowSeconds, sqrt);
      r.sampleCount == 0 && r.dataQualityScore == 0.5 && r.systemStabilityIndex == 0.0
      && r.energyBalance.balanceValid && r.solarStats == EmptyStats
  {
  }

  /** The stability index is never negative when the square root is not. */
  lemma StabilityNonNegative(solar: seq<real>, battery: seq<real>, grid: seq<real>, load: seq<real>,
                             nowTs: real, sampleRate: real, windowSeconds: real,
                             sqrt: real -> real)
    requires SqrtNonNegative(sqrt)
    ensures Analyze(solar, battery, grid, load, nowTs, sampleRate, windowSeconds, sqrt)
      .systemStabilityIndex >= 0.0
  {
    StatsNonNegative(solar, sampleRate, sqrt);
    StatsNonNegative(battery, sampleRate, sqrt);
    StatsNonNegative(grid, sampleRate, sqrt);
    StatsNonNegative(load, sampleRate, sqrt);
  }
}
