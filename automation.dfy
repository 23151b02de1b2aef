/** The self-consumption rule engine: per-action rate limiting over a
    dictionary of last-action times, the hour-to-tariff classification,
    the solar classification, and the three rule groups (battery charging,
    grid interaction, emergencies) that each pick at most one controller
    command and record the action only when the command succeeds. The
    controller commands are values in a log; whether each succeeds is a
    parameter, as are the clock and the hour. */
module Automation {
  import opened Common
  import opened Controller

  /** The minimum time between two actions of the same name, in seconds. */
  const MinActionInterval: real := 300.0

  /** `can_take_action`: an action never taken counts as last taken at 0. */
  function CanTakeAction<K>(last: map<K, real>, action: K, now: real): (r: bool)
    ensures action in last ==> (r <==> now - last[action] > MinActionInterval)
    ensures action !in last ==> (r <==> now > MinActionInterval)
  {
    var lastTime := if action in last then last[action] else 0.0;
    now - lastTime > MinActionInterval
  }

  /** Recording an action blocks it for the next five minutes and leaves
      every other action as permitted as before. */
  lemma RecordBlocksOnlyThatAction<K>(last: map<K, real>, action: K, now: real,
                                      other: K, later: real)
    ensures later - now <= MinActionInterval ==> !CanTakeAction(last[action := now], action, later)
    ensures later - now > MinActionInterval ==> CanTakeAction(last[action := now], action, later)
    ensures other != action ==>
      CanTakeAction(last[action := now], other, later) == CanTakeAction(last, other, later)
  {
  }

  datatype Period = OffPeak | Peak | Standard

  /** `get_time_of_use_period` for the hour of the day. */
  function TimeOfUsePeriod(hour: int): (p: Period)
    ensures p == OffPeak <==> hour >= 22 || hour <= 6
    ensures p == Peak <==> !(hour >= 22 || hour <= 6) && (7 <= hour <= 9 || 17 <= hour <= 20)
  {
    if 22 <= hour || hour <= 6 then OffPeak
    else if 7 <= hour <= 9 || 17 <= hour <= 20 then Peak
    else Standard
  }

  /** Over the hours of a day: night hours are off-peak, the morning and
      evening blocks are peak, and the standard tariff holds exactly from 10
      to 16 and at 21. */
  lemma DayPeriods(hour: int)
    requires 0 <= hour < 24
    ensures TimeOfUsePeriod(hour) == OffPeak <==> hour in {0, 1, 2, 3, 4, 5, 6, 22, 23}
    ensures TimeOfUsePeriod(hour) == Peak <==> hour in {7, 8, 9, 17, 18, 19, 20}
    ensures TimeOfUsePeriod(hour) == Standard <==> 10 <= hour <= 16 || hour == 21
  {
  }

  datatype SolarConditions = Poor | Moderate | Good | Excellent

  /** `analyze_solar_conditions`. */
  function AnalyzeSolarConditions(solar: real): (c: SolarConditions)
    ensures c == Excellent <==> solar > 4000.0
    ensures c == Good <==> 2000.0 < solar <= 4000.0
    ensures c == Moderate <==> 500.0 < solar <= 2000.0
    ensures c == Poor <==> solar <= 500.0
  {
    if solar > 4000.0 then Excellent
    else if solar > 2000.0 then Good
    else if solar > 500.0 then Moderate
    else Poor
  }

  function Rank(c: SolarConditions): nat
  {
    match c
    case Poor => 0
    case Moderate => 1
    case Good => 2
    case Excellent => 3
  }

  /** More solar power never gives a worse classification. */
  lemma SolarConditionsMonotone(a: real, b: real)
    requires a <= b
    ensures Rank(AnalyzeSolarConditions(a)) <= Rank(AnalyzeSolarConditions(b))
  {
  }

  /** `calculate_excess_solar`: generation above the house load reported
      by the controller's energy balance, never negative. */
  function ExcessSolar(p: PowerData): (r: real)
    ensures r >= 0.0
    ensures r >= p.solarPower - EnergyBalance(p).houseConsumption
    ensures r == 0.0 || r == p.solarPower - EnergyBalance(p).houseConsumption
  {
    var balance := EnergyBalance(p);
    Max(0.0, balance.solarGeneration - balance.houseConsumption)
  }

  /** The controller commands the rules issue. */
  datatype ControlCall =
    | OptimizeSelfConsumption
    | ForceChargeFromGrid(power: real)
    | SetSocLimits(minSoc: real, maxSoc: real)
    | EmergencyBatteryPreserve
    | SetExportPowerLimit(limit: real, enable: bool)

  /** The names the rules rate-limit under: "optimize_charging",
      "night_charging", "peak_discharge", "reduce_export",
      "emergency_preserve" and "thermal_protection". */
  datatype ActionKey =
    | OptimizeChargingKey | NightChargingKey | PeakDischargeKey | ReduceExportKey
    | EmergencyPreserveKey | ThermalProtectionKey

  /** A rule's consequence: the rate-limit key, the command, and the action
      name reported when the command succeeds. */
  datatype Rule = Rule(key: ActionKey, call: ControlCall, action: string)

  const OptimizeCharging := Rule(OptimizeChargingKey, OptimizeSelfConsumption, "optimized_self_consumption")
  const NightCharging := Rule(NightChargingKey, ForceChargeFromGrid(1500.0), "night_charging")
  const PeakDischarge := Rule(PeakDischargeKey, SetSocLimits(15.0, 90.0), "peak_discharge")
  const EmergencyPreserve := Rule(EmergencyPreserveKey, EmergencyBatteryPreserve, "emergency_preserve")
  const ThermalProtection := Rule(ThermalProtectionKey, SetExportPowerLimit(5000.0, true), "thermal_protection")

  function ReduceExport(grid: real): Rule
  {
    Rule(ReduceExportKey, ForceChargeFromGrid(Min(3000.0, grid)), "reduce_export")
  }

  /** The thresholds of the rules. */
  const HighGridExport: real := 2000.0
  const HighGridImport: real := 1000.0

  /** The rule `optimize_battery_charging` fires, if any: charging from
      excellent solar, or, only when that rule's condition does not hold,
      off-peak charging of a low battery. */
  function BatteryRule(s: ControllerState, hour: int, last: map<ActionKey, real>, now: real): (r: Option<Rule>)
    ensures var soc := s.battery.level;
      var excellent := AnalyzeSolarConditions(s.power.solarPower) == Excellent && soc < 85.0;
      && (r == Some(OptimizeCharging) <==>
            excellent && ExcessSolar(s.power) > 2000.0 && CanTakeAction(last, OptimizeChargingKey, now))
      && (r == Some(NightCharging) <==>
            !excellent && TimeOfUsePeriod(hour) == OffPeak && soc < 30.0
            && CanTakeAction(last, NightChargingKey, now))
      && (r.None? || r == Some(OptimizeCharging) || r == Some(NightCharging))
  {
    var soc := s.battery.level;
    if AnalyzeSolarConditions(s.power.solarPower) == Excellent && soc < 85.0 then
      if ExcessSolar(s.power) > 2000.0 && CanTakeAction(last, OptimizeChargingKey, now) then Some(OptimizeCharging)
      else None
    else if TimeOfUsePeriod(hour) == OffPeak && soc < 30.0 then
      if CanTakeAction(last, NightChargingKey, now) then Some(NightCharging) else None
    else None
  }

  /** The rule `optimize_grid_interaction` fires, if any: battery discharge
      against a high peak-time import, or extra charging against a high
      export, at most 3000 W. */
  function GridRule(s: ControllerState, hour: int, last: map<ActionKey, real>, now: real): (r: Option<Rule>)
    ensures var grid, soc := s.power.gridPower, s.battery.level;
      && (r == Some(PeakDischarge) <==>
            grid < -HighGridImport && TimeOfUsePeriod(hour) == Peak && soc > 40.0
            && CanTakeAction(last, PeakDischargeKey, now))
      && (r == Some(ReduceExport(grid)) <==>
            grid > HighGridExport && soc < 85.0 && CanTakeAction(last, ReduceExportKey, now))
      && (r.None? || r == Some(PeakDischarge) || r == Some(ReduceExport(grid)))
      && (r == Some(ReduceExport(grid)) ==> r.value.call.power <= 3000.0)
  {
    var grid, soc := s.power.gridPower, s.battery.level;
    if grid < -HighGridImport && TimeOfUsePeriod(hour) == Peak then
      if soc > 40.0 && CanTakeAction(last, PeakDischargeKey, now) then Some(PeakDischarge) else None
    else if grid > HighGridExport then
      if soc < 85.0 && CanTakeAction(last, ReduceExportKey, now) then Some(ReduceExport(grid)) else None
    else None
  }

  /** The rule `emergency_management` fires, if any: preservation of a
      critical battery, or, only when that rule's whole condition fails,
      thermal protection of a hot inverter. */
  function EmergencyRule(s: ControllerState, last: map<ActionKey, real>, now: real): (r: Option<Rule>)
    ensures var soc, temp := s.battery.level, s.power.inverterTemperature;
      var critical := soc < 10.0 && CanTakeAction(last, EmergencyPreserveKey, now);
      && (r == Some(EmergencyPreserve) <==> critical)
      && (r == Some(ThermalProtection) <==>
            !critical && temp > 70.0 && CanTakeAction(last, ThermalProtectionKey, now))
      && (r.None? || r == Some(EmergencyPreserve) || r == Some(ThermalProtection))
  {
    var soc, temp := s.battery.level, s.power.inverterTemperature;
    if soc < 10.0 && CanTakeAction(last, EmergencyPreserveKey, now) then Some(EmergencyPreserve)
    else if temp > 70.0 && CanTakeAction(last, ThermalProtectionKey, now) then Some(ThermalProtection)
    else None
  }

  /** Once an action is recorded, no rule group picks a rule under the same
      key again for the next five minutes, whatever the readings and the
      hour are then. */
  lemma NoRepeatWithinInterval(s: ControllerState, hour: int, last: map<ActionKey, real>, now: real,
                               key: ActionKey, later: real)
    requires later - now <= MinActionInterval
    ensures var b := BatteryRule(s, hour, last[key := now], later);
      b.Some? ==> b.value.key != key
    ensures var g := GridRule(s, hour, last[key := now], later);
      g.Some? ==> g.value.key != key
    ensures var e := EmergencyRule(s, last[key := now], later);
      e.Some? ==> e.value.key != key
  {
    RecordBlocksOnlyThatAction(last, key, now, key, later);
  }

  /** The commands a rule group issues: its rule's, if one fired. */
  function CallsOf(rule: Option<Rule>): (r: seq<ControlCall>)
    ensures rule.None? ==> r == []
    ensures rule.Some? ==> r == [rule.value.call]
  {
    if rule.Some? then [rule.value.call] else []
  }

  /** The action a rule group reports when its command is the n-th issued. */
  function Fired(rule: Option<Rule>, n: nat, succeeds: (nat, ControlCall) -> bool): (r: Option<string>)
    ensures r.Some? <==> rule.Some? && succeeds(n, rule.value.call)
    ensures r.Some? ==> r.value == rule.value.action
  {
    if rule.Some? && succeeds(n, rule.value.call) then Some(rule.value.action) else None
  }

  /** The commands of three groups run in turn, in order. */
  function CycleCalls(b: Option<Rule>, g: Option<Rule>, e: Option<Rule>): seq<ControlCall>
  {
    CallsOf(b) + CallsOf(g) + CallsOf(e)
  }

  /** The actions three groups run in turn report when the first command is
      the n0-th issued. */
  function CycleTaken(b: Option<Rule>, g: Option<Rule>, e: Option<Rule>, n0: nat,
                      succeeds: (nat, ControlCall) -> bool): map<Group, string>
  {
    var n1 := n0 + |CallsOf(b)|;
    TakenActions(Fired(b, n0, succeeds), Fired(g, n1, succeeds), Fired(e, n1 + |CallsOf(g)|, succeeds))
  }

  /** The rate-limit keys of the actions three groups run in turn take
      when the first command is the n0-th issued. */
  function FiredKeys(b: Option<Rule>, g: Option<Rule>, e: Option<Rule>, n0: nat,
                     succeeds: (nat, ControlCall) -> bool): set<ActionKey>
  {
    var n1 := n0 + |CallsOf(b)|;
    var n2 := n1 + |CallsOf(g)|;
    (if Fired(b, n0, succeeds).Some? then {b.value.key} else {})
    + (if Fired(g, n1, succeeds).Some? then {g.value.key} else {})
    + (if Fired(e, n2, succeeds).Some? then {e.value.key} else {})
  }

  /** `record_action` after a group's command, if the command succeeded. */
  function Stamp(last: map<ActionKey, real>, rule: Option<Rule>, n: nat,
                 succeeds: (nat, ControlCall) -> bool, now: real): map<ActionKey, real>
  {
    if Fired(rule, n, succeeds).Some? then last[rule.value.key := now] else last
  }

  /** The dictionary of last-action times after three groups run in turn:
      every action taken is stamped `now` and every other entry is kept. */
  function CycleLast(b: Option<Rule>, g: Option<Rule>, e: Option<Rule>, n0: nat,
                     succeeds: (nat, ControlCall) -> bool, last: map<ActionKey, real>, now: real)
    : (r: map<ActionKey, real>)
    ensures forall k :: k in r <==> k in last || k in FiredKeys(b, g, e, n0, succeeds)
    ensures forall k :: k in FiredKeys(b, g, e, n0, succeeds) ==> r[k] == now
    ensures forall k :: k in last && k !in FiredKeys(b, g, e, n0, succeeds) ==> r[k] == last[k]
  {
    var n1 := n0 + |CallsOf(b)|;
    var n2 := n1 + |CallsOf(g)|;
    Stamp(Stamp(Stamp(last, b, n0, succeeds, now), g, n1, succeeds, now), e, n2, succeeds, now)
  }

  /** After a cycle at `now`, no group of a cycle run within the next five
      minutes picks a rule under the key of an action the first one took,
      whatever the readings and the hour are then. */
  lemma CycleThrottlesNextCycle(b: Option<Rule>, g: Option<Rule>, e: Option<Rule>, n0: nat,
                                succeeds: (nat, ControlCall) -> bool, last: map<ActionKey, real>,
                                now: real, s: ControllerState, hour: int, later: real, key: ActionKey)
    requires key in FiredKeys(b, g, e, n0, succeeds) && later - now <= MinActionInterval
    ensures var next := CycleLast(b, g, e, n0, succeeds, last, now);
      && (BatteryRule(s, hour, next, later).Some? ==> BatteryRule(s, hour, next, later).value.key != key)
      && (GridRule(s, hour, next, later).Some? ==> GridRule(s, hour, next, later).value.key != key)
      && (EmergencyRule(s, next, later).Some? ==> EmergencyRule(s, next, later).value.key != key)
  {
    var next := CycleLast(b, g, e, n0, succeeds, last, now);
    assert next == next[key := now];
    NoRepeatWithinInterval(s, hour, next, now, key, later);
  }

  /** The rules the battery group can pick. */
  predicate IsBatteryRule(b: Option<Rule>)
  {
    b.None? || b == Some(OptimizeCharging) || b == Some(NightCharging)
  }

  /** The rule groups use disjoint rate-limit keys, so an action recorded by
      the battery group does not change what the grid and emergency groups
      decide, and one recorded by the grid group does not change the
      emergency group. */
  lemma LaterRulesIgnoreEarlierKeys(s: ControllerState, hour: int, last: map<ActionKey, real>,
                                    now: real, t: real, b: Option<Rule>, g: Option<Rule>)
    requires IsBatteryRule(b)
    requires g.None? || g == Some(PeakDischarge) || g == Some(ReduceExport(s.power.gridPower))
    ensures b.Some? ==> GridRule(s, hour, last[b.value.key := t], now) == GridRule(s, hour, last, now)
    ensures b.Some? ==> EmergencyRule(s, last[b.value.key := t], now) == EmergencyRule(s, last, now)
    ensures g.Some? ==> EmergencyRule(s, last[g.value.key := t], now) == EmergencyRule(s, last, now)
  {
  }

  /** Three rule groups run one after the other, each numbering its
      command after the commands issued before it, issue and report what
      the cycle functions say. */
  lemma StepsCompose(succeeds: (nat, ControlCall) -> bool, b: Option<Rule>, g: Option<Rule>, e: Option<Rule>,
                     calls0: seq<ControlCall>, calls1: seq<ControlCall>, calls2: seq<ControlCall>,
                     calls3: seq<ControlCall>,
                     battery: Option<string>, grid: Option<string>, emergency: Option<string>)
    requires calls1 == calls0 + CallsOf(b) && battery == Fired(b, |calls0|, succeeds)
    requires calls2 == calls1 + CallsOf(g) && grid == Fired(g, |calls1|, succeeds)
    requires calls3 == calls2 + CallsOf(e) && emergency == Fired(e, |calls2|, succeeds)
    ensures calls3 == calls0 + CycleCalls(b, g, e)
    ensures TakenActions(battery, grid, emergency) == CycleTaken(b, g, e, |calls0|, succeeds)
  {
    var n1 := |calls0| + |CallsOf(b)|;
    assert |calls1| == n1 && |calls2| == n1 + |CallsOf(g)|;
    assert calls3 == calls0 + CycleCalls(b, g, e) by {
      SeqAssoc3(calls0, CallsOf(b), CallsOf(g), CallsOf(e));
    }
  }

  lemma SeqAssoc3<T>(a: seq<T>, x: seq<T>, y: seq<T>, z: seq<T>)
    ensures a + x + y + z == a + (x + y + z)
  {
  }

  /** The three rule groups run one after the other, each on the dictionary
      the previous one left; because their keys are disjoint, the cycle
      issues and reports what the groups decide on the dictionary it
      started with. */
  lemma CycleComposes(s: ControllerState, hour: int, now: real, succeeds: (nat, ControlCall) -> bool,
                      b: Option<Rule>,
                      last0: map<ActionKey, real>, last1: map<ActionKey, real>, last2: map<ActionKey, real>,
                      calls0: seq<ControlCall>, calls1: seq<ControlCall>, calls2: seq<ControlCall>,
                      calls3: seq<ControlCall>,
                      battery: Option<string>, grid: Option<string>, emergency: Option<string>)
    requires IsBatteryRule(b)
    requires && calls1 == calls0 + CallsOf(b) && battery == Fired(b, |calls0|, succeeds)
             && last1 == (if battery.Some? then last0[b.value.key := now] else last0)
    requires var g := GridRule(s, hour, last1, now);
      && calls2 == calls1 + CallsOf(g) && grid == Fired(g, |calls1|, succeeds)
      && last2 == (if grid.Some? then last1[g.value.key := now] else last1)
    requires var e := EmergencyRule(s, last2, now);
      calls3 == calls2 + CallsOf(e) && emergency == Fired(e, |calls2|, succeeds)
    ensures var g, e := GridRule(s, hour, last0, now), EmergencyRule(s, last0, now);
      && calls3 == calls0 + CycleCalls(b, g, e)
      && TakenActions(battery, grid, emergency) == CycleTaken(b, g, e, |calls0|, succeeds)
      && GridRule(s, hour, last1, now) == g && EmergencyRule(s, last2, now) == e
  {
    var g := GridRule(s, hour, last1, now);
    assert g == GridRule(s, hour, last0, now) && EmergencyRule(s, last1, now) == EmergencyRule(s, last0, now) by {
      if battery.Some? {
        LaterRulesIgnoreEarlierKeys(s, hour, last0, now, now, b, None);
      }
    }
    assert EmergencyRule(s, last2, now) == EmergencyRule(s, last1, now) by {
      if grid.Some? {
        LaterRulesIgnoreEarlierKeys(s, hour, last1, now, now, None, g);
      }
    }
    StepsCompose(succeeds, b, g, EmergencyRule(s, last2, now), calls0, calls1, calls2, calls3,
                 battery, grid, emergency);
  }

  /** The keys of the actions dictionary `run_optimization_cycle` builds:
      "battery_optimization", "grid_optimization", "emergency_management". */
  datatype Group = BatteryOptimization | GridOptimization | EmergencyManagement

  /** The result of `run_optimization_cycle`. */
  datatype CycleResult = Failed(error: string) | Actions(taken: map<Group, string>)

  /** The actions dictionary without its None entries. */
  function TakenActions(battery: Option<string>, grid: Option<string>, emergency: Option<string>)
    : (r: map<Group, string>)
    ensures BatteryOptimization in r <==> battery.Some?
    ensures GridOptimization in r <==> grid.Some?
    ensures EmergencyManagement in r <==> emergency.Some?
    ensures battery.Some? ==> r[BatteryOptimization] == battery.value
    ensures grid.Some? ==> r[GridOptimization] == grid.value
    ensures emergency.Some? ==> r[EmergencyManagement] == emergency.value
  {
    var all := map[BatteryOptimization := battery, GridOptimization := grid, EmergencyManagement := emergency];
    map k | k in all && all[k].Some? :: all[k].value
  }

  class SelfConsumptionAutomation {
    var lastActionTime: map<ActionKey, real>
    /** The controller commands issued so far, oldest first. */
    var calls: seq<ControlCall>

    constructor()
      ensures lastActionTime == map[] && calls == []
    {
      lastActionTime := map[];
      calls := [];
    }

    /** `record_action`. */
    method RecordAction(action: ActionKey, now: real)
      modifies this`lastActionTime
      ensures lastActionTime == old(lastActionTime)[action := now]
    {
      lastActionTime := lastActionTime[action := now];
    }

    /** Issue the command of `rule`, if one fired, and record its action
        when the command succeeds; `succeeds` answers for the n-th command
        issued. */
    method Apply(rule: Option<Rule>, now: real, succeeds: (nat, ControlCall) -> bool)
      returns (action: Option<string>)
      modifies this`lastActionTime, this`calls
      ensures rule.None? ==> action.None? && unchanged(this)
      ensures rule.Some? ==>
        && calls == old(calls) + [rule.value.call]
        && (succeeds(|old(calls)|, rule.value.call) ==>
              action == Some(rule.value.action)
              && lastActionTime == old(lastActionTime)[rule.value.key := now])
        && (!succeeds(|old(calls)|, rule.value.call) ==>
              action.None? && lastActionTime == old(lastActionTime))
    {
      if rule.None? {
        return None;
      }
      var ok := succeeds(|calls|, rule.value.call);
      calls := calls + [rule.value.call];
      if ok {
        action := Some(rule.value.action);
        RecordAction(rule.value.key, now);
      } else {
        action := None;
      }
    }

    method OptimizeBatteryCharging(s: ControllerState, hour: int, now: real,
                                   succeeds: (nat, ControlCall) -> bool)
      returns (action: Option<string>)
      modifies this`lastActionTime, this`calls
      ensures var rule := BatteryRule(s, hour, old(lastActionTime), now);
        && calls == old(calls) + CallsOf(rule)
        && action == Fired(rule, |old(calls)|, succeeds)
        && lastActionTime == (if action.Some? then old(lastActionTime)[rule.value.key := now] else old(lastActionTime))
    {
      action := Apply(BatteryRule(s, hour, lastActionTime, now), now, succeeds);
    }

    method OptimizeGridInteraction(s: ControllerState, hour: int, now: real,
                                   succeeds: (nat, ControlCall) -> bool)
      returns (action: Option<string>)
      modifies this`lastActionTime, this`calls
      ensures var rule := GridRule(s, hour, old(lastActionTime), now);
        && calls == old(calls) + CallsOf(rule)
        && action == Fired(rule, |old(calls)|, succeeds)
        && lastActionTime == (if action.Some? then old(lastActionTime)[rule.value.key := now] else old(lastActionTime))
    {
      action := Apply(GridRule(s, hour, lastActionTime, now), now, succeeds);
    }

    method EmergencyManagement(s: ControllerState, now: real, succeeds: (nat, ControlCall) -> bool)
      returns (action: Option<string>)
      modifies this`lastActionTime, this`calls
      ensures var rule := EmergencyRule(s, old(lastActionTime), now);
        && calls == old(calls) + CallsOf(rule)
        && action == Fired(rule, |old(calls)|, succeeds)
        && lastActionTime == (if action.Some? then old(lastActionTime)[rule.value.key := now] else old(lastActionTime))
    {
      action := Apply(EmergencyRule(s, lastActionTime, now), now, succeeds);
    }

    /** `run_optimization_cycle`: an error without any command when the
        controller does not connect or update; otherwise the three rule
        groups in turn, reporting only the actions taken. */
    method RunOptimizationCycle(connected: bool, updated: bool, s: ControllerState, hour: int, now: real,
                                succeeds: (nat, ControlCall) -> bool)
      returns (r: CycleResult)
      modifies this`lastActionTime, this`calls
      ensures !connected ==> r == Failed("connection_failed") && unchanged(this)
      ensures connected && !updated ==> r == Failed("data_update_failed") && unchanged(this)
      ensures connected && updated ==>
        var b := BatteryRule(s, hour, old(lastActionTime), now);
        var g := GridRule(s, hour, old(lastActionTime), now);
        var e := EmergencyRule(s, old(lastActionTime), now);
        && calls == old(calls) + CycleCalls(b, g, e)
        && r == Actions(CycleTaken(b, g, e, |old(calls)|, succeeds))
        && lastActionTime == CycleLast(b, g, e, |old(calls)|, succeeds, old(lastActionTime), now)
    {
      if !connected {
        return Failed("connection_failed");
      }
      if !updated {
        return Failed("data_update_failed");
      }
      ghost var last0, calls0 := lastActionTime, calls;
      var battery := OptimizeBatteryCharging(s, hour, now, succeeds);
      ghost var last1, calls1 := lastActionTime, calls;
      var grid := OptimizeGridInteraction(s, hour, now, succeeds);
      ghost var last2, calls2 := lastActionTime, calls;
      var emergency := EmergencyManagement(s, now, succeeds);
      r := Actions(TakenActions(battery, grid, emergency));
      CycleComposes(s, hour, now, succeeds, BatteryRule(s, hour, last0, now), last0, last1, last2,
                    calls0, calls1, calls2, calls, battery, grid, emergency);
    }
  }
}
