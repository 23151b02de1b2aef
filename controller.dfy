/** The Sungrow controller: it keeps the latest power, battery, energy and
    system readings in four records, derives the charging flags and the
    state text from them, and guards the backup-reserve write. What each
    `read_register` call returns is a parameter `read` (the register name
    to the decoded value or None), so one update sees one snapshot of the
    device. */
module Controller {
  import opened Common
  import opened Text
  import opened RegisterCodec
  import opened Modbus

  /** The `SystemState` enumeration, in declaration order. */
  const SystemStates: seq<(int, string)> := [
    (0x0000, "RUNNING"), (0x0040, "RUNNING_ALT"), (0x0410, "OFF_GRID_CHARGE"),
    (0x0200, "UPDATE_FAILED"), (0x0400, "MAINTAIN_MODE"), (0x0800, "FORCED_MODE"),
    (0x1000, "OFF_GRID_MODE"), (0x1111, "UNINITIALIZED"), (0x0010, "INITIAL_STANDBY"),
    (0x12000, "INITIAL_STANDBY_ALT"), (0x1300, "SHUTDOWN"), (0x0002, "SHUTDOWN_ALT"),
    (0x1400, "STANDBY"), (0x0008, "STANDBY_ALT"), (0x1500, "EMERGENCY_STOP"),
    (0x0004, "EMERGENCY_STOP_ALT"), (0x1600, "STARTUP"), (0x0020, "STARTUP_ALT"),
    (0x1700, "AFCI_SELF_TEST"), (0x1800, "INTELLIGENT_STATION"), (0x1900, "SAFE_MODE"),
    (0x2000, "OPEN_LOOP"), (0x2501, "RESTARTING"), (0x4000, "EXTERNAL_EMS_MODE"),
    (0x4001, "EMERGENCY_BATTERY_CHARGING"), (0x5500, "FAULT"), (0x0100, "FAULT_ALT"),
    (0x8000, "STOP"), (0x0001, "STOP_ALT"), (0x8100, "DERATING_RUNNING"),
    (0x0080, "DERATING_RUNNING_ALT"), (0x8200, "DISPATCH_RUN"), (0x9100, "WARN_RUNNING")
  ]

  /** `_get_system_state_text` for an integer code: a member's name with
      underscores turned into spaces and title-cased, otherwise the code in
      four-digit upper-case hexadecimal. */
  function StateText(code: int): string
  {
    match Find(SystemStates, code)
    case Some(name) => Title(ReplaceChar(name, '_', ' '))
    case None => "Unknown State (0x" + Hex04(code) + ")"
  }

  /** Every member of the table, looked up by its own code, is rendered from
      a name the table pairs with that code. */
  lemma KnownStateText(code: int)
    requires exists i :: 0 <= i < |SystemStates| && SystemStates[i].0 == code
    ensures exists i ::
      && 0 <= i < |SystemStates| && SystemStates[i].0 == code
      && StateText(code) == Title(ReplaceChar(SystemStates[i].1, '_', ' '))
  {
    var name := Find(SystemStates, code);
    assert name.Some?;
  }

  /** A code outside the table gets the hexadecimal fallback. */
  lemma UnknownStateText(code: int)
    requires forall i :: 0 <= i < |SystemStates| ==> SystemStates[i].0 != code
    ensures StateText(code) == "Unknown State (0x" + Hex04(code) + ")"
  {
  }

  /** The example the enumeration is known for: 0x0040 reads "Running Alt". */
  lemma RunningAltText()
    ensures StateText(0x0040) == "Running Alt"
  {
    RunningAltName();
    RunningAltTitle();
  }

  lemma RunningAltName()
    ensures Find(SystemStates, 0x0040) == Some("RUNNING_ALT")
  {
    assert SystemStates[0].0 != 0x0040;
    assert SystemStates[1..][0] == (0x0040, "RUNNING_ALT");
  }

  lemma RunningAltTitle()
    ensures Title(ReplaceChar("RUNNING_ALT", '_', ' ')) == "Running Alt"
  {
    RunningAltSpaced();
    TitleRunningAlt();
  }

  lemma RunningAltSpaced()
    ensures ReplaceChar("RUNNING_ALT", '_', ' ') == "RUNNING ALT"
  {
    SpacedRunningAlt("RUNNING_ALT");
  }

  lemma SpacedRunningAlt(s: string)
    requires s == "RUNNING_ALT"
    ensures ReplaceChar(s, '_', ' ') == "RUNNING ALT"
  {
    var r := ReplaceChar(s, '_', ' ');
    assert r[0] == 'R' && r[1] == 'U' && r[2] == 'N' && r[3] == 'N' && r[4] == 'I' && r[5] == 'N';
    assert r[6] == 'G' && r[7] == ' ' && r[8] == 'A' && r[9] == 'L' && r[10] == 'T';
    assert r == "RUNNING ALT";
  }

  /** `"RUNNING ALT".title()`, character by character from what `Title`
      does to each position. */
  lemma TitleRunningAlt()
    ensures Title("RUNNING ALT") == "Running Alt"
  {
    TitleOfRunningAlt("RUNNING ALT");
  }

  lemma TitleOfRunningAlt(s: string)
    requires s == "RUNNING ALT"
    ensures Title(s) == "Running Alt"
  {
    var r := Title(s);
    TitleChars(s);
    assert r[0] == 'R';
    assert r[1] == 'u' && r[2] == 'n' && r[3] == 'n' && r[4] == 'i' && r[5] == 'n' && r[6] == 'g';
    assert r[7] == ' ';
    assert r[8] == 'A';
    assert r[9] == 'l' && r[10] == 't';
    assert r == "Running Alt";
  }

  /** A code missing from the table, such as 3, is shown in hexadecimal. */
  lemma UnknownCodeThree()
    ensures StateText(3) == "Unknown State (0x" + "0003" + ")"
  {
    CodeThreeMissing();
    HexThree();
  }

  lemma CodeThreeMissing()
    ensures Find(SystemStates, 3).None?
  {
    assert forall i :: 0 <= i < |SystemStates| ==> SystemStates[i].0 != 3;
  }

  lemma HexThree()
    ensures Hex04(3) == "0003"
  {
    assert ToBase(3, 16) == "3";
  }

  /** The state text of a number as read: an integral value is looked up;
      any other value makes the format call raise (None). */
  function SystemStateText(x: real): (r: Option<string>)
    ensures r.Some? <==> x == x.Floor as real
    ensures r.Some? ==> r.value == StateText(x.Floor)
  {
    if x == x.Floor as real then Some(StateText(x.Floor)) else None
  }

  /** `bool(rs & 0x2)` and `bool(rs & 0x4)` on Python's unbounded two's
      complement integers: bit one and bit two of the running state. */
  function RunningStateBits(rs: int): (r: (bool, bool))
    ensures r.0 <==> rs % 4 >= 2
    ensures r.1 <==> rs % 8 >= 4
  {
    ((rs / 2) % 2 == 1, (rs / 4) % 2 == 1)
  }

  /** Charging and discharging may be reported together by the register. */
  lemma BothBitsMayBeSet()
    ensures RunningStateBits(6) == (true, true)
    ensures RunningStateBits(-1) == (true, true)
  {
  }

  /** The fallback on the battery current, with a deadband of 0.1 A. */
  function CurrentFlags(current: real): (r: (bool, bool))
    ensures r.0 <==> current > 0.1
    ensures r.1 <==> current < -0.1
    ensures !(r.0 && r.1)
  {
    if current > 0.1 then (true, false)
    else if current < -0.1 then (false, true)
    else (false, false)
  }

  /** The flags `(is_charging, is_discharging)` from the running-state read:
      its bits when a value came back, the current when it did not; a text
      or non-integral value makes the `&` raise (None). */
  function ChargeFlags(runningState: Option<Value>, current: real): (r: Option<(bool, bool)>)
    ensures runningState.None? ==> r == Some(CurrentFlags(current))
    ensures runningState.Some? && runningState.value.Num?
            && runningState.value.n == runningState.value.n.Floor as real ==>
      r == Some(RunningStateBits(runningState.value.n.Floor))
    ensures r.None? <==>
      (runningState.Some? &&
       (runningState.value.Text? || runningState.value.n != runningState.value.n.Floor as real))
  {
    match runningState
    case None => Some(CurrentFlags(current))
    case Some(Text(_)) => None
    case Some(Num(x)) => if x == x.Floor as real then Some(RunningStateBits(x.Floor)) else None
  }

  /** Without a running-state value the two flags are never both set. */
  lemma FallbackFlagsExclusive(current: real)
    ensures var f := ChargeFlags(None, current);
      f.Some? && !(f.value.0 && f.value.1)
  {
  }

  /** `x or 0.0` applied to a read: a number is kept (a zero number and the
      default agree), anything else becomes 0.0. */
  function NumOr(v: Option<Value>): (r: real)
    ensures v.Some? && v.value.Num? ==> r == v.value.n
    ensures v.None? ==> r == 0.0
  {
    match v
    case Some(Num(x)) => x
    case _ => 0.0
  }

  /** `x or ''` applied to a read. */
  function TextOr(v: Option<Value>): (r: string)
    ensures v.Some? && v.value.Text? ==> r == v.value.s
    ensures v.None? ==> r == ""
  {
    match v
    case Some(Text(s)) => s
    case _ => ""
  }

  /** The named registers the controller reads; each constructor is the
      register's name in the register map written in camel case
      (`TotalDcPower` is "total_dc_power"). */
  datatype Register =
    TotalDcPower | ExportPowerRaw | LoadPower | BatteryPowerRaw | TotalActivePower
    | PhaseAVoltage | PhaseBVoltage | PhaseCVoltage | PhaseACurrent | PhaseBCurrent
    | PhaseCCurrent | GridFrequency | InverterTemperature | BatteryLevel | BatteryVoltage
    | BatteryCurrent | BatteryTemperature | BatteryStateOfHealth | BatteryCapacity
    | DailyPvGeneration | DailyImportedEnergy | DailyExportedEnergy | DailyBatteryCharge
    | DailyBatteryDischarge | TotalPvGeneration | TotalImportedEnergy | TotalExportedEnergy
    | TotalBatteryCharge | TotalBatteryDischarge | InverterSerial | DeviceTypeCode | SystemState
    | RunningState | ExportPowerLimitMode | EmsModeSelection | MinSoc | MaxSoc
    | ExportPowerLimit

  /** The register reads of one update. */
  type Reads = Register -> Option<Value>

  datatype PowerData = PowerData(
    solarPower: real, gridPower: real, loadPower: real, batteryPower: real, totalPower: real,
    phaseAVoltage: real, phaseBVoltage: real, phaseCVoltage: real,
    phaseACurrent: real, phaseBCurrent: real, phaseCCurrent: real,
    gridFrequency: real, inverterTemperature: real)

  datatype BatteryData = BatteryData(
    level: real, voltage: real, current: real, power: real, temperature: real,
    stateOfHealth: real, capacity: real, isCharging: bool, isDischarging: bool)

  datatype EnergyData = EnergyData(
    dailyPvGeneration: real, dailyImportedEnergy: real, dailyExportedEnergy: real,
    dailyBatteryCharge: real, dailyBatteryDischarge: real,
    totalPvGeneration: real, totalImportedEnergy: real, totalExportedEnergy: real,
    totalBatteryCharge: real, totalBatteryDischarge: real)

  datatype SystemInfo = SystemInfo(
    inverterSerial: string, deviceTypeCode: real, systemState: real, runningState: real,
    systemStateText: string, emsMode: real, minSoc: real, maxSoc: real,
    exportPowerLimit: real, exportPowerLimitEnabled: bool)

  const InitialPower := PowerData(0.0, 0.0, 0.0, 0.0, 0.0, 0.0, 0.0, 0.0, 0.0, 0.0, 0.0, 0.0, 0.0)
  const InitialBattery := BatteryData(0.0, 0.0, 0.0, 0.0, 0.0, 0.0, 0.0, false, false)
  const InitialEnergy := EnergyData(0.0, 0.0, 0.0, 0.0, 0.0, 0.0, 0.0, 0.0, 0.0, 0.0)
  const InitialInfo := SystemInfo("", 0.0, 0.0, 0.0, "", 0.0, 0.0, 0.0, 0.0, false)

  /** The power record `_update_power_data` leaves: every field is
      assigned, so nothing of the previous record survives. */
  function PowerReading(read: Reads): PowerData
  {
    PowerData(
      solarPower := NumOr(read(TotalDcPower)),
      gridPower := NumOr(read(ExportPowerRaw)),
      loadPower := NumOr(read(LoadPower)),
      batteryPower := NumOr(read(BatteryPowerRaw)),
      totalPower := NumOr(read(TotalActivePower)),
      phaseAVoltage := NumOr(read(PhaseAVoltage)),
      phaseBVoltage := NumOr(read(PhaseBVoltage)),
      phaseCVoltage := NumOr(read(PhaseCVoltage)),
      phaseACurrent := NumOr(read(PhaseACurrent)),
      phaseBCurrent := NumOr(read(PhaseBCurrent)),
      phaseCCurrent := NumOr(read(PhaseCCurrent)),
      gridFrequency := NumOr(read(GridFrequency)),
      inverterTemperature := NumOr(read(InverterTemperature)))
  }

  /** The battery measurements, assigned before the flags are derived. */
  function BatteryMeasured(b: BatteryData, read: Reads): BatteryData
  {
    b.(level := NumOr(read(BatteryLevel)),
       voltage := NumOr(read(BatteryVoltage)),
       current := NumOr(read(BatteryCurrent)),
       power := NumOr(read(BatteryPowerRaw)),
       temperature := NumOr(read(BatteryTemperature)),
       stateOfHealth := NumOr(read(BatteryStateOfHealth)),
       capacity := NumOr(read(BatteryCapacity)))
  }

  function EnergyReading(read: Reads): EnergyData
  {
    EnergyData(
      dailyPvGeneration := NumOr(read(DailyPvGeneration)),
      dailyImportedEnergy := NumOr(read(DailyImportedEnergy)),
      dailyExportedEnergy := NumOr(read(DailyExportedEnergy)),
      dailyBatteryCharge := NumOr(read(DailyBatteryCharge)),
      dailyBatteryDischarge := NumOr(read(DailyBatteryDischarge)),
      totalPvGeneration := NumOr(read(TotalPvGeneration)),
      totalImportedEnergy := NumOr(read(TotalImportedEnergy)),
      totalExportedEnergy := NumOr(read(TotalExportedEnergy)),
      totalBatteryCharge := NumOr(read(TotalBatteryCharge)),
      totalBatteryDischarge := NumOr(read(TotalBatteryDischarge)))
  }

  /** The identity fields `_update_system_info` assigns before it renders
      the state text. */
  function InfoIdentity(i: SystemInfo, read: Reads): SystemInfo
  {
    i.(inverterSerial := TextOr(read(InverterSerial)),
       deviceTypeCode := NumOr(read(DeviceTypeCode)),
       systemState := NumOr(read(SystemState)),
       runningState := NumOr(read(RunningState)))
  }

  /** `export_power_limit_enabled`: the limit-mode register equals 0xAA. */
  function ExportLimitEnabled(read: Reads): (r: bool)
    ensures r <==> read(ExportPowerLimitMode) == Some(Num(170.0))
  {
    NumOr(read(ExportPowerLimitMode)) == 0xAA as real
  }

  /** The control settings assigned after the state text. */
  function InfoControl(i: SystemInfo, read: Reads): SystemInfo
  {
    i.(emsMode := NumOr(read(EmsModeSelection)),
       minSoc := NumOr(read(MinSoc)),
       maxSoc := NumOr(read(MaxSoc)),
       exportPowerLimit := NumOr(read(ExportPowerLimit)),
       exportPowerLimitEnabled := ExportLimitEnabled(read))
  }

  /** When every read fails the records hold zeros, empty text and cleared
      flags, and the state text is that of code 0. */
  lemma FailedReadsGiveDefaultPower(read: Reads)
    requires forall n :: read(n).None?
    ensures PowerReading(read) == InitialPower
  {
  }

  lemma FailedReadsGiveDefaultEnergy(read: Reads)
    requires forall n :: read(n).None?
    ensures EnergyReading(read) == InitialEnergy
  {
  }

  lemma FailedReadsGiveDefaultBattery(read: Reads, b: BatteryData)
    requires forall n :: read(n).None?
    ensures var m := BatteryMeasured(b, read);
      m.(isCharging := false, isDischarging := false) == InitialBattery
      && ChargeFlags(read(RunningState), m.current) == Some((false, false))
  {
  }

  lemma FailedReadsGiveDefaultInfo(read: Reads, i: SystemInfo, text: string)
    requires forall n :: read(n).None?
    ensures var id := InfoIdentity(i, read);
      && id.systemState == 0.0
      && InfoControl(id.(systemStateText := text), read) == InitialInfo.(systemStateText := text)
  {
    assert !ExportLimitEnabled(read);
  }

  /** `calculate_energy_balance` (grid positive for export): the house load
      is reconstructed per direction of the grid flow, reported clamped at
      zero, and the self-consumption ratio is computed from the unclamped
      load. */
  datatype BalanceReport = BalanceReport(
    solarGeneration: real, houseConsumption: real, gridFlow: real, batteryFlow: real,
    selfConsumptionRatio: real)

  function HouseConsumption(solar: real, grid: real, battery: real): (h: real)
    ensures h == solar - Abs(battery) - grid
  {
    if grid >= 0.0 then solar - Abs(battery) - grid
    else solar + Abs(grid) - Abs(battery)
  }

  function EnergyBalance(p: PowerData): (r: BalanceReport)
    ensures r.solarGeneration == p.solarPower && r.gridFlow == p.gridPower
    ensures r.batteryFlow == p.batteryPower
    ensures r.houseConsumption == Max(0.0, p.solarPower - Abs(p.batteryPower) - p.gridPower)
    ensures r.houseConsumption >= 0.0
    ensures p.solarPower <= 0.0 ==> r.selfConsumptionRatio == 0.0
    ensures p.solarPower > 0.0 ==> r.selfConsumptionRatio <= 100.0
  {
    var house := HouseConsumption(p.solarPower, p.gridPower, p.batteryPower);
    BalanceReport(
      solarGeneration := p.solarPower,
      houseConsumption := Max(0.0, house),
      gridFlow := p.gridPower,
      batteryFlow := p.batteryPower,
      selfConsumptionRatio :=
        if p.solarPower > 0.0 then Min(100.0, house / p.solarPower * 100.0) else 0.0)
  }

  /** As written the ratio uses the unclamped load, so a house load that is
      reported as 0 comes with a negative self-consumption ratio: 1000 W of
      solar all exported along with 500 W from the battery. */
  lemma NegativeSelfConsumptionRatio()
    ensures var r := EnergyBalance(InitialPower.(solarPower := 1000.0, gridPower := 1500.0,
                                                 batteryPower := -500.0));
      r.houseConsumption == 0.0 && r.selfConsumptionRatio == -100.0
  {
  }

  /** The ratio computed from the reported (clamped) house load. */
  function ClampedEnergyBalance(p: PowerData): (r: BalanceReport)
    ensures r.(selfConsumptionRatio := 0.0) == EnergyBalance(p).(selfConsumptionRatio := 0.0)
    ensures 0.0 <= r.selfConsumptionRatio <= 100.0
    ensures p.solarPower > 0.0 ==>
      r.selfConsumptionRatio == Min(100.0, r.houseConsumption / p.solarPower * 100.0)
  {
    var b := EnergyBalance(p);
    var h := b.houseConsumption;
    QuotientNonNegative(h, p.solarPower);
    b.(selfConsumptionRatio := if p.solarPower > 0.0 then Min(100.0, h / p.solarPower * 100.0) else 0.0)
  }

  lemma QuotientNonNegative(h: real, s: real)
    requires h >= 0.0
    ensures s > 0.0 ==> h / s * 100.0 >= 0.0
  {
  }

  /** The two corrected reports agree whenever the house load is not
      negative. */
  lemma ClampedAgreesWhenLoadNonNegative(p: PowerData)
    requires p.solarPower - Abs(p.batteryPower) - p.gridPower >= 0.0
    ensures ClampedEnergyBalance(p) == EnergyBalance(p)
  {
  }

  /** What `get_current_state` hands over: the controller's four records. */
  datatype ControllerState = ControllerState(
    power: PowerData, battery: BatteryData, energy: EnergyData, info: SystemInfo)

  class SungrowController {
    const client: ModbusClient
    var connected: bool
    var power: PowerData
    var battery: BatteryData
    var energy: EnergyData
    var info: SystemInfo

    constructor(client: ModbusClient)
      ensures this.client == client && !connected
      ensures power == InitialPower && battery == InitialBattery
      ensures energy == InitialEnergy && info == InitialInfo
    {
      this.client := client;
      connected := false;
      power := InitialPower;
      battery := InitialBattery;
      energy := InitialEnergy;
      info := InitialInfo;
    }

    /** `connect`: the flag becomes what the client's connect reported. */
    method Connect(reached: bool) returns (ok: bool)
      modifies this`connected, client`hasClient
      ensures connected == reached && ok == reached
      ensures client.hasClient
    {
      connected := client.Connect(reached);
      ok := connected;
    }

    /** `disconnect`: closing the client leaves its object in place. */
    method Disconnect()
      modifies this`connected
      ensures !connected
    {
      connected := false;
    }

    method UpdatePowerData(read: Reads)
      modifies this`power
      ensures power == PowerReading(read)
    {
      power := power.(solarPower := NumOr(read(TotalDcPower)));
      power := power.(totalPower := NumOr(read(TotalActivePower)));
      power := power.(loadPower := NumOr(read(LoadPower)));
      power := power.(gridPower := NumOr(read(ExportPowerRaw)));
      power := power.(batteryPower := NumOr(read(BatteryPowerRaw)));
      power := power.(gridFrequency := NumOr(read(GridFrequency)));
      power := power.(inverterTemperature := NumOr(read(InverterTemperature)));
      power := power.(phaseAVoltage := NumOr(read(PhaseAVoltage)));
      power := power.(phaseBVoltage := NumOr(read(PhaseBVoltage)));
      power := power.(phaseCVoltage := NumOr(read(PhaseCVoltage)));
      power := power.(phaseACurrent := NumOr(read(PhaseACurrent)));
      power := power.(phaseBCurrent := NumOr(read(PhaseBCurrent)));
      power := power.(phaseCCurrent := NumOr(read(PhaseCCurrent)));
    }

    /** `_update_battery_data`; false when deriving the flags raises, in
        which case the measurements are new and the flags old. */
    method UpdateBatteryData(read: Reads) returns (ok: bool)
      modifies this`battery
      ensures var m := BatteryMeasured(old(battery), read);
        var f := ChargeFlags(read(RunningState), m.current);
        && ok == f.Some?
        && battery == (if f.Some? then m.(isCharging := f.value.0, isDischarging := f.value.1) else m)
    {
      battery := BatteryMeasured(battery, read);
      var rs := read(RunningState);
      match rs {
        case Some(Num(x)) =>
          if x != x.Floor as real {
            return false;
          }
          var bits := RunningStateBits(x.Floor);
          battery := battery.(isCharging := bits.0, isDischarging := bits.1);
        case Some(Text(_)) =>
          return false;
        case None =>
          if battery.current > 0.1 {
            battery := battery.(isCharging := true, isDischarging := false);
          } else if battery.current < -0.1 {
            battery := battery.(isCharging := false, isDischarging := true);
          } else {
            battery := battery.(isCharging := false, isDischarging := false);
          }
      }
      ok := true;
    }

    method UpdateEnergyData(read: Reads)
      modifies this`energy
      ensures energy == EnergyReading(read)
    {
      energy := EnergyReading(read);
    }

    /** `_update_system_info`; false when rendering the state text raises,
        in which case only the identity fields are new. */
    method UpdateSystemInfo(read: Reads) returns (ok: bool)
      modifies this`info
      ensures var id := InfoIdentity(old(info), read);
        var t := SystemStateText(id.systemState);
        && ok == t.Some?
        && info == (if t.Some? then InfoControl(id.(systemStateText := t.value), read) else id)
    {
      info := InfoIdentity(info, read);
      var t := SystemStateText(info.systemState);
      if t.None? {
        return false;
      }
      info := info.(systemStateText := t.value);
      info := InfoControl(info, read);
      ok := true;
    }

    /** `update`: nothing is read while disconnected; otherwise the four
        records are refreshed in order and the first exception stops the
        rest. */
    method Update(read: Reads) returns (ok: bool)
      modifies this`power, this`battery, this`energy, this`info
      ensures !old(connected) ==> !ok && unchanged(this)
      ensures old(connected) ==>
        var m := BatteryMeasured(old(battery), read);
        var f := ChargeFlags(read(RunningState), m.current);
        var id := InfoIdentity(old(info), read);
        var t := SystemStateText(id.systemState);
        && power == PowerReading(read)
        && ok == (f.Some? && t.Some?)
        && (f.None? ==> battery == m && energy == old(energy) && info == old(info))
        && (f.Some? ==>
              && battery == m.(isCharging := f.value.0, isDischarging := f.value.1)
              && energy == EnergyReading(read)
              && info == (if t.Some? then InfoControl(id.(systemStateText := t.value), read) else id))
    {
      if !connected {
        return false;
      }
      UpdatePowerData(read);
      ok := UpdateBatteryData(read);
      if !ok {
        return;
      }
      UpdateEnergyData(read);
      ok := UpdateSystemInfo(read);
    }

    /** `get_current_state`. */
    function CurrentState(): ControllerState
      reads this
    {
      ControllerState(power, battery, energy, info)
    }

    /** `set_backup_reserve_soc`: outside [0, 100] nothing is sent;
        otherwise the truncated value is written. */
    method SetBackupReserveSoc(soc: real, accepts: (nat, BusOp) -> bool) returns (ok: bool)
      modifies client`sent
      ensures !(0.0 <= soc <= 100.0) ==> !ok && client.sent == old(client.sent)
      ensures 0.0 <= soc <= 100.0 ==>
        Outcome(ok, client.sent)
        == client.WriteOutcome(client.hasClient, old(client.sent), "reserved_soc_for_backup",
                               Trunc(soc) as real, accepts)
    {
      if !(0.0 <= soc <= 100.0) {
        return false;
      }
      ok := client.WriteRegister("reserved_soc_for_backup", Trunc(soc) as real, accepts);
    }
  }
}
