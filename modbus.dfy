/** The Sungrow Modbus client: register lookup by name, the guards in front
    of every bus read and write, and the control helpers built on writes.
    The bus is abstract: a request is appended to the log `sent`, and what
    the device answers is a parameter indexed by the request's position in
    that log (an error reply and a raised exception look the same here). */
module Modbus {
  import opened Common
  import opened RegisterCodec

  /** The requests the client sends. */
  datatype BusOp =
    | ReadHolding(address: int, count: int)
    | ReadInput(address: int, count: int)
    | WriteSingle(address: int, value: Word)
    | WriteMultiple(address: int, values: seq<Word>)

  /** A register map in configuration order. */
  type RegisterMap = seq<(string, RegConfig)>

  /** The names of the writable entries, in order. */
  function WritableNames(m: RegisterMap): (r: seq<string>)
    ensures |r| <= |m|
    ensures forall n :: n in r <==> exists i :: 0 <= i < |m| && m[i].0 == n && m[i].1.writable
  {
    if |m| == 0 then []
    else
      var rest := WritableNames(m[..|m| - 1]);
      if m[|m| - 1].1.writable then rest + [m[|m| - 1].0] else rest
  }

  /** The number of registers a read asks for: two for 32-bit types, the
      configured count (default 1) for text, otherwise one. */
  function RegisterCount(c: RegConfig): (r: int)
    ensures DataType(c) in {"uint32", "int32", "float32"} ==> r == 2
    ensures DataType(c) == "string" ==> r == GetOr(c.count, 1)
    ensures !(DataType(c) in {"uint32", "int32", "float32", "string"}) ==> r == 1
  {
    var t := DataType(c);
    if t in {"uint32", "int32", "float32"} then 2
    else if t == "string" then GetOr(c.count, 1)
    else 1
  }

  /** The read request for a register: function code 3 reads holding and 4
      (the default) input registers. A missing address or any other function
      code sends nothing. */
  function ReadOp(c: RegConfig): (r: Option<BusOp>)
    ensures c.address.None? ==> r.None?
    ensures c.address.Some? && GetOr(c.functionCode, 4) == 3 ==>
      r == Some(ReadHolding(c.address.value, RegisterCount(c)))
    ensures c.address.Some? && GetOr(c.functionCode, 4) == 4 ==>
      r == Some(ReadInput(c.address.value, RegisterCount(c)))
    ensures !(GetOr(c.functionCode, 4) in {3, 4}) ==> r.None?
  {
    if c.address.None? then None
    else
      var fc := GetOr(c.functionCode, 4);
      if fc == 3 then Some(ReadHolding(c.address.value, RegisterCount(c)))
      else if fc == 4 then Some(ReadInput(c.address.value, RegisterCount(c)))
      else None
  }

  /** The write request for a register entry: it must be writable, have an
      address, use function code 3 (the default) and encode to at least one
      word; one word is written singly, more as a block. */
  function WriteOp(c: RegConfig, value: real, floatToBits: real -> int): (r: Option<BusOp>)
    ensures r.Some? <==>
      c.writable && c.address.Some? && GetOr(c.functionCode, 3) == 3
      && |Encode(value, c, floatToBits)| > 0
    ensures r.Some? && |Encode(value, c, floatToBits)| == 1 ==>
      r.value == WriteSingle(c.address.value, Encode(value, c, floatToBits)[0])
    ensures r.Some? && |Encode(value, c, floatToBits)| > 1 ==>
      r.value == WriteMultiple(c.address.value, Encode(value, c, floatToBits))
  {
    if !c.writable || c.address.None? || GetOr(c.functionCode, 3) != 3 then None
    else
      var words := Encode(value, c, floatToBits);
      if |words| == 0 then None
      else if |words| == 1 then Some(WriteSingle(c.address.value, words[0]))
      else Some(WriteMultiple(c.address.value, words))
  }

  /** What a sequence of bus calls returned and the request log after it. */
  datatype Outcome<T> = Outcome(result: T, log: seq<BusOp>)

  /** A run of at most `n` requests appended to `log` that stops at the
      first one the device declines: every request but the last one sent
      was accepted, and the run succeeds exactly when all `n` were sent and
      the last accepted. */
  ghost predicate StopsAtDecline(log: seq<BusOp>, r: Outcome<bool>, n: nat, accepts: (nat, BusOp) -> bool)
  {
    && n > 0 && |log| <= |r.log| <= |log| + n && r.log[..|log|] == log
    && (forall i :: |log| <= i < |r.log| - 1 ==> accepts(i, r.log[i]))
    && (r.result <==> |r.log| == |log| + n && accepts(|r.log| - 1, r.log[|r.log| - 1]))
  }

  /** A successful run of `n` requests followed by a run of at most `m`
      is a run of at most `n + m`. */
  lemma ChainDecline(log: seq<BusOp>, a: Outcome<bool>, b: Outcome<bool>, n: nat, m: nat,
                     accepts: (nat, BusOp) -> bool)
    requires StopsAtDecline(log, a, n, accepts) && a.result
    requires StopsAtDecline(a.log, b, m, accepts)
    ensures StopsAtDecline(log, b, n + m, accepts)
  {
    assert b.log[..|log|] == b.log[..|a.log|][..|log|];
    forall i | |log| <= i < |b.log| - 1
      ensures accepts(i, b.log[i])
    {
      if i < |a.log| {
        assert b.log[i] == b.log[..|a.log|][i];
      }
    }
  }

  /** A run that failed within `n` requests also failed within any `m >= n`. */
  lemma WidenDecline(log: seq<BusOp>, a: Outcome<bool>, n: nat, m: nat, accepts: (nat, BusOp) -> bool)
    requires StopsAtDecline(log, a, n, accepts) && !a.result && n <= m
    ensures StopsAtDecline(log, a, m, accepts)
  {
  }

  /** `set_ems_mode`'s table. */
  function EmsModeValue(mode: string): (r: Option<int>)
    ensures r.Some? <==> mode in {"self_consumption", "forced", "external_ems"}
    ensures mode == "self_consumption" ==> r == Some(0)
    ensures mode == "forced" ==> r == Some(2)
    ensures mode == "external_ems" ==> r == Some(3)
  {
    if mode == "self_consumption" then Some(0)
    else if mode == "forced" then Some(2)
    else if mode == "external_ems" then Some(3)
    else None
  }

  /** `set_battery_forced_mode`'s command table. */
  function ForcedCommandValue(command: string): (r: Option<int>)
    ensures r.Some? <==> command in {"stop", "charge", "discharge"}
    ensures command == "stop" ==> r == Some(0xCC)
    ensures command == "charge" ==> r == Some(0xAA)
    ensures command == "discharge" ==> r == Some(0xBB)
  {
    if command == "stop" then Some(0xCC)
    else if command == "charge" then Some(0xAA)
    else if command == "discharge" then Some(0xBB)
    else None
  }

  class ModbusClient {
    /** The `registers` and `legacy_registers` sections of the configuration. */
    const registers: RegisterMap
    const legacyRegisters: RegisterMap
    /** The IEEE-754 single-precision conversions `struct` performs. */
    const bitsToFloat: int -> real
    const floatToBits: real -> int
    /** Whether a client object exists (`self.client` is set). */
    var hasClient: bool
    /** Every request sent so far, oldest first. */
    var sent: seq<BusOp>

    constructor(registers: RegisterMap, legacyRegisters: RegisterMap,
                bitsToFloat: int -> real, floatToBits: real -> int)
      requires DistinctKeys(registers) && DistinctKeys(legacyRegisters)
      ensures this.registers == registers && this.legacyRegisters == legacyRegisters
      ensures this.bitsToFloat == bitsToFloat && this.floatToBits == floatToBits
      ensures !hasClient && sent == []
    {
      this.registers := registers;
      this.legacyRegisters := legacyRegisters;
      this.bitsToFloat := bitsToFloat;
      this.floatToBits := floatToBits;
      hasClient := false;
      sent := [];
    }

    /** `connect`: the client object is created before the connection is
        attempted, so it exists afterwards whatever `connect()` reported. */
    method Connect(connected: bool) returns (ok: bool)
      modifies this`hasClient
      ensures hasClient
      ensures ok == connected
    {
      hasClient := true;
      ok := connected;
    }

    /** The configuration of a register: the main map first, then the
        legacy one. */
    function Lookup(name: string): (r: Option<RegConfig>)
      ensures Find(registers, name).Some? ==> r == Find(registers, name)
      ensures Find(registers, name).None? ==> r == Find(legacyRegisters, name)
    {
      if Find(registers, name).Some? then Find(registers, name) else Find(legacyRegisters, name)
    }

    /** `read_register` as a function of the connection flag, the log and
        the device's replies (None for an error reply). */
    function ReadOutcome(connected: bool, log: seq<BusOp>, name: string,
                         reply: (nat, BusOp) -> Option<seq<Word>>): (r: Outcome<Option<Value>>)
      ensures !connected || Lookup(name).None? ==> r == Outcome(None, log)
      ensures connected && Lookup(name).Some? && ReadOp(Lookup(name).value).None? ==>
        r == Outcome(None, log)
      ensures connected && Lookup(name).Some? && ReadOp(Lookup(name).value).Some? ==>
        var op := ReadOp(Lookup(name).value).value;
        && r.log == log + [op]
        && (reply(|log|, op).None? ==> r.result.None?)
        && (reply(|log|, op).Some? ==>
              r.result == Decode(reply(|log|, op).value, Lookup(name).value, bitsToFloat))
    {
      if !connected then Outcome(None, log)
      else match Lookup(name)
        case None => Outcome(None, log)
        case Some(c) =>
          match ReadOp(c)
          case None => Outcome(None, log)
          case Some(op) =>
            match reply(|log|, op)
            case None => Outcome(None, log + [op])
            case Some(regs) => Outcome(Decode(regs, c, bitsToFloat), log + [op])
    }

    method ReadRegister(name: string, reply: (nat, BusOp) -> Option<seq<Word>>) returns (v: Option<Value>)
      modifies this`sent
      ensures Outcome(v, sent) == ReadOutcome(hasClient, old(sent), name, reply)
    {
      if !hasClient {
        return None;
      }
      var c := Lookup(name);
      if c.None? {
        return None;
      }
      var op := ReadOp(c.value);
      if op.None? {
        return None;
      }
      var answer := reply(|sent|, op.value);
      sent := sent + [op.value];
      if answer.None? {
        return None;
      }
      v := Decode(answer.value, c.value, bitsToFloat);
    }

    /** `write_register` as a function: only the main map is searched, and
        a request is sent only when every guard passes. */
    function WriteOutcome(connected: bool, log: seq<BusOp>, name: string, value: real,
                          accepts: (nat, BusOp) -> bool): (r: Outcome<bool>)
      ensures !connected || Find(registers, name).None? ==> r == Outcome(false, log)
      ensures (connected && Find(registers, name).Some?
               && WriteOp(Find(registers, name).value, value, floatToBits).None?) ==> r == Outcome(false, log)
      ensures (connected && Find(registers, name).Some?
               && WriteOp(Find(registers, name).value, value, floatToBits).Some?) ==>
        var op := WriteOp(Find(registers, name).value, value, floatToBits).value;
        r == Outcome(accepts(|log|, op), log + [op])
      ensures r.result ==> |r.log| == |log| + 1
      ensures |r.log| == |log| || |r.log| == |log| + 1
      ensures r.log[..|log|] == log
    {
      if !connected then Outcome(false, log)
      else match Find(registers, name)
        case None => Outcome(false, log)
        case Some(c) =>
          match WriteOp(c, value, floatToBits)
          case None => Outcome(false, log)
          case Some(op) => Outcome(accepts(|log|, op), log + [op])
    }

    method WriteRegister(name: string, value: real, accepts: (nat, BusOp) -> bool) returns (ok: bool)
      modifies this`sent
      ensures Outcome(ok, sent) == WriteOutcome(hasClient, old(sent), name, value, accepts)
    {
      if !hasClient {
        return false;
      }
      var c := Find(registers, name);
      if c.None? {
        return false;
      }
      var op := WriteOp(c.value, value, floatToBits);
      if op.None? {
        return false;
      }
      ok := accepts(|sent|, op.value);
      sent := sent + [op.value];
    }

    /** `list_writable_registers`. */
    method ListWritableRegisters() returns (names: seq<string>)
      ensures names == WritableNames(registers)
    {
      names := [];
      var i := 0;
      while i < |registers|
        invariant 0 <= i <= |registers|
        invariant names == WritableNames(registers[..i])
      {
        assert registers[..i + 1][..i] == registers[..i];
        if registers[i].1.writable {
          names := names + [registers[i].0];
        }
        i := i + 1;
      }
      assert registers[..i] == registers;
    }

    function EmsModeOutcome(connected: bool, log: seq<BusOp>, mode: string,
                            accepts: (nat, BusOp) -> bool): (r: Outcome<bool>)
      ensures EmsModeValue(mode).None? ==> r == Outcome(false, log)
      ensures EmsModeValue(mode).Some? ==>
        r == WriteOutcome(connected, log, "ems_mode_selection", EmsModeValue(mode).value as real, accepts)
    {
      match EmsModeValue(mode)
      case None => Outcome(false, log)
      case Some(v) => WriteOutcome(connected, log, "ems_mode_selection", v as real, accepts)
    }

    method SetEmsMode(mode: string, accepts: (nat, BusOp) -> bool) returns (ok: bool)
      modifies this`sent
      ensures Outcome(ok, sent) == EmsModeOutcome(hasClient, old(sent), mode, accepts)
    {
      var v := EmsModeValue(mode);
      if v.None? {
        return false;
      }
      ok := WriteRegister("ems_mode_selection", v.value as real, accepts);
    }

    /** `set_battery_forced_mode`: an unknown command writes nothing; then
        the EMS mode is set to forced, then the command, then the power when
        it is positive, stopping at the first failure. */
    function ForcedModeOutcome(connected: bool, log: seq<BusOp>, command: string, power: int,
                               accepts: (nat, BusOp) -> bool): (r: Outcome<bool>)
    {
      match ForcedCommandValue(command)
      case None => Outcome(false, log)
      case Some(code) =>
        var forced := EmsModeOutcome(connected, log, "forced", accepts);
        if !forced.result then forced
        else ForcedTail(connected, forced.log, code, power, accepts)
    }

    /** The rest of `set_battery_forced_mode` once forced mode is set: the
        command's code, then the power when it is positive, stopping at the
        first failure. */
    function ForcedTail(connected: bool, log: seq<BusOp>, code: int, power: int,
                        accepts: (nat, BusOp) -> bool): Outcome<bool>
    {
      var cmd := WriteOutcome(connected, log, "battery_forced_charge_discharge_cmd", code as real, accepts);
      if !cmd.result then cmd
      else if power > 0 then
        WriteOutcome(connected, cmd.log, "battery_forced_charge_discharge_power", power as real, accepts)
      else cmd
    }

    method SetBatteryForcedMode(command: string, power: int, accepts: (nat, BusOp) -> bool)
      returns (ok: bool)
      modifies this`sent
      ensures Outcome(ok, sent) == ForcedModeOutcome(hasClient, old(sent), command, power, accepts)
    {
      var code := ForcedCommandValue(command);
      if code.None? {
        return false;
      }
      ok := SetEmsMode("forced", accepts);
      if !ok {
        return;
      }
      ok := WriteRegister("battery_forced_charge_discharge_cmd", code.value as real, accepts);
      if !ok {
        return;
      }
      if power > 0 {
        ok := WriteRegister("battery_forced_charge_discharge_power", power as real, accepts);
      }
    }

    /** An unknown command sends nothing and fails. */
    lemma ForcedModeUnknownCommand(connected: bool, log: seq<BusOp>, command: string, power: int,
                                   accepts: (nat, BusOp) -> bool)
      requires !(command in {"stop", "charge", "discharge"})
      ensures ForcedModeOutcome(connected, log, command, power, accepts) == Outcome(false, log)
    {
    }

    /** One `write_register` call sends at most one request, and succeeds
        exactly when it sent one and the device accepted it. */
    lemma WriteStep(connected: bool, log: seq<BusOp>, name: string, value: real,
                    accepts: (nat, BusOp) -> bool)
      ensures var r := WriteOutcome(connected, log, name, value, accepts);
        && |log| <= |r.log| <= |log| + 1 && r.log[..|log|] == log
        && (r.result <==> |r.log| == |log| + 1 && accepts(|log|, r.log[|log|]))
        && (|r.log| == |log| + 1 ==>
              Find(registers, name).Some?
              && WriteOp(Find(registers, name).value, value, floatToBits) == Some(r.log[|log|]))
        && StopsAtDecline(log, r, 1, accepts)
    {
    }

    /** A forced-mode call stops at the first request the device declines:
        every request but the last one sent was accepted, and the call
        succeeds exactly when the EMS write, the command write and, for a
        positive power, the power write were all sent and the last of them
        accepted. */
    lemma ForcedModeWrites(connected: bool, log: seq<BusOp>, command: string, power: int,
                           accepts: (nat, BusOp) -> bool)
      ensures var r := ForcedModeOutcome(connected, log, command, power, accepts);
        var n := if power > 0 then 3 else 2;
        && r.log[..|log|] == log
        && |log| <= |r.log| <= |log| + n
        && (forall i :: |log| <= i < |r.log| - 1 ==> accepts(i, r.log[i]))
        && (r.result <==> |r.log| == |log| + n && accepts(|r.log| - 1, r.log[|r.log| - 1]))
    {
      var r := ForcedModeOutcome(connected, log, command, power, accepts);
      var n := if power > 0 then 3 else 2;
      if ForcedCommandValue(command).Some? {
        var code := ForcedCommandValue(command).value;
        var forced := EmsModeOutcome(connected, log, "forced", accepts);
        ForcedEmsStep(connected, log, accepts);
        if !forced.result {
          assert r == forced;
          WidenDecline(log, forced, 1, n, accepts);
        } else {
          var tail := ForcedTail(connected, forced.log, code, power, accepts);
          TailStops(connected, forced.log, code, power, accepts);
          ChainDecline(log, forced, tail, 1, n - 1, accepts);
          assert r == tail;
        }
      }
    }

    /** Setting forced mode is one write of the value 2 to
        "ems_mode_selection". */
    lemma ForcedEmsStep(connected: bool, log: seq<BusOp>, accepts: (nat, BusOp) -> bool)
      ensures EmsModeOutcome(connected, log, "forced", accepts)
              == WriteOutcome(connected, log, "ems_mode_selection", 2.0, accepts)
      ensures StopsAtDecline(log, EmsModeOutcome(connected, log, "forced", accepts), 1, accepts)
    {
      WriteStep(connected, log, "ems_mode_selection", 2.0, accepts);
    }

    /** The command and power writes stop at the first request declined. */
    lemma TailStops(connected: bool, log: seq<BusOp>, code: int, power: int, accepts: (nat, BusOp) -> bool)
      ensures StopsAtDecline(log, ForcedTail(connected, log, code, power, accepts),
                             if power > 0 then 2 else 1, accepts)
    {
      var cmd := WriteOutcome(connected, log, "battery_forced_charge_discharge_cmd", code as real, accepts);
      WriteStep(connected, log, "battery_forced_charge_discharge_cmd", code as real, accepts);
      if cmd.result && power > 0 {
        var p := WriteOutcome(connected, cmd.log, "battery_forced_charge_discharge_power", power as real, accepts);
        WriteStep(connected, cmd.log, "battery_forced_charge_discharge_power", power as real, accepts);
        ChainDecline(log, cmd, p, 1, 1, accepts);
        assert ForcedTail(connected, log, code, power, accepts) == p;
      } else {
        assert ForcedTail(connected, log, code, power, accepts) == cmd;
        if power > 0 {
          WidenDecline(log, cmd, 1, 2, accepts);
        }
      }
    }

    /** The requests after forced mode is set are the command's code, then
        the power. */
    lemma TailRequests(connected: bool, log: seq<BusOp>, code: int, power: int, accepts: (nat, BusOp) -> bool)
      ensures var t := ForcedTail(connected, log, code, power, accepts);
        && (|t.log| > |log| ==>
              Find(registers, "battery_forced_charge_discharge_cmd").Some?
              && WriteOp(Find(registers, "battery_forced_charge_discharge_cmd").value,
                         code as real, floatToBits) == Some(t.log[|log|]))
        && (|t.log| > |log| + 1 ==>
              Find(registers, "battery_forced_charge_discharge_power").Some?
              && WriteOp(Find(registers, "battery_forced_charge_discharge_power").value,
                         power as real, floatToBits) == Some(t.log[|log| + 1]))
    {
      var cmd := WriteOutcome(connected, log, "battery_forced_charge_discharge_cmd", code as real, accepts);
      WriteStep(connected, log, "battery_forced_charge_discharge_cmd", code as real, accepts);
      if cmd.result && power > 0 {
        var p := WriteOutcome(connected, cmd.log, "battery_forced_charge_discharge_power", power as real, accepts);
        WriteStep(connected, cmd.log, "battery_forced_charge_discharge_power", power as real, accepts);
        assert ForcedTail(connected, log, code, power, accepts) == p;
        assert p.log[|log|] == cmd.log[|log|] by {
          assert p.log[..|cmd.log|] == cmd.log;
        }
      } else {
        assert ForcedTail(connected, log, code, power, accepts) == cmd;
      }
    }

    /** The requests of a forced-mode call are, in order, the EMS-mode write
        of the value 2, the write of the command's code and the write of the
        power. */
    lemma ForcedModeRequests(connected: bool, log: seq<BusOp>, command: string, power: int,
                             accepts: (nat, BusOp) -> bool)
      ensures var r := ForcedModeOutcome(connected, log, command, power, accepts);
        && (|r.log| > |log| ==>
              Find(registers, "ems_mode_selection").Some?
              && WriteOp(Find(registers, "ems_mode_selection").value, 2.0, floatToBits) == Some(r.log[|log|]))
        && (|r.log| > |log| + 1 ==>
              ForcedCommandValue(command).Some?
              && Find(registers, "battery_forced_charge_discharge_cmd").Some?
              && WriteOp(Find(registers, "battery_forced_charge_discharge_cmd").value,
                         ForcedCommandValue(command).value as real, floatToBits) == Some(r.log[|log| + 1]))
        && (|r.log| > |log| + 2 ==>
              Find(registers, "battery_forced_charge_discharge_power").Some?
              && WriteOp(Find(registers, "battery_forced_charge_discharge_power").value,
                         power as real, floatToBits) == Some(r.log[|log| + 2]))
    {
      if ForcedCommandValue(command).Some? {
        var code := ForcedCommandValue(command).value;
        var forced := EmsModeOutcome(connected, log, "forced", accepts);
        WriteStep(connected, log, "ems_mode_selection", 2.0, accepts);
        if forced.result {
          var tail := ForcedTail(connected, forced.log, code, power, accepts);
          TailStops(connected, forced.log, code, power, accepts);
          TailRequests(connected, forced.log, code, power, accepts);
          assert tail.log[|log|] == forced.log[|log|] by {
            assert tail.log[..|forced.log|] == forced.log;
          }
        }
      }
    }

    /** `set_soc_limits`: both limits must lie in [0, 100] and the minimum
        must be below the maximum, else nothing is written; then both writes
        are attempted even when the first fails. */
    function SocLimitsOutcome(connected: bool, log: seq<BusOp>, minSoc: real, maxSoc: real,
                              accepts: (nat, BusOp) -> bool): (r: Outcome<bool>)
      ensures !(0.0 <= minSoc <= 100.0 && 0.0 <= maxSoc <= 100.0) ==> r == Outcome(false, log)
      ensures minSoc >= maxSoc ==> r == Outcome(false, log)
      ensures 0.0 <= minSoc < maxSoc <= 100.0 ==>
        var lo := WriteOutcome(connected, log, "min_soc", minSoc, accepts);
        var hi := WriteOutcome(connected, lo.log, "max_soc", maxSoc, accepts);
        r == Outcome(lo.result && hi.result, hi.log)
    {
      if !(0.0 <= minSoc <= 100.0) || !(0.0 <= maxSoc <= 100.0) then Outcome(false, log)
      else if minSoc >= maxSoc then Outcome(false, log)
      else
        var lo := WriteOutcome(connected, log, "min_soc", minSoc, accepts);
        var hi := WriteOutcome(connected, lo.log, "max_soc", maxSoc, accepts);
        Outcome(lo.result && hi.result, hi.log)
    }

    method SetSocLimits(minSoc: real, maxSoc: real, accepts: (nat, BusOp) -> bool) returns (ok: bool)
      modifies this`sent
      ensures Outcome(ok, sent) == SocLimitsOutcome(hasClient, old(sent), minSoc, maxSoc, accepts)
    {
      if !(0.0 <= minSoc <= 100.0) || !(0.0 <= maxSoc <= 100.0) {
        return false;
      }
      if minSoc >= maxSoc {
        return false;
      }
      var minOk := WriteRegister("min_soc", minSoc, accepts);
      var maxOk := WriteRegister("max_soc", maxSoc, accepts);
      ok := minOk && maxOk;
    }

    /** `set_export_power_limit`: the limit, then the mode register (0xAA to
        enable, 0x55 to disable); both writes are attempted. */
    function ExportLimitOutcome(connected: bool, log: seq<BusOp>, limit: int, enable: bool,
                                accepts: (nat, BusOp) -> bool): (r: Outcome<bool>)
      ensures var l := WriteOutcome(connected, log, "export_power_limit", limit as real, accepts);
        var m := WriteOutcome(connected, l.log, "export_power_limit_mode",
                              if enable then 0xAA as real else 0x55 as real, accepts);
        r == Outcome(l.result && m.result, m.log)
      ensures r.log[..|log|] == log
    {
      var l := WriteOutcome(connected, log, "export_power_limit", limit as real, accepts);
      var m := WriteOutcome(connected, l.log, "export_power_limit_mode",
                            if enable then 0xAA as real else 0x55 as real, accepts);
      assert m.log[..|log|] == l.log[..|log|];
      Outcome(l.result && m.result, m.log)
    }

    method SetExportPowerLimit(limit: int, enable: bool, accepts: (nat, BusOp) -> bool) returns (ok: bool)
      modifies this`sent
      ensures Outcome(ok, sent) == ExportLimitOutcome(hasClient, old(sent), limit, enable, accepts)
    {
      var limitOk := WriteRegister("export_power_limit", limit as real, accepts);
      var mode := if enable then 0xAA else 0x55;
      var modeOk := WriteRegister("export_power_limit_mode", mode as real, accepts);
      ok := limitOk && modeOk;
    }

    /** Without a client nothing is ever sent. */
    lemma NoClientNoTraffic(log: seq<BusOp>, name: string, value: real,
                            reply: (nat, BusOp) -> Option<seq<Word>>, accepts: (nat, BusOp) -> bool)
      ensures ReadOutcome(false, log, name, reply) == Outcome(None, log)
      ensures WriteOutcome(false, log, name, value, accepts) == Outcome(false, log)
    {
    }

    /** A name in both maps is read with the main map's configuration. */
    lemma MainMapShadowsLegacy(name: string, c: RegConfig)
      requires Find(registers, name) == Some(c)
      ensures Lookup(name) == Some(c)
    {
    }

    /** Legacy entries can be read but never written. */
    lemma LegacyNotWritable(connected: bool, log: seq<BusOp>, name: string, value: real,
                            accepts: (nat, BusOp) -> bool)
      requires Find(registers, name).None? && Find(legacyRegisters, name).Some?
      ensures Lookup(name).Some?
      ensures WriteOutcome(connected, log, name, value, accepts) == Outcome(false, log)
    {
    }
  }
}
