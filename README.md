# Sungrow self-consumption controller: a verified model

This project models the control and telemetry core of a home-energy controller for a
Sungrow hybrid inverter, and proves properties of that model. The controller reads the
inverter over Modbus, turns register words into measurements, derives battery and grid
state, applies self-consumption rules, samples telemetry into bounded ring buffers and
a drop-oldest queue, analyses the buffered power streams, and pushes samples to a
time-series database on a fixed-deadline schedule.

Each source file keeps its own sign convention, and the model does not reconcile them:

- the controller treats grid power as positive for export;
- the monitor mixes two conventions: its polling loop and `Monitor.HouseLoad` treat grid power as positive for import (monitor.py:269), while its balance display, `Monitor.DisplayedBalance`, treats it as positive for export (monitor.py:117);
- the analysis kernel treats grid power as positive for import;
- the telemetry collector's load formula treats solar power as negative.

Modules, one per part of the program:

| module | file | models |
|---|---|---|
| `Common` | common.dfy | Option, the first-match lookup in a table of pairs, absolute value, min/max, Python's `int()` truncation, slicing from the end |
| `Text` | text.dfy | the Python string operations the program relies on: `str(n)`, `f"{n:04X}"`, `.lower()`, `.title()`, `.replace()`, `.strip()` |
| `Series` | series.dfy | sums, means, min/max, variances and the least-squares slope used by every statistics routine |
| `Bounded` | bounded.dfy | `deque(maxlen=n)` and a `defaultdict` of such deques, as values |
| `RegisterCodec` | codec.dfy | register-word decoding and encoding (`_get_endianness`, `_decode_value`, `_encode_value`) |
| `Modbus` | modbus.dfy | the Modbus client's lookup, guard and ordering logic around an abstract bus |
| `Controller` | controller.dfy | the inverter controller: state-code text, charge/discharge flags, the `_update_*` steps, `calculate_energy_balance` |
| `Telemetry` | telemetry.dfy | the telemetry sample and its validation, and the collector with its ring buffers and queue |
| `Analysis` | analysis.dfy | the pure analysis kernel |
| `Monitor` | monitor.dfy | the synchronous monitor's rolling statistics, EMS mode names and history |
| `AsyncMonitor` | async_monitor.dfy | the asynchronous monitor's statistics over the collector's buffers |
| `Automation` | automation.dfy | the rule engine: tariff periods, rate limiting and rule precedence |
| `Pusher` | pusher.dfy | the database pusher's start gate, counters and deadline schedule |
| `TelemetryDemo` | demo.dfy | the replay and scenario collectors and the sample logger |

Objects whose methods update fields in place are classes with `modifies` clauses:

- `TelemetrySample` and `TelemetryCollector`;
- `ModbusClient` and `SungrowController`;
- `EnhancedSungrowMonitor` and `AsyncSungrowMonitor`;
- `SelfConsumptionAutomation` and `InfluxDBPusher`;
- the demo collectors and `TelemetryLogger`.

Deques and Python lists are `seq` fields, and dictionaries are `map` fields.

Every hardware, bus, database and clock interaction is a parameter:

- a controller update is an `UpdateResult`;
- a register read is an `Option<Value>` supplied by a `Reads` function;
- a bus request is numbered in a log (`sent`), and the device's answer is a function of its position in that log and the request;
- a database write that raises is a boolean;
- clock readings are reals;
- `math.sqrt`, `math.sin` and the IEEE float32 packing are uninterpreted functions.

Arithmetic is exact (`real` and `int`). Python's `int()` truncation is modelled as
`Common.Trunc`. The 16- and 32-bit masking of the register codec is written out with
`%` by powers of two.

The EMS mode description in async_monitor.py:121-131 is a copy of the one in
monitor.py:97-107. `Monitor.EmsModeDescription` models both.

## Model

| member | source | states |
|---|---|---|
| Telemetry.Check | telemetry.py:76-87 | the three plausibility gates in their order: a state of charge outside [0, 100] is rejected first, then a frequency outside [45, 55], then solar power below -50000; a sample is accepted exactly when all three pass |
| Telemetry.Reconcile | telemetry.py:90-97 | the reconciled load is always within 100 W of grid - battery - solar; a load already within 100 W is kept, any other is replaced by that balanced value |
| Telemetry.ReconcileIdempotent | telemetry.py:90-97 | reconciling a reconciled load changes nothing |
| Telemetry.TelemetrySample.constructor | telemetry.py:20-70 | a sample holds exactly the given measurements and quality fields |
| Telemetry.TelemetrySample.Validate | telemetry.py:72-101 | returns True exactly when all three gates pass; on success only the load changes, to the reconciled value, which then lies within 100 W of the balance; on failure nothing changes |
| Telemetry.TelemetrySample.ToDict | telemetry.py:103-118 | the dictionary carries every field of the sample unchanged: timestamp, solar, battery and grid power, state of charge, load, grid frequency, inverter temperature, system state and the validity and connection fields |
| Telemetry.SampleFromState | telemetry.py:226-275 | a sample copies solar, grid and battery power, the battery level as state of charge, the grid frequency and the state text from the controller state, with device type 0 |
| Telemetry.BufferKeysDistinct | telemetry.py:161-165 | the ten tracked channel names are pairwise distinct, so each channel is appended to once per sample |
| Telemetry.Enqueue | telemetry.py:352-360 | with room the sample is appended; a full queue loses its oldest item first; the new sample is always last and the length never exceeds a positive maxsize (maxsize <= 0 is unbounded) |
| Telemetry.EnqueueKeepsOrder | telemetry.py:352-360 | everything before the new sample is the newest part of the old queue in its old order, and at most one item is dropped |
| Telemetry.TelemetryCollector.constructor | telemetry.py:128-165 | buffer capacities are `int(window * rate)`, the sample interval is `1 / rate`, buffers and queue start empty, counters at zero, not running |
| Telemetry.TelemetryCollector.Start | telemetry.py:167-180 | start succeeds exactly when the controller connects, and only then sets `running` |
| Telemetry.TelemetryCollector.Stop | telemetry.py:182-187 | the collector is no longer running |
| Telemetry.TelemetryCollector.AppendToRingBuffers | telemetry.py:189-220 | an invalid sample changes no buffer; a valid one is appended once to the sample buffer and its value for every tracked key to both the short and the long buffer, each keeping only its newest `capacity` values |
| Telemetry.TelemetryCollector.AppendValues | telemetry.py:216-220 | the loop over the tracked keys appends exactly the per-channel values and keeps every buffer within its capacity |
| Telemetry.TelemetryCollector.CreateSample | telemetry.py:222-295 | a sample built from the controller state has load exactly grid - battery - solar, is valid, "connected" and carries the error count; when reading the state raises, the sample is the invalid default "error" sample with the error count plus one |
| Telemetry.TelemetryCollector.CollectedValidIff | telemetry.py:222-325 | a collected sample is valid exactly when the update succeeded, the state was read and the sample built from it passes all three gates |
| Telemetry.TelemetryCollector.CollectSample | telemetry.py:297-334 | the sample is the one `CollectedFrom` describes: an "exception" sample when the update raises and a "read_error" sample when it fails, each invalid with the new error count; when reading the state raises, the invalid "error" sample of `_create_sample_from_controller_data` with the new error count; otherwise the sample built from the state, "connected", with the old error count, valid exactly when it passes the gates, and then with the reconciled load. The sample count advances by one exactly for a valid sample, and the error count by one exactly otherwise |
| Telemetry.TelemetryCollector.RunCollectorStep | telemetry.py:336-360 | one pass of the collection loop: the sample is the one `CollectedFrom` describes for the update and state; the sample count advances by one exactly for a valid sample and otherwise the error count does; the sample is queued drop-oldest; a valid sample is appended to the sample buffer and its channels to the short and long buffers of every channel name, each bounded by its capacity; an invalid one leaves the buffers unchanged |
| Telemetry.TelemetryCollector.GetSampleNowait | telemetry.py:384-389 | None exactly when the queue is empty; otherwise the oldest sample, which leaves the queue |
| Telemetry.TelemetryCollector.GetSamplesBatch | telemetry.py:391-409 | a non-positive maximum takes nothing; otherwise the oldest `min(m, queued)` samples in FIFO order, or the one sample that arrives when the queue was empty, so at least one and at most `m` |
| Telemetry.TelemetryCollector.GetStats | telemetry.py:447-457 | the running flag, counters, queue size, queue bound and sample rate are reported as held, and the error rate is `errors / max(1, samples)`, never negative |
| Bounded.BoundedAppend | telemetry.py:150-158 | a deque with `maxlen` never holds more than `maxlen` items |
| Bounded.BoundedAppendShape | telemetry.py:150-158 | an append grows a deque with room by one and otherwise drops its oldest item; the new item is last; a zero `maxlen` keeps nothing |
| Bounded.AppendKeepsNewest | telemetry.py:219-220 | appending to the newest `n` items of a history gives the newest `n` items of the longer history |
| Bounded.AppendAllNewest | telemetry.py:219-220 | a deque filled from empty holds exactly the newest `maxlen` values appended, oldest first |
| Bounded.AppendChannelsSkips | telemetry.py:216-220 | a channel that is not visited or has no value keeps its buffer, or stays absent |
| Bounded.AppendChannelsAt | telemetry.py:216-220 | a channel visited once with a value gets exactly that value appended, its buffer created empty first if missing |
| Bounded.AppendChannelsEffect | telemetry.py:216-220 | with distinct keys every visited channel with a value gets that value appended and every other buffer is left as it was |
| Bounded.AppendChannelsCovers | telemetry.py:216-220 | when every channel with a value is visited, exactly those channels change |
| Bounded.AppendChannelsBounded | telemetry.py:150-155 | appending to a `defaultdict` of bounded deques never lets a buffer exceed its capacity |
| Analysis.StreamStats | analysis.py:83-138 | an empty buffer gives all-zero statistics; otherwise the current value is the newest, the count is the length, min and max are elements bounding every element, the mean and the current value; the mean is the buffer's mean, the deviation the square root of the sample variance (0 for one sample), the derivative 0 below 10 samples, and the oscillation index the population deviation over the absolute mean, or 0 when the mean is within 1 of zero |
| Analysis.LinearDerivative | analysis.py:105-121 | when the last 10 samples lie on a line `a + b*i` the derivative is exactly `b * rate` |
| Analysis.ConstantDerivative | analysis.py:105-121 | constant last 10 samples give a zero derivative |
| Analysis.StatsNonNegative | analysis.py:123-127 | with a square root that is never negative, the deviation and the oscillation index are never negative |
| Analysis.CalculateEnergyBalance | analysis.py:141-171 | the error is solar + grid - load - battery, the balance is valid exactly when the error is below the tolerance in magnitude, and each flow flag holds exactly outside the 10 W deadband on its side |
| Analysis.FlowFlagsExclusive | analysis.py:155-158 | the grid never imports and exports at once, and the battery never charges and discharges at once |
| Analysis.CollectorLoadBalance | analysis.py:151-152 | with the collector's load formula the analysis balance error is twice the solar power, so the two conventions only agree without solar |
| Analysis.Clamp01 | analysis.py:188 | the result lies in [0, 1] and values already in [0, 1] are kept |
| Analysis.CalculateEnergyRatios | analysis.py:174-221 | self-consumption is the clamped export-free share of generation and always in [0, 1]; solar-based ratios are 0 up to 10 W of generation and load-based ratios 0 up to 10 W of load; all ratios are non-negative; the mode flags follow the 50 W thresholds and feeding excludes depending |
| Analysis.NoExportFullSelfConsumption | analysis.py:183-188 | with generation above 10 W and no export, the self-consumption ratio is exactly 1 |
| Analysis.SampleQuality | analysis.py:270-271 | the sample quality lies in [0, 1]; it is 0 without expected samples, 1 once enough arrived, and the fraction received otherwise |
| Analysis.QualityScore | analysis.py:267-273 | the quality score lies in [0.25, 1]; a valid balance scores at least 0.5 and an invalid one at most 0.75 |
| Analysis.Analyze | analysis.py:224-296 | timestamp and window pass through; each stream gets its statistics; the sample count is the minimum of the four counts; balance and ratios are computed on the current values; the quality score is in [0.25, 1]; the stability index is the mean of the four oscillation indices |
| Analysis.EmptyAnalysis | analysis.py:224-296 | four empty buffers give count 0, quality score exactly 0.5, stability 0, a valid balance and all-zero statistics |
| Analysis.StabilityNonNegative | analysis.py:276-282 | with a non-negative square root the stability index is never negative |
| Series.MinOf | analysis.py:101 | the minimum is an element and bounds every element from below |
| Series.MaxOf | analysis.py:102 | the maximum is an element and bounds every element from above |
| Series.SampleVariance | monitor.py:68 | the variance behind `statistics.stdev` is never negative |
| Series.PopulationVariance | analysis.py:126 | the mean squared deviation behind the oscillation index is never negative |
| Series.LinearSlope | analysis.py:113-120 | the least-squares slope of 10 or 20 points on a line `a + b*i` is exactly `b` |
| Series.ConstantSlope | analysis.py:113-120 | the least-squares slope of 10 or 20 equal points is 0 |
| Series.MeanBetween | analysis.py:99-102 | the mean lies between the minimum and the maximum |
| RegisterCodec.DataType | modbus_client.py:92 | the data type defaults to "uint16" |
| RegisterCodec.Scale | modbus_client.py:93 | the scale defaults to 1 |
| RegisterCodec.GetEndianness | modbus_client.py:82-87 | little-endian exactly when the lower-cased "endian" key, else "endianness", else "big", is "little" |
| RegisterCodec.DefaultEndiannessIsBig | modbus_client.py:82-87 | a register without either key is big-endian |
| RegisterCodec.EndianKeyPrecedence | modbus_client.py:82-87 | "endian" wins over "endianness", and case does not matter |
| RegisterCodec.Join | modbus_client.py:104-111 | two words join into a value in [0, 2^32) from which the high and low words are recovered |
| RegisterCodec.ToSigned16 | modbus_client.py:102-103 | the signed reading lies in [-32768, 32767], is congruent to the word modulo 2^16 and equals it below 32768 |
| RegisterCodec.ToSigned32 | modbus_client.py:120-122 | the signed reading lies in [-2^31, 2^31) and is congruent to the unsigned value modulo 2^32 |
| RegisterCodec.Join32 | modbus_client.py:104-119 | with word swap or little-endian order the second word is high, otherwise the first |
| RegisterCodec.WordChars | modbus_client.py:135-139 | a zero word gives nothing; any other word gives its low byte, then its high byte when that is non-zero |
| RegisterCodec.StringChars | modbus_client.py:134-139 | at most two characters per word, and all-zero words give the empty string |
| RegisterCodec.DecodeString | modbus_client.py:131-140 | a non-positive count gives ""; the text has at most two characters per register used, each a byte value, and no whitespace at either end |
| RegisterCodec.DecodeStringUsesOnlyCount | modbus_client.py:134-135 | registers past the configured count do not change the text |
| RegisterCodec.DecodeStringIgnoresPadding | modbus_client.py:136 | zero registers padding the end of the value do not change the text |
| RegisterCodec.DecodeStringTrims | modbus_client.py:140 | the text is the used registers' characters with only whitespace cut off at either end |
| RegisterCodec.DecodeRaw | modbus_client.py:89-143 | unknown types and too few words give None, every known type with enough words gives a value, and exactly strings give text |
| RegisterCodec.Decode | modbus_client.py:89-184 | fails exactly when raw decoding fails; text is returned unscaled and numbers multiplied by the scale |
| RegisterCodec.Encode | modbus_client.py:186-254 | unknown types and strings encode to no words, as does a zero scale (the division raises); 16-bit types give one word and 32-bit types two |
| RegisterCodec.Uint16RoundTrip | modbus_client.py:200-201 | decoding the encoding of any `v` in [0, 2^16) gives `v` back |
| RegisterCodec.Int16RoundTrip | modbus_client.py:202-204 | decoding the encoding of any `v` in [-2^15, 2^15) gives `v` back |
| RegisterCodec.Uint32RoundTrip | modbus_client.py:205-210 | decoding the encoding of any `v` in [0, 2^32) gives `v` back, in both byte orders, without word swap |
| RegisterCodec.Int32RoundTrip | modbus_client.py:211-218 | decoding the encoding of any `v` in [-2^31, 2^31) gives `v` back, in both byte orders, without word swap |
| RegisterCodec.SwapTakesSecondWordHigh | modbus_client.py:105-107 | with word swap the decoded uint32 always takes the second register as the high word |
| RegisterCodec.SwapTakesSecondWordHighSigned | modbus_client.py:112-122 | with word swap the decoded int32 takes the second register as the high word, whatever the byte order, and is then read as two's complement |
| RegisterCodec.EncodeIgnoresSwap | modbus_client.py:205-210 | the encoding does not depend on the swap setting |
| RegisterCodec.SwapBigDoesNotRoundTrip | modbus_client.py:105-110 | with swap and big-endian order, 65536 encodes to [1, 0], which decodes to 1 |
| RegisterCodec.UnknownType | modbus_client.py:141-143 | an unknown data type decodes to None and encodes to no words |
| RegisterCodec.StringIgnoresZeroWords | modbus_client.py:136 | trailing zero words add nothing to a string |
| RegisterCodec.StringLowByteFirst | modbus_client.py:137-139 | a word of two printable bytes reads low byte first |
| Common.Find | modbus_client.py:264-267 | a key is found exactly when the table has an entry for it, and the value found is that entry's; it is both the register-map lookup and the state enumeration's lookup by value (sungrow_controller.py:303) |
| Common.FindDistinct | modbus_client.py:264-267 | in a map with distinct names, as a YAML mapping has, the entry found for a name is the one entry of that name |
| Modbus.WritableNames | modbus_client.py:388-394 | exactly the names whose entries are writable |
| Modbus.RegisterCount | modbus_client.py:279-284 | 2 words for 32-bit types, the configured count (default 1) for strings, 1 otherwise |
| Modbus.ReadOp | modbus_client.py:272-297 | a register without an address is not read; function code 3 (the default is 4) reads holding registers and 4 input registers, with the register count; any other code is not read |
| Modbus.WriteOp | modbus_client.py:326-353 | a write is issued exactly when the register is writable, has an address, uses function code 3 (the default) and encodes to at least one word; one word is a single write, more a multiple write |
| Modbus.EmsModeValue | modbus_client.py:438-444 | "self_consumption", "forced" and "external_ems" map to 0, 2 and 3, and nothing else is accepted |
| Modbus.ForcedCommandValue | modbus_client.py:452-460 | "stop", "charge" and "discharge" map to 0xCC, 0xAA and 0xBB, and nothing else is accepted |
| Modbus.ModbusClient.constructor | modbus_client.py:21-33 | the client starts with its register maps, whose names are distinct, no bus connection and an empty request log |
| Modbus.ModbusClient.Connect | modbus_client.py:61-74 | connecting creates the bus client and reports whether the device answered |
| Modbus.ModbusClient.Lookup | modbus_client.py:263-270 | the main register map is consulted first and the legacy map only for names it lacks |
| Modbus.ModbusClient.ReadOutcome | modbus_client.py:256-313 | without a client or a known register nothing is sent and the result is None; otherwise the one read request is logged, and an error reply gives None and any other reply its decoding |
| Modbus.ModbusClient.ReadRegister | modbus_client.py:256-313 | the read returns and logs exactly what `ReadOutcome` describes |
| Modbus.ModbusClient.WriteOutcome | modbus_client.py:315-364 | without a client, or for an unknown name, nothing is sent and the result is False; a rejected write sends nothing; an issued write is logged once and succeeds exactly when the device accepts it; earlier log entries are never changed |
| Modbus.ModbusClient.WriteRegister | modbus_client.py:315-364 | the write returns and logs exactly what `WriteOutcome` describes |
| Modbus.ModbusClient.ListWritableRegisters | modbus_client.py:388-394 | the loop returns exactly the writable names |
| Modbus.ModbusClient.EmsModeOutcome | modbus_client.py:436-448 | an unknown mode sends nothing and fails; a known mode writes its value to "ems_mode_selection" |
| Modbus.ModbusClient.SetEmsMode | modbus_client.py:436-448 | the call returns and logs exactly what `EmsModeOutcome` describes |
| Modbus.ModbusClient.SetBatteryForcedMode | modbus_client.py:450-474 | the call returns and logs exactly the forced-mode sequence |
| Modbus.ModbusClient.ForcedModeUnknownCommand | modbus_client.py:458-460 | an unknown command sends nothing and fails |
| Modbus.ModbusClient.WriteStep | modbus_client.py:315-364 | one register write keeps the log, sends at most one request, which is the encoded write of a register the map names, and succeeds exactly when it sent one and the device accepted it |
| Modbus.ModbusClient.ForcedModeWrites | modbus_client.py:450-474 | earlier log entries are kept; the call stops at the first request the device declines, so every request but the last one sent was accepted; it sends at most 3 requests for a positive power and 2 otherwise, and succeeds exactly when all of them were sent and the last accepted |
| Modbus.ModbusClient.ForcedModeRequests | modbus_client.py:462-472 | the requests sent are, in order, the write of forced mode (2) to "ems_mode_selection", the write of a known command's code to "battery_forced_charge_discharge_cmd" and the write of the power to "battery_forced_charge_discharge_power" |
| Modbus.ModbusClient.SocLimitsOutcome | modbus_client.py:476-489 | limits outside [0, 100] or with min >= max fail before any write; valid limits write min and then max and succeed only if both do |
| Modbus.ModbusClient.SetSocLimits | modbus_client.py:476-489 | the call returns and logs exactly what `SocLimitsOutcome` describes |
| Modbus.ModbusClient.ExportLimitOutcome | modbus_client.py:491-500 | the limit is written and then the mode (0xAA enabled, 0x55 disabled); the call succeeds only if both writes do, and earlier log entries are kept |
| Modbus.ModbusClient.SetExportPowerLimit | modbus_client.py:491-500 | the call returns and logs exactly what `ExportLimitOutcome` describes |
| Modbus.ModbusClient.NoClientNoTraffic | modbus_client.py:258-260 | without a bus client, reads give None and writes give False, and nothing is sent |
| Modbus.ModbusClient.MainMapShadowsLegacy | modbus_client.py:264-265 | a name in the main map resolves to its main entry |
| Modbus.ModbusClient.LegacyNotWritable | modbus_client.py:322-324 | a name only in the legacy map can be read but never written |
| Controller.KnownStateText | sungrow_controller.py:303-304 | a known code gives its enum name with underscores replaced by spaces, title-cased |
| Controller.UnknownStateText | sungrow_controller.py:305-306 | an unknown code gives "Unknown State (0x" followed by its four-digit upper-case hex and ")" |
| Controller.RunningAltText | sungrow_controller.py:300-306 | code 0x0040 reads "Running Alt" |
| Controller.UnknownCodeThree | sungrow_controller.py:305-306 | code 3 is not in the table and reads "Unknown State (0x0003)" |
| Controller.SystemStateText | sungrow_controller.py:284 | a state text exists exactly for integral state values, and is the text of that code |
| Controller.RunningStateBits | sungrow_controller.py:239-243 | charging is bit 0x2 and discharging bit 0x4 of the running state |
| Controller.BothBitsMayBeSet | sungrow_controller.py:239-243 | both bits can be set at once (6, and -1 in two's complement) |
| Controller.CurrentFlags | sungrow_controller.py:244-254 | above 0.1 A charging, below -0.1 A discharging, and never both |
| Controller.ChargeFlags | sungrow_controller.py:238-254 | no running-state reading falls back to the current; an integral reading gives its bits; text or a fractional reading raises |
| Controller.FallbackFlagsExclusive | sungrow_controller.py:244-254 | the current fallback always succeeds and never sets both flags |
| Controller.NumOr | sungrow_controller.py:230-236 | a numeric reading is kept and a missing reading becomes 0 |
| Controller.TextOr | sungrow_controller.py:278 | a text reading is kept and a missing reading becomes the empty string |
| Controller.ExportLimitEnabled | sungrow_controller.py:297-298 | export limiting is enabled exactly when the limit-mode register reads 0xAA |
| Controller.FailedReadsGiveDefaultPower | sungrow_controller.py:192-224 | when every read fails the power data are the initial zeros |
| Controller.FailedReadsGiveDefaultEnergy | sungrow_controller.py:256-272 | when every read fails the energy counters are the initial zeros |
| Controller.FailedReadsGiveDefaultBattery | sungrow_controller.py:226-254 | when every read fails the battery data are the initial zeros and neither flag is set |
| Controller.FailedReadsGiveDefaultInfo | sungrow_controller.py:274-298 | when every read fails the state is 0 and the identity and control settings are the initial values |
| Controller.HouseConsumption | sungrow_controller.py:471-476 | both branches, export and import, give solar - abs(battery) - grid |
| Controller.EnergyBalance | sungrow_controller.py:462-482 | the flows are reported as held; house consumption is the clamped load and never negative; the ratio is 0 without solar and at most 100 otherwise |
| Controller.NegativeSelfConsumptionRatio | sungrow_controller.py:481 | 1000 W of solar, 500 W of battery discharge and 1500 W of export give a house load of 0 with a self-consumption ratio of -100 |
| Controller.ClampedEnergyBalance | sungrow_controller.py:462-482 | the corrected balance agrees with the original except for the ratio, which is the clamped load over solar capped at 100, and always lies in [0, 100] |
| Controller.ClampedAgreesWhenLoadNonNegative | sungrow_controller.py:471-481 | whenever the reconstructed load is not negative, the corrected and original balances are equal |
| Controller.SungrowController.constructor | sungrow_controller.py:146-161 | a controller starts disconnected with every record at its initial value |
| Controller.SungrowController.Connect | sungrow_controller.py:163-166 | `connected` becomes the client's connect result |
| Controller.SungrowController.Disconnect | sungrow_controller.py:168-171 | the controller is disconnected |
| Controller.SungrowController.UpdatePowerData | sungrow_controller.py:192-224 | the power data become the readings, missing ones 0 |
| Controller.SungrowController.UpdateBatteryData | sungrow_controller.py:226-254 | the measurements become the readings; the flags come from the running-state bits or the current; a running state that cannot be masked raises after the measurements were stored |
| Controller.SungrowController.UpdateEnergyData | sungrow_controller.py:256-272 | the energy counters become the readings, missing ones 0 |
| Controller.SungrowController.UpdateSystemInfo | sungrow_controller.py:274-298 | identity fields are stored first; a state with a text also gets the control settings; one without raises before them |
| Controller.SungrowController.Update | sungrow_controller.py:173-190 | without a connection nothing is read and the result is False; otherwise the four updates run in order, a raising step stops the later ones, and the result is True exactly when none raised |
| Controller.SungrowController.SetBackupReserveSoc | sungrow_controller.py:387-392 | a value outside [0, 100] fails with no write; otherwise `int(soc)` is written to "reserved_soc_for_backup" |
| Monitor.Trend | monitor.py:72-85 | the trend is 0 unless 20 points are available |
| Monitor.WindowStats | monitor.py:62-70 | current is the newest value; the average is the window's mean; min and max are window elements bounding every element and the mean; range is max - min and never negative; the deviation is the square root of the sample variance for more than one value |
| Monitor.CalculateStatistics | monitor.py:54-95 | an unknown key or fewer than 2 points give all-zero statistics; otherwise exactly `WindowStats` of the newest `min(20, len)` points: current the newest value, the mean and sample standard deviation of the window, its min and max bounding every point, the range and the trend |
| Monitor.LinearTrend | monitor.py:72-85 | when the newest 20 points lie on a line `a + b*i` the trend is `b * update_frequency` |
| Monitor.LinearWindowTrend | monitor.py:74-85 | the trend of a window ending in 20 points on a line `a + b*i` is `b * rate` |
| Monitor.OnlyRecentReadingsCount | monitor.py:62-63 | two histories that agree on their newest 20 points have the same statistics |
| Monitor.StatisticsOfFullWindow | monitor.py:62-70 | with at least 20 points the statistics are those of the newest 20 |
| Monitor.EmsModeDescription | monitor.py:97-107 | modes 0 to 5 get their six names and any other mode "Unknown (n)" with its decimal number |
| Monitor.EmsModeDescriptionInjective | monitor.py:97-107 | different modes always get different descriptions |
| Monitor.KnownModeSignature | monitor.py:99-106 | each known name starts with its own letter, never "U", and has its own length |
| Monitor.UnknownModeNumber | monitor.py:107 | an unknown mode's description starts with "U" and contains the mode's decimal number |
| Monitor.HouseLoad | monitor.py:283-289 | the house load built from the import, export, charge and discharge parts always equals solar + grid - battery |
| Monitor.DisplayedBalance | monitor.py:116-141 | the displayed load balances the equation and the displayed balance error is exactly 0 |
| Monitor.CurrentKeysDistinct | monitor.py:266-276 | the recorded readings have distinct names |
| Monitor.HouseLoadEntry | monitor.py:283-290 | the readings include the house load and leave out the textual system state |
| Monitor.NumericReadingsKeys | monitor.py:266-296 | only numeric readings are recorded, all under listed names, the house load among them |
| Monitor.HouseLoadAppended | monitor.py:292-296 | the house load is appended to its 60-value history and the system state's history is untouched |
| Monitor.RecordedReadings | monitor.py:292-296 | recording a reading appends the house load to its bounded history and leaves the system state's history as it was |
| Monitor.EnhancedSungrowMonitor.constructor | monitor.py:18-29 | the update interval is `1 / frequency`, both histories start empty, not running |
| Monitor.EnhancedSungrowMonitor.Start | monitor.py:246-255 | the loop runs only after the controller connects |
| Monitor.EnhancedSungrowMonitor.Stop | monitor.py:35-38 | the monitor stops running |
| Monitor.EnhancedSungrowMonitor.RecordReading | monitor.py:292-296 | every numeric reading is appended to its 60-value history and, with its timestamp, to its 600-value history |
| Monitor.EnhancedSungrowMonitor.AppendReadings | monitor.py:293-296 | the loop appends each listed reading to both histories and keeps them within their lengths |
| AsyncMonitor.BufferStatistics | async_monitor.py:71-119 | fewer than 2 values give all-zero statistics; otherwise exactly `WindowStats` of the newest `stats_window` values (all of them for a zero window): current the newest value, the window's mean, its sample standard deviation (0 for a one-value window), min, max, range and trend |
| AsyncMonitor.ShortWindowHasNoTrend | async_monitor.py:96-98 | a positive window shorter than 20 never yields a trend |
| AsyncMonitor.LinearBufferTrend | async_monitor.py:96-109 | when the newest 20 values lie on a line `a + b*i`, the trend is `b * sample_rate` |
| AsyncMonitor.AsyncSungrowMonitor.constructor | async_monitor.py:39-50 | the statistics window is `int(10 * sample_rate)` |
| AsyncMonitor.AsyncSungrowMonitor.ProcessTelemetrySample | async_monitor.py:274-286 | exactly one statistics entry per buffer key, each computed from that key's short buffer |
| Automation.CanTakeAction | automation_example.py:36-39 | an action is allowed exactly when more than 300 s passed since it was last recorded, a never-recorded action counting as recorded at time 0 |
| Automation.RecordBlocksOnlyThatAction | automation_example.py:36-43 | recording an action blocks it for 300 s and no longer, and does not change any other action's permission |
| Automation.TimeOfUsePeriod | automation_example.py:45-54 | 22:00 to 06:59 is off-peak, 07-09 and 17-20 are peak, and every other hour is standard |
| Automation.DayPeriods | automation_example.py:45-54 | over the 24 hours the three periods take exactly the listed hours |
| Automation.AnalyzeSolarConditions | automation_example.py:56-67 | above 4000 W excellent, above 2000 W good, above 500 W moderate, otherwise poor |
| Automation.SolarConditionsMonotone | automation_example.py:56-67 | more solar never gives worse conditions |
| Automation.ExcessSolar | automation_example.py:69-72 | the excess is solar minus the house consumption of the energy balance, or 0 when that is negative |
| Automation.BatteryRule | automation_example.py:74-100 | charging optimisation fires exactly with excellent solar, a state of charge below 85 %, more than 2000 W excess and permission; night charging is considered only otherwise, off-peak below 30 % with permission |
| Automation.GridRule | automation_example.py:102-126 | peak discharge fires exactly with import above 1000 W in the peak period, above 40 % and with permission; export reduction fires exactly with export above 2000 W, a state of charge below 85 % and permission, and charges at `min(3000, grid)` W, never more than 3000 W |
| Automation.EmergencyRule | automation_example.py:128-149 | emergency preservation fires exactly below 10 % with permission; thermal protection is considered only otherwise, above 70 °C with permission |
| Automation.NoRepeatWithinInterval | automation_example.py:36-43 | within 300 s of recording an action, no rule fires that action again |
| Automation.LaterRulesIgnoreEarlierKeys | automation_example.py:175-178 | an action recorded by the battery group does not change the grid or emergency decision, nor one by the grid group the emergency decision |
| Automation.CycleLast | automation_example.py:41-43 | after a cycle exactly the keys of the actions taken are stamped with the cycle's time, and every other entry is kept |
| Automation.CycleThrottlesNextCycle | automation_example.py:36-43 | a cycle run within 300 s of one that took an action picks no rule under that action's key, whatever the readings and the hour |
| Automation.CycleComposes | automation_example.py:175-178 | the three groups run in turn behave as if each had decided on the dictionary the cycle started with |
| Automation.TakenActions | automation_example.py:180-181 | the result holds exactly the groups whose action fired, with that action |
| Automation.SelfConsumptionAutomation.constructor | automation_example.py:24-27 | no action recorded, no control call issued |
| Automation.SelfConsumptionAutomation.RecordAction | automation_example.py:41-43 | only that action's time is set to now |
| Automation.SelfConsumptionAutomation.Apply | automation_example.py:86-90 | a chosen rule issues its control call; on success it reports its action and records it, on failure it records nothing |
| Automation.SelfConsumptionAutomation.OptimizeBatteryCharging | automation_example.py:74-100 | issues the battery rule's call, reports and records its action exactly when the call succeeds |
| Automation.SelfConsumptionAutomation.OptimizeGridInteraction | automation_example.py:102-126 | issues the grid rule's call, reports and records its action exactly when the call succeeds |
| Automation.SelfConsumptionAutomation.EmergencyManagement | automation_example.py:128-149 | issues the emergency rule's call, reports and records its action exactly when the call succeeds |
| Automation.SelfConsumptionAutomation.RunOptimizationCycle | automation_example.py:151-191 | a failed connect or update returns its error and changes nothing; otherwise the three groups' calls are issued in order and the result holds only the actions that fired; the new dictionary of last-action times is `CycleLast`, each action taken stamped now |
| Pusher.NextDeadline | influxdb_pusher.py:311-320 | the deadline advances by one interval and the loop sleeps until it; when it is already past, the deadline becomes one interval after now with no sleep |
| Pusher.DeadlineAdvances | influxdb_pusher.py:311-320 | with a positive interval each cycle moves the deadline strictly forward and past now, and never sleeps past it |
| Pusher.ScheduleIncreasing | influxdb_pusher.py:286-320 | over any run the deadlines strictly increase and all follow the initial one |
| Pusher.ScheduleOnGrid | influxdb_pusher.py:311-316 | a loop that never falls behind keeps its deadlines at `start + k * interval` |
| Pusher.InfluxDBPusher.constructor | influxdb_pusher.py:27-40 | the sample interval is `1 / rate`; counters start at zero; not running, no start time |
| Pusher.InfluxDBPusher.Start | influxdb_pusher.py:97-120 | the service runs, stamped with its start time, exactly when the controller connects and the database health is "pass"; otherwise nothing changes |
| Pusher.InfluxDBPusher.Stop | influxdb_pusher.py:122-124 | the service stops running |
| Pusher.InfluxDBPusher.CollectData | influxdb_pusher.py:146-223 | a failed update gives None, an exception gives None and one more error, and a successful update gives the measurements |
| Pusher.InfluxDBPusher.WriteToInfluxdb | influxdb_pusher.py:225-279 | a write that does not raise counts one write and stamps its time; one that raises counts one write error |
| Pusher.InfluxDBPusher.BeginCollectionLoop | influxdb_pusher.py:284-286 | the first deadline is the loop's start time |
| Pusher.InfluxDBPusher.CollectionCycle | influxdb_pusher.py:288-325 | the sample and write counters advance exactly when data were collected and written, a write error exactly when a collected write raised, and the write time is stamped only on a write; progress is logged at multiples of the progress interval; the pass raises exactly when a written sample meets a zero progress interval, or a progress step with no start time or zero elapsed time; an error is counted for a raising update and one more for a raising pass, which pauses 0.1 s and keeps its deadline, while any other pass moves it as `NextDeadline` says |
| TelemetryDemo.CursorClosedForm | telemetry_demo.py:47-54 | after `k > 0` reads the cursor is `(k - 1) mod len + 1` |
| TelemetryDemo.ReplayCycles | telemetry_demo.py:47-54 | read `k` takes entry `k mod len`, and the cursor then lies in [1, len] |
| TelemetryDemo.MockTelemetryCollector.constructor | telemetry_demo.py:26-34 | the fields `__init__` sets: the replay list, the interval 1/rate, not running, sample and error counts 0, entry 0 and an empty queue; the empty ring buffers it leaves out exist only for the corrected loop |
| TelemetryDemo.MockTelemetryCollector.Start | telemetry_demo.py:36-40 | starting always succeeds |
| TelemetryDemo.MockTelemetryCollector.Stop | telemetry_demo.py:42-45 | the collector stops running |
| TelemetryDemo.MockTelemetryCollector.CollectSample | telemetry_demo.py:47-62 | the `k`-th call returns the sample of entry `k mod len`, stamped now, with its fields as recorded, and counts it, leaving the cursor in [1, len]; an empty list yields no sample (the lookup raises) with the cursor reset to 0 |
| TelemetryDemo.MockTelemetryCollector.RunCollectorStepAsWritten | telemetry_demo.py:26-34 | as constructed, the inherited loop raises on every valid sample and on an empty list, and queues only invalid samples |
| TelemetryDemo.MockTelemetryCollector.RunCollectorStep | telemetry.py:336-360 | with the ring buffers in place, every sample read is queued and valid ones are buffered |
| TelemetryDemo.MockTelemetryCollector.AppendToRingBuffers | telemetry.py:189-220 | the base collector's buffer update, on the mock's own buffers |
| TelemetryDemo.GenerateScenarioData | telemetry_demo.py:93-140 | solar power and load are never negative and the state of charge lies in [0, 100]; "normal" always has load 1200 W, "peak_shaving" 3000 W with -2000 W of battery exactly while its state of charge is above 25 %, "grid_outage" grid 0, battery -2500 W and load 5500 W, any other scenario 1500 W; in every scenario the load equals solar - battery - grid |
| TelemetryDemo.StubTelemetryCollector.constructor | telemetry_demo.py:71-79 | the scenario clock starts at construction |
| TelemetryDemo.StubTelemetryCollector.Start | telemetry_demo.py:81-86 | starting always succeeds and restarts the scenario clock |
| TelemetryDemo.StubTelemetryCollector.Stop | telemetry_demo.py:88-91 | the collector stops running |
| TelemetryDemo.StubTelemetryCollector.CollectSample | telemetry_demo.py:142-152 | the sample is the scenario at the elapsed time, valid and "stubbed", and is counted |
| TelemetryDemo.TelemetryLogger.constructor | telemetry_demo.py:161-163 | the logger starts with no samples |
| TelemetryDemo.TelemetryLogger.LogSample | telemetry_demo.py:165-167 | exactly one dictionary is added, after the earlier ones, which stay unchanged |
| Text.ToBaseRoundTrip | monitor.py:107 | reading back the rendered digits gives the number |
| Text.IntToDecimalInjective | monitor.py:107 | different integers render differently |
| Text.Hex04 | sungrow_controller.py:306 | a code renders as its upper-case hex digits padded with zeros to at least four characters |
| Text.TitleChars | sungrow_controller.py:304 | `.title()` raises the first letter of every run of letters, lowers the rest, and keeps other characters |
| Text.ReplaceChar | sungrow_controller.py:304 | each underscore becomes a space and every other character is kept |
| Text.Lower | modbus_client.py:84 | `.lower()` keeps the length and leaves no upper-case letter |
| Text.Strip | modbus_client.py:140 | the stripped text keeps only characters of the original, neither starts nor ends with whitespace (Python's `isspace` set), and all-whitespace text strips to nothing |
| Text.StripRemovesOnlySpace | modbus_client.py:140 | the stripped text is a slice of the original with only whitespace cut off at either end |

## Left out

- Bus, database and file I/O: the pymodbus TCP calls (modbus_client.py:35-74), the YAML configurations and the InfluxDB point building (influxdb_pusher.py:225-270). They are foreign library calls. Reads, replies, write acceptance and write exceptions are parameters.
- Multi-register reads (`read_multiple_registers`) and the `get_*_data` groupings: the controller model takes one `Reads` function for every register.
- The terminal UI, all `display_*` and `format_*` methods, `main.py`, `ui_renderer.py`, `live_monitor.py`, `simple_live_monitor.py`, `debug_influxdb_pusher.py` and the test scripts. They only print or drive hardware.
- Concurrency: asyncio tasks, `run_in_executor`, cancellation, signal handlers and `sleep`. Each loop is modelled as one pass, with clock readings passed in.
- Floating point: `sqrt`, `sin` and the float32 packing via `struct` are uninterpreted. All other arithmetic is exact, so rounding in Python's floats is not modelled.
- RegisterCodec.ApplyScale and RegisterCodec.Encode: scaling is exact real multiplication and division, not floating point.
- The old-pymodbus fallback paths (modbus_client.py:144-174, 230-250). They are foreign library code.
- Wall-clock and date calls (`time.time()`, `datetime.now()`) are parameters. The `datetime` field of a sample is not modelled.
- Register names in the controller, rule keys and rule groups are enumerations rather than strings. The Modbus map itself keeps string names.
- Controller.NumOr: a text value where a number is expected becomes 0. Python would keep the text and fail later.
- Controller.TextOr: a numeric value where text is expected becomes "". Python would keep the number.
- Controller.SystemStateText: integers and floats are not distinguished. Python accepts an integral float for a known state but raises on `f"{5.0:04X}"` for an unknown one, while the model renders it.
- Controller.SungrowController.CurrentState: the state is returned as the controller's records rather than a nested dictionary, so it has no contract of its own.
- The controller's command wrappers (sungrow_controller.py:351-460), such as `optimize_self_consumption` and `force_battery_charge_from_grid`. They are the `ControlCall` values the rule engine issues, and whether they succeed is a parameter.
- Modbus.ModbusClient.ForcedModeOutcome has no contract of its own. `ForcedModeUnknownCommand` states the unknown-command case, `ForcedModeWrites` how many requests are sent and when the call succeeds or stops, and `ForcedModeRequests` what each request is.
- Modbus.ModbusClient.constructor: the register maps are required to have distinct names, since they come from YAML mappings, which cannot repeat a key.
- Controller.ChargeFlags: integers and floats are not distinguished. An integral float running state, from a float or non-1 scale, gives bits here, while Python's `&` raises TypeError.
- Text.Lower, Text.TitleChars: case mapping covers ASCII letters only, while Python's `.lower()` and `.title()` follow Unicode. This is exact for register names and enumeration names, not for arbitrary text. Text.Strip uses Python's full `isspace` set.
- TelemetryDemo.MockTelemetryCollector.constructor: `__init__` sets no buffer sizes. The corrected loop's windows are clamped at 0 for a negative rate, where the base collector's `deque(maxlen=...)` would raise.
- Common.FloatMod, used for `elapsed_time % 60` in the peak-shaving scenario, has no contract. Python's floored modulo on reals is only used as a threshold input.
- Series.LinearSlope, Analysis.LinearDerivative, Monitor.LinearTrend and AsyncMonitor.LinearBufferTrend are proved for the window sizes the program uses: 10 points for the derivative and 20 for the trend.
- `get_buffer_info` and the `get_short_buffer`/`get_long_buffer`/`get_sample_buffer` accessors (telemetry.py:412-445) are reads of the collector's fields. A read of a missing key creates an empty deque, which the model never does.
- Telemetry.TelemetryCollector.constructor: windows that are negative after `int(window * rate)` are excluded. In Python a negative short window raises ValueError at once, from the eager `deque(maxlen=...)` of the sample buffer. A negative long window is accepted, because the long deques are created lazily, and it raises only at the first valid sample's append, which the collection loop catches.
- Telemetry.TelemetryCollector.constructor, Monitor.EnhancedSungrowMonitor.constructor, Pusher.InfluxDBPusher.constructor, TelemetryDemo.MockTelemetryCollector.constructor, TelemetryDemo.StubTelemetryCollector.constructor: a zero sample rate or update frequency is excluded. In Python, `1.0 / rate` then raises ZeroDivisionError (telemetry.py:136, monitor.py:22, influxdb_pusher.py:39, telemetry_demo.py:29 and 74). `Telemetry.TelemetryCollector.GetStats` relies on the same non-zero rate.
- Telemetry.TelemetryCollector.Stop: the `controller.disconnect` that `stop` runs (telemetry.py:186) is not tracked, because the collector model has no connection state. The controller's connection is modelled by `Controller.SungrowController.Disconnect`.
- Telemetry.TelemetryCollector.GetSamplesBatch: the awaited `get_sample` on an empty queue is modelled by an `arriving` parameter, the sample that eventually arrives.
- TelemetryDemo.MockTelemetryCollector: the logging in `start` and `stop` is left out.
- `TelemetryLogger.save_to_file` and `load_from_file`, and the `demo_*` functions. They are file I/O and scripted demonstrations.
- The async monitor's `run` loop and its display. The file uses names it never imports, so only its computations are modelled.
- `SelfConsumptionAutomation.run_continuous` and the logging around each rule. The `disconnect` in the cycle's `finally` is not tracked, because the rule engine model has no connection state.
- The stub collector's run through the inherited loop. It has the same missing-buffer defect as the replay collector, and only the replay collector's loop is modelled.

## Findings

| source | as written | input that shows it | evidently intended | confidence | as-written member | corrected member |
|---|---|---|---|---|---|---|
| sungrow_controller.py:481 | the self-consumption ratio divides the unclamped house consumption by solar, while the reported consumption is clamped at 0 | solar 1000 W, grid 1500 W, battery -500 W: consumption reported 0 and ratio -100 | the ratio of the reported consumption to solar, in [0, 100] | not executed; high | Controller.NegativeSelfConsumptionRatio | Controller.ClampedEnergyBalance |
| telemetry_demo.py:26-34 | the replay collector's `__init__` skips the base constructor, so it has no ring buffers; in the inherited `run_collector`, `_append_to_ring_buffers` raises for every valid sample, which the loop catches, so valid samples are never queued | any replay list whose entries have `data_valid` true: `get_sample` in the replay demo then waits forever | every replayed sample is buffered and queued, as for the base collector | not executed; high | TelemetryDemo.MockTelemetryCollector.RunCollectorStepAsWritten | TelemetryDemo.MockTelemetryCollector.RunCollectorStep |
