# D-300 MK3 generator controller driver, modelled in Dafny

This project models `D300Controller`, an ESP32 driver that talks Modbus RTU to a Datakom
D-300 MK3 generator controller. It covers the driver's two variants:

- the single-file variant, `d300-m_class/esp32_d300_modbus.c`, modelled as module `D300MClass`;
- the split variant, `d300-m/D300Controller.cpp` with its header
  `d300-master_son/D300Controller.h`, modelled as module `D300M`.

The model covers both variants' engines:

- **Register decode.** One word, or two words with the high word first, is divided by a scale of 1, 10 or 100. A failed read leaves the field as it was.
- **Link-health tracker.** An 8-bit `consecutiveErrors` counter with a threshold of 5, plus the `connectionStatus` flag.
- **Acquisition passes.** These fill the snapshot records.
- **Alarm scan.** It stops at the first successful non-zero read.
- **Polling.** This covers `handle`, `updateBasicData` and `updateData`.
- **Command encoder.** Button-mask writes to 8193, the harmonic channel to 8194, and the reset magic to 8210.
- **Status predicates.** Generator running, mains present, system healthy, and alarm active.
- **Split variant only:** the fuel-sensor arithmetic.
- **Single-file variant only:** the MAC-address text.

## How the model is built

**The Modbus master.** It is an oracle. Each port (`Modbus.Port`) holds a fixed script
`replies`, where reply `i` answers the `i`-th request, and a transcript `sent` of every
request in the order it was issued. Past the end of the script the bus is silent.
Every read and write ends in exactly one tracker transition: `resetErrorCounter` on
success, `handleError` on failure. The tracker over a whole run is
`LinkHealth.Replay(state, outcomes)`.

**A pass.** Every acquisition method is specified by a pure pass function
(`Passes.*Pass`, `D300M.*Pass`, `D300MClass.*Pass`). The function gives the snapshot
record after the pass, in terms of the script, the position of the pass's first
request and the old record. Each method ensures two things:

- `link.Advanced(s0, l0, REQUESTS)`: the transcript grew by exactly the pass's fixed
  request list (addresses, widths and order as in the source), and the tracker state
  is the replay of those requests' outcomes;
- its field is the pass function's value.

The properties are then proved about the pass functions. The electrical pass is split
into groups along its own comment headings. The other long passes have no such
headings (or, in the split motor pass, one heading over all its reads); they are cut
into runs of at most eight reads, in source order. The group methods are called in
the source's order.

**Quantities.** Physical quantities are `real` (`raw / scale`), not IEEE floats. The
run state `Durum` and the mode `Mod` stay raw `uint16` values, because the source casts
the register value without checking it. `D300Types.DurumFromKod` and
`D300Types.ModFromKod` are the checked reading. The harmonic channel keeps the low 8
bits of its register, as the source's `uint8_t` enum cast does.

**Parameters.** Each `millis()` call becomes a `uint32` parameter. `handle` reads the
clock twice: once for its due test (`now`) and once more inside `updateBasicData`,
after the passes, for the stored time (`done`). `millis() - lastUpdateTime` is the
32-bit unsigned difference (`Words.Elapsed32`). In the split
variant, the ten `analogRead` samples of the fuel sensor are a `samples` parameter.

### Behaviour worth noting

- **Alarm-scan length.** Each range's loop `break`s at its first successful non-zero
  register, so a pass issues from 3 to 48 reads (`PassFacts.AlarmScanLengths`).
- **`isConnected` and the tracker.** The identity register is read through
  `read16BitValue`, so any successful read, even of a wrong code, resets the counter
  and sets the flag (`Modbus.Port.IsConnected`, `Modbus.IdentityScenarios`). `begin`
  then overwrites the flag with the identity verdict.
- **The extended pass.**
  - The single-file variant's `updateExtendedData` reads the counters, the analog
    inputs, the harmonics and the GPS registers.
  - Its `updateIletisimVeriler` is called from nowhere in the file. So
    `D300MClass.D300Controller.UpdateIletisimVeriler` is a stand-alone method, and
    `UpdateData` does not touch `Iletisim`.
- **`updateData`'s result.**
  - The split variant's `updateData` returns only the basic pass's result
    (`VariantFacts.SplitUpdateDataIgnoresExtension`).
  - The single-file variant returns `basic && extended`
    (`VariantFacts.SingleUpdateDataFailsOnSilentExtension`).

## Model

| member | source | states |
|---|---|---|
| Words.Word32 | d300-m_class/esp32_d300_modbus.c:383-392 | Definition: the `(hi << 16) | lo` assembly of two registers into one unsigned 32-bit value, high word first. Its meaning is in `Words.Word32Halves`, `Words.Word32Split` and `Words.Word32Injective`. |
| Words.Word32Halves | d300-m_class/esp32_d300_modbus.c:383-392 | The assembled 32-bit value gives back its high word by `/ 65536` and its low word by `% 65536`. |
| Words.Word32Split | d300-m_class/esp32_d300_modbus.c:383-392 | Every 32-bit value is the assembly of its own high and low words. |
| Words.Word32Injective | d300-m_class/esp32_d300_modbus.c:383-392 | Different word pairs assemble to different 32-bit values. |
| Words.ShiftOrIsMultiplyAdd | d300-m_class/esp32_d300_modbus.c:386 | Shifting the high word left by 16 and OR-ing in the low word equals `hi * 65536 + lo`, and both halves can be taken back out with the shift and the mask. |
| Words.Increment8 | d300-master_son/D300Controller.h:170 | `uint8_t` increment: the successor below 255, and 0 after 255. |
| Words.Elapsed32 | d300-m/D300Controller.cpp:239-243 | The unsigned `millis() - lastUpdateTime` is the plain difference when no wrap happened, and the difference plus 2^32 when the clock wrapped. |
| Words.Elapsed32IsRealElapsed | d300-m/D300Controller.cpp:239-243 | With both times taken mod 2^32, the unsigned difference is the real elapsed time whenever that is below 2^32. |
| Bus.ReadOk | d300-m/D300Controller.cpp:44-64 | Definition: a read succeeded (`ku8MBSuccess`) iff a response came back with exactly the requested number of words. |
| Bus.Succeeds | d300-m/D300Controller.cpp:44-64 | Definition: a write succeeded iff the device answered; a read iff `Bus.ReadOk` holds. |
| Bus.Outcomes | d300-m/D300Controller.cpp:44-64 | There is one success/failure outcome per request. |
| Bus.OutcomeAt | d300-m/D300Controller.cpp:44-64 | The `k`-th outcome is whether the `k`-th request got a complete reply (`ku8MBSuccess`). |
| Bus.OutcomesConcat | d300-m/D300Controller.cpp:223-237 | The outcomes of two passes in a row are the first pass's outcomes followed by the second's, the second starting where the first ended. |
| LinkHealth.ResetErrorCounter | d300-m/D300Controller.cpp:91-94 | Definition: `resetErrorCounter`: the counter becomes 0 and the link is marked connected, whatever the old state. |
| LinkHealth.Step | d300-m/D300Controller.cpp:44-94 | Definition: the transition every read or write helper makes: `resetErrorCounter` on success, `handleError` on failure. |
| LinkHealth.Replay | d300-m/D300Controller.cpp:44-94 | Definition: the tracker after a run of outcomes, one `LinkHealth.Step` per request in order. Its properties are `LinkHealth.ReplayConcat`, `LinkHealth.FailuresFrom` and `LinkHealth.ReplayAfterSuccess`. |
| LinkHealth.Consistent | d300-master_son/D300Controller.h:170-171 | Definition: the invariant that a connected link has fewer than 5 consecutive errors; `LinkHealth.StepConsistent` proves every transition keeps it. |
| LinkHealth.HandleError | d300-m/D300Controller.cpp:84-89 | A failure never sets the connected flag: it can only keep it or clear it. |
| LinkHealth.StepConsistent | d300-m/D300Controller.cpp:84-94 | Both transitions keep the invariant "connected implies fewer than 5 consecutive errors". |
| LinkHealth.ReplayConsistent | d300-m/D300Controller.cpp:84-94 | Any sequence of outcomes keeps that invariant. |
| LinkHealth.ReplayConcat | d300-m/D300Controller.cpp:84-94 | Tracking two runs of outcomes in a row is tracking their concatenation. |
| LinkHealth.FailuresFrom | d300-master_son/D300Controller.h:170-171 | After `k` failures the counter is the old count plus `k`, mod 256, and the flag survives only if that sum stays below 5. |
| LinkHealth.FiveFailuresDisconnect | d300-m_class/esp32_d300_modbus.c:436-441 | Five or more consecutive failures always leave the link disconnected. |
| LinkHealth.SuccessResets | d300-m_class/esp32_d300_modbus.c:443-446 | Whatever came before, one success leaves the counter at 0 and the link connected. |
| LinkHealth.CounterWrapKeepsDisconnected | d300-m_class/esp32_d300_modbus.c:235-236 | After 256 failures the 8-bit counter has wrapped to 0 but the flag stays false; the next success reconnects. |
| LinkHealth.TrailingFailures | d300-m_class/esp32_d300_modbus.c:436-446 | The run of failures at the end of an outcome sequence is no longer than the sequence. |
| LinkHealth.ReplayAfterSuccess | d300-m_class/esp32_d300_modbus.c:436-446 | Once any success occurred, the tracker depends only on the trailing failures `t`: the counter is `t mod 256`, and the link is connected iff `t < 5`. |
| D300Types.DurumKodu | d300-master_son/D300Controller.h:18-45 | Definition: the numeric code of each `UniteDurumu` state, 0 (JeneratorDinlenme) to 25 in declaration order. |
| D300Types.IsRunState | d300-master_son/D300Controller.h:18-45 | Definition: the states from MotorRolantiHizi to SlaveJeneratorYuklu, in declaration order. |
| D300Types.ModKodu | d300-master_son/D300Controller.h:47-52 | Definition: the numeric code of each `UniteModu` mode: STOP 1, MANUEL 2, AUTO 4, TEST 8. |
| D300Types.Mask | d300-master_son/D300Controller.h:61-75 | Definition: the `ButonMaski` value of each named button, one bit each: 0x0001 (STOP) through 0x0400 (DOWN), then 0x4000 (LONG_PRESS) and 0x8000 (VERY_LONG_PRESS). |
| D300Types.DurumFromKod | d300-master_son/D300Controller.h:18-45 | A decoded state's code is the register value it came from. |
| D300Types.DurumCodesContiguous | d300-master_son/D300Controller.h:18-45 | Exactly the codes 0 to 25 name a state. |
| D300Types.DurumRoundTrip | d300-master_son/D300Controller.h:18-45 | Every state's code decodes back to that state. |
| D300Types.ModFromKod | d300-master_son/D300Controller.h:47-52 | A decoded mode's code is the register value it came from. |
| D300Types.ModCodes | d300-master_son/D300Controller.h:47-52 | Exactly the codes 1, 2, 4 and 8 (STOP, MANUEL, AUTO, TEST) name a mode. |
| D300Types.ModRoundTrip | d300-master_son/D300Controller.h:47-52 | Every mode's code decodes back to that mode. |
| D300Types.MaskIsSingleBit | d300-master_son/D300Controller.h:61-75 | Every button mask is a single bit below bit 16. |
| D300Types.MasksDisjoint | d300-master_son/D300Controller.h:61-75 | Distinct buttons occupy distinct bits, so any two masks combine by OR without overlap. |
| D300Types.EmergencyMaskIsStopWithLongPress | d300-m/D300Controller.cpp:276-287 | The emergency mask is STOP OR LONG_PRESS = 0x4001, and the two bits do not overlap. |
| RegisterDecode.Scaled | d300-m/D300Controller.cpp:66-82 | Definition: `(float)raw / coefficient`, as an exact quotient. `RegisterDecode.ScaledMeaning` and `RegisterDecode.ScaledMonotone` state what it gives. |
| RegisterDecode.Raw32 | d300-m_class/esp32_d300_modbus.c:383-392 | Definition: what `read32BitValue` leaves in its out-parameter: the assembled word on a successful read, the previous value otherwise. Stated by `RegisterDecode.Raw32Meaning`. |
| RegisterDecode.Raw16 | d300-m_class/esp32_d300_modbus.c:394-403 | Definition: what `read16BitValue` leaves: the first reply word on success, the previous value otherwise. |
| RegisterDecode.Float32 | d300-m_class/esp32_d300_modbus.c:405-412 | Definition: what `readFloat32` leaves: the assembled word divided by the coefficient on success, the previous value otherwise. Stated by `RegisterDecode.FloatMeaning`. |
| RegisterDecode.Float16 | d300-m_class/esp32_d300_modbus.c:414-421 | Definition: what `readFloat16` leaves: the word divided by the coefficient on success, the previous value otherwise. |
| RegisterDecode.ScaledMeaning | d300-m/D300Controller.cpp:66-82 | The scaled value times the coefficient gives back the raw value, and a non-negative raw value scales to a non-negative quantity. |
| RegisterDecode.ScaledMonotone | d300-m/D300Controller.cpp:66-82 | Scaling preserves order strictly, in both directions. |
| RegisterDecode.Raw32Meaning | d300-m_class/esp32_d300_modbus.c:383-392 | A successful two-word read yields `hi * 65536 + lo`, from which both words can be recovered. A failed read leaves the previous value. |
| RegisterDecode.FloatMeaning | d300-m_class/esp32_d300_modbus.c:405-421 | On success `readFloat32`/`readFloat16` yield the raw value divided by the coefficient. On failure they yield the previous value. |
| RegisterDecode.Float32Range | d300-m_class/esp32_d300_modbus.c:405-412 | A successful 32-bit float read lies between 0 and `(2^32 - 1) / coefficient`. |
| RegisterDecode.Float32Injective | d300-m_class/esp32_d300_modbus.c:405-412 | Two successful reads that decode to the same value carried the same two words. |
| AlarmScan.Hit | d300-m_class/esp32_d300_modbus.c:537-542 | Definition: the condition that ends a scan loop: a successful read with a non-zero word. |
| AlarmScan.ScanActive | d300-m_class/esp32_d300_modbus.c:537-542 | Definition: a range's alarm flag: some address of the range hit. `AlarmScan.ScanActiveIff` ties it to the scan. |
| AlarmScan.LengthBetween | d300-m_class/esp32_d300_modbus.c:537-542 | The number of reads of a scan never runs past its last address. |
| AlarmScan.ScanLength | d300-m_class/esp32_d300_modbus.c:537-542 | A scan over `n` addresses issues at most `n` reads. |
| AlarmScan.ScanActiveIff | d300-m_class/esp32_d300_modbus.c:537-542 | A range's flag is true iff some address in it had a successful non-zero read. |
| AlarmScan.ScanLengthSpec | d300-m_class/esp32_d300_modbus.c:537-542 | A scan without a hit reads the whole range. A scan with a hit stops right after its first hit: failed reads and zero reads before it never stop it. |
| AlarmScan.ScanResume | d300-m_class/esp32_d300_modbus.c:537-542 | Skipping `k` addresses without a hit changes neither the flag nor the tail of the scan. |
| AlarmScan.ScanRequests | d300-m_class/esp32_d300_modbus.c:537-542 | A scan of `len` registers issues `len` requests. |
| AlarmScan.ScanRequestAt | d300-m_class/esp32_d300_modbus.c:537-542 | The `j`-th request of a scan is a one-word read of address `first + j`. |
| AlarmScan.ScanRequestsPrefix | d300-m_class/esp32_d300_modbus.c:537-542 | A shorter scan issues a prefix of a longer scan's requests. |
| Modbus.KnownIdentity | d300-m/D300Controller.cpp:357-367 | Definition: the D-300 family identities 0xD300, 0xD500 and 0xD700 that `isConnected` accepts. |
| Modbus.IdentityMatches | d300-m/D300Controller.cpp:357-367 | Definition: the identity probe passes iff the read succeeded and its word is a known identity. |
| Modbus.IdentityScenarios | d300-m_class/esp32_d300_modbus.c:948-959 | Worked example: a reply of 0xD300 is accepted. A reply of 0x1234 is refused, yet the successful read still resets the tracker. Silence is refused and counts as an error. |
| Modbus.ReplayCompose | d300-m/D300Controller.cpp:223-237 | Tracking two request lists in a row equals tracking their concatenation. |
| Modbus.Port.constructor | d300-m/D300Controller.cpp:10-12 | A new port has sent nothing, has no errors and is not connected. |
| Modbus.Port.AdvanceCompose | d300-m/D300Controller.cpp:223-237 | Two passes in a row advance the port by the concatenation of their request lists. |
| Modbus.Port.AssignConnectionStatus | d300-m/D300Controller.cpp:35 | `begin`'s `connectionStatus = isConnected()`: the flag is overwritten with the probe's verdict and the error counter is kept. Setting it to true is allowed only while the counter is below 5, which holds at both call sites because a successful probe has just reset it to 0. |
| Modbus.Port.HandleError | d300-m/D300Controller.cpp:84-89 | The link state becomes `LinkHealth.HandleError` of the old one. |
| Modbus.Port.ResetErrorCounter | d300-m/D300Controller.cpp:91-94 | The link state becomes counter 0, connected. |
| Modbus.Port.Read32BitValue | d300-m_class/esp32_d300_modbus.c:383-392 | Issues one two-word read. It returns whether the read succeeded and the assembled word, or the old value on failure. The tracker takes the matching transition. |
| Modbus.Port.Read16BitValue | d300-m_class/esp32_d300_modbus.c:394-403 | Issues one one-word read. It returns success and the word, or the old value on failure, with the matching tracker transition. |
| Modbus.Port.Read16BitInto | d300-m/D300Controller.cpp:160-165 | `read16BitValue` into a snapshot field: the field takes the word on success and keeps its value on failure. |
| Modbus.Port.ReadFloat32 | d300-m_class/esp32_d300_modbus.c:405-412 | Issues one two-word read. The result is the assembled word divided by the coefficient, or the previous value. |
| Modbus.Port.ReadFloat16 | d300-m_class/esp32_d300_modbus.c:414-421 | Issues one one-word read. The result is the word divided by the coefficient, or the previous value. |
| Modbus.Port.ReadMultipleRegisters | d300-m_class/esp32_d300_modbus.c:423-434 | Issues one `quantity`-word read. On success the first `quantity` buffer cells hold the reply's words and the rest are untouched. On failure the buffer is untouched. The tracker takes the matching transition. |
| Modbus.Port.WriteRegister | d300-m_class/esp32_d300_modbus.c:615-623 | Issues exactly one write of the given value to the given address. It returns whether the device answered, and the tracker takes the matching transition. |
| Modbus.Port.IsConnected | d300-m/D300Controller.cpp:357-367 | Issues one read of 10609. The result is true iff the read succeeded with 0xD300, 0xD500 or 0xD700. Any successful read still resets the tracker. |
| Modbus.Port.ScanNext | d300-m_class/esp32_d300_modbus.c:538-541 | One iteration of a scan loop reads the next address and reports whether it was a successful non-zero read. |
| Modbus.Port.ScanConclude | d300-m_class/esp32_d300_modbus.c:537-542 | A finished scan loop's flag and transcript are those of the scan specification. |
| Modbus.Port.ScanAlarmRange | d300-m_class/esp32_d300_modbus.c:536-542 | A scan of an inclusive address range returns true iff some address had a successful non-zero read. It issues exactly the reads up to and including the first hit, and the tracker replays their outcomes. |
| Passes.KanalRead | d300-m_class/esp32_d300_modbus.c:573-576 | Definition: the harmonic-channel read: the low byte of the word on success, the previous channel otherwise. |
| Passes.VoltajlarPass | d300-m/D300Controller.cpp:97-105 | Definition: the phase voltages after the six voltage reads from the given reply index: mains L1..L3, then generator L1..L3, each at scale 10 or kept on failure. |
| Passes.FrekanslarPass | d300-m/D300Controller.cpp:121-123 | Definition: both frequencies after the two one-word reads 10338 and 10339 at scale 100. |
| Passes.OrtalamaDegerlerPass | d300-m/D300Controller.cpp:125-129 | Definition: the average voltage and current of both sides after the four reads 10377..10383. |
| Passes.MotorIsilPass | d300-m/D300Controller.cpp:135-141 | Definition: the engine record after the speed, temperature, pressure and level reads. |
| Passes.MotorBataryaPass | d300-m/D300Controller.cpp:142-145 | Definition: the engine record after the battery, minimum battery, charge voltage and charge current reads. |
| Passes.MotorVerileriPass | d300-m/D300Controller.cpp:133-149 | Definition: the engine record after all D-300 reads of `updateMotorVerileri`, the two groups in turn. |
| Passes.DurumModPass | d300-m/D300Controller.cpp:151-158 | Definition: the status record after 10604 and 10605: the raw words become state and mode, unchecked, or are kept on failure. |
| Passes.SistemBilgiPass | d300-m/D300Controller.cpp:160-165 | Definition: the status record after the timer, governor and AVR outputs, device id and the two versions. |
| Passes.SistemDurumuPass | d300-m/D300Controller.cpp:150-166 | Definition: the status record after `updateSistemDurumu`, the two groups in turn. |
| Passes.SayacCalismaPass | d300-m/D300Controller.cpp:169-174 | Definition: the counter record after the three run counts (raw 32-bit) and the three hour meters (scale 100). |
| Passes.SayacEnerjiPass | d300-m/D300Controller.cpp:175-178 | Definition: the counter record after the energy meters and the fuel counter. |
| Passes.SayaclarPass | d300-m/D300Controller.cpp:168-179 | Definition: the counter record after the ten shared reads of `updateSayaclar`. |
| Passes.AnalogGirislerPass | d300-m/D300Controller.cpp:181-190 | Definition: the analog-input record after the eight raw reads 10345..10352. |
| Passes.AlarmRequests | d300-m_class/esp32_d300_modbus.c:532-561 | Definition: the reads of `updateAlarmDurumlari`: each of the three scans up to and including its first hit, each starting where the previous one stopped. |
| Passes.AlarmDurumlariPass | d300-m_class/esp32_d300_modbus.c:532-561 | Definition: the status record after `updateAlarmDurumlari`: each of the three flags is its own scan's verdict. Stated by `PassFacts.AlarmFlagsMeaning`. |
| Passes.KanalByte | d300-m_class/esp32_d300_modbus.c:573-576 | The cast to the `uint8_t` channel keeps the low byte: a value below 256 is unchanged, and in general the result is `w - (w / 256) * 256`. |
| PassFacts.SilentOutcomes | d300-m_class/esp32_d300_modbus.c:383-403 | Against a silent bus every request of a pass fails. |
| PassFacts.SilentStretchDisconnects | d300-m_class/esp32_d300_modbus.c:436-441 | A silent stretch of `n` requests adds `n` to the counter, mod 256. A stretch of 5 or more ends disconnected. |
| PassFacts.SilentPassesKeepReadings | d300-m/D300Controller.cpp:133-190 | Against a silent bus the motor (bus registers), system, counter and analog passes leave their records unchanged. |
| PassFacts.ScanWindow | d300-m_class/esp32_d300_modbus.c:537-542 | A 16-address scan issues between 1 and 16 reads, and its flag is true iff some of its 16 addresses hit. |
| PassFacts.AlarmFlagsMeaning | d300-m_class/esp32_d300_modbus.c:532-561 | Each of the three flags is true iff some address of its own range hit. Each later range starts right after the previous scan stopped, and no field other than the three flags changes. |
| PassFacts.ScanStopsAtFirstHit | d300-m_class/esp32_d300_modbus.c:537-542 | The load-dump scan starts right after the first shutdown hit, or after all 16 shutdown reads when there was no hit. |
| PassFacts.ShutdownScanStopsAtFirstHit | d300-m_class/esp32_d300_modbus.c:536-542 | Stated on the shutdown flag: if it is set, the scan stopped at its first hit; if not, it read all 16 registers. |
| PassFacts.ScanReadsAlarmRegisters | d300-m_class/esp32_d300_modbus.c:532-561 | Every read of the alarm scan is a one-word read inside 10504..10551. |
| PassFacts.AlarmScanLengths | d300-m_class/esp32_d300_modbus.c:532-561 | The alarm pass issues between 3 and 48 reads and ends where the warning scan stops. |
| PassFacts.AlarmTranscriptBounds | d300-m_class/esp32_d300_modbus.c:532-561 | The length bounds and the register bounds of the alarm pass, together. |
| PassFacts.SilentAlarms | d300-m_class/esp32_d300_modbus.c:532-561 | Against a silent bus all three flags are cleared and all 48 registers are read in order. |
| PassFacts.FirstRegistersAlarming | d300-m_class/esp32_d300_modbus.c:532-561 | Worked example: when the first register of each range is alarming, all three flags are set after exactly three reads: 10504, 10520, 10536. |
| PassFacts.UncheckedDurum | d300-m_class/esp32_d300_modbus.c:514-518 | Worked example: a successful read of 99 at 10604 is stored as the run state unchecked, although no state has code 99. |
| PassFacts.KanalKeepsLowByte | d300-m_class/esp32_d300_modbus.c:573-576 | Worked example: a channel register of 259 reads as channel 3; a failed read keeps the previous channel. |
| FuelSensor.Interpolate | d300-m/D300Controller.cpp:532-533 | Definition: the linear formula `(r - 10) / (180 - 10) * 100`, before the `constrain`. |
| FuelSensor.ResistanceToFuelLevel | d300-m/D300Controller.cpp:522-536 | Definition: `resistanceToFuelLevel`: 0 at or below the empty resistance, 100 at or above the full resistance, the interpolation in between. Stated by `FuelSensor.ResistanceToFuelLevelRange`. |
| FuelSensor.ShamandraResistance | d300-m/D300Controller.cpp:515 | Definition: the float resistance `v * (R1 + R2) / (3.3 - v)` as the source writes it. |
| FuelSensor.CalculateFuelLevel | d300-m/D300Controller.cpp:506-519 | Definition: `calculateFuelLevel`: −1 for a voltage at or above 3.3 V or at or below 0, otherwise the level of the computed resistance. Stated by `FuelSensor.CalculateFuelLevelSpec`. |
| FuelSensor.SumOf | d300-m/D300Controller.cpp:488-494 | Definition: the sum of the ADC samples, `adcSum` after the sampling loop. |
| FuelSensor.AdcVoltage | d300-m/D300Controller.cpp:496-499 | Definition: the average of the ten samples over the 4095 full scale, times the 3.3 V reference. |
| FuelSensor.Constrain | d300-m/D300Controller.cpp:535 | `constrain` lands in `[lo, hi]` and leaves values already inside unchanged. |
| FuelSensor.ResistanceToFuelLevelRange | d300-m/D300Controller.cpp:522-536 | The level is always in [0, 100]. It is 0 at or below 10 ohm and 100 at or above 180 ohm. In between it is the linear interpolation, strictly between 0 and 100. |
| FuelSensor.ResistanceToFuelLevelMonotone | d300-m/D300Controller.cpp:522-536 | More resistance never gives less fuel. |
| FuelSensor.InterpolateMeetsClamps | d300-m/D300Controller.cpp:522-536 | The linear formula meets the clamps exactly, 0 at the empty resistance and 100 at the full resistance, so the level is continuous. |
| FuelSensor.ShamandraResistancePositive | d300-m/D300Controller.cpp:506-519 | For a voltage strictly between 0 and the reference, the computed float resistance is positive. |
| FuelSensor.ShamandraResistanceMonotone | d300-m/D300Controller.cpp:506-519 | A higher divider voltage means a higher computed resistance. |
| FuelSensor.CalculateFuelLevelSpec | d300-m/D300Controller.cpp:506-519 | The result is −1 iff the voltage is at or above 3.3 V or at or below 0. Otherwise it lies in [0, 100] and is the level of the computed resistance. |
| FuelSensor.CalculateFuelLevelMonotone | d300-m/D300Controller.cpp:506-536 | Within the valid voltage range, a higher voltage never gives a lower level. |
| FuelSensor.ReadFuelADC | d300-m/D300Controller.cpp:487-503 | The sampling loop's result is the fuel level of the average of the ten samples, converted to volts. |
| FuelSensor.AdcExtremesAreErrors | d300-m/D300Controller.cpp:487-519 | Ten samples all at 0, or all at 4095 (full scale), give the error value −1. |
| Classifier.IsJeneratorCalisir | d300-m_class/esp32_d300_modbus.c:785-788 | Definition: `isJeneratorCalisir`: the stored state code lies from MotorRolantiHizi to SlaveJeneratorYuklu. `Classifier.JeneratorCalisirIffRunState` states what that range is. |
| Classifier.IsSebekeMevcut | d300-m/D300Controller.cpp:344-348 | Definition: `isSebekeMevcut`: mains average voltage above 100 V and frequency strictly between 45 and 65 Hz. |
| Classifier.IsSystemHealthy | d300-m_class/esp32_d300_modbus.c:796-801 | Definition: `isSystemHealthy`: connected, no shutdown alarm, battery above 10 V, and oil pressure above 0.5 bar unless the generator is not running. |
| Classifier.IsAlarmActive | d300-m/D300Controller.cpp:330-337 | Definition: `isAlarmActive`: the flag of the given alarm kind. |
| Classifier.AnyAlarm | d300-m_class/esp32_d300_modbus.c:942 | Definition: the basic report's `"alarms"` flag: shutdown, load-dump or warning flag set. |
| Classifier.JeneratorCalisirIffRunState | d300-m_class/esp32_d300_modbus.c:785-788 | `isJeneratorCalisir` holds iff the stored code is 6..16, which is exactly when it names a running state, in both directions. |
| Classifier.RunStateCodes | d300-master_son/D300Controller.h:18-45 | The running states are exactly those coded 6 (MotorRolantiHizi) to 16 (SlaveJeneratorYuklu). |
| Classifier.SebekeMevcutScenarios | d300-m/D300Controller.cpp:344-348 | Worked example: mains at 150 V and 50 Hz is present. At 70 Hz, or at exactly 100 V, it is not. |
| Classifier.UnhealthyCases | d300-m_class/esp32_d300_modbus.c:796-801 | Each of these rules out health: a lost link, a shutdown alarm, a battery at or below 10 V, or a running engine with oil pressure at or below 0.5. |
| Classifier.StoppedEngineIgnoresOilPressure | d300-m_class/esp32_d300_modbus.c:796-801 | When connected, with no shutdown alarm, enough battery and `isJeneratorCalisir` false, the system is healthy at any oil pressure. That covers the named stopped states and the undefined codes alike. |
| Classifier.AnyAlarmIffSomeKind | d300-m_class/esp32_d300_modbus.c:942 | The basic report's `"alarms"` flag is set iff `isAlarmActive` holds for some alarm kind. |
| MacFormat.HexDigit | d300-m_class/esp32_d300_modbus.c:717 | `%X` of a nibble is a decimal digit or an upper-case letter A to F. |
| MacFormat.HexDigitValue | d300-m_class/esp32_d300_modbus.c:717 | Reading a written hex digit gives back its nibble. |
| MacFormat.WordBytesShape | d300-m_class/esp32_d300_modbus.c:717-720 | A register's text is two hex digits, a colon and two hex digits. |
| MacFormat.WordBytesRoundTrip | d300-m_class/esp32_d300_modbus.c:717-720 | A register's text reads back as the register, high byte first. |
| MacFormat.MacString | d300-m_class/esp32_d300_modbus.c:714-721 | The MAC text of three registers is 17 characters (`char macStr[18]` with its terminator). |
| MacFormat.MacStringShape | d300-m_class/esp32_d300_modbus.c:717-720 | Byte `k` is written as two hex digits at positions `3k` and `3k+1`, with a colon after every byte but the last. |
| MacFormat.MacStringRoundTrip | d300-m_class/esp32_d300_modbus.c:714-721 | The three register words are recovered from the MAC text. |
| MacFormat.MacStringInjective | d300-m_class/esp32_d300_modbus.c:714-721 | Different register contents give different MAC texts. |
| MacFormat.MacStringExample | d300-m_class/esp32_d300_modbus.c:717-720 | Worked example: registers 0x0012, 0x3456 and 0xABCD give "00:12:34:56:AB:CD". |
| D300M.AkimlarPass | d300-m/D300Controller.cpp:107-113 | Definition: the split variant's currents after the six current reads 10264..10274: mains L1..L3, then generator L1..L3. |
| D300M.GucVerileriPass | d300-m/D300Controller.cpp:115-119 | Definition: the split variant's power totals after the reads 10292, 10294, 10308 and 10310. |
| D300M.ElektrikselVerilerPass | d300-m/D300Controller.cpp:96-130 | Definition: the split variant's measurement record after `updateElektrikselVeriler`: voltages, currents, power, frequencies and averages in turn. |
| D300M.MotorPass | d300-m/D300Controller.cpp:133-149 | Definition: the split variant's engine record: the D-300 reads, then the external fuel level from the sensor. |
| D300M.BasicRequests | d300-m/D300Controller.cpp:223-230 | Definition: the requests of the split `updateBasicData` after a given transcript: the fixed 41 reads, then the alarm scans. |
| D300M.BasicSnapshot | d300-m/D300Controller.cpp:223-230 | Definition: the records the split `updateBasicData` leaves: each pass applied to the replies that follow the requests before it. |
| D300M.D300Controller.Due | d300-m/D300Controller.cpp:239-243 | Definition: the test of `handle`: auto-update on and `now - lastUpdateTime` (unsigned 32-bit) at least the interval. |
| D300M.D300Controller.constructor | d300-m/D300Controller.cpp:10-12 | A new controller has slave id as given, interval 5000, auto-update on and time 0. It is disconnected with no errors, and every record holds its declared defaults. |
| D300M.D300Controller.UpdateVoltajlar | d300-m/D300Controller.cpp:97-105 | Issues the six phase-voltage reads (10240..10250, scale 10) in order. Each field takes its decoded value or keeps it on failure. |
| D300M.D300Controller.UpdateAkimlar | d300-m/D300Controller.cpp:107-113 | Issues the six current reads (10264..10274) in order, with the same per-field rule. |
| D300M.D300Controller.UpdateGucVerileri | d300-m/D300Controller.cpp:115-119 | Issues the four power reads 10292, 10294, 10308 and 10310, with the same per-field rule. |
| D300M.D300Controller.UpdateFrekanslar | d300-m/D300Controller.cpp:121-123 | Issues the two frequency reads 10338 and 10339 (one word, scale 100), with the same per-field rule. |
| D300M.D300Controller.UpdateOrtalamaDegerler | d300-m/D300Controller.cpp:125-129 | Issues the four average reads 10377..10383, with the same per-field rule. |
| D300M.D300Controller.UpdateElektrikselVeriler | d300-m/D300Controller.cpp:96-130 | The reduced electrical pass: 22 reads in source order, and the record is the composition of the five group passes. |
| D300M.D300Controller.UpdateMotorIsil | d300-m/D300Controller.cpp:135-141 | Issues the seven engine reads 10376 (scale 1), 10362, 10361 and 10363..10366, with the same per-field rule. |
| D300M.D300Controller.UpdateMotorBatarya | d300-m/D300Controller.cpp:142-145 | Issues the four battery and charge reads 10341, 10385, 10340 and 11173, with the same per-field rule. |
| D300M.D300Controller.UpdateMotorVerileri | d300-m/D300Controller.cpp:133-149 | Issues the 11 motor reads. The external fuel level is the sensor's level for the given samples. |
| D300M.D300Controller.UpdateDurumMod | d300-m/D300Controller.cpp:151-158 | Stores the raw words of 10604 and 10605 as state and mode on success, unchecked, and keeps each on failure. |
| D300M.D300Controller.UpdateSistemBilgi | d300-m/D300Controller.cpp:160-165 | Issues the six reads 10606..10611 into timer, governor and AVR outputs, device id and versions. |
| D300M.D300Controller.UpdateSistemDurumu | d300-m/D300Controller.cpp:150-166 | Issues the eight system reads 10604..10611 in order, and the record is the composition of the two group passes. |
| D300M.D300Controller.UpdateSayacCalisma | d300-m/D300Controller.cpp:169-174 | Issues the six run-counter reads 10616..10626 (three raw 32-bit, three scale 100). |
| D300M.D300Controller.UpdateSayacEnerji | d300-m/D300Controller.cpp:175-178 | Issues the four energy and fuel-counter reads 10628, 10630, 10632 and 11577. |
| D300M.D300Controller.UpdateSayaclar | d300-m/D300Controller.cpp:168-179 | Issues the 10 counter reads, and the record is the composition of the two groups. |
| D300M.D300Controller.UpdateAnalogGirisler | d300-m/D300Controller.cpp:181-190 | Issues the eight analog-input reads 10345..10352 as raw words. |
| D300M.D300Controller.UpdateAlarmDurumlari | d300-m/D300Controller.cpp:192-221 | Issues exactly the alarm-scan reads. The three flags are those of the scan specification, and nothing else in the record changes. |
| D300M.D300Controller.UpdateBasicData | d300-m/D300Controller.cpp:223-230 | Runs electrical, motor, system and alarms in that order. The transcript is their concatenation, every record is its pass's value, `lastUpdateTime == now`, and the result is the flag after the pass. |
| D300M.D300Controller.UpdateData | d300-m/D300Controller.cpp:232-237 | Runs the basic pass, then counters and analog inputs. Both records are their pass's value. The result is the flag after the basic pass, whatever the later reads do. |
| D300M.D300Controller.Handle | d300-m/D300Controller.cpp:239-243 | When auto-update is on and `now - lastUpdateTime >= updateInterval` (unsigned) at the clock reading `now`, it does exactly a basic pass and stores the later reading `done` that `updateBasicData` takes after its passes. Otherwise nothing at all changes. |
| D300M.D300Controller.Begin | d300-m/D300Controller.cpp:23-42 | Stores the interval and probes the identity. On a match it resets the tracker and returns the basic pass's result. Otherwise it returns false with the flag cleared and nothing else read. |
| D300M.D300Controller.SimulateButton | d300-m/D300Controller.cpp:246-254 | Exactly one write of the button's mask to 8193. The result is whether it was answered, with the matching tracker transition. |
| D300M.D300Controller.StartGenerator | d300-m/D300Controller.cpp:256-258 | Exactly one write of 0x0004 (AUTO) to 8193. |
| D300M.D300Controller.StopGenerator | d300-m/D300Controller.cpp:260-262 | Exactly one write of 0x0001 (STOP) to 8193. |
| D300M.D300Controller.SetAutoMode | d300-m/D300Controller.cpp:264-266 | Exactly one write of 0x0004 (AUTO) to 8193, the same write as `startGenerator`. |
| D300M.D300Controller.SetManualMode | d300-m/D300Controller.cpp:268-270 | Exactly one write of 0x0002 (MANUEL_RUN) to 8193. |
| D300M.D300Controller.SetTestMode | d300-m/D300Controller.cpp:272-274 | Exactly one write of 0x0008 (TEST) to 8193. |
| D300M.D300Controller.EmergencyStop | d300-m/D300Controller.cpp:276-287 | Exactly one write of 0x4001 (STOP with LONG_PRESS) to 8193, with the tracker transition of its answer. |
| D300M.D300Controller.ResetUnit | d300-m/D300Controller.cpp:289-297 | Exactly one write of 14536 to 8210. |
| D300M.D300Controller.SetSlaveID | d300-m/D300Controller.cpp:474-479 | The slave id changes iff the new id is within 1..240. |
| D300M.D300Controller.EnableAutoUpdate | d300-master_son/D300Controller.h:281 | Sets only the auto-update flag. |
| D300M.D300Controller.SetUpdateInterval | d300-master_son/D300Controller.h:282 | Sets only the update interval. |
| D300MClass.FazVoltajlariPass | d300-m_class/esp32_d300_modbus.c:459-465 | Definition: the line-to-line voltages after their six reads: mains L1-L2, L2-L3, L3-L1, then generator. |
| D300MClass.AkimlarPass | d300-m_class/esp32_d300_modbus.c:467-475 | Definition: the currents after the eight current reads: mains L1..L3, generator L1..L3, then both neutrals. |
| D300MClass.GucVerileriPass | d300-m_class/esp32_d300_modbus.c:477-483 | Definition: the power totals after the six active, reactive and apparent power reads. |
| D300MClass.GucFaktorleriPass | d300-m_class/esp32_d300_modbus.c:485-487 | Definition: both power factors after their one-word reads at scale 10. |
| D300MClass.ElektrikselVerilerPass | d300-m_class/esp32_d300_modbus.c:448-498 | Definition: the single-file variant's full measurement record after `updateElektrikselVeriler`, its seven groups in turn. |
| D300MClass.FlowMeterPass | d300-m_class/esp32_d300_modbus.c:694 | Definition: the counter record after the flow-meter read that closes `updateSayaclar` in this variant. |
| D300MClass.TumSayaclarPass | d300-m_class/esp32_d300_modbus.c:683-695 | Definition: the counter record after `updateSayaclar`: the ten shared reads, then the flow meter. |
| D300MClass.HarmonikDegerlerPass | d300-m_class/esp32_d300_modbus.c:564-571 | Definition: the harmonic record after the eight one-word values at scale 100. |
| D300MClass.SeciliKanalPass | d300-m_class/esp32_d300_modbus.c:573-576 | Definition: the harmonic record after the channel read; only the low byte of the word is kept. |
| D300MClass.HarmonikPass | d300-m_class/esp32_d300_modbus.c:563-577 | Definition: the harmonic record after `updateHarmonikVeriler`: the values, then the channel. |
| D300MClass.GPSPass | d300-m_class/esp32_d300_modbus.c:579-583 | Definition: the position record after the three two-word reads; each field keeps the raw 32-bit pattern. |
| D300MClass.ExtendedSnapshot | d300-m_class/esp32_d300_modbus.c:594-600 | Definition: the records `updateExtendedData` leaves: counters, analog inputs, harmonics and position, each pass reading the replies that follow the requests before it. |
| D300MClass.IletisimSayaclariPass | d300-m_class/esp32_d300_modbus.c:709-712 | Definition: the communication record after the two Ethernet counters and the GPRS address. |
| D300MClass.MacPass | d300-m_class/esp32_d300_modbus.c:714-721 | Definition: the communication record after the three-register MAC read: its colon-separated hex text when all three words came back, the previous text otherwise. Stated by `D300MClass.IletisimMacMeaning`. |
| D300MClass.IletisimPass | d300-m_class/esp32_d300_modbus.c:708-723 | Definition: the communication record after `updateIletisimVeriler`. |
| D300MClass.BasicRequests | d300-m_class/esp32_d300_modbus.c:585-592 | Definition: the requests of the single-file `updateBasicData` after a given transcript: the fixed 53 reads, then the alarm scans. |
| D300MClass.BasicSnapshot | d300-m_class/esp32_d300_modbus.c:585-592 | Definition: the records the single-file `updateBasicData` leaves: each pass applied to the replies that follow the requests before it. |
| D300MClass.D300Controller.Due | d300-m_class/esp32_d300_modbus.c:608-612 | Definition: the test of `handle`: auto-update on and the unsigned 32-bit elapsed time at least the interval. |
| D300MClass.IletisimMacMeaning | d300-m_class/esp32_d300_modbus.c:708-723 | After a successful read of 11684..11686 the MAC text is 17 characters, colon-separated, and reads back as the three words. After a failed read the old text stays. |
| D300MClass.D300Controller.constructor | d300-m_class/esp32_d300_modbus.c:347-355 | Same defaults as the split variant, plus the harmonic, GPS and communication records at their declared defaults. |
| D300MClass.D300Controller.UpdateVoltajlar | d300-m_class/esp32_d300_modbus.c:449-457 | Issues the six phase-voltage reads in order, with the per-field rule. |
| D300MClass.D300Controller.UpdateFazVoltajlari | d300-m_class/esp32_d300_modbus.c:459-465 | Issues the six line-to-line voltage reads 10252..10262, with the per-field rule. |
| D300MClass.D300Controller.UpdateAkimlar | d300-m_class/esp32_d300_modbus.c:467-475 | Issues the eight current reads 10264..10278, neutrals included, with the per-field rule. |
| D300MClass.D300Controller.UpdateGucVerileri | d300-m_class/esp32_d300_modbus.c:477-483 | Issues the six active, reactive and apparent power reads, with the per-field rule. |
| D300MClass.D300Controller.UpdateGucFaktorleri | d300-m_class/esp32_d300_modbus.c:485-487 | Issues the two power-factor reads 10334 and 10335 (one word, scale 10). |
| D300MClass.D300Controller.UpdateFrekanslar | d300-m_class/esp32_d300_modbus.c:489-491 | Issues the two frequency reads 10338 and 10339 (scale 100). |
| D300MClass.D300Controller.UpdateOrtalamaDegerler | d300-m_class/esp32_d300_modbus.c:493-497 | Issues the four average reads 10377..10383. |
| D300MClass.D300Controller.UpdateElektrikselVeriler | d300-m_class/esp32_d300_modbus.c:448-498 | The full electrical pass: 34 reads in source order, and the record is the composition of the seven group passes. |
| D300MClass.D300Controller.UpdateMotorIsil | d300-m_class/esp32_d300_modbus.c:501-507 | Issues the seven engine reads, with the per-field rule. |
| D300MClass.D300Controller.UpdateMotorBatarya | d300-m_class/esp32_d300_modbus.c:508-511 | Issues the four battery and charge reads, with the per-field rule. |
| D300MClass.D300Controller.UpdateMotorVerileri | d300-m_class/esp32_d300_modbus.c:500-512 | Issues the 11 motor reads. There is no external fuel sensor in this variant. |
| D300MClass.D300Controller.UpdateDurumMod | d300-m_class/esp32_d300_modbus.c:515-522 | Stores the raw words of 10604 and 10605 on success, unchecked, and keeps each on failure. |
| D300MClass.D300Controller.UpdateSistemBilgi | d300-m_class/esp32_d300_modbus.c:524-529 | Issues the six system-information reads 10606..10611. |
| D300MClass.D300Controller.UpdateSistemDurumu | d300-m_class/esp32_d300_modbus.c:514-530 | Issues the eight system reads in order. |
| D300MClass.D300Controller.UpdateSayacCalisma | d300-m_class/esp32_d300_modbus.c:684-689 | Issues the six run-counter reads. |
| D300MClass.D300Controller.UpdateSayacEnerji | d300-m_class/esp32_d300_modbus.c:690-693 | Issues the four energy and fuel-counter reads. |
| D300MClass.D300Controller.UpdateFlowMeter | d300-m_class/esp32_d300_modbus.c:694 | Issues the flow-meter read 11680 (two words, scale 10). |
| D300MClass.D300Controller.UpdateSayaclar | d300-m_class/esp32_d300_modbus.c:683-695 | Issues the 11 counter reads, flow meter last, and the record is the composition of the three groups. |
| D300MClass.D300Controller.UpdateAnalogGirisler | d300-m_class/esp32_d300_modbus.c:697-706 | Issues the eight analog-input reads as raw words. |
| D300MClass.D300Controller.UpdateHarmonikDegerler | d300-m_class/esp32_d300_modbus.c:564-571 | Issues the eight harmonic reads 10386..10393 (scale 100). |
| D300MClass.D300Controller.UpdateSeciliKanal | d300-m_class/esp32_d300_modbus.c:573-576 | Issues the channel read 10403. On success it stores the low byte, on failure it keeps the channel. |
| D300MClass.D300Controller.UpdateHarmonikVeriler | d300-m_class/esp32_d300_modbus.c:563-577 | Issues the nine harmonic reads, and the record is the composition of the two groups. |
| D300MClass.D300Controller.UpdateGPSVeriler | d300-m_class/esp32_d300_modbus.c:579-583 | Issues the three 32-bit reads 10594, 10596 and 10598. Each stores its raw bits on success and keeps them on failure. |
| D300MClass.D300Controller.UpdateIletisimSayaclari | d300-m_class/esp32_d300_modbus.c:709-711 | Issues the reads 11682, 11683 (one word) and 10646 (two words) into the counters and the GPRS address. |
| D300MClass.D300Controller.UpdateIletisimVeriler | d300-m_class/esp32_d300_modbus.c:708-723 | Issues those three reads and then one three-word read of 11684. The MAC text changes only when that read succeeds, and then to the formatted words. |
| D300MClass.D300Controller.UpdateAlarmDurumlari | d300-m_class/esp32_d300_modbus.c:532-561 | Issues exactly the alarm-scan reads. The three flags are those of the scan specification, and nothing else changes. |
| D300MClass.D300Controller.UpdateBasicData | d300-m_class/esp32_d300_modbus.c:585-592 | Runs electrical, motor, system and alarms in that order. Every record is its pass's value, `lastUpdateTime == now`, and the result is the final flag. |
| D300MClass.D300Controller.UpdateExtendedData | d300-m_class/esp32_d300_modbus.c:594-600 | Runs counters, analog inputs, harmonics and GPS in that order, 31 reads. Each record is its pass's value, and the result is the final flag. |
| D300MClass.D300Controller.UpdateData | d300-m_class/esp32_d300_modbus.c:602-606 | Runs the basic pass, then the extended pass. The result is the flag after the basic pass AND the flag after the extended pass. |
| D300MClass.D300Controller.Handle | d300-m_class/esp32_d300_modbus.c:608-612 | When auto-update is on and the unsigned elapsed time at the reading `now` reaches the interval, it does exactly a basic pass and stores the later reading `done`. Otherwise nothing changes. |
| D300MClass.D300Controller.Begin | d300-m_class/esp32_d300_modbus.c:357-381 | Stores the interval and probes the identity. On a match it returns the basic pass's result. Otherwise it returns false with the flag cleared. |
| D300MClass.D300Controller.SimulateButton | d300-m_class/esp32_d300_modbus.c:615-623 | Exactly one write of the button's mask to 8193, with the tracker transition of its answer. |
| D300MClass.D300Controller.StartGenerator | d300-m_class/esp32_d300_modbus.c:656-658 | Exactly one write of 0x0004 (AUTO) to 8193. |
| D300MClass.D300Controller.StopGenerator | d300-m_class/esp32_d300_modbus.c:660-662 | Exactly one write of 0x0001 (STOP) to 8193. |
| D300MClass.D300Controller.SetAutoMode | d300-m_class/esp32_d300_modbus.c:664-666 | Exactly one write of 0x0004 (AUTO) to 8193. |
| D300MClass.D300Controller.SetManualMode | d300-m_class/esp32_d300_modbus.c:668-670 | Exactly one write of 0x0002 (MANUEL_RUN) to 8193. |
| D300MClass.D300Controller.SetTestMode | d300-m_class/esp32_d300_modbus.c:672-674 | Exactly one write of 0x0008 (TEST) to 8193. |
| D300MClass.D300Controller.SimulateButtonCombination | d300-m_class/esp32_d300_modbus.c:625-633 | Exactly one write of the given mask to 8193. |
| D300MClass.D300Controller.EmergencyStop | d300-m_class/esp32_d300_modbus.c:676-681 | Exactly one write of 0x4001 (STOP with LONG_PRESS) to 8193, through the combination command. |
| D300MClass.D300Controller.SetHarmonicChannel | d300-m_class/esp32_d300_modbus.c:645-653 | Exactly one write of the channel byte to 8194, for any byte the `uint8_t` enum can hold (the named channels 0..19 and values cast to it), with the tracker transition of its answer. |
| D300MClass.D300Controller.ResetUnit | d300-m_class/esp32_d300_modbus.c:635-643 | Exactly one write of 14536 to 8210. |
| D300MClass.D300Controller.SetSlaveID | d300-m_class/esp32_d300_modbus.c:961-966 | The slave id changes iff the new id is within 1..240. |
| D300MClass.D300Controller.EnableAutoUpdate | d300-m_class/esp32_d300_modbus.c:287 | Sets only the auto-update flag. |
| D300MClass.D300Controller.SetUpdateInterval | d300-m_class/esp32_d300_modbus.c:288 | Sets only the update interval. |
| VariantFacts.LastSuccessConnects | d300-m_class/esp32_d300_modbus.c:585-592 | When a pass's last request succeeds, the pass ends with counter 0 and connected, whatever happened before. |
| VariantFacts.ConnectedThenSilent | d300-m/D300Controller.cpp:232-237 | Connected after a pass whose last read succeeded, yet disconnected after five or more silent requests that follow it. |
| VariantFacts.SplitBasicLength | d300-m/D300Controller.cpp:223-230 | The split basic pass issues 41 fixed reads plus 3..48 alarm reads. |
| VariantFacts.SingleBasicLength | d300-m_class/esp32_d300_modbus.c:585-600 | The single-file basic pass issues 53 fixed reads plus 3..48 alarm reads, and the extended pass issues 31. |
| VariantFacts.SplitSilentElektrik | d300-m/D300Controller.cpp:96-130 | Against a silent bus the reduced electrical pass keeps the whole record. |
| VariantFacts.SingleSilentElektrik | d300-m_class/esp32_d300_modbus.c:448-498 | Against a silent bus the full electrical pass keeps the whole record. |
| VariantFacts.SplitSilentBasicUpdate | d300-m/D300Controller.cpp:223-230 | Against a silent bus the split basic pass reads all 89 registers. It keeps every reading but the three alarm flags, which it clears, stores the fuel-sensor level, and ends disconnected. |
| VariantFacts.SingleSilentBasicUpdate | d300-m_class/esp32_d300_modbus.c:585-592 | Against a silent bus the single-file basic pass reads all 101 registers. It keeps every reading, clears the three alarm flags, and ends disconnected. |
| VariantFacts.SingleSilentExtended | d300-m_class/esp32_d300_modbus.c:594-600 | Against a silent bus the extended pass keeps all four records. |
| VariantFacts.SplitUpdateDataIgnoresExtension | d300-m/D300Controller.cpp:232-237 | Suppose the basic pass ends on a success and the 18 extended reads go unanswered. The split `updateData` then reports true while the link is in fact disconnected. |
| VariantFacts.SingleUpdateDataFailsOnSilentExtension | d300-m_class/esp32_d300_modbus.c:602-606 | If the 31 extended reads go unanswered, the single-file `updateData` reports false, and the extended records are unchanged. |

## Left out

- The ModbusMaster library is replaced by the reply script. Left out with it are the
  framing, CRC, timeouts, `node.begin`, `node.idle` and the exact failure codes. A
  request either gets a complete reply or does not.
- The hardware is left out: `HardwareSerial`, `pinMode`, `analogReadResolution` and
  `delay`. `analogRead` becomes the `samples` parameter of `FuelSensor.ReadFuelADC`
  and of the split variant's passes.
- `millis()` becomes the `now` parameter of `UpdateBasicData`, `UpdateData` and
  `Begin`, and the `now` and `done` parameters of `Handle` (its due test and the
  later reading `updateBasicData` stores). The model does not relate `done` to `now`:
  any reading the clock could give after the passes is allowed.
- IEEE single-precision rounding is left out. Quantities are exact reals, so the
  decoded values and the sensor arithmetic carry no rounding error.
- `RegisterDecode.ScaledMonotone` holds over exact reals. With single-precision
  floats, `(float)raw` already merges neighbouring raw values at 2^24 and above, and
  `/ 10` or `/ 100` can round neighbours together below that, so the device's order is
  only kept weakly (never reversed).
- `RegisterDecode.Float32Injective` holds over exact reals only. On the device, two
  32-bit raw values that differ below single precision (from 2^24 up, or after the
  division) can decode to the same float.
- `UpdateGPSVeriler`: the three words are kept as raw 32-bit patterns; the source
  reinterprets them as IEEE float bits, which the model does not.
- Text rendering is left out, because it is string tables and float-to-decimal
  formatting:
  - `getDurumAciklama`, `getModAciklama` and `getAlarmAciklama`;
  - every `print*` function;
  - `getDataAsJSON` and `getBasicDataAsJSON`.
  The one decision in the reports, the basic report's `"alarms"` flag, is
  `Classifier.AnyAlarm`.
- The getters (`getJeneratorGuc`, `getMotorRPM`, `getBaglantiDurumu` and the others of the
  same block, plus the split variant's `getHariciYakitSeviyesi`) only return fields.
- `setTimeout`, `calibrateFuelSensor` and `setFuelSensorPin` are no-op stubs or only
  log.
- `CihazKimlikNo` and `ModemIMEI` of the communication record are never written by
  the source, so they stay at their defaults.
- The web application under `generator_web` is HTTP, database and authentication
  plumbing; it is not part of this model.
- `Modbus.Port.ReadMultipleRegisters` requires the buffer to hold `quantity` words.
  The source writes through a raw pointer and leaves that to its caller.
- `D300M.D300Controller.SimulateButton` takes one named button. The source's
  `ButonMaski` parameter could also carry a value cast from an unnamed mask; the
  split variant has no other entry for that, and the model does not cover it. No
  call inside the split source passes one: every command that goes through
  `simulateButton` names its button, and `emergencyStop` writes its combined mask
  itself.
- `D300MClass.D300Controller.SimulateButton` takes one named button. A cast,
  unnamed mask in this variant is `D300MClass.D300Controller.SimulateButtonCombination`,
  which writes any 16-bit mask.
