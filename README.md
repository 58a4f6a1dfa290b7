# uFire Isolated EC probe driver — a Dafny model

This project models the host-side drivers of the uFire Isolated EC probe, an
electrical-conductivity sensor that is read over I2C. All of them drive the same
56-byte register file on the device. A float goes over the bus as four
little-endian bytes of a binary32 value. A command is one opcode written to
the task register (55). Settings live in float registers (temperature
coefficient, temperature constant, calibration points) and in bits of the
config byte (54).

The drivers are modelled against an in-memory stand-in for the device. The
stand-in (`Bus.RegisterFile`) is a 56-byte register file with a register
pointer and a log of every bus transaction. A write transaction
`[r, d0, ..., dk]` selects register r and stores the data bytes from r on. A
one-byte read returns the byte under the pointer and moves the pointer on.
The stand-in runs no device firmware, so a command only lands in the task
register. Each driver method is proved to produce a given register file,
pointer and transaction log. Each is stated through specification functions
(`MeasureEcRegs`, `ResetRegs`, `CalibrationRegs`, ...), and lemmas prove what
those functions mean: which registers change, what reads back, which bits
flip, and in which order registers are selected.

Modules:

- `Binary32`: binary32 patterns as `bv32`. It has IEEE equality (`FloatEq`:
  NaN is unequal to itself, +0 equals -0), the little-endian byte codec
  (`Split`/`Join`) and the exact values of the literals the drivers use.
  Arithmetic is an uninterpreted `FloatUnit`. `IeeeIdentities` states the four
  IEEE facts that the 25 °C identities need.
- `Bits`: the bit macros of the C++ header.
- `RegisterMap`: the register numbers, opcodes, config bits and settle times.
- `Bus`: the register file stand-in, with its load and store functions and trace
  builders.
- `EcDriver`: the C++ driver `uFire_EC` (class `UfireEc`). It is the canonical
  driver.
- `PyDriver`: the Raspberry Pi Python driver (class `UfirePy`). Every float
  that crosses the bus goes through an uninterpreted `round`, which stands for
  `round_total_digits`. Measurements honour `blocking`.
- `RustProbe`: the Rust crate's `EcProbe`. It writes a float as a select
  followed by four single-byte writes, and it runs no temperature rescale
  before calibrating.
- `EcJson`: the text command adapter `uFire_EC_JSON` (class `JsonAdapter`). It
  has the Arduino `String` operations it uses (indexOf, substring, remove,
  trim), the tokenizer, the eleven-command table, one specification function
  per handler, and `ProcessJson`.
- `Wrappers`: `Option`.

The Python driver differs from the C++ driver when the mS register holds NaN
and raw is nonzero. C++ reports -1 everywhere and skips the salinity read.
Python passes NaN through and does read salinity (`PyDriver.NaNReadingDiverges`).
When the rescale divisor `1 - coef * (tempC - 25)` is zero, C++ writes the IEEE
quotient (an infinity or NaN) and sends the calibration command. Python raises
ZeroDivisionError and writes nothing (`PyDriver.ZeroDivisorDiverges`).
The Rust driver's calibration writes the solution unscaled. That is what C++
writes at 25 °C (`RustProbe.RustCalibrationIsUnscaled`).

## Model

| member | source | states |
|---|---|---|
| Binary32.SelfEqualityDetectsNaN | src/uFire_EC.cpp:259 | the test `mS == mS` is false exactly for NaN |
| Binary32.ZeroComparison | src/uFire_EC.cpp:250 | `raw == 0.0` holds exactly for +0 and -0 |
| Binary32.SentinelComparison | src/uFire_EC.cpp:280 | `tempC == -127.0` holds for exactly one bit pattern |
| Binary32.Split | src/uFire_EC.cpp:307-321 | a float is sent as exactly four bytes |
| Binary32.JoinSplit | src/uFire_EC.cpp:307-338 | reassembling the four bytes of a float that was written gives it back |
| Binary32.SplitJoin | rust/src/lib.rs:437-449 | splitting four bytes read back and joined gives the same bytes |
| Binary32.SplitInjective | src/uFire_EC.cpp:307-321 | two floats have the same bytes on the bus iff they are the same pattern |
| Binary32.Pow2 | src/uFire_EC.cpp:3 | the powers of two that scale a pattern's significand; never zero, so the value of a literal is well defined |
| Binary32.Pow2Add | src/uFire_EC.cpp:3 | powers of two multiply as their exponents add: 2^(a+b) = 2^a * 2^b |
| Binary32.LiteralValues | src/uFire_EC.cpp:155 | the patterns used for 25, 1, -1, 9, 5 and 32 denote exactly those numbers |
| Binary32.ScaleLiteralValues | src/uFire_EC.cpp:260-286 | the patterns for -127, 1000, 500, 640 and 700 denote exactly those numbers |
| Binary32.DefaultCoefficientIsNearest | src/uFire_EC.cpp:3 | the default coefficient is within half an ulp of 0.019 |
| Bits.BitRead | src/uFire_EC.h:8 | bitRead yields 0 or 1, and 1 exactly when the bit is set |
| Bits.BitSet | src/uFire_EC.h:9 | bitSet sets its bit and leaves every other bit as it was |
| Bits.BitClear | src/uFire_EC.h:10 | bitClear clears its bit and leaves every other bit as it was |
| Bits.BitWrite | src/uFire_EC.h:11 | bitWrite gives its bit the value asked for and leaves the others |
| Bits.BitsDetermineByte | src/uFire_EC.h:8 | two bytes that agree on all eight bitRead values are equal |
| Bits.WriteOfCurrentBitIsIdentity | src/uFire_EC.h:11 | writing a bit's own value back changes nothing |
| Bits.WriteTwice | src/uFire_EC.h:11 | a second bitWrite of the same bit overrides the first |
| Bits.WritesToDistinctBitsCommute | src/uFire_EC.h:11 | bitWrites to different bits commute |
| RegisterMap.RegisterByte | src/uFire_EC.h:28-44 | every register number fits the uint8_t the source sends it as |
| RegisterMap.FloatRegistersAreFourApart | src/uFire_EC.h:29-41 | the thirteen float registers are 1, 5, ..., 49, four bytes apart |
| RegisterMap.SlotsAreDisjoint | src/uFire_EC.h:28-44 | no two float slots overlap, and no byte register lies inside a float slot |
| RegisterMap.FloatSlotsEndBeforeByteRegisters | src/uFire_EC.h:28-44 | float slots lie within 1..52; byte registers are 0 and 53..55 |
| RegisterMap.OpcodesAreDistinct | src/uFire_EC.h:19-26 | the eight command opcodes are pairwise distinct |
| RegisterMap.ConfigBitsAreDistinct | src/uFire_EC.h:49-50 | the dual-point and compensation bits are different bits of one byte |
| Bus.RegisterFile.Transmit | src/uFire_EC.cpp:290-321 | one write transaction stores the data bytes from the selected register on, moves the pointer past them and is logged |
| Bus.RegisterFile.Receive | src/uFire_EC.cpp:323-338 | a one-byte read returns the byte under the pointer, advances it, changes no register and is logged |
| Bus.LoadAfterStore | src/uFire_EC.cpp:307-338 | a float written to a register reads back unchanged |
| Bus.StoreFloatFrame | src/uFire_EC.cpp:307-321 | writing a float changes only its four bytes |
| Bus.LoadAfterStoreElsewhere | src/uFire_EC.cpp:307-338 | writing one float register leaves every disjoint float register's value |
| Bus.LoadAfterStoreByte | src/uFire_EC.cpp:340-350 | a byte write outside a float slot leaves that float's value |
| Bus.ReadsTraceAppend | src/uFire_EC.cpp:323-338 | a run of float reads logs as the reads of its two halves in turn |
| Bus.SelectedOfFloatRead | src/uFire_EC.cpp:323-338 | a float read selects exactly its register, once |
| Bus.ReadsTraceSelects | src/uFire_EC.cpp:323-338 | a run of float reads selects exactly the registers read, in order |
| Bus.WriteByteTraceOrder | src/uFire_EC.cpp:340-350 | a byte write stores at its register and selects nothing |
| Bus.ReadByteTraceOrder | src/uFire_EC.cpp:352-361 | a byte read selects its register and stores nothing |
| Bus.ReadFloatTraceStoresNothing | src/uFire_EC.cpp:323-338 | a float read stores nothing |
| Bus.ReadsTraceStoresNothing | src/uFire_EC.cpp:323-338 | a run of float reads stores nothing |
| EcDriver.Fahrenheit | src/uFire_EC.cpp:50 | the conversion `((tempC * 9) / 5) + 32`, also used at src/uFire_EC.cpp:286 and by the Python driver; stated by TemperatureAlwaysRead, PyTemperatureAlwaysRead and the setTemp methods |
| EcDriver.ToMs25 | src/uFire_EC.cpp:241-244 | _mS_to_mS25 as the quotient of mS by RescaleDivisor; stated by RescaleIdentityAt25, RescaleIdempotentAt25 and CalibrationEffects |
| EcDriver.RescaleDivisor | src/uFire_EC.cpp:243 | the divisor `1 - coef * (tempC - 25)` of _mS_to_mS25; stated by RescaleDivisorAt25 |
| EcDriver.RescaleDivisorAt25 | src/uFire_EC.cpp:243 | under IEEE arithmetic and a finite coefficient, the divisor at 25 °C is exactly 1 |
| EcDriver.RescaleIdentityAt25 | src/uFire_EC.cpp:241-244 | under IEEE arithmetic, _mS_to_mS25 at 25 °C returns its input (a finite coefficient, a non-NaN input) |
| EcDriver.RescaleIdempotentAt25 | src/uFire_EC.cpp:241-244 | rescaling an already-rescaled value at 25 °C does not change it |
| EcDriver.MsCandidate | src/uFire_EC.cpp:248-257 | the mS value before the NaN test: NaN for a zero raw, else the mS register |
| EcDriver.HasReading | src/uFire_EC.cpp:259 | the branch `mS == mS` of _updateRegisters; stated exactly by HasReadingExactly |
| EcDriver.Readout | src/uFire_EC.cpp:259-287 | the readings computed from raw, mS, salinity and temperature; stated by NoReadingGivesSentinels, ReadingGivesProducts and TemperatureAlwaysRead |
| EcDriver.Measurement | src/uFire_EC.cpp:246-288 | the readings _updateRegisters leaves for a register file; stated by the same three lemmas and ReportedMsIsNeverNaN |
| EcDriver.UpdateTraceReads | src/uFire_EC.cpp:246-288 | for either outcome of the raw-zero and reading tests, the update is one float read per register of UpdateReads, in order; both drivers' measurement traces rest on it |
| EcDriver.MeasurementTraceReads | src/uFire_EC.cpp:246-288 | _updateRegisters' bus traffic is the float reads of MeasurementReads, in that order |
| EcDriver.MeasurementReadsAreFloatRegisters | src/uFire_EC.cpp:246-288 | _updateRegisters reads only float registers |
| EcDriver.HasReadingExactly | src/uFire_EC.cpp:250-259 | a reading is reported iff raw is nonzero and the mS register is not NaN |
| EcDriver.NoReadingGivesSentinels | src/uFire_EC.cpp:250-276 | with no reading, mS, uS, S, salinity and the three ppm values are -1, and salinity is not read |
| EcDriver.ReadingGivesProducts | src/uFire_EC.cpp:259-267 | with a reading, uS, S and the ppm values are the products of mS; salinity is read between mS and temperature |
| EcDriver.TemperatureAlwaysRead | src/uFire_EC.cpp:279-287 | tempC is always read, last; tempF is -127 for the sentinel, else the Fahrenheit conversion |
| EcDriver.ReportedMsIsNeverNaN | src/uFire_EC.cpp:246-277 | the reported mS is never NaN |
| EcDriver.FloatFrameRoundTrip | src/uFire_EC.cpp:307-321 | the five-byte frame of _write_register stores exactly the float, in its four bytes only |
| EcDriver.FloatWriteTraceOrder | src/uFire_EC.cpp:307-321 | _write_register is one frame: it stores at its register and selects nothing |
| EcDriver.CompensationRegs | src/uFire_EC.cpp:116-131 | the register file after useTemperatureCompensation; stated by CompensationChangesOnlyItsBit, CompensationToggleRestores and CompensationKeepsFloats |
| EcDriver.CompensationTraceOrder | src/uFire_EC.cpp:116-131 | useTemperatureCompensation selects the config byte to read it, then stores it |
| EcDriver.CompensationChangesOnlyItsBit | src/uFire_EC.cpp:116-131 | useTemperatureCompensation sets the compensation bit as asked, keeps the other bits and changes no other register |
| EcDriver.CompensationToggleRestores | src/uFire_EC.cpp:116-131 | enabling and then disabling compensation restores a config byte that had it off |
| EcDriver.CompensationKeepsFloats | src/uFire_EC.cpp:116-131 | toggling compensation leaves every float setting |
| EcDriver.MeasureEcRegs | src/uFire_EC.cpp:23-34 | the register file after measureEC's writes; stated by MeasureEcEffects |
| EcDriver.MeasureEcTraceOrder | src/uFire_EC.cpp:23-34 | measureEC stores temperature, config byte, constant and command in that order, then selects the registers of the update |
| EcDriver.MeasureEcEffects | src/uFire_EC.cpp:23-34 | measureEC stores temperature and constant, turns compensation on, keeps the dual-point bit, issues the EC command and changes nothing else |
| EcDriver.CalibrationRegs | src/uFire_EC.cpp:53-81 | the register file after calibrate*'s writes; stated by CalibrationEffects and CalibrationAt25WritesSolution |
| EcDriver.CalibrationTraceOrder | src/uFire_EC.cpp:53-81 | calibrate* reads the coefficient, stores the solution and the command, then reads the register it returns |
| EcDriver.CalibrationEffects | src/uFire_EC.cpp:53-81 | calibrate* writes the rescaled solution and its opcode and changes nothing else |
| EcDriver.CalibrationAt25WritesSolution | src/uFire_EC.cpp:53-81 | calibrating at 25 °C writes the solution value itself |
| EcDriver.DualPointRegs | src/uFire_EC.cpp:83-89 | the register file after setDualPointCalibration; stated by DualPointReadsBack |
| EcDriver.DualPointTraceOrder | src/uFire_EC.cpp:83-89 | setDualPointCalibration stores low reference, high reference, low reading, high reading, in that order |
| EcDriver.DualPointReadsBack | src/uFire_EC.cpp:83-89 | setDualPointCalibration's four values read back from their registers; nothing outside 17..32 changes |
| EcDriver.ResetRegs | src/uFire_EC.cpp:143-160 | the register file after reset; stated by ResetClearsCalibration, ResetRestoresDefaults, ResetDisablesCompensation and ResetFrame |
| EcDriver.ResetFramesOrder | src/uFire_EC.cpp:143-157 | reset's seven float frames store offset, high reference, low reference, high reading, low reading, constant and coefficient, in that order |
| EcDriver.ResetTraceOrder | src/uFire_EC.cpp:143-160 | reset stores those seven registers and then the config byte, which is the only register it selects |
| EcDriver.ResetWrites | src/uFire_EC.cpp:143-157 | reset's seven float writes, in source order; stated by ResetWritesReadBack and ResetWritesFrame |
| EcDriver.ResetWritesReadBack | src/uFire_EC.cpp:143-160 | reset's seven writes all read back |
| EcDriver.ResetWritesFrame | src/uFire_EC.cpp:143-160 | reset's writes leave the registers outside the seven slots |
| EcDriver.ResetClearsCalibration | src/uFire_EC.cpp:143-153 | after reset the offset and all four calibration points are NaN |
| EcDriver.ResetRestoresDefaults | src/uFire_EC.cpp:155-157 | after reset the temperature constant is 25 and the coefficient is 0.019 |
| EcDriver.ResetDisablesCompensation | src/uFire_EC.cpp:159 | after reset compensation is off and the dual-point bit is unchanged |
| EcDriver.ResetFrame | src/uFire_EC.cpp:143-160 | reset changes no measurement, version, firmware or task register |
| EcDriver.CalibrationReadsSelect | src/uFire_EC.cpp:231-239 | readData's calibration reads select high reading, high reference, low reading, low reference, offset, in that order |
| EcDriver.IndirectRegs | src/uFire_EC.cpp:177-202 | the register file after setI2CAddress or readEEPROM; stated by IndirectEffects |
| EcDriver.WriteEepromRegs | src/uFire_EC.cpp:204-209 | the register file after writeEEPROM; stated by WriteEepromEffects and EepromReadAfterWrite |
| EcDriver.IndirectEffects | src/uFire_EC.cpp:177-202 | setI2CAddress and readEEPROM write their integer argument as a float and their opcode, and leave the buffer |
| EcDriver.WriteEepromEffects | src/uFire_EC.cpp:204-209 | writeEEPROM puts the cell in the solution register, the value in the buffer and the write opcode in the task register |
| EcDriver.EepromReadAfterWrite | src/uFire_EC.cpp:197-209 | readEEPROM after writeEEPROM of the same cell finds the value in the buffer (the stand-in has no firmware) |
| EcDriver.UfireEc.constructor | src/uFire_EC.h:68-69 | the driver starts with the bus, address, delay, blocking flag and readings given |
| EcDriver.UfireEc.ChangeRegister | src/uFire_EC.cpp:290-296 | selects the register: pointer set, registers unchanged, one write logged |
| EcDriver.UfireEc.SendCommand | src/uFire_EC.cpp:298-305 | the opcode lands in the task register, and nothing else changes |
| EcDriver.UfireEc.WriteRegister | src/uFire_EC.cpp:307-321 | the float is stored in its register's four bytes in one transaction |
| EcDriver.UfireEc.ReadRegister | src/uFire_EC.cpp:323-338 | returns the float stored in the register, changing no register, as a select and four one-byte reads |
| EcDriver.UfireEc.WriteByte | src/uFire_EC.cpp:340-350 | the byte is stored in its register in one transaction |
| EcDriver.UfireEc.ReadByte | src/uFire_EC.cpp:352-360 | returns the byte in the register as a select and one read |
| EcDriver.UfireEc.Begin | src/uFire_EC.cpp:6-21 | records the address, picks the slow delay for version <= 2, and reports connected iff version != 0xFF |
| EcDriver.UfireEc.Connected | src/uFire_EC.cpp:184-195 | true iff the version register is not 0xFF |
| EcDriver.UfireEc.GetVersion | src/uFire_EC.cpp:133-136 | returns the version register |
| EcDriver.UfireEc.GetFirmware | src/uFire_EC.cpp:138-141 | returns the firmware register |
| EcDriver.UfireEc.UpdateRegisters | src/uFire_EC.cpp:246-288 | readings become Measurement of the register file; the registers and settings are unchanged |
| EcDriver.UfireEc.MeasureEC | src/uFire_EC.cpp:23-34 | registers become MeasureEcRegs, readings are measured from them, and the result is the reported mS |
| EcDriver.UfireEc.MeasureTemp | src/uFire_EC.cpp:36-44 | issues the temperature command, measures, and returns tempC |
| EcDriver.UfireEc.SetTemp | src/uFire_EC.cpp:46-51 | stores the temperature and updates tempC and tempF only |
| EcDriver.UfireEc.UseTemperatureCompensation | src/uFire_EC.cpp:116-131 | the config byte becomes CompensationRegs: a read, then a write of the byte with one bit changed |
| EcDriver.UfireEc.MsToMs25 | src/uFire_EC.cpp:241-244 | returns the rescale with the device's current coefficient |
| EcDriver.UfireEc.CalibrateProbe | src/uFire_EC.cpp:53-61 | registers become CalibrationRegs with the probe opcode; returns the offset register |
| EcDriver.UfireEc.CalibrateProbeLow | src/uFire_EC.cpp:63-71 | the same with the low opcode; returns the low reading |
| EcDriver.UfireEc.CalibrateProbeHigh | src/uFire_EC.cpp:73-81 | the same with the high opcode; returns the high reading |
| EcDriver.UfireEc.SetDualPointCalibration | src/uFire_EC.cpp:83-89 | registers become DualPointRegs, as four float writes in source order |
| EcDriver.UfireEc.GetCalibrateOffset | src/uFire_EC.cpp:91-94 | returns the offset register |
| EcDriver.UfireEc.GetCalibrateHighReference | src/uFire_EC.cpp:96-99 | returns the high reference register |
| EcDriver.UfireEc.GetCalibrateLowReference | src/uFire_EC.cpp:101-104 | returns the low reference register |
| EcDriver.UfireEc.GetCalibrateHighReading | src/uFire_EC.cpp:106-109 | returns the high reading register |
| EcDriver.UfireEc.GetCalibrateLowReading | src/uFire_EC.cpp:111-114 | returns the low reading register |
| EcDriver.UfireEc.Reset | src/uFire_EC.cpp:143-160 | registers become ResetRegs, as the source's write sequence |
| EcDriver.UfireEc.SetCalibrateOffset | src/uFire_EC.cpp:162-165 | stores the offset |
| EcDriver.UfireEc.SetTempConstant | src/uFire_EC.cpp:167-170 | stores the temperature constant |
| EcDriver.UfireEc.GetTempConstant | src/uFire_EC.cpp:172-175 | returns the temperature constant register |
| EcDriver.UfireEc.SetTempCoefficient | src/uFire_EC.cpp:211-214 | stores the coefficient |
| EcDriver.UfireEc.GetTempCoefficient | src/uFire_EC.cpp:216-219 | returns the coefficient register |
| EcDriver.UfireEc.SetI2CAddress | src/uFire_EC.cpp:177-182 | sends the new address and the I2C command to the old address, then records the new one |
| EcDriver.UfireEc.ReadEEPROM | src/uFire_EC.cpp:197-202 | sends the cell and the read command, then returns the buffer register |
| EcDriver.UfireEc.WriteEEPROM | src/uFire_EC.cpp:204-209 | sends the cell, the value and the write command |
| EcDriver.UfireEc.SetBlocking | src/uFire_EC.cpp:221-224 | sets the flag only |
| EcDriver.UfireEc.GetBlocking | src/uFire_EC.cpp:226-229 | returns the flag |
| EcDriver.UfireEc.ReadData | src/uFire_EC.cpp:231-239 | updates the readings from the registers, then reads the five calibration registers; no register changes |
| PyDriver.BitAssign | python/RaspberryPi/uFire_EC.py:228-233 | _bit_set is the header's bitWrite |
| PyDriver.BitAssignSetsOnlyItsBit | python/RaspberryPi/uFire_EC.py:228-233 | _bit_set gives its bit the value asked for and keeps the others |
| PyDriver.PyFloatWriteTraceOrder | python/RaspberryPi/uFire_EC.py:277-288 | _write_register selects its register, then the block write stores from it |
| PyDriver.PyMsCandidate | python/RaspberryPi/uFire_EC.py:236-241 | the mS value Python tests: infinity for a zero raw, else the rounded mS register |
| PyDriver.PyReadout | python/RaspberryPi/uFire_EC.py:243-265 | the attributes computed from raw, mS, salinity and temperature; stated by PyRawZeroGivesSentinels, PyInfiniteMsGivesSentinels, PyReadingGivesProducts and PyTemperatureAlwaysRead |
| PyDriver.PyMeasurement | python/RaspberryPi/uFire_EC.py:235-265 | the attributes _updateRegisters leaves for a register file; stated by the same four lemmas and NaNReadingDiverges |
| PyDriver.PyMeasurementTraceReads | python/RaspberryPi/uFire_EC.py:235-265 | _updateRegisters' traffic is the float reads of PyMeasurementReads, in order |
| PyDriver.PyRawZeroGivesSentinels | python/RaspberryPi/uFire_EC.py:238-255 | a rounded raw of 0 gives -1 everywhere and reads only raw and temperature |
| PyDriver.PyInfiniteMsGivesSentinels | python/RaspberryPi/uFire_EC.py:236-255 | a nonzero raw with an infinite rounded mS also gives -1 everywhere; mS is read, salinity is not |
| PyDriver.PyReadingGivesProducts | python/RaspberryPi/uFire_EC.py:238-255 | otherwise, for a non-infinite mS, uS, S and the ppm values are products of mS and salinity is read |
| PyDriver.PyTemperatureAlwaysRead | python/RaspberryPi/uFire_EC.py:259-265 | tempC is always read, last; tempF is -127 for the sentinel, else the Fahrenheit conversion |
| PyDriver.NaNReadingDiverges | python/RaspberryPi/uFire_EC.py:235-265 | for NaN in mS and a nonzero raw, C++ reports -1 and skips salinity, while Python reports NaN and reads it |
| PyDriver.RawZeroAgrees | python/RaspberryPi/uFire_EC.py:313-320 | given the zero-preservation fact assumed in RoundingFacts (see Left out), the Python and C++ drivers take the raw-zero branch on the same register files |
| PyDriver.Truthy | python/RaspberryPi/uFire_EC.py:74-78 | the tests `if temp:` and `if temp_constant:`: None, +0 and -0 are false, every other float (NaN included) is true; stated by PyMeasureEcTraceOrder and UfirePy.MeasureEC |
| PyDriver.SetTempReadings | python/RaspberryPi/uFire_EC.py:146-149 | the tempC and tempF that setTemp leaves when measureEC's temp is truthy, with tempF the Fahrenheit conversion; stated by UfirePy.MeasureEC |
| PyDriver.PyMeasureEcRegs | python/RaspberryPi/uFire_EC.py:73-83 | the register file after measureEC's writes; stated by PyMeasureEcEffects |
| PyDriver.PyMeasureEcEffects | python/RaspberryPi/uFire_EC.py:73-83 | measureEC sets temperature and compensation only for a truthy temp, the constant only for a truthy constant, and always issues the EC command |
| PyDriver.PyMeasureEcTraceOrder | python/RaspberryPi/uFire_EC.py:73-83 | measureEC's traffic: config byte and temperature only for a truthy temp, the constant only for a truthy constant, then the command |
| PyDriver.RescaleDivides | python/RaspberryPi/uFire_EC.py:143-144 | _mS_to_mS25 returns, rather than raising ZeroDivisionError, exactly when its divisor is not +0 or -0; stated by PyCalibrationEffects and UfirePy.MsToMs25 |
| PyDriver.PyCalibrationRegs | python/RaspberryPi/uFire_EC.py:95-116 | the register file after calibrate*: its two writes when the rescale divides, the old register file when it raises; stated by PyCalibrationEffects |
| PyDriver.PyCalibrationEffects | python/RaspberryPi/uFire_EC.py:95-116 | when the rescale divides, calibrate* writes the rounded, rescaled solution and its opcode; when it raises, nothing changes; at 25 °C with a finite coefficient it always divides and writes the rounded solution |
| PyDriver.PyCalibrationTraceOrder | python/RaspberryPi/uFire_EC.py:95-116 | calibrate* reads the coefficient; when the rescale divides it then selects and stores the solution register and stores the command, and otherwise it stores nothing |
| PyDriver.ZeroDivisorDiverges | python/RaspberryPi/uFire_EC.py:143-144 | for a zero divisor, Python raises and leaves the registers as they were, while C++ writes the IEEE quotient and the opcode |
| PyDriver.PyResetRegs | python/RaspberryPi/uFire_EC.py:176-185 | the register file after reset; stated by PyResetMatchesCpp |
| PyDriver.PyResetMatchesCpp | python/RaspberryPi/uFire_EC.py:176-185 | reset leaves the same register file as the C++ reset: NaN calibration, constant 25, coefficient 0.019, compensation off |
| PyDriver.PyResetFramesOrder | python/RaspberryPi/uFire_EC.py:176-184 | reset's seven float writes each select and store their register, in the C++ order |
| PyDriver.PyResetTraceOrder | python/RaspberryPi/uFire_EC.py:176-185 | reset's traffic: those seven registers, then the config byte |
| PyDriver.PyIndirectRegs | python/RaspberryPi/uFire_EC.py:187-204 | the register file after setI2CAddress or readEEPROM; stated by PyEepromEffects |
| PyDriver.PyWriteEepromRegs | python/RaspberryPi/uFire_EC.py:206-209 | the register file after writeEEPROM; stated by PyEepromEffects and PyEepromReadAfterWrite |
| PyDriver.PyEepromEffects | python/RaspberryPi/uFire_EC.py:201-209 | readEEPROM and writeEEPROM put the rounded cell, the value and the opcode where the device expects them |
| PyDriver.PyEepromReadAfterWrite | python/RaspberryPi/uFire_EC.py:201-209 | reading a cell after writing it returns the value, rounded by both trips |
| PyDriver.BlockingAfter | python/RaspberryPi/uFire_EC.py:211-215 | the string "0" turns blocking off, "1" turns it on, and anything else keeps it |
| PyDriver.UfirePy.constructor | python/RaspberryPi/uFire_EC.py:58-62 | the driver starts blocking, at the address given, with nothing measured |
| PyDriver.UfirePy.ChangeRegister | python/RaspberryPi/uFire_EC.py:267-270 | selects the register: pointer set, registers unchanged |
| PyDriver.UfirePy.SendCommand | python/RaspberryPi/uFire_EC.py:272-275 | the opcode lands in the task register |
| PyDriver.UfirePy.WriteRegister | python/RaspberryPi/uFire_EC.py:277-288 | the rounded float is stored in its register |
| PyDriver.UfirePy.ReadRegister | python/RaspberryPi/uFire_EC.py:290-300 | returns the rounded float in the register, changing no register |
| PyDriver.UfirePy.WriteByte | python/RaspberryPi/uFire_EC.py:302-305 | the byte is stored in its register |
| PyDriver.UfirePy.ReadByte | python/RaspberryPi/uFire_EC.py:307-311 | returns the byte in the register |
| PyDriver.UfirePy.UpdateRegisters | python/RaspberryPi/uFire_EC.py:235-265 | readings become PyMeasurement of the registers; the registers are unchanged |
| PyDriver.UfirePy.Measure | python/RaspberryPi/uFire_EC.py:64-71 | issues the EC command; measures only when blocking, else keeps the readings |
| PyDriver.UfirePy.MeasureEC | python/RaspberryPi/uFire_EC.py:73-83 | registers become PyMeasureEcRegs; when not blocking only tempC and tempF change |
| PyDriver.UfirePy.MeasureTemp | python/RaspberryPi/uFire_EC.py:85-93 | issues the temperature command, measures, and returns tempC |
| PyDriver.UfirePy.SetTemp | python/RaspberryPi/uFire_EC.py:146-149 | stores the rounded temperature and updates tempC and tempF only |
| PyDriver.UfirePy.UseTemperatureCompensation | python/RaspberryPi/uFire_EC.py:163-168 | the config byte gets the compensation bit as asked |
| PyDriver.UfirePy.SetTempConstant | python/RaspberryPi/uFire_EC.py:151-152 | stores the rounded constant |
| PyDriver.UfirePy.GetTempConstant | python/RaspberryPi/uFire_EC.py:154-155 | returns the rounded constant |
| PyDriver.UfirePy.SetTempCoefficient | python/RaspberryPi/uFire_EC.py:157-158 | stores the rounded coefficient |
| PyDriver.UfirePy.GetTempCoefficient | python/RaspberryPi/uFire_EC.py:160-161 | returns the rounded coefficient |
| PyDriver.UfirePy.MsToMs25 | python/RaspberryPi/uFire_EC.py:143-144 | returns the rescale with the device's rounded coefficient, or None exactly when the division raises ZeroDivisionError |
| PyDriver.UfirePy.CalibrateProbe | python/RaspberryPi/uFire_EC.py:95-100 | registers become PyCalibrationRegs with the probe opcode; reports whether the rescale raised, in which case only the coefficient read happened |
| PyDriver.UfirePy.CalibrateProbeLow | python/RaspberryPi/uFire_EC.py:102-107 | the same with the low opcode |
| PyDriver.UfirePy.CalibrateProbeHigh | python/RaspberryPi/uFire_EC.py:109-116 | the same with the high opcode; returns the rounded high reading, or None with no read-back when the rescale raised |
| PyDriver.UfirePy.GetCalibrateOffset | python/RaspberryPi/uFire_EC.py:118-119 | returns the rounded offset |
| PyDriver.UfirePy.GetCalibrateHighReference | python/RaspberryPi/uFire_EC.py:121-122 | returns the rounded high reference |
| PyDriver.UfirePy.GetCalibrateLowReference | python/RaspberryPi/uFire_EC.py:124-125 | returns the rounded low reference |
| PyDriver.UfirePy.GetCalibrateHighReading | python/RaspberryPi/uFire_EC.py:127-128 | returns the rounded high reading |
| PyDriver.UfirePy.GetCalibrateLowReading | python/RaspberryPi/uFire_EC.py:130-131 | returns the rounded low reading |
| PyDriver.UfirePy.SetCalibrateOffset | python/RaspberryPi/uFire_EC.py:133-134 | stores the rounded offset |
| PyDriver.UfirePy.SetDualPointCalibration | python/RaspberryPi/uFire_EC.py:136-141 | registers become DualPointRegs of the four rounded values |
| PyDriver.PyDualPointTraceOrder | python/RaspberryPi/uFire_EC.py:136-141 | setDualPointCalibration selects and stores low reference, high reference, low reading, high reading, in that order |
| PyDriver.UfirePy.GetVersion | python/RaspberryPi/uFire_EC.py:170-171 | returns the version register |
| PyDriver.UfirePy.GetFirmware | python/RaspberryPi/uFire_EC.py:173-174 | returns the firmware register |
| PyDriver.UfirePy.Reset | python/RaspberryPi/uFire_EC.py:176-185 | registers become PyResetRegs |
| PyDriver.ValidAddress | python/RaspberryPi/uFire_EC.py:188 | the guard `1 <= i2cAddress <= 127`; stated by UfirePy.SetI2CAddress |
| PyDriver.UfirePy.SetI2CAddress | python/RaspberryPi/uFire_EC.py:187-191 | an address in 1..127 is sent and recorded; any other leaves the driver and the device as they were |
| PyDriver.UfirePy.Connected | python/RaspberryPi/uFire_EC.py:193-199 | true iff the version register is not 0xFF |
| PyDriver.UfirePy.ReadEEPROM | python/RaspberryPi/uFire_EC.py:201-204 | sends the cell and the read command; returns the rounded buffer |
| PyDriver.UfirePy.WriteEEPROM | python/RaspberryPi/uFire_EC.py:206-209 | sends the cell, the value and the write command |
| PyDriver.UfirePy.SetBlocking | python/RaspberryPi/uFire_EC.py:211-215 | blocking becomes BlockingAfter of the argument |
| PyDriver.UfirePy.GetBlocking | python/RaspberryPi/uFire_EC.py:217-218 | returns the flag |
| PyDriver.UfirePy.ReadData | python/RaspberryPi/uFire_EC.py:220-226 | updates the readings, then reads the calibration registers; no register changes |
| RustProbe.ByteWritesStoreTheFloat | rust/src/lib.rs:421-435 | the four single-byte writes store the same register file as one float write, and the float reads back |
| RustProbe.RustFloatWriteTrace | rust/src/lib.rs:421-435 | _write_register's traffic: a select, then four single-byte writes; stated by RustFloatWriteTargets |
| RustProbe.ByteWriteTargets | rust/src/lib.rs:421-435 | a single-byte write targets its register and selects nothing |
| RustProbe.FourByteWritesTargets | rust/src/lib.rs:421-435 | the four byte writes target register + 0..3 in order |
| RustProbe.RustFloatWriteTargets | rust/src/lib.rs:421-435 | a float write selects its register once and writes its four bytes in order |
| RustProbe.RustResetRegs | rust/src/lib.rs:319-328 | the register file after reset; stated by RustResetIsCppWrites and RustResetEffects |
| RustProbe.RustResetIsCppWrites | rust/src/lib.rs:319-328 | Rust reset's registers are those of the C++ writes with NaN, 25 and 0.019 |
| RustProbe.RustResetEffects | rust/src/lib.rs:319-328 | Rust reset clears calibration and restores the defaults, but leaves the config byte; C++ reset is that plus compensation off |
| RustProbe.RustResetTraceOrder | rust/src/lib.rs:319-328 | reset selects low reference, high reference, low reading, high reading, offset, constant and coefficient, each followed by its four byte writes |
| RustProbe.RustMeasureEcRegs | rust/src/lib.rs:147-154 | the register file after measure_ec's writes; stated by RustMeasureEcEffects |
| RustProbe.RustMeasureEcEffects | rust/src/lib.rs:147-154 | measure_ec turns compensation on, stores the temperature, issues the EC command and leaves the mS register |
| RustProbe.RustCalibrationRegs | rust/src/lib.rs:102-137 | the register file after a calibration; stated by RustCalibrationIsUnscaled |
| RustProbe.RustCalibrationIsUnscaled | rust/src/lib.rs:102-137 | Rust calibration writes the solution unscaled, which equals the C++ write at 25 °C under IEEE arithmetic |
| RustProbe.RustWriteEepromRegs | rust/src/lib.rs:276-281 | the register file after write_eeprom; stated by RustWriteEepromReturnsValue |
| RustProbe.RustWriteEepromReturnsValue | rust/src/lib.rs:276-281 | write_eeprom leaves the value in the buffer and the cell in the solution register |
| RustProbe.EcProbe.constructor | rust/src/lib.rs:63-66 | the probe is opened at the address given |
| RustProbe.EcProbe.ChangeRegister | rust/src/lib.rs:451-455 | selects the register |
| RustProbe.EcProbe.WriteByteData | rust/src/lib.rs:425-432 | a byte write stores one register |
| RustProbe.EcProbe.WriteRegister | rust/src/lib.rs:421-435 | registers become StoreFloat, as a select and four byte writes |
| RustProbe.EcProbe.WriteBytes | rust/src/lib.rs:425-432 | the four byte writes store b0..b3 at register + 0..3 |
| RustProbe.EcProbe.ReadRegister | rust/src/lib.rs:437-449 | returns the float in the register, little-endian, changing no register |
| RustProbe.EcProbe.ReadByteRegister | rust/src/lib.rs:290-293 | returns the byte in the register |
| RustProbe.EcProbe.MeasureTemp | rust/src/lib.rs:75-80 | issues the temperature command and returns the temperature register |
| RustProbe.EcProbe.SetTemp | rust/src/lib.rs:89-93 | stores the temperature |
| RustProbe.EcProbe.CalibrateSingle | rust/src/lib.rs:102-107 | writes the solution and the probe opcode |
| RustProbe.EcProbe.CalibrateProbeLow | rust/src/lib.rs:117-122 | writes the solution and the low opcode |
| RustProbe.EcProbe.CalibrateProbeHigh | rust/src/lib.rs:132-137 | writes the solution and the high opcode |
| RustProbe.EcProbe.MeasureEc | rust/src/lib.rs:147-154 | registers become RustMeasureEcRegs; returns the mS register |
| RustProbe.EcProbe.MeasureSalinity | rust/src/lib.rs:163-168 | stores the temperature, issues the EC command, returns the salinity register |
| RustProbe.EcProbe.UseTemperatureCompensation | rust/src/lib.rs:178-190 | the config byte gets the compensation bit as asked |
| RustProbe.EcProbe.MeasureRaw | rust/src/lib.rs:199-204 | issues the EC command and returns the raw register |
| RustProbe.EcProbe.SetTempConstant | rust/src/lib.rs:213-217 | stores the constant |
| RustProbe.EcProbe.GetTempConstant | rust/src/lib.rs:226-228 | returns the constant register |
| RustProbe.EcProbe.SetTempCoefficient | rust/src/lib.rs:237-241 | stores the coefficient |
| RustProbe.EcProbe.GetTempCoefficient | rust/src/lib.rs:250-252 | returns the coefficient register |
| RustProbe.EcProbe.ReadEeprom | rust/src/lib.rs:262-266 | sends the cell and the read command; returns the buffer |
| RustProbe.EcProbe.WriteEeprom | rust/src/lib.rs:276-281 | sends the cell, the value and the write command; returns the buffer |
| RustProbe.EcProbe.GetVersion | rust/src/lib.rs:290-293 | returns the version register |
| RustProbe.EcProbe.GetFirmware | rust/src/lib.rs:302-305 | returns the firmware register |
| RustProbe.EcProbe.Reset | rust/src/lib.rs:319-328 | registers become RustResetRegs |
| RustProbe.EcProbe.SetI2cAddress | rust/src/lib.rs:337-342 | sends the new address as a float and the I2C command |
| RustProbe.EcProbe.SetDualPointCalibration | rust/src/lib.rs:352-364 | registers become DualPointRegs, as four float writes |
| RustProbe.EcProbe.GetCalibrateOffset | rust/src/lib.rs:373-375 | returns the offset register |
| RustProbe.EcProbe.GetCalibrateHighReference | rust/src/lib.rs:384-386 | returns the high reference register |
| RustProbe.EcProbe.GetCalibrateHighReading | rust/src/lib.rs:395-397 | returns the high reading register |
| RustProbe.EcProbe.GetCalibrateLowReference | rust/src/lib.rs:406-408 | returns the low reference register |
| RustProbe.EcProbe.GetCalibrateLowReading | rust/src/lib.rs:417-419 | returns the low reading register |
| EcJson.IndexOf | src/uFire_EC_JSON.cpp:12 | the first position of the character, or -1 iff it does not occur |
| EcJson.CutIsLossless | src/uFire_EC_JSON.cpp:12-14 | substring(0, i) and remove(0, i) split the line without loss: their concatenation is the line, for every i including -1 |
| EcJson.CutAtFirstSpace | src/uFire_EC_JSON.cpp:12-14 | cutting at indexOf(" ") keeps a part with no space and leaves a part that is empty or starts with that space |
| EcJson.TrimStartSpec | src/uFire_EC_JSON.cpp:13-17 | the start trim is a suffix that starts with a non-space, and it drops only whitespace |
| EcJson.TrimEndSpec | src/uFire_EC_JSON.cpp:13-17 | the end trim is a prefix that ends with a non-space, and it drops only whitespace |
| EcJson.TrimEdges | src/uFire_EC_JSON.cpp:13-17 | a trimmed string is empty or has no whitespace at either end |
| EcJson.TrimKeepsInterior | src/uFire_EC_JSON.cpp:13-17 | trim adds no character |
| EcJson.TrimStart | src/uFire_EC_JSON.cpp:13-17 | the leading half of String::trim; its meaning is stated by TrimStartSpec |
| EcJson.TrimEnd | src/uFire_EC_JSON.cpp:13-17 | the trailing half of String::trim; its meaning is stated by TrimEndSpec |
| EcJson.Trim | src/uFire_EC_JSON.cpp:13-17 | String::trim, both ends; stated by TrimEdges, TrimKeepsInterior and TrimWord |
| EcJson.TrimEndKeepsWord | src/uFire_EC_JSON.cpp:15 | trimming the end of a word followed by more text keeps the whole word at the front |
| EcJson.TrimWord | src/uFire_EC_JSON.cpp:13-17 | trim leaves a word with no whitespace as it is |
| EcJson.Tokenize | src/uFire_EC_JSON.cpp:12-17 | processJSON's split of the line into command and parameter; stated by TokensAreTrimmed, NoSpaceNoParameter, LeadingSpaceEmptiesCommand, TokenizeCommand and TokenizeLine |
| EcJson.TokensAreTrimmed | src/uFire_EC_JSON.cpp:12-17 | the command and the parameter contain no space and no whitespace at their ends |
| EcJson.NoSpaceNoParameter | src/uFire_EC_JSON.cpp:12-17 | a line with no space is all command and has an empty parameter |
| EcJson.LeadingSpaceEmptiesCommand | src/uFire_EC_JSON.cpp:12-13 | a line that starts with a space has an empty command |
| EcJson.TokenizeCommand | src/uFire_EC_JSON.cpp:12-17 | a bare word is the command, with no parameter |
| EcJson.IndexAfterWord | src/uFire_EC_JSON.cpp:12 | in "word rest" the first space is right after the word |
| EcJson.RemainderOfLine | src/uFire_EC_JSON.cpp:14-15 | after removing the command and trimming, the rest starts with the parameter, followed by nothing or a space |
| EcJson.FirstWordOf | src/uFire_EC_JSON.cpp:16-17 | a rest that starts with a word and then a space or its end yields that word as the parameter |
| EcJson.TokenizeLine | src/uFire_EC_JSON.cpp:12-17 | "command parameter rest" splits into the command and the parameter |
| EcJson.CommandTable | src/uFire_EC_JSON.cpp:20-30 | the table has all eleven commands, with distinct names |
| EcJson.Name | src/uFire_EC_JSON.cpp:20-30 | the eleven command strings, each also its reply key; stated by CommandTable (eleven distinct names) and LookupName |
| EcJson.Lookup | src/uFire_EC_JSON.cpp:20-30 | a found command has the name given; no command is found iff no name matches |
| EcJson.LookupName | src/uFire_EC_JSON.cpp:20-30 | the lookup finds a command iff the text is its name |
| EcJson.SlotValue | src/uFire_EC_JSON.cpp:109-113 | a calibration slot answers "-" when isnan holds for it (also at :126, :148, :165 and :198), else its value; stated by SlotRepliesDash |
| EcJson.ReadSlot | src/uFire_EC_JSON.cpp:119-134 | a getter handler: one float read, replied under its key, as "-" for NaN when asked; stated by SlotRepliesDash |
| EcJson.MeasureHandler | src/uFire_EC_JSON.cpp:175-184 | ec: measureEC at the parsed temperature, replying mS rounded to hundredths; its readings are Measurement of the new registers |
| EcJson.SetterHandler | src/uFire_EC_JSON.cpp:64-95 | etc and eco: the write happens only for a non-empty parameter, then the register is read back; stated by SetterRepliesParameter and EmptyParameterOnlyReads |
| EcJson.CalibrateHandler | src/uFire_EC_JSON.cpp:97-117 | ehrf, elrf and eo: calibration only for a non-empty parameter, then the shown slot; stated by CalibrationRuns, SlotRepliesDash and EmptyParameterOnlyReads |
| EcJson.TemperatureHandler | src/uFire_EC_JSON.cpp:209-217 | ect: measureTemp, replying tempC rounded to hundredths |
| EcJson.Respond | src/uFire_EC_JSON.cpp:43-217 | the eleven handlers by command; stated by ReplyKeyIsName, ReadingsOnlyFromMeasurements and ConnectedAndReset |
| EcJson.Serve | src/uFire_EC_JSON.cpp:20-30 | the dispatch: an unknown command gives no reply and no effect; stated by ProcessReplies |
| EcJson.Process | src/uFire_EC_JSON.cpp:10-30 | tokenize, then dispatch; stated by ProcessReplies and ProcessLine |
| EcJson.ValueAfter | src/uFire_EC_JSON.cpp:32-40 | the adapter's value: `toFloat` of the whole serialised reply text (not the measured number), or -1 without a reply |
| EcJson.ReplyKeyIsName | src/uFire_EC_JSON.cpp:43-217 | every handler answers under a key equal to its command's name |
| EcJson.ProcessReplies | src/uFire_EC_JSON.cpp:10-40 | there is a reply iff the command names a handler; it carries that key; with none, nothing changes and the value is -1 |
| EcJson.ProcessLine | src/uFire_EC_JSON.cpp:10-40 | a line "name parameter ..." runs exactly that handler with that parameter |
| EcJson.EmptyParameterOnlyReads | src/uFire_EC_JSON.cpp:64-207 | with no parameter, the setters and calibrations only read the current value |
| EcJson.SetterRepliesParameter | src/uFire_EC_JSON.cpp:64-95 | etc and eco with a parameter store it and reply with it |
| EcJson.CalibrationRuns | src/uFire_EC_JSON.cpp:97-207 | ehrf, elrf and eo with a parameter run the matching calibration |
| EcJson.SlotRepliesDash | src/uFire_EC_JSON.cpp:97-207 | a calibration reply is "-" iff its register holds NaN, and the value otherwise |
| EcJson.ReadingsOnlyFromMeasurements | src/uFire_EC_JSON.cpp:43-217 | only ec and ect change the driver's readings |
| EcJson.ConnectedAndReset | src/uFire_EC_JSON.cpp:43-62 | ecc replies whether the version register is not 0xFF and changes no register; ecr resets and replies "ecr" |
| EcJson.JsonAdapter.constructor | src/uFire_EC_JSON.cpp:5-8 | the adapter holds the driver given |
| EcJson.JsonAdapter.Begin | src/uFire_EC_JSON.cpp:5-8 | begin points the adapter at the driver |
| EcJson.JsonAdapter.Measure | src/uFire_EC_JSON.cpp:175-184 | the device and the reply become MeasureHandler's |
| EcJson.JsonAdapter.Temperature | src/uFire_EC_JSON.cpp:209-217 | the device and the reply become TemperatureHandler's |
| EcJson.JsonAdapter.TempConstant | src/uFire_EC_JSON.cpp:64-78 | the device and the reply become SetterHandler's for the constant register |
| EcJson.JsonAdapter.TempCoefficient | src/uFire_EC_JSON.cpp:80-95 | the device and the reply become SetterHandler's for the coefficient register |
| EcJson.JsonAdapter.HighReference | src/uFire_EC_JSON.cpp:97-117 | high calibration, when a parameter is given, then the high reference |
| EcJson.JsonAdapter.HighReading | src/uFire_EC_JSON.cpp:119-134 | the high reading, or "-" for NaN |
| EcJson.JsonAdapter.LowReference | src/uFire_EC_JSON.cpp:136-156 | low calibration, when a parameter is given, then the low reference |
| EcJson.JsonAdapter.LowReading | src/uFire_EC_JSON.cpp:158-173 | the low reading, or "-" for NaN |
| EcJson.JsonAdapter.Offset | src/uFire_EC_JSON.cpp:186-207 | single-point calibration, when a parameter is given, then the offset |
| EcJson.JsonAdapter.ResetDevice | src/uFire_EC_JSON.cpp:43-52 | resets and replies "ecr" |
| EcJson.JsonAdapter.IsConnected | src/uFire_EC_JSON.cpp:54-62 | replies whether the device answers |
| EcJson.JsonAdapter.Dispatch | src/uFire_EC_JSON.cpp:20-30 | runs the handler of the command, as Respond specifies |
| EcJson.JsonAdapter.Answer | src/uFire_EC_JSON.cpp:20-40 | looks the command up, and only a known command runs a handler |
| EcJson.JsonAdapter.ProcessJson | src/uFire_EC_JSON.cpp:10-40 | tokenizes, dispatches and replies as Process specifies; value is `toFloat` of the serialised reply, or -1 with no reply |

## Left out

- Timing: every `delay`, `time.sleep` and `thread::sleep` is left out. The settle times are kept as data (`RegisterMap.CppTiming`, `PythonTiming`, `RustTiming`, and the delay `begin` picks).
- Bus errors: the stand-in always acknowledges. `endTransmission` results, Python I/O exceptions and the Rust `Result`/`?` error paths are not modelled.
- Byte order: the model assumes a little-endian host. The drivers write a float in the host's native byte order (the C++ byte casts at src/uFire_EC.cpp:312-315, Python's `struct.pack("f")` at python/RaspberryPi/uFire_EC.py:280, Rust's `mem::transmute` at rust/src/lib.rs:421-435), and `Binary32.Split`/`Join` fix that order to little-endian. On a big-endian host the Rust write and its `LittleEndian::read_f32` read-back (rust/src/lib.rs:448) would disagree; that case is not modelled.
- Floating-point arithmetic: add, sub, mul, div, float-to-long and int-to-float are an uninterpreted `FloatUnit`. Only the four IEEE identities of `IeeeIdentities` are assumed, and only as lemma hypotheses.
- Python numbers: Python doubles are modelled as binary32 patterns. `round_total_digits` and `magnitude` are one uninterpreted `round`, and their `OverflowError` on infinities is not modelled.
- Python argument conversion: the `int()` and `float()` calls on arguments are not modelled. `measureEC`'s `temp` and `temp_constant` are `Option` values, with `None` for a falsy argument.
- PyDriver.PyReadingGivesProducts: requires a non-infinite rounded mS, which is the `math.isinf` test of `_updateRegisters`; the other branch is PyInfiniteMsGivesSentinels. With the real `round_total_digits` that branch is reached only for a zero raw, since an infinite register makes `magnitude` raise `OverflowError` (`math.floor` of an infinite logarithm), which the model does not follow.
- PyDriver.RoundingFacts: five facts about `round_total_digits` (`magnitude` and `round`, uFire_EC.py:313-319) are taken as a lemma hypothesis, not derived, since the rounding is uninterpreted. (1) NaN stays NaN: `magnitude` of NaN is 0 and `round` of NaN is NaN. (2) A value rounds to a zero exactly when it is a zero: `magnitude(0)` is 0 and `round` keeps 0, while a nonzero finite value keeps seven significant digits and so never becomes 0. (3) The NaN pattern the drivers write is a fixed point, by (1) and because Python's `float('nan')` is that quiet NaN. (4) 25 has two digits, so rounding to five decimals keeps it. (5) 0.019 rounded to eight decimals is 0.019, the binary32 nearest to it. RawZeroAgrees, NaNReadingDiverges and PyResetMatchesCpp take these facts as a hypothesis, so what they state holds only as far as the facts do.
- JSON conversions: ArduinoJson serialisation and `String::toFloat` are given as the functions of `Conversions`, and so is the output rounding `centi`, which rounds half up to hundredths (`floor(x * 100 + 0.5) / 100`). The adapter's `value` field is `toFloat` applied to the whole serialised text `{"key":...}` (uFire_EC_JSON.cpp:34). Arduino's `String::toFloat` reads text that starts with `{` as 0, so on the device that field is 0 whenever there is a reply. With `toFloat` left uninterpreted, the model does not derive that 0. In the source `centi` computes a double (uFire_EC_JSON.cpp:181 and :214), which ArduinoJson serialises as a double; the model narrows it to a binary32 pattern (`centi: bv32 -> bv32`), so digits beyond single precision are not modelled.
- JSON default arguments: the adapter calls `measureEC`, `calibrateProbe`, `calibrateProbeLow` and `calibrateProbeHigh` with one argument (uFire_EC_JSON.cpp:103, 142, 181 and 192). No declaration in the sources admits those calls: uFire_EC.h:78-89 declares `measureEC(float, bool)`, `measureEC()` and `void calibrateProbe*(float, float)`, none with defaults, while uFire_EC.cpp defines `float measureEC(float, float)` and `float calibrateProbe*(float, float)`. The model takes the missing second arguments as parameters (`measureConstant`, `calibrationTemp`).
- JsonAdapter.ProcessJson: a serialised one-key object is taken never to be empty, so the source's `value != ""` test is modelled as "a command matched".
- Constructors: the C++ constructor bodies and the Python I2C bus setup are not part of the model. The constructors take the initial state as given.
- Bits.BitSet and Bits.BitWrite: these state the set bit only for bits 0..7, since a byte has no higher bit.
- PyDriver.BitAssign: requires index < 8. Its only caller passes bit 1.
- Register helpers: `WriteRegister`, `ReadRegister` and the trace functions require register + 4 <= 56. Every caller passes a header constant, so the Rust `register + i` overflow of a `u8` is never reached.
- Declarations: `uFire_EC_MP.h` and `uFire_EC_JSON.h` are declaration-only. The header's declarations of functions that the sources do not define are not modelled.
- The BLE adapter (`uFire_EC_BLE`) is not part of this model.
- The demo programs (`basic.py`, `shell.py`, `main.rs`) are not part of this model.
- Device firmware: the stand-in runs no firmware. A measurement or calibration command only lands in the task register, and the values the device would compute are whatever the registers already hold.
- Concurrency and the shared global `i2c` handle of the Python driver are not modelled.
