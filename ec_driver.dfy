/** The Arduino/C++ driver (class uFire_EC), run against the register-file
    stand-in. Each public operation is a method of UfireEc whose contract gives
    the new register file as a specification function of the old one, the
    transactions it sends, and the new driver fields; the lemmas below state
    what those specification functions promise. */
module EcDriver {
  import opened Binary32
  import opened Bits
  import opened RegisterMap
  import opened Bus

  /** The public measurement fields of the driver. */
  datatype Snapshot = Snapshot(
    raw: bv32, mS: bv32, uS: bv32, s: bv32,
    ppm500: int, ppm640: int, ppm700: int,   // `long` fields
    salinityPSU: bv32, tempC: bv32, tempF: bv32)

  /** ((tempC * 9) / 5) + 32 in the target's float arithmetic. */
  function Fahrenheit(fu: FloatUnit, t: bv32): bv32 {
    fu.add(fu.div(fu.mul(t, Nine), Five), ThirtyTwo)
  }

  /** The divisor of _mS_to_mS25: 1 - coef * (tempC - 25). */
  function RescaleDivisor(fu: FloatUnit, coef: bv32, tempC: bv32): bv32 {
    fu.sub(One, fu.mul(coef, fu.sub(tempC, TwentyFive)))
  }

  /** _mS_to_mS25: mS / (1 - coef * (tempC - 25)). */
  function ToMs25(fu: FloatUnit, mS: bv32, coef: bv32, tempC: bv32): bv32 {
    fu.div(mS, RescaleDivisor(fu, coef, tempC))
  }

  /** At 25 degrees the divisor is exactly 1 for every finite coefficient. */
  lemma RescaleDivisorAt25(fu: FloatUnit, coef: bv32)
    requires IeeeIdentities(fu) && IsFinite(coef)
    ensures RescaleDivisor(fu, coef, TwentyFive) == One
  {
    LiteralValues();
    var d := fu.sub(TwentyFive, TwentyFive);
    assert d == PosZero;
    assert IsZero(fu.mul(coef, d));
  }

  /** At 25 degrees the rescale changes nothing. */
  lemma RescaleIdentityAt25(fu: FloatUnit, mS: bv32, coef: bv32)
    requires IeeeIdentities(fu) && IsFinite(coef) && !IsNaN(mS)
    ensures ToMs25(fu, mS, coef, TwentyFive) == mS
  {
    LiteralValues();
    RescaleDivisorAt25(fu, coef);
  }

  /** A value already rescaled to 25 degrees is left as it is by a second rescale at 25. */
  lemma RescaleIdempotentAt25(fu: FloatUnit, mS: bv32, coef: bv32, tempC: bv32)
    requires IeeeIdentities(fu) && IsFinite(coef) && !IsNaN(ToMs25(fu, mS, coef, tempC))
    ensures ToMs25(fu, ToMs25(fu, mS, coef, tempC), coef, TwentyFive) == ToMs25(fu, mS, coef, tempC)
  {
    RescaleIdentityAt25(fu, ToMs25(fu, mS, coef, tempC), coef);
  }

  // ---------------------------------------------------------------------------
  // _updateRegisters

  /** The conductivity _updateRegisters works with: NaN when raw reads zero, the mS register otherwise. */
  function MsCandidate(regs: Registers): bv32 {
    if FloatEq(LoadFloat(regs, RawRegister), PosZero) then QuietNaN else LoadFloat(regs, MsRegister)
  }

  /** The `mS == mS` test. */
  predicate HasReading(regs: Registers) {
    FloatEq(MsCandidate(regs), MsCandidate(regs))
  }

  /** The fields _updateRegisters fills from the values it read: the products of
      mS when it is a number (salinity then being the register's value), the -1
      sentinels otherwise, and Fahrenheit unless the temperature is -127. */
  function Readout(fu: FloatUnit, raw: bv32, mS: bv32, salinity: bv32, tempC: bv32): Snapshot {
    var tempF := if FloatEq(tempC, MinusOneTwentySeven) then MinusOneTwentySeven else Fahrenheit(fu, tempC);
    if FloatEq(mS, mS) then
      Snapshot(raw, mS, fu.mul(mS, Thousand), fu.div(mS, Thousand),
        fu.toLong(fu.mul(mS, FiveHundred)), fu.toLong(fu.mul(mS, SixForty)), fu.toLong(fu.mul(mS, SevenHundred)),
        salinity, tempC, tempF)
    else
      Snapshot(raw, MinusOne, MinusOne, MinusOne, -1, -1, -1, MinusOne, tempC, tempF)
  }

  /** The snapshot _updateRegisters leaves for a register file. */
  function Measurement(fu: FloatUnit, regs: Registers): Snapshot {
    Readout(fu, LoadFloat(regs, RawRegister), MsCandidate(regs), LoadFloat(regs, SalinityRegister), LoadFloat(regs, TempRegister))
  }

  /** The float registers _updateRegisters reads, in order. */
  function MeasurementReads(regs: Registers): seq<nat> {
    [RawRegister]
    + (if FloatEq(LoadFloat(regs, RawRegister), PosZero) then [] else [MsRegister])
    + (if HasReading(regs) then [SalinityRegister] else [])
    + [TempRegister]
  }

  /** The transactions of _updateRegisters, appended to t. */
  function MeasurementTrace(t: Log, a: int, regs: Registers): Log {
    var t1 := ReadFloatTrace(t, a, regs, RawRegister);
    var t2 := if FloatEq(LoadFloat(regs, RawRegister), PosZero) then t1 else ReadFloatTrace(t1, a, regs, MsRegister);
    var t3 := if HasReading(regs) then ReadFloatTrace(t2, a, regs, SalinityRegister) else t2;
    ReadFloatTrace(t3, a, regs, TempRegister)
  }

  /** The registers an update reads once its two tests are decided: raw, mS
      unless raw is zero, salinity when there is a reading, and temperature. */
  function UpdateReads(zero: bool, reading: bool): seq<nat> {
    [RawRegister] + (if zero then [] else [MsRegister]) + (if reading then [SalinityRegister] else []) + [TempRegister]
  }

  /** Whatever the outcome of the two tests, the update's reads are one float
      read per register of UpdateReads, in that order. */
  lemma UpdateTraceReads(t: Log, a: int, regs: Registers, zero: bool, reading: bool)
    ensures var t1 := ReadFloatTrace(t, a, regs, RawRegister);
      var t2 := if zero then t1 else ReadFloatTrace(t1, a, regs, MsRegister);
      var t3 := if reading then ReadFloatTrace(t2, a, regs, SalinityRegister) else t2;
      var t4 := ReadFloatTrace(t3, a, regs, TempRegister);
      t4 == ReadsTrace(t, a, regs, UpdateReads(zero, reading))
      && Selected(t4) == Selected(t) + UpdateReads(zero, reading)
  {
    var rs := UpdateReads(zero, reading);
    var t1 := ReadFloatTrace(t, a, regs, RawRegister);
    var t2 := if zero then t1 else ReadFloatTrace(t1, a, regs, MsRegister);
    var t3 := if reading then ReadFloatTrace(t2, a, regs, SalinityRegister) else t2;
    var xs: seq<nat> := [RawRegister];
    var ys := if zero then xs else xs + [MsRegister];
    var zs := if reading then ys + [SalinityRegister] else ys;
    assert xs[..0] == [];
    assert ReadsTrace(t, a, regs, xs) == t1;
    if !zero {
      assert ys[..|ys| - 1] == xs;
    }
    assert ReadsTrace(t, a, regs, ys) == t2;
    if reading {
      assert zs[..|zs| - 1] == ys;
    }
    assert ReadsTrace(t, a, regs, zs) == t3;
    assert rs == zs + [TempRegister];
    assert rs[..|rs| - 1] == zs;
    ReadsTraceSelects(t, a, regs, rs);
  }

  /** _updateRegisters performs one float read per register of MeasurementReads, in that order. */
  lemma MeasurementTraceReads(t: Log, a: int, regs: Registers)
    ensures MeasurementTrace(t, a, regs) == ReadsTrace(t, a, regs, MeasurementReads(regs))
    ensures Selected(MeasurementTrace(t, a, regs)) == Selected(t) + MeasurementReads(regs)
  {
    var zero := FloatEq(LoadFloat(regs, RawRegister), PosZero);
    var reading := HasReading(regs);
    assert MeasurementReads(regs) == UpdateReads(zero, reading);
    UpdateTraceReads(t, a, regs, zero, reading);
  }

  lemma MeasurementReadsAreFloatRegisters(regs: Registers)
    ensures forall i :: 0 <= i < |MeasurementReads(regs)| ==> MeasurementReads(regs)[i] in FloatRegisters
    ensures forall i :: 0 <= i < |MeasurementReads(regs)| ==> MeasurementReads(regs)[i] + 4 <= Size
  {
  }

  /** A reading exists exactly when raw is not a zero and the mS register does not hold NaN. */
  lemma HasReadingExactly(regs: Registers)
    ensures HasReading(regs) <==> !IsZero(LoadFloat(regs, RawRegister)) && !IsNaN(LoadFloat(regs, MsRegister))
  {
    ZeroComparison(LoadFloat(regs, RawRegister));
  }

  /** Without a reading every conductivity field is -1 and the salinity register is not read. */
  lemma NoReadingGivesSentinels(fu: FloatUnit, regs: Registers)
    requires !HasReading(regs)
    ensures var m := Measurement(fu, regs);
      m.mS == MinusOne && m.uS == MinusOne && m.s == MinusOne && m.salinityPSU == MinusOne
      && m.ppm500 == -1 && m.ppm640 == -1 && m.ppm700 == -1
    ensures SalinityRegister !in MeasurementReads(regs)
  {
  }

  /** With a reading the fields are the mS register and its products, and salinity is read. */
  lemma ReadingGivesProducts(fu: FloatUnit, regs: Registers)
    requires HasReading(regs)
    ensures var m := Measurement(fu, regs); var mS := LoadFloat(regs, MsRegister);
      m.mS == mS && m.uS == fu.mul(mS, Thousand) && m.s == fu.div(mS, Thousand)
      && m.ppm500 == fu.toLong(fu.mul(mS, FiveHundred))
      && m.ppm640 == fu.toLong(fu.mul(mS, SixForty))
      && m.ppm700 == fu.toLong(fu.mul(mS, SevenHundred))
      && m.salinityPSU == LoadFloat(regs, SalinityRegister)
    ensures MeasurementReads(regs) == [RawRegister, MsRegister, SalinityRegister, TempRegister]
  {
  }

  /** The temperature is read on both branches, last; -127 passes through to Fahrenheit. */
  lemma TemperatureAlwaysRead(fu: FloatUnit, regs: Registers)
    ensures var m := Measurement(fu, regs);
      m.tempC == LoadFloat(regs, TempRegister)
      && (m.tempF == MinusOneTwentySeven <== m.tempC == MinusOneTwentySeven)
      && (m.tempC != MinusOneTwentySeven ==> m.tempF == Fahrenheit(fu, m.tempC))
    ensures var rs := MeasurementReads(regs); rs[0] == RawRegister && rs[|rs| - 1] == TempRegister
  {
    SentinelComparison(LoadFloat(regs, TempRegister));
  }

  /** The mS a measurement reports is never NaN. */
  lemma ReportedMsIsNeverNaN(fu: FloatUnit, regs: Registers)
    ensures !IsNaN(Measurement(fu, regs).mS)
  {
  }

  // ---------------------------------------------------------------------------
  // Register-level effects of the operations

  /** _write_register's one frame: the register number, then the value's bytes in memory order. */
  function FloatFrame(r: nat, f: bv32): seq<bv8>
    requires r < 256
  {
    [r as bv8] + Split(f)
  }

  /** The frame stores the value at r..r+3, where it reads back, and changes no other byte. */
  lemma FloatFrameRoundTrip(regs: Registers, r: nat, f: bv32)
    requires r + 4 <= Size
    ensures |FloatFrame(r, f)| == 5
    ensures Store(regs, FloatFrame(r, f)) == StoreFloat(regs, r, f)
    ensures LoadFloat(Store(regs, FloatFrame(r, f)), r) == f
    ensures forall i :: 0 <= i < Size && (i < r || r + 4 <= i) ==> Store(regs, FloatFrame(r, f))[i] == regs[i]
  {
    assert FloatFrame(r, f)[1..] == Split(f);
    RegisterByte(r);
    LoadAfterStore(regs, r, f);
  }

  function FloatWriteTrace(t: Log, a: int, r: nat, f: bv32): Log
    requires r < 256
  {
    Then(t, Write(a, FloatFrame(r, f)))
  }

  /** _write_register is one frame: it stores at its register and selects nothing. */
  lemma FloatWriteTraceOrder(t: Log, a: int, r: nat, f: bv32)
    requires r < Size
    ensures Stored(FloatWriteTrace(t, a, r, f)) == Stored(t) + [r]
    ensures Selected(FloatWriteTrace(t, a, r, f)) == Selected(t)
  {
    RegisterByte(r);
    assert Selected(FloatWriteTrace(t, a, r, f)) == Selected(t) + [];
  }

  /** useTemperatureCompensation's read-modify-write of the config byte. */
  function CompensationRegs(regs: Registers, b: bool): Registers {
    StoreByte(regs, ConfigRegister, BitWrite(regs[ConfigRegister], TempCompensationBit, b))
  }

  function CompensationTrace(t: Log, a: int, regs: Registers, b: bool): Log {
    WriteByteTrace(ReadByteTrace(t, a, regs, ConfigRegister), a, ConfigRegister,
      BitWrite(regs[ConfigRegister], TempCompensationBit, b))
  }

  /** The read-modify-write selects the config byte to read it, then stores it. */
  lemma CompensationTraceOrder(t: Log, a: int, regs: Registers, b: bool)
    ensures Selected(CompensationTrace(t, a, regs, b)) == Selected(t) + [ConfigRegister]
    ensures Stored(CompensationTrace(t, a, regs, b)) == Stored(t) + [ConfigRegister]
  {
    ReadByteTraceOrder(t, a, regs, ConfigRegister);
    WriteByteTraceOrder(ReadByteTrace(t, a, regs, ConfigRegister), a, ConfigRegister,
      BitWrite(regs[ConfigRegister], TempCompensationBit, b));
  }

  /** Only bit 1 of the config byte changes; the dual-point bit and every other byte stay. */
  lemma CompensationChangesOnlyItsBit(regs: Registers, b: bool)
    ensures BitRead(CompensationRegs(regs, b)[ConfigRegister], TempCompensationBit) == if b then 1 else 0
    ensures forall j :: j != TempCompensationBit ==>
      BitRead(CompensationRegs(regs, b)[ConfigRegister], j) == BitRead(regs[ConfigRegister], j)
    ensures BitRead(CompensationRegs(regs, b)[ConfigRegister], DualPointBit) == BitRead(regs[ConfigRegister], DualPointBit)
    ensures forall i :: 0 <= i < Size && i != ConfigRegister ==> CompensationRegs(regs, b)[i] == regs[i]
  {
  }

  /** Enabling then disabling compensation restores the config byte when the flag was off. */
  lemma CompensationToggleRestores(regs: Registers)
    requires BitRead(regs[ConfigRegister], TempCompensationBit) == 0
    ensures CompensationRegs(CompensationRegs(regs, true), false) == regs
  {
    var c := regs[ConfigRegister];
    var c2 := CompensationRegs(CompensationRegs(regs, true), false)[ConfigRegister];
    assert c2 == BitWrite(BitWrite(c, TempCompensationBit, true), TempCompensationBit, false);
    WriteTwice(c, TempCompensationBit, true, false);
    WriteOfCurrentBitIsIdentity(c, TempCompensationBit);
  }

  /** The config write leaves every float register as it was. */
  lemma CompensationKeepsFloats(regs: Registers, b: bool, q: nat)
    requires q + 4 <= ConfigRegister
    ensures LoadFloat(CompensationRegs(regs, b), q) == LoadFloat(regs, q)
  {
    LoadAfterStoreByte(regs, ConfigRegister, BitWrite(regs[ConfigRegister], TempCompensationBit, b), q);
  }

  function MeasureEcRegs(regs: Registers, temp: bv32, constant: bv32): Registers {
    var withTemp := StoreFloat(regs, TempRegister, temp);
    var compensated := CompensationRegs(withTemp, true);
    StoreByte(StoreFloat(compensated, TempCompensationRegister, constant), TaskRegister, MeasureEcCommand)
  }

  function MeasureEcTrace(t: Log, a: int, regs: Registers, temp: bv32, constant: bv32): Log {
    var withTemp := StoreFloat(regs, TempRegister, temp);
    var t1 := CompensationTrace(FloatWriteTrace(t, a, TempRegister, temp), a, withTemp, true);
    var t2 := CommandTrace(FloatWriteTrace(t1, a, TempCompensationRegister, constant), a, MeasureEcCommand);
    MeasurementTrace(t2, a, MeasureEcRegs(regs, temp, constant))
  }

  /** measureEC stores the temperature, the config byte, the constant and the
      command, in that order; it selects the config byte for the read-modify-write
      and then the registers of the update. */
  lemma MeasureEcTraceOrder(t: Log, a: int, regs: Registers, temp: bv32, constant: bv32)
    ensures Stored(MeasureEcTrace(t, a, regs, temp, constant))
      == Stored(t) + [TempRegister, ConfigRegister, TempCompensationRegister, TaskRegister]
    ensures Selected(MeasureEcTrace(t, a, regs, temp, constant))
      == Selected(t) + [ConfigRegister] + MeasurementReads(MeasureEcRegs(regs, temp, constant))
  {
    var withTemp := StoreFloat(regs, TempRegister, temp);
    var t0 := FloatWriteTrace(t, a, TempRegister, temp);
    var t1 := CompensationTrace(t0, a, withTemp, true);
    var t1c := FloatWriteTrace(t1, a, TempCompensationRegister, constant);
    var t2 := CommandTrace(t1c, a, MeasureEcCommand);
    var after := MeasureEcRegs(regs, temp, constant);
    FloatWriteTraceOrder(t, a, TempRegister, temp);
    CompensationTraceOrder(t0, a, withTemp, true);
    FloatWriteTraceOrder(t1, a, TempCompensationRegister, constant);
    WriteByteTraceOrder(t1c, a, TaskRegister, MeasureEcCommand);
    MeasurementTraceReads(t2, a, after);
    MeasurementReadsAreFloatRegisters(after);
    ReadsTraceStoresNothing(t2, a, after, MeasurementReads(after));
    assert Stored(t) + [TempRegister] + [ConfigRegister] + [TempCompensationRegister] + [TaskRegister]
      == Stored(t) + [TempRegister, ConfigRegister, TempCompensationRegister, TaskRegister];
  }

  /** measureEC leaves the temperature, the constant, compensation on and the
      command in place, and touches nothing else. */
  lemma MeasureEcEffects(regs: Registers, temp: bv32, constant: bv32)
    ensures var r := MeasureEcRegs(regs, temp, constant);
      LoadFloat(r, TempRegister) == temp && LoadFloat(r, TempCompensationRegister) == constant
      && BitRead(r[ConfigRegister], TempCompensationBit) == 1
      && BitRead(r[ConfigRegister], DualPointBit) == BitRead(regs[ConfigRegister], DualPointBit)
      && r[TaskRegister] == MeasureEcCommand
    ensures var r := MeasureEcRegs(regs, temp, constant);
      forall i :: (0 <= i < Size && !(TempRegister <= i < TempRegister + 4)
        && !(TempCompensationRegister <= i < TempCompensationRegister + 4)
        && i != ConfigRegister && i != TaskRegister) ==> r[i] == regs[i]
  {
    var withTemp := StoreFloat(regs, TempRegister, temp);
    var compensated := CompensationRegs(withTemp, true);
    var withConstant := StoreFloat(compensated, TempCompensationRegister, constant);
    LoadAfterStore(regs, TempRegister, temp);
    LoadAfterStoreByte(withTemp, ConfigRegister, BitWrite(withTemp[ConfigRegister], TempCompensationBit, true), TempRegister);
    LoadAfterStoreElsewhere(compensated, TempCompensationRegister, constant, TempRegister);
    LoadAfterStoreByte(withConstant, TaskRegister, MeasureEcCommand, TempRegister);
    LoadAfterStore(compensated, TempCompensationRegister, constant);
    LoadAfterStoreByte(withConstant, TaskRegister, MeasureEcCommand, TempCompensationRegister);
    CompensationChangesOnlyItsBit(withTemp, true);
  }

  /** The calibration sequence: the rescaled solution in register 9, then the opcode. */
  function CalibrationRegs(fu: FloatUnit, regs: Registers, solution: bv32, tempC: bv32, op: bv8): Registers {
    var scaled := ToMs25(fu, solution, LoadFloat(regs, TempCoefRegister), tempC);
    StoreByte(StoreFloat(regs, SolutionRegister, scaled), TaskRegister, op)
  }

  function CalibrationTrace(t: Log, fu: FloatUnit, a: int, regs: Registers, solution: bv32, tempC: bv32, op: bv8, result: nat): Log
    requires result + 4 <= Size
  {
    var scaled := ToMs25(fu, solution, LoadFloat(regs, TempCoefRegister), tempC);
    var t1 := FloatWriteTrace(ReadFloatTrace(t, a, regs, TempCoefRegister), a, SolutionRegister, scaled);
    ReadFloatTrace(CommandTrace(t1, a, op), a, CalibrationRegs(fu, regs, solution, tempC, op), result)
  }

  /** calibrateProbe* selects the coefficient to read it, stores the solution and
      the command, then selects the register it returns. */
  lemma CalibrationTraceOrder(t: Log, fu: FloatUnit, a: int, regs: Registers, solution: bv32, tempC: bv32, op: bv8, result: nat)
    requires result + 4 <= Size
    ensures Selected(CalibrationTrace(t, fu, a, regs, solution, tempC, op, result)) == Selected(t) + [TempCoefRegister, result]
    ensures Stored(CalibrationTrace(t, fu, a, regs, solution, tempC, op, result)) == Stored(t) + [SolutionRegister, TaskRegister]
  {
    var scaled := ToMs25(fu, solution, LoadFloat(regs, TempCoefRegister), tempC);
    var t0 := ReadFloatTrace(t, a, regs, TempCoefRegister);
    var t1 := FloatWriteTrace(t0, a, SolutionRegister, scaled);
    var t2 := CommandTrace(t1, a, op);
    SelectedOfFloatRead(t, a, regs, TempCoefRegister);
    ReadFloatTraceStoresNothing(t, a, regs, TempCoefRegister);
    FloatWriteTraceOrder(t0, a, SolutionRegister, scaled);
    WriteByteTraceOrder(t1, a, TaskRegister, op);
    SelectedOfFloatRead(t2, a, CalibrationRegs(fu, regs, solution, tempC, op), result);
    ReadFloatTraceStoresNothing(t2, a, CalibrationRegs(fu, regs, solution, tempC, op), result);
  }

  /** The solution register holds the rescaled value and the task register the opcode; nothing else changes. */
  lemma CalibrationEffects(fu: FloatUnit, regs: Registers, solution: bv32, tempC: bv32, op: bv8)
    ensures var r := CalibrationRegs(fu, regs, solution, tempC, op);
      LoadFloat(r, SolutionRegister) == ToMs25(fu, solution, LoadFloat(regs, TempCoefRegister), tempC)
      && r[TaskRegister] == op
    ensures var r := CalibrationRegs(fu, regs, solution, tempC, op);
      forall i :: 0 <= i < Size && !(SolutionRegister <= i < SolutionRegister + 4) && i != TaskRegister ==> r[i] == regs[i]
  {
    var scaled := ToMs25(fu, solution, LoadFloat(regs, TempCoefRegister), tempC);
    LoadAfterStore(regs, SolutionRegister, scaled);
    LoadAfterStoreByte(StoreFloat(regs, SolutionRegister, scaled), TaskRegister, op, SolutionRegister);
  }

  /** Calibrating at 25 degrees writes the solution value itself. */
  lemma CalibrationAt25WritesSolution(fu: FloatUnit, regs: Registers, solution: bv32, op: bv8)
    requires IeeeIdentities(fu) && IsFinite(LoadFloat(regs, TempCoefRegister)) && !IsNaN(solution)
    ensures LoadFloat(CalibrationRegs(fu, regs, solution, TwentyFive, op), SolutionRegister) == solution
  {
    CalibrationEffects(fu, regs, solution, TwentyFive, op);
    RescaleIdentityAt25(fu, solution, LoadFloat(regs, TempCoefRegister));
  }

  function DualPointRegs(regs: Registers, refLow: bv32, refHigh: bv32, readLow: bv32, readHigh: bv32): Registers {
    StoreFloat(StoreFloat(StoreFloat(StoreFloat(regs, RefLowRegister, refLow), RefHighRegister, refHigh),
      ReadLowRegister, readLow), ReadHighRegister, readHigh)
  }

  function DualPointTrace(t: Log, a: int, refLow: bv32, refHigh: bv32, readLow: bv32, readHigh: bv32): Log {
    var t1 := FloatWriteTrace(FloatWriteTrace(t, a, RefLowRegister, refLow), a, RefHighRegister, refHigh);
    FloatWriteTrace(FloatWriteTrace(t1, a, ReadLowRegister, readLow), a, ReadHighRegister, readHigh)
  }

  /** setDualPointCalibration stores the low reference, the high reference, the
      low reading and the high reading, in that order, and selects nothing. */
  lemma DualPointTraceOrder(t: Log, a: int, refLow: bv32, refHigh: bv32, readLow: bv32, readHigh: bv32)
    ensures Stored(DualPointTrace(t, a, refLow, refHigh, readLow, readHigh))
      == Stored(t) + [RefLowRegister, RefHighRegister, ReadLowRegister, ReadHighRegister]
    ensures Selected(DualPointTrace(t, a, refLow, refHigh, readLow, readHigh)) == Selected(t)
  {
    var t1 := FloatWriteTrace(t, a, RefLowRegister, refLow);
    var t2 := FloatWriteTrace(t1, a, RefHighRegister, refHigh);
    var t3 := FloatWriteTrace(t2, a, ReadLowRegister, readLow);
    FloatWriteTraceOrder(t, a, RefLowRegister, refLow);
    FloatWriteTraceOrder(t1, a, RefHighRegister, refHigh);
    FloatWriteTraceOrder(t2, a, ReadLowRegister, readLow);
    FloatWriteTraceOrder(t3, a, ReadHighRegister, readHigh);
    assert Stored(t) + [RefLowRegister] + [RefHighRegister] + [ReadLowRegister] + [ReadHighRegister]
      == Stored(t) + [RefLowRegister, RefHighRegister, ReadLowRegister, ReadHighRegister];
  }

  /** The four calibration points read back as written; bytes outside 17..32 are unchanged. */
  lemma DualPointReadsBack(regs: Registers, refLow: bv32, refHigh: bv32, readLow: bv32, readHigh: bv32)
    ensures var r := DualPointRegs(regs, refLow, refHigh, readLow, readHigh);
      LoadFloat(r, RefLowRegister) == refLow && LoadFloat(r, RefHighRegister) == refHigh
      && LoadFloat(r, ReadLowRegister) == readLow && LoadFloat(r, ReadHighRegister) == readHigh
    ensures var r := DualPointRegs(regs, refLow, refHigh, readLow, readHigh);
      forall i :: 0 <= i < Size && !(RefHighRegister <= i < ReadLowRegister + 4) ==> r[i] == regs[i]
  {
    var r1 := StoreFloat(regs, RefLowRegister, refLow);
    var r2 := StoreFloat(r1, RefHighRegister, refHigh);
    var r3 := StoreFloat(r2, ReadLowRegister, readLow);
    LoadAfterStore(regs, RefLowRegister, refLow);
    LoadAfterStoreElsewhere(r1, RefHighRegister, refHigh, RefLowRegister);
    LoadAfterStoreElsewhere(r2, ReadLowRegister, readLow, RefLowRegister);
    LoadAfterStoreElsewhere(r3, ReadHighRegister, readHigh, RefLowRegister);
    LoadAfterStore(r1, RefHighRegister, refHigh);
    LoadAfterStoreElsewhere(r2, ReadLowRegister, readLow, RefHighRegister);
    LoadAfterStoreElsewhere(r3, ReadHighRegister, readHigh, RefHighRegister);
    LoadAfterStore(r2, ReadLowRegister, readLow);
    LoadAfterStoreElsewhere(r3, ReadHighRegister, readHigh, ReadLowRegister);
    LoadAfterStore(r3, ReadHighRegister, readHigh);
  }

  /** reset's seven float writes in the C++ and Python order: n to the offset and
      the four dual-point registers, c to the compensation constant, k to the coefficient. */
  function ResetWrites(regs: Registers, n: bv32, c: bv32, k: bv32): Registers {
    var r1 := StoreFloat(regs, OffsetRegister, n);
    var r2 := StoreFloat(r1, RefHighRegister, n);
    var r3 := StoreFloat(r2, RefLowRegister, n);
    var r4 := StoreFloat(r3, ReadHighRegister, n);
    var r5 := StoreFloat(r4, ReadLowRegister, n);
    StoreFloat(StoreFloat(r5, TempCompensationRegister, c), TempCoefRegister, k)
  }

  /** reset's effect: NaN, 25 and 0.019 written, then compensation off. */
  function ResetRegs(regs: Registers): Registers {
    CompensationRegs(ResetWrites(regs, QuietNaN, TwentyFive, DefaultCoefficient), false)
  }

  function ResetTrace(t: Log, a: int, regs: Registers): Log {
    var t1 := FloatWriteTrace(FloatWriteTrace(t, a, OffsetRegister, QuietNaN), a, RefHighRegister, QuietNaN);
    var t2 := FloatWriteTrace(FloatWriteTrace(t1, a, RefLowRegister, QuietNaN), a, ReadHighRegister, QuietNaN);
    var t3 := FloatWriteTrace(FloatWriteTrace(t2, a, ReadLowRegister, QuietNaN), a, TempCompensationRegister, TwentyFive);
    CompensationTrace(FloatWriteTrace(t3, a, TempCoefRegister, DefaultCoefficient), a,
      ResetWrites(regs, QuietNaN, TwentyFive, DefaultCoefficient), false)
  }

  /** The registers reset's frames store, in order. */
  const ResetOrder: seq<nat> := [OffsetRegister, RefHighRegister, RefLowRegister, ReadHighRegister,
    ReadLowRegister, TempCompensationRegister, TempCoefRegister]

  /** The seven float frames of reset, before the config byte: n to the five
      calibration registers, then the constant c and the coefficient k. */
  function ResetFrames(t: Log, a: int, n: bv32, c: bv32, k: bv32): Log {
    var t1 := FloatWriteTrace(FloatWriteTrace(t, a, OffsetRegister, n), a, RefHighRegister, n);
    var t2 := FloatWriteTrace(FloatWriteTrace(t1, a, RefLowRegister, n), a, ReadHighRegister, n);
    var t3 := FloatWriteTrace(FloatWriteTrace(t2, a, ReadLowRegister, n), a, TempCompensationRegister, c);
    FloatWriteTrace(t3, a, TempCoefRegister, k)
  }

  /** Those frames store the seven registers in the order of ResetOrder and select nothing. */
  lemma ResetFramesOrder(t: Log, a: int, n: bv32, c: bv32, k: bv32)
    ensures Stored(ResetFrames(t, a, n, c, k)) == Stored(t) + ResetOrder
    ensures Selected(ResetFrames(t, a, n, c, k)) == Selected(t)
  {
    var w1 := FloatWriteTrace(t, a, OffsetRegister, n);
    var t1 := FloatWriteTrace(w1, a, RefHighRegister, n);
    var w2 := FloatWriteTrace(t1, a, RefLowRegister, n);
    var t2 := FloatWriteTrace(w2, a, ReadHighRegister, n);
    var w3 := FloatWriteTrace(t2, a, ReadLowRegister, n);
    var t3 := FloatWriteTrace(w3, a, TempCompensationRegister, c);
    var s := Stored(t);
    FloatWriteTraceOrder(t, a, OffsetRegister, n);
    FloatWriteTraceOrder(w1, a, RefHighRegister, n);
    FloatWriteTraceOrder(t1, a, RefLowRegister, n);
    FloatWriteTraceOrder(w2, a, ReadHighRegister, n);
    FloatWriteTraceOrder(t2, a, ReadLowRegister, n);
    FloatWriteTraceOrder(w3, a, TempCompensationRegister, c);
    FloatWriteTraceOrder(t3, a, TempCoefRegister, k);
    assert s + [OffsetRegister] + [RefHighRegister] + [RefLowRegister] + [ReadHighRegister]
      + [ReadLowRegister] + [TempCompensationRegister] + [TempCoefRegister] == s + ResetOrder;
  }

  /** reset stores the offset, the high reference, the low reference, the high
      reading, the low reading, the constant and the coefficient, then the
      config byte, which is the only register it selects. */
  lemma ResetTraceOrder(t: Log, a: int, regs: Registers)
    ensures Stored(ResetTrace(t, a, regs)) == Stored(t) + ResetOrder + [ConfigRegister]
    ensures Selected(ResetTrace(t, a, regs)) == Selected(t) + [ConfigRegister]
  {
    var frames := ResetFrames(t, a, QuietNaN, TwentyFive, DefaultCoefficient);
    assert ResetTrace(t, a, regs)
      == CompensationTrace(frames, a, ResetWrites(regs, QuietNaN, TwentyFive, DefaultCoefficient), false);
    ResetFramesOrder(t, a, QuietNaN, TwentyFive, DefaultCoefficient);
    CompensationTraceOrder(frames, a, ResetWrites(regs, QuietNaN, TwentyFive, DefaultCoefficient), false);
  }

  /** After the seven writes the five calibration registers read n, the constant c and the coefficient k. */
  lemma ResetWritesReadBack(regs: Registers, n: bv32, c: bv32, k: bv32)
    ensures var r := ResetWrites(regs, n, c, k);
      LoadFloat(r, OffsetRegister) == n && LoadFloat(r, RefHighRegister) == n
      && LoadFloat(r, RefLowRegister) == n && LoadFloat(r, ReadHighRegister) == n
      && LoadFloat(r, ReadLowRegister) == n
      && LoadFloat(r, TempCompensationRegister) == c && LoadFloat(r, TempCoefRegister) == k
  {
    var r1 := StoreFloat(regs, OffsetRegister, n);
    var r2 := StoreFloat(r1, RefHighRegister, n);
    var r3 := StoreFloat(r2, RefLowRegister, n);
    var r4 := StoreFloat(r3, ReadHighRegister, n);
    var r5 := StoreFloat(r4, ReadLowRegister, n);
    var r6 := StoreFloat(r5, TempCompensationRegister, c);
    forall q | q in [OffsetRegister, RefHighRegister, RefLowRegister, ReadHighRegister, ReadLowRegister]
      ensures LoadFloat(ResetWrites(regs, n, c, k), q) == LoadFloat(r5, q)
    {
      LoadAfterStoreElsewhere(r5, TempCompensationRegister, c, q);
      LoadAfterStoreElsewhere(r6, TempCoefRegister, k, q);
    }
    LoadAfterStore(r4, ReadLowRegister, n);
    LoadAfterStore(r3, ReadHighRegister, n);
    LoadAfterStoreElsewhere(r4, ReadLowRegister, n, ReadHighRegister);
    LoadAfterStore(r2, RefLowRegister, n);
    LoadAfterStoreElsewhere(r3, ReadHighRegister, n, RefLowRegister);
    LoadAfterStoreElsewhere(r4, ReadLowRegister, n, RefLowRegister);
    LoadAfterStore(r1, RefHighRegister, n);
    LoadAfterStoreElsewhere(r2, RefLowRegister, n, RefHighRegister);
    LoadAfterStoreElsewhere(r3, ReadHighRegister, n, RefHighRegister);
    LoadAfterStoreElsewhere(r4, ReadLowRegister, n, RefHighRegister);
    LoadAfterStore(regs, OffsetRegister, n);
    LoadAfterStoreElsewhere(r1, RefHighRegister, n, OffsetRegister);
    LoadAfterStoreElsewhere(r2, RefLowRegister, n, OffsetRegister);
    LoadAfterStoreElsewhere(r3, ReadHighRegister, n, OffsetRegister);
    LoadAfterStoreElsewhere(r4, ReadLowRegister, n, OffsetRegister);
    LoadAfterStore(r5, TempCompensationRegister, c);
    LoadAfterStoreElsewhere(r6, TempCoefRegister, k, TempCompensationRegister);
    LoadAfterStore(r6, TempCoefRegister, k);
  }

  /** The seven writes touch registers 13..36 and 45..48 and no other byte. */
  lemma ResetWritesFrame(regs: Registers, n: bv32, c: bv32, k: bv32)
    ensures forall i :: (0 <= i < TempCoefRegister || SalinityRegister <= i < TempCompensationRegister
      || BufferRegister <= i < Size) ==> ResetWrites(regs, n, c, k)[i] == regs[i]
  {
  }

  /** After reset the offset and the four dual-point registers hold NaN. */
  lemma ResetClearsCalibration(regs: Registers)
    ensures var r := ResetRegs(regs);
      IsNaN(LoadFloat(r, OffsetRegister)) && IsNaN(LoadFloat(r, RefHighRegister))
      && IsNaN(LoadFloat(r, RefLowRegister)) && IsNaN(LoadFloat(r, ReadHighRegister))
      && IsNaN(LoadFloat(r, ReadLowRegister))
  {
    var s := ResetWrites(regs, QuietNaN, TwentyFive, DefaultCoefficient);
    ResetWritesReadBack(regs, QuietNaN, TwentyFive, DefaultCoefficient);
    CompensationKeepsFloats(s, false, OffsetRegister);
    CompensationKeepsFloats(s, false, RefHighRegister);
    CompensationKeepsFloats(s, false, RefLowRegister);
    CompensationKeepsFloats(s, false, ReadHighRegister);
    CompensationKeepsFloats(s, false, ReadLowRegister);
  }

  /** After reset the compensation constant is 25 and the coefficient 0.019. */
  lemma ResetRestoresDefaults(regs: Registers)
    ensures var r := ResetRegs(regs);
      LoadFloat(r, TempCompensationRegister) == TwentyFive && LoadFloat(r, TempCoefRegister) == DefaultCoefficient
  {
    var s := ResetWrites(regs, QuietNaN, TwentyFive, DefaultCoefficient);
    ResetWritesReadBack(regs, QuietNaN, TwentyFive, DefaultCoefficient);
    CompensationKeepsFloats(s, false, TempCompensationRegister);
    CompensationKeepsFloats(s, false, TempCoefRegister);
  }

  /** After reset compensation is off and the dual-point bit is what it was. */
  lemma ResetDisablesCompensation(regs: Registers)
    ensures var r := ResetRegs(regs);
      BitRead(r[ConfigRegister], TempCompensationBit) == 0
      && BitRead(r[ConfigRegister], DualPointBit) == BitRead(regs[ConfigRegister], DualPointBit)
  {
    var s := ResetWrites(regs, QuietNaN, TwentyFive, DefaultCoefficient);
    ResetWritesFrame(regs, QuietNaN, TwentyFive, DefaultCoefficient);
    CompensationChangesOnlyItsBit(s, false);
  }

  /** reset writes registers 13..36 and 45..48 and the config byte, and no other byte. */
  lemma ResetFrame(regs: Registers)
    ensures var r := ResetRegs(regs);
      forall i :: (0 <= i < TempCoefRegister || SalinityRegister <= i < TempCompensationRegister
        || BufferRegister <= i < ConfigRegister || i == TaskRegister) ==> r[i] == regs[i]
  {
    ResetWritesFrame(regs, QuietNaN, TwentyFive, DefaultCoefficient);
    CompensationChangesOnlyItsBit(ResetWrites(regs, QuietNaN, TwentyFive, DefaultCoefficient), false);
  }

  /** readData's five calibration reads after the update: high reading, high
      reference, low reading, low reference, offset. */
  function CalibrationReadsTrace(t: Log, a: int, regs: Registers): Log {
    var t1 := ReadFloatTrace(ReadFloatTrace(t, a, regs, ReadHighRegister), a, regs, RefHighRegister);
    var t2 := ReadFloatTrace(ReadFloatTrace(t1, a, regs, ReadLowRegister), a, regs, RefLowRegister);
    ReadFloatTrace(t2, a, regs, OffsetRegister)
  }

  /** Those reads select the five registers in that order. */
  lemma CalibrationReadsSelect(t: Log, a: int, regs: Registers)
    ensures Selected(CalibrationReadsTrace(t, a, regs))
      == Selected(t) + [ReadHighRegister, RefHighRegister, ReadLowRegister, RefLowRegister, OffsetRegister]
  {
    var t1 := ReadFloatTrace(t, a, regs, ReadHighRegister);
    var t2 := ReadFloatTrace(t1, a, regs, RefHighRegister);
    var t3 := ReadFloatTrace(t2, a, regs, ReadLowRegister);
    var t4 := ReadFloatTrace(t3, a, regs, RefLowRegister);
    SelectedOfFloatRead(t, a, regs, ReadHighRegister);
    SelectedOfFloatRead(t1, a, regs, RefHighRegister);
    SelectedOfFloatRead(t2, a, regs, ReadLowRegister);
    SelectedOfFloatRead(t3, a, regs, RefLowRegister);
    SelectedOfFloatRead(t4, a, regs, OffsetRegister);
  }

  /** setI2CAddress and readEEPROM: an integer in the solution register, then a command. */
  function IndirectRegs(fu: FloatUnit, regs: Registers, n: Uint8, op: bv8): Registers {
    StoreByte(StoreFloat(regs, SolutionRegister, fu.fromInt(n)), TaskRegister, op)
  }

  function WriteEepromRegs(fu: FloatUnit, regs: Registers, cell: Uint8, value: bv32): Registers {
    StoreByte(StoreFloat(StoreFloat(regs, SolutionRegister, fu.fromInt(cell)), BufferRegister, value),
      TaskRegister, WriteCommand)
  }

  /** The solution register carries the converted argument and the task register the opcode. */
  lemma IndirectEffects(fu: FloatUnit, regs: Registers, n: Uint8, op: bv8)
    ensures var r := IndirectRegs(fu, regs, n, op);
      LoadFloat(r, SolutionRegister) == fu.fromInt(n) && r[TaskRegister] == op
      && LoadFloat(r, BufferRegister) == LoadFloat(regs, BufferRegister)
  {
    LoadAfterStore(regs, SolutionRegister, fu.fromInt(n));
    LoadAfterStoreByte(StoreFloat(regs, SolutionRegister, fu.fromInt(n)), TaskRegister, op, SolutionRegister);
    LoadAfterStoreElsewhere(regs, SolutionRegister, fu.fromInt(n), BufferRegister);
    LoadAfterStoreByte(StoreFloat(regs, SolutionRegister, fu.fromInt(n)), TaskRegister, op, BufferRegister);
  }

  /** The cell address, then the value in the buffer register, then command 1. */
  lemma WriteEepromEffects(fu: FloatUnit, regs: Registers, cell: Uint8, value: bv32)
    ensures var r := WriteEepromRegs(fu, regs, cell, value);
      LoadFloat(r, SolutionRegister) == fu.fromInt(cell) && LoadFloat(r, BufferRegister) == value
      && r[TaskRegister] == WriteCommand
  {
    var r1 := StoreFloat(regs, SolutionRegister, fu.fromInt(cell));
    var r2 := StoreFloat(r1, BufferRegister, value);
    LoadAfterStore(regs, SolutionRegister, fu.fromInt(cell));
    LoadAfterStoreElsewhere(r1, BufferRegister, value, SolutionRegister);
    LoadAfterStoreByte(r2, TaskRegister, WriteCommand, SolutionRegister);
    LoadAfterStore(r1, BufferRegister, value);
    LoadAfterStoreByte(r2, TaskRegister, WriteCommand, BufferRegister);
  }

  /** On the stand-in, which runs no firmware, readEEPROM right after writeEEPROM of the same cell returns the value. */
  lemma EepromReadAfterWrite(fu: FloatUnit, regs: Registers, cell: Uint8, value: bv32)
    ensures LoadFloat(IndirectRegs(fu, WriteEepromRegs(fu, regs, cell, value), cell, ReadCommand), BufferRegister) == value
  {
    WriteEepromEffects(fu, regs, cell, value);
    IndirectEffects(fu, WriteEepromRegs(fu, regs, cell, value), cell, ReadCommand);
  }

  // ---------------------------------------------------------------------------
  // The driver

  class UfireEc {
    const bus: RegisterFile
    const fu: FloatUnit
    var address: Uint8
    var ecDelay: nat
    var blocking: bool
    /** The public measurement members raw, mS, uS, S, PPM_500, PPM_640, PPM_700,
        salinityPSU, tempC and tempF, held together. */
    var readings: Snapshot

    /** The constructor bodies are not part of the source; the model takes the initial state as given. */
    constructor (bus: RegisterFile, fu: FloatUnit, address: Uint8, ecDelay: nat, blocking: bool, initial: Snapshot)
      ensures this.bus == bus && this.fu == fu && this.address == address
      ensures this.ecDelay == ecDelay && this.blocking == blocking && readings == initial
    {
      this.bus := bus;
      this.fu := fu;
      this.address := address;
      this.ecDelay := ecDelay;
      this.blocking := blocking;
      readings := initial;
    }

    // --- transport --------------------------------------------------------

    /** _change_register: a one-byte write selecting register r (a uint8_t). */
    method ChangeRegister(r: bv8)
      modifies bus
      ensures bus.regs == old(bus.regs) && bus.pointer == r as nat
      ensures bus.trace == Then(old(bus.trace), Write(address, [r]))
    {
      var frame := [r];
      assert frame[1..] == [];
      WrittenNothing(bus.regs, r as nat);
      bus.Transmit(address, frame);
    }

    /** _send_command: the opcode into the task register. */
    method SendCommand(op: bv8)
      modifies bus
      ensures bus.regs == StoreByte(old(bus.regs), TaskRegister, op) && bus.pointer == Size
      ensures bus.trace == CommandTrace(old(bus.trace), address, op)
    {
      var frame: seq<bv8> := [TaskRegister as bv8, op];
      assert frame[1..] == [op];
      RegisterByte(TaskRegister);
      bus.Transmit(address, frame);
    }

    /** _write_register: one five-byte frame. */
    method WriteRegister(r: nat, f: bv32)
      requires r + 4 <= Size
      modifies bus
      ensures bus.regs == StoreFloat(old(bus.regs), r, f) && bus.pointer == r + 4
      ensures bus.trace == FloatWriteTrace(old(bus.trace), address, r, f)
    {
      var b := [r as bv8] + Split(f);
      assert b == FloatFrame(r, f);
      FloatFrameRoundTrip(bus.regs, r, f);
      RegisterByte(r);
      bus.Transmit(address, b);
    }

    /** _read_register: select, then four one-byte reads assembled in memory order. */
    method ReadRegister(r: nat) returns (f: bv32)
      requires r + 4 <= Size
      modifies bus
      ensures f == LoadFloat(old(bus.regs), r)
      ensures bus.regs == old(bus.regs) && bus.pointer == r + 4
      ensures bus.trace == ReadFloatTrace(old(bus.trace), address, old(bus.regs), r)
    {
      RegisterByte(r);
      ChangeRegister(r as bv8);
      var b0 := bus.Receive(address);
      var b1 := bus.Receive(address);
      var b2 := bus.Receive(address);
      var b3 := bus.Receive(address);
      assert b0 == old(bus.regs)[r] && b1 == old(bus.regs)[r + 1] && b2 == old(bus.regs)[r + 2] && b3 == old(bus.regs)[r + 3];
      f := Join([b0, b1, b2, b3]);
    }

    /** _write_byte: the frame [reg, val]. */
    method WriteByte(r: nat, v: bv8)
      requires r < Size
      modifies bus
      ensures bus.regs == StoreByte(old(bus.regs), r, v) && bus.pointer == r + 1
      ensures bus.trace == WriteByteTrace(old(bus.trace), address, r, v)
    {
      var frame := [r as bv8, v];
      assert frame[1..] == [v];
      RegisterByte(r);
      bus.Transmit(address, frame);
    }

    /** _read_byte: select, then one one-byte read. */
    method ReadByte(r: nat) returns (v: bv8)
      requires r < Size
      modifies bus
      ensures v == old(bus.regs)[r]
      ensures bus.regs == old(bus.regs) && bus.pointer == r + 1
      ensures bus.trace == ReadByteTrace(old(bus.trace), address, old(bus.regs), r)
    {
      RegisterByte(r);
      ChangeRegister(r as bv8);
      v := bus.Receive(address);
    }

    // --- connection -------------------------------------------------------

    method Begin(addr: Uint8) returns (ok: bool)
      modifies this, bus
      ensures address == addr && blocking == old(blocking) && readings == old(readings)
      ensures ecDelay == if old(bus.regs)[VersionRegister] <= 2 then OldHardwareDelay else NewHardwareDelay
      ensures ok <==> old(bus.regs)[VersionRegister] != 0xFF
      ensures bus.regs == old(bus.regs) && bus.pointer == VersionRegister + 1
      ensures bus.trace == ReadByteTrace(ReadByteTrace(old(bus.trace), addr, old(bus.regs), VersionRegister),
        addr, old(bus.regs), VersionRegister)
    {
      address := addr;
      var version := GetVersion();
      if version <= 2 {
        ecDelay := OldHardwareDelay;
      } else {
        ecDelay := NewHardwareDelay;
      }
      ok := Connected();
    }

    method Connected() returns (c: bool)
      modifies bus
      ensures c <==> old(bus.regs)[VersionRegister] != 0xFF
      ensures bus.regs == old(bus.regs) && bus.pointer == VersionRegister + 1
      ensures bus.trace == ReadByteTrace(old(bus.trace), address, old(bus.regs), VersionRegister)
    {
      var v := ReadByte(VersionRegister);
      if v != 0xFF {
        c := true;
      } else {
        c := false;
      }
    }

    method GetVersion() returns (v: bv8)
      modifies bus
      ensures v == old(bus.regs)[VersionRegister]
      ensures bus.regs == old(bus.regs) && bus.pointer == VersionRegister + 1
      ensures bus.trace == ReadByteTrace(old(bus.trace), address, old(bus.regs), VersionRegister)
    {
      v := ReadByte(VersionRegister);
    }

    method GetFirmware() returns (v: bv8)
      modifies bus
      ensures v == old(bus.regs)[FirmwareRegister]
      ensures bus.regs == old(bus.regs) && bus.pointer == FirmwareRegister + 1
      ensures bus.trace == ReadByteTrace(old(bus.trace), address, old(bus.regs), FirmwareRegister)
    {
      v := ReadByte(FirmwareRegister);
    }

    // --- measurement ------------------------------------------------------

    /** _updateRegisters: reads raw, mS (unless raw is zero), salinity (when there
        is a reading) and the temperature, and fills the snapshot fields. */
    method UpdateRegisters()
      modifies this, bus
      ensures readings == Measurement(fu, old(bus.regs))
      ensures address == old(address) && ecDelay == old(ecDelay) && blocking == old(blocking)
      ensures bus.regs == old(bus.regs) && bus.pointer == TempRegister + 4
      ensures bus.trace == MeasurementTrace(old(bus.trace), address, old(bus.regs))
    {
      var rawValue := ReadRegister(RawRegister);
      var ms: bv32;
      if FloatEq(rawValue, PosZero) {
        ms := QuietNaN;
      } else {
        ms := ReadRegister(MsRegister);
      }
      var salinity := MinusOne;
      if FloatEq(ms, ms) {
        salinity := ReadRegister(SalinityRegister);
      }
      var celsius := ReadRegister(TempRegister);
      readings := Readout(fu, rawValue, ms, salinity, celsius);
    }

    method MeasureEC(temp: bv32, constant: bv32) returns (result: bv32)
      modifies this, bus
      ensures bus.regs == MeasureEcRegs(old(bus.regs), temp, constant) && bus.pointer == TempRegister + 4
      ensures bus.trace == MeasureEcTrace(old(bus.trace), address, old(bus.regs), temp, constant)
      ensures readings == Measurement(fu, bus.regs) && result == readings.mS
      ensures address == old(address) && ecDelay == old(ecDelay) && blocking == old(blocking)
    {
      SetTemp(temp);
      UseTemperatureCompensation(true);
      SetTempConstant(constant);
      SendCommand(MeasureEcCommand);
      UpdateRegisters();
      result := readings.mS;
    }

    method MeasureTemp() returns (result: bv32)
      modifies this, bus
      ensures bus.regs == StoreByte(old(bus.regs), TaskRegister, MeasureTempCommand) && bus.pointer == TempRegister + 4
      ensures bus.trace == MeasurementTrace(CommandTrace(old(bus.trace), address, MeasureTempCommand), address, bus.regs)
      ensures readings == Measurement(fu, bus.regs) && result == readings.tempC
      ensures address == old(address) && ecDelay == old(ecDelay) && blocking == old(blocking)
    {
      SendCommand(MeasureTempCommand);
      UpdateRegisters();
      result := readings.tempC;
    }

    /** setTemp writes the temperature and records it, with Fahrenheit computed unconditionally. */
    method SetTemp(t: bv32)
      modifies this, bus
      ensures bus.regs == StoreFloat(old(bus.regs), TempRegister, t) && bus.pointer == TempRegister + 4
      ensures bus.trace == FloatWriteTrace(old(bus.trace), address, TempRegister, t)
      ensures readings == old(readings).(tempC := t, tempF := Fahrenheit(fu, t))
      ensures address == old(address) && ecDelay == old(ecDelay) && blocking == old(blocking)
    {
      WriteRegister(TempRegister, t);
      readings := readings.(tempC := t, tempF := Fahrenheit(fu, t));
    }

    method UseTemperatureCompensation(b: bool)
      modifies bus
      ensures bus.regs == CompensationRegs(old(bus.regs), b) && bus.pointer == ConfigRegister + 1
      ensures bus.trace == CompensationTrace(old(bus.trace), address, old(bus.regs), b)
    {
      var config := ReadByte(ConfigRegister);
      var retval: bv8;
      if b {
        retval := BitSet(config, TempCompensationBit);
      } else {
        retval := BitClear(config, TempCompensationBit);
      }
      WriteByte(ConfigRegister, retval);
    }

    // --- calibration --------------------------------------------------------

    /** _mS_to_mS25: reads the coefficient register and rescales. */
    method MsToMs25(solution: bv32, t: bv32) returns (scaled: bv32)
      modifies bus
      ensures scaled == ToMs25(fu, solution, LoadFloat(old(bus.regs), TempCoefRegister), t)
      ensures bus.regs == old(bus.regs) && bus.pointer == TempCoefRegister + 4
      ensures bus.trace == ReadFloatTrace(old(bus.trace), address, old(bus.regs), TempCoefRegister)
    {
      var coef := GetTempCoefficient();
      scaled := fu.div(solution, fu.sub(One, fu.mul(coef, fu.sub(t, TwentyFive))));
    }

    method CalibrateProbe(solution: bv32, t: bv32) returns (offset: bv32)
      modifies bus
      ensures bus.regs == CalibrationRegs(fu, old(bus.regs), solution, t, CalibrateProbeCommand)
      ensures offset == LoadFloat(bus.regs, OffsetRegister) && bus.pointer == OffsetRegister + 4
      ensures bus.trace == CalibrationTrace(old(bus.trace), fu, address, old(bus.regs), solution, t, CalibrateProbeCommand, OffsetRegister)
    {
      var scaled := MsToMs25(solution, t);
      WriteRegister(SolutionRegister, scaled);
      SendCommand(CalibrateProbeCommand);
      offset := GetCalibrateOffset();
    }

    method CalibrateProbeLow(solution: bv32, t: bv32) returns (reading: bv32)
      modifies bus
      ensures bus.regs == CalibrationRegs(fu, old(bus.regs), solution, t, CalibrateLowCommand)
      ensures reading == LoadFloat(bus.regs, ReadLowRegister) && bus.pointer == ReadLowRegister + 4
      ensures bus.trace == CalibrationTrace(old(bus.trace), fu, address, old(bus.regs), solution, t, CalibrateLowCommand, ReadLowRegister)
    {
      var scaled := MsToMs25(solution, t);
      WriteRegister(SolutionRegister, scaled);
      SendCommand(CalibrateLowCommand);
      reading := GetCalibrateLowReading();
    }

    method CalibrateProbeHigh(solution: bv32, t: bv32) returns (reading: bv32)
      modifies bus
      ensures bus.regs == CalibrationRegs(fu, old(bus.regs), solution, t, CalibrateHighCommand)
      ensures reading == LoadFloat(bus.regs, ReadHighRegister) && bus.pointer == ReadHighRegister + 4
      ensures bus.trace == CalibrationTrace(old(bus.trace), fu, address, old(bus.regs), solution, t, CalibrateHighCommand, ReadHighRegister)
    {
      var scaled := MsToMs25(solution, t);
      WriteRegister(SolutionRegister, scaled);
      SendCommand(CalibrateHighCommand);
      reading := GetCalibrateHighReading();
    }

    method SetDualPointCalibration(refLow: bv32, refHigh: bv32, readLow: bv32, readHigh: bv32)
      modifies bus
      ensures bus.regs == DualPointRegs(old(bus.regs), refLow, refHigh, readLow, readHigh)
      ensures bus.pointer == ReadHighRegister + 4
      ensures bus.trace == DualPointTrace(old(bus.trace), address, refLow, refHigh, readLow, readHigh)
    {
      WriteRegister(RefLowRegister, refLow);
      WriteRegister(RefHighRegister, refHigh);
      WriteRegister(ReadLowRegister, readLow);
      WriteRegister(ReadHighRegister, readHigh);
    }

    method GetCalibrateOffset() returns (f: bv32)
      modifies bus
      ensures f == LoadFloat(old(bus.regs), OffsetRegister)
      ensures bus.regs == old(bus.regs) && bus.pointer == OffsetRegister + 4
      ensures bus.trace == ReadFloatTrace(old(bus.trace), address, old(bus.regs), OffsetRegister)
    {
      f := ReadRegister(OffsetRegister);
    }

    method GetCalibrateHighReference() returns (f: bv32)
      modifies bus
      ensures f == LoadFloat(old(bus.regs), RefHighRegister)
      ensures bus.regs == old(bus.regs) && bus.pointer == RefHighRegister + 4
      ensures bus.trace == ReadFloatTrace(old(bus.trace), address, old(bus.regs), RefHighRegister)
    {
      f := ReadRegister(RefHighRegister);
    }

    method GetCalibrateLowReference() returns (f: bv32)
      modifies bus
      ensures f == LoadFloat(old(bus.regs), RefLowRegister)
      ensures bus.regs == old(bus.regs) && bus.pointer == RefLowRegister + 4
      ensures bus.trace == ReadFloatTrace(old(bus.trace), address, old(bus.regs), RefLowRegister)
    {
      f := ReadRegister(RefLowRegister);
    }

    method GetCalibrateHighReading() returns (f: bv32)
      modifies bus
      ensures f == LoadFloat(old(bus.regs), ReadHighRegister)
      ensures bus.regs == old(bus.regs) && bus.pointer == ReadHighRegister + 4
      ensures bus.trace == ReadFloatTrace(old(bus.trace), address, old(bus.regs), ReadHighRegister)
    {
      f := ReadRegister(ReadHighRegister);
    }

    method GetCalibrateLowReading() returns (f: bv32)
      modifies bus
      ensures f == LoadFloat(old(bus.regs), ReadLowRegister)
      ensures bus.regs == old(bus.regs) && bus.pointer == ReadLowRegister + 4
      ensures bus.trace == ReadFloatTrace(old(bus.trace), address, old(bus.regs), ReadLowRegister)
    {
      f := ReadRegister(ReadLowRegister);
    }

    method Reset()
      modifies bus
      ensures bus.regs == ResetRegs(old(bus.regs)) && bus.pointer == ConfigRegister + 1
      ensures bus.trace == ResetTrace(old(bus.trace), address, old(bus.regs))
    {
      WriteRegister(OffsetRegister, QuietNaN);
      WriteRegister(RefHighRegister, QuietNaN);
      WriteRegister(RefLowRegister, QuietNaN);
      WriteRegister(ReadHighRegister, QuietNaN);
      WriteRegister(ReadLowRegister, QuietNaN);
      SetTempConstant(TwentyFive);
      SetTempCoefficient(DefaultCoefficient);
      UseTemperatureCompensation(false);
    }

    method SetCalibrateOffset(offset: bv32)
      modifies bus
      ensures bus.regs == StoreFloat(old(bus.regs), OffsetRegister, offset) && bus.pointer == OffsetRegister + 4
      ensures bus.trace == FloatWriteTrace(old(bus.trace), address, OffsetRegister, offset)
    {
      WriteRegister(OffsetRegister, offset);
    }

    method SetTempConstant(b: bv32)
      modifies bus
      ensures bus.regs == StoreFloat(old(bus.regs), TempCompensationRegister, b)
      ensures bus.pointer == TempCompensationRegister + 4
      ensures bus.trace == FloatWriteTrace(old(bus.trace), address, TempCompensationRegister, b)
    {
      WriteRegister(TempCompensationRegister, b);
    }

    method GetTempConstant() returns (f: bv32)
      modifies bus
      ensures f == LoadFloat(old(bus.regs), TempCompensationRegister)
      ensures bus.regs == old(bus.regs) && bus.pointer == TempCompensationRegister + 4
      ensures bus.trace == ReadFloatTrace(old(bus.trace), address, old(bus.regs), TempCompensationRegister)
    {
      f := ReadRegister(TempCompensationRegister);
    }

    method SetTempCoefficient(coef: bv32)
      modifies bus
      ensures bus.regs == StoreFloat(old(bus.regs), TempCoefRegister, coef) && bus.pointer == TempCoefRegister + 4
      ensures bus.trace == FloatWriteTrace(old(bus.trace), address, TempCoefRegister, coef)
    {
      WriteRegister(TempCoefRegister, coef);
    }

    method GetTempCoefficient() returns (f: bv32)
      modifies bus
      ensures f == LoadFloat(old(bus.regs), TempCoefRegister)
      ensures bus.regs == old(bus.regs) && bus.pointer == TempCoefRegister + 4
      ensures bus.trace == ReadFloatTrace(old(bus.trace), address, old(bus.regs), TempCoefRegister)
    {
      f := ReadRegister(TempCoefRegister);
    }

    // --- address, EEPROM, blocking --------------------------------------------

    /** Both frames go to the old address; the driver switches to the new one afterwards. */
    method SetI2CAddress(newAddress: Uint8)
      modifies this, bus
      ensures bus.regs == IndirectRegs(fu, old(bus.regs), newAddress, I2CCommand) && bus.pointer == Size
      ensures bus.trace == CommandTrace(FloatWriteTrace(old(bus.trace), old(address), SolutionRegister,
        fu.fromInt(newAddress)), old(address), I2CCommand)
      ensures address == newAddress && ecDelay == old(ecDelay) && blocking == old(blocking)
      ensures readings == old(readings)
    {
      WriteRegister(SolutionRegister, fu.fromInt(newAddress));
      SendCommand(I2CCommand);
      address := newAddress;
    }

    method ReadEEPROM(cell: Uint8) returns (value: bv32)
      modifies bus
      ensures bus.regs == IndirectRegs(fu, old(bus.regs), cell, ReadCommand) && bus.pointer == BufferRegister + 4
      ensures value == LoadFloat(bus.regs, BufferRegister)
      ensures bus.trace == ReadFloatTrace(CommandTrace(FloatWriteTrace(old(bus.trace), address, SolutionRegister,
        fu.fromInt(cell)), address, ReadCommand), address, bus.regs, BufferRegister)
    {
      WriteRegister(SolutionRegister, fu.fromInt(cell));
      SendCommand(ReadCommand);
      value := ReadRegister(BufferRegister);
    }

    method WriteEEPROM(cell: Uint8, value: bv32)
      modifies bus
      ensures bus.regs == WriteEepromRegs(fu, old(bus.regs), cell, value) && bus.pointer == Size
      ensures bus.trace == CommandTrace(FloatWriteTrace(FloatWriteTrace(old(bus.trace), address, SolutionRegister,
        fu.fromInt(cell)), address, BufferRegister, value), address, WriteCommand)
    {
      WriteRegister(SolutionRegister, fu.fromInt(cell));
      WriteRegister(BufferRegister, value);
      SendCommand(WriteCommand);
    }

    method SetBlocking(b: bool)
      modifies this
      ensures blocking == b && address == old(address) && ecDelay == old(ecDelay)
      ensures readings == old(readings)
    {
      blocking := b;
    }

    method GetBlocking() returns (b: bool)
      ensures b == blocking
    {
      b := blocking;
    }

    /** readData: a measurement update, then the five calibration registers read and discarded. */
    method ReadData()
      modifies this, bus
      ensures readings == Measurement(fu, old(bus.regs))
      ensures address == old(address) && ecDelay == old(ecDelay) && blocking == old(blocking)
      ensures bus.regs == old(bus.regs) && bus.pointer == OffsetRegister + 4
      ensures bus.trace == CalibrationReadsTrace(MeasurementTrace(old(bus.trace), address, old(bus.regs)), address, old(bus.regs))
    {
      UpdateRegisters();
      var _ := GetCalibrateHighReading();
      var _ := GetCalibrateHighReference();
      var _ := GetCalibrateLowReading();
      var _ := GetCalibrateLowReference();
      var _ := GetCalibrateOffset();
    }
  }
}
