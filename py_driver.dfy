/** The Raspberry Pi Python driver (class uFire_EC in python/RaspberryPi), run
    against the same register-file stand-in. It shares the register map with
    the C++ driver but differs from it: every float it sends or receives passes
    through round_total_digits, a float write selects the register before the
    block write, the no-reading sentinel is infinity rather than NaN, the PPM
    values stay floats, and setI2CAddress and setBlocking guard their argument. */
module PyDriver {
  import opened Wrappers
  import opened Binary32
  import opened Bits
  import opened RegisterMap
  import opened Bus
  import opened EcDriver

  /** The arithmetic the Python driver relies on: the float operations and
      round_total_digits (rounding to seven significant digits), both left
      uninterpreted on binary32 patterns. */
  datatype PyFloats = PyFloats(fu: FloatUnit, round: bv32 -> bv32)

  /** Facts about round_total_digits: NaN stays NaN, a value rounds to a zero
      exactly when it is one, and the constants reset writes are fixed points. */
  ghost predicate RoundingFacts(round: bv32 -> bv32) {
    && (forall x :: IsNaN(x) ==> IsNaN(round(x)))
    && (forall x :: IsZero(round(x)) <==> IsZero(x))
    && round(QuietNaN) == QuietNaN
    && round(TwentyFive) == TwentyFive
    && round(DefaultCoefficient) == DefaultCoefficient
  }

  /** The measurement attributes S, mS, uS, raw, PPM_500, PPM_640, PPM_700,
      salinityPSU, tempC and tempF; in Python the PPM values are floats. */
  datatype PyReadings = PyReadings(
    raw: bv32, mS: bv32, uS: bv32, s: bv32,
    ppm500: bv32, ppm640: bv32, ppm700: bv32,
    salinityPSU: bv32, tempC: bv32, tempF: bv32)

  /** The class attributes before any measurement: all 0. */
  const Unmeasured := PyReadings(PosZero, PosZero, PosZero, PosZero, PosZero, PosZero, PosZero, PosZero, PosZero, PosZero)

  /** An argument of setBlocking, which may be any Python value. */
  datatype PyValue = PyStr(s: string) | PyBool(b: bool) | PyNumber(x: int) | PyNone

  /** Python truthiness of an optional float argument: None and the zeros are
      false; every other value, NaN included, is true. */
  predicate Truthy(v: Option<bv32>) {
    v.Some? && !IsZero(v.value)
  }

  /** _bit_set(v, index, x): clear bit `index`, then set it when x holds. It
      computes the same byte as the C++ bitWrite macro. */
  function BitAssign(v: bv8, index: nat, x: bool): (r: bv8)
    requires index < 8
    ensures r == BitWrite(v, index, x)
  {
    var mask := Mask(index);   // 1 << index, index being below 8
    var cleared := v & !mask;
    if x then cleared | mask else cleared
  }

  /** _bit_set leaves bit `index` equal to x and every other bit as it was. */
  lemma BitAssignSetsOnlyItsBit(v: bv8, index: nat, x: bool)
    requires index < 8
    ensures BitRead(BitAssign(v, index, x), index) == if x then 1 else 0
    ensures forall j :: j != index ==> BitRead(BitAssign(v, index, x), j) == BitRead(v, j)
  {
  }

  // ---------------------------------------------------------------------------
  // Transport

  /** _write_register: a one-byte select of the register, then the block write
      [reg, b0, b1, b2, b3] of the value already rounded. */
  function PyFloatWriteTrace(t: Log, a: int, r: nat, f: bv32): Log
    requires r < Size
  {
    Then(Then(t, Write(a, [r as bv8])), Write(a, FloatFrame(r, f)))
  }

  /** A Python float write selects its register and then stores from it. */
  lemma PyFloatWriteTraceOrder(t: Log, a: int, r: nat, f: bv32)
    requires r < Size
    ensures Selected(PyFloatWriteTrace(t, a, r, f)) == Selected(t) + [r]
    ensures Stored(PyFloatWriteTrace(t, a, r, f)) == Stored(t) + [r]
  {
    RegisterByte(r);
    var t1 := Then(t, Write(a, [r as bv8]));
    assert Selected(t1) == Selected(t) + [r];
    assert Stored(t1) == Stored(t) + [];
    assert Selected(Then(t1, Write(a, FloatFrame(r, f)))) == Selected(t1) + [];
  }

  // ---------------------------------------------------------------------------
  // _updateRegisters

  /** The mS value _updateRegisters works with: infinity when raw reads zero,
      the rounded mS register otherwise. */
  function PyMsCandidate(rt: PyFloats, regs: Registers): bv32 {
    if FloatEq(rt.round(LoadFloat(regs, RawRegister)), PosZero) then PosInf
    else rt.round(LoadFloat(regs, MsRegister))
  }

  /** The attributes _updateRegisters fills from the values it read: the products
      and salinity unless mS is infinite, -1 everywhere otherwise, and Fahrenheit
      unless the temperature is -127. */
  function PyReadout(fu: FloatUnit, raw: bv32, mS: bv32, salinity: bv32, tempC: bv32): PyReadings {
    var tempF := if FloatEq(tempC, MinusOneTwentySeven) then MinusOneTwentySeven else Fahrenheit(fu, tempC);
    if !IsInf(mS) then
      PyReadings(raw, mS, fu.mul(mS, Thousand), fu.div(mS, Thousand),
        fu.mul(mS, FiveHundred), fu.mul(mS, SixForty), fu.mul(mS, SevenHundred), salinity, tempC, tempF)
    else
      PyReadings(raw, MinusOne, MinusOne, MinusOne, MinusOne, MinusOne, MinusOne, MinusOne, tempC, tempF)
  }

  /** The attributes _updateRegisters leaves for a register file. */
  function PyMeasurement(rt: PyFloats, regs: Registers): PyReadings {
    PyReadout(rt.fu, rt.round(LoadFloat(regs, RawRegister)), PyMsCandidate(rt, regs),
      rt.round(LoadFloat(regs, SalinityRegister)), rt.round(LoadFloat(regs, TempRegister)))
  }

  /** The float registers _updateRegisters reads, in order. */
  function PyMeasurementReads(rt: PyFloats, regs: Registers): seq<nat> {
    [RawRegister]
    + (if FloatEq(rt.round(LoadFloat(regs, RawRegister)), PosZero) then [] else [MsRegister])
    + (if !IsInf(PyMsCandidate(rt, regs)) then [SalinityRegister] else [])
    + [TempRegister]
  }

  function PyMeasurementTrace(t: Log, rt: PyFloats, a: int, regs: Registers): Log {
    var t1 := ReadFloatTrace(t, a, regs, RawRegister);
    var t2 := if FloatEq(rt.round(LoadFloat(regs, RawRegister)), PosZero) then t1 else ReadFloatTrace(t1, a, regs, MsRegister);
    var t3 := if !IsInf(PyMsCandidate(rt, regs)) then ReadFloatTrace(t2, a, regs, SalinityRegister) else t2;
    ReadFloatTrace(t3, a, regs, TempRegister)
  }

  /** _updateRegisters performs one float read per register of PyMeasurementReads, in that order. */
  lemma PyMeasurementTraceReads(t: Log, rt: PyFloats, a: int, regs: Registers)
    ensures PyMeasurementTrace(t, rt, a, regs) == ReadsTrace(t, a, regs, PyMeasurementReads(rt, regs))
    ensures Selected(PyMeasurementTrace(t, rt, a, regs)) == Selected(t) + PyMeasurementReads(rt, regs)
  {
    var zero := FloatEq(rt.round(LoadFloat(regs, RawRegister)), PosZero);
    var finite := !IsInf(PyMsCandidate(rt, regs));
    assert PyMeasurementReads(rt, regs) == UpdateReads(zero, finite);
    UpdateTraceReads(t, a, regs, zero, finite);
  }

  /** When raw reads zero, mS, the PPM values, uS, S and salinityPSU are all -1,
      and neither the mS nor the salinity register is read. */
  lemma PyRawZeroGivesSentinels(rt: PyFloats, regs: Registers)
    requires FloatEq(rt.round(LoadFloat(regs, RawRegister)), PosZero)
    ensures var m := PyMeasurement(rt, regs);
      m.mS == MinusOne && m.ppm500 == MinusOne && m.ppm640 == MinusOne && m.ppm700 == MinusOne
      && m.uS == MinusOne && m.s == MinusOne && m.salinityPSU == MinusOne
    ensures PyMeasurementReads(rt, regs) == [RawRegister, TempRegister]
  {
  }

  /** When raw is nonzero but the mS register rounds to an infinity, the
      attributes are -1 as well, and mS is read but salinity is not. */
  lemma PyInfiniteMsGivesSentinels(rt: PyFloats, regs: Registers)
    requires !FloatEq(rt.round(LoadFloat(regs, RawRegister)), PosZero)
    requires IsInf(rt.round(LoadFloat(regs, MsRegister)))
    ensures var m := PyMeasurement(rt, regs);
      m.mS == MinusOne && m.ppm500 == MinusOne && m.ppm640 == MinusOne && m.ppm700 == MinusOne
      && m.uS == MinusOne && m.s == MinusOne && m.salinityPSU == MinusOne
    ensures PyMeasurementReads(rt, regs) == [RawRegister, MsRegister, TempRegister]
  {
  }

  /** With a non-infinite mS the attributes are its products and the salinity register is read. */
  lemma PyReadingGivesProducts(rt: PyFloats, regs: Registers)
    requires !FloatEq(rt.round(LoadFloat(regs, RawRegister)), PosZero)
    requires !IsInf(rt.round(LoadFloat(regs, MsRegister)))
    ensures var m := PyMeasurement(rt, regs); var mS := rt.round(LoadFloat(regs, MsRegister));
      m.mS == mS && m.uS == rt.fu.mul(mS, Thousand) && m.s == rt.fu.div(mS, Thousand)
      && m.ppm500 == rt.fu.mul(mS, FiveHundred) && m.ppm640 == rt.fu.mul(mS, SixForty)
      && m.ppm700 == rt.fu.mul(mS, SevenHundred)
      && m.salinityPSU == rt.round(LoadFloat(regs, SalinityRegister))
    ensures PyMeasurementReads(rt, regs) == [RawRegister, MsRegister, SalinityRegister, TempRegister]
  {
  }

  /** The temperature is read on both branches, last; -127 passes through to Fahrenheit. */
  lemma PyTemperatureAlwaysRead(rt: PyFloats, regs: Registers)
    ensures var m := PyMeasurement(rt, regs);
      m.tempC == rt.round(LoadFloat(regs, TempRegister))
      && (m.tempC == MinusOneTwentySeven ==> m.tempF == MinusOneTwentySeven)
      && (m.tempC != MinusOneTwentySeven ==> m.tempF == Fahrenheit(rt.fu, m.tempC))
    ensures var rs := PyMeasurementReads(rt, regs); rs[0] == RawRegister && rs[|rs| - 1] == TempRegister
  {
    SentinelComparison(rt.round(LoadFloat(regs, TempRegister)));
  }

  /** Where the two drivers part: with a nonzero raw count and NaN in the mS
      register, the C++ driver reports -1 and skips the salinity read, while the
      Python driver, which only tests for infinity, reports NaN and reads salinity. */
  lemma NaNReadingDiverges(rt: PyFloats, regs: Registers)
    requires RoundingFacts(rt.round)
    requires !IsZero(LoadFloat(regs, RawRegister)) && IsNaN(LoadFloat(regs, MsRegister))
    ensures Measurement(rt.fu, regs).mS == MinusOne && SalinityRegister !in MeasurementReads(regs)
    ensures IsNaN(PyMeasurement(rt, regs).mS) && SalinityRegister in PyMeasurementReads(rt, regs)
  {
    HasReadingExactly(regs);
    ZeroComparison(rt.round(LoadFloat(regs, RawRegister)));
    assert IsNaN(rt.round(LoadFloat(regs, MsRegister)));
  }

  /** With rounding that keeps zeros zero, the Python and C++ drivers take the
      raw-zero branch on the same register files. */
  lemma RawZeroAgrees(rt: PyFloats, regs: Registers)
    requires RoundingFacts(rt.round)
    ensures FloatEq(rt.round(LoadFloat(regs, RawRegister)), PosZero) <==> FloatEq(LoadFloat(regs, RawRegister), PosZero)
  {
    ZeroComparison(rt.round(LoadFloat(regs, RawRegister)));
    ZeroComparison(LoadFloat(regs, RawRegister));
  }

  // ---------------------------------------------------------------------------
  // Register-level effects of the operations

  /** measureEC's writes: compensation on and the temperature only for a truthy
      temperature, the constant only for a truthy constant, then the command. */
  function PyMeasureEcRegs(rt: PyFloats, regs: Registers, temp: Option<bv32>, constant: Option<bv32>): Registers {
    var r1 := if Truthy(temp) then StoreFloat(CompensationRegs(regs, true), TempRegister, rt.round(temp.value)) else regs;
    var r2 := if Truthy(constant) then StoreFloat(r1, TempCompensationRegister, rt.round(constant.value)) else r1;
    StoreByte(r2, TaskRegister, MeasureEcCommand)
  }

  function PyMeasureEcTrace(t: Log, rt: PyFloats, a: int, regs: Registers, temp: Option<bv32>, constant: Option<bv32>): Log {
    var r1 := if Truthy(temp) then StoreFloat(CompensationRegs(regs, true), TempRegister, rt.round(temp.value)) else regs;
    var t1 := if Truthy(temp) then PyFloatWriteTrace(CompensationTrace(t, a, regs, true), a, TempRegister, rt.round(temp.value)) else t;
    var t2 := if Truthy(constant) then PyFloatWriteTrace(t1, a, TempCompensationRegister, rt.round(constant.value)) else t1;
    CommandTrace(t2, a, MeasureEcCommand)
  }

  /** measureEC's writes, in Python's order: for a truthy temperature the config
      byte (selected, read and stored) and then the temperature register (selected
      and stored); for a truthy constant the constant register; then the command. */
  lemma PyMeasureEcTraceOrder(t: Log, rt: PyFloats, a: int, regs: Registers, temp: Option<bv32>, constant: Option<bv32>)
    ensures var tempPart: seq<nat> := if Truthy(temp) then [ConfigRegister, TempRegister] else [];
      var constantPart: seq<nat> := if Truthy(constant) then [TempCompensationRegister] else [];
      Stored(PyMeasureEcTrace(t, rt, a, regs, temp, constant)) == Stored(t) + tempPart + constantPart + [TaskRegister]
      && Selected(PyMeasureEcTrace(t, rt, a, regs, temp, constant)) == Selected(t) + tempPart + constantPart
  {
    var t1 := if Truthy(temp) then PyFloatWriteTrace(CompensationTrace(t, a, regs, true), a, TempRegister, rt.round(temp.value)) else t;
    var t2 := if Truthy(constant) then PyFloatWriteTrace(t1, a, TempCompensationRegister, rt.round(constant.value)) else t1;
    var tempPart: seq<nat> := if Truthy(temp) then [ConfigRegister, TempRegister] else [];
    var constantPart: seq<nat> := if Truthy(constant) then [TempCompensationRegister] else [];
    if Truthy(temp) {
      CompensationTraceOrder(t, a, regs, true);
      PyFloatWriteTraceOrder(CompensationTrace(t, a, regs, true), a, TempRegister, rt.round(temp.value));
    }
    assert Stored(t1) == Stored(t) + tempPart && Selected(t1) == Selected(t) + tempPart;
    if Truthy(constant) {
      PyFloatWriteTraceOrder(t1, a, TempCompensationRegister, rt.round(constant.value));
    }
    assert Stored(t2) == Stored(t) + tempPart + constantPart && Selected(t2) == Selected(t) + tempPart + constantPart;
    WriteByteTraceOrder(t2, a, TaskRegister, MeasureEcCommand);
  }

  /** The attributes setTemp leaves when measureEC is given a truthy temperature. */
  function SetTempReadings(fu: FloatUnit, m: PyReadings, temp: Option<bv32>): PyReadings {
    if Truthy(temp) then m.(tempC := temp.value, tempF := Fahrenheit(fu, temp.value)) else m
  }

  /** A truthy temperature turns compensation on and lands in register 5; a falsy
      one (None or zero) leaves the config byte and register 5 alone. The
      constant lands in register 45 exactly when it is truthy. */
  lemma PyMeasureEcEffects(rt: PyFloats, regs: Registers, temp: Option<bv32>, constant: Option<bv32>)
    ensures var r := PyMeasureEcRegs(rt, regs, temp, constant);
      r[TaskRegister] == MeasureEcCommand
      && (Truthy(temp) ==> (BitRead(r[ConfigRegister], TempCompensationBit) == 1
        && LoadFloat(r, TempRegister) == rt.round(temp.value)))
      && (!Truthy(temp) ==> (r[ConfigRegister] == regs[ConfigRegister]
        && LoadFloat(r, TempRegister) == LoadFloat(regs, TempRegister)))
      && (Truthy(constant) ==> LoadFloat(r, TempCompensationRegister) == rt.round(constant.value))
      && (!Truthy(constant) ==> LoadFloat(r, TempCompensationRegister) == LoadFloat(regs, TempCompensationRegister))
  {
    var r1 := if Truthy(temp) then StoreFloat(CompensationRegs(regs, true), TempRegister, rt.round(temp.value)) else regs;
    var r2 := if Truthy(constant) then StoreFloat(r1, TempCompensationRegister, rt.round(constant.value)) else r1;
    if Truthy(temp) {
      var c := CompensationRegs(regs, true);
      CompensationChangesOnlyItsBit(regs, true);
      LoadAfterStore(c, TempRegister, rt.round(temp.value));
      CompensationKeepsFloats(regs, true, TempCompensationRegister);
      LoadAfterStoreElsewhere(c, TempRegister, rt.round(temp.value), TempCompensationRegister);
    }
    if Truthy(constant) {
      LoadAfterStoreElsewhere(r1, TempCompensationRegister, rt.round(constant.value), TempRegister);
      LoadAfterStore(r1, TempCompensationRegister, rt.round(constant.value));
    }
    LoadAfterStoreByte(r2, TaskRegister, MeasureEcCommand, TempRegister);
    LoadAfterStoreByte(r2, TaskRegister, MeasureEcCommand, TempCompensationRegister);
  }

  /** Python's `/` raises ZeroDivisionError on a divisor of either zero, so
      _mS_to_mS25 returns only when the rescale divisor is not zero. */
  predicate RescaleDivides(fu: FloatUnit, coef: bv32, tempC: bv32) {
    !IsZero(RescaleDivisor(fu, coef, tempC))
  }

  /** The calibration writes: the rounded, rescaled solution in register 9, then
      the opcode; none at all when _mS_to_mS25 raises. */
  function PyCalibrationRegs(rt: PyFloats, regs: Registers, solution: bv32, tempC: bv32, op: bv8): Registers {
    var coef := rt.round(LoadFloat(regs, TempCoefRegister));
    if RescaleDivides(rt.fu, coef, tempC) then
      StoreByte(StoreFloat(regs, SolutionRegister, rt.round(ToMs25(rt.fu, solution, coef, tempC))), TaskRegister, op)
    else
      regs
  }

  /** The coefficient read, then (unless the rescale raised) the solution write and the command. */
  function PyCalibrationTrace(t: Log, rt: PyFloats, a: int, regs: Registers, solution: bv32, tempC: bv32, op: bv8): Log {
    var coef := rt.round(LoadFloat(regs, TempCoefRegister));
    var t0 := ReadFloatTrace(t, a, regs, TempCoefRegister);
    if RescaleDivides(rt.fu, coef, tempC) then
      CommandTrace(PyFloatWriteTrace(t0, a, SolutionRegister, rt.round(ToMs25(rt.fu, solution, coef, tempC))), a, op)
    else
      t0
  }

  /** calibrate* selects the coefficient to read it; when the rescale divides it
      then selects and stores the solution register and stores the command, and
      otherwise it stores nothing. */
  lemma PyCalibrationTraceOrder(t: Log, rt: PyFloats, a: int, regs: Registers, solution: bv32, tempC: bv32, op: bv8)
    ensures var divides := RescaleDivides(rt.fu, rt.round(LoadFloat(regs, TempCoefRegister)), tempC);
      Selected(PyCalibrationTrace(t, rt, a, regs, solution, tempC, op))
        == Selected(t) + [TempCoefRegister] + (if divides then [SolutionRegister] else [])
    ensures var divides := RescaleDivides(rt.fu, rt.round(LoadFloat(regs, TempCoefRegister)), tempC);
      Stored(PyCalibrationTrace(t, rt, a, regs, solution, tempC, op))
        == Stored(t) + (if divides then [SolutionRegister, TaskRegister] else [])
  {
    var coef := rt.round(LoadFloat(regs, TempCoefRegister));
    var scaled := ToMs25(rt.fu, solution, coef, tempC);
    var t0 := ReadFloatTrace(t, a, regs, TempCoefRegister);
    SelectedOfFloatRead(t, a, regs, TempCoefRegister);
    ReadFloatTraceStoresNothing(t, a, regs, TempCoefRegister);
    if RescaleDivides(rt.fu, coef, tempC) {
      var t1 := PyFloatWriteTrace(t0, a, SolutionRegister, rt.round(scaled));
      PyFloatWriteTraceOrder(t0, a, SolutionRegister, rt.round(scaled));
      WriteByteTraceOrder(t1, a, TaskRegister, op);
    }
  }

  /** When the rescale divides, register 9 holds the rounded, rescaled solution
      and register 55 the opcode; when it raises, nothing changes. At 25 degrees
      with a finite coefficient it always divides, and the value written is the
      rounded solution itself. */
  lemma PyCalibrationEffects(rt: PyFloats, regs: Registers, solution: bv32, tempC: bv32, op: bv8)
    ensures var coef := rt.round(LoadFloat(regs, TempCoefRegister));
      var r := PyCalibrationRegs(rt, regs, solution, tempC, op);
      RescaleDivides(rt.fu, coef, tempC) ==>
        LoadFloat(r, SolutionRegister) == rt.round(ToMs25(rt.fu, solution, coef, tempC)) && r[TaskRegister] == op
    ensures var coef := rt.round(LoadFloat(regs, TempCoefRegister));
      !RescaleDivides(rt.fu, coef, tempC) ==> PyCalibrationRegs(rt, regs, solution, tempC, op) == regs
    ensures (IeeeIdentities(rt.fu) && IsFinite(rt.round(LoadFloat(regs, TempCoefRegister))) && tempC == TwentyFive)
      ==> RescaleDivides(rt.fu, rt.round(LoadFloat(regs, TempCoefRegister)), tempC)
    ensures (IeeeIdentities(rt.fu) && IsFinite(rt.round(LoadFloat(regs, TempCoefRegister))) && !IsNaN(solution)
      && tempC == TwentyFive) ==> LoadFloat(PyCalibrationRegs(rt, regs, solution, tempC, op), SolutionRegister) == rt.round(solution)
  {
    var coef := rt.round(LoadFloat(regs, TempCoefRegister));
    var scaled := rt.round(ToMs25(rt.fu, solution, coef, tempC));
    LoadAfterStore(regs, SolutionRegister, scaled);
    LoadAfterStoreByte(StoreFloat(regs, SolutionRegister, scaled), TaskRegister, op, SolutionRegister);
    if IeeeIdentities(rt.fu) && IsFinite(coef) && tempC == TwentyFive {
      LiteralValues();
      RescaleDivisorAt25(rt.fu, coef);
      if !IsNaN(solution) {
        RescaleIdentityAt25(rt.fu, solution, coef);
      }
    }
  }

  /** Where the rescale divisor is zero the drivers part ways: C++ divides anyway
      and writes the IEEE quotient (an infinity or NaN) to register 9 and the
      opcode to register 55, while Python raises ZeroDivisionError and writes
      nothing. The coefficient is taken to be one that round_total_digits keeps,
      so that both drivers divide by the same value. */
  lemma ZeroDivisorDiverges(rt: PyFloats, regs: Registers, solution: bv32, tempC: bv32, op: bv8)
    requires rt.round(LoadFloat(regs, TempCoefRegister)) == LoadFloat(regs, TempCoefRegister)
    requires IsZero(RescaleDivisor(rt.fu, LoadFloat(regs, TempCoefRegister), tempC))
    ensures PyCalibrationRegs(rt, regs, solution, tempC, op) == regs
    ensures var r := CalibrationRegs(rt.fu, regs, solution, tempC, op);
      LoadFloat(r, SolutionRegister) == rt.fu.div(solution, RescaleDivisor(rt.fu, LoadFloat(regs, TempCoefRegister), tempC))
      && r[TaskRegister] == op
  {
    CalibrationEffects(rt.fu, regs, solution, tempC, op);
  }

  function PyDualPointTrace(t: Log, a: int, refLow: bv32, refHigh: bv32, readLow: bv32, readHigh: bv32): Log {
    var t1 := PyFloatWriteTrace(PyFloatWriteTrace(t, a, RefLowRegister, refLow), a, RefHighRegister, refHigh);
    PyFloatWriteTrace(PyFloatWriteTrace(t1, a, ReadLowRegister, readLow), a, ReadHighRegister, readHigh)
  }

  /** setDualPointCalibration selects and stores the low reference, the high
      reference, the low reading and the high reading, in that order. */
  lemma PyDualPointTraceOrder(t: Log, a: int, refLow: bv32, refHigh: bv32, readLow: bv32, readHigh: bv32)
    ensures var order: seq<nat> := [RefLowRegister, RefHighRegister, ReadLowRegister, ReadHighRegister];
      Stored(PyDualPointTrace(t, a, refLow, refHigh, readLow, readHigh)) == Stored(t) + order
      && Selected(PyDualPointTrace(t, a, refLow, refHigh, readLow, readHigh)) == Selected(t) + order
  {
    var t1 := PyFloatWriteTrace(t, a, RefLowRegister, refLow);
    var t2 := PyFloatWriteTrace(t1, a, RefHighRegister, refHigh);
    var t3 := PyFloatWriteTrace(t2, a, ReadLowRegister, readLow);
    PyFloatWriteTraceOrder(t, a, RefLowRegister, refLow);
    PyFloatWriteTraceOrder(t1, a, RefHighRegister, refHigh);
    PyFloatWriteTraceOrder(t2, a, ReadLowRegister, readLow);
    PyFloatWriteTraceOrder(t3, a, ReadHighRegister, readHigh);
    assert Stored(t) + [RefLowRegister] + [RefHighRegister] + [ReadLowRegister] + [ReadHighRegister]
      == Stored(t) + [RefLowRegister, RefHighRegister, ReadLowRegister, ReadHighRegister];
    assert Selected(t) + [RefLowRegister] + [RefHighRegister] + [ReadLowRegister] + [ReadHighRegister]
      == Selected(t) + [RefLowRegister, RefHighRegister, ReadLowRegister, ReadHighRegister];
  }

  /** reset's effect: the rounded NaN, 25 and 0.019 written in the C++ order, then compensation off. */
  function PyResetRegs(rt: PyFloats, regs: Registers): Registers {
    CompensationRegs(ResetWrites(regs, rt.round(QuietNaN), rt.round(TwentyFive), rt.round(DefaultCoefficient)), false)
  }

  function PyResetTrace(t: Log, rt: PyFloats, a: int, regs: Registers): Log {
    var n := rt.round(QuietNaN);
    var t1 := PyFloatWriteTrace(PyFloatWriteTrace(t, a, OffsetRegister, n), a, RefHighRegister, n);
    var t2 := PyFloatWriteTrace(PyFloatWriteTrace(t1, a, RefLowRegister, n), a, ReadHighRegister, n);
    var t3 := PyFloatWriteTrace(PyFloatWriteTrace(t2, a, ReadLowRegister, n), a, TempCompensationRegister, rt.round(TwentyFive));
    CompensationTrace(PyFloatWriteTrace(t3, a, TempCoefRegister, rt.round(DefaultCoefficient)), a,
      ResetWrites(regs, n, rt.round(TwentyFive), rt.round(DefaultCoefficient)), false)
  }

  /** The seven float writes of reset, before the config byte. */
  function PyResetFrames(t: Log, a: int, n: bv32, c: bv32, k: bv32): Log {
    var t1 := PyFloatWriteTrace(PyFloatWriteTrace(t, a, OffsetRegister, n), a, RefHighRegister, n);
    var t2 := PyFloatWriteTrace(PyFloatWriteTrace(t1, a, RefLowRegister, n), a, ReadHighRegister, n);
    var t3 := PyFloatWriteTrace(PyFloatWriteTrace(t2, a, ReadLowRegister, n), a, TempCompensationRegister, c);
    PyFloatWriteTrace(t3, a, TempCoefRegister, k)
  }

  /** Each of those writes selects its register and stores from it, in the order of ResetOrder. */
  lemma PyResetFramesOrder(t: Log, a: int, n: bv32, c: bv32, k: bv32)
    ensures Stored(PyResetFrames(t, a, n, c, k)) == Stored(t) + ResetOrder
    ensures Selected(PyResetFrames(t, a, n, c, k)) == Selected(t) + ResetOrder
  {
    var w1 := PyFloatWriteTrace(t, a, OffsetRegister, n);
    var t1 := PyFloatWriteTrace(w1, a, RefHighRegister, n);
    var w2 := PyFloatWriteTrace(t1, a, RefLowRegister, n);
    var t2 := PyFloatWriteTrace(w2, a, ReadHighRegister, n);
    var w3 := PyFloatWriteTrace(t2, a, ReadLowRegister, n);
    var t3 := PyFloatWriteTrace(w3, a, TempCompensationRegister, c);
    PyFloatWriteTraceOrder(t, a, OffsetRegister, n);
    PyFloatWriteTraceOrder(w1, a, RefHighRegister, n);
    PyFloatWriteTraceOrder(t1, a, RefLowRegister, n);
    PyFloatWriteTraceOrder(w2, a, ReadHighRegister, n);
    PyFloatWriteTraceOrder(t2, a, ReadLowRegister, n);
    PyFloatWriteTraceOrder(w3, a, TempCompensationRegister, c);
    PyFloatWriteTraceOrder(t3, a, TempCoefRegister, k);
    var order := [OffsetRegister] + [RefHighRegister] + [RefLowRegister] + [ReadHighRegister]
      + [ReadLowRegister] + [TempCompensationRegister] + [TempCoefRegister];
    assert order == ResetOrder;
  }

  /** reset selects and stores the seven registers in the C++ order, then selects,
      reads and stores the config byte. */
  lemma PyResetTraceOrder(t: Log, rt: PyFloats, a: int, regs: Registers)
    ensures Stored(PyResetTrace(t, rt, a, regs)) == Stored(t) + ResetOrder + [ConfigRegister]
    ensures Selected(PyResetTrace(t, rt, a, regs)) == Selected(t) + ResetOrder + [ConfigRegister]
  {
    var n := rt.round(QuietNaN);
    var c := rt.round(TwentyFive);
    var k := rt.round(DefaultCoefficient);
    var frames := PyResetFrames(t, a, n, c, k);
    assert PyResetTrace(t, rt, a, regs) == CompensationTrace(frames, a, ResetWrites(regs, n, c, k), false);
    PyResetFramesOrder(t, a, n, c, k);
    CompensationTraceOrder(frames, a, ResetWrites(regs, n, c, k), false);
  }

  /** The Python reset leaves the register file the C++ reset leaves, so the
      five calibration registers read back NaN, the constant 25, the coefficient
      0.019, and compensation is off. */
  lemma PyResetMatchesCpp(rt: PyFloats, regs: Registers)
    requires RoundingFacts(rt.round)
    ensures PyResetRegs(rt, regs) == ResetRegs(regs)
    ensures var r := PyResetRegs(rt, regs);
      IsNaN(rt.round(LoadFloat(r, OffsetRegister))) && IsNaN(rt.round(LoadFloat(r, RefHighRegister)))
      && IsNaN(rt.round(LoadFloat(r, RefLowRegister))) && IsNaN(rt.round(LoadFloat(r, ReadHighRegister)))
      && IsNaN(rt.round(LoadFloat(r, ReadLowRegister)))
      && rt.round(LoadFloat(r, TempCompensationRegister)) == TwentyFive
      && rt.round(LoadFloat(r, TempCoefRegister)) == DefaultCoefficient
      && BitRead(r[ConfigRegister], TempCompensationBit) == 0
  {
    ResetClearsCalibration(regs);
    ResetRestoresDefaults(regs);
    ResetDisablesCompensation(regs);
  }

  /** setI2CAddress's writes: the rounded address in register 9, then command 4. */
  function PyIndirectRegs(rt: PyFloats, regs: Registers, n: int, op: bv8): Registers {
    StoreByte(StoreFloat(regs, SolutionRegister, rt.round(rt.fu.fromInt(n))), TaskRegister, op)
  }

  function PyWriteEepromRegs(rt: PyFloats, regs: Registers, cell: int, value: bv32): Registers {
    StoreByte(StoreFloat(StoreFloat(regs, SolutionRegister, rt.round(rt.fu.fromInt(cell))), BufferRegister, rt.round(value)),
      TaskRegister, WriteCommand)
  }

  /** readEEPROM leaves the cell number in register 9 and command 2 in register 55
      and returns the rounded buffer register; writeEEPROM leaves the cell number,
      the rounded value in register 49 and command 1. */
  lemma PyEepromEffects(rt: PyFloats, regs: Registers, cell: int, value: bv32)
    ensures var r := PyIndirectRegs(rt, regs, cell, ReadCommand);
      LoadFloat(r, SolutionRegister) == rt.round(rt.fu.fromInt(cell)) && r[TaskRegister] == ReadCommand
      && LoadFloat(r, BufferRegister) == LoadFloat(regs, BufferRegister)
    ensures var w := PyWriteEepromRegs(rt, regs, cell, value);
      LoadFloat(w, SolutionRegister) == rt.round(rt.fu.fromInt(cell))
      && LoadFloat(w, BufferRegister) == rt.round(value) && w[TaskRegister] == WriteCommand
  {
    var n := rt.round(rt.fu.fromInt(cell));
    var r1 := StoreFloat(regs, SolutionRegister, n);
    LoadAfterStore(regs, SolutionRegister, n);
    LoadAfterStoreByte(r1, TaskRegister, ReadCommand, SolutionRegister);
    LoadAfterStoreElsewhere(regs, SolutionRegister, n, BufferRegister);
    LoadAfterStoreByte(r1, TaskRegister, ReadCommand, BufferRegister);
    var r2 := StoreFloat(r1, BufferRegister, rt.round(value));
    LoadAfterStoreElsewhere(r1, BufferRegister, rt.round(value), SolutionRegister);
    LoadAfterStoreByte(r2, TaskRegister, WriteCommand, SolutionRegister);
    LoadAfterStore(r1, BufferRegister, rt.round(value));
    LoadAfterStoreByte(r2, TaskRegister, WriteCommand, BufferRegister);
  }

  /** On the stand-in, readEEPROM right after writeEEPROM of the same cell returns the value rounded twice. */
  lemma PyEepromReadAfterWrite(rt: PyFloats, regs: Registers, cell: int, value: bv32)
    ensures rt.round(LoadFloat(PyIndirectRegs(rt, PyWriteEepromRegs(rt, regs, cell, value), cell, ReadCommand), BufferRegister))
      == rt.round(rt.round(value))
  {
    PyEepromEffects(rt, regs, cell, value);
    PyEepromEffects(rt, PyWriteEepromRegs(rt, regs, cell, value), cell, value);
  }

  /** The value of blocking after setBlocking(v): only the strings '0' and '1' change it. */
  function BlockingAfter(current: bool, v: PyValue): (b: bool)
    ensures v == PyStr("0") ==> !b
    ensures v == PyStr("1") ==> b
    ensures v != PyStr("0") && v != PyStr("1") ==> b == current
  {
    if v == PyStr("0") then false else if v == PyStr("1") then true else current
  }

  /** The address guard of setI2CAddress. */
  predicate ValidAddress(n: int) {
    1 <= n <= 127
  }

  // ---------------------------------------------------------------------------
  // The driver

  class UfirePy {
    const bus: RegisterFile
    const rt: PyFloats
    var address: int
    var blocking: bool
    var readings: PyReadings

    /** __init__: the address given (0x3c by default), blocking on, the attributes 0. */
    constructor (bus: RegisterFile, rt: PyFloats, address: int)
      ensures this.bus == bus && this.rt == rt && this.address == address
      ensures blocking && readings == Unmeasured
    {
      this.bus := bus;
      this.rt := rt;
      this.address := address;
      blocking := true;
      readings := Unmeasured;
    }

    // --- transport --------------------------------------------------------

    /** _change_register: a one-byte write selecting register r. */
    method ChangeRegister(r: bv8)
      modifies bus
      ensures bus.regs == old(bus.regs) && bus.pointer == r as nat
      ensures bus.trace == Then(old(bus.trace), Write(address, [r]))
    {
      var frame := [r];
      assert frame[1..] == [];
      WrittenNothing(bus.regs, r as nat);
      bus.Transmit(address, frame);
    }

    /** _send_command: [55, command]. */
    method SendCommand(op: bv8)
      modifies bus
      ensures bus.regs == StoreByte(old(bus.regs), TaskRegister, op) && bus.pointer == Size
      ensures bus.trace == CommandTrace(old(bus.trace), address, op)
    {
      var frame: seq<bv8> := [TaskRegister as bv8, op];
      assert frame[1..] == [op];
      RegisterByte(TaskRegister);
      bus.Transmit(address, frame);
    }

    /** _write_register: rounds the value, selects the register, then sends the block write. */
    method WriteRegister(r: nat, f: bv32)
      requires r + 4 <= Size
      modifies bus
      ensures bus.regs == StoreFloat(old(bus.regs), r, rt.round(f)) && bus.pointer == r + 4
      ensures bus.trace == PyFloatWriteTrace(old(bus.trace), address, r, rt.round(f))
    {
      var n := rt.round(f);
      RegisterByte(r);
      ChangeRegister(r as bv8);
      var data := [r as bv8] + Split(n);
      assert data == FloatFrame(r, n);
      FloatFrameRoundTrip(bus.regs, r, n);
      bus.Transmit(address, data);
    }

    /** _read_register: select, four one-byte reads unpacked in memory order, then rounded. */
    method ReadRegister(r: nat) returns (f: bv32)
      requires r + 4 <= Size
      modifies bus
      ensures f == rt.round(LoadFloat(old(bus.regs), r))
      ensures bus.regs == old(bus.regs) && bus.pointer == r + 4
      ensures bus.trace == ReadFloatTrace(old(bus.trace), address, old(bus.regs), r)
    {
      RegisterByte(r);
      ChangeRegister(r as bv8);
      var b0 := bus.Receive(address);
      var b1 := bus.Receive(address);
      var b2 := bus.Receive(address);
      var b3 := bus.Receive(address);
      assert b0 == old(bus.regs)[r] && b1 == old(bus.regs)[r + 1] && b2 == old(bus.regs)[r + 2] && b3 == old(bus.regs)[r + 3];
      f := rt.round(Join([b0, b1, b2, b3]));
    }

    /** _write_byte: [reg, val]. */
    method WriteByte(r: nat, v: bv8)
      requires r < Size
      modifies bus
      ensures bus.regs == StoreByte(old(bus.regs), r, v) && bus.pointer == r + 1
      ensures bus.trace == WriteByteTrace(old(bus.trace), address, r, v)
    {
      var frame := [r as bv8, v];
      assert frame[1..] == [v];
      RegisterByte(r);
      bus.Transmit(address, frame);
    }

    /** _read_byte: select, then one one-byte read. */
    method ReadByte(r: nat) returns (v: bv8)
      requires r < Size
      modifies bus
      ensures v == old(bus.regs)[r]
      ensures bus.regs == old(bus.regs) && bus.pointer == r + 1
      ensures bus.trace == ReadByteTrace(old(bus.trace), address, old(bus.regs), r)
    {
      RegisterByte(r);
      ChangeRegister(r as bv8);
      v := bus.Receive(address);
    }

    // --- measurement ------------------------------------------------------

    method UpdateRegisters()
      modifies this, bus
      ensures readings == PyMeasurement(rt, old(bus.regs))
      ensures address == old(address) && blocking == old(blocking)
      ensures bus.regs == old(bus.regs) && bus.pointer == TempRegister + 4
      ensures bus.trace == PyMeasurementTrace(old(bus.trace), rt, address, old(bus.regs))
    {
      var rawValue := ReadRegister(RawRegister);
      var ms: bv32;
      if FloatEq(rawValue, PosZero) {
        ms := PosInf;
      } else {
        ms := ReadRegister(MsRegister);
      }
      var salinity := MinusOne;
      if !IsInf(ms) {
        salinity := ReadRegister(SalinityRegister);
      }
      var celsius := ReadRegister(TempRegister);
      readings := PyReadout(rt.fu, rawValue, ms, salinity, celsius);
    }

    /** _measure: command 80, then an update when blocking; returns mS. */
    method Measure() returns (result: bv32)
      modifies this, bus
      ensures bus.regs == StoreByte(old(bus.regs), TaskRegister, MeasureEcCommand)
      ensures readings == if blocking then PyMeasurement(rt, bus.regs) else old(readings)
      ensures bus.trace == if blocking then PyMeasurementTrace(CommandTrace(old(bus.trace), address, MeasureEcCommand), rt, address, bus.regs)
        else CommandTrace(old(bus.trace), address, MeasureEcCommand)
      ensures bus.pointer == if blocking then TempRegister + 4 else Size
      ensures result == readings.mS && address == old(address) && blocking == old(blocking)
    {
      SendCommand(MeasureEcCommand);
      if blocking {
        UpdateRegisters();
      }
      result := readings.mS;
    }

    /** measureEC(temp, temp_constant); the Python defaults are Some(25) and None. */
    method MeasureEC(temp: Option<bv32>, constant: Option<bv32>) returns (result: bv32)
      modifies this, bus
      ensures bus.regs == PyMeasureEcRegs(rt, old(bus.regs), temp, constant)
      ensures readings == if blocking then PyMeasurement(rt, bus.regs) else SetTempReadings(rt.fu, old(readings), temp)
      ensures bus.trace == if blocking then PyMeasurementTrace(PyMeasureEcTrace(old(bus.trace), rt, address, old(bus.regs), temp, constant), rt, address, bus.regs)
        else PyMeasureEcTrace(old(bus.trace), rt, address, old(bus.regs), temp, constant)
      ensures bus.pointer == if blocking then TempRegister + 4 else Size
      ensures result == readings.mS && address == old(address) && blocking == old(blocking)
    {
      if Truthy(temp) {
        UseTemperatureCompensation(true);
        SetTemp(temp.value);
      }
      if Truthy(constant) {
        SetTempConstant(constant.value);
      }
      result := Measure();
    }

    /** measureTemp: command 40, an update when blocking, then an update regardless. */
    method MeasureTemp() returns (result: bv32)
      modifies this, bus
      ensures bus.regs == StoreByte(old(bus.regs), TaskRegister, MeasureTempCommand)
      ensures readings == PyMeasurement(rt, bus.regs) && result == readings.tempC
      ensures bus.pointer == TempRegister + 4
      ensures var t := CommandTrace(old(bus.trace), address, MeasureTempCommand);
        bus.trace == if blocking then PyMeasurementTrace(PyMeasurementTrace(t, rt, address, bus.regs), rt, address, bus.regs)
          else PyMeasurementTrace(t, rt, address, bus.regs)
      ensures address == old(address) && blocking == old(blocking)
    {
      SendCommand(MeasureTempCommand);
      if blocking {
        UpdateRegisters();
      }
      UpdateRegisters();
      result := readings.tempC;
    }

    /** setTemp: the rounded value goes to register 5; tempC keeps the argument itself. */
    method SetTemp(t: bv32)
      modifies this, bus
      ensures bus.regs == StoreFloat(old(bus.regs), TempRegister, rt.round(t)) && bus.pointer == TempRegister + 4
      ensures bus.trace == PyFloatWriteTrace(old(bus.trace), address, TempRegister, rt.round(t))
      ensures readings == old(readings).(tempC := t, tempF := Fahrenheit(rt.fu, t))
      ensures address == old(address) && blocking == old(blocking)
    {
      WriteRegister(TempRegister, t);
      readings := readings.(tempC := t, tempF := Fahrenheit(rt.fu, t));
    }

    /** useTemperatureCompensation: read the config byte, _bit_set bit 1, write it back. */
    method UseTemperatureCompensation(b: bool)
      modifies bus
      ensures bus.regs == CompensationRegs(old(bus.regs), b) && bus.pointer == ConfigRegister + 1
      ensures bus.trace == CompensationTrace(old(bus.trace), address, old(bus.regs), b)
    {
      var retval := ReadByte(ConfigRegister);
      retval := BitAssign(retval, TempCompensationBit, b);
      WriteByte(ConfigRegister, retval);
    }

    method SetTempConstant(c: bv32)
      modifies bus
      ensures bus.regs == StoreFloat(old(bus.regs), TempCompensationRegister, rt.round(c))
      ensures bus.pointer == TempCompensationRegister + 4
      ensures bus.trace == PyFloatWriteTrace(old(bus.trace), address, TempCompensationRegister, rt.round(c))
    {
      WriteRegister(TempCompensationRegister, c);
    }

    method GetTempConstant() returns (f: bv32)
      modifies bus
      ensures f == rt.round(LoadFloat(old(bus.regs), TempCompensationRegister))
      ensures bus.regs == old(bus.regs) && bus.pointer == TempCompensationRegister + 4
      ensures bus.trace == ReadFloatTrace(old(bus.trace), address, old(bus.regs), TempCompensationRegister)
    {
      f := ReadRegister(TempCompensationRegister);
    }

    method SetTempCoefficient(coef: bv32)
      modifies bus
      ensures bus.regs == StoreFloat(old(bus.regs), TempCoefRegister, rt.round(coef)) && bus.pointer == TempCoefRegister + 4
      ensures bus.trace == PyFloatWriteTrace(old(bus.trace), address, TempCoefRegister, rt.round(coef))
    {
      WriteRegister(TempCoefRegister, coef);
    }

    method GetTempCoefficient() returns (f: bv32)
      modifies bus
      ensures f == rt.round(LoadFloat(old(bus.regs), TempCoefRegister))
      ensures bus.regs == old(bus.regs) && bus.pointer == TempCoefRegister + 4
      ensures bus.trace == ReadFloatTrace(old(bus.trace), address, old(bus.regs), TempCoefRegister)
    {
      f := ReadRegister(TempCoefRegister);
    }

    // --- calibration --------------------------------------------------------

    /** _mS_to_mS25 with the rounded coefficient read from register 13; None
        where the division raises ZeroDivisionError. */
    method MsToMs25(solution: bv32, t: bv32) returns (scaled: Option<bv32>)
      modifies bus
      ensures var coef := rt.round(LoadFloat(old(bus.regs), TempCoefRegister));
        scaled == if RescaleDivides(rt.fu, coef, t) then Some(ToMs25(rt.fu, solution, coef, t)) else None
      ensures bus.regs == old(bus.regs) && bus.pointer == TempCoefRegister + 4
      ensures bus.trace == ReadFloatTrace(old(bus.trace), address, old(bus.regs), TempCoefRegister)
    {
      var coef := GetTempCoefficient();
      var divisor := rt.fu.sub(One, rt.fu.mul(coef, rt.fu.sub(t, TwentyFive)));
      if IsZero(divisor) {
        scaled := None;
      } else {
        scaled := Some(rt.fu.div(solution, divisor));
      }
    }

    /** calibrateProbe: rescale, write, command 20; nothing is returned. `ok` is
        false where _mS_to_mS25 raised, and then nothing is written. */
    method CalibrateProbe(solution: bv32, t: bv32) returns (ok: bool)
      modifies bus
      ensures ok == RescaleDivides(rt.fu, rt.round(LoadFloat(old(bus.regs), TempCoefRegister)), t)
      ensures bus.regs == PyCalibrationRegs(rt, old(bus.regs), solution, t, CalibrateProbeCommand)
      ensures bus.pointer == if ok then Size else TempCoefRegister + 4
      ensures bus.trace == PyCalibrationTrace(old(bus.trace), rt, address, old(bus.regs), solution, t, CalibrateProbeCommand)
    {
      var scaled := MsToMs25(solution, t);
      ok := scaled.Some?;
      if ok {
        WriteRegister(SolutionRegister, scaled.value);
        SendCommand(CalibrateProbeCommand);
      }
    }

    /** calibrateProbeLow: rescale, write, command 10; nothing is returned. `ok`
        is false where _mS_to_mS25 raised, and then nothing is written. */
    method CalibrateProbeLow(solution: bv32, t: bv32) returns (ok: bool)
      modifies bus
      ensures ok == RescaleDivides(rt.fu, rt.round(LoadFloat(old(bus.regs), TempCoefRegister)), t)
      ensures bus.regs == PyCalibrationRegs(rt, old(bus.regs), solution, t, CalibrateLowCommand)
      ensures bus.pointer == if ok then Size else TempCoefRegister + 4
      ensures bus.trace == PyCalibrationTrace(old(bus.trace), rt, address, old(bus.regs), solution, t, CalibrateLowCommand)
    {
      var scaled := MsToMs25(solution, t);
      ok := scaled.Some?;
      if ok {
        WriteRegister(SolutionRegister, scaled.value);
        SendCommand(CalibrateLowCommand);
      }
    }

    /** calibrateProbeHigh: rescale, write, command 8, then the high reading;
        None where _mS_to_mS25 raised, and then nothing is written or read back. */
    method CalibrateProbeHigh(solution: bv32, t: bv32) returns (reading: Option<bv32>)
      modifies bus
      ensures var ok := RescaleDivides(rt.fu, rt.round(LoadFloat(old(bus.regs), TempCoefRegister)), t);
        && bus.regs == PyCalibrationRegs(rt, old(bus.regs), solution, t, CalibrateHighCommand)
        && reading == (if ok then Some(rt.round(LoadFloat(bus.regs, ReadHighRegister))) else None)
        && bus.pointer == (if ok then ReadHighRegister + 4 else TempCoefRegister + 4)
        && bus.trace == if ok then
             ReadFloatTrace(PyCalibrationTrace(old(bus.trace), rt, address, old(bus.regs), solution, t, CalibrateHighCommand),
               address, bus.regs, ReadHighRegister)
           else PyCalibrationTrace(old(bus.trace), rt, address, old(bus.regs), solution, t, CalibrateHighCommand)
    {
      var scaled := MsToMs25(solution, t);
      if scaled.Some? {
        WriteRegister(SolutionRegister, scaled.value);
        SendCommand(CalibrateHighCommand);
        var high := GetCalibrateHighReading();
        reading := Some(high);
      } else {
        reading := None;
      }
    }

    method GetCalibrateOffset() returns (f: bv32)
      modifies bus
      ensures f == rt.round(LoadFloat(old(bus.regs), OffsetRegister))
      ensures bus.regs == old(bus.regs) && bus.pointer == OffsetRegister + 4
      ensures bus.trace == ReadFloatTrace(old(bus.trace), address, old(bus.regs), OffsetRegister)
    {
      f := ReadRegister(OffsetRegister);
    }

    method GetCalibrateHighReference() returns (f: bv32)
      modifies bus
      ensures f == rt.round(LoadFloat(old(bus.regs), RefHighRegister))
      ensures bus.regs == old(bus.regs) && bus.pointer == RefHighRegister + 4
      ensures bus.trace == ReadFloatTrace(old(bus.trace), address, old(bus.regs), RefHighRegister)
    {
      f := ReadRegister(RefHighRegister);
    }

    method GetCalibrateLowReference() returns (f: bv32)
      modifies bus
      ensures f == rt.round(LoadFloat(old(bus.regs), RefLowRegister))
      ensures bus.regs == old(bus.regs) && bus.pointer == RefLowRegister + 4
      ensures bus.trace == ReadFloatTrace(old(bus.trace), address, old(bus.regs), RefLowRegister)
    {
      f := ReadRegister(RefLowRegister);
    }

    method GetCalibrateHighReading() returns (f: bv32)
      modifies bus
      ensures f == rt.round(LoadFloat(old(bus.regs), ReadHighRegister))
      ensures bus.regs == old(bus.regs) && bus.pointer == ReadHighRegister + 4
      ensures bus.trace == ReadFloatTrace(old(bus.trace), address, old(bus.regs), ReadHighRegister)
    {
      f := ReadRegister(ReadHighRegister);
    }

    method GetCalibrateLowReading() returns (f: bv32)
      modifies bus
      ensures f == rt.round(LoadFloat(old(bus.regs), ReadLowRegister))
      ensures bus.regs == old(bus.regs) && bus.pointer == ReadLowRegister + 4
      ensures bus.trace == ReadFloatTrace(old(bus.trace), address, old(bus.regs), ReadLowRegister)
    {
      f := ReadRegister(ReadLowRegister);
    }

    method SetCalibrateOffset(offset: bv32)
      modifies bus
      ensures bus.regs == StoreFloat(old(bus.regs), OffsetRegister, rt.round(offset)) && bus.pointer == OffsetRegister + 4
      ensures bus.trace == PyFloatWriteTrace(old(bus.trace), address, OffsetRegister, rt.round(offset))
    {
      WriteRegister(OffsetRegister, offset);
    }

    method SetDualPointCalibration(refLow: bv32, refHigh: bv32, readLow: bv32, readHigh: bv32)
      modifies bus
      ensures bus.regs == DualPointRegs(old(bus.regs), rt.round(refLow), rt.round(refHigh), rt.round(readLow), rt.round(readHigh))
      ensures bus.pointer == ReadHighRegister + 4
      ensures bus.trace == PyDualPointTrace(old(bus.trace), address, rt.round(refLow), rt.round(refHigh), rt.round(readLow), rt.round(readHigh))
    {
      WriteRegister(RefLowRegister, refLow);
      WriteRegister(RefHighRegister, refHigh);
      WriteRegister(ReadLowRegister, readLow);
      WriteRegister(ReadHighRegister, readHigh);
    }

    // --- utilities ----------------------------------------------------------

    method GetVersion() returns (v: bv8)
      modifies bus
      ensures v == old(bus.regs)[VersionRegister]
      ensures bus.regs == old(bus.regs) && bus.pointer == VersionRegister + 1
      ensures bus.trace == ReadByteTrace(old(bus.trace), address, old(bus.regs), VersionRegister)
    {
      v := ReadByte(VersionRegister);
    }

    method GetFirmware() returns (v: bv8)
      modifies bus
      ensures v == old(bus.regs)[FirmwareRegister]
      ensures bus.regs == old(bus.regs) && bus.pointer == FirmwareRegister + 1
      ensures bus.trace == ReadByteTrace(old(bus.trace), address, old(bus.regs), FirmwareRegister)
    {
      v := ReadByte(FirmwareRegister);
    }

    method Reset()
      modifies bus
      ensures bus.regs == PyResetRegs(rt, old(bus.regs)) && bus.pointer == ConfigRegister + 1
      ensures bus.trace == PyResetTrace(old(bus.trace), rt, address, old(bus.regs))
    {
      var n := QuietNaN;
      WriteRegister(OffsetRegister, n);
      WriteRegister(RefHighRegister, n);
      WriteRegister(RefLowRegister, n);
      WriteRegister(ReadHighRegister, n);
      WriteRegister(ReadLowRegister, n);
      SetTempConstant(TwentyFive);
      SetTempCoefficient(DefaultCoefficient);
      UseTemperatureCompensation(false);
    }

    /** setI2CAddress: outside 1..127 nothing happens; otherwise the address goes to
        register 9 and command 4 is sent, both to the old address, and the driver
        then switches to the new one. */
    method SetI2CAddress(n: int)
      modifies this, bus
      ensures ValidAddress(n) ==> (bus.regs == PyIndirectRegs(rt, old(bus.regs), n, I2CCommand) && address == n
        && bus.pointer == Size
        && bus.trace == CommandTrace(PyFloatWriteTrace(old(bus.trace), old(address), SolutionRegister,
          rt.round(rt.fu.fromInt(n))), old(address), I2CCommand))
      ensures !ValidAddress(n) ==> (bus.regs == old(bus.regs) && bus.pointer == old(bus.pointer)
        && bus.trace == old(bus.trace) && address == old(address))
      ensures blocking == old(blocking) && readings == old(readings)
    {
      if 1 <= n && n <= 127 {
        WriteRegister(SolutionRegister, rt.fu.fromInt(n));
        SendCommand(I2CCommand);
        address := n;
      }
    }

    method Connected() returns (c: bool)
      modifies bus
      ensures c <==> old(bus.regs)[VersionRegister] != 0xFF
      ensures bus.regs == old(bus.regs) && bus.pointer == VersionRegister + 1
      ensures bus.trace == ReadByteTrace(old(bus.trace), address, old(bus.regs), VersionRegister)
    {
      var retval := ReadByte(VersionRegister);
      if retval != 0xFF {
        c := true;
      } else {
        c := false;
      }
    }

    method ReadEEPROM(cell: int) returns (value: bv32)
      modifies bus
      ensures bus.regs == PyIndirectRegs(rt, old(bus.regs), cell, ReadCommand) && bus.pointer == BufferRegister + 4
      ensures value == rt.round(LoadFloat(bus.regs, BufferRegister))
      ensures bus.trace == ReadFloatTrace(CommandTrace(PyFloatWriteTrace(old(bus.trace), address, SolutionRegister,
        rt.round(rt.fu.fromInt(cell))), address, ReadCommand), address, bus.regs, BufferRegister)
    {
      WriteRegister(SolutionRegister, rt.fu.fromInt(cell));
      SendCommand(ReadCommand);
      value := ReadRegister(BufferRegister);
    }

    method WriteEEPROM(cell: int, value: bv32)
      modifies bus
      ensures bus.regs == PyWriteEepromRegs(rt, old(bus.regs), cell, value) && bus.pointer == Size
      ensures bus.trace == CommandTrace(PyFloatWriteTrace(PyFloatWriteTrace(old(bus.trace), address, SolutionRegister,
        rt.round(rt.fu.fromInt(cell))), address, BufferRegister, rt.round(value)), address, WriteCommand)
    {
      WriteRegister(SolutionRegister, rt.fu.fromInt(cell));
      WriteRegister(BufferRegister, value);
      SendCommand(WriteCommand);
    }

    method SetBlocking(v: PyValue)
      modifies this
      ensures blocking == BlockingAfter(old(blocking), v)
      ensures address == old(address) && readings == old(readings)
    {
      if v == PyStr("0") {
        blocking := false;
      }
      if v == PyStr("1") {
        blocking := true;
      }
    }

    method GetBlocking() returns (b: bool)
      ensures b == blocking
    {
      b := blocking;
    }

    /** readData: an update, then the five calibration registers read and discarded. */
    method ReadData()
      modifies this, bus
      ensures readings == PyMeasurement(rt, old(bus.regs))
      ensures address == old(address) && blocking == old(blocking)
      ensures bus.regs == old(bus.regs) && bus.pointer == OffsetRegister + 4
      ensures bus.trace == CalibrationReadsTrace(PyMeasurementTrace(old(bus.trace), rt, address, old(bus.regs)), address, old(bus.regs))
    {
      UpdateRegisters();
      var _ := GetCalibrateHighReading();
      var _ := GetCalibrateHighReference();
      var _ := GetCalibrateLowReading();
      var _ := GetCalibrateLowReference();
      var _ := GetCalibrateOffset();
    }
  }
}
