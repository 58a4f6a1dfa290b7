/** The Rust driver (struct EcProbe in rust/src/lib.rs), run against the same
    register-file stand-in. It writes a float as a register select followed by
    four [register + i, byte i] writes, never rescales a calibration solution
    to 25 degrees, keeps no measurement fields, returns the register it reads,
    and its reset writes the same values as the C++ one but in another order
    and without touching the config byte. */
module RustProbe {
  import opened Binary32
  import opened Bits
  import opened RegisterMap
  import opened Bus
  import opened EcDriver

  /** An `u16` argument (set_i2c_address). */
  type Uint16 = x: int | 0 <= x < 0x1_0000

  /** _write_register's effect: byte i of the value stored at register r + i, one write each. */
  function ByteWrites(regs: Registers, r: nat, f: bv32): Registers
    requires r + 4 <= Size
  {
    var b := Split(f);
    StoreByte(StoreByte(StoreByte(StoreByte(regs, r, b[0]), r + 1, b[1]), r + 2, b[2]), r + 3, b[3])
  }

  /** The four one-byte writes store the float exactly as the C++ driver's one
      five-byte frame does, so the register reads back as written. */
  lemma ByteWritesStoreTheFloat(regs: Registers, r: nat, f: bv32)
    requires r + 4 <= Size
    ensures ByteWrites(regs, r, f) == StoreFloat(regs, r, f)
    ensures LoadFloat(ByteWrites(regs, r, f), r) == f
  {
    var b := Split(f);
    var w := ByteWrites(regs, r, f);
    forall i | 0 <= i < Size
      ensures w[i] == StoreFloat(regs, r, f)[i]
    {
    }
    LoadAfterStore(regs, r, f);
  }

  /** _write_register's transactions: a register select, then [r + i, byte i] for i = 0..3. */
  function RustFloatWriteTrace(t: Log, a: int, r: nat, f: bv32): Log
    requires r + 4 <= Size
  {
    var b := Split(f);
    var t1 := WriteByteTrace(WriteByteTrace(Then(t, Write(a, [r as bv8])), a, r, b[0]), a, r + 1, b[1]);
    WriteByteTrace(WriteByteTrace(t1, a, r + 2, b[2]), a, r + 3, b[3])
  }

  /** The registers the frames of a log write, one byte each, in order. */
  function ByteTargets(t: Log): seq<nat> {
    if t.Start? then []
    else ByteTargets(t.earlier) + (if t.last.Write? && |t.last.bytes| == 2 then [t.last.bytes[0] as nat] else [])
  }

  /** A byte write [r, v] targets r and selects nothing. */
  lemma ByteWriteTargets(t: Log, a: int, r: nat, v: bv8)
    requires r < Size
    ensures ByteTargets(WriteByteTrace(t, a, r, v)) == ByteTargets(t) + [r]
    ensures Selected(WriteByteTrace(t, a, r, v)) == Selected(t)
  {
    RegisterByte(r);
    assert Selected(WriteByteTrace(t, a, r, v)) == Selected(t) + [];
  }

  /** Four byte writes to r..r+3 target those registers in order and select nothing. */
  lemma FourByteWritesTargets(t: Log, a: int, r: nat, b0: bv8, b1: bv8, b2: bv8, b3: bv8)
    requires r + 4 <= Size
    ensures var w := WriteByteTrace(WriteByteTrace(WriteByteTrace(WriteByteTrace(t, a, r, b0), a, r + 1, b1), a, r + 2, b2), a, r + 3, b3);
      ByteTargets(w) == ByteTargets(t) + [r, r + 1, r + 2, r + 3] && Selected(w) == Selected(t)
  {
    var t1 := WriteByteTrace(t, a, r, b0);
    var t2 := WriteByteTrace(t1, a, r + 1, b1);
    var t3 := WriteByteTrace(t2, a, r + 2, b2);
    ByteWriteTargets(t, a, r, b0);
    ByteWriteTargets(t1, a, r + 1, b1);
    ByteWriteTargets(t2, a, r + 2, b2);
    ByteWriteTargets(t3, a, r + 3, b3);
    assert ByteTargets(t) + [r] + [r + 1] + [r + 2] + [r + 3] == ByteTargets(t) + [r, r + 1, r + 2, r + 3];
  }

  /** A float write addresses the register, then its four bytes one after the other. */
  lemma RustFloatWriteTargets(t: Log, a: int, r: nat, f: bv32)
    requires r + 4 <= Size
    ensures Selected(RustFloatWriteTrace(t, a, r, f)) == Selected(t) + [r]
    ensures ByteTargets(RustFloatWriteTrace(t, a, r, f)) == ByteTargets(t) + [r, r + 1, r + 2, r + 3]
  {
    var b := Split(f);
    RegisterByte(r);
    var t0 := Then(t, Write(a, [r as bv8]));
    assert Selected(t0) == Selected(t) + [r];
    assert ByteTargets(t0) == ByteTargets(t) + [];
    FourByteWritesTargets(t0, a, r, b[0], b[1], b[2], b[3]);
  }

  /** reset's writes, in the Rust order: NaN to the low reference, high reference,
      low reading, high reading and offset, then 25 and 0.019. */
  function RustResetRegs(regs: Registers): Registers {
    var r1 := StoreFloat(StoreFloat(regs, RefLowRegister, QuietNaN), RefHighRegister, QuietNaN);
    var r2 := StoreFloat(StoreFloat(r1, ReadLowRegister, QuietNaN), ReadHighRegister, QuietNaN);
    var r3 := StoreFloat(r2, OffsetRegister, QuietNaN);
    StoreFloat(StoreFloat(r3, TempCompensationRegister, TwentyFive), TempCoefRegister, DefaultCoefficient)
  }

  function RustResetTrace(t: Log, a: int): Log {
    var t1 := RustFloatWriteTrace(RustFloatWriteTrace(t, a, RefLowRegister, QuietNaN), a, RefHighRegister, QuietNaN);
    var t2 := RustFloatWriteTrace(RustFloatWriteTrace(t1, a, ReadLowRegister, QuietNaN), a, ReadHighRegister, QuietNaN);
    var t3 := RustFloatWriteTrace(t2, a, OffsetRegister, QuietNaN);
    RustFloatWriteTrace(RustFloatWriteTrace(t3, a, TempCompensationRegister, TwentyFive), a, TempCoefRegister, DefaultCoefficient)
  }

  /** The registers Rust's reset selects, in its order. */
  const RustResetOrder: seq<nat> := [RefLowRegister, RefHighRegister, ReadLowRegister, ReadHighRegister,
    OffsetRegister, TempCompensationRegister, TempCoefRegister]

  /** The four byte registers of the float slot at r. */
  function Slot(r: nat): seq<nat> {
    [r, r + 1, r + 2, r + 3]
  }

  /** reset selects the seven registers in the Rust order, and after each select
      writes the four bytes of that slot in ascending order. */
  lemma RustResetTraceOrder(t: Log, a: int)
    ensures Selected(RustResetTrace(t, a)) == Selected(t) + RustResetOrder
    ensures ByteTargets(RustResetTrace(t, a)) == ByteTargets(t) + Slot(RefLowRegister) + Slot(RefHighRegister)
      + Slot(ReadLowRegister) + Slot(ReadHighRegister) + Slot(OffsetRegister)
      + Slot(TempCompensationRegister) + Slot(TempCoefRegister)
  {
    var w1 := RustFloatWriteTrace(t, a, RefLowRegister, QuietNaN);
    var t1 := RustFloatWriteTrace(w1, a, RefHighRegister, QuietNaN);
    var w2 := RustFloatWriteTrace(t1, a, ReadLowRegister, QuietNaN);
    var t2 := RustFloatWriteTrace(w2, a, ReadHighRegister, QuietNaN);
    var t3 := RustFloatWriteTrace(t2, a, OffsetRegister, QuietNaN);
    var w4 := RustFloatWriteTrace(t3, a, TempCompensationRegister, TwentyFive);
    RustFloatWriteTargets(t, a, RefLowRegister, QuietNaN);
    RustFloatWriteTargets(w1, a, RefHighRegister, QuietNaN);
    RustFloatWriteTargets(t1, a, ReadLowRegister, QuietNaN);
    RustFloatWriteTargets(w2, a, ReadHighRegister, QuietNaN);
    RustFloatWriteTargets(t2, a, OffsetRegister, QuietNaN);
    RustFloatWriteTargets(t3, a, TempCompensationRegister, TwentyFive);
    RustFloatWriteTargets(w4, a, TempCoefRegister, DefaultCoefficient);
    var order := [RefLowRegister] + [RefHighRegister] + [ReadLowRegister] + [ReadHighRegister]
      + [OffsetRegister] + [TempCompensationRegister] + [TempCoefRegister];
    assert order == RustResetOrder;
  }

  /** The slots are disjoint, so the Rust order stores what the C++ order stores. */
  lemma RustResetIsCppWrites(regs: Registers)
    ensures RustResetRegs(regs) == ResetWrites(regs, QuietNaN, TwentyFive, DefaultCoefficient)
  {
    var r := RustResetRegs(regs);
    var c := ResetWrites(regs, QuietNaN, TwentyFive, DefaultCoefficient);
    forall i | 0 <= i < Size
      ensures r[i] == c[i]
    {
    }
  }

  /** After the Rust reset the five calibration slots read back NaN (as its doc
      example asserts), the constant is 25, the coefficient 0.019, and, unlike
      the C++ reset, the config byte is as it was. */
  lemma RustResetEffects(regs: Registers)
    ensures var r := RustResetRegs(regs);
      IsNaN(LoadFloat(r, OffsetRegister)) && IsNaN(LoadFloat(r, RefHighRegister))
      && IsNaN(LoadFloat(r, RefLowRegister)) && IsNaN(LoadFloat(r, ReadHighRegister))
      && IsNaN(LoadFloat(r, ReadLowRegister))
      && LoadFloat(r, TempCompensationRegister) == TwentyFive && LoadFloat(r, TempCoefRegister) == DefaultCoefficient
      && r[ConfigRegister] == regs[ConfigRegister]
    ensures ResetRegs(regs) == CompensationRegs(RustResetRegs(regs), false)
  {
    RustResetIsCppWrites(regs);
    ResetWritesReadBack(regs, QuietNaN, TwentyFive, DefaultCoefficient);
    ResetWritesFrame(regs, QuietNaN, TwentyFive, DefaultCoefficient);
  }

  /** measure_ec's writes: compensation on, the temperature, then command 80. */
  function RustMeasureEcRegs(regs: Registers, temp: bv32): Registers {
    StoreByte(StoreFloat(CompensationRegs(regs, true), TempRegister, temp), TaskRegister, MeasureEcCommand)
  }

  /** measure_ec leaves compensation on (the flag that use_temperature_compensation's
      doc example reads back as 1), the temperature in register 5 and the command in register 55, and the mS
      register it returns is the one in place before the call. */
  lemma RustMeasureEcEffects(regs: Registers, temp: bv32)
    ensures var r := RustMeasureEcRegs(regs, temp);
      BitRead(r[ConfigRegister], TempCompensationBit) == 1
      && BitRead(r[ConfigRegister], DualPointBit) == BitRead(regs[ConfigRegister], DualPointBit)
      && LoadFloat(r, TempRegister) == temp && r[TaskRegister] == MeasureEcCommand
      && LoadFloat(r, MsRegister) == LoadFloat(regs, MsRegister)
  {
    var c := CompensationRegs(regs, true);
    var w := StoreFloat(c, TempRegister, temp);
    CompensationChangesOnlyItsBit(regs, true);
    LoadAfterStore(c, TempRegister, temp);
    LoadAfterStoreByte(w, TaskRegister, MeasureEcCommand, TempRegister);
    CompensationKeepsFloats(regs, true, MsRegister);
    LoadAfterStoreElsewhere(c, TempRegister, temp, MsRegister);
    LoadAfterStoreByte(w, TaskRegister, MeasureEcCommand, MsRegister);
  }

  /** A calibration: the solution itself in register 9, then the opcode. */
  function RustCalibrationRegs(regs: Registers, solution: bv32, op: bv8): Registers {
    StoreByte(StoreFloat(regs, SolutionRegister, solution), TaskRegister, op)
  }

  /** The Rust calibrations write the solution unscaled; the C++ ones write the
      same value only when calibrating at 25 degrees. */
  lemma RustCalibrationIsUnscaled(fu: FloatUnit, regs: Registers, solution: bv32, op: bv8)
    ensures LoadFloat(RustCalibrationRegs(regs, solution, op), SolutionRegister) == solution
    ensures RustCalibrationRegs(regs, solution, op)[TaskRegister] == op
    ensures IeeeIdentities(fu) && IsFinite(LoadFloat(regs, TempCoefRegister)) && !IsNaN(solution)
      ==> CalibrationRegs(fu, regs, solution, TwentyFive, op) == RustCalibrationRegs(regs, solution, op)
  {
    LoadAfterStore(regs, SolutionRegister, solution);
    LoadAfterStoreByte(StoreFloat(regs, SolutionRegister, solution), TaskRegister, op, SolutionRegister);
    if IeeeIdentities(fu) && IsFinite(LoadFloat(regs, TempCoefRegister)) && !IsNaN(solution) {
      RescaleIdentityAt25(fu, solution, LoadFloat(regs, TempCoefRegister));
    }
  }

  /** write_eeprom's writes: the cell to register 9, the value to 49, then command 1. */
  function RustWriteEepromRegs(regs: Registers, cell: bv32, value: bv32): Registers {
    StoreByte(StoreFloat(StoreFloat(regs, SolutionRegister, cell), BufferRegister, value), TaskRegister, WriteCommand)
  }

  /** On the stand-in, write_eeprom returns the value it wrote. */
  lemma RustWriteEepromReturnsValue(regs: Registers, cell: bv32, value: bv32)
    ensures LoadFloat(RustWriteEepromRegs(regs, cell, value), BufferRegister) == value
    ensures LoadFloat(RustWriteEepromRegs(regs, cell, value), SolutionRegister) == cell
  {
    var r1 := StoreFloat(regs, SolutionRegister, cell);
    var r2 := StoreFloat(r1, BufferRegister, value);
    LoadAfterStore(r1, BufferRegister, value);
    LoadAfterStoreByte(r2, TaskRegister, WriteCommand, BufferRegister);
    LoadAfterStore(regs, SolutionRegister, cell);
    LoadAfterStoreElsewhere(r1, BufferRegister, value, SolutionRegister);
    LoadAfterStoreByte(r2, TaskRegister, WriteCommand, SolutionRegister);
  }

  class EcProbe {
    const bus: RegisterFile
    /** The bus address the device was opened with; no method changes it. */
    var address: int

    /** new: the device is opened at a fixed bus address. */
    constructor (bus: RegisterFile, address: Uint16)
      ensures this.bus == bus && this.address == address
    {
      this.bus := bus;
      this.address := address;
    }

    // --- transport --------------------------------------------------------

    /** _change_register: smbus_write_byte(register). */
    method ChangeRegister(r: bv8)
      modifies bus
      ensures bus.regs == old(bus.regs) && bus.pointer == r as nat
      ensures bus.trace == Then(old(bus.trace), Write(address, [r]))
    {
      var frame := [r];
      assert frame[1..] == [];
      WrittenNothing(bus.regs, r as nat);
      bus.Transmit(address, frame);
    }

    /** smbus_write_byte_data(register, value): the frame [register, value]. */
    method WriteByteData(r: nat, v: bv8)
      requires r < Size
      modifies bus
      ensures bus.regs == StoreByte(old(bus.regs), r, v) && bus.pointer == r + 1
      ensures bus.trace == WriteByteTrace(old(bus.trace), address, r, v)
    {
      var frame := [r as bv8, v];
      assert frame[1..] == [v];
      RegisterByte(r);
      bus.Transmit(address, frame);
    }

    /** _write_register: select, then byte i of the value to register + i. */
    method WriteRegister(r: nat, f: bv32)
      requires r + 4 <= Size
      modifies bus
      ensures bus.regs == StoreFloat(old(bus.regs), r, f) && bus.pointer == r + 4
      ensures bus.trace == RustFloatWriteTrace(old(bus.trace), address, r, f)
    {
      var buf := Split(f);
      RegisterByte(r);
      ChangeRegister(r as bv8);
      WriteBytes(r, buf[0], buf[1], buf[2], buf[3]);
      ByteWritesStoreTheFloat(old(bus.regs), r, f);
    }

    /** The four smbus_write_byte_data calls of _write_register. */
    method WriteBytes(r: nat, b0: bv8, b1: bv8, b2: bv8, b3: bv8)
      requires r + 4 <= Size
      modifies bus
      ensures bus.regs == StoreByte(StoreByte(StoreByte(StoreByte(old(bus.regs), r, b0), r + 1, b1), r + 2, b2), r + 3, b3)
      ensures bus.pointer == r + 4
      ensures bus.trace == WriteByteTrace(WriteByteTrace(WriteByteTrace(WriteByteTrace(old(bus.trace),
        address, r, b0), address, r + 1, b1), address, r + 2, b2), address, r + 3, b3)
    {
      WriteByteData(r + 0, b0);
      WriteByteData(r + 1, b1);
      WriteByteData(r + 2, b2);
      WriteByteData(r + 3, b3);
    }

    /** _read_register: select, four one-byte reads, decoded little-endian. */
    method ReadRegister(r: nat) returns (f: bv32)
      requires r + 4 <= Size
      modifies bus
      ensures f == LoadFloat(old(bus.regs), r)
      ensures bus.regs == old(bus.regs) && bus.pointer == r + 4
      ensures bus.trace == ReadFloatTrace(old(bus.trace), address, old(bus.regs), r)
    {
      RegisterByte(r);
      ChangeRegister(r as bv8);
      var b0 := bus.Receive(address);
      var b1 := bus.Receive(address);
      var b2 := bus.Receive(address);
      var b3 := bus.Receive(address);
      assert b0 == old(bus.regs)[r] && b1 == old(bus.regs)[r + 1] && b2 == old(bus.regs)[r + 2] && b3 == old(bus.regs)[r + 3];
      f := Join([b0, b1, b2, b3]);
    }

    /** A byte register: select, then one one-byte read. */
    method ReadByteRegister(r: nat) returns (v: bv8)
      requires r < Size
      modifies bus
      ensures v == old(bus.regs)[r]
      ensures bus.regs == old(bus.regs) && bus.pointer == r + 1
      ensures bus.trace == ReadByteTrace(old(bus.trace), address, old(bus.regs), r)
    {
      RegisterByte(r);
      ChangeRegister(r as bv8);
      v := bus.Receive(address);
    }

    // --- measurement ------------------------------------------------------

    method MeasureTemp() returns (t: bv32)
      modifies bus
      ensures bus.regs == StoreByte(old(bus.regs), TaskRegister, MeasureTempCommand)
      ensures t == LoadFloat(bus.regs, TempRegister) && bus.pointer == TempRegister + 4
      ensures bus.trace == ReadFloatTrace(CommandTrace(old(bus.trace), address, MeasureTempCommand), address, bus.regs, TempRegister)
    {
      WriteByteData(TaskRegister, MeasureTempCommand);
      t := ReadRegister(TempRegister);
    }

    method SetTemp(t: bv32)
      modifies bus
      ensures bus.regs == StoreFloat(old(bus.regs), TempRegister, t) && bus.pointer == TempRegister + 4
      ensures bus.trace == RustFloatWriteTrace(old(bus.trace), address, TempRegister, t)
    {
      WriteRegister(TempRegister, t);
    }

    method CalibrateSingle(solution: bv32)
      modifies bus
      ensures bus.regs == RustCalibrationRegs(old(bus.regs), solution, CalibrateProbeCommand) && bus.pointer == Size
      ensures bus.trace == CommandTrace(RustFloatWriteTrace(old(bus.trace), address, SolutionRegister, solution), address, CalibrateProbeCommand)
    {
      WriteRegister(SolutionRegister, solution);
      WriteByteData(TaskRegister, CalibrateProbeCommand);
    }

    method CalibrateProbeLow(solution: bv32)
      modifies bus
      ensures bus.regs == RustCalibrationRegs(old(bus.regs), solution, CalibrateLowCommand) && bus.pointer == Size
      ensures bus.trace == CommandTrace(RustFloatWriteTrace(old(bus.trace), address, SolutionRegister, solution), address, CalibrateLowCommand)
    {
      WriteRegister(SolutionRegister, solution);
      WriteByteData(TaskRegister, CalibrateLowCommand);
    }

    method CalibrateProbeHigh(solution: bv32)
      modifies bus
      ensures bus.regs == RustCalibrationRegs(old(bus.regs), solution, CalibrateHighCommand) && bus.pointer == Size
      ensures bus.trace == CommandTrace(RustFloatWriteTrace(old(bus.trace), address, SolutionRegister, solution), address, CalibrateHighCommand)
    {
      WriteRegister(SolutionRegister, solution);
      WriteByteData(TaskRegister, CalibrateHighCommand);
    }

    /** measure_ec: compensation on, the temperature, command 80, then the mS register. */
    method MeasureEc(temp: bv32) returns (mS: bv32)
      modifies bus
      ensures bus.regs == RustMeasureEcRegs(old(bus.regs), temp) && bus.pointer == MsRegister + 4
      ensures mS == LoadFloat(bus.regs, MsRegister)
      ensures bus.trace == ReadFloatTrace(CommandTrace(RustFloatWriteTrace(CompensationTrace(old(bus.trace), address, old(bus.regs), true),
        address, TempRegister, temp), address, MeasureEcCommand), address, bus.regs, MsRegister)
    {
      UseTemperatureCompensation(true);
      WriteRegister(TempRegister, temp);
      WriteByteData(TaskRegister, MeasureEcCommand);
      mS := ReadRegister(MsRegister);
    }

    /** measure_salinity: the temperature, command 80, then the salinity register. */
    method MeasureSalinity(temp: bv32) returns (psu: bv32)
      modifies bus
      ensures bus.regs == StoreByte(StoreFloat(old(bus.regs), TempRegister, temp), TaskRegister, MeasureEcCommand)
      ensures psu == LoadFloat(bus.regs, SalinityRegister) && bus.pointer == SalinityRegister + 4
      ensures bus.trace == ReadFloatTrace(CommandTrace(RustFloatWriteTrace(old(bus.trace), address, TempRegister, temp),
        address, MeasureEcCommand), address, bus.regs, SalinityRegister)
    {
      WriteRegister(TempRegister, temp);
      WriteByteData(TaskRegister, MeasureEcCommand);
      psu := ReadRegister(SalinityRegister);
    }

    /** use_temperature_compensation: read the config byte, OR in or AND out bit 1, write it back. */
    method UseTemperatureCompensation(b: bool)
      modifies bus
      ensures bus.regs == CompensationRegs(old(bus.regs), b) && bus.pointer == ConfigRegister + 1
      ensures bus.trace == CompensationTrace(old(bus.trace), address, old(bus.regs), b)
    {
      var config := ReadByteRegister(ConfigRegister);
      if b {
        config := BitSet(config, TempCompensationBit);
      } else {
        config := BitClear(config, TempCompensationBit);
      }
      WriteByteData(ConfigRegister, config);
    }

    /** measure_raw: command 80, then the raw register. */
    method MeasureRaw() returns (raw: bv32)
      modifies bus
      ensures bus.regs == StoreByte(old(bus.regs), TaskRegister, MeasureEcCommand)
      ensures raw == LoadFloat(bus.regs, RawRegister) && bus.pointer == RawRegister + 4
      ensures bus.trace == ReadFloatTrace(CommandTrace(old(bus.trace), address, MeasureEcCommand), address, bus.regs, RawRegister)
    {
      WriteByteData(TaskRegister, MeasureEcCommand);
      raw := ReadRegister(RawRegister);
    }

    method SetTempConstant(c: bv32)
      modifies bus
      ensures bus.regs == StoreFloat(old(bus.regs), TempCompensationRegister, c) && bus.pointer == TempCompensationRegister + 4
      ensures bus.trace == RustFloatWriteTrace(old(bus.trace), address, TempCompensationRegister, c)
    {
      WriteRegister(TempCompensationRegister, c);
    }

    method GetTempConstant() returns (f: bv32)
      modifies bus
      ensures f == LoadFloat(old(bus.regs), TempCompensationRegister)
      ensures bus.regs == old(bus.regs) && bus.pointer == TempCompensationRegister + 4
      ensures bus.trace == ReadFloatTrace(old(bus.trace), address, old(bus.regs), TempCompensationRegister)
    {
      f := ReadRegister(TempCompensationRegister);
    }

    method SetTempCoefficient(coef: bv32)
      modifies bus
      ensures bus.regs == StoreFloat(old(bus.regs), TempCoefRegister, coef) && bus.pointer == TempCoefRegister + 4
      ensures bus.trace == RustFloatWriteTrace(old(bus.trace), address, TempCoefRegister, coef)
    {
      WriteRegister(TempCoefRegister, coef);
    }

    method GetTempCoefficient() returns (f: bv32)
      modifies bus
      ensures f == LoadFloat(old(bus.regs), TempCoefRegister)
      ensures bus.regs == old(bus.regs) && bus.pointer == TempCoefRegister + 4
      ensures bus.trace == ReadFloatTrace(old(bus.trace), address, old(bus.regs), TempCoefRegister)
    {
      f := ReadRegister(TempCoefRegister);
    }

    /** read_eeprom: the cell (an f32) to register 9, command 2, then the buffer register. */
    method ReadEeprom(cell: bv32) returns (value: bv32)
      modifies bus
      ensures bus.regs == StoreByte(StoreFloat(old(bus.regs), SolutionRegister, cell), TaskRegister, ReadCommand)
      ensures value == LoadFloat(bus.regs, BufferRegister) && bus.pointer == BufferRegister + 4
      ensures bus.trace == ReadFloatTrace(CommandTrace(RustFloatWriteTrace(old(bus.trace), address, SolutionRegister, cell),
        address, ReadCommand), address, bus.regs, BufferRegister)
    {
      WriteRegister(SolutionRegister, cell);
      WriteByteData(TaskRegister, ReadCommand);
      value := ReadRegister(BufferRegister);
    }

    /** write_eeprom: cell and value, command 1, then the buffer register read back. */
    method WriteEeprom(cell: bv32, value: bv32) returns (readBack: bv32)
      modifies bus
      ensures bus.regs == RustWriteEepromRegs(old(bus.regs), cell, value) && bus.pointer == BufferRegister + 4
      ensures readBack == LoadFloat(bus.regs, BufferRegister)
      ensures bus.trace == ReadFloatTrace(CommandTrace(RustFloatWriteTrace(RustFloatWriteTrace(old(bus.trace), address,
        SolutionRegister, cell), address, BufferRegister, value), address, WriteCommand), address, bus.regs, BufferRegister)
    {
      WriteRegister(SolutionRegister, cell);
      WriteRegister(BufferRegister, value);
      WriteByteData(TaskRegister, WriteCommand);
      readBack := ReadRegister(BufferRegister);
    }

    method GetVersion() returns (v: bv8)
      modifies bus
      ensures v == old(bus.regs)[VersionRegister]
      ensures bus.regs == old(bus.regs) && bus.pointer == VersionRegister + 1
      ensures bus.trace == ReadByteTrace(old(bus.trace), address, old(bus.regs), VersionRegister)
    {
      v := ReadByteRegister(VersionRegister);
    }

    method GetFirmware() returns (v: bv8)
      modifies bus
      ensures v == old(bus.regs)[FirmwareRegister]
      ensures bus.regs == old(bus.regs) && bus.pointer == FirmwareRegister + 1
      ensures bus.trace == ReadByteTrace(old(bus.trace), address, old(bus.regs), FirmwareRegister)
    {
      v := ReadByteRegister(FirmwareRegister);
    }

    method Reset()
      modifies bus
      ensures bus.regs == RustResetRegs(old(bus.regs)) && bus.pointer == TempCoefRegister + 4
      ensures bus.trace == RustResetTrace(old(bus.trace), address)
    {
      WriteRegister(RefLowRegister, QuietNaN);
      WriteRegister(RefHighRegister, QuietNaN);
      WriteRegister(ReadLowRegister, QuietNaN);
      WriteRegister(ReadHighRegister, QuietNaN);
      WriteRegister(OffsetRegister, QuietNaN);
      WriteRegister(TempCompensationRegister, TwentyFive);
      SetTempCoefficient(DefaultCoefficient);
    }

    /** set_i2c_address: the address converted to f32 in register 9, then command 4;
        the probe keeps talking to the address it was opened with. */
    method SetI2cAddress(fu: FloatUnit, n: Uint16)
      modifies bus
      ensures bus.regs == StoreByte(StoreFloat(old(bus.regs), SolutionRegister, fu.fromInt(n)), TaskRegister, I2CCommand)
      ensures bus.pointer == Size
      ensures bus.trace == CommandTrace(RustFloatWriteTrace(old(bus.trace), address, SolutionRegister, fu.fromInt(n)), address, I2CCommand)
    {
      WriteRegister(SolutionRegister, fu.fromInt(n));
      WriteByteData(TaskRegister, I2CCommand);
    }

    method SetDualPointCalibration(refLow: bv32, refHigh: bv32, readLow: bv32, readHigh: bv32)
      modifies bus
      ensures bus.regs == DualPointRegs(old(bus.regs), refLow, refHigh, readLow, readHigh)
      ensures bus.pointer == ReadHighRegister + 4
      ensures bus.trace == RustFloatWriteTrace(RustFloatWriteTrace(RustFloatWriteTrace(RustFloatWriteTrace(old(bus.trace),
        address, RefLowRegister, refLow), address, RefHighRegister, refHigh), address, ReadLowRegister, readLow),
        address, ReadHighRegister, readHigh)
    {
      WriteRegister(RefLowRegister, refLow);
      WriteRegister(RefHighRegister, refHigh);
      WriteRegister(ReadLowRegister, readLow);
      WriteRegister(ReadHighRegister, readHigh);
    }

    method GetCalibrateOffset() returns (f: bv32)
      modifies bus
      ensures f == LoadFloat(old(bus.regs), OffsetRegister)
      ensures bus.regs == old(bus.regs) && bus.pointer == OffsetRegister + 4
      ensures bus.trace == ReadFloatTrace(old(bus.trace), address, old(bus.regs), OffsetRegister)
    {
      f := ReadRegister(OffsetRegister);
    }

    method GetCalibrateHighReference() returns (f: bv32)
      modifies bus
      ensures f == LoadFloat(old(bus.regs), RefHighRegister)
      ensures bus.regs == old(bus.regs) && bus.pointer == RefHighRegister + 4
      ensures bus.trace == ReadFloatTrace(old(bus.trace), address, old(bus.regs), RefHighRegister)
    {
      f := ReadRegister(RefHighRegister);
    }

    method GetCalibrateHighReading() returns (f: bv32)
      modifies bus
      ensures f == LoadFloat(old(bus.regs), ReadHighRegister)
      ensures bus.regs == old(bus.regs) && bus.pointer == ReadHighRegister + 4
      ensures bus.trace == ReadFloatTrace(old(bus.trace), address, old(bus.regs), ReadHighRegister)
    {
      f := ReadRegister(ReadHighRegister);
    }

    method GetCalibrateLowReference() returns (f: bv32)
      modifies bus
      ensures f == LoadFloat(old(bus.regs), RefLowRegister)
      ensures bus.regs == old(bus.regs) && bus.pointer == RefLowRegister + 4
      ensures bus.trace == ReadFloatTrace(old(bus.trace), address, old(bus.regs), RefLowRegister)
    {
      f := ReadRegister(RefLowRegister);
    }

    method GetCalibrateLowReading() returns (f: bv32)
      modifies bus
      ensures f == LoadFloat(old(bus.regs), ReadLowRegister)
      ensures bus.regs == old(bus.regs) && bus.pointer == ReadLowRegister + 4
      ensures bus.trace == ReadFloatTrace(old(bus.trace), address, old(bus.regs), ReadLowRegister)
    {
      f := ReadRegister(ReadLowRegister);
    }
  }
}
