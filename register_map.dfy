/** The device's register map, command opcodes, config bits and settle
    times, as the C++ header defines them; the Python and Rust drivers use the
    same register and opcode numbers. */
module RegisterMap {

  /** Size of the register file: registers 0 to 55. */
  const Size: nat := 56

  // Command opcodes, written to the task register.
  const MeasureEcCommand: bv8 := 80
  const MeasureTempCommand: bv8 := 40
  const CalibrateProbeCommand: bv8 := 20
  const CalibrateLowCommand: bv8 := 10
  const CalibrateHighCommand: bv8 := 8
  const I2CCommand: bv8 := 4
  const ReadCommand: bv8 := 2
  const WriteCommand: bv8 := 1

  // Byte registers.
  const VersionRegister: nat := 0
  const FirmwareRegister: nat := 53
  const ConfigRegister: nat := 54
  const TaskRegister: nat := 55

  // Float registers: each is the first of four consecutive bytes.
  const MsRegister: nat := 1
  const TempRegister: nat := 5
  const SolutionRegister: nat := 9
  const TempCoefRegister: nat := 13
  const RefHighRegister: nat := 17
  const RefLowRegister: nat := 21
  const ReadHighRegister: nat := 25
  const ReadLowRegister: nat := 29
  const OffsetRegister: nat := 33
  const SalinityRegister: nat := 37
  const RawRegister: nat := 41
  const TempCompensationRegister: nat := 45
  const BufferRegister: nat := 49

  // Config byte bits.
  const DualPointBit: nat := 0
  const TempCompensationBit: nat := 1

  /** Settle times in milliseconds; the three drivers disagree and the model keeps them as data. */
  datatype Timing = Timing(ecMeasure: nat, tempMeasure: nat)
  const CppTiming := Timing(250, 750)      // EC_EC_MEASUREMENT_TIME, EC_TEMP_MEASURE_TIME in the header
  const PythonTiming := Timing(500, 750)
  const RustTiming := Timing(750, 750)

  /** Measurement delay chosen by begin(): older hardware (version <= 2) is slower. */
  const OldHardwareDelay: nat := 750
  const NewHardwareDelay: nat := 500

  const FloatRegisters: seq<nat> := [MsRegister, TempRegister, SolutionRegister, TempCoefRegister,
    RefHighRegister, RefLowRegister, ReadHighRegister, ReadLowRegister, OffsetRegister,
    SalinityRegister, RawRegister, TempCompensationRegister, BufferRegister]
  const ByteRegisters: seq<nat> := [VersionRegister, FirmwareRegister, ConfigRegister, TaskRegister]
  const Opcodes: seq<bv8> := [MeasureEcCommand, MeasureTempCommand, CalibrateProbeCommand,
    CalibrateLowCommand, CalibrateHighCommand, I2CCommand, ReadCommand, WriteCommand]

  /** A register number survives the trip through a frame byte. */
  lemma RegisterByte(r: nat)
    requires r < Size
    ensures (r as bv8) as nat == r
  {
    var b := r as bv8;
    assert b < 56;
  }

  /** The thirteen float registers start 4 apart, from 1 to 49. */
  lemma FloatRegistersAreFourApart()
    ensures |FloatRegisters| == 13
    ensures forall i :: 0 <= i < 13 ==> FloatRegisters[i] == 1 + 4 * i
  {
  }

  /** No two float registers share a byte, and no byte register lies inside a float slot. */
  lemma {:induction false} SlotsAreDisjoint(r: nat, q: nat)
    requires r in FloatRegisters
    requires q in FloatRegisters + ByteRegisters && q != r
    ensures q in FloatRegisters ==> q + 4 <= r || r + 4 <= q
    ensures q in ByteRegisters ==> q < r || r + 4 <= q
  {
    FloatRegistersAreFourApart();
    var i :| 0 <= i < 13 && FloatRegisters[i] == r;
    if q in FloatRegisters {
      var j :| 0 <= j < 13 && FloatRegisters[j] == q;
      assert i != j;
    }
  }

  /** The last float slot ends at byte 52, before the byte registers 53, 54 and 55. */
  lemma FloatSlotsEndBeforeByteRegisters()
    ensures forall r :: r in FloatRegisters ==> 1 <= r && r + 3 <= 52
    ensures forall r :: r in ByteRegisters ==> r == 0 || 53 <= r < Size
  {
  }

  lemma OpcodesAreDistinct()
    ensures |Opcodes| == 8
    ensures forall i, j :: 0 <= i < j < |Opcodes| ==> Opcodes[i] != Opcodes[j]
  {
  }

  /** The two config flags never share a bit. */
  lemma ConfigBitsAreDistinct()
    ensures DualPointBit != TempCompensationBit && DualPointBit < 8 && TempCompensationBit < 8
  {
  }
}
