/** The bit macros of the C++ header (bitRead, bitSet, bitClear, bitWrite) on
    the 8-bit config byte they are applied to. */
module Bits {

  /** `1UL << bit` as it acts on a uint8_t: bits at index 8 or above fall outside
      the byte, so `|=` and `&= ~` with them leave the byte as it is. */
  function Mask(bit: nat): bv8 {
    if bit < 8 then (1 as bv8) << bit else 0
  }

  /** bitRead(value, bit): `((value) >> (bit)) & 0x01`. */
  function BitRead(v: bv8, bit: nat): (r: nat)
    ensures r == 0 || r == 1
    ensures r == 1 <==> v & Mask(bit) != 0
  {
    if bit < 8 then ((v >> bit) & 1) as nat else 0
  }

  /** bitSet(value, bit): `value |= 1UL << bit`; the macro's value is the new byte. */
  function BitSet(v: bv8, bit: nat): (r: bv8)
    ensures bit < 8 ==> BitRead(r, bit) == 1
    ensures forall j :: j != bit ==> BitRead(r, j) == BitRead(v, j)
  {
    v | Mask(bit)
  }

  /** bitClear(value, bit): `value &= ~(1UL << bit)`. */
  function BitClear(v: bv8, bit: nat): (r: bv8)
    ensures BitRead(r, bit) == 0
    ensures forall j :: j != bit ==> BitRead(r, j) == BitRead(v, j)
  {
    v & !Mask(bit)
  }

  /** bitWrite(value, bit, bitvalue): bitSet when bitvalue holds, bitClear otherwise. */
  function BitWrite(v: bv8, bit: nat, x: bool): (r: bv8)
    ensures bit < 8 ==> BitRead(r, bit) == (if x then 1 else 0)
    ensures forall j :: j != bit ==> BitRead(r, j) == BitRead(v, j)
  {
    if x then BitSet(v, bit) else BitClear(v, bit)
  }

  /** A byte is determined by its eight bits. */
  lemma {:induction false} BitsDetermineByte(a: bv8, b: bv8)
    requires forall j :: 0 <= j < 8 ==> BitRead(a, j) == BitRead(b, j)
    ensures a == b
  {
    assert BitRead(a, 0) == BitRead(b, 0) && BitRead(a, 1) == BitRead(b, 1);
    assert BitRead(a, 2) == BitRead(b, 2) && BitRead(a, 3) == BitRead(b, 3);
    assert BitRead(a, 4) == BitRead(b, 4) && BitRead(a, 5) == BitRead(b, 5);
    assert BitRead(a, 6) == BitRead(b, 6) && BitRead(a, 7) == BitRead(b, 7);
  }

  /** Setting a bit that is already set, or clearing one already clear, changes nothing. */
  lemma WriteOfCurrentBitIsIdentity(v: bv8, bit: nat)
    requires bit < 8
    ensures BitWrite(v, bit, BitRead(v, bit) == 1) == v
  {
  }

  /** Writing a bit twice keeps only the second write. */
  lemma WriteTwice(v: bv8, bit: nat, x: bool, y: bool)
    ensures BitWrite(BitWrite(v, bit, x), bit, y) == BitWrite(v, bit, y)
  {
  }

  /** Writes to two different bits commute: the two config flags are independent. */
  lemma WritesToDistinctBitsCommute(v: bv8, i: nat, j: nat, x: bool, y: bool)
    requires i != j
    ensures BitWrite(BitWrite(v, i, x), j, y) == BitWrite(BitWrite(v, j, y), i, x)
  {
  }
}
