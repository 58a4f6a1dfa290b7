/** IEEE 754 binary32 values as the driver carries them: 32-bit patterns that
    travel over the bus as four bytes, least significant byte first. */
module Binary32 {

  /** Patterns of the constants the drivers use (IEEE 754-2019, section 3.4). */
  const PosZero: bv32 := 0x0000_0000
  const PosInf: bv32 := 0x7F80_0000
  const QuietNaN: bv32 := 0x7FC0_0000   // NAN in C, float('nan') in Python, f32::NAN in Rust
  const One: bv32 := 0x3F80_0000
  const MinusOne: bv32 := 0xBF80_0000
  const Five: bv32 := 0x40A0_0000
  const Nine: bv32 := 0x4110_0000
  const ThirtyTwo: bv32 := 0x4200_0000
  const TwentyFive: bv32 := 0x41C8_0000
  const FiveHundred: bv32 := 0x43FA_0000
  const SixForty: bv32 := 0x4420_0000
  const SevenHundred: bv32 := 0x442F_0000
  const Thousand: bv32 := 0x447A_0000
  const MinusOneTwentySeven: bv32 := 0xC2FE_0000
  /** The binary32 value nearest to 0.019, the default temperature coefficient. */
  const DefaultCoefficient: bv32 := 0x3C9B_A5E3

  function ExponentField(f: bv32): bv32 { (f >> 23) & 0xFF }
  function FractionField(f: bv32): bv32 { f & 0x7F_FFFF }

  predicate IsNaN(f: bv32) { ExponentField(f) == 0xFF && FractionField(f) != 0 }
  predicate IsInf(f: bv32) { ExponentField(f) == 0xFF && FractionField(f) == 0 }
  predicate IsFinite(f: bv32) { ExponentField(f) != 0xFF }
  predicate IsZero(f: bv32) { f & 0x7FFF_FFFF == 0 }

  /** IEEE 754 equality, the meaning of `==` on float in C and Python:
      NaN is unequal to everything, itself included, and +0 equals -0. */
  predicate FloatEq(a: bv32, b: bv32) {
    !IsNaN(a) && !IsNaN(b) && (a == b || (IsZero(a) && IsZero(b)))
  }

  /** `x == x` is how the C++ driver tests for NaN. */
  lemma SelfEqualityDetectsNaN(x: bv32)
    ensures FloatEq(x, x) <==> !IsNaN(x)
  {
  }

  /** `raw == 0.0` holds exactly for the two zero patterns. */
  lemma ZeroComparison(x: bv32)
    ensures FloatEq(x, PosZero) <==> IsZero(x)
    ensures FloatEq(x, PosZero) <==> (x == PosZero || x == 0x8000_0000)
  {
  }

  /** `tempC == -127.0` holds for one pattern only, so comparing patterns is exact. */
  lemma SentinelComparison(x: bv32)
    ensures FloatEq(x, MinusOneTwentySeven) <==> x == MinusOneTwentySeven
  {
  }

  /** The bytes of a pattern in memory order on a little-endian target. */
  function Split(f: bv32): (b: seq<bv8>)
    ensures |b| == 4
  {
    [(f & 0xFF) as bv8, ((f >> 8) & 0xFF) as bv8, ((f >> 16) & 0xFF) as bv8, ((f >> 24) & 0xFF) as bv8]
  }

  /** Reassembles four bytes read in memory order (LittleEndian::read_f32 in Rust). */
  function Join(b: seq<bv8>): bv32
    requires |b| == 4
  {
    (b[0] as bv32) | ((b[1] as bv32) << 8) | ((b[2] as bv32) << 16) | ((b[3] as bv32) << 24)
  }

  lemma JoinSplit(f: bv32)
    ensures Join(Split(f)) == f
  {
  }

  lemma SplitJoin(b: seq<bv8>)
    requires |b| == 4
    ensures Split(Join(b)) == b
  {
  }

  /** Two patterns with equal bytes are equal: the byte codec loses nothing. */
  lemma SplitInjective(f: bv32, g: bv32)
    ensures Split(f) == Split(g) <==> f == g
  {
    if Split(f) == Split(g) {
      JoinSplit(f);
      JoinSplit(g);
    }
  }

  function Pow2(n: nat): (p: nat)
    ensures p >= 1
  {
    if n == 0 then 1 else 2 * Pow2(n - 1)
  }

  /** Scaling by 2^a and then by 2^b is scaling by 2^(a+b): the exponent field
      of a pattern adds. */
  lemma {:induction false} Pow2Add(a: nat, b: nat)
    ensures Pow2(a + b) == Pow2(a) * Pow2(b)
  {
    if a > 0 {
      Pow2Add(a - 1, b);
      assert Pow2(a + b) == 2 * Pow2(a - 1 + b);
    }
  }

  /** The exact real number denoted by a finite pattern: sign, significand and
      binary exponent as IEEE 754-2019 section 3.4 lays them out (bias 127). */
  function ValueOf(f: bv32): real
    requires IsFinite(f)
  {
    var sign: real := if f >> 31 == 1 then -1.0 else 1.0;
    var e := ExponentField(f) as int;
    var m := FractionField(f) as int;
    if e == 0 then sign * (m as real) / (Pow2(149) as real)
    else if e >= 150 then sign * ((m + Pow2(23)) * Pow2(e - 150)) as real
    else sign * ((m + Pow2(23)) as real) / (Pow2(150 - e) as real)
  }

  /** The patterns above denote the literals the source writes: the small ones ... */
  lemma LiteralValues()
    ensures IsFinite(TwentyFive) && ValueOf(TwentyFive) == 25.0
    ensures IsFinite(One) && ValueOf(One) == 1.0
    ensures IsFinite(MinusOne) && ValueOf(MinusOne) == -1.0
    ensures IsFinite(Nine) && ValueOf(Nine) == 9.0
    ensures IsFinite(Five) && ValueOf(Five) == 5.0
    ensures IsFinite(ThirtyTwo) && ValueOf(ThirtyTwo) == 32.0
  {
    assert Pow2(23) == 8388608 by { Pow2Values(); }
    assert Pow2(1) == 2 && Pow2(2) == 4 && Pow2(3) == 8 && Pow2(4) == 16 by { Pow2Values(); }
  }

  /** ... and the large ones: the sentinel -127 and the scale factors. */
  lemma ScaleLiteralValues()
    ensures IsFinite(MinusOneTwentySeven) && ValueOf(MinusOneTwentySeven) == -127.0
    ensures IsFinite(Thousand) && ValueOf(Thousand) == 1000.0
    ensures IsFinite(FiveHundred) && ValueOf(FiveHundred) == 500.0
    ensures IsFinite(SixForty) && ValueOf(SixForty) == 640.0
    ensures IsFinite(SevenHundred) && ValueOf(SevenHundred) == 700.0
  {
    assert Pow2(23) == 8388608 by { Pow2Values(); }
    assert Pow2(1) == 2 && Pow2(2) == 4 && Pow2(3) == 8 && Pow2(4) == 16 by { Pow2Values(); }
  }

  lemma Pow2Values()
    ensures Pow2(0) == 1 && Pow2(1) == 2 && Pow2(2) == 4 && Pow2(3) == 8 && Pow2(4) == 16
    ensures Pow2(5) == 32 && Pow2(6) == 64 && Pow2(7) == 128 && Pow2(8) == 256
    ensures Pow2(9) == 512 && Pow2(10) == 1024 && Pow2(23) == 8388608 && Pow2(29) == 536870912
  {
  }

  /** 0.019 has no exact binary32 form; DefaultCoefficient is within half a unit
      in the last place (2^-30 at this exponent) of it, i.e. it is the nearest one. */
  lemma DefaultCoefficientIsNearest()
    ensures IsFinite(DefaultCoefficient)
    ensures -1.0 / 1073741824.0 < ValueOf(DefaultCoefficient) - 0.019 < 1.0 / 1073741824.0
  {
    var e := ExponentField(DefaultCoefficient) as int;
    assert e == 121 && FractionField(DefaultCoefficient) as int == 1811939;
    assert Pow2(29) == 536870912 && Pow2(23) == 8388608 by { Pow2Values(); }
    assert ValueOf(DefaultCoefficient) == 10200547.0 / 536870912.0;
  }

  /** The target's binary32 arithmetic, which the model leaves uninterpreted:
      each operation returns the pattern the floating-point unit computes. */
  datatype FloatUnit = FloatUnit(
    add: (bv32, bv32) -> bv32,
    sub: (bv32, bv32) -> bv32,
    mul: (bv32, bv32) -> bv32,
    div: (bv32, bv32) -> bv32,
    toLong: bv32 -> int,     // conversion to `long` (truncation toward zero)
    fromInt: int -> bv32)    // conversion of an integer argument to float

  /** Four facts of IEEE 754 round-to-nearest arithmetic: x - x is +0 for finite x,
      c * (+0) is a zero for finite c, 1 - (a zero) is 1, and m / 1 is m unless m is NaN. */
  ghost predicate IeeeIdentities(fu: FloatUnit) {
    && (forall x :: IsFinite(x) ==> fu.sub(x, x) == PosZero)
    && (forall c :: IsFinite(c) ==> IsZero(fu.mul(c, PosZero)))
    && (forall z :: IsZero(z) ==> fu.sub(One, z) == One)
    && (forall m :: !IsNaN(m) ==> fu.div(m, One) == m)
  }
}
