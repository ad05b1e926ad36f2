/**
  Java's fixed-width integers as Dafny bit-vectors.

  A Java `long`, `int` and `byte` is modelled by its two's-complement bit
  pattern: `bv64`, `bv32` and `bv8`.  Each Java operator the hash applies to a
  `long` is a named function here, so that the model of a method reads as the
  Java statements it models, operator by operator.  Java's `+` and `*` wrap
  around (sections 15.17.1 and 15.18.2 of the Java Language Specification),
  which is what bit-vector arithmetic does; the conversions and the shifts
  differ from Dafny's plain bit-vector operators and are written out.
*/
module JavaNum {

  /** The largest length a Java array can have: lengths are non-negative `int`s. */
  const MaxArrayLength: nat := 0x7FFF_FFFF

  /** `a + b` on two `long`s, wrapping around modulo 2^64. */
  function Add(a: bv64, b: bv64): bv64 {
    a + b
  }

  /**
    `a * b` on two `long`s: the low 64 bits of the exact product, which is
    the same whether the operands are read as signed or unsigned.  It is
    written as schoolbook multiplication over the bits of `b`: `a` is added
    for the lowest bit, and the rest is `a << 1` times `b >> 1`.
  */
  function Mul(a: bv64, b: bv64): (r: bv64)
    ensures r & 1 == a & b & 1
    decreases b
  {
    if b == 0 then 0 else Add(if b & 1 == 1 then a else 0, Mul(a << 1, b >> 1))
  }

  /** Multiplying by 1 leaves a `long` as it is. */
  lemma MulByOne(a: bv64)
    ensures Mul(a, 1) == a
  {
  }

  /** Multiplying by 2 is a shift left by one. */
  lemma MulByTwo(a: bv64)
    ensures Mul(a, 2) == a << 1
  {
    MulByOne(a << 1);
  }

  /** `a * 3` wraps to `a + 2a`. */
  lemma ShiftAddThree(a: bv64)
    ensures Add(a, a << 1) == a * 3
  {
  }

  /** `a * 5` wraps to `a + 4a`. */
  lemma ShiftAddFive(a: bv64)
    ensures Add(a, (a << 1) << 1) == a * 5
  {
  }

  /** `Mul` by the literal 3 of the `h1` and `h2` updates is the wrapping product. */
  lemma MulThree(a: bv64)
    ensures Mul(a, 3) == a * 3
  {
    assert Mul(a, 3) == Add(a, Mul(a << 1, 1));
    MulByOne(a << 1);
    ShiftAddThree(a);
  }

  /** `Mul` by the literal 5 of the `c1` and `c2` updates is the wrapping product. */
  lemma MulFive(a: bv64)
    ensures Mul(a, 5) == a * 5
  {
    assert Mul(a, 5) == Add(a, Mul(a << 1, 2));
    MulByTwo(a << 1);
    ShiftAddFive(a);
  }

  /** `a ^ b` on two `long`s. */
  function Xor(a: bv64, b: bv64): bv64 {
    a ^ b
  }

  /** `a | b` on two `long`s. */
  function Or(a: bv64, b: bv64): bv64 {
    a | b
  }

  /** The number a `long` bit pattern denotes. */
  function Signed64(x: bv64): int {
    if x < 0x8000_0000_0000_0000 then x as int else x as int - 0x1_0000_0000_0000_0000
  }

  /** The number an `int` bit pattern denotes. */
  function Signed32(x: bv32): int {
    if x < 0x8000_0000 then x as int else x as int - 0x1_0000_0000
  }

  /** The number a `byte` bit pattern denotes. */
  function Signed8(x: bv8): int {
    if x < 0x80 then x as int else x as int - 0x100
  }

  /** Bit `j` of a `long`, bit 0 being the least significant. */
  predicate Bit(x: bv64, j: bv64)
    requires j < 64
  {
    (x >> j) & 1 == 1
  }

  /**
    Widening conversion from `int` to `long` (section 5.1.2 of the Java
    Language Specification): sign extension.
  */
  function IntToLong(x: bv32): (r: bv64)
    ensures r & 0xFFFF_FFFF == x as bv64
    ensures r >> 31 == if x < 0x8000_0000 then 0 else 0x1_FFFF_FFFF
  {
    if x < 0x8000_0000 then x as bv64 else x as bv64 | 0xFFFF_FFFF_0000_0000
  }

  /** Widening conversion from `byte` to `long` (same section): sign extension. */
  function ByteToLong(x: bv8): (r: bv64)
    ensures r & 0xFF == x as bv64
    ensures r >> 7 == if x < 0x80 then 0 else 0x1FF_FFFF_FFFF_FFFF
  {
    if x < 0x80 then x as bv64 else x as bv64 | 0xFFFF_FFFF_FFFF_FF00
  }

  /**
    Narrowing conversion from `long` to `int` (section 5.1.3 of the Java
    Language Specification): the low 32 bits are kept, the rest discarded.
  */
  function LongToInt(x: bv64): (r: bv32)
    ensures r as bv64 == x & 0xFFFF_FFFF
  {
    (x & 0xFFFF_FFFF) as bv32
  }

  /** The `int` value of an array length, which is never negative. */
  function LengthToInt(n: nat): bv32
    requires n <= MaxArrayLength
  {
    n as bv32
  }

  /** An array length widened to a `long` is the length itself: it is never negative. */
  lemma LengthWidensToItself(n: nat)
    requires n <= MaxArrayLength
    ensures IntToLong(LengthToInt(n)) == n as bv64
  {
  }

  /** Sign extension keeps the number an `int` denotes. */
  lemma IntToLongKeepsValue(x: bv32)
    ensures Signed64(IntToLong(x)) == Signed32(x)
  {
    if x < 0x8000_0000 {
      ZeroExtendInt(x);
    } else {
      NegativeIntFill(x);
    }
  }

  lemma ZeroExtendInt(x: bv32)
    ensures (x as bv64) as int == x as int
  {
  }

  lemma NegativeIntFill(x: bv32)
    requires x >= 0x8000_0000
    ensures (x as bv64 | 0xFFFF_FFFF_0000_0000) as int == x as int + 0xFFFF_FFFF_0000_0000
  {
  }

  /** Sign extension keeps the number a `byte` denotes. */
  lemma ByteToLongKeepsValue(x: bv8)
    ensures Signed64(ByteToLong(x)) == Signed8(x)
  {
    if x >= 0x80 {
      NegativeByteFill(x);
    }
  }

  lemma NegativeByteFill(x: bv8)
    requires x >= 0x80
    ensures (x as bv64 | 0xFFFF_FFFF_FFFF_FF00) as int == x as int + 0xFFFF_FFFF_FFFF_FF00
  {
  }

  /**
    `x << d` on a `long`.  Only the low six bits of the `int` distance `d`
    count (section 15.19 of the Java Language Specification).
  */
  function Shl(x: bv64, d: bv32): bv64 {
    x << ((d & 0x3F) as bv64)
  }

  /**
    `x >>> d` on a `long`: a logical shift whose distance is masked to its
    low six bits like every `long` shift, so a negative distance such as
    `32 - 41` shifts by 55.  The distance is the `int` bit pattern `d`.
  */
  function UShr(x: bv64, d: bv32): bv64 {
    x >> ((d & 0x3F) as bv64)
  }

  /**
    `x >> d` on a `long`: an arithmetic shift, which fills the vacated high
    bits with copies of the sign bit (same section).  Dafny's `>>` on a
    bit-vector is logical, so the sign fill is written out: for a negative
    `x` the shift is taken of the complement and complemented back.
  */
  function Shr(x: bv64, d: bv32): bv64 {
    if x < 0x8000_0000_0000_0000 then x >> ((d & 0x3F) as bv64) else !((!x) >> ((d & 0x3F) as bv64))
  }

  /** The distances written `32 - 23` and `32 - 41` in Java shift by 9 and by 55. */
  lemma MaskedDistances(x: bv64)
    ensures UShr(x, 32 - 23) == x >> 9
    ensures UShr(x, 32 - 41) == x >> 55
  {
  }

  /**
    Shifting by 33 with `>>` moves bit `j + 33` to bit `j` and copies the sign
    bit into the 33 vacated positions, as section 15.19 describes.
  */
  lemma ShrBits33(x: bv64)
    ensures forall j: bv64 :: j < 64 ==> Bit(Shr(x, 33), j) == Bit(x, if j < 31 then j + 33 else 63)
  {
  }
}
