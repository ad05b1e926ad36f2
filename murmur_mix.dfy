/**
  The mixing core shared by both entry points of `MurmurHash3`: the state
  record, the block read `getblock`, the round `bmix64`, the finaliser
  `fmix64` and the closing sequence both entry points run.

  The code departs from the C reference it follows in several bit-level
  ways; the model follows the Java code, not the reference:
  - its "rotations" are not rotations (`Spin23`, `Spin41`);
  - `getblock` keeps only the last four of the eight bytes it reads;
  - `fmix64` shifts with the arithmetic `>>`, which copies the sign bit.
*/
module MurmurMix {
  import opened JavaNum

  /** The six longs of a hash computation, as a value. */
  datatype Regs = Regs(h1: bv64, h2: bv64, k1: bv64, k2: bv64, c1: bv64, c2: bv64)

  /** The two longs one round absorbs: what is stored into `k1` and `k2` before `bmix64`. */
  datatype Block = Block(k1: bv64, k2: bv64)

  /** A 128-bit digest: the array `{ h1, h2 }` the entry points return. */
  datatype Digest = Digest(h1: bv64, h2: bv64)

  /** The mutable state record that `bmix64` updates in place. */
  class State {
    var h1: bv64
    var h2: bv64
    var k1: bv64
    var k2: bv64
    var c1: bv64
    var c2: bv64

    /** `new State()`: every field starts at Java's default, zero. */
    constructor ()
      ensures View() == Regs(0, 0, 0, 0, 0, 0)
    {
      h1, h2, k1, k2, c1, c2 := 0, 0, 0, 0, 0, 0;
    }

    /** The current value of the six fields. */
    function View(): Regs
      reads this
    {
      Regs(h1, h2, k1, k2, c1, c2)
    }
  }

  const H1Base: bv64 := 0x9368e53c2f6af274
  const H2Base: bv64 := 0x586dcd208f7cd3fd
  const C1Base: bv64 := 0x87c37b91114253d5
  const C2Base: bv64 := 0x4cf5ad432745937f

  /**
    The state both entry points set up before the first round: the `int`
    seed is widened to a `long` with sign extension before it is XORed in.
  */
  function Init(seed: bv32): (s: Regs)
    ensures s.h1 ^ s.h2 == H1Base ^ H2Base
    ensures s.h1 & 0xFFFF_FFFF == (H1Base & 0xFFFF_FFFF) ^ seed as bv64
    ensures s.k1 == s.k2 == 0 && s.c1 == C1Base && s.c2 == C2Base
  {
    Regs(Xor(H1Base, IntToLong(seed)), Xor(H2Base, IntToLong(seed)), 0, 0, C1Base, C2Base)
  }

  // ---------------------------------------------------------------------
  // getblock

  /** `(long)(b & 0xFF)`: the byte, promoted with sign extension, then masked back to its eight bits. */
  function Unsigned(b: bv8): bv64 {
    ByteToLong(b) & 0xFF
  }

  /**
    `getblock(key, i)`: the eight bytes from `i` packed most significant
    first, then masked with `0xFFFFFFFFL`.  It reads all eight, so it needs
    them in bounds, but the result never exceeds 32 bits.
  */
  function GetBlock(key: seq<bv8>, i: nat): (r: bv64)
    requires i + 8 <= |key|
    ensures r <= 0xFFFF_FFFF
  {
    ((Unsigned(key[i]) << 56) |
     (Unsigned(key[i + 1]) << 48) |
     (Unsigned(key[i + 2]) << 40) |
     (Unsigned(key[i + 3]) << 32) |
     (Unsigned(key[i + 4]) << 24) |
     (Unsigned(key[i + 5]) << 16) |
     (Unsigned(key[i + 6]) << 8) |
     (Unsigned(key[i + 7]) << 0)) & 0xFFFF_FFFF
  }

  /** The unsigned big-endian number the bytes of `s` spell, cut to 64 bits. */
  function BigEndian(s: seq<bv8>): bv64 {
    if s == [] then 0 else (BigEndian(s[..|s| - 1]) << 8) | s[|s| - 1] as bv64
  }

  /** The `& 0xFF` undoes the sign extension of the promotion: the byte's own eight bits remain. */
  lemma UnsignedIsZeroExtension(b: bv8)
    ensures Unsigned(b) == b as bv64
  {
  }

  /** Four bytes packed one shift at a time equal the same bytes placed at their final offsets. */
  lemma PackFour(a: bv8, b: bv8, c: bv8, d: bv8)
    ensures (((((a as bv64 << 8) | b as bv64) << 8) | c as bv64) << 8) | d as bv64
         == (a as bv64 << 24) | (b as bv64 << 16) | (c as bv64 << 8) | d as bv64
  {
  }

  /** One step of `BigEndian`: the last byte goes below the value of the others. */
  lemma BigEndianSnoc(s: seq<bv8>)
    requires |s| > 0
    ensures BigEndian(s) == (BigEndian(s[..|s| - 1]) << 8) | s[|s| - 1] as bv64
  {
  }

  /** A single byte is its own big-endian value. */
  lemma BigEndianOne(s: seq<bv8>)
    requires |s| == 1
    ensures BigEndian(s) == s[0] as bv64
  {
    assert s[..0] == [];
  }

  /** Four bytes, folded one at a time. */
  lemma BigEndianFold(s: seq<bv8>)
    requires |s| == 4
    ensures BigEndian(s) == (((((s[0] as bv64 << 8) | s[1] as bv64) << 8) | s[2] as bv64) << 8) | s[3] as bv64
  {
    assert s[..3][..2][..1] == s[..1];
    assert s[..3][..2] == s[..2];
    BigEndianOne(s[..1]);
    BigEndianSnoc(s[..2]);
    BigEndianSnoc(s[..3]);
    BigEndianSnoc(s);
  }

  /** The big-endian value of four bytes. */
  lemma BigEndianFour(s: seq<bv8>)
    requires |s| == 4
    ensures BigEndian(s) == (s[0] as bv64 << 24) | (s[1] as bv64 << 16) | (s[2] as bv64 << 8) | s[3] as bv64
  {
    BigEndianFold(s);
    PackFour(s[0], s[1], s[2], s[3]);
  }

  /** `getblock(key, i)` is the big-endian value of `key[i+4..i+8]`: the mask discards `key[i..i+4]`. */
  lemma GetBlockIsBigEndian(key: seq<bv8>, i: nat)
    requires i + 8 <= |key|
    ensures GetBlock(key, i) == BigEndian(key[i + 4..i + 8])
  {
    BigEndianFour(key[i + 4..i + 8]);
    UnsignedIsZeroExtension(key[i + 4]);
    UnsignedIsZeroExtension(key[i + 5]);
    UnsignedIsZeroExtension(key[i + 6]);
    UnsignedIsZeroExtension(key[i + 7]);
  }

  /** Two reads agree whenever their last four bytes do, whatever the first four are. */
  lemma GetBlockIgnoresFirstHalf(key: seq<bv8>, i: nat, other: seq<bv8>, j: nat)
    requires i + 8 <= |key| && j + 8 <= |other|
    requires key[i + 4..i + 8] == other[j + 4..j + 8]
    ensures GetBlock(key, i) == GetBlock(other, j)
  {
    GetBlockIsBigEndian(key, i);
    GetBlockIsBigEndian(other, j);
  }

  // ---------------------------------------------------------------------
  // bmix64

  /**
    `(x << 23) | (x >>> 32 - 23)`.  The subtraction binds tighter than the
    shift, so the right shift is by 9: this is not a rotation.  The fixed
    distances are the masked ones (`SpinsAreJavaShifts`).
  */
  function Spin23(x: bv64): bv64 {
    Or(x << 23, x >> 9)
  }

  /** `(x << 41) | (x >>> 32 - 41)`: the distance `-9` is masked to 55. */
  function Spin41(x: bv64): bv64 {
    Or(x << 41, x >> 55)
  }

  /** The two spins are the Java expressions they stand for, with `long` shift distances masked to six bits. */
  lemma SpinsAreJavaShifts(x: bv64)
    ensures Spin23(x) == Or(Shl(x, 23), UShr(x, 32 - 23))
    ensures Spin41(x) == Or(Shl(x, 41), UShr(x, 32 - 41))
  {
    MaskedDistances(x);
  }

  /** `Spin41` always leaves bits 9 to 40 clear. */
  lemma Spin41Gap(x: bv64)
    ensures Spin41(x) & 0x0000_01FF_FFFF_FE00 == 0
  {
    MaskedDistances(x);
  }

  /** `Spin41` depends only on bits 0 to 22 and 55 to 63 of its argument; the rest is lost. */
  lemma Spin41Discards(x: bv64)
    ensures Spin41(x) == Spin41(x & 0xFF80_0000_007F_FFFF)
  {
    MaskedDistances(x);
    MaskedDistances(x & 0xFF80_0000_007F_FFFF);
  }

  /** Unlike a rotation, `Spin23` maps two different longs to the same value. */
  lemma Spin23Collides()
    ensures 0x0000_0200_0000_0200 != 0x0000_0000_0000_0200 as bv64
    ensures Spin23(0x0000_0200_0000_0200) == Spin23(0x0000_0000_0000_0200)
  {
    MaskedDistances(0x0000_0200_0000_0200);
    MaskedDistances(0x0000_0000_0000_0200);
  }

  /** The state after one `bmix64`. */
  function BMix(s: Regs): Regs {
    var k1 := Mul(Spin23(Mul(s.k1, s.c1)), s.c2);
    var h1 := Add(Xor(s.h1, k1), s.h2);
    var k2 := Mul(Spin23(Mul(s.k2, s.c2)), s.c1);
    var h2 := Add(Xor(Spin41(s.h2), k2), h1);
    Regs(Add(Mul(h1, 3), 0x52dce729), Add(Mul(h2, 3), 0x38495ab5), k1, k2,
         Add(Mul(s.c1, 5), 0x7b7d159c), Add(Mul(s.c2, 5), 0x6bce6396))
  }

  /** `bmix64(state)`: one round, updating the six fields in place. */
  method Bmix64(state: State)
    modifies state
    ensures state.View() == BMix(old(state.View()))
  {
    ghost var s := state.View();
    state.k1 := Mul(state.k1, state.c1);
    SpinsAreJavaShifts(state.k1);
    state.k1 := Or(Shl(state.k1, 23), UShr(state.k1, 32 - 23));
    state.k1 := Mul(state.k1, state.c2);
    assert state.k1 == BMix(s).k1;
    state.h1 := Xor(state.h1, state.k1);
    state.h1 := Add(state.h1, state.h2);
    ghost var h1 := state.h1;
    assert h1 == Add(Xor(s.h1, BMix(s).k1), s.h2);

    SpinsAreJavaShifts(state.h2);
    state.h2 := Or(Shl(state.h2, 41), UShr(state.h2, 32 - 41));
    assert state.h2 == Spin41(s.h2);

    state.k2 := Mul(state.k2, state.c2);
    SpinsAreJavaShifts(state.k2);
    state.k2 := Or(Shl(state.k2, 23), UShr(state.k2, 32 - 23));
    state.k2 := Mul(state.k2, state.c1);
    assert state.k2 == BMix(s).k2;
    state.h2 := Xor(state.h2, state.k2);
    state.h2 := Add(state.h2, state.h1);
    assert state.h2 == Add(Xor(Spin41(s.h2), BMix(s).k2), h1);

    state.h1 := Add(Mul(state.h1, 3), 0x52dce729);
    state.h2 := Add(Mul(state.h2, 3), 0x38495ab5);

    state.c1 := Add(Mul(state.c1, 5), 0x7b7d159c);
    state.c2 := Add(Mul(state.c2, 5), 0x6bce6396);
  }

  /** A round: store the block into `k1` and `k2`, then `bmix64`. */
  function Round(s: Regs, b: Block): Regs {
    BMix(s.(k1 := b.k1, k2 := b.k2))
  }

  /**
    Store a block into `state.k1` and `state.k2` and call `bmix64`: the body
    of the block loops, and the last case of the tail switch, which has XORed
    the tail bytes into the two fields after clearing them.
  */
  method MixBlock(state: State, k1: bv64, k2: bv64)
    modifies state
    ensures state.View() == Round(old(state.View()), Block(k1, k2))
  {
    ghost var s := state.View();
    state.k1 := k1;
    state.k2 := k2;
    assert state.View() == s.(k1 := k1, k2 := k2);
    Bmix64(state);
  }

  /** The state after one round per block of `feed`, in order. */
  function Run(s: Regs, feed: seq<Block>): Regs {
    if feed == [] then s else Round(Run(s, feed[..|feed| - 1]), feed[|feed| - 1])
  }

  /** One more block at the end of a feed is one more round. */
  lemma RunSnoc(s: Regs, f: seq<Block>, b: Block)
    ensures Run(s, f + [b]) == Round(Run(s, f), b)
  {
    assert (f + [b])[..|f|] == f;
  }

  /** Running two feeds one after the other is running their concatenation. */
  lemma {:induction false} RunAppend(s: Regs, f: seq<Block>, g: seq<Block>)
    ensures Run(Run(s, f), g) == Run(s, f + g)
  {
    if g != [] {
      var g' := g[..|g| - 1];
      RunAppend(s, f, g');
      assert (f + g)[..|f + g| - 1] == f + g';
    } else {
      assert f + g == f;
    }
  }

  /** `c1` after `r` rounds that started from `c`. */
  function C1After(c: bv64, r: nat): bv64 {
    if r == 0 then c else Add(Mul(C1After(c, r - 1), 5), 0x7b7d159c)
  }

  /** `c2` after `r` rounds that started from `c`. */
  function C2After(c: bv64, r: nat): bv64 {
    if r == 0 then c else Add(Mul(C2After(c, r - 1), 5), 0x6bce6396)
  }

  /** A round computes the new `c1` and `c2` from the old `c1` and `c2` alone, never from `h` or `k`. */
  lemma BMixConstantsOwn(s: Regs, t: Regs)
    requires s.c1 == t.c1 && s.c2 == t.c2
    ensures BMix(s).c1 == BMix(t).c1 && BMix(s).c2 == BMix(t).c2
  {
  }

  /** After any rounds, `c1` and `c2` depend only on where they started and on how many rounds ran. */
  lemma {:induction false} RunConstants(s: Regs, feed: seq<Block>)
    ensures Run(s, feed).c1 == C1After(s.c1, |feed|)
    ensures Run(s, feed).c2 == C2After(s.c2, |feed|)
  {
    if feed != [] {
      RunConstants(s, feed[..|feed| - 1]);
    }
  }

  // ---------------------------------------------------------------------
  // fmix64

  /** The two multipliers of `fmix64`. */
  const FMixC1: bv64 := 0xff51afd7ed558ccd
  const FMixC2: bv64 := 0xc4ceb9fe1a85ec53

  /** `k ^= k >> 33` with Java's arithmetic shift: the sign bit cancels itself. */
  function XorShr33(k: bv64): (r: bv64)
    ensures r < 0x8000_0000_0000_0000
  {
    Xor(k, Shr(k, 33))
  }

  /**
    `fmix64(k)`.  Because its shifts copy the sign bit, the last step clears
    bit 63: the result, read as a Java `long`, is never negative.
  */
  function FMix64(k: bv64): (r: bv64)
    ensures r < 0x8000_0000_0000_0000
  {
    var k := Mul(XorShr33(k), FMixC1);
    var k := Mul(XorShr33(k), FMixC2);
    XorShr33(k)
  }

  /** Two different longs that `fmix64` maps to the same value: the first step already merges them. */
  lemma FMix64Collides()
    ensures FMix64(0x8000_0000_0000_0000) == FMix64(0x7FFF_FFFF_FFFF_FFFF)
  {
    assert XorShr33(0x8000_0000_0000_0000) == 0x7FFF_FFFF_C000_0000;
    assert XorShr33(0x7FFF_FFFF_FFFF_FFFF) == 0x7FFF_FFFF_C000_0000;
  }

  // ---------------------------------------------------------------------
  // Closing sequence

  /**
    The closing sequence of both entry points, on the accumulators `h1` and
    `h2`: XOR the length term into `h2`, cross-add, `fmix64` both halves,
    cross-add again.
  */
  function Finalize(h1: bv64, h2: bv64, length: bv64): Digest {
    var h2 := Xor(h2, length);
    var h1 := Add(h1, h2);
    var h2 := Add(h2, h1);
    var h1 := FMix64(h1);
    var h2 := FMix64(h2);
    var h1 := Add(h1, h2);
    var h2 := Add(h2, h1);
    Digest(h1, h2)
  }

  /**
    The length term reaches the digest only through `h2 ^ length`: two
    states whose `h2` differ exactly as their length terms do close to the
    same digest.
  */
  lemma FinalizeSeesOnlyXor(h1: bv64, h2: bv64, length: bv64, h2': bv64, length': bv64)
    requires Xor(h2, length) == Xor(h2', length')
    ensures Finalize(h1, h2, length) == Finalize(h1, h2', length')
  {
  }

  /**
    `(int) (x >>> 32)`, how the 32-bit variants cut the first long: the
    logical shift brings the high half down with zeros above it, so the
    narrowing keeps exactly the high 32 bits.
  */
  function High32(x: bv64): (r: bv32)
    ensures r as bv64 == x >> 32
  {
    LongToInt(UShr(x, 32))
  }

  /**
    The closing statements on `state.h1` and `state.h2`, where `length` is
    the long XORed into `h2`; the other four fields are left as they are.
  */
  method Finish(state: State, length: bv64)
    modifies state
    ensures state.View() == old(state.View()).(h1 := Finalize(old(state.h1), old(state.h2), length).h1,
                                                h2 := Finalize(old(state.h1), old(state.h2), length).h2)
  {
    ghost var s := state.View();
    state.h2 := Xor(state.h2, length);
    state.h1 := Add(state.h1, state.h2);
    state.h2 := Add(state.h2, state.h1);
    state.h1 := FMix64(state.h1);
    state.h2 := FMix64(state.h2);
    state.h1 := Add(state.h1, state.h2);
    state.h2 := Add(state.h2, state.h1);
  }
}
