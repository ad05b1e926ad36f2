/**
  The entry points on a `byte[]` key: `MurmurHash3_x64_128(byte[], int)` and
  the 64- and 32-bit variants that keep part of its result.

  The block loop runs while `i < key.length && key.length >= 16`, stepping
  by 16 and reading `key[i .. i + 16)`, so a key of 16 bytes or more whose
  length is not a multiple of 16 makes it read past the end: Java throws
  `ArrayIndexOutOfBoundsException`.  The model states that as the
  precondition `Accepted(|key|)` and proves it is exactly the condition
  under which every read of the loop is inside the key.

  The tail is read from index `key.length / 16` (not from the end of the
  last block), each byte sign-extended to a `long` before it is shifted.
  Under `Accepted` a key with a tail is shorter than 16 bytes, so the tail
  starts at index 0 and covers the whole key.
*/
module MurmurBytes {
  import opened JavaNum
  import opened MurmurMix

  // ---------------------------------------------------------------------
  // Which lengths the source accepts

  /** The lengths for which the block loop stays inside the key. */
  predicate Accepted(n: nat) {
    n < 16 || n % 16 == 0
  }

  /** The loop of a key of length `n` starts a block at index `i`. */
  predicate LoopVisits(n: nat, i: nat) {
    n >= 16 && i % 16 == 0 && i < n
  }

  /** Every block the loop starts, it reads to its end inside the key. */
  ghost predicate BlockReadsInBounds(n: nat) {
    forall i: nat :: LoopVisits(n, i) ==> i + 16 <= n
  }

  /** A length is accepted exactly when none of the loop's reads leaves the key. */
  lemma AcceptedIffBlockReadsInBounds(n: nat)
    ensures Accepted(n) <==> BlockReadsInBounds(n)
  {
    if !Accepted(n) {
      var i := 16 * (n / 16);
      assert LoopVisits(n, i) && i + 16 > n;
    }
  }

  /** A block the loop starts inside a key whose length is a multiple of 16 ends inside it too. */
  lemma NextBlockFits(n: nat, b: nat)
    requires n % 16 == 0 && 16 * b < n
    ensures 16 * b + 16 <= n
  {
  }

  /** On an accepted length the loop stops after the last whole block. */
  lemma LoopStopsAtLastBlock(n: nat, b: nat)
    requires Accepted(n) && 16 * b <= n && !(16 * b < n && n >= 16)
    ensures b == n / 16
  {
  }

  /** The `j`-th byte the tail reads, at index `n / 16 + j`, lies inside a key of length `n`. */
  lemma TailReadsInBounds(n: nat, j: nat)
    requires j < n % 16
    ensures n / 16 + j < n
  {
    var q := n / 16;
    assert n == 16 * q + n % 16;
  }

  /** For an accepted length with a tail, the tail is the whole key. */
  lemma AcceptedTailIsWholeKey(n: nat)
    requires Accepted(n) && n % 16 != 0
    ensures n / 16 == 0 && n % 16 == n
  {
  }

  // ---------------------------------------------------------------------
  // The blocks

  /** Block `b` of the key: `getblock` at byte `16 b` and at byte `16 b + 8`. */
  function BlockOf(key: seq<bv8>, b: nat): Block
    requires 16 * b + 16 <= |key|
  {
    Block(GetBlock(key, 16 * b), GetBlock(key, 16 * b + 8))
  }

  /** The block that starts at byte `i` is block `i / 16`. */
  lemma BlockOfAt(key: seq<bv8>, i: nat, b: nat)
    requires i == 16 * b && i + 16 <= |key|
    ensures BlockOf(key, b) == Block(GetBlock(key, i), GetBlock(key, i + 8))
  {
  }

  /** The first `count` blocks the loop reads, in order. */
  function BlockFeed(key: seq<bv8>, count: nat): (f: seq<Block>)
    requires 16 * count <= |key|
    ensures |f| == count
  {
    if count == 0 then [] else BlockFeed(key, count - 1) + [BlockOf(key, count - 1)]
  }

  /** Block `b` holds `getblock` of the two halves of bytes `16 b .. 16 b + 16`. */
  lemma {:induction false} BlockFeedAt(key: seq<bv8>, count: nat, b: nat)
    requires 16 * count <= |key| && b < count
    ensures BlockFeed(key, count)[b] == Block(GetBlock(key, 16 * b), GetBlock(key, 16 * b + 8))
  {
    if b < count - 1 {
      BlockFeedAt(key, count - 1, b);
    }
  }

  /** One more block is one more round. */
  lemma BlockFeedStep(s: Regs, key: seq<bv8>, b: nat)
    requires 16 * b + 16 <= |key|
    ensures Run(s, BlockFeed(key, b + 1)) == Round(Run(s, BlockFeed(key, b)), BlockOf(key, b))
  {
    RunSnoc(s, BlockFeed(key, b), BlockOf(key, b));
  }

  // ---------------------------------------------------------------------
  // The tail

  /** `(long)(key[t + j]) << 8 * (j % 8)`: tail byte `j`, sign-extended, in its lane of a `long`. */
  function Lane(key: seq<bv8>, t: nat, j: nat): bv64
    requires j < 16 && t + j < |key|
  {
    Shl(ByteToLong(key[t + j]), (j as bv32 & 7) << 3)
  }

  /** The XOR of the lanes `m .. hi - 1` of the tail starting at `t`. */
  function Lanes(key: seq<bv8>, t: nat, m: nat, hi: nat): bv64
    requires m >= hi || (hi <= 16 && t + hi <= |key|)
    decreases hi - m
  {
    if m >= hi then 0 else Xor(Lanes(key, t, m + 1, hi), Lane(key, t, m))
  }

  /** The block the switch builds from the `n % 16` tail bytes at index `n / 16`. */
  function TailBlock(key: seq<bv8>): Block {
    var t, r := |key| / 16, |key| % 16;
    TailReadsInBoundsAll(|key|);
    Block(Lanes(key, t, 0, if r < 8 then r else 8), Lanes(key, t, 8, r))
  }

  lemma TailReadsInBoundsAll(n: nat)
    ensures n / 16 + n % 16 <= n
  {
    if n % 16 != 0 {
      TailReadsInBounds(n, n % 16 - 1);
    }
  }

  /**
    For an accepted key with a tail, the switch reads exactly the bytes
    `key[0 .. n)`, byte `j` into lane `j` of `k1` for `j < 8` and of `k2` above.
  */
  lemma AcceptedTailReadsWholeKey(key: seq<bv8>)
    requires Accepted(|key|) && |key| % 16 != 0
    ensures TailBlock(key) == Block(Lanes(key, 0, 0, if |key| < 8 then |key| else 8), Lanes(key, 0, 8, |key|))
  {
    AcceptedTailIsWholeKey(|key|);
  }

  /** A one-byte key: `k1` is that byte sign-extended, so a negative byte fills all 64 bits. */
  lemma OneByteTail(key: seq<bv8>)
    requires |key| == 1
    ensures TailBlock(key) == Block(ByteToLong(key[0]), 0)
  {
  }

  /** The byte `0x80` enters the tail as the long `-128`, not as `128`. */
  lemma TailSignExtends()
    ensures TailBlock([0x80]).k1 == 0xFFFF_FFFF_FFFF_FF80
  {
    OneByteTail([0x80]);
  }

  // ---------------------------------------------------------------------
  // The whole hash

  /** The blocks of the rounds an accepted key takes, in order: full blocks, then the tail if there is one. */
  function ByteFeed(key: seq<bv8>): seq<Block> {
    BlockFeed(key, |key| / 16) + (if |key| % 16 != 0 then [TailBlock(key)] else [])
  }

  /** An accepted key of `n` bytes takes `n / 16` rounds, plus one when `n % 16 != 0`: empty keys and whole blocks get no tail round. */
  lemma ByteFeedLength(key: seq<bv8>)
    requires Accepted(|key|)
    ensures |ByteFeed(key)| == |key| / 16 + (if |key| % 16 != 0 then 1 else 0)
  {
  }

  /** After the rounds of an accepted key, `c1` and `c2` depend only on its length. */
  lemma ByteConstants(key: seq<bv8>, seed: bv32)
    requires Accepted(|key|)
    ensures Run(Init(seed), ByteFeed(key)).c1 == C1After(C1Base, |key| / 16 + (if |key| % 16 != 0 then 1 else 0))
    ensures Run(Init(seed), ByteFeed(key)).c2 == C2After(C2Base, |key| / 16 + (if |key| % 16 != 0 then 1 else 0))
  {
    RunConstants(Init(seed), ByteFeed(key));
    ByteFeedLength(key);
  }

  /** The rounds of a whole accepted key: the blocks, then one more round for the tail if there is one. */
  lemma ByteFeedRun(key: seq<bv8>, seed: bv32)
    requires Accepted(|key|)
    ensures var blocks := Run(Init(seed), BlockFeed(key, |key| / 16));
      Run(Init(seed), ByteFeed(key)) == if |key| % 16 == 0 then blocks else Round(blocks, TailBlock(key))
  {
    var full := BlockFeed(key, |key| / 16);
    if |key| % 16 != 0 {
      RunAppend(Init(seed), full, [TailBlock(key)]);
      assert [TailBlock(key)][..0] == [];
    } else {
      assert ByteFeed(key) == full;
    }
  }

  /** `MurmurHash3_x64_128(key, seed)` on a key it accepts, the pair `{ h1, h2 }`. */
  function Digest128(key: seq<bv8>, seed: bv32): Digest
    requires |key| <= MaxArrayLength && Accepted(|key|)
  {
    var s := Run(Init(seed), ByteFeed(key));
    Finalize(s.h1, s.h2, IntToLong(LengthToInt(|key|)))
  }

  /** `MurmurHash3_x64_64(key, seed)`: the first long of the 128-bit digest. */
  function Digest64(key: seq<bv8>, seed: bv32): bv64
    requires |key| <= MaxArrayLength && Accepted(|key|)
  {
    Digest128(key, seed).h1
  }

  /** `MurmurHash3_x64_32(key, seed)`: the high half of the first long, narrowed to an `int`. */
  function Digest32(key: seq<bv8>, seed: bv32): bv32
    requires |key| <= MaxArrayLength && Accepted(|key|)
  {
    High32(Digest64(key, seed))
  }

  // ---------------------------------------------------------------------
  // The methods

  /**
    The block loop of `MurmurHash3_x64_128(byte[], int)`: one round per 16
    bytes, each storing `getblock` at `i` and at `i + 8` into `k1` and `k2`.
  */
  method MixBlocks(state: State, key: seq<bv8>)
    requires Accepted(|key|)
    modifies state
    ensures state.View() == Run(old(state.View()), BlockFeed(key, |key| / 16))
  {
    ghost var start := state.View();
    var i := 0;
    ghost var b := 0;
    assert BlockFeed(key, 0) == [];
    while i < |key| && |key| >= 16
      invariant i == 16 * b && i <= |key|
      invariant state.View() == Run(start, BlockFeed(key, b))
      decreases |key| - i
    {
      NextBlockFits(|key|, b);
      MixBlockAt(state, key, i, b, start);
      i, b := i + 16, b + 1;
    }
    LoopStopsAtLastBlock(|key|, b);
  }

  /**
    One pass of the block loop, at block `b`, which starts at byte `i`:
    `getblock` at `i` and at `i + 8` into `k1` and `k2`, then `bmix64`,
    which absorbs one more block into the rounds run so far.
  */
  method MixBlockAt(state: State, key: seq<bv8>, i: nat, ghost b: nat, ghost start: Regs)
    requires i == 16 * b && i + 16 <= |key|
    requires state.View() == Run(start, BlockFeed(key, b))
    modifies state
    ensures state.View() == Run(start, BlockFeed(key, b + 1))
  {
    ghost var s := state.View();
    BlockOfAt(key, i, b);
    state.k1 := GetBlock(key, i);
    state.k2 := GetBlock(key, i + 8);
    assert state.View() == s.(k1 := BlockOf(key, b).k1, k2 := BlockOf(key, b).k2);
    Bmix64(state);
    BlockFeedStep(start, key, b);
  }

  /**
    Cases 15 down to 9 of the switch on `key.length & 15`: the tail bytes at
    `tail + 14` down to `tail + 8` that the tail has, XORed into a cleared `k2`.
  */
  method SwitchK2(key: seq<bv8>, tail: nat, r: nat) returns (k2: bv64)
    requires r < 16 && tail + r <= |key|
    ensures k2 == Lanes(key, tail, 8, r)
  {
    k2 := 0;
    if r >= 15 { k2 := Xor(k2, Shl(ByteToLong(key[tail + 14]), 48)); }
    if r >= 14 { k2 := Xor(k2, Shl(ByteToLong(key[tail + 13]), 40)); }
    if r >= 13 { k2 := Xor(k2, Shl(ByteToLong(key[tail + 12]), 32)); }
    if r >= 12 { k2 := Xor(k2, Shl(ByteToLong(key[tail + 11]), 24)); }
    if r >= 11 { k2 := Xor(k2, Shl(ByteToLong(key[tail + 10]), 16)); }
    if r >= 10 { k2 := Xor(k2, Shl(ByteToLong(key[tail + 9]), 8)); }
    if r >= 9 { k2 := Xor(k2, Shl(ByteToLong(key[tail + 8]), 0)); }
    // One tail length at a time, the bytes XORed in are lanes 8 up to `r`.
    if r <= 8 {
      assert k2 == 0 == Lanes(key, tail, 8, r);
    } else if r == 9 {
      assert k2 == Lanes(key, tail, 8, 9);
    } else if r == 10 {
      assert k2 == Lanes(key, tail, 8, 10);
    } else if r == 11 {
      assert k2 == Lanes(key, tail, 8, 11);
    } else if r == 12 {
      assert k2 == Lanes(key, tail, 8, 12);
    } else if r == 13 {
      assert k2 == Lanes(key, tail, 8, 13);
    } else if r == 14 {
      assert k2 == Lanes(key, tail, 8, 14);
    } else {
      assert k2 == Lanes(key, tail, 8, 15);
    }
  }

  /** Cases 8 down to 1: the tail bytes at `tail + 7` down to `tail`, XORed into a cleared `k1`. */
  method SwitchK1(key: seq<bv8>, tail: nat, r: nat) returns (k1: bv64)
    requires r < 16 && tail + r <= |key|
    ensures k1 == Lanes(key, tail, 0, if r < 8 then r else 8)
  {
    k1 := 0;
    if r >= 8 { k1 := Xor(k1, Shl(ByteToLong(key[tail + 7]), 56)); }
    if r >= 7 { k1 := Xor(k1, Shl(ByteToLong(key[tail + 6]), 48)); }
    if r >= 6 { k1 := Xor(k1, Shl(ByteToLong(key[tail + 5]), 40)); }
    if r >= 5 { k1 := Xor(k1, Shl(ByteToLong(key[tail + 4]), 32)); }
    if r >= 4 { k1 := Xor(k1, Shl(ByteToLong(key[tail + 3]), 24)); }
    if r >= 3 { k1 := Xor(k1, Shl(ByteToLong(key[tail + 2]), 16)); }
    if r >= 2 { k1 := Xor(k1, Shl(ByteToLong(key[tail + 1]), 8)); }
    if r >= 1 { k1 := Xor(k1, Shl(ByteToLong(key[tail + 0]), 0)); }
    // One tail length at a time, the bytes XORed in are lanes 0 up to `r`, at most 8.
    if r == 0 {
      assert k1 == 0 == Lanes(key, tail, 0, 0);
    } else if r == 1 {
      assert k1 == Lanes(key, tail, 0, 1);
    } else if r == 2 {
      assert k1 == Lanes(key, tail, 0, 2);
    } else if r == 3 {
      assert k1 == Lanes(key, tail, 0, 3);
    } else if r == 4 {
      assert k1 == Lanes(key, tail, 0, 4);
    } else if r == 5 {
      assert k1 == Lanes(key, tail, 0, 5);
    } else if r == 6 {
      assert k1 == Lanes(key, tail, 0, 6);
    } else if r == 7 {
      assert k1 == Lanes(key, tail, 0, 7);
    } else {
      assert k1 == Lanes(key, tail, 0, 8);
    }
  }

  /**
    The tail of `MurmurHash3_x64_128(byte[], int)`: clear `k1` and `k2`, run
    the fall-through switch on `key.length & 15`, and mix once more when any
    case was taken.
  */
  method MixTail(state: State, key: seq<bv8>)
    modifies state
    ensures |key| % 16 == 0 ==> state.View() == old(state.View()).(k1 := 0, k2 := 0)
    ensures |key| % 16 != 0 ==> state.View() == Round(old(state.View()), TailBlock(key))
  {
    state.k1 := 0;
    state.k2 := 0;
    var tail := |key| / 16;
    var r := |key| % 16;
    TailReadsInBoundsAll(|key|);
    var k2 := SwitchK2(key, tail, r);
    var k1 := SwitchK1(key, tail, r);
    if r >= 1 {
      MixBlock(state, k1, k2);
    }
  }

  /**
    `MurmurHash3_x64_128(byte[] key, int seed)`: set up the state, mix the
    blocks and the tail, run the closing sequence with the length of the key
    as the long XORed into `h2`, and return `{ h1, h2 }`.
  */
  method Hash128(key: seq<bv8>, seed: bv32) returns (out: seq<bv64>)
    requires |key| <= MaxArrayLength
    requires Accepted(|key|)
    ensures out == [Digest128(key, seed).h1, Digest128(key, seed).h2]
  {
    var state := new State();
    state.h1 := Xor(H1Base, IntToLong(seed));
    state.h2 := Xor(H2Base, IntToLong(seed));
    state.c1 := C1Base;
    state.c2 := C2Base;
    assert state.View() == Init(seed);
    MixBlocks(state, key);
    MixTail(state, key);
    ByteFeedRun(key, seed);
    Finish(state, IntToLong(LengthToInt(|key|)));
    out := [state.h1, state.h2];
  }

  /** `MurmurHash3_x64_64(byte[] key, int seed)`: element 0 of the 128-bit result. */
  method Hash64(key: seq<bv8>, seed: bv32) returns (r: bv64)
    requires |key| <= MaxArrayLength
    requires Accepted(|key|)
    ensures r == Digest64(key, seed)
  {
    var out := Hash128(key, seed);
    r := out[0];
  }

  /** `MurmurHash3_x64_32(byte[] key, int seed)`: element 0 shifted right by 32 and narrowed. */
  method Hash32(key: seq<bv8>, seed: bv32) returns (r: bv32)
    requires |key| <= MaxArrayLength
    requires Accepted(|key|)
    ensures r == Digest32(key, seed)
  {
    var out := Hash128(key, seed);
    r := High32(out[0]);
  }
}
