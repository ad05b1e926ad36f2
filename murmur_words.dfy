/**
  The entry points on a `long[]` key: `MurmurHash3_x64_128(long[], int)` and
  the 64- and 32-bit variants that keep part of its result.

  The pair loop runs while `i < key.length && key.length >= 2`, stepping by
  2 and reading `key[i]` and `key[i + 1]`, so an odd length of 3 or more
  makes its last pass read `key[key.length]`.  After the loop the last
  element is read unconditionally, which fails on an empty key.  Java throws
  `ArrayIndexOutOfBoundsException` in both cases; the model states the
  lengths that get through as the precondition `Accepted(|key|)` and proves
  it is exactly the condition under which every read is inside the key.

  A key of odd length takes one more round whose `k1` is the last element
  XORed into what `k1` held before, and whose `k2` is what `k2` held before.
  The only accepted odd length is 1, where the loop never ran and both are
  still zero.
*/
module MurmurWords {
  import opened JavaNum
  import opened MurmurMix

  // ---------------------------------------------------------------------
  // Which lengths the source accepts

  /** The lengths for which neither the pair loop nor the read of the last element leaves the key. */
  predicate Accepted(m: nat) {
    m >= 1 && (m == 1 || m % 2 == 0)
  }

  /** The loop over a key of length `m` starts a pair at index `i`. */
  predicate LoopVisits(m: nat, i: nat) {
    m >= 2 && i % 2 == 0 && i < m
  }

  /** Every pair the loop starts lies inside the key, and so does the last element. */
  ghost predicate ReadsInBounds(m: nat) {
    (forall i: nat :: LoopVisits(m, i) ==> i + 1 < m) && m - 1 >= 0
  }

  /** A length is accepted exactly when none of the reads leaves the key. */
  lemma AcceptedIffReadsInBounds(m: nat)
    ensures Accepted(m) <==> ReadsInBounds(m)
  {
    if m >= 3 && m % 2 != 0 {
      assert LoopVisits(m, m - 1) && m - 1 + 1 >= m;
    }
  }

  /** A pair the loop starts inside a key of even length ends inside it too. */
  lemma NextPairFits(m: nat, b: nat)
    requires m % 2 == 0 && 2 * b < m
    ensures 2 * b + 2 <= m
  {
  }

  /** The loop stops after the last whole pair of an accepted key. */
  lemma LoopStopsAtLastPair(m: nat, b: nat)
    requires Accepted(m) && 2 * b <= m && !(2 * b < m && m >= 2)
    ensures b == m / 2
  {
  }

  // ---------------------------------------------------------------------
  // The pairs

  /** Pair `b` of the key as one block: the elements `2 b` and `2 b + 1`. */
  function PairOf(key: seq<bv64>, b: nat): Block
    requires 2 * b + 2 <= |key|
  {
    Block(key[2 * b], key[2 * b + 1])
  }

  /** The pair that starts at index `i` is pair `i / 2`. */
  lemma PairOfAt(key: seq<bv64>, i: nat, b: nat)
    requires i == 2 * b && i + 2 <= |key|
    ensures PairOf(key, b) == Block(key[i], key[i + 1])
  {
  }

  /** The first `count` pairs the loop reads, in order, each as one block. */
  function PairFeed(key: seq<bv64>, count: nat): (f: seq<Block>)
    requires 2 * count <= |key|
    ensures |f| == count
  {
    if count == 0 then [] else PairFeed(key, count - 1) + [PairOf(key, count - 1)]
  }

  /** Pair `b` holds the elements `2 b` and `2 b + 1`. */
  lemma {:induction false} PairFeedAt(key: seq<bv64>, count: nat, b: nat)
    requires 2 * count <= |key| && b < count
    ensures PairFeed(key, count)[b] == Block(key[2 * b], key[2 * b + 1])
  {
    if b < count - 1 {
      PairFeedAt(key, count - 1, b);
    }
  }

  /** One more pair is one more round. */
  lemma PairFeedStep(s: Regs, key: seq<bv64>, b: nat)
    requires 2 * b + 2 <= |key|
    ensures Run(s, PairFeed(key, b + 1)) == Round(Run(s, PairFeed(key, b)), PairOf(key, b))
  {
    RunSnoc(s, PairFeed(key, b), PairOf(key, b));
  }

  // ---------------------------------------------------------------------
  // The length term

  /**
    The long XORed into `h2`: `key.length * 8` is an `int` product, so it
    wraps modulo 2^32 and is then widened to a `long` with sign extension.
  */
  function LengthTerm(m: nat): (r: bv64)
    requires m <= MaxArrayLength
    ensures m < 0x1000_0000 ==> r == (m as bv64) << 3
  {
    IntToLong(LengthToInt(m) * 8)
  }

  /**
    From `2^28` elements on the product overflows: `2^28` elements give the
    negative `int` `-2^31`, and `2^29` and `2^30` elements both give 0, the
    same as an empty key would.
  */
  lemma LengthTermOverflows()
    ensures LengthTerm(0x1000_0000) == 0xFFFF_FFFF_8000_0000
    ensures LengthTerm(0x2000_0000) == 0 && LengthTerm(0x4000_0000) == 0
  {
  }

  // ---------------------------------------------------------------------
  // The whole hash

  /**
    The blocks of the rounds an accepted key takes, in order: the pairs,
    then, for a key of one element, that element with a zero `k2`.
  */
  function WordFeed(key: seq<bv64>): seq<Block> {
    PairFeed(key, |key| / 2) + (if |key| % 2 != 0 then [Block(key[|key| - 1], 0)] else [])
  }

  /** An accepted key of `m` elements takes `m / 2 + m % 2` rounds. */
  lemma WordFeedLength(key: seq<bv64>)
    requires Accepted(|key|)
    ensures |WordFeed(key)| == |key| / 2 + |key| % 2
  {
  }

  /** After the rounds of an accepted key, `c1` and `c2` depend only on its length. */
  lemma WordConstants(key: seq<bv64>, seed: bv32)
    requires Accepted(|key|)
    ensures Run(Init(seed), WordFeed(key)).c1 == C1After(C1Base, |key| / 2 + |key| % 2)
    ensures Run(Init(seed), WordFeed(key)).c2 == C2After(C2Base, |key| / 2 + |key| % 2)
  {
    RunConstants(Init(seed), WordFeed(key));
    WordFeedLength(key);
  }

  /** A key of even length is fed as its pairs alone. */
  lemma EvenWordFeed(key: seq<bv64>)
    requires |key| % 2 == 0
    ensures WordFeed(key) == PairFeed(key, |key| / 2)
  {
    assert WordFeed(key) == PairFeed(key, |key| / 2) + [];
  }

  /** A key of one element is fed as that element with a zero `k2`. */
  lemma OddWordFeed(key: seq<bv64>)
    requires |key| == 1
    ensures WordFeed(key) == [Block(key[0], 0)]
  {
    assert PairFeed(key, 0) == [];
  }

  /** `MurmurHash3_x64_128(key, seed)` on a `long[]` it accepts, the pair `{ h1, h2 }`. */
  function Digest128(key: seq<bv64>, seed: bv32): Digest
    requires |key| <= MaxArrayLength && Accepted(|key|)
  {
    var s := Run(Init(seed), WordFeed(key));
    Finalize(s.h1, s.h2, LengthTerm(|key|))
  }

  /** `MurmurHash3_x64_64(key, seed)`: the first long of the 128-bit digest. */
  function Digest64(key: seq<bv64>, seed: bv32): bv64
    requires |key| <= MaxArrayLength && Accepted(|key|)
  {
    Digest128(key, seed).h1
  }

  /** `MurmurHash3_x64_32(key, seed)`: the high half of the first long, narrowed to an `int`. */
  function Digest32(key: seq<bv64>, seed: bv32): bv32
    requires |key| <= MaxArrayLength && Accepted(|key|)
  {
    High32(Digest64(key, seed))
  }

  // ---------------------------------------------------------------------
  // The methods

  /**
    The pair loop of `MurmurHash3_x64_128(long[], int)`: one round per two
    elements, storing `key[i]` and `key[i + 1]` into `k1` and `k2`.
  */
  method MixPairs(state: State, key: seq<bv64>)
    requires Accepted(|key|)
    modifies state
    ensures state.View() == Run(old(state.View()), PairFeed(key, |key| / 2))
  {
    ghost var start := state.View();
    var i := 0;
    ghost var b := 0;
    assert PairFeed(key, 0) == [];
    while i < |key| && |key| >= 2
      invariant i == 2 * b && i <= |key|
      invariant state.View() == Run(start, PairFeed(key, b))
      decreases |key| - i
    {
      NextPairFits(|key|, b);
      MixPair(state, key, i, b, start);
      i, b := i + 2, b + 1;
    }
    LoopStopsAtLastPair(|key|, b);
  }

  /**
    One pass of the pair loop, at pair `b`, which starts at index `i`:
    `key[i]` and `key[i + 1]` into `k1` and `k2`, then `bmix64`, which
    absorbs one more pair into the rounds run so far.
  */
  method MixPair(state: State, key: seq<bv64>, i: nat, ghost b: nat, ghost start: Regs)
    requires i == 2 * b && i + 2 <= |key|
    requires state.View() == Run(start, PairFeed(key, b))
    modifies state
    ensures state.View() == Run(start, PairFeed(key, b + 1))
  {
    ghost var s := state.View();
    PairOfAt(key, i, b);
    state.k1 := key[i];
    state.k2 := key[i + 1];
    assert state.View() == s.(k1 := PairOf(key, b).k1, k2 := PairOf(key, b).k2);
    Bmix64(state);
    PairFeedStep(start, key, b);
  }

  /**
    Read the last element, and for a key of odd length XOR it into `k1` and
    mix once more with whatever `k2` holds.
  */
  method MixOddTail(state: State, key: seq<bv64>)
    requires |key| >= 1
    modifies state
    ensures |key| % 2 == 0 ==> state.View() == old(state.View())
    ensures |key| % 2 != 0 ==>
      state.View() == Round(old(state.View()), Block(Xor(old(state.k1), key[|key| - 1]), old(state.k2)))
  {
    var tail := key[|key| - 1];
    if |key| % 2 != 0 {
      MixBlock(state, Xor(state.k1, tail), state.k2);
    }
  }

  /**
    The pair loop followed by the odd-element round, from the state set up
    for `seed`: the rounds of the whole key.  For a one-element key the loop
    leaves `k1` and `k2` at the zero of the setup, so the element is XORed
    into a zero `k1` and paired with a zero `k2`.
  */
  method MixKey(state: State, key: seq<bv64>, ghost seed: bv32)
    requires Accepted(|key|)
    requires state.View() == Init(seed)
    modifies state
    ensures state.View() == Run(Init(seed), WordFeed(key))
  {
    MixPairs(state, key);
    if |key| % 2 == 0 {
      MixOddTail(state, key);
      EvenWordFeed(key);
    } else {
      assert PairFeed(key, 0) == [];
      assert state.View() == Init(seed);
      MixOddTail(state, key);
      OddWordFeed(key);
      RunSnoc(Init(seed), [], Block(key[0], 0));
      assert [] + [Block(key[0], 0)] == WordFeed(key);
    }
  }

  /**
    `MurmurHash3_x64_128(long[] key, int seed)`: set up the state, mix the
    pairs and the odd element, run the closing sequence with `key.length * 8`
    as the long XORed into `h2`, and return `{ h1, h2 }`.
  */
  method Hash128(key: seq<bv64>, seed: bv32) returns (out: seq<bv64>)
    requires |key| <= MaxArrayLength
    requires Accepted(|key|)
    ensures out == [Digest128(key, seed).h1, Digest128(key, seed).h2]
  {
    var state := new State();
    state.h1 := Xor(H1Base, IntToLong(seed));
    state.h2 := Xor(H2Base, IntToLong(seed));
    state.c1 := C1Base;
    state.c2 := C2Base;
    assert state.View() == Init(seed);
    MixKey(state, key, seed);
    Finish(state, LengthTerm(|key|));
    out := [state.h1, state.h2];
  }

  /** `MurmurHash3_x64_64(long[] key, int seed)`: element 0 of the 128-bit result. */
  method Hash64(key: seq<bv64>, seed: bv32) returns (r: bv64)
    requires |key| <= MaxArrayLength
    requires Accepted(|key|)
    ensures r == Digest64(key, seed)
  {
    var out := Hash128(key, seed);
    r := out[0];
  }

  /** `MurmurHash3_x64_32(long[] key, int seed)`: element 0 shifted right by 32 and narrowed. */
  method Hash32(key: seq<bv64>, seed: bv32) returns (r: bv32)
    requires |key| <= MaxArrayLength
    requires Accepted(|key|)
    ensures r == Digest32(key, seed)
  {
    var out := Hash128(key, seed);
    r := High32(out[0]);
  }
}
