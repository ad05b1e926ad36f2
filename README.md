# MurmurHash3 x64_128, Java port, in Dafny

This project models `MurmurHash3.java`, a Java port of the x64 128-bit
variant of MurmurHash3. The class hashes a `byte[]` or a `long[]` key under
an `int` seed. Each key type has a 128-bit, a 64-bit and a 32-bit entry
point. The model follows the Java code statement by statement, including
where it departs from the C reference it was ported from.

Four modules:

- `JavaNum` covers Java's `long`, `int` and `byte` as `bv64`, `bv32` and
  `bv8`. It names the operators the hash uses: wrapping `+` and `*`, the
  sign-extending widenings, the narrowing cast, and the shifts `<<`, `>>>`
  and `>>` with their six-bit distance mask.
- `MurmurMix` covers what both entry points share:
  - the `State` record as a class whose six fields `bmix64` updates in place;
  - `getblock`, `bmix64` and `fmix64`;
  - the setup and the closing sequence.

  A pure specification sits beside the class: `Regs` is the six fields as
  a value, `BMix` is one round, and `Run` is the rounds of a sequence of
  blocks.
- `MurmurBytes` covers the `byte[]` entry points: the block loop, the
  fall-through tail switch, and the 64- and 32-bit wrappers.
- `MurmurWords` covers the `long[]` entry points: the pair loop, the
  odd-element round, the `int` product `key.length * 8`, and the wrappers.

Each Java loop is a `method` with a `while` loop. Its invariant says the
state equals `Run` of the blocks read so far. Each entry point is a method
proved equal to a digest function. The lemmas state the properties of
those functions: which lengths the code accepts, which bytes the tail
reads, how many rounds run, and that the round constants depend on that
number alone.

The code departs from the reference in these ways, and the model follows
the code:

- The "rotations" `(x << 23) | (x >>> 32 - 23)` and
  `(x << 41) | (x >>> 32 - 41)` shift right by 9 and by 55. They are not
  rotations: `Spin23` loses information and `Spin41` always clears bits 9
  to 40.
- `getblock` masks its 64-bit result with `0xFFFFFFFFL`, so only the last
  four of the eight bytes it reads count.
- `fmix64` uses `>>`. The C reference shifts an unsigned 64-bit value, so
  its shift is logical. Java's `>>` on a signed `long` fills the vacated
  bits with the sign bit. Because of it, every `fmix64` result has bit 63
  clear.
- The tail is read from index `key.length / 16`, not from the end of the
  last block. Its bytes are sign-extended, not masked.
- The byte loop reads past the end of any key of 16 bytes or more whose
  length is not a multiple of 16. The word entry point reads past the end
  of an empty key and of any odd-length key of 3 or more. Java throws
  `ArrayIndexOutOfBoundsException` in those cases. The model makes the
  accepted lengths the precondition `Accepted` and proves it is exactly
  the condition under which every read stays inside the key.

## Model

| member | source | states |
|---|---|---|
| JavaNum.IntToLong | src/java/bloomjava/util/hash/MurmurHash3.java:96-97 | widening an `int` seed keeps its low 32 bits and fills bits 31 to 63 with its sign |
| JavaNum.IntToLongKeepsValue | src/java/bloomjava/util/hash/MurmurHash3.java:96-97 | the widened seed denotes the same signed number as the `int` |
| JavaNum.ByteToLong | src/java/bloomjava/util/hash/MurmurHash3.java:115-130 | the `(long)` cast of a tail byte keeps its eight bits and fills bits 7 to 63 with its sign |
| JavaNum.ByteToLongKeepsValue | src/java/bloomjava/util/hash/MurmurHash3.java:115-130 | the cast tail byte denotes the same signed number as the `byte` |
| JavaNum.LongToInt | src/java/bloomjava/util/hash/MurmurHash3.java:168 | the `(int)` cast keeps exactly the low 32 bits of the long |
| JavaNum.LengthWidensToItself | src/java/bloomjava/util/hash/MurmurHash3.java:134 | `h2 ^= key.length` XORs in the length itself, since an array length is never negative |
| JavaNum.MaskedDistances | src/java/bloomjava/util/hash/MurmurHash3.java:56-64 | the distances `32 - 23` and `32 - 41` shift a long right by 9 and by 55 |
| JavaNum.ShrBits33 | src/java/bloomjava/util/hash/MurmurHash3.java:77-81 | `k >> 33` moves bit j + 33 to bit j and copies the sign bit into the top 33 bits |
| JavaNum.Mul | src/java/bloomjava/util/hash/MurmurHash3.java:55-80 | the wrapping `*` of two longs is odd exactly when both factors are odd |
| JavaNum.MulThree | src/java/bloomjava/util/hash/MurmurHash3.java:69-70 | `Mul` by 3, as in the `h1` and `h2` updates, is the wrapping product `* 3` |
| JavaNum.MulFive | src/java/bloomjava/util/hash/MurmurHash3.java:72-73 | `Mul` by 5, as in the `c1` and `c2` updates, is the wrapping product `* 5` |
| MurmurMix.State.constructor | src/java/bloomjava/util/hash/MurmurHash3.java:31-40 | a new state has all six fields zero |
| MurmurMix.Init | src/java/bloomjava/util/hash/MurmurHash3.java:94-100 | setup: the seed only flips bits of `h1` and `h2` equally, its 32 bits land in the low half of `h1`, `k1` and `k2` are zero, and `c1` and `c2` get the base constants |
| MurmurMix.UnsignedIsZeroExtension | src/java/bloomjava/util/hash/MurmurHash3.java:44-51 | `(long)(b & 0xFF)` is the byte zero-extended |
| MurmurMix.GetBlock | src/java/bloomjava/util/hash/MurmurHash3.java:42-52 | `getblock` never exceeds 32 bits |
| MurmurMix.GetBlockIsBigEndian | src/java/bloomjava/util/hash/MurmurHash3.java:42-52 | `getblock(key, i)` is the big-endian value of `key[i+4..i+8)` |
| MurmurMix.GetBlockIgnoresFirstHalf | src/java/bloomjava/util/hash/MurmurHash3.java:44-47 | bytes `i..i+3` never affect `getblock`: two reads with the same last four bytes are equal |
| MurmurMix.SpinsAreJavaShifts | src/java/bloomjava/util/hash/MurmurHash3.java:56-64 | `Spin23` and `Spin41` are the Java shift-or expressions, with distances masked to six bits |
| MurmurMix.Spin41Gap | src/java/bloomjava/util/hash/MurmurHash3.java:61 | the update of `h2` always leaves bits 9 to 40 clear |
| MurmurMix.Spin41Discards | src/java/bloomjava/util/hash/MurmurHash3.java:61 | the update of `h2` depends only on bits 0-22 and 55-63 of the old `h2` |
| MurmurMix.Spin23Collides | src/java/bloomjava/util/hash/MurmurHash3.java:56 | the `k1` spin maps two different longs to one value, so it is not a rotation |
| MurmurMix.Bmix64 | src/java/bloomjava/util/hash/MurmurHash3.java:54-74 | `bmix64` changes the six fields to one round `BMix` of their old values |
| MurmurMix.BMixConstantsOwn | src/java/bloomjava/util/hash/MurmurHash3.java:72-73 | a round's new `c1` and `c2` depend on the old `c1` and `c2` only, never on `h` or `k` |
| MurmurMix.MixBlock | src/java/bloomjava/util/hash/MurmurHash3.java:103-106 | storing a block into `k1` and `k2` and calling `bmix64` is one `Round` with that block |
| MurmurMix.RunSnoc | src/java/bloomjava/util/hash/MurmurHash3.java:102-107 | one more block at the end of a feed is one more round |
| MurmurMix.RunAppend | src/java/bloomjava/util/hash/MurmurHash3.java:102-131 | running two feeds in turn is running their concatenation |
| MurmurMix.RunConstants | src/java/bloomjava/util/hash/MurmurHash3.java:72-73 | after any rounds, `c1` and `c2` depend only on their start and the number of rounds |
| MurmurMix.XorShr33 | src/java/bloomjava/util/hash/MurmurHash3.java:77 | `k ^= k >> 33` always clears bit 63 |
| MurmurMix.FMix64 | src/java/bloomjava/util/hash/MurmurHash3.java:76-84 | `fmix64` never returns a negative long |
| MurmurMix.FMix64Collides | src/java/bloomjava/util/hash/MurmurHash3.java:76-84 | `fmix64` maps `Long.MIN_VALUE` and `Long.MAX_VALUE` to the same value, so it is not a bijection |
| MurmurMix.FinalizeSeesOnlyXor | src/java/bloomjava/util/hash/MurmurHash3.java:134-143 | the closing sequence sees `h2` and the length term only through their XOR |
| MurmurMix.Finish | src/java/bloomjava/util/hash/MurmurHash3.java:134-143 | the closing statements set `h1` and `h2` to the finalized pair and leave the other four fields unchanged |
| MurmurMix.High32 | src/java/bloomjava/util/hash/MurmurHash3.java:168 | `(int)(x >>> 32)` is the high half of `x` |
| MurmurBytes.AcceptedIffBlockReadsInBounds | src/java/bloomjava/util/hash/MurmurHash3.java:102-104 | a byte key completes the loop exactly when its length is under 16 or a multiple of 16 |
| MurmurBytes.NextBlockFits | src/java/bloomjava/util/hash/MurmurHash3.java:102-104 | for a multiple-of-16 length, every block the loop starts ends inside the key |
| MurmurBytes.LoopStopsAtLastBlock | src/java/bloomjava/util/hash/MurmurHash3.java:102 | on an accepted key the loop stops after block `n / 16`, its last whole block |
| MurmurBytes.TailReadsInBounds | src/java/bloomjava/util/hash/MurmurHash3.java:112-130 | every tail index `n/16 + j` with `j < n % 16` lies inside the key |
| MurmurBytes.AcceptedTailIsWholeKey | src/java/bloomjava/util/hash/MurmurHash3.java:112 | for an accepted key with a tail, the tail starts at 0 and is the whole key |
| MurmurBytes.BlockFeed | src/java/bloomjava/util/hash/MurmurHash3.java:102-104 | the first `count` passes of the loop read `count` blocks |
| MurmurBytes.BlockFeedAt | src/java/bloomjava/util/hash/MurmurHash3.java:102-104 | block b of the loop holds `getblock` at `16b` and at `16b + 8` |
| MurmurBytes.BlockFeedStep | src/java/bloomjava/util/hash/MurmurHash3.java:102-107 | one more block is one more round with the next two `getblock` values |
| MurmurBytes.AcceptedTailReadsWholeKey | src/java/bloomjava/util/hash/MurmurHash3.java:112-130 | for an accepted key with a tail, the switch puts byte j of the key into lane j of `k1` (j < 8) or `k2` |
| MurmurBytes.OneByteTail | src/java/bloomjava/util/hash/MurmurHash3.java:130 | a one-byte key enters as that byte sign-extended into `k1`, with `k2` zero |
| MurmurBytes.TailSignExtends | src/java/bloomjava/util/hash/MurmurHash3.java:130 | the byte `0x80` enters the tail as the long -128, not as 128 |
| MurmurBytes.SwitchK2 | src/java/bloomjava/util/hash/MurmurHash3.java:115-121 | for every tail length, cases 15 to 9 XOR each present byte at `tail + 8..` into its lane of `k2`: the lanes 8 up to the tail length |
| MurmurBytes.SwitchK1 | src/java/bloomjava/util/hash/MurmurHash3.java:123-130 | for every tail length, cases 8 to 1 XOR each present byte at `tail..tail + 7` into its lane of `k1`: the lanes 0 up to the tail length or 8 |
| MurmurBytes.MixTail | src/java/bloomjava/util/hash/MurmurHash3.java:109-132 | without a tail, only `k1` and `k2` are cleared; with one, exactly one more round runs, on the tail block |
| MurmurBytes.ByteFeedLength | src/java/bloomjava/util/hash/MurmurHash3.java:102-131 | an accepted key of n bytes runs `n/16` rounds, plus one when `n % 16 != 0` |
| MurmurBytes.ByteConstants | src/java/bloomjava/util/hash/MurmurHash3.java:99-131 | for an accepted key, the final `c1` and `c2` depend only on the key's length, through its number of rounds |
| MurmurBytes.ByteFeedRun | src/java/bloomjava/util/hash/MurmurHash3.java:102-132 | the rounds of an accepted key are its blocks, then the tail round if there is a tail |
| MurmurBytes.MixBlocks | src/java/bloomjava/util/hash/MurmurHash3.java:102-107 | the block loop runs one round per 16 bytes, in order |
| MurmurBytes.MixBlockAt | src/java/bloomjava/util/hash/MurmurHash3.java:103-106 | the pass at byte `16b` absorbs block b into the rounds of blocks 0 to b - 1 |
| MurmurBytes.Hash128 | src/java/bloomjava/util/hash/MurmurHash3.java:93-147 | `MurmurHash3_x64_128(byte[], int)` returns the pair `Digest128` of an accepted key |
| MurmurBytes.Hash64 | src/java/bloomjava/util/hash/MurmurHash3.java:156-158 | the 64-bit variant is element 0 of the 128-bit result |
| MurmurBytes.Hash32 | src/java/bloomjava/util/hash/MurmurHash3.java:167-169 | the 32-bit variant is the high half of element 0 |
| MurmurWords.AcceptedIffReadsInBounds | src/java/bloomjava/util/hash/MurmurHash3.java:187-194 | a word key completes exactly when its length is 1 or even and positive |
| MurmurWords.NextPairFits | src/java/bloomjava/util/hash/MurmurHash3.java:187-189 | for an even length, every pair the loop starts ends inside the key |
| MurmurWords.LoopStopsAtLastPair | src/java/bloomjava/util/hash/MurmurHash3.java:187 | on an accepted key the loop stops after pair `m / 2`, its last whole pair |
| MurmurWords.PairFeed | src/java/bloomjava/util/hash/MurmurHash3.java:187-190 | the first `count` passes of the loop read `count` pairs |
| MurmurWords.PairFeedAt | src/java/bloomjava/util/hash/MurmurHash3.java:188-189 | pair b of the loop is elements `2b` and `2b + 1` |
| MurmurWords.PairFeedStep | src/java/bloomjava/util/hash/MurmurHash3.java:187-192 | one more pair is one more round, on elements `2b` and `2b + 1` |
| MurmurWords.LengthTerm | src/java/bloomjava/util/hash/MurmurHash3.java:201 | below `2^28` elements, `key.length * 8` is the length shifted left by 3 |
| MurmurWords.LengthTermOverflows | src/java/bloomjava/util/hash/MurmurHash3.java:201 | the `int` product overflows: `2^28` elements give a negative term, and `2^29` and `2^30` both give 0 |
| MurmurWords.WordFeedLength | src/java/bloomjava/util/hash/MurmurHash3.java:187-199 | an accepted key of m elements runs `m/2 + m%2` rounds |
| MurmurWords.WordConstants | src/java/bloomjava/util/hash/MurmurHash3.java:184-199 | for an accepted key, the final `c1` and `c2` depend only on its number of rounds |
| MurmurWords.EvenWordFeed | src/java/bloomjava/util/hash/MurmurHash3.java:196 | a key of even length takes its pairs only |
| MurmurWords.OddWordFeed | src/java/bloomjava/util/hash/MurmurHash3.java:194-198 | a one-element key takes a single round on that element with a zero `k2` |
| MurmurWords.MixPairs | src/java/bloomjava/util/hash/MurmurHash3.java:187-192 | the pair loop runs one round per two elements, in order |
| MurmurWords.MixPair | src/java/bloomjava/util/hash/MurmurHash3.java:188-191 | the pass at index `2b` absorbs pair b into the rounds of pairs 0 to b - 1 |
| MurmurWords.MixOddTail | src/java/bloomjava/util/hash/MurmurHash3.java:194-199 | an even key changes nothing; an odd key runs one round on `k1 ^ tail` and the leftover `k2` |
| MurmurWords.MixKey | src/java/bloomjava/util/hash/MurmurHash3.java:187-199 | from the setup state, the loop and the odd round together run the rounds of the whole key |
| MurmurWords.Hash128 | src/java/bloomjava/util/hash/MurmurHash3.java:178-214 | `MurmurHash3_x64_128(long[], int)` returns the pair `Digest128` of an accepted key |
| MurmurWords.Hash64 | src/java/bloomjava/util/hash/MurmurHash3.java:223-225 | the 64-bit variant is element 0 of the 128-bit result |
| MurmurWords.Hash32 | src/java/bloomjava/util/hash/MurmurHash3.java:234-236 | the 32-bit variant is the high half of element 0 |

## Left out

- Exceptions: an out-of-bounds key makes Java throw `ArrayIndexOutOfBoundsException`, and a `null` key `NullPointerException`. The model has no `null` keys. Out-of-bounds lengths are excluded by the precondition `Accepted`, and the `AcceptedIff…` lemmas show which lengths those are.
- Keys are read-only `seq<bv8>` and `seq<bv64>` values. The code never writes to a key, so aliasing does not matter. The returned `long[]` is a two-element `seq<bv64>`; the allocation of a fresh array is not modelled.
- The tail switch XORs into `state.k1` and `state.k2` after clearing them. The model XORs into two zeroed locals (`SwitchK1`, `SwitchK2`) and stores them just before `bmix64`. The fields hold the same values at every call of `bmix64` and at the end.
- The switch selector `key.length & 15` is written `% 16`. The two agree on non-negative lengths, and a length is never negative.
- The two spins of `bmix64` are defined with the already-masked distances 9 and 55. `SpinsAreJavaShifts` proves them equal to the Java expressions, which `Bmix64` executes as written.
- JavaNum.Mul: is defined by schoolbook shift-and-add on the bits of the second factor. It is proved equal to the wrapping `*` only for the literals 3 and 5 (`MulThree`, `MulFive`). For `c1`, `c2`, `0xff51afd7ed558ccdL` and `0xc4ceb9fe1a85ec53L` the equality rests on that definition, because a proof for a general or 64-bit-wide factor is beyond what the solver finishes.
- Statistical properties (avalanche, seed sensitivity, collision rates) are probabilistic, not facts of the code.
- Known-answer digest values do not appear in the code. Computing them would mean running the hash.
- The canonical SMHasher behaviour is not modelled: true 64-bit rotations, full little-endian block reads, logical `fmix64` shifts and the correct tail offset. Only the Java code's behaviour is.
