/**
 * Magic-bitboard construction (src/magics.rs: `Magic::index_to_occ`, `Magic::occ_to_index`,
 * `Magic::attack`, `Magic::pseudo_attack`, `MagicTable::new`, `MagicTable::magic`, and the
 * shift and size constants).
 *
 * For each square, the relevant blockers are the bits of its attack mask. `index_to_occ`
 * enumerates the subsets of the mask: bit `j` of the index says whether the `j`-th lowest
 * bit of the mask is present. `occ_to_index` hashes an occupancy with a per-square magic
 * multiplier and a right shift, and `MagicTable::new` fills, for every square, a slice of one
 * flat attack vector with the sliding attacks of every subset at its hashed slot.
 */
module Magics {
  import opened Bits
  import opened Consts
  import opened Sliding
  import opened Wrappers

  // ---------------------------------------------------------------------------
  // The bits of a mask, lowest first
  // ---------------------------------------------------------------------------

  /** The mask after `i` pops: its `i` lowest set bits cleared. */
  function PopN(m: nat, i: nat): (r: nat)
    requires i <= Count(m)
    ensures Count(r) == Count(m) - i
    ensures r <= m
    decreases i
  {
    if i == 0 then m
    else
      var prev := PopN(m, i - 1);
      assert prev != 0;
      PopCount(prev);
      Pop(prev)
  }

  /** The `j`-th lowest set bit of `m` (counting from 0). */
  function NthBit(m: nat, j: nat): (r: nat)
    requires j < Count(m)
    ensures m < LIMIT ==> r < 128
  {
    Lsb(PopN(m, j))
  }

  /** A popped mask keeps only bits of the mask, all above the bits popped so far. */
  lemma {:induction false} PopNBits(m: nat, i: nat, t: nat)
    requires i <= Count(m)
    ensures Has(PopN(m, i), t) ==> Has(m, t)
    ensures Has(PopN(m, i), t) && i > 0 ==> NthBit(m, i - 1) < t
    decreases i
  {
    if i > 0 {
      var prev := PopN(m, i - 1);
      PopCount(prev);
      PopNBits(m, i - 1, t);
      assert Has(PopN(m, i), t) <==> Has(prev, t) && t != Lsb(prev);
    }
  }

  /** The `j`-th bit is a bit of the mask, and the bits are listed in increasing order. */
  lemma NthBitInMask(m: nat, j: nat)
    requires j < Count(m)
    ensures Has(m, NthBit(m, j))
  {
    var p := PopN(m, j);
    assert p != 0;
    PopNBits(m, j, Lsb(p));
  }

  /** Later bits of the list are higher squares. */
  lemma {:induction false} NthBitIncreasing(m: nat, j1: nat, j2: nat)
    requires j1 < j2 < Count(m)
    ensures NthBit(m, j1) < NthBit(m, j2)
    decreases j2 - j1
  {
    var p := PopN(m, j2);
    assert p != 0;
    PopNBitsAbove(m, j1 + 1, j2, Lsb(p));
  }

  /** Every bit left after `i2` pops is above the `(i1 - 1)`-th bit, for `0 < i1 <= i2`. */
  lemma {:induction false} PopNBitsAbove(m: nat, i1: nat, i2: nat, t: nat)
    requires 0 < i1 <= i2 <= Count(m)
    requires Has(PopN(m, i2), t)
    ensures NthBit(m, i1 - 1) < t
    decreases i2 - i1
  {
    if i1 == i2 {
      PopNBits(m, i2, t);
    } else {
      var prev := PopN(m, i2 - 1);
      PopCount(prev);
      assert Has(prev, t);
      PopNBitsAbove(m, i1, i2 - 1, t);
    }
  }

  /** Every bit of the mask is one of the listed bits. */
  lemma {:induction false} MaskBitListed(m: nat, i: nat, t: nat)
    requires i <= Count(m)
    requires Has(PopN(m, i), t)
    ensures exists j :: i <= j < Count(m) && NthBit(m, j) == t
    decreases Count(m) - i
  {
    var p := PopN(m, i);
    if i == Count(m) {
      CountZero(p);
      HasZero(t);
    } else {
      assert p != 0;
      if t == Lsb(p) {
        assert NthBit(m, i) == t;
      } else {
        PopCount(p);
        assert Has(PopN(m, i + 1), t);
        MaskBitListed(m, i + 1, t);
      }
    }
  }

  /** Only 0 has no set bits. */
  lemma CountZero(b: nat)
    requires Count(b) == 0
    ensures b == 0
  {
    if b != 0 {
      assert b % 2 == 0;
      assert Count(b / 2) == 0;
      CountZero(b / 2);
    }
  }

  // ---------------------------------------------------------------------------
  // index_to_occ
  // ---------------------------------------------------------------------------

  /**
   * What `index_to_occ(index, n, mask)` returns: the union of the `j`-th lowest bits of the
   * mask for the `j < n` whose bit is set in `index`.
   */
  function OccSpec(index: nat, n: nat, m: nat): (r: nat)
    requires n <= Count(m) && m < LIMIT
    ensures r < LIMIT
  {
    if n == 0 then 0
    else
      var j := n - 1;
      var prev := OccSpec(index, j, m);
      var sel := if Has(index, j) then Bb(NthBit(m, j)) else 0;
      Pow2Values();
      OrBound(prev, sel, 128);
      Or(prev, sel)
  }

  /**
   * `Magic::index_to_occ(index, bit_count, mask)`. Each bit of the `u32` index is read with `1 << i`,
   * which overflows for `i >= 32`, and each round pops a bit of the mask, which underflows
   * once the mask is empty: so `bit_count` is at most 32 and at most the mask's bit count.
   */
  method IndexToOcc(index: nat, bitCount: nat, mask: nat) returns (ret: nat)
    requires index < 0x1_0000_0000 && bitCount <= 32
    requires mask < LIMIT && bitCount <= Count(mask)
    ensures ret == OccSpec(index, bitCount, mask)
  {
    ret := NONE;
    var m := mask;
    for i := 0 to bitCount
      invariant m == PopN(mask, i)
      invariant ret == OccSpec(index, i, mask)
    {
      var sq := Lsb(m);
      assert sq == NthBit(mask, i);
      AndPow2(index, i);
      ghost var sel := if Has(index, i) then Bb(sq) else 0;
      assert OccSpec(index, i + 1, mask) == Or(ret, sel);
      if And(index, Pow2(i)) != 0 {
        ret := Or(ret, Bb(sq));
      } else {
        OrZero(ret);
      }
      PopCount(m);
      m := Pop(m);
    }
  }

  lemma OrZero(a: nat)
    ensures Or(a, 0) == a
  {
  }

  /** The bits of an occupancy: the listed bits of the mask selected by the index. */
  lemma {:induction false} OccBits(index: nat, n: nat, m: nat, t: nat)
    requires n <= Count(m) && m < LIMIT
    ensures Has(OccSpec(index, n, m), t) <==> exists j :: 0 <= j < n && Has(index, j) && NthBit(m, j) == t
    decreases n
  {
    if n == 0 {
      HasZero(t);
    } else {
      var j := n - 1;
      var prev := OccSpec(index, j, m);
      var sel := if Has(index, j) then Bb(NthBit(m, j)) else 0;
      assert OccSpec(index, n, m) == Or(prev, sel);
      HasOr(prev, sel, t);
      HasZero(t);
      assert Has(sel, t) <==> Has(index, j) && NthBit(m, j) == t;
      OccBits(index, j, m, t);
      if Has(index, j) && NthBit(m, j) == t {
        assert 0 <= j < n && Has(index, j) && NthBit(m, j) == t;
      }
      if exists k :: 0 <= k < n && Has(index, k) && NthBit(m, k) == t {
        var k :| 0 <= k < n && Has(index, k) && NthBit(m, k) == t;
        if k < j {
          assert Has(prev, t);
        }
      }
    }
  }

  /** `index_to_occ` only yields subsets of the mask. */
  lemma OccSubset(index: nat, n: nat, m: nat, t: nat)
    requires n <= Count(m) && m < LIMIT
    requires Has(OccSpec(index, n, m), t)
    ensures Has(m, t)
  {
    OccBits(index, n, m, t);
    var j :| 0 <= j < n && Has(index, j) && NthBit(m, j) == t;
    NthBitInMask(m, j);
  }

  /** The `j`-th lowest bit of the mask is in the occupancy exactly when bit `j` of the index is set. */
  lemma OccNth(index: nat, n: nat, m: nat, j: nat)
    requires n <= Count(m) && m < LIMIT && j < n
    ensures Has(OccSpec(index, n, m), NthBit(m, j)) <==> Has(index, j)
  {
    OccBits(index, n, m, NthBit(m, j));
    if Has(OccSpec(index, n, m), NthBit(m, j)) {
      var k :| 0 <= k < n && Has(index, k) && NthBit(m, k) == NthBit(m, j);
      if k < j {
        NthBitIncreasing(m, k, j);
      } else if j < k {
        NthBitIncreasing(m, j, k);
      }
    }
  }

  /** Index 0 selects nothing. */
  lemma OccZero(n: nat, m: nat)
    requires n <= Count(m) && m < LIMIT
    ensures OccSpec(0, n, m) == 0
  {
    forall t: nat
      ensures Has(OccSpec(0, n, m), t) == Has(0, t)
    {
      OccBits(0, n, m, t);
      HasZero(t);
      if Has(OccSpec(0, n, m), t) {
        var j :| 0 <= j < n && Has(0, j) && NthBit(m, j) == t;
        HasZero(j);
      }
    }
    Extensional(OccSpec(0, n, m), 0);
  }

  /** The index with all `Count(m)` bits set selects the whole mask. */
  lemma OccFull(m: nat)
    requires m < LIMIT
    ensures OccSpec(Pow2(Count(m)) - 1, Count(m), m) == m
  {
    var n := Count(m);
    var all := Pow2(n) - 1;
    forall t: nat
      ensures Has(OccSpec(all, n, m), t) == Has(m, t)
    {
      OccBits(all, n, m, t);
      if Has(OccSpec(all, n, m), t) {
        OccSubset(all, n, m, t);
      }
      if Has(m, t) {
        MaskBitListed(m, 0, t);
        var j :| 0 <= j < n && NthBit(m, j) == t;
        HasLowMask(n, j);
      }
    }
    Extensional(OccSpec(all, n, m), m);
  }

  /** Two `n`-bit numbers that differ, differ in one of their `n` low bits. */
  lemma DifferingBit(a: nat, b: nat, n: nat) returns (j: nat)
    requires a < Pow2(n) && b < Pow2(n) && a != b
    ensures j < n && Has(a, j) != Has(b, j)
  {
    if forall i: nat :: Has(a, i) == Has(b, i) {
      Extensional(a, b);
    }
    var i: nat :| Has(a, i) != Has(b, i);
    if i >= n {
      HasBelow(a, n, i);
      HasBelow(b, n, i);
    }
    j := i;
  }

  /** Distinct indices below `2^n` give distinct occupancies. */
  lemma OccInjective(i1: nat, i2: nat, n: nat, m: nat)
    requires n <= Count(m) && m < LIMIT
    requires i1 < Pow2(n) && i2 < Pow2(n) && i1 != i2
    ensures OccSpec(i1, n, m) != OccSpec(i2, n, m)
  {
    var j := DifferingBit(i1, i2, n);
    OccNth(i1, n, m, j);
    OccNth(i2, n, m, j);
  }

  // ---------------------------------------------------------------------------
  // From an occupancy back to its index
  // ---------------------------------------------------------------------------

  /** `a` only has bits that `b` has. */
  ghost predicate Subset(a: nat, b: nat)
  {
    forall i: nat :: Has(a, i) ==> Has(b, i)
  }

  /** The index whose bit `j` says whether `occ` holds the `j`-th lowest bit of the mask, for `j < n`. */
  function IndexOf(occ: nat, m: nat, n: nat): (r: nat)
    requires n <= Count(m)
    ensures r < Pow2(n)
  {
    if n == 0 then 0
    else
      var prev := IndexOf(occ, m, n - 1);
      prev + (if Has(occ, NthBit(m, n - 1)) then Pow2(n - 1) else 0)
  }

  lemma {:induction false} HasIndexOf(occ: nat, m: nat, n: nat, j: nat)
    requires n <= Count(m)
    ensures Has(IndexOf(occ, m, n), j) <==> j < n && Has(occ, NthBit(m, j))
    decreases n
  {
    if n == 0 {
      HasZero(j);
    } else {
      HasIndexOf(occ, m, n - 1, j);
      HasAddBit(IndexOf(occ, m, n), IndexOf(occ, m, n - 1), n - 1, Has(occ, NthBit(m, n - 1)), j);
    }
  }

  /** Adding bit `k` (when `add`) to a number below 2^k sets exactly bit `k`. */
  lemma HasAddBit(x: nat, a: nat, k: nat, add: bool, j: nat)
    requires a < Pow2(k) && x == a + (if add then Pow2(k) else 0)
    ensures Has(x, j) <==> Has(a, j) || (add && j == k)
  {
    if add {
      HasAddPow2(a, k, j);
    } else if j == k {
      HasBelow(a, k, j);
    }
  }

  /** Every subset of the mask is the occupancy of some index: `index_to_occ` enumerates all of them. */
  lemma OccOfIndex(occ: nat, m: nat)
    requires m < LIMIT && Subset(occ, m)
    ensures OccSpec(IndexOf(occ, m, Count(m)), Count(m), m) == occ
  {
    var n := Count(m);
    var index := IndexOf(occ, m, n);
    forall t: nat
      ensures Has(OccSpec(index, n, m), t) == Has(occ, t)
    {
      OccBits(index, n, m, t);
      if Has(OccSpec(index, n, m), t) {
        var j :| 0 <= j < n && Has(index, j) && NthBit(m, j) == t;
        HasIndexOf(occ, m, n, j);
      }
      if Has(occ, t) {
        MaskBitListed(m, 0, t);
        var j :| 0 <= j < n && NthBit(m, j) == t;
        HasIndexOf(occ, m, n, j);
      }
    }
    Extensional(OccSpec(index, n, m), occ);
  }

  // ---------------------------------------------------------------------------
  // occ_to_index
  // ---------------------------------------------------------------------------

  /** 2^64: `u64` arithmetic wraps modulo it. */
  const WORD: nat := 0x1_0000_0000_0000_0000

  /** A `u64` value. */
  type U64 = x: nat | x < WORD

  /**
   * `Magic::occ_to_index(occ, magic, shift)`: the merged occupancy times the magic, wrapping
   * at 64 bits, shifted right by `shift` (a `u64` shift, so `shift < 64`). The result indexes
   * a slice of `2^(64 - shift)` entries.
   */
  function OccToIndex(occ: nat, magic: nat, shift: nat): (r: nat)
    requires occ < LIMIT && magic < WORD && shift < 64
    ensures r < Pow2(64 - shift)
  {
    var product := (Merge(occ) * magic) % WORD;
    Pow2Values();
    ShrBound(product, 64, shift);
    Shr(product, shift)
  }

  lemma {:induction false} ShrZero(k: nat)
    ensures Shr(0, k) == 0
  {
    if k > 0 {
      ShrZero(k - 1);
    }
  }

  /** The empty occupancy hashes to slot 0 whatever the magic and shift. */
  lemma OccToIndexZero(magic: nat, shift: nat)
    requires magic < WORD && shift < 64
    ensures OccToIndex(0, magic, shift) == 0
  {
    assert Merge(0) == 0;
    ShrZero(shift);
  }

  // ---------------------------------------------------------------------------
  // Table layout: shifts, slice lengths and offsets
  // ---------------------------------------------------------------------------

  /** A shift for which `1 << (64 - shift)` and the `u64` shift `>> shift` are both defined. */
  predicate ShiftOk(shift: int)
  {
    0 < shift < 64
  }

  predicate ShiftsOk(shifts: seq<int>)
  {
    forall i | 0 <= i < |shifts| :: ShiftOk(shifts[i])
  }

  /** `1 << (64 - shift)`: the length of a square's slice. */
  function SliceLen(shift: int): nat
    requires ShiftOk(shift)
  {
    Pow2(64 - shift)
  }

  /** The summed slice lengths of a run of squares. */
  function Total(shifts: seq<int>): nat
    requires ShiftsOk(shifts)
  {
    if |shifts| == 0 then 0 else SliceLen(shifts[0]) + Total(shifts[1..])
  }

  /** Where square `sq`'s slice starts: the running `count` of `MagicTable::new` when it reaches `sq`. */
  function Offset(shifts: seq<int>, sq: nat): nat
    requires sq <= |shifts| && ShiftsOk(shifts)
  {
    Total(shifts[..sq])
  }

  /** The total of two runs of squares laid end to end is the sum of their totals. */
  lemma {:induction false} TotalConcat(a: seq<int>, b: seq<int>)
    requires ShiftsOk(a) && ShiftsOk(b)
    ensures ShiftsOk(a + b) && Total(a + b) == Total(a) + Total(b)
    decreases |a|
  {
    assert ShiftsOk(a + b) by {
      forall i | 0 <= i < |a + b|
        ensures ShiftOk((a + b)[i])
      {
        if i >= |a| {
          assert (a + b)[i] == b[i - |a|];
        }
      }
    }
    if |a| == 0 {
      assert a + b == b;
    } else {
      assert (a + b)[1..] == a[1..] + b;
      TotalConcat(a[1..], b);
    }
  }

  /** Each square's slice starts where the previous one ends. */
  lemma OffsetNext(shifts: seq<int>, sq: nat)
    requires sq < |shifts| && ShiftsOk(shifts)
    ensures Offset(shifts, sq + 1) == Offset(shifts, sq) + SliceLen(shifts[sq])
  {
    assert shifts[..sq + 1] == shifts[..sq] + [shifts[sq]];
    TotalConcat(shifts[..sq], [shifts[sq]]);
  }

  /** After the last square the running count is the table size. */
  lemma OffsetEnd(shifts: seq<int>)
    requires ShiftsOk(shifts)
    ensures Offset(shifts, |shifts|) == Total(shifts)
  {
    assert shifts[..|shifts|] == shifts;
  }

  /** A square's slice ends no later than the slice of any later square starts. */
  lemma {:induction false} SliceBefore(shifts: seq<int>, s: nat, sq: nat)
    requires s < sq <= |shifts| && ShiftsOk(shifts)
    ensures Offset(shifts, s) + SliceLen(shifts[s]) <= Offset(shifts, sq)
    decreases sq - s
  {
    OffsetNext(shifts, s);
    if s + 1 < sq {
      SliceBefore(shifts, s + 1, sq);
      OffsetNext(shifts, s + 1);
    }
  }

  /** Every square's slice lies inside the table. */
  lemma SliceInside(shifts: seq<int>, sq: nat)
    requires sq < |shifts| && ShiftsOk(shifts)
    ensures Offset(shifts, sq) + SliceLen(shifts[sq]) <= Total(shifts)
  {
    SliceBefore(shifts, sq, |shifts|);
    OffsetEnd(shifts);
  }

  /** The slices of distinct squares do not overlap. */
  lemma SlicesDisjoint(shifts: seq<int>, s1: nat, k1: nat, s2: nat, k2: nat)
    requires s1 < |shifts| && s2 < |shifts| && ShiftsOk(shifts) && s1 != s2
    requires k1 < SliceLen(shifts[s1]) && k2 < SliceLen(shifts[s2])
    ensures Offset(shifts, s1) + k1 != Offset(shifts, s2) + k2
  {
    if s1 < s2 {
      SliceBefore(shifts, s1, s2);
    } else {
      SliceBefore(shifts, s2, s1);
    }
  }

  // ---------------------------------------------------------------------------
  // The constants of the rook and bishop tables
  // ---------------------------------------------------------------------------

  /** `ROOK_ATTACK_TABLE_NUM` */
  const ROOK_ATTACK_TABLE_NUM: nat := 512_000

  /** `BISHOP_ATTACK_TABLE_NUM` */
  const BISHOP_ATTACK_TABLE_NUM: nat := 20224

  /** `ROOK_SHIFT_BITS`, rank by rank from rank index 0. */
  const ROOK_SHIFT_BITS: seq<int> :=
      [50, 51, 51, 51, 51, 51, 51, 51, 50] +
      [51, 52, 52, 52, 52, 52, 52, 52, 50] +
      [51, 52, 52, 52, 52, 52, 52, 52, 51] +
      [51, 52, 52, 52, 52, 52, 52, 52, 51] +
      [51, 52, 52, 52, 52, 52, 52, 52, 51] +
      [51, 52, 52, 52, 52, 52, 52, 52, 50] +
      [51, 52, 52, 52, 52, 52, 52, 52, 51] +
      [51, 52, 52, 52, 52, 52, 52, 52, 51] +
      [50, 51, 51, 51, 51, 51, 51, 51, 50]

  /** `BISHOP_SHIFT_BITS`, rank by rank from rank index 0. */
  const BISHOP_SHIFT_BITS: seq<int> :=
      [57, 58, 58, 58, 58, 58, 58, 58, 57] +
      [58, 58, 58, 58, 58, 58, 58, 58, 58] +
      [58, 58, 56, 56, 56, 56, 56, 58, 58] +
      [58, 58, 56, 54, 54, 54, 56, 58, 58] +
      [58, 58, 56, 54, 52, 54, 56, 58, 58] +
      [58, 58, 56, 54, 54, 54, 56, 58, 58] +
      [58, 58, 56, 56, 56, 56, 56, 58, 58] +
      [58, 58, 58, 58, 58, 58, 58, 58, 58] +
      [57, 58, 58, 58, 58, 58, 58, 58, 57]

  /** `ROOK_MAGICS`, rank by rank from rank index 0. */
  const ROOK_MAGICS: seq<U64> :=
      [0x0140_0004_0080_9300, 0x1320_0009_0200_0240, 0x0080_0191_0c00_8180,
       0x0040_0200_0440_1040, 0x0040_0100_00d0_1120, 0x0080_0480_2008_4050,
       0x0040_0040_0008_0228, 0x0040_0440_000a_2a0a, 0x0040_0031_0101_0102] +
      [0x80c4_2000_1210_8100, 0x4010_c002_0400_0c01, 0x0220_4001_0325_0002,
       0x0002_6002_0000_4001, 0x0040_2000_5240_0020, 0x0c00_1000_2002_0008,
       0x9080_2010_0020_0004, 0x2200_2010_0008_0004, 0x8080_4c00_2020_0191] +
      [0x0045_3830_0000_9100, 0x0030_0028_0002_0040, 0x0040_1040_0098_8084,
       0x0108_0010_0080_0415, 0x0014_0050_0040_0009, 0x0d21_0010_01c0_0045,
       0x00c0_0030_0020_0024, 0x0040_0030_0028_0004, 0x0040_0210_0009_1102] +
      [0x2008_a204_0800_0d00, 0x2000_1000_8401_0040, 0x0144_0800_0800_8001,
       0x5010_2400_1000_26a2, 0x1040_0200_0800_1010, 0x1200_2000_2800_5010,
       0x4280_0300_3002_0898, 0x0480_0814_1001_1004, 0x0340_0004_0800_110a] +
      [0x0010_1000_010c_0021, 0x0009_2108_0008_0082, 0x0610_0002_0004_00a7,
       0xa224_0800_9008_00c0, 0x9220_0820_0100_0801, 0x1040_0080_0114_0030,
       0x0040_0022_2004_0008, 0x0280_0012_4008_010c, 0x0040_0084_0494_0002] +
      [0x0040_0408_0001_0200, 0x0090_0008_0900_2100, 0x2800_0800_0100_0201,
       0x1400_0200_0100_0201, 0x0180_0810_1401_8004, 0x1100_0080_0040_0201,
       0x0080_0040_0020_0201, 0x0420_8000_1000_0201, 0x2841_c000_8020_0209] +
      [0x0120_0024_0104_0001, 0x0145_1000_0101_000b, 0x0040_0800_0080_8001,
       0x0834_0001_8804_8001, 0x4001_2100_0080_0205, 0x0488_9a80_0740_0201,
       0x2080_0440_8020_0062, 0x0080_0040_0286_1002, 0x0000_c008_4204_9024] +
      [0x8040_0002_0202_0011, 0x0040_0404_002c_0100, 0x2080_0282_0200_0102,
       0x8100_0408_0059_0224, 0x2040_0090_0480_0010, 0x0040_0450_0040_0408,
       0x2200_2400_2080_2008, 0x4080_0420_0220_0204, 0x0040_00b0_000a_00a2] +
      [0x000a_6000_0081_0100, 0x0014_1000_0d00_1180, 0x0002_2001_0100_1080,
       0x1000_2001_4104_e120, 0x2407_2001_0000_4810, 0x8014_4000_a084_5050,
       0x1000_2000_6003_0c18, 0x4004_2000_2001_0102, 0x0140_6000_2101_0302]

  /** `BISHOP_MAGICS`, rank by rank from rank index 0. */
  const BISHOP_MAGICS: seq<U64> :=
      [0x2010_1042_c820_0428, 0x0000_8402_4038_0102, 0x8008_00c0_1810_8251,
       0x0082_4280_1030_1000, 0x0481_0082_0100_0040, 0x8081_0204_2088_0800,
       0x0000_8042_2211_0000, 0x0000_e283_0140_0850, 0x2010_2214_2080_0810] +
      [0x2600_0100_2880_1824, 0x0008_0481_0210_2002, 0x4000_2481_0024_0402,
       0x4920_0200_428a_2108, 0x0000_4609_0402_0844, 0x2001_4010_2083_0200,
       0x0000_0010_0900_8120, 0x4804_0640_0820_8004, 0x4406_0002_4030_0ca0] +
      [0x0222_0014_0080_3220, 0x0226_0684_0018_2094, 0x9520_8402_010d_0104,
       0x4000_8075_0010_8102, 0xc000_2000_8050_0500, 0x5211_0003_0403_8020,
       0x1108_1001_8040_0820, 0x1000_1280_a8a2_1040, 0x1000_0480_9408_a210] +
      [0x0202_3000_0204_1112, 0x0404_0a80_0046_0408, 0x0204_0200_2104_0201,
       0x0008_1200_1318_0404, 0xa284_0080_0d02_0104, 0x200c_2010_0060_4080,
       0x1082_0040_0010_9408, 0x1000_21c0_0c41_0408, 0x8808_2090_5004_c801] +
      [0x1054_0640_8000_4120, 0x030c_0a02_2400_1030, 0x0300_0601_0004_0821,
       0x0512_0080_1020_c006, 0x2100_0400_4280_2801, 0x0481_0008_2040_1002,
       0x4040_8a04_5000_0801, 0x0081_0104_2000_00a2, 0x0281_1021_0210_8408] +
      [0x0804_0200_4028_0021, 0x2420_4012_0022_0040, 0x0800_1014_4080_c402,
       0x0080_1044_0080_0002, 0x1009_0480_8040_0081, 0x1000_8200_0201_008c,
       0x0010_0010_0808_0009, 0x02a5_006b_8008_0004, 0xc628_8018_200c_2884] +
      [0x1081_0010_4200_a000, 0x0141_0020_3081_4048, 0x0200_2040_8001_0808,
       0x0200_0040_1392_2002, 0x2200_0000_2005_0815, 0x2011_0104_0004_0800,
       0x1020_0400_0422_0200, 0x0944_0201_0484_0081, 0x6080_a080_801c_044a] +
      [0x2088_4008_1100_8020, 0x000c_40aa_0420_8070, 0x4100_8004_4090_0220,
       0x0000_0000_4811_2050, 0x8182_00d0_6201_2a10, 0x0402_0084_0450_8302,
       0x0000_1000_2010_1002, 0x0020_0404_2050_4912, 0x0002_0040_0811_8814] +
      [0x1000_8106_5008_4024, 0x1002_a030_0240_8804, 0x2104_2948_0118_1420,
       0x0841_0802_4050_0812, 0x4406_0090_0000_4884, 0x0080_0820_0401_2412,
       0x0080_0908_8080_8183, 0x0300_1200_2040_0410, 0x021a_0901_0082_2002]

  /** The total of nine ranks laid end to end. */
  lemma TotalOfRanks(r0: seq<int>, r1: seq<int>, r2: seq<int>, r3: seq<int>, r4: seq<int>,
                     r5: seq<int>, r6: seq<int>, r7: seq<int>, r8: seq<int>)
    requires ShiftsOk(r0) && ShiftsOk(r1) && ShiftsOk(r2) && ShiftsOk(r3) && ShiftsOk(r4)
    requires ShiftsOk(r5) && ShiftsOk(r6) && ShiftsOk(r7) && ShiftsOk(r8)
    ensures ShiftsOk(r0 + r1 + r2 + r3 + r4 + r5 + r6 + r7 + r8)
    ensures Total(r0 + r1 + r2 + r3 + r4 + r5 + r6 + r7 + r8) ==
              Total(r0) + Total(r1) + Total(r2) + Total(r3) + Total(r4) +
              Total(r5) + Total(r6) + Total(r7) + Total(r8)
  {
    TotalConcat(r0, r1);
    TotalConcat(r0 + r1, r2);
    TotalConcat(r0 + r1 + r2, r3);
    TotalConcat(r0 + r1 + r2 + r3, r4);
    TotalConcat(r0 + r1 + r2 + r3 + r4, r5);
    TotalConcat(r0 + r1 + r2 + r3 + r4 + r5, r6);
    TotalConcat(r0 + r1 + r2 + r3 + r4 + r5 + r6, r7);
    TotalConcat(r0 + r1 + r2 + r3 + r4 + r5 + r6 + r7, r8);
  }

  lemma TotalFrom(row: seq<int>, i: nat)
    requires ShiftsOk(row) && i < |row|
    ensures Total(row[i..]) == SliceLen(row[i]) + Total(row[i + 1..])
  {
    assert row[i..][1..] == row[i + 1..];
  }

  /** The total of one rank: the sum of its nine slice lengths. */
  lemma TotalOfRank(row: seq<int>)
    requires ShiftsOk(row) && |row| == 9
    ensures Total(row) == SliceLen(row[0]) + SliceLen(row[1]) + SliceLen(row[2]) + SliceLen(row[3]) +
                          SliceLen(row[4]) + SliceLen(row[5]) + SliceLen(row[6]) + SliceLen(row[7]) +
                          SliceLen(row[8])
  {
    assert row[0..] == row;
    TotalFrom(row, 0);
    TotalFrom(row, 1);
    TotalFrom(row, 2);
    TotalFrom(row, 3);
    TotalFrom(row, 4);
    TotalFrom(row, 5);
    TotalFrom(row, 6);
    TotalFrom(row, 7);
    TotalFrom(row, 8);
    assert row[9..] == [];
  }

  /** The slice lengths of the shifts that occur in the two tables. */
  lemma SliceLens()
    ensures SliceLen(50) == 16384 && SliceLen(51) == 8192 && SliceLen(52) == 4096
    ensures SliceLen(54) == 1024 && SliceLen(56) == 256 && SliceLen(57) == 128 && SliceLen(58) == 64
  {
    Pow2Lit0();
  }

  lemma RookEdgeRank(row: seq<int>)
    requires row == [50, 51, 51, 51, 51, 51, 51, 51, 50]
    ensures ShiftsOk(row) && Total(row) == 2 * 16384 + 7 * 8192
  {
    SliceLens();
    TotalOfRank(row);
  }

  lemma RookSideRank(row: seq<int>)
    requires row == [51, 52, 52, 52, 52, 52, 52, 52, 50]
    ensures ShiftsOk(row) && Total(row) == 16384 + 8192 + 7 * 4096
  {
    SliceLens();
    TotalOfRank(row);
  }

  lemma RookInnerRank(row: seq<int>)
    requires row == [51, 52, 52, 52, 52, 52, 52, 52, 51]
    ensures ShiftsOk(row) && Total(row) == 2 * 8192 + 7 * 4096
  {
    SliceLens();
    TotalOfRank(row);
  }

  lemma BishopEdgeRank(row: seq<int>)
    requires row == [57, 58, 58, 58, 58, 58, 58, 58, 57]
    ensures ShiftsOk(row) && Total(row) == 2 * 128 + 7 * 64
  {
    SliceLens();
    TotalOfRank(row);
  }

  lemma BishopOuterRank(row: seq<int>)
    requires row == [58, 58, 58, 58, 58, 58, 58, 58, 58]
    ensures ShiftsOk(row) && Total(row) == 9 * 64
  {
    SliceLens();
    TotalOfRank(row);
  }

  lemma BishopMiddleRank(row: seq<int>)
    requires row == [58, 58, 56, 56, 56, 56, 56, 58, 58]
    ensures ShiftsOk(row) && Total(row) == 4 * 64 + 5 * 256
  {
    SliceLens();
    TotalOfRank(row);
  }

  lemma BishopInnerRank(row: seq<int>)
    requires row == [58, 58, 56, 54, 54, 54, 56, 58, 58]
    ensures ShiftsOk(row) && Total(row) == 4 * 64 + 2 * 256 + 3 * 1024
  {
    SliceLens();
    TotalOfRank(row);
  }

  lemma BishopCentreRank(row: seq<int>)
    requires row == [58, 58, 56, 54, 52, 54, 56, 58, 58]
    ensures ShiftsOk(row) && Total(row) == 4 * 64 + 2 * 256 + 2 * 1024 + 4096
  {
    SliceLens();
    TotalOfRank(row);
  }

  /** The three kinds of rank of `ROOK_SHIFT_BITS`, with their totals. */
  lemma RookRanks() returns (edge: seq<int>, side: seq<int>, inner: seq<int>)
    ensures ShiftsOk(edge) && Total(edge) == 2 * 16384 + 7 * 8192
    ensures ShiftsOk(side) && Total(side) == 16384 + 8192 + 7 * 4096
    ensures ShiftsOk(inner) && Total(inner) == 2 * 8192 + 7 * 4096
    ensures ROOK_SHIFT_BITS == edge + side + inner + inner + inner + side + inner + inner + edge
  {
    edge := [50, 51, 51, 51, 51, 51, 51, 51, 50];
    side := [51, 52, 52, 52, 52, 52, 52, 52, 50];
    inner := [51, 52, 52, 52, 52, 52, 52, 52, 51];
    RookEdgeRank(edge);
    RookSideRank(side);
    RookInnerRank(inner);
  }

  /**
   * The rook shifts are valid and their slices add up to `ROOK_ATTACK_TABLE_NUM`, the size the
   * constructor's final `debug_assert_eq` checks.
   */
  lemma RookShifts()
    ensures |ROOK_SHIFT_BITS| == 81 && ShiftsOk(ROOK_SHIFT_BITS)
    ensures Total(ROOK_SHIFT_BITS) == ROOK_ATTACK_TABLE_NUM
  {
    var edge, side, inner := RookRanks();
    TotalOfRanks(edge, side, inner, inner, inner, side, inner, inner, edge);
  }

  /** The five kinds of rank of `BISHOP_SHIFT_BITS`, with their totals. */
  lemma BishopRanks() returns (r0: seq<int>, r1: seq<int>, r2: seq<int>, r3: seq<int>, r4: seq<int>)
    ensures ShiftsOk(r0) && Total(r0) == 2 * 128 + 7 * 64
    ensures ShiftsOk(r1) && Total(r1) == 9 * 64
    ensures ShiftsOk(r2) && Total(r2) == 4 * 64 + 5 * 256
    ensures ShiftsOk(r3) && Total(r3) == 4 * 64 + 2 * 256 + 3 * 1024
    ensures ShiftsOk(r4) && Total(r4) == 4 * 64 + 2 * 256 + 2 * 1024 + 4096
    ensures BISHOP_SHIFT_BITS == r0 + r1 + r2 + r3 + r4 + r3 + r2 + r1 + r0
  {
    r0 := [57, 58, 58, 58, 58, 58, 58, 58, 57];
    r1 := [58, 58, 58, 58, 58, 58, 58, 58, 58];
    r2 := [58, 58, 56, 56, 56, 56, 56, 58, 58];
    r3 := [58, 58, 56, 54, 54, 54, 56, 58, 58];
    r4 := [58, 58, 56, 54, 52, 54, 56, 58, 58];
    BishopEdgeRank(r0);
    BishopOuterRank(r1);
    BishopMiddleRank(r2);
    BishopInnerRank(r3);
    BishopCentreRank(r4);
  }

  /** The bishop shifts are valid and their slices add up to `BISHOP_ATTACK_TABLE_NUM`. */
  lemma BishopShifts()
    ensures |BISHOP_SHIFT_BITS| == 81 && ShiftsOk(BISHOP_SHIFT_BITS)
    ensures Total(BISHOP_SHIFT_BITS) == BISHOP_ATTACK_TABLE_NUM
  {
    var r0, r1, r2, r3, r4 := BishopRanks();
    TotalOfRanks(r0, r1, r2, r3, r4, r3, r2, r1, r0);
  }

  // ---------------------------------------------------------------------------
  // The per-square entries and the fill of the table
  // ---------------------------------------------------------------------------

  /** A mask is small enough for `1 << mask.count_ones()`, a `u32` shift. */
  predicate MaskFits(mask: nat)
  {
    Count(mask) < 32
  }

  /**
   * A square's [`Magic`]: its mask, multiplier and shift, and its slice of the table as an
   * `offset` into the one flat attack array and a length `len`.
   */
  datatype Magic = Magic(mask: nat, magic: nat, offset: nat, len: nat, shift: nat)

  /** `m` is a usable entry of a table of `size` slots: its slice lies inside the table. */
  predicate Placed(m: Magic, size: nat)
  {
    m.mask < LIMIT && m.magic < WORD && ShiftOk(m.shift) && m.len == SliceLen(m.shift) &&
    m.offset + m.len <= size
  }

  /** The occupancy of subset `index` of `m`'s mask. */
  function SubsetOcc(m: Magic, index: nat): (r: nat)
    requires m.mask < LIMIT
    ensures r < LIMIT
  {
    OccSpec(index, Count(m.mask), m.mask)
  }

  /**
   * Slot `idx` of `m`'s slice after the rounds `index < n` of the fill loop: the attacks of the
   * last subset that hashed to it, or nothing when none did.
   */
  function Written(deltas: seq<int>, sq: nat, m: Magic, n: nat, idx: nat): Option<nat>
    requires sq < 81 && AreDeltas(deltas) && m.mask < LIMIT && m.magic < WORD && m.shift < 64
  {
    if n == 0 then None
    else
      var occ := SubsetOcc(m, n - 1);
      if OccToIndex(occ, m.magic, m.shift) == idx then Some(SlidingSpec(deltas, sq, occ))
      else Written(deltas, sq, m, n - 1, idx)
  }

  /** The value of slot `idx` after `n` rounds: the oldest write wins nothing, the last one wins. */
  function Slot(deltas: seq<int>, sq: nat, m: Magic, n: nat, idx: nat): nat
    requires sq < 81 && AreDeltas(deltas) && m.mask < LIMIT && m.magic < WORD && m.shift < 64
  {
    match Written(deltas, sq, m, n, idx)
    case Some(v) => v
    case None => NONE
  }

  /** The value of slot `idx` once every subset of the mask has been written. */
  function FinalSlot(deltas: seq<int>, sq: nat, m: Magic, idx: nat): nat
    requires sq < 81 && AreDeltas(deltas) && m.mask < LIMIT && m.magic < WORD && m.shift < 64
  {
    Slot(deltas, sq, m, Pow2(Count(m.mask)), idx)
  }

  /** The slice of `m` in the table `t` holds, slot by slot, what the fill loop wrote last. */
  ghost predicate SliceHolds(t: seq<nat>, deltas: seq<int>, sq: nat, m: Magic)
    requires sq < 81 && AreDeltas(deltas) && Placed(m, |t|)
  {
    forall i | m.offset <= i < m.offset + m.len :: t[i] == FinalSlot(deltas, sq, m, i - m.offset)
  }

  /** The tables `a` and `b` agree outside the slots `lo..hi`. */
  ghost predicate SameOutside(a: seq<nat>, b: seq<nat>, lo: nat, hi: nat)
  {
    |a| == |b| && forall i | 0 <= i < |a| && !(lo <= i < hi) :: a[i] == b[i]
  }

  /**
   * The inner loop of `MagicTable::new` for one square: for every subset index of the mask,
   * the attacks of that occupancy are written at its hashed slot of the square's slice.
   */
  method FillSlice(attacks: array<nat>, deltas: seq<int>, sq: nat, m: Magic)
    requires sq < 81 && AreDeltas(deltas) && Placed(m, attacks.Length) && MaskFits(m.mask)
    requires forall i | m.offset <= i < m.offset + m.len :: attacks[i] == NONE
    modifies attacks
    ensures SliceHolds(attacks[..], deltas, sq, m)
    ensures SameOutside(old(attacks[..]), attacks[..], m.offset, m.offset + m.len)
  {
    var bits := Count(m.mask);
    Pow2Mono(bits, 32);
    Pow2Lit2();
    for index := 0 to Pow2(bits)
      invariant SlotsAfter(attacks[..], deltas, sq, m, index)
      invariant SameOutside(old(attacks[..]), attacks[..], m.offset, m.offset + m.len)
    {
      var occ := IndexToOcc(index, bits, m.mask);
      var idx := OccToIndex(occ, m.magic, m.shift);
      var v := SlidingAttacks(deltas, sq, occ);
      ghost var before := attacks[..];
      attacks[m.offset + idx] := v;
      SlotStep(before, attacks[..], deltas, sq, m, index, idx, v);
    }
  }

  /** The slice of `m` in `t` holds what the first `n` rounds of the fill loop wrote. */
  ghost predicate SlotsAfter(t: seq<nat>, deltas: seq<int>, sq: nat, m: Magic, n: nat)
    requires sq < 81 && AreDeltas(deltas) && Placed(m, |t|)
  {
    forall i | m.offset <= i < m.offset + m.len :: t[i] == Slot(deltas, sq, m, n, i - m.offset)
  }

  /** One round of the fill loop: writing subset `index`'s attacks at its hashed slot. */
  lemma SlotStep(before: seq<nat>, after: seq<nat>, deltas: seq<int>, sq: nat, m: Magic, index: nat, idx: nat, v: nat)
    requires sq < 81 && AreDeltas(deltas) && Placed(m, |before|)
    requires SlotsAfter(before, deltas, sq, m, index)
    requires idx == OccToIndex(SubsetOcc(m, index), m.magic, m.shift)
    requires v == SlidingSpec(deltas, sq, SubsetOcc(m, index))
    requires m.offset + idx < |before| && after == before[m.offset + idx := v]
    ensures SlotsAfter(after, deltas, sq, m, index + 1)
  {
  }

  /** Every value written to a slot is the attack set of a subset of the mask that hashes there. */
  lemma {:induction false} WrittenFrom(deltas: seq<int>, sq: nat, m: Magic, n: nat, idx: nat)
    requires sq < 81 && AreDeltas(deltas) && m.mask < LIMIT && m.magic < WORD && m.shift < 64
    requires Written(deltas, sq, m, n, idx).Some?
    ensures exists index :: 0 <= index < n && OccToIndex(SubsetOcc(m, index), m.magic, m.shift) == idx &&
              Written(deltas, sq, m, n, idx).value == SlidingSpec(deltas, sq, SubsetOcc(m, index))
    decreases n
  {
    var occ := SubsetOcc(m, n - 1);
    if OccToIndex(occ, m.magic, m.shift) != idx {
      WrittenFrom(deltas, sq, m, n - 1, idx);
      var index :| 0 <= index < n - 1 && OccToIndex(SubsetOcc(m, index), m.magic, m.shift) == idx &&
                   Written(deltas, sq, m, n - 1, idx).value == SlidingSpec(deltas, sq, SubsetOcc(m, index));
    }
  }

  /**
   * The magic of `m` is collision-free for `sq`: two subsets of the mask that hash to the same
   * slot have the same attacks. The source never checks this of its constants.
   */
  ghost predicate CollisionFree(deltas: seq<int>, sq: nat, m: Magic)
    requires sq < 81 && AreDeltas(deltas)
  {
    m.mask < LIMIT && m.magic < WORD && m.shift < 64 &&
    forall i1: nat, i2: nat |
      i1 < Pow2(Count(m.mask)) && i2 < Pow2(Count(m.mask)) &&
      OccToIndex(SubsetOcc(m, i1), m.magic, m.shift) == OccToIndex(SubsetOcc(m, i2), m.magic, m.shift) ::
      SlidingSpec(deltas, sq, SubsetOcc(m, i1)) == SlidingSpec(deltas, sq, SubsetOcc(m, i2))
  }

  /** With a collision-free magic, the slot of every subset holds that subset's attacks. */
  lemma {:induction false} WrittenLast(deltas: seq<int>, sq: nat, m: Magic, n: nat, index: nat)
    requires sq < 81 && AreDeltas(deltas) && CollisionFree(deltas, sq, m)
    requires index < n <= Pow2(Count(m.mask))
    ensures Written(deltas, sq, m, n, OccToIndex(SubsetOcc(m, index), m.magic, m.shift)) ==
              Some(SlidingSpec(deltas, sq, SubsetOcc(m, index)))
    decreases n
  {
    var idx := OccToIndex(SubsetOcc(m, index), m.magic, m.shift);
    if OccToIndex(SubsetOcc(m, n - 1), m.magic, m.shift) != idx {
      WrittenLast(deltas, sq, m, n - 1, index);
    }
  }

  // ---------------------------------------------------------------------------
  // MagicTable
  // ---------------------------------------------------------------------------

  /** The entry `new` builds for `sq` from its arguments. */
  function MagicSpec(deltas: seq<int>, shifts: seq<int>, magicNums: seq<U64>, sq: nat): (r: Magic)
    requires sq < 81 && AreDeltas(deltas) && |shifts| == 81 && ShiftsOk(shifts) && |magicNums| == 81
    ensures r.mask == MaskSpec(deltas, sq) && r.magic == magicNums[sq] && r.shift == shifts[sq]
    ensures r.offset + r.len == Offset(shifts, sq + 1)
  {
    OffsetNext(shifts, sq);
    Magic(MaskSpec(deltas, sq), magicNums[sq], Offset(shifts, sq), SliceLen(shifts[sq]), shifts[sq])
  }

  /**
   * What `MagicTable::new` needs of its arguments: 81 shifts whose slices add up to the table
   * size (the closing `debug_assert_eq!`), 81 multipliers, legal deltas, and masks small
   * enough for the `u32` shift `1 << mask.count_ones()`.
   */
  ghost predicate TableArgs(tableNum: nat, shifts: seq<int>, magicNums: seq<U64>, deltas: seq<int>)
  {
    |shifts| == 81 && ShiftsOk(shifts) && tableNum == Total(shifts) && |magicNums| == 81 &&
    AreDeltas(deltas) && forall sq: nat | sq < 81 :: MaskFits(MaskSpec(deltas, sq))
  }

  /** Every mask lies on the board, below bit 81. */
  lemma MaskBound(deltas: seq<int>, sq: nat)
    requires sq < 81 && AreDeltas(deltas)
    ensures MaskSpec(deltas, sq) < LIMIT
  {
    forall t: nat | 81 <= t
      ensures !Has(MaskSpec(deltas, sq), t)
    {
      if Has(MaskSpec(deltas, sq), t) {
        MaskWithinAttacks(deltas, sq, t);
        SlidingNotSelf(deltas, sq, NONE, t);
      }
    }
    BelowOfBits(MaskSpec(deltas, sq), 81);
    Pow2Mono(81, 128);
    Pow2Values();
  }

  /** The slices of `entries` in the table `t` hold what the fill loop wrote last. */
  ghost predicate SlicesFilled(t: seq<nat>, deltas: seq<int>, entries: seq<Magic>)
    requires AreDeltas(deltas) && |entries| <= 81
    requires forall s | 0 <= s < |entries| :: Placed(entries[s], |t|)
  {
    forall s | 0 <= s < |entries| :: assert Placed(entries[s], |t|); SliceHolds(t, deltas, s, entries[s])
  }

  /** A slice that lies outside the slots `lo..hi` is untouched by a change confined to them. */
  lemma SliceKept(before: seq<nat>, after: seq<nat>, deltas: seq<int>, sq: nat, m: Magic, lo: nat, hi: nat)
    requires sq < 81 && AreDeltas(deltas) && Placed(m, |before|) && m.offset + m.len <= lo
    requires SameOutside(before, after, lo, hi) && SliceHolds(before, deltas, sq, m)
    ensures SliceHolds(after, deltas, sq, m)
  {
  }

  /** Filling the slice after all earlier slices keeps those and adds the new one. */
  lemma FillStep(before: seq<nat>, after: seq<nat>, deltas: seq<int>, entries: seq<Magic>, m: Magic, count: nat)
    requires AreDeltas(deltas) && |entries| < 81
    requires forall s | 0 <= s < |entries| ::
               Placed(entries[s], |before|) && entries[s].offset + entries[s].len <= count
    requires Placed(m, |before|) && m.offset == count
    requires SlicesFilled(before, deltas, entries)
    requires SameOutside(before, after, m.offset, m.offset + m.len)
    requires SliceHolds(after, deltas, |entries|, m)
    ensures forall s | 0 <= s < |entries| + 1 :: Placed((entries + [m])[s], |after|)
    ensures SlicesFilled(after, deltas, entries + [m])
  {
    var all := entries + [m];
    forall s | 0 <= s < |all|
      ensures SliceHolds(after, deltas, s, all[s])
    {
      if s < |entries| {
        assert all[s] == entries[s];
        SliceKept(before, after, deltas, s, entries[s], m.offset, m.offset + m.len);
      }
    }
  }

  /** The first `|entries|` entries are the ones `new` computes, each placed in the table. */
  ghost predicate EntriesOk(entries: seq<Magic>, tableNum: nat, shifts: seq<int>, magicNums: seq<U64>, deltas: seq<int>)
    requires TableArgs(tableNum, shifts, magicNums, deltas)
  {
    |entries| <= 81 &&
    forall s | 0 <= s < |entries| ::
      entries[s] == MagicSpec(deltas, shifts, magicNums, s) && Placed(entries[s], tableNum)
  }

  /** Appending the next square's entry keeps the entries right and ends them at the next offset. */
  lemma EntriesNext(entries: seq<Magic>, tableNum: nat, shifts: seq<int>, magicNums: seq<U64>, deltas: seq<int>,
                    m: Magic)
    requires TableArgs(tableNum, shifts, magicNums, deltas)
    requires EntriesOk(entries, tableNum, shifts, magicNums, deltas) && |entries| < 81
    requires m == MagicSpec(deltas, shifts, magicNums, |entries|)
    ensures Placed(m, tableNum) && m.offset == Offset(shifts, |entries|)
    ensures forall s | 0 <= s < |entries| :: entries[s].offset + entries[s].len <= m.offset
    ensures EntriesOk(entries + [m], tableNum, shifts, magicNums, deltas)
  {
    var sq := |entries|;
    MaskBound(deltas, sq);
    SliceInside(shifts, sq);
    forall s | 0 <= s < sq
      ensures entries[s].offset + entries[s].len <= m.offset
    {
      SliceBefore(shifts, s, sq);
    }
    var all := entries + [m];
    forall s | 0 <= s < |all|
      ensures all[s] == MagicSpec(deltas, shifts, magicNums, s) && Placed(all[s], tableNum)
    {
      if s < sq {
        assert all[s] == entries[s];
      }
    }
  }

  /**
   * The body of `MagicTable::new`: a table of `table_num` empty slots, then for every square its
   * mask, the fill of its slice, and its entry.
   */
  method BuildTable(tableNum: nat, shifts: seq<int>, magicNums: seq<U64>, deltas: seq<int>)
    returns (table: array<nat>, entries: seq<Magic>)
    requires TableArgs(tableNum, shifts, magicNums, deltas)
    ensures fresh(table) && table.Length == tableNum
    ensures EntriesOk(entries, tableNum, shifts, magicNums, deltas) && |entries| == 81
    ensures SlicesFilled(table[..], deltas, entries)
  {
    table := new nat[tableNum](_ => NONE);
    entries := [];
    var count := 0;
    for sq := 0 to 81
      invariant count == Offset(shifts, sq) && |entries| == sq
      invariant EntriesOk(entries, tableNum, shifts, magicNums, deltas)
      invariant SlicesFilled(table[..], deltas, entries)
      invariant forall i | count <= i < tableNum :: table[i] == NONE
    {
      var mask := AttackMask(deltas, sq);
      var len := Pow2(64 - shifts[sq]);
      var m := Magic(mask, magicNums[sq], count, len, shifts[sq]);
      EntriesNext(entries, tableNum, shifts, magicNums, deltas, m);
      ghost var before := table[..];
      FillSlice(table, deltas, sq, m);
      FillStep(before, table[..], deltas, entries, m, count);
      OffsetNext(shifts, sq);
      count := count + len;
      var again := AttackMask(deltas, sq);
      entries := entries + [Magic(again, magicNums[sq], m.offset, m.len, shifts[sq])];
    }
    OffsetEnd(shifts);
  }

  /**
   * With a collision-free multiplier, the slot an occupancy of mask squares hashes to ends up
   * holding that occupancy's sliding attacks.
   */
  lemma SlotOfSubset(deltas: seq<int>, sq: nat, m: Magic, occ: nat)
    requires sq < 81 && AreDeltas(deltas) && CollisionFree(deltas, sq, m)
    requires occ < LIMIT && Subset(occ, m.mask)
    ensures FinalSlot(deltas, sq, m, OccToIndex(occ, m.magic, m.shift)) == SlidingSpec(deltas, sq, occ)
  {
    var n := Count(m.mask);
    var index := IndexOf(occ, m.mask, n);
    OccOfIndex(occ, m.mask);
    WrittenLast(deltas, sq, m, Pow2(n), index);
  }

  /**
   * The two tables of magic bitboards: one entry per square, all slices in one flat attack
   * array. `deltas`, `shifts` and `magicNums` are the arguments the table was built from.
   */
  class MagicTable {
    const magics: seq<Magic>
    const attacks: array<nat>
    ghost const deltas: seq<int>
    ghost const shifts: seq<int>
    ghost const magicNums: seq<U64>

    /** Each entry is the one `new` computes, and each slot holds what the fill loop wrote last. */
    ghost predicate Valid()
      reads this, attacks
    {
      TableArgs(attacks.Length, shifts, magicNums, deltas) && |magics| == 81 &&
      (forall sq: nat | sq < 81 ::
         magics[sq] == MagicSpec(deltas, shifts, magicNums, sq) && Placed(magics[sq], attacks.Length)) &&
      SlicesFilled(attacks[..], deltas, magics)
    }

    /** `MagicTable::new(table_num, shifts, magic_nums, deltas)` */
    constructor (tableNum: nat, shiftBits: seq<int>, magicNumbers: seq<U64>, slideDeltas: seq<int>)
      requires TableArgs(tableNum, shiftBits, magicNumbers, slideDeltas)
      ensures Valid() && fresh(attacks)
      ensures attacks.Length == tableNum
      ensures deltas == slideDeltas && shifts == shiftBits && magicNums == magicNumbers
    {
      var table, entries := BuildTable(tableNum, shiftBits, magicNumbers, slideDeltas);
      magics := entries;
      attacks := table;
      deltas := slideDeltas;
      shifts := shiftBits;
      magicNums := magicNumbers;
    }

    /** `magic(sq)` */
    function MagicOf(sq: nat): (m: Magic)
      reads this, attacks
      requires Valid() && sq < 81
      ensures m == MagicSpec(deltas, shifts, magicNums, sq) && Placed(m, attacks.Length)
    {
      magics[sq]
    }

    /** `Magic::attack(occ)`: the slot the occupancy hashes to; the occupancy is not masked first. */
    function Attack(m: Magic, occ: nat): nat
      reads attacks
      requires Placed(m, attacks.Length) && occ < LIMIT
    {
      attacks[m.offset + OccToIndex(occ, m.magic, m.shift)]
    }

    /** `Magic::pseudo_attack()`: the first slot of the entry's slice. */
    function PseudoAttack(m: Magic): nat
      reads attacks
      requires Placed(m, attacks.Length)
    {
      attacks[m.offset]
    }

    /**
     * With a collision-free multiplier, looking up any occupancy made of mask squares gives
     * exactly the sliding attacks the occupancy leaves.
     */
    lemma AttackLookup(sq: nat, occ: nat)
      requires Valid() && sq < 81 && occ < LIMIT
      requires Subset(occ, MagicOf(sq).mask)
      requires CollisionFree(deltas, sq, MagicOf(sq))
      ensures Attack(MagicOf(sq), occ) == SlidingSpec(deltas, sq, occ)
    {
      var m := MagicOf(sq);
      var idx := OccToIndex(occ, m.magic, m.shift);
      assert SliceHolds(attacks[..], deltas, sq, m);
      assert attacks[..][m.offset + idx] == FinalSlot(deltas, sq, m, idx);
      SlotOfSubset(deltas, sq, m, occ);
    }

    /** The empty occupancy hashes to slot 0, so `pseudo_attack` is the attack set on an empty board. */
    lemma PseudoAttackEmpty(sq: nat)
      requires Valid() && sq < 81
      requires CollisionFree(deltas, sq, MagicOf(sq))
      ensures PseudoAttack(MagicOf(sq)) == SlidingSpec(deltas, sq, NONE)
    {
      var m := MagicOf(sq);
      OccZero(Count(m.mask), m.mask);
      OccToIndexZero(m.magic, m.shift);
      assert Subset(NONE, m.mask) by {
        forall i: nat ensures !Has(NONE, i) { HasZero(i); }
      }
      AttackLookup(sq, NONE);
    }
  }
}
