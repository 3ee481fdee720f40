/**
 * 128-bit bitboards (src/bits.rs).
 *
 * A `u128` bitboard is modelled as a natural number below 2^128 (`LIMIT`). Bit `sq` stands
 * for square `sq`; only the low 81 bits name squares of the board. Rust's bitwise operators
 * are defined bit by bit (`And`, `Or`, `Xor`, `Not`), and `Has(b, i)` reads bit `i`.
 */
module Bits {

  /** 2^n */
  function Pow2(n: nat): (r: nat)
    ensures r > 0
  {
    if n == 0 then 1 else 2 * Pow2(n - 1)
  }

  /** 2^128, one more than the largest `u128`. */
  const LIMIT: nat := 0x1_0000_0000_0000_0000_0000_0000_0000_0000

  /** `!0`, every bit of a `u128` set. */
  const ALL: nat := LIMIT - 1
  const NONE: nat := 0

  /** 2^81: the bitboards below it only name squares of the board. */
  const BOARD_LIMIT: nat := 0x2_0000_0000_0000_0000_0000

  /** The 81 squares of the board. */
  const BOARD: nat := BOARD_LIMIT - 1

  /** Bit `i` of `b` is set. */
  predicate Has(b: nat, i: nat)
  {
    if i == 0 then b % 2 == 1 else Has(b / 2, i - 1)
  }

  /** `a & b` */
  function And(a: nat, b: nat): nat
    decreases a
  {
    if a == 0 || b == 0 then 0
    else 2 * And(a / 2, b / 2) + (if a % 2 == 1 && b % 2 == 1 then 1 else 0)
  }

  /** `a | b` */
  function Or(a: nat, b: nat): nat
    decreases a + b
  {
    if a == 0 then b
    else if b == 0 then a
    else 2 * Or(a / 2, b / 2) + (if a % 2 == 1 || b % 2 == 1 then 1 else 0)
  }

  /** `a ^ b` */
  function Xor(a: nat, b: nat): nat
    decreases a + b
  {
    if a == 0 then b
    else if b == 0 then a
    else 2 * Xor(a / 2, b / 2) + (if a % 2 != b % 2 then 1 else 0)
  }

  /** `!a` on a `u128`. */
  function Not(a: nat): (r: nat)
    requires a < LIMIT
    ensures r < LIMIT
  {
    ALL - a
  }

  // ---------------------------------------------------------------------------
  // Powers of two
  // ---------------------------------------------------------------------------

  lemma {:induction false} Pow2Add(a: nat, b: nat)
    ensures Pow2(a + b) == Pow2(a) * Pow2(b)
    decreases a
  {
    if a > 0 {
      Pow2Add(a - 1, b);
      assert Pow2(a + b) == 2 * Pow2(a - 1 + b);
    }
  }

  lemma {:induction false} Pow2Less(a: nat, b: nat)
    requires a < b
    ensures Pow2(a) < Pow2(b)
    decreases b
  {
    if a < b - 1 {
      Pow2Less(a, b - 1);
    }
  }

  lemma {:induction false} Pow2Mono(a: nat, b: nat)
    requires a <= b
    ensures Pow2(a) <= Pow2(b)
  {
    if a < b {
      Pow2Less(a, b);
    }
  }

  lemma Pow2Of8()
    ensures Pow2(8) == 256
    ensures Pow2(9) == 512
  {
    assert Pow2(9) == 2 * Pow2(8);
  }

  lemma Pow2Of64()
    ensures Pow2(64) == 0x1_0000_0000_0000_0000
  {
    Pow2Of8();
    Pow2Add(8, 8);
    assert Pow2(16) == 0x1_0000;
    Pow2Add(16, 16);
    assert Pow2(32) == 0x1_0000_0000;
    Pow2Add(32, 32);
  }

  lemma Pow2Values()
    ensures Pow2(9) == 512
    ensures Pow2(64) == 0x1_0000_0000_0000_0000
    ensures Pow2(81) == BOARD_LIMIT
    ensures Pow2(128) == LIMIT
  {
    Pow2Of8();
    Pow2Of64();
    Pow2Add(64, 64);
    Pow2Add(8, 8);
    Pow2Add(64, 17);
    assert Pow2(17) == 2 * Pow2(16);
  }

  // ---------------------------------------------------------------------------
  // Single bits
  // ---------------------------------------------------------------------------

  lemma {:induction false} HasZero(i: nat)
    ensures !Has(0, i)
  {
    if i > 0 {
      HasZero(i - 1);
    }
  }

  lemma {:induction false} HasAnd(a: nat, b: nat, i: nat)
    ensures Has(And(a, b), i) <==> Has(a, i) && Has(b, i)
  {
    if a == 0 || b == 0 {
      HasZero(i);
    } else if i > 0 {
      HasAnd(a / 2, b / 2, i - 1);
    }
  }

  lemma {:induction false} HasOr(a: nat, b: nat, i: nat)
    ensures Has(Or(a, b), i) <==> Has(a, i) || Has(b, i)
  {
    if a == 0 || b == 0 {
      HasZero(i);
    } else if i > 0 {
      HasOr(a / 2, b / 2, i - 1);
    }
  }

  lemma {:induction false} HasXor(a: nat, b: nat, i: nat)
    ensures Has(Xor(a, b), i) <==> Has(a, i) != Has(b, i)
  {
    if a == 0 || b == 0 {
      HasZero(i);
    } else if i > 0 {
      HasXor(a / 2, b / 2, i - 1);
    }
  }

  lemma {:induction false} HasPow2(k: nat, i: nat)
    ensures Has(Pow2(k), i) <==> i == k
  {
    if k == 0 {
      if i > 0 {
        HasZero(i - 1);
      }
    } else if i > 0 {
      HasPow2(k - 1, i - 1);
    }
  }

  /** A number below 2^w has no bit at w or above. */
  lemma {:induction false} HasBelow(b: nat, w: nat, i: nat)
    requires b < Pow2(w) && w <= i
    ensures !Has(b, i)
  {
    if w == 0 {
      HasZero(i);
    } else {
      HasBelow(b / 2, w - 1, i - 1);
    }
  }

  /** A number in [2^w, 2^(w+1)) has bit w set. */
  lemma {:induction false} HasTop(b: nat, w: nat)
    requires Pow2(w) <= b < 2 * Pow2(w)
    ensures Has(b, w)
  {
    if w > 0 {
      HasTop(b / 2, w - 1);
    }
  }

  /** `Pow2(w) - 1 - a` complements the low `w` bits of `a`. */
  lemma {:induction false} HasComplement(a: nat, w: nat, i: nat)
    requires a < Pow2(w)
    ensures Has(Pow2(w) - 1 - a, i) <==> i < w && !Has(a, i)
  {
    if w == 0 {
      HasZero(i);
    } else if i == 0 {
    } else {
      assert (Pow2(w) - 1 - a) / 2 == Pow2(w - 1) - 1 - a / 2;
      HasComplement(a / 2, w - 1, i - 1);
    }
  }

  /** Adding a power of two above every bit of `a` sets exactly that bit. */
  lemma {:induction false} HasAddPow2(a: nat, k: nat, i: nat)
    requires a < Pow2(k)
    ensures Has(a + Pow2(k), i) <==> Has(a, i) || i == k
  {
    if k == 0 {
      HasPow2(0, i);
    } else if i == 0 {
    } else {
      assert (a + Pow2(k)) / 2 == a / 2 + Pow2(k - 1);
      HasAddPow2(a / 2, k - 1, i - 1);
    }
    if i >= k {
      HasBelow(a, k, i);
    }
  }

  lemma HasNot(a: nat, i: nat)
    requires a < LIMIT
    ensures Has(Not(a), i) <==> i < 128 && !Has(a, i)
  {
    Pow2Values();
    HasComplement(a, 128, i);
  }

  /** `a << k`: bit `i - k` of `a` moves to bit `i`. */
  lemma {:induction false} HasShl(a: nat, k: nat, i: nat)
    ensures Has(a * Pow2(k), i) <==> k <= i && Has(a, i - k)
  {
    if k > 0 {
      assert a * Pow2(k) == 2 * (a * Pow2(k - 1));
      if i > 0 {
        HasShl(a, k - 1, i - 1);
      }
    }
  }

  /** `a >> k` */
  function Shr(a: nat, k: nat): nat
  {
    if k == 0 then a else Shr(a / 2, k - 1)
  }

  /** `a >> k`: bit `i + k` of `a` moves to bit `i`. */
  lemma {:induction false} HasShr(a: nat, k: nat, i: nat)
    ensures Has(Shr(a, k), i) <==> Has(a, i + k)
  {
    if k > 0 {
      HasShr(a / 2, k - 1, i);
    }
  }

  /** A `w`-bit word shifted right by `k` fits in `w - k` bits. */
  lemma {:induction false} ShrBound(a: nat, w: nat, k: nat)
    requires a < Pow2(w) && k <= w
    ensures Shr(a, k) < Pow2(w - k)
  {
    if k > 0 {
      ShrBound(a / 2, w - 1, k - 1);
    }
  }

  /** `Pow2(k) - 1` is the mask of the low `k` bits. */
  lemma HasLowMask(k: nat, i: nat)
    ensures Has(Pow2(k) - 1, i) <==> i < k
  {
    HasComplement(0, k, i);
    HasZero(i);
  }

  /** A number is 0 exactly when none of its bits is set. */
  lemma NonZeroHas(b: nat)
    ensures b != 0 <==> Has(b, Lsb(b))
  {
    if b == 0 {
      HasZero(Lsb(b));
    }
  }

  /** `v & (1 << k) != 0` tests bit `k`. */
  lemma AndPow2(v: nat, k: nat)
    ensures And(v, Pow2(k)) != 0 <==> Has(v, k)
  {
    var r := And(v, Pow2(k));
    HasAnd(v, Pow2(k), k);
    HasPow2(k, k);
    HasAnd(v, Pow2(k), Lsb(r));
    HasPow2(k, Lsb(r));
    NonZeroHas(r);
  }

  lemma Pow2Small()
    ensures Pow2(4) == 16 && Pow2(6) == 64 && Pow2(12) == 4096 && Pow2(13) == 8192
  {
    Pow2Of8();
    Pow2Add(6, 6);
    assert Pow2(13) == 2 * Pow2(12);
  }

  /** Two numbers with the same bits are equal. */
  lemma {:induction false} Extensional(a: nat, b: nat)
    requires forall i: nat :: Has(a, i) == Has(b, i)
    ensures a == b
    decreases a + b
  {
    if a == 0 && b == 0 {
    } else {
      assert Has(a, 0) == Has(b, 0);
      forall i: nat
        ensures Has(a / 2, i) == Has(b / 2, i)
      {
        assert Has(a, i + 1) == Has(b, i + 1);
      }
      if a / 2 + b / 2 < a + b {
        Extensional(a / 2, b / 2);
      }
    }
  }

  /** A number with no bit at `w` or above is below 2^w. */
  lemma {:induction false} BelowOfBits(b: nat, w: nat)
    requires forall i: nat :: w <= i ==> !Has(b, i)
    ensures b < Pow2(w)
  {
    if w == 0 {
      if b != 0 {
        NonZeroHas(b);
      }
    } else {
      forall i: nat | w - 1 <= i
        ensures !Has(b / 2, i)
      {
        assert !Has(b, i + 1);
      }
      BelowOfBits(b / 2, w - 1);
    }
  }

  lemma OrAssoc(a: nat, b: nat, c: nat)
    ensures Or(Or(a, b), c) == Or(a, Or(b, c))
  {
    forall i: nat
      ensures Has(Or(Or(a, b), c), i) == Has(Or(a, Or(b, c)), i)
    {
      HasOr(Or(a, b), c, i);
      HasOr(a, b, i);
      HasOr(a, Or(b, c), i);
      HasOr(b, c, i);
    }
    Extensional(Or(Or(a, b), c), Or(a, Or(b, c)));
  }

  /** The bits of a bitboard below 2^81 are squares. */
  lemma OnBoardBits(b: nat, i: nat)
    requires b < BOARD_LIMIT && Has(b, i)
    ensures i < 81
  {
    Pow2Values();
    if i >= 81 {
      HasBelow(b, 81, i);
    }
  }

  lemma {:induction false} AndBound(a: nat, b: nat, w: nat)
    requires a < Pow2(w)
    ensures And(a, b) < Pow2(w) && And(a, b) <= a
    decreases a
  {
    if a != 0 && b != 0 {
      if w == 0 {
      } else {
        AndBound(a / 2, b / 2, w - 1);
      }
    }
  }

  lemma {:induction false} AndBoundRight(a: nat, b: nat, w: nat)
    requires b < Pow2(w)
    ensures And(a, b) < Pow2(w) && And(a, b) <= b
    decreases a
  {
    if a != 0 && b != 0 {
      AndBoundRight(a / 2, b / 2, w - 1);
    }
  }

  lemma {:induction false} OrBound(a: nat, b: nat, w: nat)
    requires a < Pow2(w) && b < Pow2(w)
    ensures Or(a, b) < Pow2(w)
    decreases a + b
  {
    if a != 0 && b != 0 {
      OrBound(a / 2, b / 2, w - 1);
    }
  }

  lemma {:induction false} XorBound(a: nat, b: nat, w: nat)
    requires a < Pow2(w) && b < Pow2(w)
    ensures Xor(a, b) < Pow2(w)
    decreases a + b
  {
    if a != 0 && b != 0 {
      XorBound(a / 2, b / 2, w - 1);
    }
  }

  // ---------------------------------------------------------------------------
  // The operations of src/bits.rs
  // ---------------------------------------------------------------------------

  /** `bb(sq)`: `1 << sq`, the bitboard of the single square `sq`. */
  function Bb(sq: nat): (r: nat)
    requires sq < 128
    ensures r < LIMIT
    ensures forall i: nat :: Has(r, i) <==> i == sq
  {
    Pow2Values();
    Pow2Less(sq, 128);
    forall i: nat
      ensures Has(Pow2(sq), i) <==> i == sq
    {
      HasPow2(sq, i);
    }
    Pow2(sq)
  }

  /**
   * `lsb(b)`: `b.trailing_zeros()`, the position of the lowest set bit of `b`, and 128
   * when `b` is 0.
   */
  function Lsb(b: nat): (r: nat)
    ensures b == 0 ==> r == 128
    ensures 0 < b < LIMIT ==> r < 128
    ensures b != 0 ==> Has(b, r)
    ensures forall j: nat | j < r :: !Has(b, j)
    decreases b
  {
    if b == 0 then
      forall j: nat | j < 128
        ensures !Has(b, j)
      {
        HasZero(j);
      }
      128
    else if b % 2 == 1 then
      0
    else
      var r := 1 + Lsb(b / 2);
      if b < LIMIT && r >= 128 then
        Pow2Values();
        HasBelow(b, 128, r);
        r
      else
        r
  }

  lemma {:induction false} AndSelf(a: nat)
    ensures And(a, a) == a
    decreases a
  {
    if a != 0 {
      AndSelf(a / 2);
    }
  }

  /** `b & (b - 1)` is `b` less its lowest set bit. */
  lemma {:induction false} AndPred(b: nat)
    requires b != 0
    ensures And(b, b - 1) == b - Pow2(Lsb(b))
    decreases b
  {
    if b % 2 == 1 {
      assert Lsb(b) == 0;
      if b > 1 {
        var h := b / 2;
        assert (b - 1) / 2 == h && (b - 1) % 2 == 0;
        AndSelf(h);
        assert And(b, b - 1) == 2 * And(h, h);
      }
    } else {
      var h := b / 2;
      assert (b - 1) / 2 == h - 1 && (b - 1) % 2 == 1;
      assert Lsb(b) == 1 + Lsb(h);
      AndPred(h);
      assert And(b, b - 1) == 2 * And(h, h - 1);
      assert Pow2(Lsb(b)) == 2 * Pow2(Lsb(h));
    }
  }

  /** Clearing a set bit by subtraction leaves the other bits as they were. */
  lemma {:induction false} HasSubPow2(b: nat, k: nat, i: nat)
    requires Has(b, k)
    ensures b >= Pow2(k)
    ensures Has(b - Pow2(k), i) <==> Has(b, i) && i != k
  {
    if k == 0 {
      if i > 0 {
        assert (b - 1) / 2 == b / 2;
      }
    } else {
      HasSubPow2(b / 2, k - 1, if i == 0 then 0 else i - 1);
      assert (b - Pow2(k)) / 2 == b / 2 - Pow2(k - 1);
      assert (b - Pow2(k)) % 2 == b % 2;
    }
  }

  /**
   * `pop(b)`: `b & (b - 1)`, the bitboard `b` with its lowest set bit cleared. Rust's
   * `b - 1` on a `u128` underflows for `b == 0`, so callers pass a bitboard that is
   * not empty.
   */
  function Pop(b: nat): (r: nat)
    requires b != 0
    ensures r == b - Pow2(Lsb(b))
    ensures r < b
    ensures forall i: nat :: Has(r, i) <==> Has(b, i) && i != Lsb(b)
  {
    var l := Lsb(b);
    PopBits(b, l);
    AndPred(b);
    And(b, b - 1)
  }

  lemma PopBits(b: nat, l: nat)
    requires Has(b, l)
    ensures Pow2(l) <= b && b - Pow2(l) < b
    ensures forall i: nat :: Has(b - Pow2(l), i) <==> Has(b, i) && i != l
  {
    HasSubPow2(b, l, l);
    forall i: nat
      ensures Has(b - Pow2(l), i) <==> Has(b, i) && i != l
    {
      HasSubPow2(b, l, i);
    }
  }

  /** `count(b)`: `b.count_ones()`. */
  function Count(b: nat): (r: nat)
    decreases b
  {
    if b == 0 then 0 else b % 2 + Count(b / 2)
  }

  // ---------------------------------------------------------------------------
  // Properties of the primitives
  // ---------------------------------------------------------------------------

  /** `count` of a `u128` is at most 128, so the source's `u8` holds it. */
  lemma {:induction false} CountBound(b: nat, w: nat)
    requires b < Pow2(w)
    ensures Count(b) <= w
    decreases w
  {
    if b != 0 {
      CountBound(b / 2, w - 1);
    }
  }

  /** Clearing one set bit lowers the count by one. */
  lemma {:induction false} CountSubPow2(b: nat, k: nat)
    requires Has(b, k)
    ensures b >= Pow2(k)
    ensures Count(b - Pow2(k)) == Count(b) - 1
  {
    HasSubPow2(b, k, k);
    if k > 0 {
      CountSubPow2(b / 2, k - 1);
      assert (b - Pow2(k)) / 2 == b / 2 - Pow2(k - 1);
      assert (b - Pow2(k)) % 2 == b % 2;
    }
  }

  /** Every pop removes exactly one bit, so a loop that pops until 0 runs `Count(b)` times. */
  lemma PopCount(b: nat)
    requires b != 0
    ensures Count(Pop(b)) == Count(b) - 1
    ensures Count(b) > 0
  {
    CountSubPow2(b, Lsb(b));
  }

  /** `bb(sq)` has exactly one set bit. */
  lemma {:induction false} CountPow2(sq: nat)
    ensures Count(Pow2(sq)) == 1
  {
    if sq > 0 {
      CountPow2(sq - 1);
    }
  }

  /** Pop and the lowest bit split a non-empty bitboard into two disjoint parts. */
  lemma PopLsbSplit(b: nat)
    requires 0 < b < LIMIT
    ensures Or(Pop(b), Bb(Lsb(b))) == b
    ensures And(Pop(b), Bb(Lsb(b))) == 0
  {
    var l := Lsb(b);
    var p := Pop(b);
    forall i: nat
      ensures Has(Or(p, Bb(l)), i) == Has(b, i)
    {
      HasOr(p, Bb(l), i);
    }
    Extensional(Or(p, Bb(l)), b);
    forall i: nat
      ensures Has(And(p, Bb(l)), i) == Has(0, i)
    {
      HasAnd(p, Bb(l), i);
      HasZero(i);
    }
    Extensional(And(p, Bb(l)), 0);
  }

  // ---------------------------------------------------------------------------
  // Literal powers of two
  // ---------------------------------------------------------------------------

  lemma Pow2Lit0()
    ensures Pow2(0) == 0x1
    ensures Pow2(1) == 0x2
    ensures Pow2(2) == 0x4
    ensures Pow2(3) == 0x8
    ensures Pow2(4) == 0x10
    ensures Pow2(5) == 0x20
    ensures Pow2(6) == 0x40
    ensures Pow2(7) == 0x80
    ensures Pow2(8) == 0x100
    ensures Pow2(9) == 0x200
    ensures Pow2(10) == 0x400
    ensures Pow2(11) == 0x800
    ensures Pow2(12) == 0x1000
    ensures Pow2(13) == 0x2000
    ensures Pow2(14) == 0x4000
    ensures Pow2(15) == 0x8000
  {
    assert Pow2(0) == 1;
    assert Pow2(1) == 2 * Pow2(0);
    assert Pow2(2) == 2 * Pow2(1);
    assert Pow2(3) == 2 * Pow2(2);
    assert Pow2(4) == 2 * Pow2(3);
    assert Pow2(5) == 2 * Pow2(4);
    assert Pow2(6) == 2 * Pow2(5);
    assert Pow2(7) == 2 * Pow2(6);
    assert Pow2(8) == 2 * Pow2(7);
    assert Pow2(9) == 2 * Pow2(8);
    assert Pow2(10) == 2 * Pow2(9);
    assert Pow2(11) == 2 * Pow2(10);
    assert Pow2(12) == 2 * Pow2(11);
    assert Pow2(13) == 2 * Pow2(12);
    assert Pow2(14) == 2 * Pow2(13);
    assert Pow2(15) == 2 * Pow2(14);
  }

  lemma Pow2Lit1()
    ensures Pow2(16) == 0x10000
    ensures Pow2(17) == 0x20000
    ensures Pow2(18) == 0x40000
    ensures Pow2(19) == 0x80000
    ensures Pow2(20) == 0x100000
    ensures Pow2(21) == 0x200000
    ensures Pow2(22) == 0x400000
    ensures Pow2(23) == 0x800000
    ensures Pow2(24) == 0x1000000
    ensures Pow2(25) == 0x2000000
    ensures Pow2(26) == 0x4000000
    ensures Pow2(27) == 0x8000000
    ensures Pow2(28) == 0x10000000
    ensures Pow2(29) == 0x20000000
    ensures Pow2(30) == 0x40000000
    ensures Pow2(31) == 0x80000000
  {
    Pow2Lit0();
    assert Pow2(16) == 2 * Pow2(15);
    assert Pow2(17) == 2 * Pow2(16);
    assert Pow2(18) == 2 * Pow2(17);
    assert Pow2(19) == 2 * Pow2(18);
    assert Pow2(20) == 2 * Pow2(19);
    assert Pow2(21) == 2 * Pow2(20);
    assert Pow2(22) == 2 * Pow2(21);
    assert Pow2(23) == 2 * Pow2(22);
    assert Pow2(24) == 2 * Pow2(23);
    assert Pow2(25) == 2 * Pow2(24);
    assert Pow2(26) == 2 * Pow2(25);
    assert Pow2(27) == 2 * Pow2(26);
    assert Pow2(28) == 2 * Pow2(27);
    assert Pow2(29) == 2 * Pow2(28);
    assert Pow2(30) == 2 * Pow2(29);
    assert Pow2(31) == 2 * Pow2(30);
  }

  lemma Pow2Lit2()
    ensures Pow2(32) == 0x100000000
    ensures Pow2(33) == 0x200000000
    ensures Pow2(34) == 0x400000000
    ensures Pow2(35) == 0x800000000
    ensures Pow2(36) == 0x1000000000
    ensures Pow2(37) == 0x2000000000
    ensures Pow2(38) == 0x4000000000
    ensures Pow2(39) == 0x8000000000
    ensures Pow2(40) == 0x10000000000
    ensures Pow2(41) == 0x20000000000
    ensures Pow2(42) == 0x40000000000
    ensures Pow2(43) == 0x80000000000
    ensures Pow2(44) == 0x100000000000
    ensures Pow2(45) == 0x200000000000
    ensures Pow2(46) == 0x400000000000
    ensures Pow2(47) == 0x800000000000
  {
    Pow2Lit1();
    assert Pow2(32) == 2 * Pow2(31);
    assert Pow2(33) == 2 * Pow2(32);
    assert Pow2(34) == 2 * Pow2(33);
    assert Pow2(35) == 2 * Pow2(34);
    assert Pow2(36) == 2 * Pow2(35);
    assert Pow2(37) == 2 * Pow2(36);
    assert Pow2(38) == 2 * Pow2(37);
    assert Pow2(39) == 2 * Pow2(38);
    assert Pow2(40) == 2 * Pow2(39);
    assert Pow2(41) == 2 * Pow2(40);
    assert Pow2(42) == 2 * Pow2(41);
    assert Pow2(43) == 2 * Pow2(42);
    assert Pow2(44) == 2 * Pow2(43);
    assert Pow2(45) == 2 * Pow2(44);
    assert Pow2(46) == 2 * Pow2(45);
    assert Pow2(47) == 2 * Pow2(46);
  }

  lemma Pow2Lit3()
    ensures Pow2(48) == 0x1000000000000
    ensures Pow2(49) == 0x2000000000000
    ensures Pow2(50) == 0x4000000000000
    ensures Pow2(51) == 0x8000000000000
    ensures Pow2(52) == 0x10000000000000
    ensures Pow2(53) == 0x20000000000000
    ensures Pow2(54) == 0x40000000000000
    ensures Pow2(55) == 0x80000000000000
    ensures Pow2(56) == 0x100000000000000
    ensures Pow2(57) == 0x200000000000000
    ensures Pow2(58) == 0x400000000000000
    ensures Pow2(59) == 0x800000000000000
    ensures Pow2(60) == 0x1000000000000000
    ensures Pow2(61) == 0x2000000000000000
    ensures Pow2(62) == 0x4000000000000000
    ensures Pow2(63) == 0x8000000000000000
  {
    Pow2Lit2();
    assert Pow2(48) == 2 * Pow2(47);
    assert Pow2(49) == 2 * Pow2(48);
    assert Pow2(50) == 2 * Pow2(49);
    assert Pow2(51) == 2 * Pow2(50);
    assert Pow2(52) == 2 * Pow2(51);
    assert Pow2(53) == 2 * Pow2(52);
    assert Pow2(54) == 2 * Pow2(53);
    assert Pow2(55) == 2 * Pow2(54);
    assert Pow2(56) == 2 * Pow2(55);
    assert Pow2(57) == 2 * Pow2(56);
    assert Pow2(58) == 2 * Pow2(57);
    assert Pow2(59) == 2 * Pow2(58);
    assert Pow2(60) == 2 * Pow2(59);
    assert Pow2(61) == 2 * Pow2(60);
    assert Pow2(62) == 2 * Pow2(61);
    assert Pow2(63) == 2 * Pow2(62);
  }

  lemma Pow2Lit4()
    ensures Pow2(64) == 0x10000000000000000
    ensures Pow2(65) == 0x20000000000000000
    ensures Pow2(66) == 0x40000000000000000
    ensures Pow2(67) == 0x80000000000000000
    ensures Pow2(68) == 0x100000000000000000
    ensures Pow2(69) == 0x200000000000000000
    ensures Pow2(70) == 0x400000000000000000
    ensures Pow2(71) == 0x800000000000000000
    ensures Pow2(72) == 0x1000000000000000000
    ensures Pow2(73) == 0x2000000000000000000
    ensures Pow2(74) == 0x4000000000000000000
    ensures Pow2(75) == 0x8000000000000000000
    ensures Pow2(76) == 0x10000000000000000000
    ensures Pow2(77) == 0x20000000000000000000
    ensures Pow2(78) == 0x40000000000000000000
    ensures Pow2(79) == 0x80000000000000000000
  {
    Pow2Lit3();
    assert Pow2(64) == 2 * Pow2(63);
    assert Pow2(65) == 2 * Pow2(64);
    assert Pow2(66) == 2 * Pow2(65);
    assert Pow2(67) == 2 * Pow2(66);
    assert Pow2(68) == 2 * Pow2(67);
    assert Pow2(69) == 2 * Pow2(68);
    assert Pow2(70) == 2 * Pow2(69);
    assert Pow2(71) == 2 * Pow2(70);
    assert Pow2(72) == 2 * Pow2(71);
    assert Pow2(73) == 2 * Pow2(72);
    assert Pow2(74) == 2 * Pow2(73);
    assert Pow2(75) == 2 * Pow2(74);
    assert Pow2(76) == 2 * Pow2(75);
    assert Pow2(77) == 2 * Pow2(76);
    assert Pow2(78) == 2 * Pow2(77);
    assert Pow2(79) == 2 * Pow2(78);
  }

  lemma Pow2Lit5()
    ensures Pow2(80) == 0x100000000000000000000
    ensures Pow2(81) == 0x200000000000000000000
  {
    Pow2Lit4();
    assert Pow2(80) == 2 * Pow2(79);
    assert Pow2(81) == 2 * Pow2(80);
  }

  // ---------------------------------------------------------------------------
  // Helpers the source uses but does not define. Each definition is the stated
  // assumption about it.
  // ---------------------------------------------------------------------------

  /** Square `k` and the squares 9, 18, ... below it: the file of `k` up to `k`. */
  function FileUpTo(k: nat): nat
  {
    if k < 9 then Pow2(k) else FileUpTo(k - 9) + Pow2(k)
  }

  /** The bitboard of file index `f`. */
  function FileMask(f: nat): nat
    requires f < 9
  {
    FileUpTo(72 + f)
  }

  /** `bits::file(sq)`: the bitboard of the file of `sq` (file index `sq % 9`). */
  function FileOf(sq: nat): nat
    requires sq < 81
  {
    FileMask(sq % 9)
  }

  /** `FILE_9`: file index 0 (src/main.rs pairs FILE_9 with file 0 and FILE_1 with file 8). */
  const FILE_9: nat := 0x1008040201008040201

  /** `FILE_1`: file index 8. */
  const FILE_1: nat := 0x100804020100804020100

  /** Squares `9 r, ..., 9 r + n - 1`: the first `n` squares of rank `r`. */
  function RankUpTo(r: nat, n: nat): nat
    requires r < 9 && n <= 9
  {
    if n == 0 then 0 else RankUpTo(r, n - 1) + Pow2(9 * r + n - 1)
  }

  /** The bitboard of rank index `r`. */
  function RankMask(r: nat): nat
    requires r < 9
  {
    RankUpTo(r, 9)
  }

  /** `bits::rank(sq)`: the bitboard of the rank of `sq` (rank index `sq / 9`). */
  function RankOf(sq: nat): nat
    requires sq < 81
  {
    RankMask(sq / 9)
  }

  /** `RANK_I`: rank index 0. */
  const RANK_I: nat := 0x1ff

  /** `RANK_A`: rank index 8. */
  const RANK_A: nat := 0x1ff000000000000000000

  /** The edge constants are the masks of file indices 8 and 0 and rank indices 0 and 8. */
  lemma File1Value()
    ensures FILE_1 == FileMask(8)
  {
    Pow2Lit0();
    Pow2Lit1();
    Pow2Lit2();
    Pow2Lit3();
    Pow2Lit4();
    Pow2Lit5();
    assert FileUpTo(8) == 0x100;
    assert FileUpTo(17) == 0x20100;
    assert FileUpTo(26) == 0x4020100;
    assert FileUpTo(35) == 0x804020100;
    assert FileUpTo(44) == 0x100804020100;
    assert FileUpTo(53) == 0x20100804020100;
    assert FileUpTo(62) == 0x4020100804020100;
    assert FileUpTo(71) == 0x804020100804020100;
    assert FileUpTo(80) == 0x100804020100804020100;
  }

  lemma File9Value()
    ensures FILE_9 == FileMask(0)
  {
    Pow2Lit0();
    Pow2Lit1();
    Pow2Lit2();
    Pow2Lit3();
    Pow2Lit4();
    Pow2Lit5();
    assert FileUpTo(0) == 0x1;
    assert FileUpTo(9) == 0x201;
    assert FileUpTo(18) == 0x40201;
    assert FileUpTo(27) == 0x8040201;
    assert FileUpTo(36) == 0x1008040201;
    assert FileUpTo(45) == 0x201008040201;
    assert FileUpTo(54) == 0x40201008040201;
    assert FileUpTo(63) == 0x8040201008040201;
    assert FileUpTo(72) == 0x1008040201008040201;
  }

  lemma RankIValue()
    ensures RANK_I == RankMask(0)
  {
    Pow2Lit0();
    assert RankUpTo(0, 1) == 0x1;
    assert RankUpTo(0, 2) == 0x3;
    assert RankUpTo(0, 3) == 0x7;
    assert RankUpTo(0, 4) == 0xf;
    assert RankUpTo(0, 5) == 0x1f;
    assert RankUpTo(0, 6) == 0x3f;
    assert RankUpTo(0, 7) == 0x7f;
    assert RankUpTo(0, 8) == 0xff;
    assert RankUpTo(0, 9) == 0x1ff;
  }

  lemma RankAValue()
    ensures RANK_A == RankMask(8)
  {
    Pow2Lit4();
    Pow2Lit5();
    assert RankUpTo(8, 1) == 0x1000000000000000000;
    assert RankUpTo(8, 2) == 0x3000000000000000000;
    assert RankUpTo(8, 3) == 0x7000000000000000000;
    assert RankUpTo(8, 4) == 0xf000000000000000000;
    assert RankUpTo(8, 5) == 0x1f000000000000000000;
    assert RankUpTo(8, 6) == 0x3f000000000000000000;
    assert RankUpTo(8, 7) == 0x7f000000000000000000;
    assert RankUpTo(8, 8) == 0xff000000000000000000;
    assert RankUpTo(8, 9) == 0x1ff000000000000000000;
  }

  lemma {:induction false} HasFileUpTo(k: nat, i: nat)
    ensures FileUpTo(k) < Pow2(k + 1)
    ensures Has(FileUpTo(k), i) <==> i <= k && i % 9 == k % 9
  {
    if k < 9 {
      HasPow2(k, i);
    } else {
      HasFileUpTo(k - 9, i);
      Pow2Mono(k - 8, k);
      HasAddPow2(FileUpTo(k - 9), k, i);
      assert FileUpTo(k) == FileUpTo(k - 9) + Pow2(k);
      assert Pow2(k + 1) == 2 * Pow2(k);
      assert (k - 9) % 9 == k % 9;
      assert i <= k && i % 9 == k % 9 && i != k ==> i <= k - 9;
    }
  }

  lemma {:induction false} HasRankUpTo(r: nat, n: nat, i: nat)
    requires r < 9 && n <= 9
    ensures RankUpTo(r, n) < Pow2(9 * r + n)
    ensures Has(RankUpTo(r, n), i) <==> 9 * r <= i < 9 * r + n
  {
    if n == 0 {
      HasZero(i);
    } else {
      var e := 9 * r + n - 1;
      HasRankUpTo(r, n - 1, i);
      HasAddPow2(RankUpTo(r, n - 1), e, i);
      assert RankUpTo(r, n) == RankUpTo(r, n - 1) + Pow2(e);
      assert Pow2(e + 1) == 2 * Pow2(e);
    }
  }

  /** A file bitboard holds exactly the squares of that file. */
  lemma HasFileMask(f: nat, i: nat)
    requires f < 9
    ensures Has(FileMask(f), i) <==> i < 81 && i % 9 == f
  {
    HasFileUpTo(72 + f, i);
    FileArith(f, i);
  }

  lemma FileArith(f: nat, i: nat)
    requires f < 9
    ensures (i <= 72 + f && i % 9 == (72 + f) % 9) <==> (i < 81 && i % 9 == f)
  {
  }

  lemma FileMaskBound(f: nat)
    requires f < 9
    ensures FileMask(f) < BOARD_LIMIT
  {
    HasFileUpTo(72 + f, 0);
    Pow2Mono(73 + f, 81);
    Pow2Values();
  }

  /** A rank bitboard holds exactly the squares of that rank. */
  lemma HasRankMask(r: nat, i: nat)
    requires r < 9
    ensures Has(RankMask(r), i) <==> i < 81 && i / 9 == r
  {
    HasRankUpTo(r, 9, i);
  }

  lemma RankMaskBound(r: nat)
    requires r < 9
    ensures RankMask(r) < BOARD_LIMIT
  {
    HasRankUpTo(r, 9, 0);
    Pow2Mono(9 * r + 9, 81);
    Pow2Values();
  }

  /** The file bitboard of a square holds exactly the squares of its file. */
  lemma HasFileOf(sq: nat, i: nat)
    requires sq < 81
    ensures Has(FileOf(sq), i) <==> i < 81 && i % 9 == sq % 9
  {
    HasFileMask(sq % 9, i);
  }

  /** The rank bitboard of a square holds exactly the squares of its rank. */
  lemma HasRankOf(sq: nat, i: nat)
    requires sq < 81
    ensures Has(RankOf(sq), i) <==> i < 81 && i / 9 == sq / 9
  {
    HasRankMask(sq / 9, i);
  }

  /**
   * `bits::north`: every square one rank up (towards rank index 8), kept on the board.
   * The source's `<< 9` on a `u128` drops the bits it shifts out; the mask drops them too.
   */
  function North(b: nat): nat
  {
    And(b * 512, BOARD)
  }

  /** `bits::south`: every square one rank down (towards rank index 0). */
  function South(b: nat): nat
  {
    Shr(b, 9)
  }

  /** `bits::merge`: folds the two 64-bit halves of a bitboard into one 64-bit word. */
  function Merge(occ: nat): (r: nat)
    requires occ < LIMIT
    ensures r < 0x1_0000_0000_0000_0000
  {
    Pow2Values();
    OrBound(occ % 0x1_0000_0000_0000_0000, occ / 0x1_0000_0000_0000_0000, 64);
    Or(occ % 0x1_0000_0000_0000_0000, occ / 0x1_0000_0000_0000_0000)
  }

}
