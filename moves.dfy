/**
 * Move encoding (src/moves.rs).
 *
 * A move is a `u16`: bits 0..5 hold the source square (or the dropped kind), bits 6..11
 * the destination, bit 12 the promotion flag and bit 13 the drop flag. Squares run up to
 * 80, so the six-bit fields only round-trip for squares below 64; `WideMove` is the
 * encoding with seven-bit fields that round-trips every square.
 */
module Moves {
  import opened Wrappers
  import opened Bits
  import opened Consts

  /** The promotion flag, `1 << 12`. */
  const PROMO_BIT: nat := 4096

  /** The drop flag, `1 << 13`. */
  const DROP_BIT: nat := 8192

  /** `0b111111` */
  const FIELD: nat := 63

  datatype Move = Move(value: nat)
  {
    /** `src()`: the source square, `None` for a drop. */
    function Src(): (r: Option<nat>)
      ensures r.Some? ==> r.value < 64
    {
      Pow2Small();
      AndBoundRight(value, FIELD, 6);
      if IsDrop() then None else Some(And(value, FIELD))
    }

    /** `dst()` */
    function Dst(): (r: nat)
      ensures r < 64
    {
      Pow2Small();
      AndBoundRight(Shr(value, 6), FIELD, 6);
      And(Shr(value, 6), FIELD)
    }

    /** `is_promo()` */
    predicate IsPromo()
    {
      And(value, PROMO_BIT) != 0
    }

    /** `is_drop()` */
    predicate IsDrop()
    {
      And(value, DROP_BIT) != 0
    }

    /**
     * `drop_piece()`: the dropped kind from bits 0..3. `Piece::from` panics on 14 and 15,
     * so a drop must carry a kind index below 14.
     */
    function DropPiece(): Option<Piece>
      requires IsDrop() ==> And(value, 15) < PIECE_COUNT
    {
      if IsDrop() then Some(FromU8(And(value, 15))) else None
    }
  }

  /** `Move::NONE` */
  const NONE: Move := Move(0)

  /**
   * `Move::new(from, to, promote)`: `from | to << 6`, with bit 12 when promoting. The
   * source asserts `from < 81 && to < 81`.
   */
  function New(from: nat, to: nat, promote: bool): (m: Move)
    requires from < 81 && to < 81
    ensures m.value < 0x1_0000
  {
    Pow2Small();
    Pow2Less(7, 13);
    OrBound(from, to * 64, 13);
    OrBound(Or(from, to * 64), PROMO_BIT, 13);
    var value := Or(from, to * 64);
    Move(if promote then Or(value, PROMO_BIT) else value)
  }

  /** `Move::drop(piece, to)`: `piece | to << 6 | 1 << 13`. The source asserts `piece < 15 && to < 81`. */
  function Drop(piece: nat, to: nat): Move
    requires piece < 15 && to < 81
  {
    Move(Or(Or(piece, to * 64), DROP_BIT))
  }

  // ---------------------------------------------------------------------------
  // The bits of an encoded move
  // ---------------------------------------------------------------------------

  /** Bit `i` of the packed value is the OR of the fields' bits at `i`. */
  lemma HasPacked(low: nat, to: nat, flag: nat, i: nat)
    requires flag == 0 || flag == PROMO_BIT || flag == DROP_BIT
    ensures Has(Or(Or(low, to * 64), flag), i) <==>
      Has(low, i) || (6 <= i && Has(to, i - 6)) || (flag != 0 && Pow2(i) == flag)
  {
    Pow2Small();
    HasOr(Or(low, to * 64), flag, i);
    HasOr(low, to * 64, i);
    HasShl(to, 6, i);
    if flag == 0 {
      HasZero(i);
    } else if flag == PROMO_BIT {
      HasPow2(12, i);
      Pow2Injective(i, 12);
    } else {
      HasPow2(13, i);
      Pow2Injective(i, 13);
    }
  }

  lemma Pow2Injective(a: nat, b: nat)
    ensures Pow2(a) == Pow2(b) <==> a == b
  {
    if a < b {
      Pow2Less(a, b);
    } else if b < a {
      Pow2Less(b, a);
    }
  }

  lemma NewValue(from: nat, to: nat, promote: bool)
    requires from < 81 && to < 81
    ensures New(from, to, promote).value == Or(Or(from, to * 64), if promote then PROMO_BIT else 0)
  {
    if !promote {
      assert Or(Or(from, to * 64), 0) == Or(from, to * 64);
    }
  }

  lemma SrcBits(v: nat, i: nat)
    ensures Has(And(v, FIELD), i) <==> i < 6 && Has(v, i)
  {
    Pow2Small();
    HasAnd(v, FIELD, i);
    HasLowMask(6, i);
  }

  lemma DstBits(v: nat, i: nat)
    ensures Has(And(Shr(v, 6), FIELD), i) <==> i < 6 && Has(v, i + 6)
  {
    SrcBits(Shr(v, 6), i);
    HasShr(v, 6, i);
  }

  /** A square below 64 has no bit at 6 or above; one in 64..80 has bit 6 and nothing above. */
  lemma SquareBits(sq: nat, i: nat)
    requires sq < 81
    ensures sq < 64 && i >= 6 ==> !Has(sq, i)
    ensures 64 <= sq ==> Has(sq, 6)
    ensures i >= 7 ==> !Has(sq, i)
  {
    Pow2Small();
    Pow2Less(6, 7);
    assert Pow2(7) == 128;
    if sq < 64 && i >= 6 {
      HasBelow(sq, 6, i);
    }
    if 64 <= sq {
      HasTop(sq, 6);
    }
    if i >= 7 {
      HasBelow(sq, 7, i);
    }
  }

  // ---------------------------------------------------------------------------
  // Round trips and their failure above 63
  // ---------------------------------------------------------------------------

  /** For squares below 64, `Move::new` round-trips through `src`, `dst` and `is_promo`. */
  lemma NewRoundTrip(from: nat, to: nat, promote: bool)
    requires from < 64 && to < 64
    ensures New(from, to, promote).Src() == Some(from)
    ensures New(from, to, promote).Dst() == to
    ensures New(from, to, promote).IsPromo() == promote
    ensures !New(from, to, promote).IsDrop()
  {
    var flag := if promote then PROMO_BIT else 0;
    var v := New(from, to, promote).value;
    NewValue(from, to, promote);
    NewNoDrop(from, to, promote);
    forall i: nat
      ensures Has(And(v, FIELD), i) == Has(from, i)
    {
      SrcBits(v, i);
      HasPacked(from, to, flag, i);
      SquareBits(from, i);
      Pow2Small();
      if i < 6 {
        Pow2Less(i, 12);
        Pow2Less(i, 13);
      }
    }
    Extensional(And(v, FIELD), from);
    forall i: nat
      ensures Has(And(Shr(v, 6), FIELD), i) == Has(to, i)
    {
      DstBits(v, i);
      HasPacked(from, to, flag, i + 6);
      SquareBits(from, i + 6);
      SquareBits(to, i);
      Pow2Small();
      if i < 6 {
        Pow2Less(i + 6, 12);
        Pow2Less(i + 6, 13);
      }
    }
    Extensional(And(Shr(v, 6), FIELD), to);
    AndPow2(v, 12);
    Pow2Small();
    HasPacked(from, to, flag, 12);
    SquareBits(from, 12);
    SquareBits(to, 6);
  }

  /** For every square pair, `Move::new` leaves the drop bit clear: its value is below 2^13. */
  lemma NewNoDrop(from: nat, to: nat, promote: bool)
    requires from < 81 && to < 81
    ensures !New(from, to, promote).IsDrop()
  {
    var flag := if promote then PROMO_BIT else 0;
    NewValue(from, to, promote);
    Pow2Small();
    AndPow2(New(from, to, promote).value, 13);
    HasPacked(from, to, flag, 13);
    SquareBits(from, 13);
    SquareBits(to, 7);
    Pow2Injective(13, 12);
  }

  /**
   * A destination in 64..80 spills into bit 12: the move reads as a promotion although
   * none was asked for, and its destination reads as `to - 64`.
   */
  lemma NewDstOverflow(from: nat, to: nat)
    requires from < 64 && 64 <= to < 81
    ensures New(from, to, false).IsPromo()
    ensures New(from, to, false).Dst() == to - 64
  {
    var v := New(from, to, false).value;
    NewValue(from, to, false);
    Pow2Small();
    AndPow2(v, 12);
    HasPacked(from, to, 0, 12);
    SquareBits(to, 6);
    forall i: nat
      ensures Has(And(Shr(v, 6), FIELD), i) == Has(to - 64, i)
    {
      DstBits(v, i);
      HasPacked(from, to, 0, i + 6);
      SquareBits(from, i + 6);
      HasSubPow2(to, 6, i);
      if i >= 6 {
        HasBelow(to - 64, 6, i);
      }
    }
    Extensional(And(Shr(v, 6), FIELD), to - 64);
  }

  /**
   * A source in 64..80 spills into the destination field: `src` reads `from - 64` and the
   * destination always reads odd.
   */
  lemma NewSrcOverflow(from: nat, to: nat, promote: bool)
    requires 64 <= from < 81 && to < 81
    ensures New(from, to, promote).Src() == Some(from - 64)
    ensures Has(New(from, to, promote).Dst(), 0)
  {
    var flag := if promote then PROMO_BIT else 0;
    var v := New(from, to, promote).value;
    NewValue(from, to, promote);
    NewNoDrop(from, to, promote);
    Pow2Small();
    forall i: nat
      ensures Has(And(v, FIELD), i) == Has(from - 64, i)
    {
      SrcBits(v, i);
      HasPacked(from, to, flag, i);
      SquareBits(from, 6);
      HasSubPow2(from, 6, i);
      if i < 6 {
        Pow2Less(i, 12);
        Pow2Less(i, 13);
      } else {
        HasBelow(from - 64, 6, i);
      }
    }
    Extensional(And(v, FIELD), from - 64);
    DstBits(v, 0);
    HasPacked(from, to, flag, 6);
    SquareBits(from, 6);
  }

  /** The concrete case: from 0 to 64 without promotion reads back as a promotion to square 0. */
  lemma NewZeroToSixtyFour()
    ensures New(0, 64, false).IsPromo()
    ensures New(0, 64, false).Dst() == 0
    ensures New(0, 64, false).Dst() != 64
  {
    NewDstOverflow(0, 64);
  }

  /**
   * `Move::drop` sets the drop bit, has no source and keeps the kind in the low four bits, for
   * every square of the board; it reads the destination back when it is below 64.
   */
  lemma DropRoundTrip(piece: nat, to: nat)
    requires piece < 15 && to < 81
    ensures Drop(piece, to).IsDrop()
    ensures Drop(piece, to).Src() == None
    ensures to < 64 ==> Drop(piece, to).Dst() == to
    ensures And(Drop(piece, to).value, 15) == piece
  {
    var v := Drop(piece, to).value;
    Pow2Small();
    AndPow2(v, 13);
    HasPacked(piece, to, DROP_BIT, 13);
    if to < 64 {
      DropDst(piece, to);
    }
    DropKindBits(piece, to);
  }

  lemma DropDst(piece: nat, to: nat)
    requires piece < 15 && to < 64
    ensures Drop(piece, to).Dst() == to
  {
    var v := Drop(piece, to).value;
    forall i: nat
      ensures Has(And(Shr(v, 6), FIELD), i) == Has(to, i)
    {
      DstBits(v, i);
      HasPacked(piece, to, DROP_BIT, i + 6);
      PieceBits(piece, i + 6);
      SquareBits(to, i);
      if i < 6 {
        Pow2Small();
        Pow2Injective(i + 6, 13);
      }
    }
    Extensional(And(Shr(v, 6), FIELD), to);
  }

  lemma DropKindBits(piece: nat, to: nat)
    requires piece < 15 && to < 81
    ensures And(Drop(piece, to).value, 15) == piece
  {
    var v := Drop(piece, to).value;
    forall i: nat
      ensures Has(And(v, 15), i) == Has(piece, i)
    {
      Pow2Small();
      HasAnd(v, 15, i);
      HasLowMask(4, i);
      HasPacked(piece, to, DROP_BIT, i);
      if i >= 4 {
        PieceBits(piece, i);
      } else {
        Pow2Less(i, 13);
      }
    }
    Extensional(And(v, 15), piece);
  }

  lemma PieceBits(piece: nat, i: nat)
    requires piece < 16 && i >= 4
    ensures !Has(piece, i)
  {
    Pow2Small();
    HasBelow(piece, 4, i);
  }

  /** For a kind index below 14, `drop_piece` decodes the kind that was dropped. */
  lemma DropPieceRoundTrip(piece: nat, to: nat)
    requires piece < PIECE_COUNT && to < 81
    ensures And(Drop(piece, to).value, 15) < PIECE_COUNT && Drop(piece, to).DropPiece() == Some(FromU8(piece))
  {
    DropRoundTrip(piece, to);
  }

  /** Index 14 passes `drop`'s assert, but `drop_piece` then reaches `Piece::from(14)`, which panics. */
  lemma DropFourteenPanics(to: nat)
    requires to < 81
    ensures Drop(14, to).IsDrop()
    ensures And(Drop(14, to).value, 15) == 14
  {
    DropRoundTrip(14, to);
  }

  /** `Move::NONE` is neither a drop nor a promotion, from square 0 to square 0. */
  lemma NoneMove()
    ensures !NONE.IsDrop() && !NONE.IsPromo()
    ensures NONE.Src() == Some(0) && NONE.Dst() == 0
  {
    ShrZero(6);
  }

  lemma {:induction false} ShrZero(k: nat)
    ensures Shr(0, k) == 0
  {
    if k > 0 {
      ShrZero(k - 1);
    }
  }

  // ---------------------------------------------------------------------------
  // A corrected encoding with seven-bit square fields
  // ---------------------------------------------------------------------------

  /**
   * The encoding the six-bit fields evidently aim at, with fields wide enough for square
   * 80: bits 0..6 hold the source square (or the dropped kind), bits 7..13 the destination,
   * bit 14 the promotion flag and bit 15 the drop flag, which still fits a `u16`. The
   * fields are disjoint, so the OR of the source is written as a sum.
   */
  datatype WideMove = WideMove(value: nat)
  {
    function Src(): (r: Option<nat>)
      ensures r.Some? ==> r.value < 128
    {
      if IsDrop() then None else Some(value % 128)
    }

    function Dst(): (r: nat)
      ensures r < 128
    {
      (value / 128) % 128
    }

    predicate IsPromo()
    {
      (value / 16384) % 2 == 1
    }

    predicate IsDrop()
    {
      (value / 32768) % 2 == 1
    }

    /** The dropped kind, from bits 0..6. */
    function DropPiece(): Option<Piece>
      requires IsDrop() ==> value % 128 < PIECE_COUNT
    {
      if IsDrop() then Some(FromU8(value % 128)) else None
    }
  }

  /** The corrected `Move::new`, for every pair of board squares. */
  function NewWide(from: nat, to: nat, promote: bool): (m: WideMove)
    requires from < 81 && to < 81
    ensures m.value < 0x1_0000
  {
    WideMove(from + to * 128 + (if promote then 16384 else 0))
  }

  /** The corrected `Move::drop`, which accepts only the fourteen kind indices `Piece::from` decodes. */
  function DropWide(piece: nat, to: nat): (m: WideMove)
    requires piece < PIECE_COUNT && to < 81
    ensures m.value < 0x1_0000
  {
    WideMove(piece + to * 128 + 32768)
  }

  /** A value built from a low field, a seven-bit middle field and a high part splits back into them. */
  lemma FieldsSplit(low: nat, mid: nat, high: nat)
    requires low < 128 && mid < 128
    ensures (low + mid * 128 + high * 16384) % 128 == low
    ensures ((low + mid * 128 + high * 16384) / 128) % 128 == mid
    ensures (low + mid * 128 + high * 16384) / 16384 == high
  {
    var v := low + mid * 128 + high * 16384;
    assert v == low + (mid + high * 128) * 128;
    assert v / 128 == mid + high * 128;
    assert (v / 128) % 128 == mid;
    assert v == (low + mid * 128) + high * 16384;
    assert low + mid * 128 < 16384;
  }

  /** The corrected encoding round-trips every board move, squares 64..80 included. */
  lemma NewWideRoundTrip(from: nat, to: nat, promote: bool)
    requires from < 81 && to < 81
    ensures NewWide(from, to, promote).Src() == Some(from)
    ensures NewWide(from, to, promote).Dst() == to
    ensures NewWide(from, to, promote).IsPromo() == promote
    ensures !NewWide(from, to, promote).IsDrop()
  {
    var high := if promote then 1 else 0;
    FieldsSplit(from, to, high);
    var v := NewWide(from, to, promote).value;
    assert v == from + to * 128 + high * 16384;
    assert v / 32768 == (v / 16384) / 2;
  }

  /** The corrected encoding round-trips every drop of a kind `Piece::from` can decode. */
  lemma DropWideRoundTrip(piece: nat, to: nat)
    requires piece < PIECE_COUNT && to < 81
    ensures DropWide(piece, to).IsDrop() && !DropWide(piece, to).IsPromo()
    ensures DropWide(piece, to).Src() == None
    ensures DropWide(piece, to).Dst() == to
    ensures DropWide(piece, to).DropPiece() == Some(FromU8(piece))
  {
    FieldsSplit(piece, to, 2);
    var v := DropWide(piece, to).value;
    assert v == piece + to * 128 + 2 * 16384;
    assert v / 32768 == (v / 16384) / 2;
  }

  /** Distinct board moves have distinct corrected encodings. */
  lemma NewWideInjective(a: nat, b: nat, p: bool, c: nat, d: nat, q: bool)
    requires a < 81 && b < 81 && c < 81 && d < 81
    requires NewWide(a, b, p) == NewWide(c, d, q)
    ensures a == c && b == d && p == q
  {
    NewWideRoundTrip(a, b, p);
    NewWideRoundTrip(c, d, q);
  }

  // ---------------------------------------------------------------------------
  // MoveList
  // ---------------------------------------------------------------------------

  /** `ArrayVec<Move, 600>`'s capacity. */
  const CAPACITY: nat := 600

  /** `MoveList`: a bounded vector of moves together with a separate length counter. */
  class MoveList {
    var list: seq<Move>
    var len: nat

    ghost predicate Valid()
      reads this
    {
      len == |list| <= CAPACITY
    }

    /** `MoveList::new()` */
    constructor ()
      ensures Valid()
      ensures list == [] && len == 0
    {
      list := [];
      len := 0;
    }

    /** `is_empty()` */
    function IsEmpty(): (r: bool)
      reads this
      ensures Valid() ==> (r <==> list == [])
    {
      len == 0
    }

    /** `iter()`: the first `len` moves of the list. */
    function Iter(): (r: seq<Move>)
      reads this
      ensures |r| <= len && |r| <= |list|
      ensures r == list[..|r|]
      ensures Valid() ==> r == list
    {
      if len <= |list| then list[..len] else list
    }

    /**
     * `add`, as the commented-out `add_move` describes it: push onto the vector and count
     * it. `ArrayVec::push` panics when the vector is full.
     */
    method Add(m: Move)
      requires Valid() && len < CAPACITY
      modifies this
      ensures Valid()
      ensures list == old(list) + [m] && len == old(len) + 1
    {
      list := list + [m];
      len := len + 1;
    }
  }

  /** A new list is empty. */
  method NewIsEmpty() returns (l: MoveList)
    ensures fresh(l) && l.Valid()
    ensures l.len == 0 && l.IsEmpty() && l.Iter() == []
  {
    l := new MoveList();
  }

}
