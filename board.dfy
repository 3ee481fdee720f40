/**
 * The mutable `Board` and `Hand` of src/board.rs. Each method updates the arrays in place,
 * as the source does, and is proved to compute the function of the same name in module
 * `Position` on the value the board stands for (`Model()`); what those functions do to
 * the board invariant is proved there.
 */
module Boards {
  import opened Wrappers
  import opened Bits
  import opened Consts
  import opened Moves
  import opened Position

  /** `Hand`: a count per kind that can be held, pawn to rook. */
  class Hand {
    const pieces: array<nat>

    ghost predicate Valid()
      reads pieces
    {
      pieces.Length == HAND_SLOTS && ValidHand(pieces[..])
    }

    /** `Hand::new()` */
    constructor ()
      ensures Valid() && fresh(pieces)
      ensures pieces[..] == EmptyHand()
    {
      pieces := new nat[HAND_SLOTS](_ => 0);
      new;
      assert pieces[..] == EmptyHand();
    }

    /** `count(piece)`: indexing the seven slots panics for a promoted kind or the king. */
    function Count(piece: Piece): (r: nat)
      requires Valid() && piece.Idx() < HAND_SLOTS
      reads pieces
      ensures r < U8_LIMIT
      ensures r == pieces[..][piece.Idx()]
    {
      pieces[piece.Idx()]
    }

    /** `has(piece)` */
    function Has(piece: Piece): (r: bool)
      requires Valid() && piece.Idx() < HAND_SLOTS
      reads pieces
      ensures r <==> HandHas(pieces[..], piece)
    {
      pieces[piece.Idx()] > 0
    }

    /** `is_empty()`: every count is 0. */
    function IsEmpty(): (r: bool)
      requires Valid()
      reads pieces
      ensures r <==> HandIsEmpty(pieces[..])
    {
      AllZero(pieces[..])
    }

    /** `add(piece)`: one more of the kind; the `u8` count would overflow at 255. */
    method Add(piece: Piece)
      requires Valid() && piece.Idx() < HAND_SLOTS && pieces[piece.Idx()] < U8_LIMIT - 1
      modifies pieces
      ensures Valid()
      ensures pieces[..] == HandAdd(old(pieces[..]), piece)
    {
      pieces[piece.Idx()] := pieces[piece.Idx()] + 1;
    }

    /** `remove(piece)`: one fewer of the kind; the `u8` count would underflow at 0. */
    method Remove(piece: Piece)
      requires Valid() && piece.Idx() < HAND_SLOTS && pieces[piece.Idx()] > 0
      modifies pieces
      ensures Valid()
      ensures pieces[..] == HandRemove(old(pieces[..]), piece)
    {
      pieces[piece.Idx()] := pieces[piece.Idx()] - 1;
    }

    /** `clear()`: set every count to 0, one slot at a time. */
    method Clear()
      requires Valid()
      modifies pieces
      ensures Valid() && HandIsEmpty(pieces[..])
      ensures pieces[..] == EmptyHand()
    {
      for i := 0 to pieces.Length
        invariant forall j | 0 <= j < i :: pieces[j] == 0
      {
        pieces[i] := 0;
      }
      assert pieces[..] == EmptyHand();
    }
  }

  /** `iter().all(|&x| x == 0)` over a sequence of counts. */
  function AllZero(s: seq<nat>): (r: bool)
    ensures r <==> forall i | 0 <= i < |s| :: s[i] == 0
  {
    if s == [] then true
    else
      assert forall i | 1 <= i < |s| :: s[i] == s[1..][i - 1];
      s[0] == 0 && AllZero(s[1..])
  }

  /** `Board`: the bitboards, the kind on each square, the two hands, the move counter and the side to move. */
  class Board {
    const bb: array<nat>
    const pcs: array<Option<Piece>>
    const sente: Hand
    const gote: Hand
    var moves: nat
    var stm: Side

    /** `hand[side.idx()]` */
    function HandOf(side: Side): Hand
    {
      if side == Sente then sente else gote
    }

    /** The arrays have the source's lengths and do not share storage. */
    ghost predicate Valid()
      reads this, bb, pcs, sente.pieces, gote.pieces
    {
      && bb.Length == PIECE_COUNT + 2
      && pcs.Length == SQUARE_COUNT
      && sente.pieces.Length == HAND_SLOTS && gote.pieces.Length == HAND_SLOTS
      && sente.pieces != gote.pieces && bb != sente.pieces && bb != gote.pieces
      && WellFormed(Model())
    }

    /** The position the board stands for. */
    ghost function Model(): Pos
      reads this, bb, pcs, sente.pieces, gote.pieces
    {
      Pos(bb[..], pcs[..], [sente.pieces[..], gote.pieces[..]], moves, stm)
    }

    /** `Board::new()` */
    constructor ()
      ensures Valid() && fresh(bb) && fresh(pcs) && fresh(sente.pieces) && fresh(gote.pieces)
      ensures Model() == Empty()
    {
      bb := new nat[PIECE_COUNT + 2](_ => 0);
      pcs := new Option<Piece>[SQUARE_COUNT](_ => None);
      sente := new Hand();
      gote := new Hand();
      moves := 0;
      stm := Sente;
      new;
      assert bb[..] == Empty().bb;
      assert pcs[..] == Empty().pcs;
    }

    /** `stm()` */
    function Stm(): (r: Side)
      reads this
      ensures r == Model().stm
    {
      stm
    }

    /** `moves()` */
    function Moves(): (r: nat)
      requires Valid()
      reads this, bb, pcs, sente.pieces, gote.pieces
      ensures r == Model().moves && r < U8_LIMIT
    {
      moves
    }

    /** `pieces(piece, side)` */
    function Pieces(piece: Piece, side: Side): (r: nat)
      requires Valid()
      reads this, bb, pcs, sente.pieces, gote.pieces
      ensures r == Position.Pieces(Model(), piece, side)
    {
      And(bb[piece.Idx()], bb[SideIndex(side)])
    }

    /** `king(side)` */
    function King(side: Side): (r: nat)
      requires Valid()
      reads this, bb, pcs, sente.pieces, gote.pieces
      ensures r == Position.KingBoard(Model(), side)
    {
      Pieces(Consts.King, side)
    }

    /** `side(side)` */
    function SideBoard(side: Side): (r: nat)
      requires Valid()
      reads this, bb, pcs, sente.pieces, gote.pieces
      ensures r == Position.SideBoard(Model(), side)
    {
      bb[SideIndex(side)]
    }

    /** `occ()` */
    function Occ(): (r: nat)
      requires Valid()
      reads this, bb, pcs, sente.pieces, gote.pieces
      ensures r == Position.Occ(Model())
    {
      Or(bb[SideIndex(Sente)], bb[SideIndex(Gote)])
    }

    /** `piece_at(sq)` */
    function PieceAt(sq: nat): (r: Option<Piece>)
      requires Valid() && sq < SQUARE_COUNT
      reads this, bb, pcs, sente.pieces, gote.pieces
      ensures r == Position.PieceAt(Model(), sq)
    {
      pcs[sq]
    }

    /** `side_at(sq)` */
    function SideAt(sq: nat): (r: Option<Side>)
      requires Valid() && sq < SQUARE_COUNT
      reads this, bb, pcs, sente.pieces, gote.pieces
      ensures r == Position.SideAt(Model(), sq)
    {
      if And(bb[SideIndex(Sente)], Bb(sq)) != 0 then Some(Sente)
      else if And(bb[SideIndex(Gote)], Bb(sq)) != 0 then Some(Gote)
      else None
    }

    /** `add_piece(side, piece, sq)` */
    method AddPiece(side: Side, piece: Piece, sq: nat)
      requires Valid() && sq < SQUARE_COUNT
      modifies bb, pcs
      ensures Valid()
      ensures Model() == Position.AddPiece(old(Model()), side, piece, sq)
    {
      ghost var p := Model();
      var b := Bb(sq);
      bb[piece.Idx()] := Or(bb[piece.Idx()], b);
      assert bb[..] == OrAt(p.bb, piece.Idx(), b);
      bb[SideIndex(side)] := Or(bb[SideIndex(side)], b);
      assert bb[..] == OrAt(OrAt(p.bb, piece.Idx(), b), SideIndex(side), b);
      pcs[sq] := Some(piece);
      assert Model() == Position.AddPiece(p, side, piece, sq);
    }

    /** `remove_piece(side, piece, sq)` */
    method RemovePiece(side: Side, piece: Piece, sq: nat)
      requires Valid() && sq < SQUARE_COUNT
      modifies bb, pcs
      ensures Valid()
      ensures Model() == Position.RemovePiece(old(Model()), side, piece, sq)
    {
      ghost var p := Model();
      var b := Bb(sq);
      bb[piece.Idx()] := Xor(bb[piece.Idx()], b);
      assert bb[..] == XorAt(p.bb, piece.Idx(), b);
      bb[SideIndex(side)] := Xor(bb[SideIndex(side)], b);
      assert bb[..] == XorAt(XorAt(p.bb, piece.Idx(), b), SideIndex(side), b);
      pcs[sq] := None;
      assert Model() == Position.RemovePiece(p, side, piece, sq);
    }

    /** `move_piece(side, src_piece, dst_piece, src, dst)` */
    method MovePiece(side: Side, srcPiece: Piece, dstPiece: Piece, src: nat, dst: nat)
      requires Valid() && src < SQUARE_COUNT && dst < SQUARE_COUNT
      modifies this, bb, pcs
      ensures Valid()
      ensures Model() == Position.MovePiece(old(Model()), side, srcPiece, dstPiece, src, dst)
    {
      ghost var p := Model();
      var srcBb := Bb(src);
      var dstBb := Bb(dst);
      bb[srcPiece.Idx()] := Xor(bb[srcPiece.Idx()], srcBb);
      ghost var b1 := XorAt(p.bb, srcPiece.Idx(), srcBb);
      assert bb[..] == b1;
      bb[dstPiece.Idx()] := Xor(bb[dstPiece.Idx()], dstBb);
      ghost var b2 := XorAt(b1, dstPiece.Idx(), dstBb);
      assert bb[..] == b2;
      bb[SideIndex(side)] := Xor(bb[SideIndex(side)], Or(srcBb, dstBb));
      assert bb[..] == XorAt(b2, SideIndex(side), Or(srcBb, dstBb));
      pcs[src] := None;
      pcs[dst] := Some(dstPiece);
      stm := side.Flip();
      assert Model() == Position.MovePiece(p, side, srcPiece, dstPiece, src, dst);
    }

    /** `drop_piece(side, piece, sq)` */
    method DropPiece(side: Side, piece: Piece, sq: nat)
      requires Valid() && sq < SQUARE_COUNT
      requires piece.Idx() < HAND_SLOTS && HandOf(side).pieces[piece.Idx()] > 0
      modifies this, bb, pcs, HandOf(side).pieces
      ensures Valid()
      ensures Model() == Position.DropPiece(old(Model()), side, piece, sq)
    {
      ghost var p := Model();
      var b := Bb(sq);
      bb[piece.Idx()] := Or(bb[piece.Idx()], b);
      assert bb[..] == OrAt(p.bb, piece.Idx(), b);
      bb[SideIndex(side)] := Or(bb[SideIndex(side)], b);
      assert bb[..] == OrAt(OrAt(p.bb, piece.Idx(), b), SideIndex(side), b);
      pcs[sq] := Some(piece);
      assert HandOf(side).Valid() by {
        assert HandOf(side).pieces[..] == p.hand[side.Idx()];
      }
      HandOf(side).Remove(piece);
      stm := side.Flip();
      assert Model() == Position.DropPiece(p, side, piece, sq);
    }

    /**
     * The first half of `make` on a board move: a piece on the destination square is
     * removed from the opponent's boards and added to the mover's hand.
     */
    method Capture(mv: Move)
      requires Valid() && MakeOk(Model(), mv) && !mv.IsDrop()
      modifies bb, pcs, HandOf(stm).pieces
      ensures Valid()
      ensures Model() == Position.Capture(old(Model()), mv)
    {
      ghost var p := Model();
      var dst := mv.Dst();
      var captured := PieceAt(dst);
      if captured.Some? {
        RemovePiece(stm.Flip(), captured.value, dst);
        ghost var r := Model();
        assert HandOf(stm).Valid() by {
          assert HandOf(stm).pieces[..] == r.hand[stm.Idx()];
        }
        HandOf(stm).Add(captured.value);
        assert Model() == r.(hand := r.hand[p.stm.Idx() := HandAdd(r.hand[p.stm.Idx()], captured.value)]);
      }
    }

    /** `make(mv)` */
    method Make(mv: Move)
      requires Valid() && MakeOk(Model(), mv)
      modifies this, bb, pcs, sente.pieces, gote.pieces
      ensures Valid()
      ensures Model() == Position.Make(old(Model()), mv)
    {
      ghost var p := Model();
      ghost var q: Pos;
      if mv.IsDrop() {
        var sq := mv.Dst();
        var piece := mv.DropPiece().value;
        assert piece == FromU8(DropKind(mv));
        DropPiece(stm, piece, sq);
        q := Position.DropPiece(p, p.stm, piece, sq);
      } else {
        var src := mv.Src().value;
        var dst := mv.Dst();
        var srcPiece := PieceAt(src).value;
        var dstPiece := if mv.IsPromo() then srcPiece.ToPromo().value else srcPiece;
        assert dstPiece == ArrivingPiece(p, mv);
        Capture(mv);
        ghost var c := Model();
        MovePiece(stm, srcPiece, dstPiece, src, dst);
        q := Position.MovePiece(c, c.stm, srcPiece, dstPiece, src, dst);
      }
      moves := moves + 1;
      stm := stm.Flip();
      assert Model() == q.(moves := q.moves + 1, stm := q.stm.Flip());
    }

    /** `set_stm(side)` */
    method SetStm(side: Side)
      requires Valid()
      modifies this
      ensures Valid()
      ensures Model() == old(Model()).(stm := side)
    {
      stm := side;
    }

    /** `set_moves(moves)`: the counter is a `u8`. */
    method SetMoves(n: nat)
      requires Valid() && n < U8_LIMIT
      modifies this
      ensures Valid()
      ensures Model() == old(Model()).(moves := n)
    {
      moves := n;
    }

    /** `set_hand(side, hand)`: copy the counts of `hand` into the side's hand. */
    method SetHand(side: Side, hand: Hand)
      requires Valid() && hand.Valid()
      modifies HandOf(side).pieces
      ensures Valid()
      ensures Model() == old(Model()).(hand := old(Model()).hand[side.Idx() := old(hand.pieces[..])])
    {
      ghost var p := Model();
      var target := HandOf(side).pieces;
      var h := hand.pieces[..];
      forall i | 0 <= i < HAND_SLOTS {
        target[i] := h[i];
      }
      assert target[..] == h;
      if side == Sente {
        assert gote.pieces[..] == p.hand[1];
      } else {
        assert sente.pieces[..] == p.hand[0];
      }
      assert Model().hand == p.hand[side.Idx() := h];
    }
  }

}
