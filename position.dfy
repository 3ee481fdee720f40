/**
 * The state of a `Board` (src/board.rs) as a value, the operations on it, and the
 * consistency invariant that ties its redundant parts together.
 *
 * A position holds 16 bitboards (one per piece kind, then one per side at index
 * `14 + side.idx()`), the kind on each of the 81 squares, a hand of seven counts per side,
 * a `u8` move counter and the side to move. The class `Boards.Board` keeps the same state
 * in arrays; its methods are proved to compute the functions below.
 */
module Position {
  import opened Wrappers
  import opened Bits
  import opened Consts
  import opened Moves

  /** The number of kinds a hand can hold: pawn to rook. */
  const HAND_SLOTS: nat := 7

  /** One more than the largest `u8`. */
  const U8_LIMIT: nat := 256

  datatype Pos = Pos(
    bb: seq<nat>,
    pcs: seq<Option<Piece>>,
    hand: seq<seq<nat>>,
    moves: nat,
    stm: Side)

  /** A hand: seven `u8` counts. */
  predicate ValidHand(h: seq<nat>)
  {
    |h| == HAND_SLOTS && forall i | 0 <= i < HAND_SLOTS :: h[i] < U8_LIMIT
  }

  /** Every board in `bb` is below `w`. */
  predicate Below(bb: seq<nat>, w: nat)
  {
    forall k | 0 <= k < |bb| :: bb[k] < w
  }

  /** The shape and the integer widths of the fields of `Board`. */
  predicate WellFormed(p: Pos)
  {
    && |p.bb| == PIECE_COUNT + 2
    && |p.pcs| == SQUARE_COUNT
    && |p.hand| == 2
    && ValidHand(p.hand[0]) && ValidHand(p.hand[1])
    && p.moves < U8_LIMIT
    && Below(p.bb, LIMIT)
  }

  /** The index of a side's bitboard, `side.idx() + Piece::COUNT`. */
  function SideIndex(side: Side): (r: nat)
    ensures PIECE_COUNT <= r < PIECE_COUNT + 2
  {
    PIECE_COUNT + side.Idx()
  }

  /**
   * Square `sq` agrees across the three views: bit `sq` is set in `bb[k]` exactly when
   * `pcs[sq]` holds kind `k`, and in exactly one side board exactly when it is occupied.
   */
  predicate SquareOk(p: Pos, sq: nat)
    requires WellFormed(p) && sq < SQUARE_COUNT
  {
    && (forall k | 0 <= k < PIECE_COUNT ::
          Has(p.bb[k], sq) <==> p.pcs[sq].Some? && p.pcs[sq].value.Idx() == k)
    && (p.pcs[sq].Some? <==> Has(p.bb[PIECE_COUNT], sq) || Has(p.bb[PIECE_COUNT + 1], sq))
    && !(Has(p.bb[PIECE_COUNT], sq) && Has(p.bb[PIECE_COUNT + 1], sq))
  }

  /** The board invariant: every square agrees, and no bitboard names a square off the board. */
  predicate Consistent(p: Pos)
  {
    && WellFormed(p)
    && Below(p.bb, BOARD_LIMIT)
    && (forall sq | 0 <= sq < SQUARE_COUNT :: SquareOk(p, sq))
  }

  /** `Board::new()`: no pieces, empty hands, Sente to move, no moves made. */
  function Empty(): (p: Pos)
    ensures Consistent(p)
  {
    var p := Pos(seq(PIECE_COUNT + 2, _ => 0), seq(SQUARE_COUNT, _ => None),
                 [EmptyHand(), EmptyHand()], 0, Sente);
    forall sq | 0 <= sq < SQUARE_COUNT
      ensures SquareOk(p, sq)
    {
      HasZero(sq);
    }
    p
  }

  /** `Hand::new()` */
  function EmptyHand(): (h: seq<nat>)
    ensures ValidHand(h) && HandIsEmpty(h)
  {
    seq(HAND_SLOTS, _ => 0)
  }

  // ---------------------------------------------------------------------------
  // Hands
  // ---------------------------------------------------------------------------

  /** `Hand::is_empty()`: every count is 0. */
  predicate HandIsEmpty(h: seq<nat>)
  {
    forall i | 0 <= i < |h| :: h[i] == 0
  }

  /** `Hand::add(piece)`: the `u8` count at `piece.idx()` goes up by one. */
  function HandAdd(h: seq<nat>, piece: Piece): (r: seq<nat>)
    requires ValidHand(h) && piece.Idx() < HAND_SLOTS && h[piece.Idx()] < U8_LIMIT - 1
    ensures ValidHand(r)
  {
    h[piece.Idx() := h[piece.Idx()] + 1]
  }

  /** `Hand::remove(piece)`: the count goes down by one; a count of 0 would underflow. */
  function HandRemove(h: seq<nat>, piece: Piece): (r: seq<nat>)
    requires ValidHand(h) && piece.Idx() < HAND_SLOTS && h[piece.Idx()] > 0
    ensures ValidHand(r)
  {
    h[piece.Idx() := h[piece.Idx()] - 1]
  }

  /** `Hand::has(piece)` */
  predicate HandHas(h: seq<nat>, piece: Piece)
    requires ValidHand(h) && piece.Idx() < HAND_SLOTS
  {
    h[piece.Idx()] > 0
  }

  /** Adding a piece and removing it again restores the hand, and so does the reverse. */
  lemma HandAddRemove(h: seq<nat>, piece: Piece)
    requires ValidHand(h) && piece.Idx() < HAND_SLOTS && h[piece.Idx()] < U8_LIMIT - 1
    ensures HandHas(HandAdd(h, piece), piece)
    ensures HandRemove(HandAdd(h, piece), piece) == h
    ensures h[piece.Idx()] > 0 ==> HandAdd(HandRemove(h, piece), piece) == h
  {
  }

  /** `add` changes only the count of the added kind, by exactly one. */
  lemma HandAddCounts(h: seq<nat>, piece: Piece, i: nat)
    requires ValidHand(h) && piece.Idx() < HAND_SLOTS && h[piece.Idx()] < U8_LIMIT - 1
    requires i < HAND_SLOTS
    ensures HandAdd(h, piece)[i] == if i == piece.Idx() then h[i] + 1 else h[i]
    ensures !HandIsEmpty(HandAdd(h, piece))
  {
    assert HandAdd(h, piece)[piece.Idx()] != 0;
  }

  // ---------------------------------------------------------------------------
  // Queries (the read-only methods of Board)
  // ---------------------------------------------------------------------------

  /** `pieces(piece, side)`: `bb[piece.idx()] & bb[side.idx() + 14]`. */
  function Pieces(p: Pos, piece: Piece, side: Side): nat
    requires WellFormed(p)
  {
    And(p.bb[piece.Idx()], p.bb[SideIndex(side)])
  }

  /** `side(side)` */
  function SideBoard(p: Pos, side: Side): nat
    requires WellFormed(p)
  {
    p.bb[SideIndex(side)]
  }

  /** `occ()`: the union of the two side boards. */
  function Occ(p: Pos): nat
    requires WellFormed(p)
  {
    Or(p.bb[SideIndex(Sente)], p.bb[SideIndex(Gote)])
  }

  /** `king(side)` */
  function KingBoard(p: Pos, side: Side): nat
    requires WellFormed(p)
  {
    Pieces(p, King, side)
  }

  /** `king_sq(side)`: `lsb` of the king bitboard. */
  function KingSq(p: Pos, side: Side): nat
    requires WellFormed(p)
  {
    Lsb(KingBoard(p, side))
  }

  /** `king_likes(side)`: king, promoted bishops and promoted rooks. */
  function KingLikes(p: Pos, side: Side): nat
    requires WellFormed(p)
  {
    Or(Or(KingBoard(p, side), Pieces(p, PromotedBishop, side)), Pieces(p, PromotedRook, side))
  }

  /** `bishop_likes(side)`: bishops and promoted bishops. */
  function BishopLikes(p: Pos, side: Side): nat
    requires WellFormed(p)
  {
    Or(Pieces(p, Bishop, side), Pieces(p, PromotedBishop, side))
  }

  /** `rook_likes(side)`: rooks and promoted rooks. */
  function RookLikes(p: Pos, side: Side): nat
    requires WellFormed(p)
  {
    Or(Pieces(p, Rook, side), Pieces(p, PromotedRook, side))
  }

  /** `gold_likes(side)`: golds and the four kinds that move like gold once promoted. */
  function GoldLikes(p: Pos, side: Side): nat
    requires WellFormed(p)
  {
    Or(Or(Or(Or(Pieces(p, Gold, side), Pieces(p, PromotedPawn, side)),
      Pieces(p, PromotedLance, side)), Pieces(p, PromotedKnight, side)),
      Pieces(p, PromotedSilver, side))
  }

  /** `piece_at(sq)`; indexing past square 80 panics. */
  function PieceAt(p: Pos, sq: nat): Option<Piece>
    requires WellFormed(p) && sq < SQUARE_COUNT
  {
    p.pcs[sq]
  }

  /** `side_at(sq)`: Sente's board is looked at first. */
  function SideAt(p: Pos, sq: nat): Option<Side>
    requires WellFormed(p) && sq < SQUARE_COUNT
  {
    if And(p.bb[SideIndex(Sente)], Bb(sq)) != 0 then Some(Sente)
    else if And(p.bb[SideIndex(Gote)], Bb(sq)) != 0 then Some(Gote)
    else None
  }

  /** The side that owns square `sq`, read from the side boards. */
  predicate Owns(p: Pos, side: Side, sq: nat)
    requires WellFormed(p)
  {
    Has(p.bb[SideIndex(side)], sq)
  }

  lemma HasSingle(b: nat, sq: nat)
    requires sq < SQUARE_COUNT
    ensures And(b, Bb(sq)) != 0 <==> Has(b, sq)
  {
    AndPow2(b, sq);
  }

  /** `side_at` names the owner of an occupied square and is `None` on an empty one. */
  lemma SideAtOwner(p: Pos, sq: nat)
    requires Consistent(p) && sq < SQUARE_COUNT
    ensures SideAt(p, sq).Some? <==> p.pcs[sq].Some?
    ensures SideAt(p, sq).Some? ==> Owns(p, SideAt(p, sq).value, sq)
    ensures SideAt(p, sq).Some? ==> !Owns(p, SideAt(p, sq).value.Flip(), sq)
  {
    assert SquareOk(p, sq);
    HasSingle(p.bb[SideIndex(Sente)], sq);
    HasSingle(p.bb[SideIndex(Gote)], sq);
  }

  /** `pieces(k, s)` holds exactly the squares where side `s` has a `k`. */
  lemma PiecesBits(p: Pos, piece: Piece, side: Side, sq: nat)
    requires Consistent(p) && sq < SQUARE_COUNT
    ensures Has(Pieces(p, piece, side), sq) <==> p.pcs[sq] == Some(piece) && Owns(p, side, sq)
  {
    assert SquareOk(p, sq);
    HasAnd(p.bb[piece.Idx()], p.bb[SideIndex(side)], sq);
    if p.pcs[sq].Some? && p.pcs[sq].value.Idx() == piece.Idx() {
      IdxInjective(p.pcs[sq].value, piece);
    }
  }

  /** `occ()` holds exactly the occupied squares. */
  lemma OccBits(p: Pos, sq: nat)
    requires Consistent(p) && sq < SQUARE_COUNT
    ensures Has(Occ(p), sq) <==> p.pcs[sq].Some?
  {
    assert SquareOk(p, sq);
    HasOr(p.bb[SideIndex(Sente)], p.bb[SideIndex(Gote)], sq);
  }

  /** The aggregates hold exactly the squares of the kinds they list. */
  lemma LikesBits(p: Pos, side: Side, sq: nat)
    requires Consistent(p) && sq < SQUARE_COUNT
    ensures Has(KingLikes(p, side), sq) <==>
      Owns(p, side, sq) && p.pcs[sq] in {Some(King), Some(PromotedBishop), Some(PromotedRook)}
    ensures Has(BishopLikes(p, side), sq) <==>
      Owns(p, side, sq) && p.pcs[sq] in {Some(Bishop), Some(PromotedBishop)}
    ensures Has(RookLikes(p, side), sq) <==>
      Owns(p, side, sq) && p.pcs[sq] in {Some(Rook), Some(PromotedRook)}
    ensures Has(GoldLikes(p, side), sq) <==>
      Owns(p, side, sq) && p.pcs[sq] in {Some(Gold), Some(PromotedPawn), Some(PromotedLance),
                                         Some(PromotedKnight), Some(PromotedSilver)}
  {
    PiecesBits(p, King, side, sq);
    PiecesBits(p, PromotedBishop, side, sq);
    PiecesBits(p, PromotedRook, side, sq);
    PiecesBits(p, Bishop, side, sq);
    PiecesBits(p, Rook, side, sq);
    PiecesBits(p, Gold, side, sq);
    PiecesBits(p, PromotedPawn, side, sq);
    PiecesBits(p, PromotedLance, side, sq);
    PiecesBits(p, PromotedKnight, side, sq);
    PiecesBits(p, PromotedSilver, side, sq);
    HasOr(KingBoard(p, side), Pieces(p, PromotedBishop, side), sq);
    HasOr(Or(KingBoard(p, side), Pieces(p, PromotedBishop, side)), Pieces(p, PromotedRook, side), sq);
    HasOr(Pieces(p, Bishop, side), Pieces(p, PromotedBishop, side), sq);
    HasOr(Pieces(p, Rook, side), Pieces(p, PromotedRook, side), sq);
    var g1 := Or(Pieces(p, Gold, side), Pieces(p, PromotedPawn, side));
    var g2 := Or(g1, Pieces(p, PromotedLance, side));
    var g3 := Or(g2, Pieces(p, PromotedKnight, side));
    HasOr(Pieces(p, Gold, side), Pieces(p, PromotedPawn, side), sq);
    HasOr(g1, Pieces(p, PromotedLance, side), sq);
    HasOr(g2, Pieces(p, PromotedKnight, side), sq);
    HasOr(g3, Pieces(p, PromotedSilver, side), sq);
  }

  // ---------------------------------------------------------------------------
  // Mutators
  // ---------------------------------------------------------------------------

  /** OR, XOR keep a value below the width of a `u128` and below the 81 board squares. */
  lemma WidthBounds(a: nat, b: nat)
    ensures a < LIMIT && b < LIMIT ==> Or(a, b) < LIMIT && Xor(a, b) < LIMIT
    ensures a < BOARD_LIMIT && b < BOARD_LIMIT ==> Or(a, b) < BOARD_LIMIT && Xor(a, b) < BOARD_LIMIT
  {
    Pow2Values();
    if a < LIMIT && b < LIMIT {
      OrBound(a, b, 128);
      XorBound(a, b, 128);
    }
    if a < BOARD_LIMIT && b < BOARD_LIMIT {
      OrBound(a, b, 81);
      XorBound(a, b, 81);
    }
  }

  /** The bitboard of a board square lies on the board. */
  lemma BbOnBoard(sq: nat)
    requires sq < SQUARE_COUNT
    ensures Bb(sq) < BOARD_LIMIT
  {
    Pow2Values();
    Pow2Less(sq, 81);
  }

  /** `bb[k] |= m` */
  function OrAt(bb: seq<nat>, k: nat, m: nat): (r: seq<nat>)
    requires k < |bb|
    ensures |r| == |bb|
    ensures Below(bb, LIMIT) && m < LIMIT ==> Below(r, LIMIT)
    ensures Below(bb, BOARD_LIMIT) && m < BOARD_LIMIT ==> Below(r, BOARD_LIMIT)
  {
    WidthBounds(bb[k], m);
    bb[k := Or(bb[k], m)]
  }

  /** `bb[k] ^= m` */
  function XorAt(bb: seq<nat>, k: nat, m: nat): (r: seq<nat>)
    requires k < |bb|
    ensures |r| == |bb|
    ensures Below(bb, LIMIT) && m < LIMIT ==> Below(r, LIMIT)
    ensures Below(bb, BOARD_LIMIT) && m < BOARD_LIMIT ==> Below(r, BOARD_LIMIT)
  {
    WidthBounds(bb[k], m);
    bb[k := Xor(bb[k], m)]
  }

  /** `bb[j] |= m` sets the bits of `m` in board `j` and changes no other board. */
  lemma OrAtBits(bb: seq<nat>, j: nat, m: nat, k: nat, s: nat)
    requires j < |bb| && k < |bb|
    ensures Has(OrAt(bb, j, m)[k], s) <==> Has(bb[k], s) || (k == j && Has(m, s))
  {
    HasOr(bb[j], m, s);
  }

  /** `bb[j] ^= m` flips the bits of `m` in board `j` and changes no other board. */
  lemma XorAtBits(bb: seq<nat>, j: nat, m: nat, k: nat, s: nat)
    requires j < |bb| && k < |bb|
    ensures Has(XorAt(bb, j, m)[k], s) <==> Has(bb[k], s) != (k == j && Has(m, s))
  {
    HasXor(bb[j], m, s);
  }

  /** `add_piece(side, piece, sq)`: OR the square into the kind's and the side's boards. */
  function AddPiece(p: Pos, side: Side, piece: Piece, sq: nat): (r: Pos)
    requires WellFormed(p) && sq < SQUARE_COUNT
    ensures WellFormed(r)
    ensures r.hand == p.hand && r.moves == p.moves && r.stm == p.stm
  {
    p.(bb := OrAt(OrAt(p.bb, piece.Idx(), Bb(sq)), SideIndex(side), Bb(sq)),
       pcs := p.pcs[sq := Some(piece)])
  }

  /** `remove_piece(side, piece, sq)`: XOR the square out of the kind's and the side's boards. */
  function RemovePiece(p: Pos, side: Side, piece: Piece, sq: nat): (r: Pos)
    requires WellFormed(p) && sq < SQUARE_COUNT
    ensures WellFormed(r)
  {
    p.(bb := XorAt(XorAt(p.bb, piece.Idx(), Bb(sq)), SideIndex(side), Bb(sq)),
       pcs := p.pcs[sq := None])
  }

  /**
   * `move_piece(side, src_piece, dst_piece, src, dst)`: XOR `src` out of the source kind's
   * board, then XOR `dst` into the destination kind's board, then XOR both squares in the
   * side's board; finally the side to move becomes the other side.
   */
  function MovePiece(p: Pos, side: Side, srcPiece: Piece, dstPiece: Piece, src: nat, dst: nat): (r: Pos)
    requires WellFormed(p) && src < SQUARE_COUNT && dst < SQUARE_COUNT
    ensures WellFormed(r)
  {
    WidthBounds(Bb(src), Bb(dst));
    var b1 := XorAt(p.bb, srcPiece.Idx(), Bb(src));
    var b2 := XorAt(b1, dstPiece.Idx(), Bb(dst));
    p.(bb := XorAt(b2, SideIndex(side), Or(Bb(src), Bb(dst))),
       pcs := p.pcs[src := None][dst := Some(dstPiece)],
       stm := side.Flip())
  }

  /**
   * `drop_piece(side, piece, sq)`: place the piece as `add_piece` does, take it from the
   * side's hand, and pass the move to the other side. The hand has seven slots and a `u8`
   * count, so the kind is one that can be held and its count is not 0.
   */
  function DropPiece(p: Pos, side: Side, piece: Piece, sq: nat): (r: Pos)
    requires WellFormed(p) && sq < SQUARE_COUNT
    requires piece.Idx() < HAND_SLOTS && p.hand[side.Idx()][piece.Idx()] > 0
    ensures WellFormed(r)
  {
    var q := AddPiece(p, side, piece, sq);
    q.(hand := q.hand[side.Idx() := HandRemove(q.hand[side.Idx()], piece)], stm := side.Flip())
  }

  // ---------------------------------------------------------------------------
  // make
  // ---------------------------------------------------------------------------

  /** The kind a drop move carries, read from bits 0..3. */
  function DropKind(mv: Move): nat
  {
    And(mv.value, 15)
  }

  /**
   * What `make(mv)` needs in order not to panic: the move counter and the hand counts are
   * `u8`s, the hand has seven slots, `unwrap` needs a piece on the source square and a
   * promotable kind when promoting, and `Piece::from` needs a kind index below 14.
   */
  predicate MakeOk(p: Pos, mv: Move)
    requires WellFormed(p)
  {
    && p.moves < U8_LIMIT - 1
    && if mv.IsDrop() then
         && DropKind(mv) < PIECE_COUNT
         && FromU8(DropKind(mv)).Idx() < HAND_SLOTS
         && p.hand[p.stm.Idx()][DropKind(mv)] > 0
       else
         var src := mv.Src().value;
         var dst := mv.Dst();
         && p.pcs[src].Some?
         && (mv.IsPromo() ==> p.pcs[src].value.CanPromote())
         && (p.pcs[dst].Some? ==>
               p.pcs[dst].value.Idx() < HAND_SLOTS
               && p.hand[p.stm.Idx()][p.pcs[dst].value.Idx()] < U8_LIMIT - 1)
  }

  /** The kind that arrives on the destination square of a board move. */
  function ArrivingPiece(p: Pos, mv: Move): Piece
    requires WellFormed(p) && !mv.IsDrop() && p.pcs[mv.Src().value].Some?
    requires mv.IsPromo() ==> p.pcs[mv.Src().value].value.CanPromote()
  {
    var srcPiece := p.pcs[mv.Src().value].value;
    if mv.IsPromo() then srcPiece.ToPromo().value else srcPiece
  }

  /** The first half of `make` on a board move: take a captured piece into the mover's hand. */
  function Capture(p: Pos, mv: Move): (r: Pos)
    requires WellFormed(p) && MakeOk(p, mv) && !mv.IsDrop()
    ensures WellFormed(r) && r.stm == p.stm && r.moves == p.moves
    ensures mv.Src().value != mv.Dst() ==> r.pcs[mv.Src().value] == p.pcs[mv.Src().value]
    ensures r.pcs[mv.Dst()] == None || r.pcs[mv.Dst()] == p.pcs[mv.Dst()]
  {
    var dst := mv.Dst();
    var captured := p.pcs[dst];
    if captured.Some? then
      var q := RemovePiece(p, p.stm.Flip(), captured.value, dst);
      q.(hand := q.hand[p.stm.Idx() := HandAdd(q.hand[p.stm.Idx()], captured.value)])
    else
      p
  }

  /**
   * `make(mv)`. A drop calls `drop_piece`; a board move takes a captured piece into the
   * mover's hand and calls `move_piece`. Both of those already pass the move to the other
   * side, and `make` then flips the side to move once more.
   */
  function Make(p: Pos, mv: Move): (r: Pos)
    requires WellFormed(p) && MakeOk(p, mv)
    ensures WellFormed(r)
  {
    var q :=
      if mv.IsDrop() then
        DropPiece(p, p.stm, FromU8(DropKind(mv)), mv.Dst())
      else
        var c := Capture(p, mv);
        MovePiece(c, c.stm, p.pcs[mv.Src().value].value, ArrivingPiece(p, mv), mv.Src().value, mv.Dst());
    q.(moves := q.moves + 1, stm := q.stm.Flip())
  }

  // ---------------------------------------------------------------------------
  // The invariant under the mutators
  // ---------------------------------------------------------------------------

  /** Bit `i` of a board with square `sq` OR-ed or XOR-ed in. */
  lemma SingleBits(b: nat, sq: nat, i: nat)
    requires sq < SQUARE_COUNT
    ensures Has(Or(b, Bb(sq)), i) <==> Has(b, i) || i == sq
    ensures Has(Xor(b, Bb(sq)), i) <==> Has(b, i) != (i == sq)
  {
    HasOr(b, Bb(sq), i);
    HasXor(b, Bb(sq), i);
  }

  /** The bits of the boards after `add_piece`: bit `sq` is set in the kind's and the side's boards. */
  lemma AddBits(p: Pos, side: Side, piece: Piece, sq: nat, k: nat, s: nat)
    requires WellFormed(p) && sq < SQUARE_COUNT && k < PIECE_COUNT + 2
    ensures Has(AddPiece(p, side, piece, sq).bb[k], s) <==>
      Has(p.bb[k], s) || (s == sq && (k == piece.Idx() || k == SideIndex(side)))
  {
    OrAtBits(p.bb, piece.Idx(), Bb(sq), k, s);
    OrAtBits(OrAt(p.bb, piece.Idx(), Bb(sq)), SideIndex(side), Bb(sq), k, s);
  }

  lemma AddSquare(p: Pos, side: Side, piece: Piece, sq: nat, s: nat)
    requires Consistent(p) && sq < SQUARE_COUNT && p.pcs[sq] == None && s < SQUARE_COUNT
    ensures SquareOk(AddPiece(p, side, piece, sq), s)
  {
    var r := AddPiece(p, side, piece, sq);
    assert SquareOk(p, s);
    forall k | 0 <= k < PIECE_COUNT + 2
      ensures Has(r.bb[k], s) <==> Has(p.bb[k], s) || (s == sq && (k == piece.Idx() || k == SideIndex(side)))
    {
      AddBits(p, side, piece, sq, k, s);
    }
  }

  /**
   * `add_piece` on an empty square sets bit `sq` in the kind's and the side's boards, puts
   * the kind on the square and keeps the board consistent.
   */
  lemma AddPreserves(p: Pos, side: Side, piece: Piece, sq: nat)
    requires Consistent(p) && sq < SQUARE_COUNT && p.pcs[sq] == None
    ensures Consistent(AddPiece(p, side, piece, sq))
    ensures AddPiece(p, side, piece, sq).pcs[sq] == Some(piece)
    ensures Has(AddPiece(p, side, piece, sq).bb[piece.Idx()], sq)
    ensures Owns(AddPiece(p, side, piece, sq), side, sq)
    ensures !Owns(AddPiece(p, side, piece, sq), side.Flip(), sq)
  {
    var r := AddPiece(p, side, piece, sq);
    BbOnBoard(sq);
    forall s | 0 <= s < SQUARE_COUNT
      ensures SquareOk(r, s)
    {
      AddSquare(p, side, piece, sq, s);
    }
    AddBits(p, side, piece, sq, SideIndex(side), sq);
    assert SquareOk(r, sq);
  }

  /** The bits of the boards after `remove_piece`: bit `sq` flips in the kind's and the side's boards. */
  lemma RemoveBits(p: Pos, side: Side, piece: Piece, sq: nat, k: nat, s: nat)
    requires WellFormed(p) && sq < SQUARE_COUNT && k < PIECE_COUNT + 2
    ensures Has(RemovePiece(p, side, piece, sq).bb[k], s) <==>
      Has(p.bb[k], s) != (s == sq && (k == piece.Idx() || k == SideIndex(side)))
  {
    XorAtBits(p.bb, piece.Idx(), Bb(sq), k, s);
    XorAtBits(XorAt(p.bb, piece.Idx(), Bb(sq)), SideIndex(side), Bb(sq), k, s);
  }

  lemma RemoveSquare(p: Pos, side: Side, piece: Piece, sq: nat, s: nat)
    requires Consistent(p) && sq < SQUARE_COUNT && s < SQUARE_COUNT
    requires p.pcs[sq] == Some(piece) && Owns(p, side, sq)
    ensures SquareOk(RemovePiece(p, side, piece, sq), s)
  {
    var r := RemovePiece(p, side, piece, sq);
    assert SquareOk(p, s);
    assert SquareOk(p, sq);
    forall k | 0 <= k < PIECE_COUNT + 2
      ensures Has(r.bb[k], s) <==> Has(p.bb[k], s) != (s == sq && (k == piece.Idx() || k == SideIndex(side)))
    {
      RemoveBits(p, side, piece, sq, k, s);
    }
  }

  /**
   * `remove_piece` XORs, so it needs the piece to be there: with `pcs[sq] == Some(piece)`
   * and the square in the side's board it empties the square and keeps the board
   * consistent.
   */
  lemma RemovePreserves(p: Pos, side: Side, piece: Piece, sq: nat)
    requires Consistent(p) && sq < SQUARE_COUNT
    requires p.pcs[sq] == Some(piece) && Owns(p, side, sq)
    ensures Consistent(RemovePiece(p, side, piece, sq))
    ensures RemovePiece(p, side, piece, sq).pcs[sq] == None
  {
    var r := RemovePiece(p, side, piece, sq);
    BbOnBoard(sq);
    forall s | 0 <= s < SQUARE_COUNT
      ensures SquareOk(r, s)
    {
      RemoveSquare(p, side, piece, sq, s);
    }
  }

  /** `remove_piece` undoes `add_piece` on a square that was empty. */
  lemma RemoveUndoesAdd(p: Pos, side: Side, piece: Piece, sq: nat)
    requires Consistent(p) && sq < SQUARE_COUNT && p.pcs[sq] == None
    ensures RemovePiece(AddPiece(p, side, piece, sq), side, piece, sq) == p
  {
    var q := AddPiece(p, side, piece, sq);
    var r := RemovePiece(q, side, piece, sq);
    assert SquareOk(p, sq);
    forall k | 0 <= k < PIECE_COUNT + 2
      ensures r.bb[k] == p.bb[k]
    {
      forall i: nat
        ensures Has(r.bb[k], i) == Has(p.bb[k], i)
      {
        AddBits(p, side, piece, sq, k, i);
        RemoveBits(q, side, piece, sq, k, i);
      }
      Extensional(r.bb[k], p.bb[k]);
    }
    assert r.bb == p.bb;
    assert r.pcs == p.pcs;
  }

  /**
   * The bits of the boards after `move_piece`: bit `src` flips in the source kind's board,
   * bit `dst` in the destination kind's board, and both in the side's board.
   */
  lemma MoveBits(p: Pos, side: Side, srcPiece: Piece, dstPiece: Piece, src: nat, dst: nat, k: nat, s: nat)
    requires WellFormed(p) && src < SQUARE_COUNT && dst < SQUARE_COUNT && k < PIECE_COUNT + 2
    ensures Has(MovePiece(p, side, srcPiece, dstPiece, src, dst).bb[k], s) <==>
      (Has(p.bb[k], s) != ((k == srcPiece.Idx() && s == src) != (k == dstPiece.Idx() && s == dst)))
        != (k == SideIndex(side) && (s == src || s == dst))
  {
    MoveBitsOf(p.bb, srcPiece.Idx(), dstPiece.Idx(), SideIndex(side), src, dst, k, s);
  }

  /** The three XORs of `move_piece`, on a sequence of boards. */
  lemma MoveBitsOf(bb: seq<nat>, i: nat, j: nat, l: nat, src: nat, dst: nat, k: nat, s: nat)
    requires i < |bb| && j < |bb| && l < |bb| && k < |bb| && src < 128 && dst < 128
    ensures Has(XorAt(XorAt(XorAt(bb, i, Bb(src)), j, Bb(dst)), l, Or(Bb(src), Bb(dst)))[k], s) <==>
      (Has(bb[k], s) != ((k == i && s == src) != (k == j && s == dst))) != (k == l && (s == src || s == dst))
  {
    var b1 := XorAt(bb, i, Bb(src));
    var b2 := XorAt(b1, j, Bb(dst));
    XorAtBits(bb, i, Bb(src), k, s);
    XorAtBits(b1, j, Bb(dst), k, s);
    XorAtBits(b2, l, Or(Bb(src), Bb(dst)), k, s);
    HasOr(Bb(src), Bb(dst), s);
  }

  lemma MoveSquare(p: Pos, side: Side, srcPiece: Piece, dstPiece: Piece, src: nat, dst: nat, s: nat)
    requires Consistent(p) && src < SQUARE_COUNT && dst < SQUARE_COUNT && src != dst && s < SQUARE_COUNT
    requires p.pcs[src] == Some(srcPiece) && Owns(p, side, src) && p.pcs[dst] == None
    ensures SquareOk(MovePiece(p, side, srcPiece, dstPiece, src, dst), s)
  {
    if s == src {
      MoveSquareSrc(p, side, srcPiece, dstPiece, src, dst, s);
    } else if s == dst {
      MoveSquareDst(p, side, srcPiece, dstPiece, src, dst, s);
    } else {
      MoveSquareOther(p, side, srcPiece, dstPiece, src, dst, s);
    }
  }

  lemma MoveSquareSrc(p: Pos, side: Side, srcPiece: Piece, dstPiece: Piece, src: nat, dst: nat, s: nat)
    requires Consistent(p) && src < SQUARE_COUNT && dst < SQUARE_COUNT && src != dst && s < SQUARE_COUNT
    requires p.pcs[src] == Some(srcPiece) && Owns(p, side, src) && p.pcs[dst] == None
    requires s == src
    ensures SquareOk(MovePiece(p, side, srcPiece, dstPiece, src, dst), s)
  {
    var r := MovePiece(p, side, srcPiece, dstPiece, src, dst);
    assert SquareOk(p, s);
    assert r.pcs[s] == None;
    forall k | 0 <= k < PIECE_COUNT
      ensures !Has(r.bb[k], s)
    {
      MoveBits(p, side, srcPiece, dstPiece, src, dst, k, s);
    }
    MoveBits(p, side, srcPiece, dstPiece, src, dst, SideIndex(side), s);
    MoveBits(p, side, srcPiece, dstPiece, src, dst, SideIndex(side.Flip()), s);
    assert !Has(r.bb[SideIndex(side)], s) && !Has(r.bb[SideIndex(side.Flip())], s);
  }

  lemma MoveSquareDst(p: Pos, side: Side, srcPiece: Piece, dstPiece: Piece, src: nat, dst: nat, s: nat)
    requires Consistent(p) && src < SQUARE_COUNT && dst < SQUARE_COUNT && src != dst && s < SQUARE_COUNT
    requires p.pcs[src] == Some(srcPiece) && Owns(p, side, src) && p.pcs[dst] == None
    requires s == dst
    ensures SquareOk(MovePiece(p, side, srcPiece, dstPiece, src, dst), s)
  {
    var r := MovePiece(p, side, srcPiece, dstPiece, src, dst);
    assert SquareOk(p, s);
    forall k | 0 <= k < PIECE_COUNT + 2
      ensures Has(r.bb[k], s) <==> Has(p.bb[k], s) != (k == dstPiece.Idx() || k == SideIndex(side))
    {
      MoveBits(p, side, srcPiece, dstPiece, src, dst, k, s);
    }
  }

  lemma MoveSquareOther(p: Pos, side: Side, srcPiece: Piece, dstPiece: Piece, src: nat, dst: nat, s: nat)
    requires Consistent(p) && src < SQUARE_COUNT && dst < SQUARE_COUNT && src != dst && s < SQUARE_COUNT
    requires p.pcs[src] == Some(srcPiece) && Owns(p, side, src) && p.pcs[dst] == None
    requires s != src && s != dst
    ensures SquareOk(MovePiece(p, side, srcPiece, dstPiece, src, dst), s)
  {
    var r := MovePiece(p, side, srcPiece, dstPiece, src, dst);
    assert SquareOk(p, s);
    forall k | 0 <= k < PIECE_COUNT + 2
      ensures Has(r.bb[k], s) <==> Has(p.bb[k], s)
    {
      MoveBits(p, side, srcPiece, dstPiece, src, dst, k, s);
    }
  }

  /**
   * `move_piece` of the side's `src_piece` from `src` to an empty `dst` keeps the board
   * consistent, moves the (possibly promoted) kind and passes the move to the other side.
   */
  lemma MovePreserves(p: Pos, side: Side, srcPiece: Piece, dstPiece: Piece, src: nat, dst: nat)
    requires Consistent(p) && src < SQUARE_COUNT && dst < SQUARE_COUNT && src != dst
    requires p.pcs[src] == Some(srcPiece) && Owns(p, side, src) && p.pcs[dst] == None
    ensures Consistent(MovePiece(p, side, srcPiece, dstPiece, src, dst))
    ensures MovePiece(p, side, srcPiece, dstPiece, src, dst).pcs[src] == None
    ensures MovePiece(p, side, srcPiece, dstPiece, src, dst).pcs[dst] == Some(dstPiece)
    ensures Owns(MovePiece(p, side, srcPiece, dstPiece, src, dst), side, dst)
    ensures MovePiece(p, side, srcPiece, dstPiece, src, dst).stm == side.Flip()
  {
    var r := MovePiece(p, side, srcPiece, dstPiece, src, dst);
    BbOnBoard(src);
    BbOnBoard(dst);
    WidthBounds(Bb(src), Bb(dst));
    forall s | 0 <= s < SQUARE_COUNT
      ensures SquareOk(r, s)
    {
      MoveSquare(p, side, srcPiece, dstPiece, src, dst, s);
    }
    MoveBits(p, side, srcPiece, dstPiece, src, dst, SideIndex(side), dst);
    assert SquareOk(p, dst);
  }

  /**
   * `drop_piece` on an empty square keeps the board consistent, places the piece, takes
   * one from the side's hand and passes the move to the other side.
   */
  lemma DropPreserves(p: Pos, side: Side, piece: Piece, sq: nat)
    requires Consistent(p) && sq < SQUARE_COUNT && p.pcs[sq] == None
    requires piece.Idx() < HAND_SLOTS && p.hand[side.Idx()][piece.Idx()] > 0
    ensures Consistent(DropPiece(p, side, piece, sq))
    ensures DropPiece(p, side, piece, sq).pcs[sq] == Some(piece)
    ensures DropPiece(p, side, piece, sq).hand[side.Idx()][piece.Idx()] == p.hand[side.Idx()][piece.Idx()] - 1
    ensures DropPiece(p, side, piece, sq).hand[side.Flip().Idx()] == p.hand[side.Flip().Idx()]
    ensures DropPiece(p, side, piece, sq).stm == side.Flip()
  {
    AddPreserves(p, side, piece, sq);
    var q := AddPiece(p, side, piece, sq);
    var r := DropPiece(p, side, piece, sq);
    assert r.bb == q.bb && r.pcs == q.pcs;
    forall s | 0 <= s < SQUARE_COUNT
      ensures SquareOk(r, s)
    {
      assert SquareOk(q, s);
    }
  }

  /**
   * `make` counts one more move and, because `drop_piece`/`move_piece` already flipped the
   * side to move, hands the move back to the side that just moved.
   */
  lemma MakeSideAndCount(p: Pos, mv: Move)
    requires WellFormed(p) && MakeOk(p, mv)
    ensures Make(p, mv).moves == p.moves + 1
    ensures Make(p, mv).stm == p.stm
  {
  }

  /**
   * On a capture `make` empties the opponent's piece from `dst`, adds its kind to the
   * mover's hand, and leaves the moved piece on `dst`. `make`'s own precondition shows that
   * only a captured kind with index below 7 fits the hand.
   */
  lemma MakeCapture(p: Pos, mv: Move)
    requires Consistent(p) && MakeOk(p, mv) && !mv.IsDrop()
    requires mv.Src().value != mv.Dst()
    requires Owns(p, p.stm, mv.Src().value)
    requires p.pcs[mv.Dst()].Some? && Owns(p, p.stm.Flip(), mv.Dst())
    ensures Consistent(Make(p, mv))
    ensures var k := p.pcs[mv.Dst()].value;
      Make(p, mv).hand[p.stm.Idx()][k.Idx()] == p.hand[p.stm.Idx()][k.Idx()] + 1
    ensures Make(p, mv).hand[p.stm.Flip().Idx()] == p.hand[p.stm.Flip().Idx()]
    ensures Make(p, mv).pcs[mv.Dst()] == Some(ArrivingPiece(p, mv))
    ensures Owns(Make(p, mv), p.stm, mv.Dst())
    ensures Make(p, mv).pcs[mv.Src().value] == None
    ensures Occupied(Make(p, mv).pcs) + 1 == Occupied(p.pcs)
    ensures forall s | 0 <= s < SQUARE_COUNT && s != mv.Src().value && s != mv.Dst() ::
              Make(p, mv).pcs[s] == p.pcs[s]
  {
    var dst := mv.Dst();
    var src := mv.Src().value;
    var k := p.pcs[dst].value;
    assert Make(p, mv).pcs == p.pcs[dst := None][src := None][dst := Some(ArrivingPiece(p, mv))];
    RemovePreserves(p, p.stm.Flip(), k, dst);
    var q := RemovePiece(p, p.stm.Flip(), k, dst);
    var c := Capture(p, mv);
    assert c.bb == q.bb && c.pcs == q.pcs;
    assert SquareOk(p, src);
    forall s | 0 <= s < SQUARE_COUNT
      ensures SquareOk(c, s)
    {
      assert SquareOk(q, s);
    }
    assert Owns(c, p.stm, src) by {
      assert c.bb[SideIndex(p.stm)] == Xor(p.bb[SideIndex(p.stm)], 0) || c.bb[SideIndex(p.stm)] == p.bb[SideIndex(p.stm)];
    }
    MovePreserves(c, c.stm, p.pcs[src].value, ArrivingPiece(p, mv), src, dst);
    var m := MovePiece(c, c.stm, p.pcs[src].value, ArrivingPiece(p, mv), src, dst);
    forall s | 0 <= s < SQUARE_COUNT
      ensures SquareOk(Make(p, mv), s)
    {
      assert SquareOk(m, s);
    }
    CaptureCount(p.pcs, src, dst, ArrivingPiece(p, mv));
  }

  /** The number of occupied squares. */
  function Occupied(pcs: seq<Option<Piece>>): nat
  {
    if pcs == [] then 0 else Occupied(pcs[..|pcs| - 1]) + (if pcs[|pcs| - 1].Some? then 1 else 0)
  }

  lemma {:induction false} OccupiedUpdate(pcs: seq<Option<Piece>>, i: nat, x: Option<Piece>)
    requires i < |pcs|
    ensures Occupied(pcs[i := x]) + (if pcs[i].Some? then 1 else 0)
         == Occupied(pcs) + (if x.Some? then 1 else 0)
    decreases |pcs|
  {
    var n := |pcs| - 1;
    assert pcs[i := x][..n] == if i < n then pcs[..n][i := x] else pcs[..n];
    if i < n {
      OccupiedUpdate(pcs[..n], i, x);
    }
  }

  /** Emptying two occupied squares and refilling one of them leaves one occupied square fewer. */
  lemma CaptureCount(pcs: seq<Option<Piece>>, src: nat, dst: nat, x: Piece)
    requires src < |pcs| && dst < |pcs| && src != dst && pcs[src].Some? && pcs[dst].Some?
    ensures Occupied(pcs[dst := None][src := None][dst := Some(x)]) + 1 == Occupied(pcs)
  {
    OccupiedUpdate(pcs, dst, None);
    OccupiedUpdate(pcs[dst := None], src, None);
    OccupiedUpdate(pcs[dst := None][src := None], dst, Some(x));
  }

  /**
   * A board move that neither drops nor captures, promoting or not, keeps both hands and the
   * number of occupied squares, and keeps the board consistent.
   */
  lemma MakeQuiet(p: Pos, mv: Move)
    requires Consistent(p) && MakeOk(p, mv) && !mv.IsDrop()
    requires mv.Src().value != mv.Dst() && p.pcs[mv.Dst()] == None
    requires Owns(p, p.stm, mv.Src().value)
    ensures Consistent(Make(p, mv))
    ensures Make(p, mv).hand == p.hand
    ensures Occupied(Make(p, mv).pcs) == Occupied(p.pcs)
  {
    var src := mv.Src().value;
    var dst := mv.Dst();
    assert Capture(p, mv) == p;
    MovePreserves(p, p.stm, p.pcs[src].value, ArrivingPiece(p, mv), src, dst);
    var m := MovePiece(p, p.stm, p.pcs[src].value, ArrivingPiece(p, mv), src, dst);
    forall s | 0 <= s < SQUARE_COUNT
      ensures SquareOk(Make(p, mv), s)
    {
      assert SquareOk(m, s);
    }
    OccupiedUpdate(p.pcs, src, None);
    OccupiedUpdate(p.pcs[src := None], dst, Some(ArrivingPiece(p, mv)));
  }

  /** A drop on an empty square keeps the board consistent and takes the piece from the hand. */
  lemma MakeDrop(p: Pos, mv: Move)
    requires Consistent(p) && MakeOk(p, mv) && mv.IsDrop() && p.pcs[mv.Dst()] == None
    ensures Consistent(Make(p, mv))
    ensures Make(p, mv).pcs[mv.Dst()] == Some(FromU8(DropKind(mv)))
    ensures Make(p, mv).hand[p.stm.Idx()][DropKind(mv)] == p.hand[p.stm.Idx()][DropKind(mv)] - 1
  {
    var piece := FromU8(DropKind(mv));
    DropPreserves(p, p.stm, piece, mv.Dst());
    var d := DropPiece(p, p.stm, piece, mv.Dst());
    forall s | 0 <= s < SQUARE_COUNT
      ensures SquareOk(Make(p, mv), s)
    {
      assert SquareOk(d, s);
    }
  }


  // ---------------------------------------------------------------------------
  // A corrected `make`
  // ---------------------------------------------------------------------------

  /** The unpromoted kind of a piece: what a captured piece becomes in the capturer's hand. */
  function Unpromoted(k: Piece): (r: Piece)
    ensures !r.IsPromoted()
    ensures k.IsPromoted() ==> r.ToPromo() == Some(k)
    ensures !k.IsPromoted() ==> r == k
  {
    match k
    case PromotedPawn => Pawn
    case PromotedLance => Lance
    case PromotedKnight => Knight
    case PromotedSilver => Silver
    case PromotedBishop => Bishop
    case PromotedRook => Rook
    case _ => k
  }

  /** Every captured kind but the king has a hand slot once unpromoted. */
  lemma UnpromotedFitsHand(k: Piece)
    ensures Unpromoted(k).Idx() < HAND_SLOTS <==> k != King
  {
  }

  /**
   * `make` adds the captured kind itself to the hand, whose seven slots hold only the
   * unpromoted kinds: capturing a promoted piece indexes past the hand and panics, so no
   * position lets `make` capture one.
   */
  lemma CapturePromotedPanics(p: Pos, mv: Move)
    requires WellFormed(p) && !mv.IsDrop()
    requires p.pcs[mv.Dst()].Some? && p.pcs[mv.Dst()].value.IsPromoted()
    ensures !MakeOk(p, mv)
  {
  }

  /** What the corrected `make` needs: as `MakeOk`, with the hand slot of the unpromoted captured kind. */
  predicate MakeOkFixed(p: Pos, mv: Move)
    requires WellFormed(p)
  {
    && p.moves < U8_LIMIT - 1
    && if mv.IsDrop() then
         && DropKind(mv) < PIECE_COUNT
         && FromU8(DropKind(mv)).Idx() < HAND_SLOTS
         && p.hand[p.stm.Idx()][DropKind(mv)] > 0
       else
         var src := mv.Src().value;
         var dst := mv.Dst();
         && p.pcs[src].Some?
         && (mv.IsPromo() ==> p.pcs[src].value.CanPromote())
         && (p.pcs[dst].Some? ==>
               Unpromoted(p.pcs[dst].value).Idx() < HAND_SLOTS
               && p.hand[p.stm.Idx()][Unpromoted(p.pcs[dst].value).Idx()] < U8_LIMIT - 1)
  }

  /** Every move the source accepts, the corrected `make` accepts too. */
  lemma MakeOkFixedWeaker(p: Pos, mv: Move)
    requires WellFormed(p) && MakeOk(p, mv)
    ensures MakeOkFixed(p, mv)
  {
    if !mv.IsDrop() && p.pcs[mv.Dst()].Some? {
      HandKinds(p.pcs[mv.Dst()].value);
    }
  }

  /** The corrected capture step: the captured piece goes into the hand unpromoted. */
  function CaptureFixed(p: Pos, mv: Move): (r: Pos)
    requires WellFormed(p) && MakeOkFixed(p, mv) && !mv.IsDrop()
    ensures WellFormed(r) && r.stm == p.stm && r.moves == p.moves
  {
    var dst := mv.Dst();
    var captured := p.pcs[dst];
    if captured.Some? then
      var q := RemovePiece(p, p.stm.Flip(), captured.value, dst);
      q.(hand := q.hand[p.stm.Idx() := HandAdd(q.hand[p.stm.Idx()], Unpromoted(captured.value))])
    else
      p
  }

  /**
   * The corrected `make`: the captured piece is demoted before it is held, and the side to
   * move is flipped once, by `drop_piece` or `move_piece`.
   */
  function MakeFixed(p: Pos, mv: Move): (r: Pos)
    requires WellFormed(p) && MakeOkFixed(p, mv)
    ensures WellFormed(r)
  {
    var q :=
      if mv.IsDrop() then
        DropPiece(p, p.stm, FromU8(DropKind(mv)), mv.Dst())
      else
        var c := CaptureFixed(p, mv);
        MovePiece(c, c.stm, p.pcs[mv.Src().value].value, ArrivingPiece(p, mv), mv.Src().value, mv.Dst());
    q.(moves := q.moves + 1)
  }

  /** The corrected `make` passes the turn to the opponent and counts one more move. */
  lemma MakeFixedPassesTurn(p: Pos, mv: Move)
    requires WellFormed(p) && MakeOkFixed(p, mv)
    ensures MakeFixed(p, mv).stm == p.stm.Flip()
    ensures MakeFixed(p, mv).moves == p.moves + 1
  {
  }

  /** Where the source does not panic, the corrected `make` differs from it only in the side to move. */
  lemma MakeFixedAgrees(p: Pos, mv: Move)
    requires WellFormed(p) && MakeOk(p, mv)
    ensures MakeOkFixed(p, mv)
    ensures MakeFixed(p, mv) == Make(p, mv).(stm := p.stm.Flip())
  {
    MakeOkFixedWeaker(p, mv);
    if !mv.IsDrop() && p.pcs[mv.Dst()].Some? {
      HandKinds(p.pcs[mv.Dst()].value);
      assert Unpromoted(p.pcs[mv.Dst()].value) == p.pcs[mv.Dst()].value;
      assert CaptureFixed(p, mv) == Capture(p, mv);
    }
  }

  /**
   * On a capture, promoted pieces included, the corrected `make` keeps the board
   * consistent, adds the unpromoted kind to the mover's hand and passes the turn.
   */
  lemma MakeFixedCapture(p: Pos, mv: Move)
    requires Consistent(p) && MakeOkFixed(p, mv) && !mv.IsDrop()
    requires mv.Src().value != mv.Dst()
    requires Owns(p, p.stm, mv.Src().value)
    requires p.pcs[mv.Dst()].Some? && Owns(p, p.stm.Flip(), mv.Dst())
    ensures Consistent(MakeFixed(p, mv))
    ensures var k := Unpromoted(p.pcs[mv.Dst()].value);
      MakeFixed(p, mv).hand[p.stm.Idx()][k.Idx()] == p.hand[p.stm.Idx()][k.Idx()] + 1
    ensures MakeFixed(p, mv).hand[p.stm.Flip().Idx()] == p.hand[p.stm.Flip().Idx()]
    ensures MakeFixed(p, mv).pcs[mv.Dst()] == Some(ArrivingPiece(p, mv))
    ensures Owns(MakeFixed(p, mv), p.stm, mv.Dst())
    ensures MakeFixed(p, mv).pcs[mv.Src().value] == None
    ensures Occupied(MakeFixed(p, mv).pcs) + 1 == Occupied(p.pcs)
    ensures forall s | 0 <= s < SQUARE_COUNT && s != mv.Src().value && s != mv.Dst() ::
              MakeFixed(p, mv).pcs[s] == p.pcs[s]
    ensures MakeFixed(p, mv).stm == p.stm.Flip()
  {
    var dst := mv.Dst();
    var src := mv.Src().value;
    var k := p.pcs[dst].value;
    assert MakeFixed(p, mv).pcs == p.pcs[dst := None][src := None][dst := Some(ArrivingPiece(p, mv))];
    RemovePreserves(p, p.stm.Flip(), k, dst);
    var q := RemovePiece(p, p.stm.Flip(), k, dst);
    var c := CaptureFixed(p, mv);
    assert c.bb == q.bb && c.pcs == q.pcs;
    assert SquareOk(p, src);
    forall s | 0 <= s < SQUARE_COUNT
      ensures SquareOk(c, s)
    {
      assert SquareOk(q, s);
    }
    assert Owns(c, p.stm, src) by {
      assert c.bb[SideIndex(p.stm)] == Xor(p.bb[SideIndex(p.stm)], 0) || c.bb[SideIndex(p.stm)] == p.bb[SideIndex(p.stm)];
    }
    MovePreserves(c, c.stm, p.pcs[src].value, ArrivingPiece(p, mv), src, dst);
    var m := MovePiece(c, c.stm, p.pcs[src].value, ArrivingPiece(p, mv), src, dst);
    forall s | 0 <= s < SQUARE_COUNT
      ensures SquareOk(MakeFixed(p, mv), s)
    {
      assert SquareOk(m, s);
    }
    CaptureCount(p.pcs, src, dst, ArrivingPiece(p, mv));
  }
}
