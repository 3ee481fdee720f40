/**
 * Move generation (src/movegen.rs).
 *
 * `generate_moves` creates a list and returns it empty. `generate_king_moves` takes the side
 * to move, the lowest set bit of its king bitboard as the source square, and pops the bits of
 * the king's table entry less the mover's own pieces, emitting one non-promoting move per bit,
 * lowest square first.
 */
module MoveGen {
  import opened Wrappers
  import opened Bits
  import opened Consts
  import opened Moves
  import opened Position
  import opened Boards
  import opened Steps
  import opened Attacks

  /** The set squares of `b`, lowest first: the order in which a pop loop visits them. */
  function Targets(b: nat): (r: seq<nat>)
    ensures |r| == Count(b)
    decreases b
  {
    if b == 0 then [] else PopCount(b); [Lsb(b)] + Targets(Pop(b))
  }

  /** The moves a pop loop over the destinations `b` emits from `src`. */
  function MovesOf(src: nat, b: nat): (r: seq<Move>)
    requires src < 81 && b < BOARD_LIMIT
    decreases b
  {
    if b == 0 then []
    else
      OnBoardBits(b, Lsb(b));
      [New(src, Lsb(b), false)] + MovesOf(src, Pop(b))
  }

  /** One round of the pop loop moves the lowest destination's move from the pending moves to the list. */
  lemma MovesOfStep(done: seq<Move>, src: nat, b: nat)
    requires src < 81 && 0 < b < BOARD_LIMIT
    ensures Lsb(b) < 81
    ensures done + MovesOf(src, b) == (done + [New(src, Lsb(b), false)]) + MovesOf(src, Pop(b))
  {
    OnBoardBits(b, Lsb(b));
  }

  /** `attacks::king(src) & !board.side(stm)`: the king's destinations. */
  function KingTargets(src: nat, own: nat): nat
    requires src < 81 && own < LIMIT
  {
    And(Attacks.King(src), Not(own))
  }

  /** `generate_moves(board)`: a new, empty move list. */
  method GenerateMoves(board: Board) returns (moves: MoveList)
    requires board.Valid()
    ensures fresh(moves) && moves.Valid()
    ensures moves.IsEmpty() && moves.Iter() == []
  {
    moves := new MoveList();
    var stm := board.Stm();
  }

  /**
   * The pop loop of `generate_king_moves`: one `Move::new(src, dst, false)` per set bit of
   * `targets`, lowest first. `Move::new` asserts that every destination is a square, and
   * `MoveList::add` that the list has room.
   */
  method PushMoves(moveList: MoveList, src: nat, targets: nat)
    requires moveList.Valid() && src < 81 && targets < BOARD_LIMIT
    requires moveList.len + Count(targets) <= CAPACITY
    modifies moveList
    ensures moveList.Valid()
    ensures moveList.list == old(moveList.list) + MovesOf(src, targets)
  {
    var attacks: nat := targets;
    while attacks != 0
      invariant moveList.Valid() && attacks < BOARD_LIMIT
      invariant moveList.len + Count(attacks) <= CAPACITY
      invariant moveList.list + MovesOf(src, attacks) == old(moveList.list) + MovesOf(src, targets)
      decreases attacks
    {
      var dst := Lsb(attacks);
      OnBoardBits(attacks, dst);
      PopCount(attacks);
      MovesOfStep(moveList.list, src, attacks);
      moveList.Add(New(src, dst, false));
      attacks := Pop(attacks);
    }
  }

  /**
   * `generate_king_moves(move_list, board)`. The source needs the king square to index the
   * 81-entry table (an empty king bitboard gives `lsb` = 128), every destination to pass
   * `Move::new`'s assert, and the list to have room.
   */
  method GenerateKingMoves(moveList: MoveList, board: Board)
    requires board.Valid() && moveList.Valid()
    requires Lsb(board.King(board.Stm())) < 81
    requires KingTargets(Lsb(board.King(board.Stm())), board.SideBoard(board.Stm())) < BOARD_LIMIT
    requires moveList.len + Count(KingTargets(Lsb(board.King(board.Stm())), board.SideBoard(board.Stm())))
             <= CAPACITY
    modifies moveList
    ensures moveList.Valid()
    ensures moveList.list == old(moveList.list) +
              MovesOf(Lsb(board.King(board.Stm())), KingTargets(Lsb(board.King(board.Stm())), board.SideBoard(board.Stm())))
  {
    var stm := board.Stm();
    var king := board.King(stm);
    var src := Lsb(king);
    var attacks := And(Attacks.King(src), Not(board.SideBoard(stm)));
    PushMoves(moveList, src, attacks);
  }

  // ---------------------------------------------------------------------------
  // What the pop loop emits
  // ---------------------------------------------------------------------------

  /** The pop order lists exactly the set bits. */
  lemma {:induction false} TargetsBits(b: nat, t: nat)
    ensures t in Targets(b) <==> Has(b, t)
    decreases b
  {
    if b == 0 {
      HasZero(t);
    } else {
      TargetsBits(Pop(b), t);
    }
  }

  /** The pop order is strictly increasing. */
  lemma {:induction false} TargetsIncreasing(b: nat)
    ensures forall i, j | 0 <= i < j < |Targets(b)| :: Targets(b)[i] < Targets(b)[j]
    decreases b
  {
    if b != 0 {
      var rest := Targets(Pop(b));
      TargetsIncreasing(Pop(b));
      forall j | 0 <= j < |rest|
        ensures Lsb(b) < rest[j]
      {
        TargetsBits(Pop(b), rest[j]);
      }
    }
  }

  /** The `i`-th move of the loop goes from `src` to the `i`-th set bit, and the moves are as many as the bits. */
  lemma {:induction false} MovesOfTargets(src: nat, b: nat)
    requires src < 81 && b < BOARD_LIMIT
    ensures |MovesOf(src, b)| == |Targets(b)|
    ensures forall i | 0 <= i < |Targets(b)| :: Targets(b)[i] < 81 && MovesOf(src, b)[i] == New(src, Targets(b)[i], false)
    decreases b
  {
    if b != 0 {
      OnBoardBits(b, Lsb(b));
      MovesOfTargets(src, Pop(b));
    }
  }

  /** A destination of the king is a square of its table entry that the mover does not occupy. */
  lemma KingTargetsBits(src: nat, own: nat, t: nat)
    requires src < 81 && own < LIMIT
    ensures Has(KingTargets(src, own), t) <==> Has(Attacks.King(src), t) && !Has(own, t)
  {
    HasAnd(Attacks.King(src), Not(own), t);
    HasNot(own, t);
    if Has(Attacks.King(src), t) {
      KingSteps(src, t);
    }
  }

  /**
   * `generate_king_moves` visits the king's destinations once each, in increasing square order:
   * exactly the squares of its table entry that the mover does not occupy.
   */
  lemma KingMoveTargets(src: nat, own: nat)
    requires src < 81 && own < LIMIT
    ensures |Targets(KingTargets(src, own))| == Count(KingTargets(src, own))
    ensures forall t :: t in Targets(KingTargets(src, own)) <==> Has(Attacks.King(src), t) && !Has(own, t)
    ensures forall i, j | 0 <= i < j < |Targets(KingTargets(src, own))| ::
              Targets(KingTargets(src, own))[i] < Targets(KingTargets(src, own))[j]
  {
    var b := KingTargets(src, own);
    TargetsIncreasing(b);
    forall t
      ensures t in Targets(b) <==> Has(Attacks.King(src), t) && !Has(own, t)
    {
      TargetsBits(b, t);
      KingTargetsBits(src, own, t);
    }
  }

  /**
   * Each move `generate_king_moves` emits is `Move::new(src, dst, false)` for the next
   * destination; none is a drop, and where both squares lie below 64 it reads back as a
   * non-promoting move from `src` to `dst`.
   */
  lemma KingMoveEncoding(src: nat, own: nat)
    requires src < 81 && own < LIMIT && KingTargets(src, own) < BOARD_LIMIT
    ensures |MovesOf(src, KingTargets(src, own))| == |Targets(KingTargets(src, own))|
    ensures forall i | 0 <= i < |Targets(KingTargets(src, own))| ::
              var dst := Targets(KingTargets(src, own))[i];
              var mv := MovesOf(src, KingTargets(src, own))[i];
              dst < 81 && mv == New(src, dst, false) && !mv.IsDrop() &&
              (src < 64 && dst < 64 ==> mv.Src() == Some(src) && mv.Dst() == dst && !mv.IsPromo())
  {
    var b := KingTargets(src, own);
    MovesOfTargets(src, b);
    forall i | 0 <= i < |Targets(b)|
      ensures !MovesOf(src, b)[i].IsDrop()
      ensures src < 64 && Targets(b)[i] < 64 ==>
                MovesOf(src, b)[i].Src() == Some(src) && MovesOf(src, b)[i].Dst() == Targets(b)[i] &&
                !MovesOf(src, b)[i].IsPromo()
    {
      NewNoDrop(src, Targets(b)[i], false);
      if src < 64 && Targets(b)[i] < 64 {
        NewRoundTrip(src, Targets(b)[i], false);
      }
    }
  }

  // ---------------------------------------------------------------------------
  // A king on square 80
  // ---------------------------------------------------------------------------

  /**
   * The king entry of square 80 carries bit 81, which no side board on the board holds, so
   * for a king on square 80 the destinations include square 81 and `Move::new` fails its
   * assert.
   */
  lemma KingOnLastSquare(own: nat)
    requires own < BOARD_LIMIT
    ensures Has(KingTargets(80, own), 81) && KingTargets(80, own) >= BOARD_LIMIT
  {
    Square80OffBoard(Sente);
    HasAnd(Attacks.King(80), Not(own), 81);
    HasNot(own, 81);
    if Has(own, 81) {
      OnBoardBits(own, 81);
    }
    if KingTargets(80, own) < BOARD_LIMIT {
      OnBoardBits(KingTargets(80, own), 81);
    }
  }

  /** The king's destinations with the entry first restricted to the board. */
  function KingTargetsOnBoard(src: nat, own: nat): (r: nat)
    requires src < 81 && own < LIMIT
    ensures r < BOARD_LIMIT
    ensures forall t :: Has(r, t) <==> KingStep(src, t) && !Has(own, t)
  {
    var r := And(KingOnBoard(src), Not(own));
    forall t
      ensures Has(r, t) <==> KingStep(src, t) && !Has(own, t)
    {
      HasAnd(KingOnBoard(src), Not(own), t);
      HasNot(own, t);
      KingOnBoardSteps(src, t);
      if KingStep(src, t) {
        KingStepOnBoard(src, t);
      }
    }
    forall t: nat | 81 <= t
      ensures !Has(r, t)
    {
      if Has(r, t) {
        KingOnBoardSteps(src, t);
        KingStepOnBoard(src, t);
      }
    }
    BelowOfBits(r, 81);
    Pow2Values();
    r
  }

  /**
   * `generate_king_moves` with the king entry restricted to the board: for every king square,
   * including 80, each destination is a king step the mover does not occupy.
   */
  method GenerateKingMovesOnBoard(moveList: MoveList, board: Board)
    requires board.Valid() && moveList.Valid()
    requires Lsb(board.King(board.Stm())) < 81
    requires moveList.len + Count(KingTargetsOnBoard(Lsb(board.King(board.Stm())), board.SideBoard(board.Stm())))
             <= CAPACITY
    modifies moveList
    ensures moveList.Valid()
    ensures moveList.list == old(moveList.list) +
              MovesOf(Lsb(board.King(board.Stm())), KingTargetsOnBoard(Lsb(board.King(board.Stm())), board.SideBoard(board.Stm())))
  {
    var stm := board.Stm();
    var king := board.King(stm);
    var src := Lsb(king);
    var attacks := KingTargetsOnBoard(src, board.SideBoard(stm));
    PushMoves(moveList, src, attacks);
  }
}
