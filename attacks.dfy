/**
 * The attack lookups of src/attacks.rs.
 *
 * `king`, `knight`, `silver` and `gold` read the constant tables; `lance`, `bishop` and
 * `rook` are stubs that return the empty bitboard. The lemmas characterise every table
 * entry by the step sets of module Steps. The entries agree with the steps everywhere
 * except square 80 of `KING_ATTACKS` and of both `GOLD_ATTACKS` halves, which also set
 * bit 81, a bit that does not name a square.
 */
module Attacks {
  import opened Bits
  import opened Consts
  import opened Steps
  import opened AttackTables

  /** `attacks::king` (the `u8` square indexes the 81-entry table, so it must be below 81). */
  function King(sq: nat): nat
    requires sq < 81
  {
    KING_ATTACKS[sq]
  }

  /** `attacks::knight` */
  function Knight(sq: nat, side: Side): nat
    requires sq < 81
  {
    Shapes();
    KNIGHT_ATTACKS[side.Idx()][sq]
  }

  /** `attacks::silver` */
  function Silver(sq: nat, side: Side): nat
    requires sq < 81
  {
    Shapes();
    SILVER_ATTACKS[side.Idx()][sq]
  }

  /** `attacks::gold` */
  function Gold(sq: nat, side: Side): nat
    requires sq < 81
  {
    Shapes();
    GOLD_ATTACKS[side.Idx()][sq]
  }

  /** `attacks::lance`: not implemented in the source, always empty. */
  function Lance(sq: nat): nat
  {
    0
  }

  /** `attacks::bishop`: not implemented in the source, always empty. */
  function Bishop(sq: nat): nat
  {
    0
  }

  /** `attacks::rook`: not implemented in the source, always empty. */
  function Rook(sq: nat): nat
  {
    0
  }

  /** `attacks::horse`: king steps plus bishop rays; with the bishop stub, just the king steps. */
  function Horse(sq: nat): (r: nat)
    requires sq < 81
    ensures r == King(sq)
  {
    Or(King(sq), Bishop(sq))
  }

  /** `attacks::dragon`: king steps plus rook rays; with the rook stub, just the king steps. */
  function Dragon(sq: nat): (r: nat)
    requires sq < 81
    ensures r == King(sq)
  {
    Or(King(sq), Rook(sq))
  }

  /** `attacks::pawns`: every pawn of `bb` one rank forward. */
  function Pawns(bb: nat, side: Side): nat
  {
    match side
    case Sente => North(bb)
    case Gote => South(bb)
  }

  // ---------------------------------------------------------------------------
  // Every entry against the step sets
  // ---------------------------------------------------------------------------

  lemma KingSteps(sq: nat, t: nat)
    requires sq < 81
    ensures Has(King(sq), t) <==> KingStep(sq, t) || (sq == 80 && t == 81)
  {
    if sq < 9 { KingRank0(sq, t); }
    else if sq < 18 { KingRank1(sq, t); }
    else if sq < 27 { KingRank2(sq, t); }
    else if sq < 36 { KingRank3(sq, t); }
    else if sq < 45 { KingRank4(sq, t); }
    else if sq < 54 { KingRank5(sq, t); }
    else if sq < 63 { KingRank6(sq, t); }
    else if sq < 72 { KingRank7(sq, t); }
    else { KingRank8(sq, t); }
  }

  lemma KnightSteps(sq: nat, side: Side, t: nat)
    requires sq < 81
    ensures Has(Knight(sq, side), t) <==> KnightStep(side, sq, t)
  {
    if side.Sente? {
      if sq < 9 { KnightSenteRank0(sq, t); }
      else if sq < 18 { KnightSenteRank1(sq, t); }
      else if sq < 27 { KnightSenteRank2(sq, t); }
      else if sq < 36 { KnightSenteRank3(sq, t); }
      else if sq < 45 { KnightSenteRank4(sq, t); }
      else if sq < 54 { KnightSenteRank5(sq, t); }
      else if sq < 63 { KnightSenteRank6(sq, t); }
      else if sq < 72 { KnightSenteRank7(sq, t); }
      else { KnightSenteRank8(sq, t); }
    } else {
      if sq < 9 { KnightGoteRank0(sq, t); }
      else if sq < 18 { KnightGoteRank1(sq, t); }
      else if sq < 27 { KnightGoteRank2(sq, t); }
      else if sq < 36 { KnightGoteRank3(sq, t); }
      else if sq < 45 { KnightGoteRank4(sq, t); }
      else if sq < 54 { KnightGoteRank5(sq, t); }
      else if sq < 63 { KnightGoteRank6(sq, t); }
      else if sq < 72 { KnightGoteRank7(sq, t); }
      else { KnightGoteRank8(sq, t); }
    }
  }

  lemma SilverSteps(sq: nat, side: Side, t: nat)
    requires sq < 81
    ensures Has(Silver(sq, side), t) <==> SilverStep(side, sq, t)
  {
    if side.Sente? {
      if sq < 9 { SilverSenteRank0(sq, t); }
      else if sq < 18 { SilverSenteRank1(sq, t); }
      else if sq < 27 { SilverSenteRank2(sq, t); }
      else if sq < 36 { SilverSenteRank3(sq, t); }
      else if sq < 45 { SilverSenteRank4(sq, t); }
      else if sq < 54 { SilverSenteRank5(sq, t); }
      else if sq < 63 { SilverSenteRank6(sq, t); }
      else if sq < 72 { SilverSenteRank7(sq, t); }
      else { SilverSenteRank8(sq, t); }
    } else {
      if sq < 9 { SilverGoteRank0(sq, t); }
      else if sq < 18 { SilverGoteRank1(sq, t); }
      else if sq < 27 { SilverGoteRank2(sq, t); }
      else if sq < 36 { SilverGoteRank3(sq, t); }
      else if sq < 45 { SilverGoteRank4(sq, t); }
      else if sq < 54 { SilverGoteRank5(sq, t); }
      else if sq < 63 { SilverGoteRank6(sq, t); }
      else if sq < 72 { SilverGoteRank7(sq, t); }
      else { SilverGoteRank8(sq, t); }
    }
  }

  lemma GoldSteps(sq: nat, side: Side, t: nat)
    requires sq < 81
    ensures Has(Gold(sq, side), t) <==> GoldStep(side, sq, t) || (sq == 80 && t == 81)
  {
    if side.Sente? {
      if sq < 9 { GoldSenteRank0(sq, t); }
      else if sq < 18 { GoldSenteRank1(sq, t); }
      else if sq < 27 { GoldSenteRank2(sq, t); }
      else if sq < 36 { GoldSenteRank3(sq, t); }
      else if sq < 45 { GoldSenteRank4(sq, t); }
      else if sq < 54 { GoldSenteRank5(sq, t); }
      else if sq < 63 { GoldSenteRank6(sq, t); }
      else if sq < 72 { GoldSenteRank7(sq, t); }
      else { GoldSenteRank8(sq, t); }
    } else {
      if sq < 9 { GoldGoteRank0(sq, t); }
      else if sq < 18 { GoldGoteRank1(sq, t); }
      else if sq < 27 { GoldGoteRank2(sq, t); }
      else if sq < 36 { GoldGoteRank3(sq, t); }
      else if sq < 45 { GoldGoteRank4(sq, t); }
      else if sq < 54 { GoldGoteRank5(sq, t); }
      else if sq < 63 { GoldGoteRank6(sq, t); }
      else if sq < 72 { GoldGoteRank7(sq, t); }
      else { GoldGoteRank8(sq, t); }
    }
  }

  // ---------------------------------------------------------------------------
  // Consequences
  // ---------------------------------------------------------------------------

  /** No king entry contains its own square. */
  lemma KingNotSelf(sq: nat)
    requires sq < 81
    ensures !Has(King(sq), sq)
  {
    KingSteps(sq, sq);
    if KingStep(sq, sq) {
      KingStepOnBoard(sq, sq);
    }
  }

  /** Every gold entry is contained in the king entry of the same square. */
  lemma GoldWithinKingEntry(sq: nat, side: Side, t: nat)
    requires sq < 81 && Has(Gold(sq, side), t)
    ensures Has(King(sq), t)
  {
    GoldSteps(sq, side, t);
    KingSteps(sq, t);
    if GoldStep(side, sq, t) {
      GoldWithinKing(side, sq, t);
    }
  }

  /** Every silver entry is contained in the king entry of the same square. */
  lemma SilverWithinKingEntry(sq: nat, side: Side, t: nat)
    requires sq < 81 && Has(Silver(sq, side), t)
    ensures Has(King(sq), t)
  {
    SilverSteps(sq, side, t);
    KingSteps(sq, t);
    SilverWithinKing(side, sq, t);
  }

  /** A knight on its last two ranks attacks nothing: Sente from 63 up, Gote below 18. */
  lemma KnightZero(sq: nat, side: Side)
    requires sq < 81
    requires if side.Sente? then sq >= 63 else sq < 18
    ensures Knight(sq, side) == 0
  {
    forall t: nat
      ensures Has(Knight(sq, side), t) == Has(0, t)
    {
      KnightSteps(sq, side, t);
      KnightStuck(side, sq, t);
      HasZero(t);
    }
    Extensional(Knight(sq, side), 0);
  }

  /** Knight and silver entries only name squares of the board. */
  lemma KnightSilverOnBoard(sq: nat, side: Side)
    requires sq < 81
    ensures Knight(sq, side) < BOARD_LIMIT && Silver(sq, side) < BOARD_LIMIT
  {
    forall t: nat | 81 <= t
      ensures !Has(Knight(sq, side), t) && !Has(Silver(sq, side), t)
    {
      KnightSteps(sq, side, t);
      SilverSteps(sq, side, t);
      if KnightStep(side, sq, t) {
        KnightStepOnBoard(side, sq, t);
      }
      if SilverStep(side, sq, t) {
        SilverWithinKing(side, sq, t);
        KingStepOnBoard(sq, t);
      }
    }
    BelowOfBits(Knight(sq, side), 81);
    BelowOfBits(Silver(sq, side), 81);
    Pow2Values();
  }

  /** King and gold entries only name squares of the board, except at square 80. */
  lemma KingGoldOnBoard(sq: nat, side: Side)
    requires sq < 80
    ensures King(sq) < BOARD_LIMIT && Gold(sq, side) < BOARD_LIMIT
  {
    forall t: nat | 81 <= t
      ensures !Has(King(sq), t) && !Has(Gold(sq, side), t)
    {
      KingSteps(sq, t);
      GoldSteps(sq, side, t);
      if KingStep(sq, t) {
        KingStepOnBoard(sq, t);
      }
      if GoldStep(side, sq, t) {
        GoldWithinKing(side, sq, t);
        KingStepOnBoard(sq, t);
      }
    }
    BelowOfBits(King(sq), 81);
    BelowOfBits(Gold(sq, side), 81);
    Pow2Values();
  }

  /**
   * The king entry and both gold entries of square 80 set bit 81, so they are not below 2^81;
   * a king or gold on square 80 "attacks" a square that does not exist.
   */
  lemma Square80OffBoard(side: Side)
    ensures Has(King(80), 81) && King(80) >= BOARD_LIMIT
    ensures Has(Gold(80, side), 81) && Gold(80, side) >= BOARD_LIMIT
  {
    KingSteps(80, 81);
    GoldSteps(80, side, 81);
    if King(80) < BOARD_LIMIT {
      OnBoardBits(King(80), 81);
    }
    if Gold(80, side) < BOARD_LIMIT {
      OnBoardBits(Gold(80, side), 81);
    }
  }

  // ---------------------------------------------------------------------------
  // The tables restricted to the board
  // ---------------------------------------------------------------------------

  /** `king(sq) & BOARD`: the king entry without the stray bit 81. */
  function KingOnBoard(sq: nat): nat
    requires sq < 81
  {
    And(King(sq), BOARD)
  }

  /** `gold(sq, side) & BOARD`: the gold entry without the stray bit 81. */
  function GoldOnBoard(sq: nat, side: Side): nat
    requires sq < 81
  {
    And(Gold(sq, side), BOARD)
  }

  lemma BoardBits(t: nat)
    ensures Has(BOARD, t) <==> t < 81
  {
    Pow2Values();
    HasLowMask(81, t);
  }

  /** Restricted to the board, the king entry is exactly the king steps. */
  lemma KingOnBoardSteps(sq: nat, t: nat)
    requires sq < 81
    ensures Has(KingOnBoard(sq), t) <==> KingStep(sq, t)
  {
    HasAnd(King(sq), BOARD, t);
    BoardBits(t);
    KingSteps(sq, t);
    if KingStep(sq, t) {
      KingStepOnBoard(sq, t);
    }
  }

  /** Restricted to the board, the gold entry is exactly the gold steps. */
  lemma GoldOnBoardSteps(sq: nat, side: Side, t: nat)
    requires sq < 81
    ensures Has(GoldOnBoard(sq, side), t) <==> GoldStep(side, sq, t)
  {
    HasAnd(Gold(sq, side), BOARD, t);
    BoardBits(t);
    GoldSteps(sq, side, t);
    if GoldStep(side, sq, t) {
      GoldWithinKing(side, sq, t);
      KingStepOnBoard(sq, t);
    }
  }

  // ---------------------------------------------------------------------------
  // Pawns
  // ---------------------------------------------------------------------------

  /**
   * Sente's pawns attack one rank up (square + 9, dropping what leaves the board); Gote's one
   * rank down (square - 9).
   */
  lemma PawnsBits(bb: nat, side: Side, t: nat)
    ensures side.Sente? ==> (Has(Pawns(bb, side), t) <==> 9 <= t < 81 && Has(bb, t - 9))
    ensures side.Gote? ==> (Has(Pawns(bb, side), t) <==> Has(bb, t + 9))
  {
    if side.Sente? {
      Pow2Values();
      HasAnd(bb * 512, BOARD, t);
      HasShl(bb, 9, t);
      BoardBits(t);
    } else {
      HasShr(bb, 9, t);
    }
  }
}
