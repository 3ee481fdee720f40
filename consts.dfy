/**
 * Piece kinds, sides and square arithmetic (src/consts.rs).
 *
 * Squares are numbered `rank * 9 + file`, with rank and file indices in 0..8; there are
 * 81 of them.
 */
module Consts {
  import opened Wrappers

  /** The fourteen piece kinds, in the order of their indices. */
  datatype Piece =
    | Pawn | Lance | Knight | Silver | Gold | Bishop | Rook
    | PromotedPawn | PromotedLance | PromotedKnight | PromotedSilver
    | PromotedBishop | PromotedRook | King
  {
    /** `idx()`: the declaration index of the kind. */
    function Idx(): (r: nat)
      ensures r < PIECE_COUNT
    {
      match this
      case Pawn => 0
      case Lance => 1
      case Knight => 2
      case Silver => 3
      case Gold => 4
      case Bishop => 5
      case Rook => 6
      case PromotedPawn => 7
      case PromotedLance => 8
      case PromotedKnight => 9
      case PromotedSilver => 10
      case PromotedBishop => 11
      case PromotedRook => 12
      case King => 13
    }

    /** `to_promo_piece()`: the promoted form of a kind that can promote. */
    function ToPromo(): Option<Piece>
    {
      match this
      case Pawn => Some(PromotedPawn)
      case Lance => Some(PromotedLance)
      case Knight => Some(PromotedKnight)
      case Silver => Some(PromotedSilver)
      case Bishop => Some(PromotedBishop)
      case Rook => Some(PromotedRook)
      case _ => None
    }

    /** `can_promote()` */
    predicate CanPromote()
    {
      ToPromo().Some?
    }

    /** The six kinds that can promote: the unpromoted kinds other than gold and king. */
    predicate Promotable()
    {
      this in {Pawn, Lance, Knight, Silver, Bishop, Rook}
    }

    /** The six promoted kinds. */
    predicate IsPromoted()
    {
      this in {PromotedPawn, PromotedLance, PromotedKnight, PromotedSilver, PromotedBishop, PromotedRook}
    }
  }

  /** `Piece::COUNT` */
  const PIECE_COUNT: nat := 14

  /** `Square::COUNT` */
  const SQUARE_COUNT: nat := 81

  /**
   * `Piece::from(value)` for a `u8`. Every value of 14 or more panics, so the caller
   * passes one below 14.
   */
  function FromU8(value: nat): (r: Piece)
    requires value < PIECE_COUNT
    ensures r.Idx() == value
  {
    match value
    case 0 => Pawn
    case 1 => Lance
    case 2 => Knight
    case 3 => Silver
    case 4 => Gold
    case 5 => Bishop
    case 6 => Rook
    case 7 => PromotedPawn
    case 8 => PromotedLance
    case 9 => PromotedKnight
    case 10 => PromotedSilver
    case 11 => PromotedBishop
    case 12 => PromotedRook
    case 13 => King
  }

  /** `Piece::from(p.idx() as u8) == p`: the index is a bijection onto 0..13. */
  lemma FromIdx(p: Piece)
    ensures FromU8(p.Idx()) == p
  {
    var q := FromU8(p.Idx());
    IdxInjective(p, q);
  }

  /** Distinct kinds have distinct indices. */
  lemma IdxInjective(p: Piece, q: Piece)
    requires p.Idx() == q.Idx()
    ensures p == q
  {
  }

  /**
   * `to_promo_piece` returns a kind exactly for the six promotable kinds, and that kind is
   * promoted; gold, king and the promoted kinds get `None`.
   */
  lemma ToPromoDomain(p: Piece)
    ensures p.ToPromo().Some? <==> p.Promotable()
    ensures p.ToPromo().Some? ==> p.ToPromo().value.IsPromoted()
  {
  }

  /** Promotion maps the six promotable kinds injectively onto the six promoted ones. */
  lemma ToPromoInjective(p: Piece, q: Piece)
    requires p.ToPromo().Some? && p.ToPromo() == q.ToPromo()
    ensures p == q
  {
  }

  /** Every promoted kind is the promotion of some kind. */
  lemma ToPromoOnto(r: Piece)
    requires r.IsPromoted()
    ensures exists p: Piece :: p.ToPromo() == Some(r)
  {
    var p := match r
      case PromotedPawn => Pawn
      case PromotedLance => Lance
      case PromotedKnight => Knight
      case PromotedSilver => Silver
      case PromotedBishop => Bishop
      case _ => Rook;
    assert p.ToPromo() == Some(r);
  }

  /** `can_promote(p)` holds iff `to_promo_piece(p)` is `Some`, i.e. iff `p` is promotable. */
  lemma CanPromoteIff(p: Piece)
    ensures p.CanPromote() <==> p.Promotable()
  {
    ToPromoDomain(p);
  }

  /** The index of a kind that may sit in a hand: the seven unpromoted kinds before the king. */
  lemma HandKinds(p: Piece)
    ensures p.Idx() < 7 <==> !p.IsPromoted() && p != King
  {
  }

  /** The two sides; `Sente` has index 0 and `Gote` index 1. */
  datatype Side = Sente | Gote
  {
    /** `flip()` */
    function Flip(): (r: Side)
      ensures r != this
    {
      match this
      case Sente => Gote
      case Gote => Sente
    }

    predicate IsSente()
    {
      this == Sente
    }

    predicate IsGote()
    {
      this == Gote
    }

    /** `idx()` */
    function Idx(): (r: nat)
      ensures r < 2
    {
      match this
      case Sente => 0
      case Gote => 1
    }
  }

  /** `flip` is an involution that never returns its argument. */
  lemma FlipInvolution(s: Side)
    ensures s.Flip().Flip() == s
    ensures s.Flip() != s
  {
  }

  /** `idx` is 0 for Sente and 1 for Gote, and exactly one of `is_sente`/`is_gote` holds. */
  lemma SideIdx(s: Side)
    ensures s.Idx() == 0 <==> s.IsSente()
    ensures s.Idx() == 1 <==> s.IsGote()
    ensures s.IsSente() == !s.IsGote()
  {
  }

  /**
   * `Square::of(rank, file)`: `rank * 9 + file` in `u8` arithmetic, which panics on
   * overflow, so callers keep the sum below 256.
   */
  function Of(rank: nat, file: nat): nat
    requires rank * 9 + file < 256
  {
    rank * 9 + file
  }

  /** `Square::file(sq)` */
  function File(sq: nat): nat
  {
    sq % 9
  }

  /** `Square::rank(sq)` */
  function Rank(sq: nat): nat
  {
    sq / 9
  }

  /**
   * `Square::is_valid(sq)`, which the source uses but does not define: a square index
   * is valid when it is below `Square::COUNT`.
   */
  predicate IsValid(sq: int)
  {
    0 <= sq < SQUARE_COUNT
  }

  /** The absolute value `i8::abs` computes. */
  function Abs(x: int): nat
  {
    if x < 0 then -x else x
  }

  /** For rank and file below 9, `of` names a square and `file`/`rank` recover the parts. */
  lemma OfFileRank(rank: nat, file: nat)
    requires rank < 9 && file < 9
    ensures Of(rank, file) < SQUARE_COUNT
    ensures File(Of(rank, file)) == file
    ensures Rank(Of(rank, file)) == rank
  {
  }

  /** Every square is `of` its own rank and file. */
  lemma SquareParts(sq: nat)
    requires sq < SQUARE_COUNT
    ensures Rank(sq) < 9 && File(sq) < 9
    ensures Of(Rank(sq), File(sq)) == sq
  {
  }

}
