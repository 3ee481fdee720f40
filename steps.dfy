/**
 * The step sets of the short-range pieces, defined on the board geometry of src/consts.rs
 * (square = rank * 9 + file, both below 9). Sente moves towards rank 8, which is the
 * direction of `bits::north` (`<< 9`); Gote moves towards rank 0.
 *
 * These are the reference definitions the constant tables in src/attacks.rs are checked against.
 */
module Steps {
  import opened Consts

  /** Square `t` lies `dr` ranks and `df` files from `sq`, and both squares are on the board. */
  predicate Near(sq: nat, t: nat, dr: int, df: int)
  {
    sq < 81 && 0 <= sq / 9 + dr < 9 && 0 <= sq % 9 + df < 9 && t == sq + 9 * dr + df
  }

  /** The rank direction in which a side's pieces move forward. */
  function Forward(side: Side): (r: int)
    ensures r == 1 || r == -1
    ensures side.Sente? <==> r == 1
  {
    if side.Sente? then 1 else -1
  }

  /** A king's steps: one square in any of the eight directions. */
  predicate KingStep(sq: nat, t: nat)
  {
    Near(sq, t, -1, -1) || Near(sq, t, -1, 0) || Near(sq, t, -1, 1) || Near(sq, t, 0, -1)
    || Near(sq, t, 0, 1) || Near(sq, t, 1, -1) || Near(sq, t, 1, 0) || Near(sq, t, 1, 1)
  }

  /** A gold general's steps: the three squares ahead, the two beside and the one straight behind. */
  predicate GoldStep(side: Side, sq: nat, t: nat)
  {
    var f := Forward(side);
    Near(sq, t, f, -1) || Near(sq, t, f, 0) || Near(sq, t, f, 1)
    || Near(sq, t, 0, -1) || Near(sq, t, 0, 1) || Near(sq, t, -f, 0)
  }

  /** A silver general's steps: the three squares ahead and the two diagonals behind. */
  predicate SilverStep(side: Side, sq: nat, t: nat)
  {
    var f := Forward(side);
    Near(sq, t, f, -1) || Near(sq, t, f, 0) || Near(sq, t, f, 1)
    || Near(sq, t, -f, -1) || Near(sq, t, -f, 1)
  }

  /** A knight's jumps: two ranks ahead and one file to either side. */
  predicate KnightStep(side: Side, sq: nat, t: nat)
  {
    var f := Forward(side);
    Near(sq, t, 2 * f, -1) || Near(sq, t, 2 * f, 1)
  }

  /** A step lands on the board, at the rank and file it names. */
  lemma NearSquare(sq: nat, t: nat, dr: int, df: int)
    requires Near(sq, t, dr, df)
    ensures t < 81 && t / 9 == sq / 9 + dr && t % 9 == sq % 9 + df
  {
    var r, f := sq / 9 + dr, sq % 9 + df;
    assert t == 9 * r + f;
  }

  /** King steps stay on the board and never return to the starting square. */
  lemma KingStepOnBoard(sq: nat, t: nat)
    requires KingStep(sq, t)
    ensures t < 81 && t != sq
  {
    if Near(sq, t, -1, -1) { NearSquare(sq, t, -1, -1); }
    else if Near(sq, t, -1, 0) { NearSquare(sq, t, -1, 0); }
    else if Near(sq, t, -1, 1) { NearSquare(sq, t, -1, 1); }
    else if Near(sq, t, 0, -1) { NearSquare(sq, t, 0, -1); }
    else if Near(sq, t, 0, 1) { NearSquare(sq, t, 0, 1); }
    else if Near(sq, t, 1, -1) { NearSquare(sq, t, 1, -1); }
    else if Near(sq, t, 1, 0) { NearSquare(sq, t, 1, 0); }
    else { NearSquare(sq, t, 1, 1); }
  }

  /** Every gold step is a king step. */
  lemma GoldWithinKing(side: Side, sq: nat, t: nat)
    requires GoldStep(side, sq, t)
    ensures KingStep(sq, t)
  {
  }

  /** Every silver step is a king step. */
  lemma SilverWithinKing(side: Side, sq: nat, t: nat)
    requires SilverStep(side, sq, t)
    ensures KingStep(sq, t)
  {
  }

  /** Knight jumps stay on the board and leave the king's neighbourhood. */
  lemma KnightStepOnBoard(side: Side, sq: nat, t: nat)
    requires KnightStep(side, sq, t)
    ensures t < 81 && !KingStep(sq, t) && t != sq
  {
    var f := Forward(side);
    if Near(sq, t, 2 * f, -1) { NearSquare(sq, t, 2 * f, -1); } else { NearSquare(sq, t, 2 * f, 1); }
    if KingStep(sq, t) {
      assert false by {
        if Near(sq, t, -1, -1) { NearSquare(sq, t, -1, -1); }
        else if Near(sq, t, -1, 0) { NearSquare(sq, t, -1, 0); }
        else if Near(sq, t, -1, 1) { NearSquare(sq, t, -1, 1); }
        else if Near(sq, t, 0, -1) { NearSquare(sq, t, 0, -1); }
        else if Near(sq, t, 0, 1) { NearSquare(sq, t, 0, 1); }
        else if Near(sq, t, 1, -1) { NearSquare(sq, t, 1, -1); }
        else if Near(sq, t, 1, 0) { NearSquare(sq, t, 1, 0); }
        else { NearSquare(sq, t, 1, 1); }
      }
    }
  }

  /** A knight on the last two ranks ahead of it has no jump. */
  lemma KnightStuck(side: Side, sq: nat, t: nat)
    requires sq < 81
    requires if side.Sente? then sq >= 63 else sq < 18
    ensures !KnightStep(side, sq, t)
  {
  }
}
