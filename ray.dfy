/**
 * The squares between two squares (src/ray.rs).
 *
 * `between` picks a stride with `direction` and walks from `from` towards `dest`, collecting the
 * squares it passes, until it reaches `dest` or leaves the squares 0..80. The strides are
 * those of a board whose ranks are 8 squares apart (1, 7, 8), while this board's ranks
 * are 9 apart: a same-rank walk is exact, but a same-file walk steps diagonally and a diagonal
 * walk (stride 7) leaves the diagonal at once.
 *
 * The `i8` arithmetic of the source never wraps here: squares are at most 80 and strides at
 * most 9 in size, so every intermediate value lies in -9..89.
 */
module Ray {
  import opened Bits
  import opened Consts

  /** `direction(from, to)`; the target square is called `dest` here. */
  function Direction(from: nat, dest: nat): int
  {
    var startRank, endRank := Rank(from), Rank(dest);
    var startFile, endFile := File(from), File(dest);
    if startRank == endRank then
      (if from > dest then -1 else 1)
    else if startFile == endFile then
      (if from > dest then -8 else 8)
    else if Abs(startRank - endRank) == Abs(startFile - endFile) then
      (if from > dest then
         (if (from - dest) % 9 == 0 then -9 else -7)
       else
         (if (dest - from) % 9 == 0 then 9 else 7))
    else if startRank + startFile == endRank + endFile then
      (if from > dest then -9 else 9)
    else
      0
  }

  /** The measure a walk with stride `offset` decreases while it stays on the board. */
  function Remaining(sq: int, offset: int): int
  {
    if offset > 0 then 81 - sq else sq + 1
  }

  /**
   * The squares collected by walking from `sq` with stride `offset`, stopping at `dest` or on
   * leaving the board; `sq` itself is the first square visited.
   */
  function Walk(sq: int, dest: int, offset: int): nat
    requires offset != 0
    decreases Remaining(sq, offset)
  {
    if !IsValid(sq) || sq == dest then 0
    else Or(Bb(sq), Walk(sq + offset, dest, offset))
  }

  /** What `between(from, to)` returns. */
  function BetweenSpec(from: nat, dest: nat): nat
  {
    if !IsValid(from) || !IsValid(dest) || from == dest then 0
    else
      var offset := Direction(from, dest);
      if offset == 0 then 0 else Walk(from + offset, dest, offset)
  }

  /** `between(from, dest)` */
  method Between(from: nat, dest: nat) returns (ray: nat)
    ensures ray == BetweenSpec(from, dest)
  {
    if !IsValid(from) || !IsValid(dest) || from == dest {
      return 0;
    }
    var offset := Direction(from, dest);
    if offset == 0 {
      return 0;
    }
    ray := 0;
    var sq: int := from + offset;
    if sq < 0 || sq > 80 {
      return 0;
    }
    while IsValid(sq) && sq != dest
      invariant Or(ray, Walk(sq, dest, offset)) == Walk(from + offset, dest, offset)
      decreases Remaining(sq, offset)
    {
      ghost var rest := Walk(sq + offset, dest, offset);
      assert Walk(sq, dest, offset) == Or(Bb(sq), rest);
      OrAssoc(ray, Bb(sq), rest);
      ray := Or(ray, Bb(sq));
      sq := sq + offset;
    }
    assert Walk(sq, dest, offset) == 0;
  }

  // ---------------------------------------------------------------------------
  // direction
  // ---------------------------------------------------------------------------

  /**
   * The strides `direction` can return: 1 along a rank, 8 along a file, 7 along a diagonal
   * (the `% 9 == 0` tests never hold, and the branch comparing rank + file is unreachable
   * because such squares are already diagonal), and 0 otherwise.
   */
  lemma DirectionValues(from: nat, dest: nat)
    requires IsValid(from) && IsValid(dest) && from != dest
    ensures Rank(from) == Rank(dest) ==> Direction(from, dest) == (if from > dest then -1 else 1)
    ensures Rank(from) != Rank(dest) && File(from) == File(dest) ==>
              Direction(from, dest) == (if from > dest then -8 else 8)
    ensures Rank(from) != Rank(dest) && File(from) != File(dest)
              && Abs(Rank(from) - Rank(dest)) == Abs(File(from) - File(dest)) ==>
              Direction(from, dest) == (if from > dest then -7 else 7)
    ensures Rank(from) != Rank(dest) && File(from) != File(dest)
              && Abs(Rank(from) - Rank(dest)) != Abs(File(from) - File(dest)) ==>
              Direction(from, dest) == 0
  {
    var dr, df := Rank(from) - Rank(dest), File(from) - File(dest);
    assert from - dest == 9 * dr + df;
    if Rank(from) != Rank(dest) && File(from) != File(dest) && Abs(dr) == Abs(df) {
      DiagonalNotMultiple(dr, df);
      if from > dest {
        assert (from - dest) % 9 != 0;
      } else {
        assert (dest - from) == 9 * (-dr) + (-df);
        DiagonalNotMultiple(-dr, -df);
        assert (dest - from) % 9 != 0;
      }
    }
    if Rank(from) + File(from) == Rank(dest) + File(dest) {
      assert dr == -df;
    }
  }

  /** Along a diagonal of this board, the distance between two squares is never a multiple of 9. */
  lemma DiagonalNotMultiple(dr: int, df: int)
    requires Abs(dr) == Abs(df) && 0 < Abs(df) < 9
    ensures (9 * dr + df) % 9 != 0
  {
    assert (9 * dr + df) % 9 == df % 9;
  }

  // ---------------------------------------------------------------------------
  // between
  // ---------------------------------------------------------------------------

  /** Every square of a walk is on the board, is not `dest`, and lies on the walk's side of `sq`. */
  lemma {:induction false} WalkBits(sq: int, dest: int, offset: int, t: nat)
    requires offset != 0
    ensures Has(Walk(sq, dest, offset), t) ==>
              IsValid(t) && t != dest && (if offset > 0 then sq <= t else t <= sq)
    decreases Remaining(sq, offset)
  {
    if !IsValid(sq) || sq == dest {
      HasZero(t);
    } else {
      HasOr(Bb(sq), Walk(sq + offset, dest, offset), t);
      WalkBits(sq + offset, dest, offset, t);
    }
  }

  /** One step of a walk that has not stopped: it holds `sq` and whatever the rest of the walk holds. */
  lemma WalkHas(sq: int, dest: int, offset: int, t: nat)
    requires offset != 0 && IsValid(sq) && sq != dest
    ensures Has(Walk(sq, dest, offset), t) <==> t == sq || Has(Walk(sq + offset, dest, offset), t)
  {
    HasOr(Bb(sq), Walk(sq + offset, dest, offset), t);
  }

  /** `between` only names squares of the board, and never `from` or `dest`. */
  lemma BetweenOnBoard(from: nat, dest: nat, t: nat)
    requires Has(BetweenSpec(from, dest), t)
    ensures t < 81 && t != from && t != dest
  {
    if !IsValid(from) || !IsValid(dest) || from == dest {
      HasZero(t);
    } else {
      var offset := Direction(from, dest);
      if offset == 0 {
        HasZero(t);
      } else {
        WalkBits(from + offset, dest, offset, t);
      }
    }
  }

  /** A unit-stride walk towards `dest` collects exactly the squares from `sq` up to `dest`. */
  lemma {:induction false} WalkUp(sq: int, dest: int, t: nat)
    requires 0 <= sq <= dest < 81
    ensures Has(Walk(sq, dest, 1), t) <==> sq <= t < dest
    decreases dest - sq
  {
    if sq == dest {
      HasZero(t);
    } else {
      HasOr(Bb(sq), Walk(sq + 1, dest, 1), t);
      WalkUp(sq + 1, dest, t);
    }
  }

  /** A unit-stride walk down towards `dest` collects exactly the squares from `sq` down to `dest`. */
  lemma {:induction false} WalkDown(sq: int, dest: int, t: nat)
    requires 0 <= dest <= sq < 81
    ensures Has(Walk(sq, dest, -1), t) <==> dest < t <= sq
    decreases sq - dest
  {
    if sq == dest {
      HasZero(t);
    } else {
      HasOr(Bb(sq), Walk(sq - 1, dest, -1), t);
      WalkDown(sq - 1, dest, t);
    }
  }

  /** For two squares on the same rank, `between` is exactly the squares strictly between them. */
  lemma BetweenSameRank(from: nat, dest: nat, t: nat)
    requires IsValid(from) && IsValid(dest) && from != dest && Rank(from) == Rank(dest)
    ensures Has(BetweenSpec(from, dest), t) <==> (from < t < dest || dest < t < from)
  {
    DirectionValues(from, dest);
    if from < dest {
      WalkUp(from + 1, dest, t);
    } else {
      WalkDown(from - 1, dest, t);
    }
  }

  /**
   * A walk with stride 8 that can never land on `dest` runs to the edge: it collects
   * `sq`, `sq + 8`, ... up to square 80.
   */
  lemma {:induction false} WalkMissUp(sq: int, dest: int, t: nat)
    requires 0 <= sq
    requires dest < sq || (dest - sq) % 8 != 0
    ensures Has(Walk(sq, dest, 8), t) <==> sq <= t < 81 && (t - sq) % 8 == 0
    decreases 81 - sq
  {
    if !IsValid(sq) {
      HasZero(t);
    } else {
      var rest := Walk(sq + 8, dest, 8);
      assert Walk(sq, dest, 8) == Or(Bb(sq), rest);
      Mod8Shift(dest - (sq + 8));
      WalkMissUp(sq + 8, dest, t);
      HasOr(Bb(sq), rest, t);
      Mod8Shift(t - (sq + 8));
    }
  }

  /**
   * A walk with stride -8 that can never land on `dest` runs to the edge: it collects
   * `sq`, `sq - 8`, ... down to square 0.
   */
  lemma {:induction false} WalkMissDown(sq: int, dest: int, t: nat)
    requires sq < 81
    requires dest > sq || (sq - dest) % 8 != 0
    ensures Has(Walk(sq, dest, -8), t) <==> t <= sq && (sq - t) % 8 == 0
    decreases sq + 1
  {
    if !IsValid(sq) {
      HasZero(t);
    } else {
      var rest := Walk(sq - 8, dest, -8);
      assert Walk(sq, dest, -8) == Or(Bb(sq), rest);
      Mod8Shift((sq - 8) - dest);
      WalkMissDown(sq - 8, dest, t);
      HasOr(Bb(sq), rest, t);
      Mod8Shift((sq - 8) - t);
    }
  }

  /** A positive multiple of 8 is 8 more than a multiple of 8 that is not negative. */
  lemma EightSplit(x: int)
    ensures (0 < x && x % 8 == 0) <==> (8 <= x && (x - 8) % 8 == 0)
  {
    Mod8Shift(x - 8);
  }

  /** `8 * (m - 1) + m` is not a multiple of 8 when `m` is not. */
  lemma EightRemainder(x: int, m: int)
    requires x == 8 * (m - 1) + m && 0 < m < 8
    ensures x % 8 != 0
  {
  }

  lemma Mod8Shift(x: int)
    ensures (x + 8) % 8 == x % 8
  {
  }

  /**
   * A walk with stride 8 towards a square a whole number of strides ahead meets it: it collects
   * `sq`, `sq + 8`, ... up to the square before `dest`.
   */
  lemma {:induction false} WalkHitUp(sq: int, dest: int, t: nat)
    requires 0 <= sq <= dest < 81 && (dest - sq) % 8 == 0
    ensures Has(Walk(sq, dest, 8), t) <==> sq <= t < dest && (t - sq) % 8 == 0
    decreases dest - sq
  {
    if sq == dest {
      HasZero(t);
    } else {
      WalkHas(sq, dest, 8, t);
      EightSplit(dest - sq);
      EightSplit(t - sq);
      WalkHitUp(sq + 8, dest, t);
    }
  }

  /**
   * A walk with stride -8 towards a square a whole number of strides behind meets it: it
   * collects `sq`, `sq - 8`, ... down to the square after `dest`.
   */
  lemma {:induction false} WalkHitDown(sq: int, dest: int, t: nat)
    requires 0 <= dest <= sq < 81 && (sq - dest) % 8 == 0
    ensures Has(Walk(sq, dest, -8), t) <==> dest < t <= sq && (sq - t) % 8 == 0
    decreases sq - dest
  {
    if sq == dest {
      HasZero(t);
    } else {
      WalkHas(sq, dest, -8, t);
      EightSplit(sq - dest);
      EightSplit(sq - t);
      WalkHitDown(sq - 8, dest, t);
    }
  }

  /**
   * For two squares on the same file, the stride is 8 rather than 9. Unless the squares are
   * 72 apart (first and last rank), the walk never meets `dest`: it collects every eighth
   * square from `from` to the edge of the board. When they are 72 = 9 * 8 apart, it meets
   * `dest` after nine steps and collects the eight squares at multiples of 8 in between.
   */
  lemma BetweenSameFile(from: nat, dest: nat, t: nat)
    requires IsValid(from) && IsValid(dest) && from != dest
    requires File(from) == File(dest) && Rank(from) != Rank(dest)
    ensures from < dest && from + 72 != dest ==>
              (Has(BetweenSpec(from, dest), t) <==> from < t < 81 && (t - from) % 8 == 0)
    ensures dest < from && dest + 72 != from ==>
              (Has(BetweenSpec(from, dest), t) <==> t < from && (from - t) % 8 == 0)
    ensures from + 72 == dest ==>
              (Has(BetweenSpec(from, dest), t) <==> from < t < dest && (t - from) % 8 == 0)
    ensures dest + 72 == from ==>
              (Has(BetweenSpec(from, dest), t) <==> dest < t < from && (from - t) % 8 == 0)
  {
    DirectionValues(from, dest);
    var m := Rank(dest) - Rank(from);
    assert dest - from == 9 * m;
    if from < dest {
      assert BetweenSpec(from, dest) == Walk(from + 8, dest, 8);
      FileWalkUp(from, dest, m, t);
    } else {
      assert BetweenSpec(from, dest) == Walk(from - 8, dest, -8);
      FileWalkDown(from, dest, -m, t);
    }
  }

  /** The walk up a file with stride 8, from the square after `from`. */
  lemma FileWalkUp(from: nat, dest: nat, m: int, t: nat)
    requires dest < 81 && dest - from == 9 * m && 0 < m
    ensures from + 72 != dest ==>
              (Has(Walk(from + 8, dest, 8), t) <==> from < t < 81 && (t - from) % 8 == 0)
    ensures from + 72 == dest ==>
              (Has(Walk(from + 8, dest, 8), t) <==> from < t < dest && (t - from) % 8 == 0)
  {
    if from + 72 == dest {
      WalkHitUp(from + 8, dest, t);
    } else {
      EightRemainder(dest - (from + 8), m);
      WalkMissUp(from + 8, dest, t);
    }
    EightSplit(t - from);
  }

  /** The walk down a file with stride -8, from the square before `from`. */
  lemma FileWalkDown(from: nat, dest: nat, m: int, t: nat)
    requires from < 81 && from - dest == 9 * m && 0 < m
    ensures dest + 72 != from ==>
              (Has(Walk(from - 8, dest, -8), t) <==> t < from && (from - t) % 8 == 0)
    ensures dest + 72 == from ==>
              (Has(Walk(from - 8, dest, -8), t) <==> dest < t < from && (from - t) % 8 == 0)
  {
    if dest + 72 == from {
      WalkHitDown(from - 8, dest, t);
    } else {
      if from - 8 >= dest {
        EightRemainder((from - 8) - dest, m);
      }
      WalkMissDown(from - 8, dest, t);
    }
    EightSplit(from - t);
  }

  /** Example: from square 0 to square 72 (first to last rank of one file) the walk collects 8, 16, ..., 64. */
  lemma BetweenZeroSeventyTwo(t: nat)
    ensures Has(BetweenSpec(0, 72), t) <==> 0 < t < 72 && t % 8 == 0
  {
    BetweenSameFile(0, 72, t);
  }

  /** Example: from square 0 to square 18 (two ranks up the same file) the walk collects 8, 16, ..., 80. */
  lemma BetweenZeroEighteen(t: nat)
    ensures Has(BetweenSpec(0, 18), t) <==> 0 < t <= 80 && t % 8 == 0
  {
    BetweenSameFile(0, 18, t);
  }

  /**
   * A walk with stride 7 that can never land on `dest` runs to the edge: it collects
   * `sq`, `sq + 7`, ... up to square 80.
   */
  lemma {:induction false} WalkSevenMissUp(sq: int, dest: int, t: nat)
    requires 0 <= sq
    requires dest < sq || (dest - sq) % 7 != 0
    ensures Has(Walk(sq, dest, 7), t) <==> sq <= t < 81 && (t - sq) % 7 == 0
    decreases 81 - sq
  {
    if !IsValid(sq) {
      HasZero(t);
    } else {
      WalkHas(sq, dest, 7, t);
      Mod7Shift(dest - (sq + 7));
      Mod7Shift(t - (sq + 7));
      WalkSevenMissUp(sq + 7, dest, t);
    }
  }

  lemma Mod7Shift(x: int)
    ensures (x + 7) % 7 == x % 7
  {
  }

  /**
   * Two squares one rank and one file apart in the same direction (`from` and `from + 10`) are
   * neighbours on a diagonal, so nothing lies between them; but the stride is 7, which never
   * meets `from + 10`, so the walk collects every seventh square from `from` to the edge
   * (for `from == 0`: the squares 7, 14, ..., 77, none of them on that diagonal).
   */
  lemma BetweenDiagonalNeighbour(from: nat, t: nat)
    requires from + 10 < 81 && File(from) < 8
    ensures Has(BetweenSpec(from, from + 10), t) <==> from < t < 81 && (t - from) % 7 == 0
  {
    var dest := from + 10;
    assert dest == 9 * (Rank(from) + 1) + (File(from) + 1);
    assert Rank(dest) == Rank(from) + 1 && File(dest) == File(from) + 1;
    DirectionValues(from, dest);
    assert BetweenSpec(from, dest) == Walk(from + 7, dest, 7);
    WalkSevenMissUp(from + 7, dest, t);
    assert t >= from + 7 ==> ((t - (from + 7)) % 7 == 0 <==> (t - from) % 7 == 0);
    assert from < t < from + 7 ==> (t - from) % 7 != 0;
  }

  // ---------------------------------------------------------------------------
  // The intended strides
  // ---------------------------------------------------------------------------

  /**
   * The strides of this board, whose ranks are 9 squares apart: 1 along a rank, 9 along a
   * file, 10 along a diagonal on which rank and file grow together and 8 along the other.
   */
  function DirectionFixed(from: nat, dest: nat): int
  {
    var dr, df := Rank(dest) - Rank(from), File(dest) - File(from);
    if dr == 0 then (if from > dest then -1 else 1)
    else if df == 0 then (if from > dest then -9 else 9)
    else if Abs(dr) == Abs(df) then
      (if (dr > 0) == (df > 0) then (if dr > 0 then 10 else -10) else (if dr > 0 then 8 else -8))
    else 0
  }

  /** `between` with the intended strides. */
  function BetweenFixed(from: nat, dest: nat): nat
  {
    if !IsValid(from) || !IsValid(dest) || from == dest then 0
    else
      var offset := DirectionFixed(from, dest);
      if offset == 0 then 0 else Walk(from + offset, dest, offset)
  }

  /** A number written as `9 * k + d` with `d` strictly between -9 and 9 is a multiple of 9 exactly when `d` is 0. */
  lemma NineMultiple(x: int, k: int, d: int)
    requires x == 9 * k + d && -9 < d < 9
    ensures x % 9 == 0 <==> d == 0
  {
    if d > 0 {
      assert x == 9 * k + d && 0 < d < 9;
    } else if d < 0 {
      assert x == 9 * (k - 1) + (d + 9) && 0 < d + 9 < 9;
    }
  }

  /** A stride-9 walk up to a square a whole number of ranks away collects the squares before it. */
  lemma {:induction false} WalkFileUp(sq: int, dest: int, t: nat)
    requires 0 <= sq <= dest < 81 && (dest - sq) % 9 == 0
    ensures Has(Walk(sq, dest, 9), t) <==> sq <= t < dest && (t - sq) % 9 == 0
    decreases dest - sq
  {
    if sq == dest {
      HasZero(t);
    } else {
      WalkHas(sq, dest, 9, t);
      FileUpStep(sq, dest, t);
      WalkFileUp(sq + 9, dest, t);
    }
  }

  /** The arithmetic of one stride-9 step up: the next square is still a whole number of ranks below. */
  lemma FileUpStep(sq: int, dest: int, t: int)
    requires 0 <= sq < dest && (dest - sq) % 9 == 0
    ensures dest - sq >= 9 && (dest - (sq + 9)) % 9 == 0
    ensures (sq <= t < dest && (t - sq) % 9 == 0) <==>
            (t == sq || (sq + 9 <= t < dest && (t - (sq + 9)) % 9 == 0))
  {
    NineMultiple(dest - sq, (dest - sq) / 9, (dest - sq) % 9);
    NineMultiple(dest - (sq + 9), (dest - sq) / 9 - 1, 0);
    var k, d := (t - sq) / 9, (t - sq) % 9;
    NineMultiple(t - (sq + 9), k - 1, d);
  }

  /** A stride-9 walk down to a square a whole number of ranks away collects the squares before it. */
  lemma {:induction false} WalkFileDown(sq: int, dest: int, t: nat)
    requires 0 <= dest <= sq < 81 && (sq - dest) % 9 == 0
    ensures Has(Walk(sq, dest, -9), t) <==> dest < t <= sq && (sq - t) % 9 == 0
    decreases sq - dest
  {
    if sq == dest {
      HasZero(t);
    } else {
      WalkHas(sq, dest, -9, t);
      FileDownStep(sq, dest, t);
      WalkFileDown(sq - 9, dest, t);
    }
  }

  /** The arithmetic of one stride-9 step down: the next square is still a whole number of ranks above. */
  lemma FileDownStep(sq: int, dest: int, t: int)
    requires dest < sq && (sq - dest) % 9 == 0
    ensures sq - dest >= 9 && ((sq - 9) - dest) % 9 == 0
    ensures (dest < t <= sq && (sq - t) % 9 == 0) <==>
            (t == sq || (dest < t <= sq - 9 && ((sq - 9) - t) % 9 == 0))
  {
    NineMultiple(sq - dest, (sq - dest) / 9, (sq - dest) % 9);
    NineMultiple((sq - 9) - dest, (sq - dest) / 9 - 1, 0);
    var k, d := (sq - t) / 9, (sq - t) % 9;
    NineMultiple((sq - 9) - t, k - 1, d);
  }

  /**
   * With the intended strides, for two squares on the same file `between` is exactly the
   * squares of that file on the ranks strictly between theirs.
   */
  lemma BetweenFixedSameFile(from: nat, dest: nat, t: nat)
    requires IsValid(from) && IsValid(dest) && from != dest && File(from) == File(dest)
    ensures Has(BetweenFixed(from, dest), t) <==>
      t < 81 && File(t) == File(from) &&
      (Rank(from) < Rank(t) < Rank(dest) || Rank(dest) < Rank(t) < Rank(from))
  {
    var m := Rank(dest) - Rank(from);
    assert dest - from == 9 * m;
    if from < dest {
      assert DirectionFixed(from, dest) == 9;
      assert BetweenFixed(from, dest) == Walk(from + 9, dest, 9);
      NineMultiple(dest - (from + 9), m - 1, 0);
      WalkFileUp(from + 9, dest, t);
      FileSteps(from, dest, t);
    } else {
      assert DirectionFixed(from, dest) == -9;
      assert BetweenFixed(from, dest) == Walk(from - 9, dest, -9);
      NineMultiple((from - 9) - dest, -m - 1, 0);
      WalkFileDown(from - 9, dest, t);
      FileSteps(dest, from, t);
    }
  }

  /** Between two squares of one file, the squares a whole number of ranks from the lower one. */
  lemma FileSteps(lo: nat, hi: nat, t: nat)
    requires lo < hi < 81 && File(lo) == File(hi)
    ensures (lo < t < hi && (t - lo) % 9 == 0) <==> (File(t) == File(lo) && Rank(lo) < Rank(t) < Rank(hi))
    ensures (lo < t < hi && (t - lo) % 9 == 0) <==> (lo + 9 <= t < hi && (t - (lo + 9)) % 9 == 0)
    ensures (lo < t < hi && (t - lo) % 9 == 0) <==> (lo < t <= hi - 9 && (hi - 9 - t) % 9 == 0)
  {
    var a, b, f := lo / 9, hi / 9, lo % 9;
    var q, r := t / 9, t % 9;
    assert lo == 9 * a + f && hi == 9 * b + f && t == 9 * q + r;
    NineMultiple(t - lo, q - a, r - f);
    NineMultiple(t - (lo + 9), q - a - 1, r - f);
    NineMultiple(hi - 9 - t, b - 1 - q, f - r);
  }

  /** With the intended strides the same-rank case is unchanged. */
  lemma BetweenFixedSameRank(from: nat, dest: nat, t: nat)
    requires IsValid(from) && IsValid(dest) && from != dest && Rank(from) == Rank(dest)
    ensures Has(BetweenFixed(from, dest), t) <==> (from < t < dest || dest < t < from)
  {
    if from < dest {
      WalkUp(from + 1, dest, t);
    } else {
      WalkDown(from - 1, dest, t);
    }
  }

  /** The distance from `x` to `y` counted in the direction `a` (up when `a` is positive). */
  function Along(x: int, y: int, a: int): int
  {
    if a > 0 then y - x else x - y
  }

  /**
   * `t` lies on the diagonal that leaves `sq` with `a` ranks and `b` files per step, from `sq`
   * itself up to, but not including, the rank of `dest`.
   */
  predicate OnSegment(sq: nat, dest: nat, a: int, b: int, t: nat)
  {
    t < 81 && 0 <= Along(Rank(sq), Rank(t), a) < Along(Rank(sq), Rank(dest), a)
    && Along(File(sq), File(t), b) == Along(Rank(sq), Rank(t), a)
  }

  /**
   * A diagonal walk with the intended stride `9 * a + b` towards a square on that diagonal
   * collects the diagonal's squares from `sq` up to `dest`.
   */
  lemma {:induction false} WalkDiagonal(sq: nat, dest: nat, a: int, b: int, t: nat)
    requires (a == 1 || a == -1) && (b == 1 || b == -1)
    requires sq < 81 && dest < 81
    requires Along(Rank(sq), Rank(dest), a) == Along(File(sq), File(dest), b) >= 0
    ensures Has(Walk(sq, dest, 9 * a + b), t) <==> OnSegment(sq, dest, a, b, t)
    decreases Along(Rank(sq), Rank(dest), a)
  {
    if Along(Rank(sq), Rank(dest), a) == 0 {
      assert sq == dest by {
        assert sq == 9 * Rank(sq) + File(sq) && dest == 9 * Rank(dest) + File(dest);
      }
      HasZero(t);
    } else {
      var next := DiagonalNext(sq, dest, a, b, t);
      WalkHas(sq, dest, 9 * a + b, t);
      WalkDiagonal(next, dest, a, b, t);
    }
  }

  /** One step of a diagonal walk that has not arrived: where it lands, and what is left. */
  lemma DiagonalNext(sq: nat, dest: nat, a: int, b: int, t: nat) returns (next: nat)
    requires (a == 1 || a == -1) && (b == 1 || b == -1)
    requires sq < 81 && dest < 81
    requires Along(Rank(sq), Rank(dest), a) == Along(File(sq), File(dest), b) > 0
    ensures next == sq + 9 * a + b && next < 81 && sq != dest
    ensures Along(Rank(next), Rank(dest), a) == Along(File(next), File(dest), b)
    ensures 0 <= Along(Rank(next), Rank(dest), a) < Along(Rank(sq), Rank(dest), a)
    ensures OnSegment(sq, dest, a, b, t) <==> t == sq || OnSegment(next, dest, a, b, t)
  {
    next := sq + 9 * a + b;
    assert sq == 9 * Rank(sq) + File(sq);
    assert t < 81 ==> t == 9 * Rank(t) + File(t);
    assert 0 <= File(sq) + b < 9 && 0 <= Rank(sq) + a < 9;
    assert next == 9 * (Rank(sq) + a) + (File(sq) + b);
    assert Rank(next) == Rank(sq) + a && File(next) == File(sq) + b;
  }

  /**
   * With the intended strides, for two squares on a diagonal `between` is exactly the squares
   * of that diagonal on the ranks and files strictly between theirs.
   */
  lemma BetweenFixedDiagonal(from: nat, dest: nat, t: nat)
    requires IsValid(from) && IsValid(dest) && Rank(from) != Rank(dest)
    requires Abs(Rank(dest) - Rank(from)) == Abs(File(dest) - File(from))
    ensures Has(BetweenFixed(from, dest), t) <==>
      t < 81 && Abs(Rank(t) - Rank(from)) == Abs(File(t) - File(from)) &&
      (Rank(from) < Rank(t) < Rank(dest) || Rank(dest) < Rank(t) < Rank(from)) &&
      (File(from) < File(t) < File(dest) || File(dest) < File(t) < File(from))
  {
    var a := if Rank(dest) > Rank(from) then 1 else -1;
    var b := if File(dest) > File(from) then 1 else -1;
    assert File(from) != File(dest);
    assert DirectionFixed(from, dest) == 9 * a + b;
    assert from != dest;
    assert BetweenFixed(from, dest) == Walk(from + (9 * a + b), dest, 9 * a + b);
    var next := DiagonalNext(from, dest, a, b, t);
    WalkDiagonal(next, dest, a, b, t);
    SegmentMeaning(from, dest, a, b, next, t);
  }

  /** Past its first square, a diagonal segment is the squares strictly between its ends. */
  lemma SegmentMeaning(from: nat, dest: nat, a: int, b: int, next: nat, t: nat)
    requires a == (if Rank(dest) > Rank(from) then 1 else -1)
    requires b == (if File(dest) > File(from) then 1 else -1)
    requires from < 81 && dest < 81 && Rank(from) != Rank(dest)
    requires Abs(Rank(dest) - Rank(from)) == Abs(File(dest) - File(from))
    requires next == from + 9 * a + b && next < 81
    requires Rank(next) == Rank(from) + a && File(next) == File(from) + b
    ensures OnSegment(next, dest, a, b, t) <==>
      t < 81 && Abs(Rank(t) - Rank(from)) == Abs(File(t) - File(from)) &&
      (Rank(from) < Rank(t) < Rank(dest) || Rank(dest) < Rank(t) < Rank(from)) &&
      (File(from) < File(t) < File(dest) || File(dest) < File(t) < File(from))
  {
  }

  /** Example: from square 0 to square 20 (two ranks and two files up) the intended walk collects square 10 alone. */
  lemma BetweenFixedZeroTwenty(t: nat)
    ensures Has(BetweenFixed(0, 20), t) <==> t == 10
  {
    BetweenFixedDiagonal(0, 20, t);
    if t < 81 {
      assert t == 9 * Rank(t) + File(t);
    }
  }

  /** Example: from square 0 to square 18 the intended walk collects square 9 alone. */
  lemma BetweenFixedZeroEighteen(t: nat)
    ensures Has(BetweenFixed(0, 18), t) <==> t == 9
  {
    BetweenFixedSameFile(0, 18, t);
  }
}
