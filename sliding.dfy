/**
 * Ray casting for the sliding pieces (src/magics.rs: `checked_add`, `sliding_attacks`,
 * `Magic::attack_mask`).
 *
 * A ray starts at `sq` and repeatedly adds a delta. A step is taken only when the new
 * square is a square of the board and lies at most one file and one rank from the previous
 * one; this is what keeps a ray from wrapping from one edge of the board to the other. The
 * first occupied square on a ray is attacked and ends the ray.
 */
module Sliding {
  import opened Wrappers
  import opened Bits
  import opened Consts

  // ---------------------------------------------------------------------------
  // Deltas. `Square::DELTA_*` is used by the source but not defined in the files shown;
  // these values follow the layout: north is one rank up (+9, the direction of
  // `bits::north`), east is one file up (+1, towards FILE_1 at file index 8).
  // ---------------------------------------------------------------------------

  const DELTA_N: int := 9
  const DELTA_E: int := 1
  const DELTA_S: int := -9
  const DELTA_W: int := -1
  const DELTA_NE: int := 10
  const DELTA_SE: int := -8
  const DELTA_SW: int := -10
  const DELTA_NW: int := 8

  /** `BISHOP_DELTAS` */
  const BISHOP_DELTAS: seq<int> := [DELTA_NE, DELTA_SE, DELTA_SW, DELTA_NW]

  /** `ROOK_DELTAS` */
  const ROOK_DELTAS: seq<int> := [DELTA_N, DELTA_E, DELTA_S, DELTA_W]

  /** A delta is an `i8`; a zero delta would make `sliding_attacks` loop forever. */
  predicate IsDelta(delta: int)
  {
    delta != 0 && -128 <= delta < 128
  }

  predicate AreDeltas(deltas: seq<int>)
  {
    forall k | 0 <= k < |deltas| :: IsDelta(deltas[k])
  }

  /**
   * `checked_add(sq, delta)`: the sum in `i16`, then truncated to `u8` (`res as u8`) and
   * checked with `Square::is_valid`.
   */
  function CheckedAdd(sq: nat, delta: int): (r: Option<nat>)
    requires sq < 256 && -128 <= delta < 128
    ensures r.Some? ==> IsValid(r.value)
  {
    var res := sq + delta;
    var truncated := res % 256;
    if IsValid(truncated) then Some(truncated) else None
  }

  /** From a square of the board, `checked_add` is `Some` exactly when the sum is a square. */
  lemma CheckedAddOnBoard(sq: nat, delta: int)
    requires sq < 81 && -128 <= delta < 128
    ensures CheckedAdd(sq, delta) == if 0 <= sq + delta < 81 then Some(sq + delta) else None
  {
    var res := sq + delta;
    if res < 0 {
      assert res % 256 == res + 256;
    }
  }

  /** The test of `sliding_attacks` that a step moves at most one file and one rank. */
  predicate Adjacent(prev: nat, next: nat)
  {
    Abs(File(prev) - File(next)) <= 1 && Abs(Rank(prev) - Rank(next)) <= 1
  }

  /**
   * With a zero delta the inner loop of `sliding_attacks` never moves: from the state
   * `sq_prev == sq`, `sq_opt == Some(sq)` it passes the adjacency test and, when `sq` is not
   * occupied, returns to the same state, so the loop does not end. `SlidingAttacks` excludes
   * zero deltas (`IsDelta`).
   */
  lemma ZeroDeltaStalls(sq: nat)
    requires sq < 81
    ensures CheckedAdd(sq, 0) == Some(sq)
    ensures Adjacent(sq, sq)
    ensures !IsDelta(0)
  {
    CheckedAddOnBoard(sq, 0);
  }

  /** The measure a ray decreases: the distance to the end of the squares in its direction. */
  function Left(next: Option<nat>, delta: int): nat
    requires next.Some? ==> next.value < 81
  {
    if next.None? then 0 else if delta > 0 then 82 - next.value else next.value + 2
  }

  /**
   * The squares the inner loop of `sliding_attacks` adds, from the state `sq_prev == prev`,
   * `sq_opt == next` on.
   */
  function RayFrom(prev: nat, next: Option<nat>, delta: int, occ: nat): nat
    requires prev < 81 && IsDelta(delta)
    requires next.Some? ==> next.value < 81
    decreases Left(next, delta)
  {
    match next
    case None => 0
    case Some(s) =>
      if !Adjacent(prev, s) then 0
      else if Has(occ, s) then Bb(s)
      else
        CheckedAddOnBoard(s, delta);
        Or(Bb(s), RayFrom(s, CheckedAdd(s, delta), delta, occ))
  }

  /** The squares attacked from `sq` along one delta. */
  function Ray(sq: nat, delta: int, occ: nat): nat
    requires sq < 81 && IsDelta(delta)
  {
    RayFrom(sq, CheckedAdd(sq, delta), delta, occ)
  }

  /** What `sliding_attacks(deltas, sq, occupied)` returns: the union of the rays. */
  function SlidingSpec(deltas: seq<int>, sq: nat, occ: nat): nat
    requires sq < 81 && AreDeltas(deltas)
  {
    if |deltas| == 0 then 0
    else Or(SlidingSpec(deltas[..|deltas| - 1], sq, occ), Ray(sq, deltas[|deltas| - 1], occ))
  }

  /** `sliding_attacks(deltas, sq, occupied)` */
  method SlidingAttacks(deltas: seq<int>, sq: nat, occupied: nat) returns (bb: nat)
    requires sq < 81 && AreDeltas(deltas)
    ensures bb == SlidingSpec(deltas, sq, occupied)
  {
    bb := 0;
    for k := 0 to |deltas|
      invariant bb == SlidingSpec(deltas[..k], sq, occupied)
    {
      var delta := deltas[k];
      ghost var before := bb;
      var sqPrev := sq;
      var sqOpt := CheckedAdd(sq, delta);
      while sqOpt.Some?
        invariant sqPrev < 81 && (sqOpt.Some? ==> sqOpt.value < 81)
        invariant Or(bb, RayFrom(sqPrev, sqOpt, delta, occupied)) == Or(before, Ray(sq, delta, occupied))
        decreases Left(sqOpt, delta)
      {
        var sqTmp := sqOpt.value;
        if Abs(File(sqPrev) - File(sqTmp)) <= 1 && Abs(Rank(sqPrev) - Rank(sqTmp)) <= 1 {
          CheckedAddOnBoard(sqTmp, delta);
          var rest := RayFrom(sqTmp, CheckedAdd(sqTmp, delta), delta, occupied);
          OrAssoc(bb, Bb(sqTmp), rest);
          bb := Or(bb, Bb(sqTmp));
          AndPow2(occupied, sqTmp);
          if And(occupied, Bb(sqTmp)) != 0 {
            break;
          }
          sqPrev := sqTmp;
          sqOpt := CheckedAdd(sqTmp, delta);
        } else {
          break;
        }
      }
      assert deltas[..k + 1][..k] == deltas[..k];
    }
    assert deltas[..|deltas|] == deltas;
  }

  // ---------------------------------------------------------------------------
  // Properties of a ray
  // ---------------------------------------------------------------------------

  /**
   * Every square of a ray is a square of the board that lies strictly beyond `prev` in the
   * direction of the delta; in particular a ray never contains its starting square.
   */
  lemma {:induction false} RaySide(prev: nat, next: Option<nat>, delta: int, occ: nat, t: nat)
    requires prev < 81 && IsDelta(delta)
    requires next.Some? ==> next.value < 81 && next.value == prev + delta
    requires Has(RayFrom(prev, next, delta, occ), t)
    ensures t < 81 && next.Some?
    ensures delta > 0 ==> next.value <= t
    ensures delta < 0 ==> t <= next.value
    decreases Left(next, delta)
  {
    match next
    case None =>
      HasZero(t);
    case Some(s) =>
      if !Adjacent(prev, s) {
        HasZero(t);
      } else if Has(occ, s) {
      } else {
        CheckedAddOnBoard(s, delta);
        var rest := CheckedAdd(s, delta);
        HasOr(Bb(s), RayFrom(s, rest, delta, occ), t);
        if t != s {
          RaySide(s, rest, delta, occ, t);
        }
      }
  }

  /**
   * A step that passes the adjacency test with the delta `9 * dr + df` (`dr`, `df` in
   * -1..1) moves exactly `dr` ranks and `df` files.
   */
  lemma StepGeometry(prev: nat, s: nat, dr: int, df: int)
    requires prev < 81 && s < 81 && -1 <= dr <= 1 && -1 <= df <= 1
    requires s == prev + 9 * dr + df && Adjacent(prev, s)
    ensures Rank(s) == Rank(prev) + dr && File(s) == File(prev) + df
  {
    var dRank, dFile := Rank(s) - Rank(prev), File(s) - File(prev);
    assert 9 * dRank + dFile == 9 * dr + df;
    assert 9 * (dRank - dr) == df - dFile;
  }

  /** `k * d` for a unit direction `d` in -1..1, written without multiplication. */
  function Scale(k: nat, d: int): int
  {
    if d > 0 then k else if d < 0 then -(k as int) else 0
  }

  /**
   * A ray along the delta `9 * dr + df` stays on its line: the `k`-th square of the ray
   * (`k >= 1`) is `k` ranks and files away in the directions `dr` and `df`.
   */
  lemma {:induction false} RayLine(prev: nat, next: Option<nat>, dr: int, df: int, occ: nat, t: nat)
    returns (k: nat)
    requires prev < 81 && -1 <= dr <= 1 && -1 <= df <= 1 && (dr, df) != (0, 0)
    requires next.Some? ==> next.value < 81 && next.value == prev + 9 * dr + df
    requires Has(RayFrom(prev, next, 9 * dr + df, occ), t)
    ensures k >= 1
    ensures Rank(t) == Rank(prev) + Scale(k, dr) && File(t) == File(prev) + Scale(k, df)
    decreases Left(next, 9 * dr + df)
  {
    var delta := 9 * dr + df;
    match next
    case None =>
      HasZero(t);
    case Some(s) =>
      if !Adjacent(prev, s) {
        HasZero(t);
      } else {
        StepGeometry(prev, s, dr, df);
        if Has(occ, s) {
          k := 1;
        } else {
          CheckedAddOnBoard(s, delta);
          var rest := CheckedAdd(s, delta);
          HasOr(Bb(s), RayFrom(s, rest, delta, occ), t);
          if t == s {
            k := 1;
          } else {
            var j := RayLine(s, rest, dr, df, occ, t);
            k := j + 1;
          }
        }
      }
  }

  /** The first occupied square ends a ray: nothing beyond an occupied square of the ray is in it. */
  lemma {:induction false} RayBlocked(prev: nat, next: Option<nat>, delta: int, occ: nat, t: nat, u: nat)
    requires prev < 81 && IsDelta(delta)
    requires next.Some? ==> next.value < 81 && next.value == prev + delta
    requires Has(RayFrom(prev, next, delta, occ), t) && Has(occ, t)
    requires Has(RayFrom(prev, next, delta, occ), u)
    ensures delta > 0 ==> u <= t
    ensures delta < 0 ==> t <= u
    decreases Left(next, delta)
  {
    match next
    case None =>
      HasZero(t);
    case Some(s) =>
      if !Adjacent(prev, s) {
        HasZero(t);
      } else if Has(occ, s) {
      } else {
        CheckedAddOnBoard(s, delta);
        var rest := CheckedAdd(s, delta);
        HasOr(Bb(s), RayFrom(s, rest, delta, occ), t);
        HasOr(Bb(s), RayFrom(s, rest, delta, occ), u);
        RaySide(s, rest, delta, occ, t);
        if u != s {
          RaySide(s, rest, delta, occ, u);
          RayBlocked(s, rest, delta, occ, t, u);
        }
      }
  }

  /**
   * A square of the empty-board ray with no occupied square of that ray before it is in
   * the ray: together with `RayBlocked`, the ray runs exactly up to and including the
   * first occupied square.
   */
  lemma {:induction false} RayReaches(prev: nat, next: Option<nat>, delta: int, occ: nat, t: nat)
    requires prev < 81 && IsDelta(delta)
    requires next.Some? ==> next.value < 81 && next.value == prev + delta
    requires Has(RayFrom(prev, next, delta, 0), t)
    requires forall u: nat :: Has(RayFrom(prev, next, delta, 0), u) && (if delta > 0 then u < t else t < u)
               ==> !Has(occ, u)
    ensures Has(RayFrom(prev, next, delta, occ), t)
    decreases Left(next, delta)
  {
    match next
    case None =>
      HasZero(t);
    case Some(s) =>
      if !Adjacent(prev, s) {
        HasZero(t);
      } else {
        HasZero(s);
        CheckedAddOnBoard(s, delta);
        var rest := CheckedAdd(s, delta);
        HasOr(Bb(s), RayFrom(s, rest, delta, 0), t);
        HasOr(Bb(s), RayFrom(s, rest, delta, occ), t);
        if t != s {
          RaySide(s, rest, delta, 0, t);
          HasOr(Bb(s), RayFrom(s, rest, delta, 0), s);
          assert !Has(occ, s);
          forall u: nat | Has(RayFrom(s, rest, delta, 0), u) && (if delta > 0 then u < t else t < u)
            ensures !Has(occ, u)
          {
            HasOr(Bb(s), RayFrom(s, rest, delta, 0), u);
          }
          RayReaches(s, rest, delta, occ, t);
        }
      }
  }

  /** More occupied squares can only shorten a ray. */
  lemma {:induction false} RayMonotone(prev: nat, next: Option<nat>, delta: int, occ1: nat, occ2: nat, t: nat)
    requires prev < 81 && IsDelta(delta)
    requires next.Some? ==> next.value < 81
    requires forall i: nat :: Has(occ1, i) ==> Has(occ2, i)
    requires Has(RayFrom(prev, next, delta, occ2), t)
    ensures Has(RayFrom(prev, next, delta, occ1), t)
    decreases Left(next, delta)
  {
    match next
    case None =>
      HasZero(t);
    case Some(s) =>
      if !Adjacent(prev, s) {
        HasZero(t);
      } else {
        CheckedAddOnBoard(s, delta);
        var rest := CheckedAdd(s, delta);
        if !Has(occ1, s) {
          HasOr(Bb(s), RayFrom(s, rest, delta, occ1), t);
          if !Has(occ2, s) {
            HasOr(Bb(s), RayFrom(s, rest, delta, occ2), t);
            if t != s {
              RayMonotone(s, rest, delta, occ1, occ2, t);
            }
          }
        }
      }
  }

  // ---------------------------------------------------------------------------
  // Properties of sliding_attacks
  // ---------------------------------------------------------------------------

  /** A square is attacked exactly when some delta's ray reaches it. */
  lemma {:induction false} SlidingBits(deltas: seq<int>, sq: nat, occ: nat, t: nat)
    requires sq < 81 && AreDeltas(deltas)
    ensures Has(SlidingSpec(deltas, sq, occ), t) <==>
              exists k :: 0 <= k < |deltas| && Has(Ray(sq, deltas[k], occ), t)
    decreases |deltas|
  {
    if |deltas| == 0 {
      HasZero(t);
    } else {
      var n := |deltas| - 1;
      var init := deltas[..n];
      var a := SlidingSpec(init, sq, occ);
      var b := Ray(sq, deltas[n], occ);
      assert AreDeltas(init) by {
        forall k | 0 <= k < |init|
          ensures IsDelta(init[k])
        {
          assert init[k] == deltas[k];
        }
      }
      assert SlidingSpec(deltas, sq, occ) == Or(a, b);
      SlidingBits(init, sq, occ, t);
      HasOr(a, b, t);
      if Has(a, t) {
        var k :| 0 <= k < |init| && Has(Ray(sq, init[k], occ), t);
        assert deltas[k] == init[k];
        assert 0 <= k < |deltas| && Has(Ray(sq, deltas[k], occ), t);
      } else if Has(b, t) {
        assert 0 <= n < |deltas| && Has(Ray(sq, deltas[n], occ), t);
      } else {
        forall k | 0 <= k < |deltas|
          ensures !Has(Ray(sq, deltas[k], occ), t)
        {
          if k < n {
            assert init[k] == deltas[k];
          }
        }
      }
    }
  }

  /** For non-zero deltas the attacks never contain the attacking square, and stay on the board. */
  lemma SlidingNotSelf(deltas: seq<int>, sq: nat, occ: nat, t: nat)
    requires sq < 81 && AreDeltas(deltas)
    requires Has(SlidingSpec(deltas, sq, occ), t)
    ensures t < 81 && t != sq
  {
    SlidingBits(deltas, sq, occ, t);
    var k :| 0 <= k < |deltas| && Has(Ray(sq, deltas[k], occ), t);
    CheckedAddOnBoard(sq, deltas[k]);
    RaySide(sq, CheckedAdd(sq, deltas[k]), deltas[k], occ, t);
  }

  /** Adding occupied squares can only shrink the attack set. */
  lemma SlidingMonotone(deltas: seq<int>, sq: nat, occ1: nat, occ2: nat, t: nat)
    requires sq < 81 && AreDeltas(deltas)
    requires forall i: nat :: Has(occ1, i) ==> Has(occ2, i)
    requires Has(SlidingSpec(deltas, sq, occ2), t)
    ensures Has(SlidingSpec(deltas, sq, occ1), t)
  {
    SlidingBits(deltas, sq, occ2, t);
    var k :| 0 <= k < |deltas| && Has(Ray(sq, deltas[k], occ2), t);
    RayMonotone(sq, CheckedAdd(sq, deltas[k]), deltas[k], occ1, occ2, t);
    SlidingBits(deltas, sq, occ1, t);
  }

  /** A rook attacks only along its rank and file, never wrapping past an edge. */
  lemma RookLines(sq: nat, occ: nat, t: nat)
    requires sq < 81
    requires Has(SlidingSpec(ROOK_DELTAS, sq, occ), t)
    ensures t < 81 && t != sq
    ensures Rank(t) == Rank(sq) || File(t) == File(sq)
  {
    SlidingNotSelf(ROOK_DELTAS, sq, occ, t);
    SlidingBits(ROOK_DELTAS, sq, occ, t);
    var k :| 0 <= k < 4 && Has(Ray(sq, ROOK_DELTAS[k], occ), t);
    var dr, df := if k == 0 then 1 else if k == 2 then -1 else 0, if k == 1 then 1 else if k == 3 then -1 else 0;
    assert ROOK_DELTAS[k] == 9 * dr + df;
    CheckedAddOnBoard(sq, 9 * dr + df);
    var j := RayLine(sq, CheckedAdd(sq, 9 * dr + df), dr, df, occ, t);
  }

  /** A bishop attacks only along its diagonals, never wrapping past an edge. */
  lemma BishopLines(sq: nat, occ: nat, t: nat)
    requires sq < 81
    requires Has(SlidingSpec(BISHOP_DELTAS, sq, occ), t)
    ensures t < 81 && t != sq
    ensures Abs(Rank(t) - Rank(sq)) == Abs(File(t) - File(sq))
  {
    SlidingNotSelf(BISHOP_DELTAS, sq, occ, t);
    SlidingBits(BISHOP_DELTAS, sq, occ, t);
    var k :| 0 <= k < 4 && Has(Ray(sq, BISHOP_DELTAS[k], occ), t);
    var dr, df := if k <= 1 then (if k == 0 then 1 else -1) else (if k == 2 then -1 else 1),
                  if k == 0 || k == 1 then (if k == 0 then 1 else 1) else -1;
    assert BISHOP_DELTAS[k] == 9 * dr + df;
    CheckedAddOnBoard(sq, 9 * dr + df);
    var j := RayLine(sq, CheckedAdd(sq, 9 * dr + df), dr, df, occ, t);
  }

  // ---------------------------------------------------------------------------
  // attack_mask
  // ---------------------------------------------------------------------------

  /** Whether the edge files and ranks of `sq` are kept by `attack_mask`. */
  predicate KeptByMask(sq: nat, t: nat)
  {
    (File(t) == 8 ==> File(sq) == 8) && (File(t) == 0 ==> File(sq) == 0)
    && (Rank(t) == 0 ==> Rank(sq) == 0) && (Rank(t) == 8 ==> Rank(sq) == 8)
  }

  /** The four edge masks are proper bitboards. */
  lemma EdgesBelowLimit()
    ensures FILE_1 < LIMIT && FILE_9 < LIMIT && RANK_I < LIMIT && RANK_A < LIMIT
  {
    File1Bound();
    File9Bound();
    RankIBound();
    RankABound();
  }

  lemma File1Bound()
    ensures FILE_1 < LIMIT
  {
    FileMaskBound(8);
    File1Value();
  }

  lemma File9Bound()
    ensures FILE_9 < LIMIT
  {
    FileMaskBound(0);
    File9Value();
  }

  lemma RankIBound()
    ensures RANK_I < LIMIT
  {
    RankMaskBound(0);
    RankIValue();
  }

  lemma RankABound()
    ensures RANK_A < LIMIT
  {
    RankMaskBound(8);
    RankAValue();
  }

  /** The squares of `FILE_1`, `FILE_9`, `RANK_I` and `RANK_A`. */
  lemma HasEdges(t: nat)
    ensures Has(FILE_1, t) <==> t < 81 && File(t) == 8
    ensures Has(FILE_9, t) <==> t < 81 && File(t) == 0
    ensures Has(RANK_I, t) <==> t < 81 && Rank(t) == 0
    ensures Has(RANK_A, t) <==> t < 81 && Rank(t) == 8
  {
    HasFile1(t);
    HasFile9(t);
    HasRankI(t);
    HasRankA(t);
  }

  lemma HasFile1(t: nat)
    ensures Has(FILE_1, t) <==> t < 81 && File(t) == 8
  {
    HasFileMask(8, t);
    File1Value();
  }

  lemma HasFile9(t: nat)
    ensures Has(FILE_9, t) <==> t < 81 && File(t) == 0
  {
    HasFileMask(0, t);
    File9Value();
  }

  lemma HasRankI(t: nat)
    ensures Has(RANK_I, t) <==> t < 81 && Rank(t) == 0
  {
    HasRankMask(0, t);
    RankIValue();
  }

  lemma HasRankA(t: nat)
    ensures Has(RANK_A, t) <==> t < 81 && Rank(t) == 8
  {
    HasRankMask(8, t);
    RankAValue();
  }

  /** `bb & !edge`, written so that its bits are easy to state. */
  function Without(bb: nat, edge: nat): nat
    requires edge < LIMIT
  {
    And(bb, Not(edge))
  }

  lemma HasWithout(bb: nat, edge: nat, t: nat)
    requires edge < LIMIT
    ensures Has(Without(bb, edge), t) <==> Has(bb, t) && t < 128 && !Has(edge, t)
  {
    HasAnd(bb, Not(edge), t);
    HasNot(edge, t);
  }

  /** `bits::file(sq) != FILE_1` and the like compare bitboards; they compare the indices. */
  lemma EdgeTests(sq: nat)
    requires sq < 81
    ensures FileOf(sq) == FILE_1 <==> File(sq) == 8
    ensures FileOf(sq) == FILE_9 <==> File(sq) == 0
    ensures RankOf(sq) == RANK_I <==> Rank(sq) == 0
    ensures RankOf(sq) == RANK_A <==> Rank(sq) == 8
  {
    File1Test(sq);
    File9Test(sq);
    RankITest(sq);
    RankATest(sq);
  }

  lemma File1Test(sq: nat)
    requires sq < 81
    ensures FileOf(sq) == FILE_1 <==> File(sq) == 8
  {
    File1Value();
    if FileOf(sq) == FILE_1 {
      HasFileOf(sq, 80);
      HasFileMask(8, 80);
    }
  }

  lemma File9Test(sq: nat)
    requires sq < 81
    ensures FileOf(sq) == FILE_9 <==> File(sq) == 0
  {
    File9Value();
    if FileOf(sq) == FILE_9 {
      HasFileOf(sq, 72);
      HasFileMask(0, 72);
    }
  }

  lemma RankITest(sq: nat)
    requires sq < 81
    ensures RankOf(sq) == RANK_I <==> Rank(sq) == 0
  {
    RankIValue();
    if RankOf(sq) == RANK_I {
      HasRankOf(sq, 0);
      HasRankMask(0, 0);
    }
  }

  lemma RankATest(sq: nat)
    requires sq < 81
    ensures RankOf(sq) == RANK_A <==> Rank(sq) == 8
  {
    RankAValue();
    if RankOf(sq) == RANK_A {
      HasRankOf(sq, 72);
      HasRankMask(8, 72);
    }
  }

  /** `bb` with the squares of `edge` cleared, unless `keep` holds. */
  function Trim(bb: nat, keep: bool, edge: nat): nat
    requires edge < LIMIT
  {
    if keep then bb else Without(bb, edge)
  }

  lemma HasTrim(bb: nat, keep: bool, edge: nat, t: nat)
    requires edge < LIMIT
    ensures Has(Trim(bb, keep, edge), t) <==> Has(bb, t) && (keep || (t < 128 && !Has(edge, t)))
  {
    HasWithout(bb, edge, t);
  }

  /**
   * `bb` with each of four edge masks cleared unless `sq` lies on that edge; the masks are
   * parameters so that their values stay out of the reasoning about the clearing.
   */
  function ClearEdgesOf(bb: nat, sq: nat, file1: nat, file9: nat, rankI: nat, rankA: nat): nat
    requires file1 < LIMIT && file9 < LIMIT && rankI < LIMIT && rankA < LIMIT
  {
    var bb1 := Trim(bb, File(sq) == 8, file1);
    var bb2 := Trim(bb1, File(sq) == 0, file9);
    var bb3 := Trim(bb2, Rank(sq) == 0, rankI);
    Trim(bb3, Rank(sq) == 8, rankA)
  }

  /** `bb` with the edges of the board cleared unless `sq` lies on them. */
  function ClearEdges(bb: nat, sq: nat): nat
  {
    EdgesBelowLimit();
    ClearEdgesOf(bb, sq, FILE_1, FILE_9, RANK_I, RANK_A)
  }

  /** What `attack_mask(deltas, sq)` returns: the empty-board attacks less the edges `sq` is not on. */
  function MaskSpec(deltas: seq<int>, sq: nat): nat
    requires sq < 81 && AreDeltas(deltas)
  {
    ClearEdges(SlidingSpec(deltas, sq, NONE), sq)
  }

  /** `Magic::attack_mask(deltas, sq)` */
  method AttackMask(deltas: seq<int>, sq: nat) returns (bb: nat)
    requires sq < 81 && AreDeltas(deltas)
    ensures bb == MaskSpec(deltas, sq)
  {
    EdgesBelowLimit();
    EdgeTests(sq);
    bb := SlidingAttacks(deltas, sq, NONE);
    var file := FileOf(sq);
    var rank := RankOf(sq);
    bb := ClearEdgeMasks(bb, sq, file, rank, FILE_1, FILE_9, RANK_I, RANK_A);
  }

  /**
   * The four tests of `attack_mask`: each edge mask is cleared from `bb` unless the square's
   * own file or rank mask is that edge.
   */
  method ClearEdgeMasks(bb0: nat, sq: nat, file: nat, rank: nat, file1: nat, file9: nat, rankI: nat, rankA: nat)
    returns (bb: nat)
    requires file1 < LIMIT && file9 < LIMIT && rankI < LIMIT && rankA < LIMIT
    requires (file == file1 <==> File(sq) == 8) && (file == file9 <==> File(sq) == 0)
    requires (rank == rankI <==> Rank(sq) == 0) && (rank == rankA <==> Rank(sq) == 8)
    ensures bb == ClearEdgesOf(bb0, sq, file1, file9, rankI, rankA)
  {
    bb := bb0;
    if file != file1 {
      bb := And(bb, Not(file1));
    }
    assert bb == Trim(bb0, File(sq) == 8, file1);
    ghost var bb1 := bb;
    if file != file9 {
      bb := And(bb, Not(file9));
    }
    assert bb == Trim(bb1, File(sq) == 0, file9);
    ghost var bb2 := bb;
    if rank != rankI {
      bb := And(bb, Not(rankI));
    }
    assert bb == Trim(bb2, Rank(sq) == 0, rankI);
    if rank != rankA {
      bb := And(bb, Not(rankA));
    }
  }

  /**
   * The mask is the empty-board attack set less the edge files and ranks the square is not
   * on itself.
   */
  lemma MaskBits(deltas: seq<int>, sq: nat, t: nat)
    requires sq < 81 && AreDeltas(deltas)
    ensures Has(MaskSpec(deltas, sq), t) <==> Has(SlidingSpec(deltas, sq, NONE), t) && KeptByMask(sq, t)
  {
    var bb := SlidingSpec(deltas, sq, NONE);
    if Has(bb, t) {
      SlidingNotSelf(deltas, sq, NONE, t);
    }
    ClearEdgesBits(bb, sq, t);
  }

  /** `ClearEdges` only clears bits, and of the board squares it keeps those `KeptByMask` keeps. */
  lemma ClearEdgesBits(bb: nat, sq: nat, t: nat)
    ensures Has(ClearEdges(bb, sq), t) ==> Has(bb, t)
    ensures t < 81 ==> (Has(ClearEdges(bb, sq), t) <==> Has(bb, t) && KeptByMask(sq, t))
  {
    EdgesBelowLimit();
    HasFile1(t);
    HasFile9(t);
    HasRankI(t);
    HasRankA(t);
    ClearEdgesOfBits(bb, sq, FILE_1, FILE_9, RANK_I, RANK_A, t);
  }

  lemma ClearEdgesOfBits(bb: nat, sq: nat, file1: nat, file9: nat, rankI: nat, rankA: nat, t: nat)
    requires file1 < LIMIT && file9 < LIMIT && rankI < LIMIT && rankA < LIMIT
    requires Has(file1, t) <==> t < 81 && File(t) == 8
    requires Has(file9, t) <==> t < 81 && File(t) == 0
    requires Has(rankI, t) <==> t < 81 && Rank(t) == 0
    requires Has(rankA, t) <==> t < 81 && Rank(t) == 8
    ensures Has(ClearEdgesOf(bb, sq, file1, file9, rankI, rankA), t) ==> Has(bb, t)
    ensures t < 81 ==>
              (Has(ClearEdgesOf(bb, sq, file1, file9, rankI, rankA), t) <==> Has(bb, t) && KeptByMask(sq, t))
  {
    var bb1 := Trim(bb, File(sq) == 8, file1);
    var bb2 := Trim(bb1, File(sq) == 0, file9);
    var bb3 := Trim(bb2, Rank(sq) == 0, rankI);
    HasTrim(bb, File(sq) == 8, file1, t);
    HasTrim(bb1, File(sq) == 0, file9, t);
    HasTrim(bb2, Rank(sq) == 0, rankI, t);
    HasTrim(bb3, Rank(sq) == 8, rankA, t);
  }

  /** The mask is a subset of the empty-board attacks. */
  lemma MaskWithinAttacks(deltas: seq<int>, sq: nat, t: nat)
    requires sq < 81 && AreDeltas(deltas)
    requires Has(MaskSpec(deltas, sq), t)
    ensures Has(SlidingSpec(deltas, sq, NONE), t) && t != sq
  {
    MaskBits(deltas, sq, t);
    SlidingNotSelf(deltas, sq, NONE, t);
  }
}
