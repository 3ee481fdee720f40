# rebus: a verified model of a shogi bitboard core

The project models the core of `rebus`, a shogi engine in early development. It covers:

- how the engine stores a position in bitboards;
- how moves are packed into 16 bits;
- how a move is made on a board;
- the precomputed step tables for the short-range pieces;
- the machinery that builds "magic" lookup tables for the sliding pieces;
- the squares between two squares;
- the king's move generation;
- how positions are read from and written to SFEN records. SFEN is a one-line text form of a shogi position.

The board has 81 squares, numbered `rank * 9 + file` with rank and file indices 0 to 8. A bitboard is a `u128` whose bit `sq` stands for square `sq`. A position keeps the same facts three times, and the board invariant (`Position.Consistent`) ties them together:

- sixteen bitboards: one per piece kind, then one per side;
- the kind on each square;
- the two hands, with seven `u8` counts each.

The modules follow the source files:

| module | file | source |
|---|---|---|
| `Bits` | bits.dfy | `src/bits.rs` |
| `Consts` | consts.dfy | `src/consts.rs` |
| `Moves` | moves.dfy | `src/moves.rs` |
| `Position` | position.dfy | `src/board.rs` |
| `Boards` | board.dfy | `src/board.rs` |
| `Steps`, `AttackTables`, `Attacks` | steps.dfy, attack_tables.dfy, attacks.dfy | `src/attacks.rs` |
| `Sliding`, `Magics` | sliding.dfy, magics.dfy | `src/magics.rs` |
| `Ray` | ray.dfy | `src/ray.rs` |
| `MoveGen` | movegen.dfy | `src/movegen.rs` |
| `Text`, `Notation` | text.dfy, notation.dfy | `src/notation.rs` |

How the model is stated:

- **Methods are proved against functions.** Every method that changes state is proved to compute a function over values. For example, each `Boards.Board` method ensures `Model() == Position.<Op>(old(Model()), …)`. The lemmas then state what those functions mean.
- **Panics.**
  - A panic that only a wrong call can cause becomes a `requires`. This covers an `assert!`, `Piece::from` on 14 or 15, an out-of-range index and `u8` overflow.
  - A panic that SFEN text can trigger becomes an outcome: `Panic` in `Notation.Outcome`, or `None` in an optional text.
- **Bitboards are unbounded naturals**, with AND, OR, XOR, NOT and shifts defined bit by bit. `u128` NOT is taken modulo 2^128, and the `u64` arithmetic of magic hashing is written out with explicit reductions.

Where the source does something that is evidently not what its authors intended, the model does two things (see "## Findings"):

- it keeps the code **as written** and proves a lemma that exhibits the discrepancy;
- it adds a corrected definition and proves the intended property about it.

The central result is `Notation.SfenRoundTrip`: the corrected SFEN reader gives back exactly the consistent position that the corrected SFEN writer wrote.

Two places where the model follows the code rather than the usual conventions:

- The SFEN side-to-move letters are swapped relative to the usual convention: `b` is read as Gote and `w` as Sente (`src/notation.rs:70-74`). The writer uses the same convention (`src/notation.rs:126`), so the model keeps it.
- `to_sfen` writes ranks from rank index 8 down to 0, and each rank from file index 0 up.

## Model

| member | source | states |
|---|---|---|
| `Bits.Bb` | src/bits.rs:20-22 | `bb(sq)` has exactly bit `sq` set and fits a `u128` |
| `Bits.Lsb` | src/bits.rs:10-12 | `lsb` is the lowest set bit: set, with no set bit below it; 128 for the empty board |
| `Bits.Pop` | src/bits.rs:5-7 | `pop` clears exactly the lowest set bit and nothing else |
| `Bits.AndPred` | src/bits.rs:5-7 | `b & (b - 1)` equals `b` minus the power of two of its lowest bit |
| `Bits.PopCount` | src/bits.rs:5-17 | every pop lowers `count` by exactly one, so a pop loop runs `count(b)` times |
| `Bits.CountBound` | src/bits.rs:15-17 | a number below `2^w` has at most `w` set bits, so the popcount of a `u128` fits the `u8` result |
| `Bits.CountPow2` | src/bits.rs:20-22 | `bb(sq)` has popcount 1 |
| `Bits.PopLsbSplit` | src/bits.rs:5-12 | `pop(b)` and `bb(lsb(b))` are disjoint and together make up `b` |
| `Bits.PopBits` | src/bits.rs:5-7 | taking a set bit's power of two away clears exactly that bit |
| `Bits.Merge` | src/magics.rs:70 | `bits::merge` folds a `u128` occupancy into a `u64` word |
| `Bits.HasNot` | src/bits.rs:1 | `!a` on a `u128` complements exactly the bits below 128 (`ALL` is `!0`) |
| `Bits.File1Value` | src/magics.rs:41-42 | `FILE_1` holds exactly the squares of file index 8 |
| `Bits.File9Value` | src/magics.rs:44-45 | `FILE_9` holds exactly the squares of file index 0 |
| `Bits.RankIValue` | src/magics.rs:47-48 | `RANK_I` holds exactly the squares of rank index 0 |
| `Bits.RankAValue` | src/magics.rs:50-51 | `RANK_A` holds exactly the squares of rank index 8 |
| `Bits.HasFileOf` | src/magics.rs:39 | `bits::file(sq)` holds exactly the squares of the file of `sq` |
| `Bits.HasRankOf` | src/magics.rs:40 | `bits::rank(sq)` holds exactly the squares of the rank of `sq` |
| `Consts.FromU8` | src/consts.rs:43-62 | `Piece::from(v)` is the kind whose index is `v`; it is called only below 14, because larger values panic |
| `Consts.FromIdx` | src/consts.rs:22-24 | `Piece::from(p.idx()) == p` for every kind |
| `Consts.IdxInjective` | src/consts.rs:22-24 | distinct kinds have distinct indices |
| `Consts.ToPromoDomain` | src/consts.rs:26-36 | `to_promo_piece` is `Some` exactly for the six promotable kinds, and its result is a promoted kind |
| `Consts.ToPromoInjective` | src/consts.rs:26-36 | two kinds with the same promotion are the same kind |
| `Consts.ToPromoOnto` | src/consts.rs:26-36 | every promoted kind is the promotion of some kind |
| `Consts.CanPromoteIff` | src/consts.rs:38-40 | `can_promote` holds exactly for pawn, lance, knight, silver, bishop and rook |
| `Consts.HandKinds` | src/consts.rs:2-17 | the indices below 7 are exactly the unpromoted kinds other than the king |
| `Consts.FlipInvolution` | src/consts.rs:73-78 | `flip` never returns its argument, and flipping twice gives it back |
| `Consts.SideIdx` | src/consts.rs:80-90 | `idx` is 0 exactly for Sente and 1 exactly for Gote; exactly one of `is_sente` and `is_gote` holds |
| `Consts.OfFileRank` | src/consts.rs:99-109 | for rank and file below 9, `of` is a board square whose `rank` and `file` are the parts |
| `Consts.SquareParts` | src/consts.rs:99-109 | every board square is `of` its own rank and file |
| `Moves.SrcBits` | src/moves.rs:31-37 | the source field `src` reads is exactly bits 0 to 5 of the move |
| `Moves.DstBits` | src/moves.rs:39-41 | the destination field `dst` reads is exactly bits 6 to 11 of the move |
| `Moves.New` | src/moves.rs:18-23 | `Move::new` of two board squares fits a `u16` |
| `Moves.NewRoundTrip` | src/moves.rs:18-49 | for squares below 64, `src`, `dst` and `is_promo` give back the arguments of `Move::new`, and `is_drop` is false |
| `Moves.NewNoDrop` | src/moves.rs:18-23 | `Move::new` never sets the drop flag, for any board squares |
| `Moves.NewDstOverflow` | src/moves.rs:18-45 | a destination in 64..80 turns on the promotion flag and reads back as `to - 64` |
| `Moves.NewSrcOverflow` | src/moves.rs:18-41 | a source in 64..80 reads back as `from - 64` and spills into bit 0 of the destination |
| `Moves.NewZeroToSixtyFour` | src/moves.rs:18-45 | `Move::new(0, 64, false)` reads back as a promotion to square 0 |
| `Moves.DropRoundTrip` | src/moves.rs:25-49 | for every board square, `Move::drop` sets the drop flag, has no source and keeps the kind in the low four bits; below 64 it also gives back the destination |
| `Moves.DropPieceRoundTrip` | src/moves.rs:25-57 | for a kind index below 14 and every board square, `drop_piece` gives back the dropped kind |
| `Moves.DropFourteenPanics` | src/moves.rs:25-57 | `Move::drop(14, to)` passes its assert, yet its kind bits hold 14, on which `Piece::from` panics |
| `Moves.NoneMove` | src/moves.rs:16 | `Move::NONE` is a non-drop, non-promotion move from square 0 to square 0 |
| `Moves.NewWideRoundTrip` | src/moves.rs:18-49 | the corrected seven-bit encoding round-trips source, destination and promotion for all 81 squares |
| `Moves.DropWideRoundTrip` | src/moves.rs:25-57 | the corrected drop round-trips destination and kind for every kind `Piece::from` decodes |
| `Moves.NewWideInjective` | src/moves.rs:18-23 | distinct board moves have distinct corrected encodings |
| `Moves.NewWide` | src/moves.rs:18-23 | the corrected `Move::new` of two board squares fits a `u16` |
| `Moves.DropWide` | src/moves.rs:25-29 | the corrected `Move::drop` accepts only the fourteen kind indices and fits a `u16` |
| `Moves.MoveList.constructor` | src/moves.rs:63-65 | a new list has no moves and length 0 |
| `Moves.MoveList.IsEmpty` | src/moves.rs:76-78 | `is_empty` holds exactly when the list holds no move |
| `Moves.MoveList.Iter` | src/moves.rs:72-74 | `iter` yields the first `len` moves, which are all of them |
| `Moves.MoveList.Add` | src/moves.rs:67-70 | `add` appends the move and counts it; a full vector panics |
| `Moves.NewIsEmpty` | src/moves.rs:63-78 | a new list is empty and iterates over nothing |
| `Position.SideIndex` | src/board.rs:72-75 | a side's bitboard sits at index 14 or 15, after the fourteen kind boards |
| `Position.Empty` | src/board.rs:22-30 | `Board::new()` satisfies the board invariant |
| `Position.EmptyHand` | src/board.rs:245-247 | `Hand::new()` is a valid hand with every count 0 |
| `Position.HandAdd` | src/board.rs:255-257 | `add` keeps the seven counts valid `u8`s; a count of 255 would overflow |
| `Position.HandRemove` | src/board.rs:260-262 | `remove` keeps the counts valid; a count of 0 would underflow |
| `Position.HandAddRemove` | src/board.rs:255-262 | remove after add restores the hand, and so does add after remove |
| `Position.HandAddCounts` | src/board.rs:255-257 | `add` raises only the added kind's count, by one, and leaves the hand non-empty |
| `Position.SideAtOwner` | src/board.rs:190-194 | `side_at` is `Some` exactly on occupied squares and names their only owner |
| `Position.PiecesBits` | src/board.rs:72-75 | `pieces(k, s)` holds exactly the squares where side `s` has a `k` |
| `Position.OccBits` | src/board.rs:181-184 | `occ()` holds exactly the occupied squares |
| `Position.LikesBits` | src/board.rs:143-164 | `king_likes`, `bishop_likes`, `rook_likes` and `gold_likes` hold exactly the squares of the kinds they list |
| `Position.AddPiece` | src/board.rs:216-221 | `add_piece` keeps the shape and widths, and leaves the hands, the counter and the side to move alone |
| `Position.AddBits` | src/board.rs:216-221 | after `add_piece` bit `sq` is also set in the kind's board and the side's board, and nothing else changes |
| `Position.AddPreserves` | src/board.rs:216-221 | on an empty square, `add_piece` keeps the board consistent and puts the piece there, owned by that side alone |
| `Position.RemovePiece` | src/board.rs:223-228 | `remove_piece` keeps the shape and widths |
| `Position.RemoveBits` | src/board.rs:223-228 | after `remove_piece` bit `sq` is flipped in the kind's and the side's boards, and nothing else changes |
| `Position.RemovePreserves` | src/board.rs:223-228 | removing the piece that stands on `sq` keeps the board consistent and empties `sq` |
| `Position.RemoveUndoesAdd` | src/board.rs:216-228 | on an empty square, `remove_piece` exactly undoes `add_piece` |
| `Position.MovePiece` | src/board.rs:205-214 | `move_piece` keeps the shape and widths |
| `Position.MoveBits` | src/board.rs:205-214 | the three XORs of `move_piece` flip `src` in the source kind's board, `dst` in the new kind's board, and both in the side's board |
| `Position.MovePreserves` | src/board.rs:205-214 | a move to an empty square keeps the board consistent, empties `src`, puts the new kind on `dst` for the side, and passes the turn |
| `Position.DropPiece` | src/board.rs:196-203 | `drop_piece` keeps the shape and widths |
| `Position.DropPreserves` | src/board.rs:196-203 | a drop on an empty square keeps the board consistent, takes one piece of the kind from the dropper's hand only, and passes the turn |
| `Position.Capture` | src/board.rs:43-48 | the capture step keeps the side to move and the counter, leaves a distinct source square alone, and leaves `dst` empty or unchanged |
| `Position.Make` | src/board.rs:32-54 | `make` keeps the shape and widths |
| `Position.MakeSideAndCount` | src/board.rs:51-52 | `make` counts one more move but leaves the side to move as it was, because the turn is flipped twice |
| `Position.MakeCapture` | src/board.rs:43-49 | a capture keeps the board consistent, adds the captured kind to the mover's hand, leaves the moved piece, owned by the mover, on `dst`, empties `src`, changes no other square and leaves one occupied square fewer |
| `Position.MakeQuiet` | src/board.rs:39-49 | a non-capturing board move, promoting or not, keeps the board consistent, the hands and the number of pieces |
| `Position.MakeDrop` | src/board.rs:34-38 | a drop keeps the board consistent, places the decoded kind and takes it from the hand |
| `Position.Unpromoted` | src/board.rs:47 | the corrected demotion: it undoes `to_promo_piece` on promoted kinds and leaves the others alone |
| `Position.UnpromotedFitsHand` | src/board.rs:17 | every captured kind but the king has a hand slot once demoted |
| `Position.CapturePromotedPanics` | src/board.rs:47 | as written, `make` cannot capture a promoted piece without indexing past the hand |
| `Position.MakeOkFixedWeaker` | src/board.rs:32-54 | the corrected `make` accepts every move the source accepts |
| `Position.CaptureFixed` | src/board.rs:43-48 | the corrected capture step keeps the shape, the side to move and the counter |
| `Position.MakeFixed` | src/board.rs:32-54 | the corrected `make` keeps the shape and widths |
| `Position.MakeFixedPassesTurn` | src/board.rs:32-54 | the corrected `make` passes the turn to the opponent and counts one more move |
| `Position.MakeFixedAgrees` | src/board.rs:32-54 | wherever the source does not panic, the corrected `make` differs from it only in the side to move |
| `Position.MakeFixedCapture` | src/board.rs:43-49 | a corrected capture, promoted pieces included, keeps the board consistent, adds the demoted kind to the mover's hand, changes no square but `src` and `dst`, leaves one occupied square fewer and passes the turn |
| `Boards.Hand.constructor` | src/board.rs:245-247 | a new hand has seven zero counts |
| `Boards.Hand.Count` | src/board.rs:250-252 | `count` reads the kind's slot, a `u8` |
| `Boards.Hand.Has` | src/board.rs:265-267 | `has` holds exactly when the kind's count is positive |
| `Boards.Hand.IsEmpty` | src/board.rs:270-272 | `is_empty` holds exactly when every count is 0 |
| `Boards.AllZero` | src/board.rs:270-272 | `iter().all(x == 0)` holds exactly when every element is 0 |
| `Boards.Hand.Add` | src/board.rs:255-257 | the array after `add` is `HandAdd` of the array before |
| `Boards.Hand.Remove` | src/board.rs:260-262 | the array after `remove` is `HandRemove` of the array before |
| `Boards.Hand.Clear` | src/board.rs:274-278 | `clear` zeroes every slot, which gives `Hand::new()` |
| `Boards.Board.constructor` | src/board.rs:22-30 | a new board stands for the empty position |
| `Boards.Board.Stm` | src/board.rs:57-59 | `stm()` is the side to move of the position |
| `Boards.Board.Moves` | src/board.rs:62-64 | `moves()` is the move counter, a `u8` |
| `Boards.Board.Pieces` | src/board.rs:72-75 | `pieces` on the arrays is `pieces` on the position |
| `Boards.Board.King` | src/board.rs:166-168 | `king` on the arrays is the king board of the position |
| `Boards.Board.SideBoard` | src/board.rs:176-178 | `side` on the arrays is the side board of the position |
| `Boards.Board.Occ` | src/board.rs:181-184 | `occ` on the arrays is the union of the side boards |
| `Boards.Board.PieceAt` | src/board.rs:186-188 | `piece_at` on the arrays is the kind on the square |
| `Boards.Board.SideAt` | src/board.rs:190-194 | `side_at` on the arrays is `side_at` on the position |
| `Boards.Board.AddPiece` | src/board.rs:216-221 | the array updates of `add_piece` compute `Position.AddPiece` |
| `Boards.Board.RemovePiece` | src/board.rs:223-228 | the array updates of `remove_piece` compute `Position.RemovePiece` |
| `Boards.Board.MovePiece` | src/board.rs:205-214 | the array updates of `move_piece` compute `Position.MovePiece` |
| `Boards.Board.DropPiece` | src/board.rs:196-203 | the updates of `drop_piece`, hand included, compute `Position.DropPiece` |
| `Boards.Board.Capture` | src/board.rs:43-48 | the capture branch of `make` computes `Position.Capture` |
| `Boards.Board.Make` | src/board.rs:32-54 | `make` on the board computes `Position.Make` |
| `Boards.Board.SetStm` | src/board.rs:230-232 | `set_stm` changes the side to move and nothing else |
| `Boards.Board.SetMoves` | src/board.rs:234-236 | `set_moves` changes the counter and nothing else |
| `Boards.Board.SetHand` | src/board.rs:238-240 | `set_hand` copies the given counts into that side's hand and changes nothing else |
| `Attacks.KingSteps` | src/attacks.rs:50-66 | the king entry of `sq` holds exactly the king steps from `sq`, plus the stray bit 81 at square 80 |
| `Attacks.KnightSteps` | src/attacks.rs:68-92 | the knight entry holds exactly the knight jumps for that side |
| `Attacks.SilverSteps` | src/attacks.rs:94-127 | the silver entry holds exactly the silver steps for that side |
| `Attacks.GoldSteps` | src/attacks.rs:129-160 | the gold entry holds exactly the gold steps for that side, plus bit 81 at square 80 |
| `Attacks.KingNotSelf` | src/attacks.rs:50-66 | no king entry contains its own square |
| `Attacks.GoldWithinKingEntry` | src/attacks.rs:129-160 | every gold entry lies within the king entry of the same square |
| `Attacks.SilverWithinKingEntry` | src/attacks.rs:94-127 | every silver entry lies within the king entry of the same square |
| `Attacks.KnightZero` | src/attacks.rs:68-92 | a knight on its last two ranks attacks nothing |
| `Attacks.KnightSilverOnBoard` | src/attacks.rs:68-127 | knight and silver entries name only board squares |
| `Attacks.KingGoldOnBoard` | src/attacks.rs:50-160 | king and gold entries below square 80 name only board squares |
| `Attacks.Square80OffBoard` | src/attacks.rs:50-160 | the king entry and both gold entries of square 80 name the non-square 81 |
| `Attacks.KingOnBoardSteps` | src/attacks.rs:4-6 | restricted to the board, the king entry is exactly the king steps |
| `Attacks.GoldOnBoardSteps` | src/attacks.rs:46-48 | restricted to the board, the gold entry is exactly the gold steps |
| `Attacks.Horse` | src/attacks.rs:34-36 | with the bishop stub, `horse` attacks are the king entry |
| `Attacks.Dragon` | src/attacks.rs:38-40 | with the rook stub, `dragon` attacks are the king entry |
| `Attacks.PawnsBits` | src/attacks.rs:8-13 | Sente pawns attack the square 9 above each pawn, Gote pawns the square 9 below |
| `Attacks.BoardBits` | src/attacks.rs:50-160 | the board mask holds exactly the 81 squares |
| `Steps.KingStepOnBoard` | src/attacks.rs:50-66 | the king steps of the reference geometry stay on the board and never return to the square |
| `Steps.KnightStuck` | src/attacks.rs:68-92 | in the reference geometry a knight on its last two ranks has no jump |
| `Sliding.CheckedAdd` | src/magics.rs:163-170 | `checked_add` returns only valid squares |
| `Sliding.CheckedAddOnBoard` | src/magics.rs:163-170 | from a board square, `checked_add` is `Some` exactly when the sum is a board square |
| `Sliding.SlidingAttacks` | src/magics.rs:134-160 | the loops of `sliding_attacks` compute the union of the rays of the deltas |
| `Sliding.ZeroDeltaStalls` | src/magics.rs:137-157 | with a zero delta, `checked_add` returns the square itself and the adjacency test passes, so the inner loop stays where it is |
| `Sliding.SlidingBits` | src/magics.rs:134-160 | a square is attacked exactly when one of the deltas' rays reaches it |
| `Sliding.RayBlocked` | src/magics.rs:147-149 | the first occupied square ends a ray: nothing beyond it is attacked |
| `Sliding.RayReaches` | src/magics.rs:141-156 | a ray reaches every square of its empty-board ray that has no blocker before it |
| `Sliding.RayLine` | src/magics.rs:141-156 | every square of a ray lies `k >= 1` whole steps along the delta's rank and file direction |
| `Sliding.RaySide` | src/magics.rs:141-156 | every square of a ray is a board square beyond the start, in the delta's direction |
| `Sliding.RayMonotone` | src/magics.rs:147-149 | more occupied squares can only shorten a ray |
| `Sliding.SlidingNotSelf` | src/magics.rs:134-160 | the attacks never include the attacking square, and stay on the board |
| `Sliding.SlidingMonotone` | src/magics.rs:134-160 | adding occupied squares can only shrink the attack set |
| `Sliding.RookLines` | src/magics.rs:173 | with the rook deltas, every attacked square shares the rank or the file of `sq` |
| `Sliding.BishopLines` | src/magics.rs:172 | with the bishop deltas, every attacked square lies on a diagonal of `sq` |
| `Sliding.AttackMask` | src/magics.rs:36-54 | `attack_mask` is the empty-board attacks with the edges `sq` is not on cleared |
| `Sliding.ClearEdgeMasks` | src/magics.rs:41-52 | the four tests and clears of `attack_mask` compute `ClearEdgesOf` |
| `Sliding.EdgeTests` | src/magics.rs:41-52 | comparing the file and rank boards with the edge constants compares the file and rank indices |
| `Sliding.ClearEdgesBits` | src/magics.rs:41-52 | clearing the edges only removes bits, and keeps exactly the board squares `KeptByMask` keeps |
| `Sliding.MaskBits` | src/magics.rs:36-54 | a square is in the mask exactly when it is attacked on an empty board and not on an edge the square itself is off |
| `Sliding.MaskWithinAttacks` | src/magics.rs:36-54 | the mask is a subset of the empty-board attacks |
| `Magics.IndexToOcc` | src/magics.rs:56-67 | the loop of `index_to_occ` computes `OccSpec` |
| `Magics.OccBits` | src/magics.rs:56-67 | the occupancy holds the `j`-th lowest mask bit exactly when bit `j` of the index is set |
| `Magics.OccNth` | src/magics.rs:56-67 | the `j`-th lowest mask bit is in the occupancy exactly when bit `j` of the index is set |
| `Magics.OccSubset` | src/magics.rs:56-67 | `index_to_occ` yields only subsets of the mask |
| `Magics.OccZero` | src/magics.rs:56-67 | index 0 selects nothing |
| `Magics.OccFull` | src/magics.rs:56-67 | the all-ones index selects the whole mask |
| `Magics.OccInjective` | src/magics.rs:56-67 | distinct indices give distinct occupancies |
| `Magics.OccOfIndex` | src/magics.rs:56-67 | every subset of the mask is the occupancy of some index |
| `Magics.OccToIndex` | src/magics.rs:69-72 | the hashed index is below the slice length `2^(64 - shift)` |
| `Magics.OccToIndexZero` | src/magics.rs:69-72 | the empty occupancy hashes to slot 0 |
| `Magics.RookShifts` | src/magics.rs:177-189 | the rook shifts are valid, and their slices add up to `ROOK_ATTACK_TABLE_NUM` (512000) |
| `Magics.BishopShifts` | src/magics.rs:175-201 | the bishop shifts are valid, and their slices add up to `BISHOP_ATTACK_TABLE_NUM` (20224) |
| `Magics.SliceInside` | src/magics.rs:100-103 | every square's slice lies inside the table |
| `Magics.SlicesDisjoint` | src/magics.rs:100-109 | the slices of distinct squares do not overlap |
| `Magics.OffsetEnd` | src/magics.rs:109-120 | after the last square the running count equals the table size |
| `Magics.MaskBound` | src/magics.rs:36-54 | every mask is a bitboard of board squares |
| `Magics.MagicSpec` | src/magics.rs:98-115 | the entry for `sq` has the square's mask, magic and shift, and its slice ends where the next square's begins |
| `Magics.FillSlice` | src/magics.rs:104-108 | the inner loop fills each slot of the slice with the attacks of the last subset hashed there, and writes nothing outside the slice |
| `Magics.WrittenFrom` | src/magics.rs:104-108 | every value written to a slot is the attack set of a subset that hashes there |
| `Magics.WrittenLast` | src/magics.rs:104-108 | with a collision-free magic, each subset's slot holds that subset's attacks |
| `Magics.BuildTable` | src/magics.rs:89-125 | `MagicTable::new` builds 81 entries as specified, and fills every slice of a table of `table_num` slots |
| `Magics.MagicTable.constructor` | src/magics.rs:89-125 | the table is built from its arguments, and every entry and slice is as specified |
| `Magics.MagicTable.MagicOf` | src/magics.rs:127-130 | `magic(sq)` is the entry `new` built for `sq`, placed inside the table |
| `Magics.SlotOfSubset` | src/magics.rs:104-108 | the slot any subset of the mask hashes to holds that subset's sliding attacks |
| `Magics.MagicTable.AttackLookup` | src/magics.rs:74-79 | for a collision-free magic and an occupancy within the mask, `attack` returns the sliding attacks |
| `Magics.MagicTable.PseudoAttackEmpty` | src/magics.rs:81-84 | `pseudo_attack` is the attack set on an empty board |
| `Ray.Between` | src/ray.rs:3-23 | the loop of `between` computes `BetweenSpec` |
| `Ray.DirectionValues` | src/ray.rs:25-44 | `direction` returns ±1 along a rank, ±8 along a file, ±7 along a diagonal and 0 otherwise; the ±9 cases never fire |
| `Ray.DiagonalNotMultiple` | src/ray.rs:34-39 | along a diagonal, the distance between two squares is never a multiple of 9 |
| `Ray.BetweenOnBoard` | src/ray.rs:3-23 | `between` names only board squares, and neither end |
| `Ray.BetweenSameRank` | src/ray.rs:3-23 | on one rank, `between` is exactly the squares strictly between the two |
| `Ray.BetweenSameFile` | src/ray.rs:3-23 | on one file, `between` collects the squares at multiples of 8 from `from` to the board's end; for the two ends of a file (72 apart) it collects the eight squares at multiples of 8 strictly between them |
| `Ray.BetweenZeroSeventyTwo` | src/ray.rs:3-23 | `between(0, 72)` is the squares 8, 16, …, 64 |
| `Ray.BetweenDiagonalNeighbour` | src/ray.rs:34-39 | for diagonal neighbours `from` and `from + 10`, `between` is every seventh square from `from` to the board's end (7, 14, …, 77 for `from == 0`) instead of nothing |
| `Ray.BetweenZeroEighteen` | src/ray.rs:3-23 | `between(0, 18)` is the squares 8, 16, …, 80, not square 9 |
| `Ray.BetweenFixedSameFile` | src/ray.rs:3-23 | with the intended strides, on one file `between` is exactly the squares of that file strictly between the ranks |
| `Ray.BetweenFixedSameRank` | src/ray.rs:3-23 | with the intended strides, on one rank `between` is unchanged |
| `Ray.BetweenFixedZeroEighteen` | src/ray.rs:3-23 | with the intended strides, `between(0, 18)` is square 9 alone |
| `Ray.BetweenFixedDiagonal` | src/ray.rs:3-39 | with the intended strides, for two squares on a diagonal `between` is exactly the squares of that diagonal on the ranks and files strictly between theirs |
| `Ray.BetweenFixedZeroTwenty` | src/ray.rs:3-39 | with the intended strides, `between(0, 20)` is square 10 alone |
| `MoveGen.GenerateMoves` | src/movegen.rs:8-17 | `generate_moves` returns a new, empty list |
| `MoveGen.PushMoves` | src/movegen.rs:24-28 | the pop loop appends one `Move::new(src, dst, false)` per destination bit, lowest first |
| `MoveGen.MovesOfTargets` | src/movegen.rs:24-28 | the `i`-th emitted move goes to the `i`-th set bit, and there are as many moves as bits |
| `MoveGen.TargetsIncreasing` | src/movegen.rs:24-28 | destinations are visited in strictly increasing order |
| `MoveGen.TargetsBits` | src/movegen.rs:24-28 | the pop loop visits exactly the set bits |
| `MoveGen.MovesOfStep` | src/movegen.rs:25-27 | one round of the loop appends the move to the lowest destination and pops it |
| `MoveGen.GenerateKingMoves` | src/movegen.rs:19-29 | `generate_king_moves` appends the moves from the king's square to its targets |
| `MoveGen.KingTargetsBits` | src/movegen.rs:23 | a target is a square of the king entry that the mover does not occupy |
| `MoveGen.KingMoveTargets` | src/movegen.rs:19-29 | the targets are exactly the entry's squares free of the mover's pieces, each once, in order |
| `MoveGen.KingMoveEncoding` | src/movegen.rs:19-29 | each emitted move is `Move::new(src, dst, false)` to a board square; below 64 it decodes back |
| `MoveGen.KingOnLastSquare` | src/movegen.rs:23 | a king on square 80 gets the non-square 81 as a target |
| `MoveGen.KingTargetsOnBoard` | src/movegen.rs:23 | the corrected targets are board squares |
| `MoveGen.GenerateKingMovesOnBoard` | src/movegen.rs:19-29 | the corrected loop appends the king's moves to board squares only |
| `Text.WordsUnwords` | src/notation.rs:11 | `split_whitespace` splits words joined by single spaces back into those words |
| `Text.SplitCount` | src/notation.rs:16 | `split('/')` yields one piece more than there are separators, none holding one |
| `Text.SplitJoin` | src/notation.rs:16 | `split('/')` undoes joining separator-free pieces with `/` |
| `Text.WordsAreWords` | src/notation.rs:11 | every piece `split_whitespace` yields is non-empty and free of whitespace |
| `Text.ParseU8` | src/notation.rs:85 | `u8::from_str` accepts only values below 256 |
| `Text.ParseNatToString` | src/notation.rs:140 | `u8::from_str` reads back what `to_string` writes for a `u8` |
| `Text.DecNatToString` | src/notation.rs:140 | the digits `to_string` writes have the number as their value, and one digit exactly below 10 |
| `Text.UpperOfLower` | src/notation.rs:180 | upper-casing the lower-cased text gives back a text without lower-case letters |
| `Notation.PieceToStrTable` | src/notation.rs:199-221 | `to_str` is the table spelling for Sente and its lower-case form for Gote |
| `Notation.PieceStrRoundTrip` | src/notation.rs:179-221 | `from_str` reads back the kind `to_str` writes, for either side |
| `Notation.PieceFromStrSpelling` | src/notation.rs:179-197 | a string `from_str` accepts is, once upper-cased, the spelling of the kind it names |
| `Notation.PieceFromChar` | src/notation.rs:179-197 | `from_str` of one character names a kind only for the letters `PLNSGBRK` in either case |
| `Notation.HandFrom` | src/notation.rs:149-160 | `from_chars`, when it does not panic, yields seven valid `u8` counts |
| `Notation.HandFromCount` | src/notation.rs:149-160 | each count `from_chars` yields is the number of the side's letters naming that kind |
| `Notation.HandFromNoKing` | src/notation.rs:149-160 | when `from_chars` does not panic, no letter of the side names a king |
| `Notation.HandFromPanic` | src/notation.rs:149-160 | when `from_chars` panics, a letter names a king or some kind is named 256 times or more |
| `Notation.HandFromCounts` | src/notation.rs:149-160 | a text whose letters for the side count exactly a hand, with no king, is read as that hand |
| `Notation.HandFromChars` | src/notation.rs:149-160 | the loop of `from_chars` computes `HandFrom`, panics included |
| `Notation.HandFromMeaning` | src/notation.rs:149-160 | `from_chars` panics exactly when the side's letters name a king or some kind 256 times; otherwise each count is that kind's number of letters |
| `Notation.HandFromPanicStays` | src/notation.rs:149-160 | a panic on a prefix is a panic on the whole text |
| `Notation.HandToSfen` | src/notation.rs:162-173 | the loops of `Hand::to_sfen` compute `HandText`, panics included |
| `Notation.HandTextPanics` | src/notation.rs:162-173 | as written, `Hand::to_sfen` panics exactly when some count is 7 or more, because the count is used as a kind index into the seven slots |
| `Notation.HandTextOnePawn` | src/notation.rs:164-166 | as written, a hand of one pawn is written as six pawns |
| `Notation.SixPawnsRead` | src/notation.rs:149-160 | six Sente pawn letters are read as a hand of six pawns |
| `Notation.HandRoundTrip` | src/notation.rs:149-173 | with the intended writer, `from_chars` reads both hands back from the hand field |
| `Notation.HandFieldCount` | src/notation.rs:129-136 | in the intended hand field, a side's letters for each kind count that side's pieces of the kind |
| `Notation.HandTextsField` | src/notation.rs:129-136 | two hands not both empty give an intended hand text that is a word other than `-` and reads back as both hands |
| `Notation.ReadChar` | src/notation.rs:27-57 | one pass of the character loop computes `GroupStep`: the board, file and rank it yields, or the error or panic |
| `Notation.GroupStep` | src/notation.rs:27-57 | one character of a rank group only places pieces: the hands, counter and side to move stay |
| `Notation.Place` | src/notation.rs:40-56 | placing a piece keeps the position well formed, or panics |
| `Notation.ParseSfen` | src/notation.rs:7-94 | a position `from_sfen` returns is well formed |
| `Notation.PlacePiece` | src/notation.rs:40-43 | placing a parsed piece computes `Place`, which panics on `Square::of` overflow |
| `Notation.ReadGroup` | src/notation.rs:21-62 | the loop over a rank group computes `GroupFrom` |
| `Notation.ReadHands` | src/notation.rs:76-81 | the hand field is read into both hands as `ParseHands` says, or panics |
| `Notation.FromSfen` | src/notation.rs:7-94 | `from_sfen` computes `ParseSfen`: the well-formed position, the error or the panic |
| `Notation.ParseSfenFields` | src/notation.rs:7-94 | a record that parses has 3 or 4 fields and 9 groups, and the position's side, hands and counter are read from its fields |
| `Notation.PartsError` | src/notation.rs:11-14 | the part-count error is raised exactly when there are not 3 or 4 fields |
| `Notation.RanksError` | src/notation.rs:16-19 | with 3 or 4 fields, the rank-count error is raised exactly when the board field does not split into 9 groups |
| `Notation.RanksKeep` | src/notation.rs:21-64 | the board field only places pieces: the hands, counter and side to move stay |
| `Notation.RanksFail` | src/notation.rs:21-64 | a group that never parses makes the whole board field fail, whatever comes before it |
| `Notation.GroupErrors` | src/notation.rs:26-57 | inside a group only the promotion and piece errors arise |
| `Notation.RanksErrors` | src/notation.rs:21-64 | the board field raises only the promotion, piece and file-count errors |
| `Notation.TrailingPlus` | src/notation.rs:32-34 | a group ending with `+` never parses |
| `Notation.UnknownChar` | src/notation.rs:47-57 | a group holding a character that is not a digit, `+` or piece letter never parses |
| `Notation.FilesError` | src/notation.rs:60-62 | a group without `+` that reads to its end fails with the file-count error exactly when it does not span 9 files |
| `Notation.TrailingPlusRejected` | src/notation.rs:7-94 | a record with a rank group ending in `+` is never read |
| `Notation.UnknownRejected` | src/notation.rs:7-94 | a record with an unknown character in a rank group is never read |
| `Notation.ParseSideMeaning` | src/notation.rs:66-74 | the side field is `b` (Gote) or `w` (Sente); any other field is an error |
| `Notation.MovesError` | src/notation.rs:83-90 | with the other fields in order, a fourth field that is not a `u8` is the move-count error |
| `Notation.PromotionReadTwice` | src/notation.rs:31-46 | as written, `+P` places a promoted pawn, then reads `P` again as a pawn one rank down, and ends on file 2 |
| `Notation.EmptyCount` | src/notation.rs:108-116 | the scan with its `break` computes `EmptyRun`, which panics past square 80 |
| `Notation.CellToSfen` | src/notation.rs:101-118 | the body of the file loop computes the square's text |
| `Notation.RankToSfen` | src/notation.rs:100-120 | the file loop computes the rank's text |
| `Notation.BoardToSfen` | src/notation.rs:99-124 | the rank loop computes the board field, with `/` after every rank but the last |
| `Notation.HandsToSfen` | src/notation.rs:129-136 | the hand field is `-` when both hands are empty, and otherwise Sente's text then Gote's |
| `Notation.ToSfen` | src/notation.rs:96-143 | `to_sfen` computes `SfenText`, panics included |
| `Notation.SfenFields` | src/notation.rs:96-143 | a record written without panic splits into its four fields, and the side and counter fields read back |
| `Notation.FourWords` | src/notation.rs:126-140 | four words joined as `to_sfen` joins its fields come apart again under `split_whitespace` |
| `Notation.RowPlain` | src/notation.rs:100-120 | every rank text written is non-empty and free of whitespace and `/` |
| `Notation.HandsPlain` | src/notation.rs:129-136 | the hand field written is free of whitespace and `/` |
| `Notation.SideRoundTrip` | src/notation.rs:126 | the side field that is written reads back as the same side |
| `Notation.EmptyRunPanics` | src/notation.rs:108-116 | the empty scan panics exactly when it runs past square 80 over empty squares only |
| `Notation.CellPanics` | src/notation.rs:101-118 | a square's text panics exactly when it is empty and its scan runs past square 80 |
| `Notation.BoardTextPanics` | src/notation.rs:99-124 | on a consistent board, writing the board field panics exactly when square 80 is empty |
| `Notation.CellPanicsAt80` | src/notation.rs:101-118 | some cell of the board field panics exactly when square 80 is empty |
| `Notation.BoardPanicsAt80` | src/notation.rs:99-124 | the board field panics whenever square 80 is empty |
| `Notation.SfenTextPanics` | src/notation.rs:96-143 | `to_sfen` panics on every consistent board whose square 80 is empty, the empty board among them |
| `Notation.ZeroBeforePiece` | src/notation.rs:108-117 | as written, an empty square just before an occupied one is written as `0` |
| `Notation.GroupFixed` | src/notation.rs:26-57 | the intended group reader keeps the position well formed |
| `Notation.RunFixed` | src/notation.rs:108-116 | the intended empty count is between 1 and the files left in the rank |
| `Notation.FixedStep` | src/notation.rs:26-57 | the intended reader takes one to all of the remaining characters per item and keeps the position well formed |
| `Notation.ParseSfenFixed` | src/notation.rs:7-94 | a position the intended `from_sfen` returns is well formed |
| `Notation.BoardRowsFixed` | src/notation.rs:99-124 | the intended writer produces nine rank texts |
| `Notation.RowRoundTrip` | src/notation.rs:21-62 | the intended reader of an intended rank text copies that rank and ends on file 9 |
| `Notation.RanksRoundTrip` | src/notation.rs:21-64 | reading the intended rank texts copies every rank of the board |
| `Notation.BoardFixedField` | src/notation.rs:99-124 | the intended board field is a word that splits at `/` into the nine rank texts |
| `Notation.HandsFixedField` | src/notation.rs:129-136 | the intended hand field is a word, and the hand reader gives both hands back from it |
| `Notation.SfenFixedWords` | src/notation.rs:96-143 | the intended record splits into its board, side, hand and move-count fields |
| `Notation.SfenRoundTrip` | src/notation.rs:7-143 | the intended `from_sfen` reads back exactly the consistent position the intended `to_sfen` writes: kinds, owners, bitboards, hands, side and counter |

## Left out

- `lazy_static!`, `MaybeUninit` and the `unsafe` raw writes of `MagicTable::new` (`src/magics.rs:5-19`, `96-118`): the table is an `array` and the entries are a sequence. The static bishop and rook tables are not instantiated with the magic constants.
- Magics.MagicTable.AttackLookup: takes collision-freedom of the magic multiplier as a precondition (`CollisionFree`). The source never checks its 162 constants, and they are not evaluated here.
- Magics.BuildTable: requires every mask to have fewer than 32 bits (`MaskFits`, for the `u32` shift `1 << mask.count_ones()`). It is not discharged for the concrete delta sets.
- Magics.MagicTable.AttackLookup: is exact only for occupancies inside the mask, because `attack` does not mask the occupancy before hashing. `bits::merge` is not defined in the source shown and is modelled as a fold of the two 64-bit halves.
- `bits::north`, `bits::south`, `bits::file`, `bits::rank`, `FILE_1`, `FILE_9`, `RANK_I`, `RANK_A`, `Square::is_valid` and `Square::DELTA_*` are used but not defined in the source shown. The model gives them the meaning their uses and the commented code in `src/main.rs` imply.
- `MoveList::add` is not defined in the source shown. It is modelled after the commented-out `add_move` (`src/moves.rs:67-70`). `generate_king_moves` takes its list as `&MoveList` yet adds to it, so the model lets it modify the list.
- The fourteen per-kind getters of `Board` (`src/board.rs:78-142`) are `pieces` with a fixed kind. They are covered by `Position.PiecesBits` and are not modelled one by one. `king_sq` and `hand` (`src/board.rs:67-69`, `171-173`) are modelled as `Position.KingSq` and `Boards.Board.HandOf` without contracts of their own.
- `attacks::lance`, `bishop` and `rook` are stubs returning 0 in the source, and are modelled as such.
- `generate_moves` generates nothing in the source, and is modelled as returning an empty list.
- `src/perft.rs` and `src/main.rs` are not part of this model, and neither are the printing helpers and tests of `src/attacks.rs`.
- Text is ASCII only: a character index is a byte index, and case mapping and `is_whitespace` are the ASCII ones.
- Hand::from_chars: the iterator chain's filter and map are fused into one loop, which computes the same counts.
- Notation.FromSfen: the loops of `from_sfen` and `to_sfen` are split into one method per loop body (`ReadChar`, `ReadGroup`, `CellToSfen`, `RankToSfen`).
- Panics reached through SFEN text are outcomes (`Panic`, `None`), not aborts. Panics reached only through a wrong call are preconditions.
- `test_startpos` (`src/notation.rs:232-245`) is not modelled as a concrete record. Its failure follows from `Notation.ZeroBeforePiece`.
- Moves.WideMove: the corrected encoding writes the disjoint fields as a sum, where the source ORs them.

## Findings

| source | as written | input that shows it | evidently intended | confidence | as-written member | corrected member |
|---|---|---|---|---|---|---|
| src/board.rs:52 | `make` flips the side to move, which `drop_piece` and `move_piece` have already flipped | any legal move: the mover is to move again | the turn passes to the opponent | not executed | `Position.MakeSideAndCount` | `Position.MakeFixedPassesTurn` |
| src/board.rs:47 | the captured kind is added to the hand as it is, but the hand has slots only for the seven unpromoted kinds | capturing a promoted pawn (index 7) indexes past the hand | the captured piece goes into the hand unpromoted | not executed | `Position.CapturePromotedPanics` | `Position.MakeFixedCapture` |
| src/attacks.rs:65 | the king entry of square 80 holds bit 81, which is not a square | `attacks::king(80)` | only board squares | not executed | `Attacks.Square80OffBoard` | `Attacks.KingOnBoardSteps` |
| src/attacks.rs:159 | the gold entries of square 80 hold bit 81 | `attacks::gold(80, side)` | only board squares | not executed | `Attacks.Square80OffBoard` | `Attacks.GoldOnBoardSteps` |
| src/movegen.rs:23 | the king's targets come straight from the table, so a king on square 80 gets target 81, which `Move::new`'s assert rejects | a king on square 80 | targets on the board only | not executed | `MoveGen.KingOnLastSquare` | `MoveGen.GenerateKingMovesOnBoard` |
| src/moves.rs:20 | source and destination get six bits each, but squares run up to 80 | `Move::new(0, 64, false)` reads back as a promotion to square 0 | fields wide enough for every square | not executed | `Moves.NewZeroToSixtyFour` | `Moves.NewWideRoundTrip` |
| src/moves.rs:26 | `drop` accepts kind index 14, which `drop_piece` then cannot decode | `Move::drop(14, 0)` | accept only the fourteen kind indices | not executed | `Moves.DropFourteenPanics` | `Moves.DropWideRoundTrip` |
| src/ray.rs:33 | the file stride is 8, though ranks are 9 squares apart | `between(0, 18)` gives 8, 16, …, 80 | square 9 | not executed | `Ray.BetweenZeroEighteen` | `Ray.BetweenFixedZeroEighteen` |
| src/ray.rs:34-39 | the diagonal stride is 7 (the `% 9` tests never hold), though diagonal neighbours are 8 or 10 squares apart | `between(0, 10)` gives 7, 14, …, 77 | nothing between diagonal neighbours; in general the squares of the diagonal strictly between | not executed | `Ray.BetweenDiagonalNeighbour` | `Ray.BetweenFixedDiagonal` |
| src/magics.rs:137-157 | `sliding_attacks` steps a ray until it is blocked or leaves the board, so a zero delta never ends the loop when `sq` is empty | `sliding_attacks(&[0], 0, 0)` | every delta moves the ray (no caller passes a zero delta) | not executed; low, since only the nonzero delta tables reach it | `Sliding.ZeroDeltaStalls` | `Sliding.SlidingAttacks` |
| src/notation.rs:164-166 | `Hand::to_sfen` iterates over the counts and uses each count as a kind index | a hand of one pawn is written as six pawns | each kind's spelling, count times | not executed | `Notation.HandTextOnePawn` | `Notation.HandRoundTrip` |
| src/notation.rs:108-117 | an empty square writes the count of the empty squares after it and does not skip them | an empty square before a piece is written `0`, so the start position in `test_startpos` is not written back | one digit for a whole run of empty squares | not executed | `Notation.ZeroBeforePiece` | `Notation.SfenRoundTrip` |
| src/notation.rs:110-111 | the empty-square scan runs past the end of the rank, and past square 80 it indexes out of bounds | `Board::new().to_sfen()` panics | the scan stops at the end of the rank | not executed | `Notation.SfenTextPanics` | `Notation.SfenRoundTrip` |
| src/notation.rs:31-46 | after a `+` the loop reads the letter again as a piece of its own, and moves the rest of the group one rank down | the group `+P` | `+` and its letter are one piece on one file | not executed | `Notation.PromotionReadTwice` | `Notation.SfenRoundTrip` |
