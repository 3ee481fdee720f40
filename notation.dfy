/**
 * SFEN text (src/notation.rs): the spelling of a piece, the hand field, and `from_sfen` /
 * `to_sfen` of a whole board.
 *
 * Every panic the text can provoke (an index out of bounds, a `u8` that overflows, an
 * `expect` that fails) is an explicit outcome here: `Panic` for the parser, `None` for the
 * writers. Text is taken to be ASCII, so a character index is also a byte index.
 */
module Notation {
  import opened Wrappers
  import opened Bits
  import opened Consts
  import opened Text
  import opened Position
  import opened Boards

  /** The result of `from_sfen`: the board, one of its errors, or a panic. */
  datatype Outcome<T> = Ok(value: T) | Err(error: SfenError) | Panic

  /** The errors `from_sfen` reports. */
  datatype SfenError = BadParts | BadRanks | BadPromotion | BadPiece | BadFiles | BadSide | BadMoves
  {
    /** The message the source returns for the error. */
    function Message(): string
    {
      match this
      case BadParts => "SFEN has invalid number of parts"
      case BadRanks => "SFEN has invalid number of ranks"
      case BadPromotion => "SFEN has invalid promotion character"
      case BadPiece => "SFEN has invalid piece character"
      case BadFiles => "SFEN has invalid number of files"
      case BadSide => "SFEN has invalid side to move"
      case BadMoves => "SFEN has invalid number of moves"
    }
  }

  // ---------------------------------------------------------------------------
  // Piece::from_str and Piece::to_str
  // ---------------------------------------------------------------------------

  /** The letter of a kind, upper-case; a promoted kind has the letter of the kind it promotes from. */
  function Letter(p: Piece): (c: char)
    ensures IsUpper(c)
  {
    match p
    case Pawn | PromotedPawn => 'P'
    case Lance | PromotedLance => 'L'
    case Knight | PromotedKnight => 'N'
    case Silver | PromotedSilver => 'S'
    case Gold => 'G'
    case Bishop | PromotedBishop => 'B'
    case Rook | PromotedRook => 'R'
    case King => 'K'
  }

  /** The letter of a kind for a side: lower-case for Gote. */
  function SideLetter(p: Piece, side: Side): (c: char)
    ensures side == Sente ==> IsUpper(c)
    ensures side == Gote ==> IsLower(c)
  {
    if side == Gote then LowerChar(Letter(p)) else Letter(p)
  }

  /**
   * `to_str(side)`: the side's letter, with `+` before it for a promoted kind. The source
   * spells this as a table of upper-case strings lower-cased for Gote; `PieceToStrTable`
   * shows the two agree.
   */
  function PieceToStr(p: Piece, side: Side): string
  {
    if p.IsPromoted() then ['+', SideLetter(p, side)] else [SideLetter(p, side)]
  }

  /** The upper-case spellings of the fourteen kinds, as the source lists them. */
  function PieceText(p: Piece): string
  {
    match p
    case Pawn => "P"
    case Lance => "L"
    case Knight => "N"
    case Silver => "S"
    case Gold => "G"
    case Bishop => "B"
    case Rook => "R"
    case PromotedPawn => "+P"
    case PromotedLance => "+L"
    case PromotedKnight => "+N"
    case PromotedSilver => "+S"
    case PromotedBishop => "+B"
    case PromotedRook => "+R"
    case King => "K"
  }

  /** `to_str` is the table's spelling for Sente and its lower-cased spelling for Gote. */
  lemma PieceToStrTable(p: Piece, side: Side)
    ensures PieceToStr(p, side) == if side == Gote then ToLower(PieceText(p)) else PieceText(p)
  {
    var t := PieceText(p);
    assert t == PieceToStr(p, Sente);
    if side == Gote {
      var l := ToLower(t);
      assert l[|l| - 1] == LowerChar(t[|t| - 1]);
      if p.IsPromoted() {
        assert l[0] == '+';
        assert l == ['+', l[1]];
      } else {
        assert l == [l[0]];
      }
    }
  }

  /** The kind an upper-case letter names on its own: one of `P L N S G B R K`. */
  function LetterKind(c: char): Option<Piece>
  {
    if c == 'P' then Some(Pawn)
    else if c == 'L' then Some(Lance)
    else if c == 'N' then Some(Knight)
    else if c == 'S' then Some(Silver)
    else if c == 'G' then Some(Gold)
    else if c == 'B' then Some(Bishop)
    else if c == 'R' then Some(Rook)
    else if c == 'K' then Some(King)
    else None
  }

  /**
   * `from_str(s)`: the kind whose spelling is `s` once upper-cased, if there is one. The
   * fourteen spellings are the seven letters and `+` before the letter of one of the six
   * kinds that promote, naming the promoted kind (so `+G` and `+K` name nothing).
   */
  function PieceFromStr(s: string): (r: Option<Piece>)
  {
    var u := ToUpper(s);
    if |u| == 1 then LetterKind(u[0])
    else if |u| == 2 && u[0] == '+' then
      match LetterKind(u[1])
      case None => None
      case Some(p) => p.ToPromo()
    else None
  }

  /** `from_str` of a one-character string. */
  lemma PieceFromChar(c: char)
    ensures PieceFromStr([c]) == LetterKind(UpperChar(c))
  {
    assert ToUpper([c])[0] == UpperChar(c);
  }

  /** `from_str` reads back what `to_str` writes, for either side. */
  lemma PieceStrRoundTrip(p: Piece, side: Side)
    ensures PieceFromStr(PieceToStr(p, side)) == Some(p)
  {
    var s := PieceToStr(p, side);
    var u := ToUpper(s);
    assert u[|u| - 1] == UpperChar(SideLetter(p, side));
    assert UpperChar(SideLetter(p, side)) == Letter(p);
    if p.IsPromoted() {
      assert u[0] == '+';
    }
  }

  /** A string `from_str` accepts is, once upper-cased, the spelling of the kind it names. */
  lemma PieceFromStrSpelling(s: string, p: Piece)
    requires PieceFromStr(s) == Some(p)
    ensures ToUpper(s) == PieceToStr(p, Sente)
  {
    var u := ToUpper(s);
    if |u| == 2 {
      var q := LetterKind(u[1]).value;
      assert q.ToPromo() == Some(p);
      assert u == [u[0], u[1]];
    } else {
      assert u == [u[0]];
    }
  }

  // ---------------------------------------------------------------------------
  // Hand::from_chars
  // ---------------------------------------------------------------------------

  /** `is_ours`: upper-case letters are Sente's, lower-case ones Gote's. */
  predicate Ours(c: char, side: Side)
  {
    if side == Sente then IsUpper(c) else IsLower(c)
  }

  /**
   * One character of `from_chars`: a character of the other side, or one naming no kind, is
   * passed over; otherwise the kind is added, which panics (`None`) for a king (index 13 of
   * a seven-slot array) and for a count already at 255. The kind is `from_str` of the
   * one-character string (`PieceFromChar`).
   */
  function HandStep(h: seq<nat>, c: char, side: Side): (r: Option<seq<nat>>)
    requires ValidHand(h)
    ensures r.Some? ==> ValidHand(r.value)
  {
    if !Ours(c, side) then Some(h)
    else match LetterKind(UpperChar(c))
      case None => Some(h)
      case Some(piece) =>
        if piece.Idx() >= HAND_SLOTS || h[piece.Idx()] == U8_LIMIT - 1 then None
        else Some(HandAdd(h, piece))
  }

  /** `Hand::from_chars(chars, side)`, or `None` when it panics. */
  function HandFrom(chars: string, side: Side): (r: Option<seq<nat>>)
    ensures r.Some? ==> ValidHand(r.value)
  {
    if chars == [] then Some(EmptyHand())
    else match HandFrom(chars[..|chars| - 1], side)
      case None => None
      case Some(h) => HandStep(h, chars[|chars| - 1], side)
  }

  /** `Hand::from_chars(chars, side)` */
  method HandFromChars(chars: string, side: Side) returns (r: Option<Hand>)
    ensures r.Some? ==> fresh(r.value.pieces) && r.value.Valid()
    ensures r.Some? ==> HandFrom(chars, side) == Some(r.value.pieces[..])
    ensures r.None? ==> HandFrom(chars, side) == None
  {
    var hand := new Hand();
    for i := 0 to |chars|
      invariant hand.Valid() && fresh(hand.pieces)
      invariant HandFrom(chars[..i], side) == Some(hand.pieces[..])
    {
      var c := chars[i];
      assert chars[..i + 1][..i] == chars[..i];
      if Ours(c, side) {
        var piece := PieceFromStr([c]);
        PieceFromChar(c);
        if piece.Some? {
          if piece.value.Idx() >= HAND_SLOTS || hand.pieces[piece.value.Idx()] == U8_LIMIT - 1 {
            HandFromPanicStays(chars, i + 1, side);
            return None;
          }
          hand.Add(piece.value);
        }
      }
    }
    assert chars[..|chars|] == chars;
    return Some(hand);
  }

  /** Once `from_chars` has panicked on a prefix, it panics on the whole string. */
  lemma {:induction false} HandFromPanicStays(chars: string, n: nat, side: Side)
    requires n <= |chars| && HandFrom(chars[..n], side).None?
    ensures HandFrom(chars, side).None?
    decreases |chars| - n
  {
    if n < |chars| {
      assert chars[..n + 1][..n] == chars[..n];
      HandFromPanicStays(chars, n + 1, side);
    } else {
      assert chars[..n] == chars;
    }
  }

  /** Character `c` is one of `side`'s and names kind `k`. */
  predicate Names(c: char, side: Side, k: Piece)
  {
    Ours(c, side) && LetterKind(UpperChar(c)) == Some(k)
  }

  /** How many characters of `chars` are `side`'s and name kind `k`. */
  function KindCount(chars: string, side: Side, k: Piece): nat
  {
    if chars == [] then 0
    else KindCount(chars[..|chars| - 1], side, k) + (if Names(chars[|chars| - 1], side, k) then 1 else 0)
  }

  /** When `from_chars` does not panic, the count of each kind is the number of the side's letters naming it. */
  lemma {:induction false} HandFromCount(chars: string, side: Side, k: Piece)
    requires k.Idx() < HAND_SLOTS
    ensures HandFrom(chars, side).Some? ==> HandFrom(chars, side).value[k.Idx()] == KindCount(chars, side, k)
  {
    if chars != [] {
      var init := chars[..|chars| - 1];
      HandFromCount(init, side, k);
      if HandFrom(init, side).Some? {
        HandStepCount(HandFrom(init, side).value, chars[|chars| - 1], side, k);
      }
    }
  }

  /** One step of `from_chars` adds one to the count of the kind the character names, if it is the side's. */
  lemma HandStepCount(h: seq<nat>, c: char, side: Side, k: Piece)
    requires ValidHand(h) && k.Idx() < HAND_SLOTS
    ensures HandStep(h, c, side).Some? ==>
              HandStep(h, c, side).value[k.Idx()] == h[k.Idx()] + (if Names(c, side, k) then 1 else 0)
  {
    if HandStep(h, c, side).Some? && Ours(c, side) && LetterKind(UpperChar(c)).Some? {
      var piece := LetterKind(UpperChar(c)).value;
      HandAddCounts(h, piece, k.Idx());
      if k.Idx() == piece.Idx() {
        IdxInjective(k, piece);
      }
    }
  }

  /** When `from_chars` does not panic, none of the side's letters names a king. */
  lemma {:induction false} HandFromNoKing(chars: string, side: Side)
    ensures HandFrom(chars, side).Some? ==> KindCount(chars, side, King) == 0
  {
    if chars != [] {
      HandFromNoKing(chars[..|chars| - 1], side);
    }
  }

  /** When `from_chars` panics, a letter names a king or some kind is named 256 times or more. */
  lemma {:induction false} HandFromPanic(chars: string, side: Side)
    requires HandFrom(chars, side).None?
    ensures KindCount(chars, side, King) > 0
            || exists i | 0 <= i < HAND_SLOTS :: KindCount(chars, side, FromU8(i)) >= U8_LIMIT
  {
    var init, c := chars[..|chars| - 1], chars[|chars| - 1];
    if HandFrom(init, side).None? {
      HandFromPanic(init, side);
      if KindCount(init, side, King) == 0 {
        var i :| 0 <= i < HAND_SLOTS && KindCount(init, side, FromU8(i)) >= U8_LIMIT;
        assert KindCount(chars, side, FromU8(i)) >= U8_LIMIT;
      }
    } else {
      var piece := LetterKind(UpperChar(c)).value;
      if piece != King {
        HandFromCount(init, side, piece);
        FromIdx(piece);
        assert KindCount(chars, side, FromU8(piece.Idx())) == U8_LIMIT;
      }
    }
  }

  /**
   * What `from_chars` computes: it panics exactly when the side's letters name a king or
   * name some kind 256 times or more; otherwise each count is the number of the side's
   * letters naming that kind.
   */
  lemma HandFromMeaning(chars: string, side: Side)
    ensures HandFrom(chars, side).Some? <==>
              KindCount(chars, side, King) == 0
              && forall i | 0 <= i < HAND_SLOTS :: KindCount(chars, side, FromU8(i)) < U8_LIMIT
    ensures HandFrom(chars, side).Some? ==>
              forall i | 0 <= i < HAND_SLOTS :: HandFrom(chars, side).value[i] == KindCount(chars, side, FromU8(i))
  {
    if HandFrom(chars, side).Some? {
      HandFromNoKing(chars, side);
      forall i | 0 <= i < HAND_SLOTS
        ensures HandFrom(chars, side).value[i] == KindCount(chars, side, FromU8(i))
      {
        HandFromCount(chars, side, FromU8(i));
      }
    } else {
      HandFromPanic(chars, side);
    }
  }

  // ---------------------------------------------------------------------------
  // Hand::to_sfen
  // ---------------------------------------------------------------------------

  /** `n` copies of `s`. */
  function Repeat(s: string, n: nat): string
  {
    if n == 0 then [] else Repeat(s, n - 1) + s
  }

  /** Prefixes an optional text: a panic stays a panic. */
  function Prepend(a: string, b: Option<string>): Option<string>
  {
    match b
    case None => None
    case Some(t) => Some(a + t)
  }

  /**
   * The text `to_sfen` writes for slots `i..6` of a hand, as written: it reads each slot's
   * COUNT `v` as a kind (`Piece::from(v)`, which panics from 14 on) and then reads the count
   * of the hand at that kind's index (out of bounds from 7 on), writing that many copies.
   */
  function HandTextFrom(h: seq<nat>, side: Side, i: nat): Option<string>
    requires ValidHand(h) && i <= HAND_SLOTS
    decreases HAND_SLOTS - i
  {
    if i == HAND_SLOTS then Some([])
    else
      var v := h[i];
      if v >= HAND_SLOTS then None
      else Prepend(Repeat(PieceToStr(FromU8(v), side), h[v]), HandTextFrom(h, side, i + 1))
  }

  /** `Hand::to_sfen(side)` as written, or `None` when it panics. */
  function HandText(h: seq<nat>, side: Side): Option<string>
    requires ValidHand(h)
  {
    HandTextFrom(h, side, 0)
  }

  /** `Hand::to_sfen(side)` */
  method HandToSfen(hand: Hand, side: Side) returns (r: Option<string>)
    requires hand.Valid()
    ensures r == HandText(hand.pieces[..], side)
  {
    var h := hand.pieces[..];
    var sfen := "";
    assert HandTextFrom(h, side, 0).Some? ==> sfen + HandTextFrom(h, side, 0).value == HandTextFrom(h, side, 0).value;
    for i := 0 to HAND_SLOTS
      invariant HandText(h, side) == Prepend(sfen, HandTextFrom(h, side, i))
    {
      var v := h[i];
      if v >= HAND_SLOTS {
        return None;
      }
      var piece := FromU8(v);
      var count := h[piece.Idx()];
      var pieceStr := PieceToStr(piece, side);
      ghost var start := sfen;
      for j := 0 to count
        invariant sfen == start + Repeat(pieceStr, j)
      {
        RepeatStep(start, pieceStr, j);
        sfen := sfen + pieceStr;
      }
      HandTextStep(h, side, i, start, Repeat(pieceStr, count));
    }
    assert sfen + [] == sfen;
    return Some(sfen);
  }

  /** One more copy appended to a text. */
  lemma RepeatStep(start: string, s: string, j: nat)
    ensures start + Repeat(s, j) + s == start + Repeat(s, j + 1)
  {
  }

  /** One slot of `Hand::to_sfen`: its copies are appended to the text so far. */
  lemma HandTextStep(h: seq<nat>, side: Side, i: nat, sfen: string, copies: string)
    requires ValidHand(h) && i < HAND_SLOTS && h[i] < HAND_SLOTS
    requires copies == Repeat(PieceToStr(FromU8(h[i]), side), h[h[i]])
    ensures Prepend(sfen, HandTextFrom(h, side, i)) == Prepend(sfen + copies, HandTextFrom(h, side, i + 1))
  {
    if HandTextFrom(h, side, i + 1).Some? {
      var rest := HandTextFrom(h, side, i + 1).value;
      assert sfen + (copies + rest) == sfen + copies + rest;
    }
  }

  /** As written, `Hand::to_sfen` panics exactly when some count is 7 or more. */
  lemma {:induction false} HandTextPanics(h: seq<nat>, side: Side, i: nat)
    requires ValidHand(h) && i <= HAND_SLOTS
    ensures HandTextFrom(h, side, i).None? <==> exists j :: i <= j < HAND_SLOTS && h[j] >= HAND_SLOTS
    decreases HAND_SLOTS - i
  {
    if i < HAND_SLOTS {
      HandTextPanics(h, side, i + 1);
      HandPanicSlot(h, side, i);
    }
  }

  /** Slot `i` panics on a count of 7 or more, and otherwise passes on whatever the later slots do. */
  lemma HandPanicSlot(h: seq<nat>, side: Side, i: nat)
    requires ValidHand(h) && i < HAND_SLOTS
    requires HandTextFrom(h, side, i + 1).None? <==> exists j :: i + 1 <= j < HAND_SLOTS && h[j] >= HAND_SLOTS
    ensures HandTextFrom(h, side, i).None? <==> exists j :: i <= j < HAND_SLOTS && h[j] >= HAND_SLOTS
  {
    if h[i] >= HAND_SLOTS {
      assert HandTextFrom(h, side, i).None?;
      assert i <= i < HAND_SLOTS && h[i] >= HAND_SLOTS;
    } else {
      var copies := Repeat(PieceToStr(FromU8(h[i]), side), h[h[i]]);
      assert HandTextFrom(h, side, i) == Prepend(copies, HandTextFrom(h, side, i + 1));
      PrependPanics(copies, HandTextFrom(h, side, i + 1));
      if exists j :: i <= j < HAND_SLOTS && h[j] >= HAND_SLOTS {
        var j :| i <= j < HAND_SLOTS && h[j] >= HAND_SLOTS;
        assert i + 1 <= j;
      }
    }
  }

  lemma PrependPanics(a: string, b: Option<string>)
    ensures Prepend(a, b).None? <==> b.None?
  {
  }

  /**
   * As written, a hand holding one pawn is written as six pawns: slot 0 holds the count 1,
   * read as the lance, of which there are none; the six empty slots hold the count 0, read
   * as the pawn, of which there is one. Reading the text back gives six pawns (`SixPawnsRead`).
   */
  lemma HandTextOnePawn()
    ensures HandText([1, 0, 0, 0, 0, 0, 0], Sente) == Some(Repeat("P", 6))
  {
    var h := [1, 0, 0, 0, 0, 0, 0];
    OnePawnSlots(1);
    assert FromU8(1) == Lance;
    assert Repeat(PieceToStr(Lance, Sente), 0) == "";
    assert "" + Repeat("P", 6) == Repeat("P", 6);
  }

  /** Slots `i..6` of that hand each hold 0, read as the pawn, and so write one pawn each. */
  lemma {:induction false} OnePawnSlots(i: nat)
    requires 1 <= i <= HAND_SLOTS
    ensures HandTextFrom([1, 0, 0, 0, 0, 0, 0], Sente, i) == Some(Repeat("P", HAND_SLOTS - i))
    decreases HAND_SLOTS - i
  {
    var h := [1, 0, 0, 0, 0, 0, 0];
    if i < HAND_SLOTS {
      OnePawnSlots(i + 1);
      assert h[i] == 0 && h[0] == 1;
      assert FromU8(0) == Pawn;
      assert Repeat(PieceToStr(Pawn, Sente), 1) == "P" by {
        assert Repeat("P", 0) == [];
      }
      RepeatFront("P", HAND_SLOTS - i - 1);
    }
  }

  lemma {:induction false} RepeatFront(s: string, n: nat)
    ensures Repeat(s, n + 1) == s + Repeat(s, n)
  {
    if n > 0 {
      RepeatFront(s, n - 1);
      assert s + Repeat(s, n - 1) + s == s + (Repeat(s, n - 1) + s);
    }
  }

  /** Six Sente pawns in the hand field are read as a hand of six pawns. */
  lemma SixPawnsRead()
    ensures HandFrom(Repeat("P", 6), Sente) == Some([6, 0, 0, 0, 0, 0, 0])
  {
    var text := Repeat("P", 6);
    HandFromMeaning(text, Sente);
    forall i | 0 <= i < HAND_SLOTS
      ensures KindCount(text, Sente, FromU8(i)) == if i == 0 then 6 else 0
    {
      KindCountRepeatChar('P', 6, Sente, FromU8(i));
    }
    KindCountRepeatChar('P', 6, Sente, King);
    var h := HandFrom(text, Sente).value;
    assert h == [6, 0, 0, 0, 0, 0, 0];
  }

  /** The intended `Hand::to_sfen`: slot `i` contributes `h[i]` copies of kind `i`'s spelling. */
  function HandTextFixedFrom(h: seq<nat>, side: Side, i: nat): string
    requires ValidHand(h) && i <= HAND_SLOTS
    decreases HAND_SLOTS - i
  {
    if i == HAND_SLOTS then [] else Repeat(PieceToStr(FromU8(i), side), h[i]) + HandTextFixedFrom(h, side, i + 1)
  }

  function HandTextFixed(h: seq<nat>, side: Side): string
    requires ValidHand(h)
  {
    HandTextFixedFrom(h, side, 0)
  }

  lemma {:induction false} KindCountAppend(a: string, b: string, side: Side, k: Piece)
    ensures KindCount(a + b, side, k) == KindCount(a, side, k) + KindCount(b, side, k)
    decreases |b|
  {
    if b == [] {
      assert a + b == a;
    } else {
      assert (a + b)[..|a + b| - 1] == a + b[..|b| - 1];
      KindCountAppend(a, b[..|b| - 1], side, k);
    }
  }

  /** `n` copies of one character count `n` towards what it names, and nothing else. */
  lemma {:induction false} KindCountRepeatChar(c: char, n: nat, side: Side, k: Piece)
    ensures KindCount(Repeat([c], n), side, k) == if Names(c, side, k) then n else 0
  {
    if n > 0 {
      KindCountAppend(Repeat([c], n - 1), [c], side, k);
      KindCountRepeatChar(c, n - 1, side, k);
      assert [c][..0] == [];
    }
  }

  /** A kind that may sit in a hand is spelled with one letter, which names it for its side only. */
  lemma HandLetter(p: Piece, owner: Side, side: Side, k: Piece)
    requires p.Idx() < HAND_SLOTS
    ensures PieceToStr(p, owner) == [SideLetter(p, owner)]
    ensures Names(SideLetter(p, owner), side, k) <==> owner == side && k == p
  {
    HandKinds(p);
    assert UpperChar(SideLetter(p, owner)) == Letter(p);
    assert LetterKind(Letter(p)) == Some(p);
  }

  /** The letters of `n` copies of one kind's spelling count `n` towards that kind and side only. */
  lemma KindCountRepeat(p: Piece, owner: Side, n: nat, side: Side, k: Piece)
    requires p.Idx() < HAND_SLOTS
    ensures KindCount(Repeat(PieceToStr(p, owner), n), side, k) == if owner == side && k == p then n else 0
  {
    HandLetter(p, owner, side, k);
    KindCountRepeatChar(SideLetter(p, owner), n, side, k);
  }

  lemma {:induction false} KindCountFixed(h: seq<nat>, owner: Side, i: nat, side: Side, k: Piece, x: nat)
    requires ValidHand(h) && i <= HAND_SLOTS && x == k.Idx()
    ensures KindCount(HandTextFixedFrom(h, owner, i), side, k) ==
              if owner == side && i <= x < HAND_SLOTS then h[x] else 0
    decreases HAND_SLOTS - i
  {
    if i < HAND_SLOTS {
      KindCountFixed(h, owner, i + 1, side, k, x);
      KindCountSlot(h, owner, i, side, k, x);
    }
  }

  /** One slot of the intended hand text adds its count to its own kind and side, and nothing else. */
  lemma KindCountSlot(h: seq<nat>, owner: Side, i: nat, side: Side, k: Piece, x: nat)
    requires ValidHand(h) && i < HAND_SLOTS && x == k.Idx()
    requires KindCount(HandTextFixedFrom(h, owner, i + 1), side, k) ==
               if owner == side && i + 1 <= x < HAND_SLOTS then h[x] else 0
    ensures KindCount(HandTextFixedFrom(h, owner, i), side, k) ==
              if owner == side && i <= x < HAND_SLOTS then h[x] else 0
  {
    var p := FromU8(i);
    var run := Repeat(PieceToStr(p, owner), h[i]);
    var rest := HandTextFixedFrom(h, owner, i + 1);
    assert HandTextFixedFrom(h, owner, i) == run + rest;
    KindCountAppend(run, rest, side, k);
    KindCountRepeat(p, owner, h[i], side, k);
    if k == p {
      assert x == i;
    } else if x == i {
      FromIdx(k);
    }
  }

  /** A text whose letters for `side` count exactly the hand `h`, and name no king, is read as `h`. */
  lemma HandFromCounts(text: string, side: Side, h: seq<nat>)
    requires ValidHand(h)
    requires forall k: Piece :: KindCount(text, side, k) == if k.Idx() < HAND_SLOTS then h[k.Idx()] else 0
    ensures HandFrom(text, side) == Some(h)
  {
    forall i | 0 <= i < HAND_SLOTS
      ensures KindCount(text, side, FromU8(i)) == h[i]
    {
      assert FromU8(i).Idx() == i;
    }
    HandFromMeaning(text, side);
    assert HandFrom(text, side).value == h;
  }

  /** In the hand field the intended writer produces, a side's letters count that side's hand. */
  lemma HandFieldCount(sente: seq<nat>, gote: seq<nat>, side: Side, k: Piece)
    requires ValidHand(sente) && ValidHand(gote)
    ensures KindCount(HandTextFixed(sente, Sente) + HandTextFixed(gote, Gote), side, k)
         == if k.Idx() < HAND_SLOTS then (if side == Sente then sente else gote)[k.Idx()] else 0
  {
    var a, b := HandTextFixed(sente, Sente), HandTextFixed(gote, Gote);
    KindCountAppend(a, b, side, k);
    KindCountFixed(sente, Sente, 0, side, k, k.Idx());
    KindCountFixed(gote, Gote, 0, side, k, k.Idx());
  }

  /**
   * With the intended `Hand::to_sfen`, `from_chars` reads both hands back from the hand
   * field written as Sente's text followed by Gote's.
   */
  lemma HandRoundTrip(sente: seq<nat>, gote: seq<nat>, side: Side)
    requires ValidHand(sente) && ValidHand(gote)
    ensures HandFrom(HandTextFixed(sente, Sente) + HandTextFixed(gote, Gote), side)
         == Some(if side == Sente then sente else gote)
  {
    var text := HandTextFixed(sente, Sente) + HandTextFixed(gote, Gote);
    var mine := if side == Sente then sente else gote;
    forall k: Piece
      ensures KindCount(text, side, k) == if k.Idx() < HAND_SLOTS then mine[k.Idx()] else 0
    {
      HandFieldCount(sente, gote, side, k);
    }
    HandFromCounts(text, side, mine);
  }

  // ---------------------------------------------------------------------------
  // Board::from_sfen
  // ---------------------------------------------------------------------------

  /**
   * The state of the scan of one rank group: the board so far, `file_idx`, and this
   * iteration's copy of `rank_idx` (a `+` piece bumps it for the rest of the group).
   */
  datatype Cursor = Cursor(pos: Pos, file: nat, rank: nat)

  /** `side` from the case of a piece letter: upper-case is Sente. */
  function CaseSide(c: char): Side
  {
    if IsUpper(c) then Sente else Gote
  }

  /**
   * Put `piece` at `Square::of(8 - rank_idx, file_idx)` and move one file on; `bump` also moves
   * `rank_idx` on. `8 - rank_idx` underflows from rank index 9 on, and a square of 81 or more
   * is out of `pcs` (one past 255 also overflows `Square::of`): both panic.
   */
  function Place(c: Cursor, side: Side, piece: Piece, bump: bool): (r: Outcome<Cursor>)
    requires WellFormed(c.pos)
    ensures r.Ok? ==> WellFormed(r.value.pos)
  {
    if c.rank > 8 then Panic
    else
      var sq := (8 - c.rank) * 9 + c.file;
      if sq >= SQUARE_COUNT then Panic
      else Ok(Cursor(AddPiece(c.pos, side, piece, sq), c.file + 1, if bump then c.rank + 1 else c.rank))
  }

  /**
   * Character `i` of a rank group. A digit moves `file_idx` on (a `u8`: past 255 it panics);
   * a `+` that is not last reads itself and the next character as one piece, placed with
   * the bump; anything else is read as a piece on its own. The character after a `+` is
   * not skipped: it is read again on the next step.
   */
  function GroupStep(chars: string, i: nat, c: Cursor): (r: Outcome<Cursor>)
    requires i < |chars| && WellFormed(c.pos)
    ensures r.Ok? ==> WellFormed(r.value.pos)
    ensures r.Ok? ==> r.value.pos.hand == c.pos.hand && r.value.pos.moves == c.pos.moves && r.value.pos.stm == c.pos.stm
  {
    var ch := chars[i];
    if IsDigit(ch) then
      if c.file + DigitValue(ch) >= U8_LIMIT then Panic
      else Ok(c.(file := c.file + DigitValue(ch)))
    else if ch == '+' then
      if i == |chars| - 1 then Err(BadPromotion)
      else match PieceFromStr(chars[i..i + 2])
        case None => Err(BadPiece)
        case Some(piece) => Place(c, CaseSide(chars[i + 1]), piece, true)
    else match PieceFromStr([ch])
      case None => Err(BadPiece)
      case Some(piece) => Place(c, CaseSide(ch), piece, false)
  }

  /** The scan of characters `i..` of a rank group. */
  function GroupFrom(chars: string, i: nat, c: Cursor): (r: Outcome<Cursor>)
    requires i <= |chars| && WellFormed(c.pos)
    ensures r.Ok? ==> WellFormed(r.value.pos)
    decreases |chars| - i
  {
    if i == |chars| then Ok(c)
    else match GroupStep(chars, i, c)
      case Ok(next) => GroupFrom(chars, i + 1, next)
      case Err(e) => Err(e)
      case Panic => Panic
  }

  /** One rank group, read with rank index `rankIdx`: it must end on file 9. */
  function ParseGroup(group: string, rankIdx: nat, p: Pos): (r: Outcome<Pos>)
    requires WellFormed(p)
    ensures r.Ok? ==> WellFormed(r.value)
  {
    match GroupFrom(group, 0, Cursor(p, 0, rankIdx))
    case Ok(c) => if c.file != 9 then Err(BadFiles) else Ok(c.pos)
    case Err(e) => Err(e)
    case Panic => Panic
  }

  /** Groups `r..8` of the board field. */
  function ParseRanks(ranks: seq<string>, r: nat, p: Pos): (o: Outcome<Pos>)
    requires |ranks| == 9 && r <= 9 && WellFormed(p)
    ensures o.Ok? ==> WellFormed(o.value)
    decreases 9 - r
  {
    if r == 9 then Ok(p)
    else match ParseGroup(ranks[r], r, p)
      case Ok(q) => ParseRanks(ranks, r + 1, q)
      case Err(e) => Err(e)
      case Panic => Panic
  }

  /** The side-to-move field: one character, `b` for Gote and `w` for Sente. */
  function ParseSide(part: string): Outcome<Side>
  {
    if |part| != 1 then Err(BadSide)
    else if part[0] == 'b' then Ok(Gote)
    else if part[0] == 'w' then Ok(Sente)
    else Err(BadSide)
  }

  /** The hand field: `-` leaves both hands empty; otherwise both are read from it, which may panic. */
  function ParseHands(p: Pos, part: string): (r: Outcome<Pos>)
    requires WellFormed(p)
    ensures r.Ok? ==> WellFormed(r.value)
  {
    if part == "-" then Ok(p)
    else
      match HandFrom(part, Sente)
      case None => Panic
      case Some(sente) =>
        match HandFrom(part, Gote)
        case None => Panic
        case Some(gote) => Ok(p.(hand := [sente, gote]))
  }

  /** The optional move-count field, a `u8`. */
  function ParseMoves(p: Pos, parts: seq<string>): (r: Outcome<Pos>)
    requires WellFormed(p) && |parts| >= 3
    ensures r.Ok? ==> WellFormed(r.value)
  {
    if |parts| == 4 then
      match ParseU8(parts[3])
      case None => Err(BadMoves)
      case Some(n) => Ok(p.(moves := n))
    else Ok(p)
  }

  /** The fields after the board field, read onto the position the board field gave. */
  function ReadFields(parts: seq<string>, board: Outcome<Pos>): (r: Outcome<Pos>)
    requires 3 <= |parts| <= 4 && (board.Ok? ==> WellFormed(board.value))
    ensures r.Ok? ==> WellFormed(r.value)
  {
    match board
    case Err(e) => Err(e)
    case Panic => Panic
    case Ok(p) =>
      match ParseSide(parts[1])
      case Err(e) => Err(e)
      case Panic => Panic
      case Ok(side) =>
        match ParseHands(p.(stm := side), parts[2])
        case Err(e) => Err(e)
        case Panic => Panic
        case Ok(q) => ParseMoves(q, parts)
  }

  /** `Board::from_sfen(sfen)`: the position, the error, or a panic. */
  function ParseSfen(sfen: string): (r: Outcome<Pos>)
    ensures r.Ok? ==> WellFormed(r.value)
  {
    var parts := Words(sfen);
    if |parts| < 3 || |parts| > 4 then Err(BadParts)
    else
      var ranks := Split(parts[0], '/');
      if |ranks| != 9 then Err(BadRanks)
      else ReadFields(parts, ParseRanks(ranks, 0, Empty()))
  }

  /**
   * The body of `from_sfen`'s loop over the characters of a group: character `i` read with
   * `file_idx` and `rank_idx` as given; the result is their new values.
   */
  method ReadChar(board: Board, chars: string, i: nat, fileIdx: nat, rankIdx: nat) returns (r: Outcome<(nat, nat)>)
    requires board.Valid() && i < |chars|
    modifies board.bb, board.pcs
    ensures board.Valid()
    ensures match GroupStep(chars, i, Cursor(old(board.Model()), fileIdx, rankIdx))
      case Ok(c) => r == Ok((c.file, c.rank)) && board.Model() == c.pos
      case Err(e) => r == Err(e)
      case Panic => r == Panic
  {
    var ch := chars[i];
    if IsDigit(ch) {
      if fileIdx + DigitValue(ch) >= U8_LIMIT {
        return Panic;
      }
      return Ok((fileIdx + DigitValue(ch), rankIdx));
    }
    var bump := ch == '+';
    var piece, side;
    if bump {
      if i == |chars| - 1 {
        return Err(BadPromotion);
      }
      piece := PieceFromStr(chars[i..i + 2]);
      side := CaseSide(chars[i + 1]);
    } else {
      piece := PieceFromStr([ch]);
      side := CaseSide(ch);
    }
    if piece.None? {
      return Err(BadPiece);
    }
    r := PlacePiece(board, side, piece.value, fileIdx, rankIdx, bump);
  }

  /** `board.add_piece(side, piece, Square::of(8 - rank_idx, file_idx))`, then the index updates. */
  method PlacePiece(board: Board, side: Side, piece: Piece, fileIdx: nat, rankIdx: nat, bump: bool)
    returns (r: Outcome<(nat, nat)>)
    requires board.Valid()
    modifies board.bb, board.pcs
    ensures board.Valid()
    ensures match Place(Cursor(old(board.Model()), fileIdx, rankIdx), side, piece, bump)
      case Ok(c) => r == Ok((c.file, c.rank)) && board.Model() == c.pos
      case Err(e) => r == Err(e)
      case Panic => r == Panic
  {
    if rankIdx > 8 {
      return Panic;
    }
    var sq := (8 - rankIdx) * 9 + fileIdx;
    if sq >= SQUARE_COUNT {
      return Panic;
    }
    board.AddPiece(side, piece, sq);
    return Ok((fileIdx + 1, if bump then rankIdx + 1 else rankIdx));
  }

  /**
   * The body of `from_sfen`'s loop over the rank groups: the scan of group `rankNo`'s
   * characters, placing its pieces on the board; the result is the final `file_idx`.
   */
  method ReadGroup(board: Board, chars: string, rankNo: nat) returns (r: Outcome<nat>)
    requires board.Valid()
    modifies board.bb, board.pcs
    ensures board.Valid()
    ensures match GroupFrom(chars, 0, Cursor(old(board.Model()), 0, rankNo))
      case Ok(c) => r == Ok(c.file) && board.Model() == c.pos
      case Err(e) => r == Err(e)
      case Panic => r == Panic
  {
    // `rank_idx` is this iteration's own copy: a promoted piece bumps it for the rest of the group.
    var rankIdx: nat := rankNo;
    var fileIdx: nat := 0;
    ghost var start := board.Model();
    for i := 0 to |chars|
      invariant board.Valid()
      invariant GroupFrom(chars, 0, Cursor(start, 0, rankNo)) == GroupFrom(chars, i, Cursor(board.Model(), fileIdx, rankIdx))
    {
      var step := ReadChar(board, chars, i, fileIdx, rankIdx);
      match step
      case Err(e) => return Err(e);
      case Panic => return Panic;
      case Ok(idx) =>
        fileIdx, rankIdx := idx.0, idx.1;
    }
    return Ok(fileIdx);
  }

  /** The hand field read into the board's hands; false where `from_chars` panics. */
  method ReadHands(board: Board, handPart: string) returns (ok: bool)
    requires board.Valid()
    modifies board.sente.pieces, board.gote.pieces
    ensures board.Valid()
    ensures match ParseHands(old(board.Model()), handPart)
      case Ok(q) => ok && board.Model() == q
      case Err(_) => false
      case Panic => !ok
  {
    ghost var p := board.Model();
    if handPart == "-" {
      return true;
    }
    var sente := HandFromChars(handPart, Sente);
    if sente.None? {
      return false;
    }
    board.SetHand(Sente, sente.value);
    var gote := HandFromChars(handPart, Gote);
    if gote.None? {
      return false;
    }
    board.SetHand(Gote, gote.value);
    assert board.Model() == p.(hand := [sente.value.pieces[..], gote.value.pieces[..]]);
    return true;
  }

  /**
   * `Board::from_sfen`, with its loop over the nine rank groups (whose body is `ReadGroup`),
   * proved to compute `ParseSfen`.
   */
  method FromSfen(sfen: string) returns (r: Outcome<Board>)
    ensures r.Ok? ==> fresh(r.value) && r.value.Valid() && ParseSfen(sfen) == Ok(r.value.Model())
    ensures r.Err? ==> ParseSfen(sfen) == Err(r.error)
    ensures r.Panic? ==> ParseSfen(sfen) == Panic
  {
    var board := new Board();
    var parts := Words(sfen);
    if |parts| < 3 || |parts| > 4 {
      return Err(BadParts);
    }
    var ranks := Split(parts[0], '/');
    if |ranks| != 9 {
      return Err(BadRanks);
    }
    for rankNo := 0 to 9
      invariant board.Valid()
      invariant fresh(board.bb) && fresh(board.pcs) && fresh(board.sente.pieces) && fresh(board.gote.pieces)
      invariant ParseRanks(ranks, 0, Empty()) == ParseRanks(ranks, rankNo, board.Model())
    {
      ghost var start := board.Model();
      var group := ReadGroup(board, ranks[rankNo], rankNo);
      match group
      case Err(e) => return Err(e);
      case Panic => return Panic;
      case Ok(fileIdx) =>
        if fileIdx != 9 {
          return Err(BadFiles);
        }
    }
    ghost var placed := board.Model();
    assert ParseRanks(ranks, 0, Empty()) == Ok(placed);

    var stmPart := parts[1];
    if |stmPart| != 1 {
      return Err(BadSide);
    }
    if stmPart[0] == 'b' {
      board.SetStm(Gote);
    } else if stmPart[0] == 'w' {
      board.SetStm(Sente);
    } else {
      return Err(BadSide);
    }
    ghost var sided := board.Model();

    var handsOk := ReadHands(board, parts[2]);
    if !handsOk {
      return Panic;
    }

    if |parts| == 4 {
      var moves := ParseU8(parts[3]);
      if moves.None? {
        return Err(BadMoves);
      }
      board.SetMoves(moves.value);
    }
    return Ok(board);
  }

  // ---------------------------------------------------------------------------
  // Board::to_sfen
  // ---------------------------------------------------------------------------

  /** Adds `n` to an optional count: a panic stays a panic. */
  function Shift(n: nat, o: Option<nat>): Option<nat>
  {
    match o
    case None => None
    case Some(m) => Some(n + m)
  }

  /** Joins two optional texts: a panic in either is a panic. */
  function Cat(a: Option<string>, b: Option<string>): Option<string>
  {
    match a
    case None => None
    case Some(s) => Prepend(s, b)
  }

  /**
   * The count `to_sfen` writes for an empty square `sq`, as written: the squares `sq + i`,
   * `sq + i + 1`, ... up to `sq + 8` that are empty, stopping at the first occupied one.
   * The square itself is not counted, the count runs on into the next rank, and reading a
   * square past 80 panics (`None`).
   */
  function EmptyRun(p: Pos, sq: nat, i: nat): (r: Option<nat>)
    requires WellFormed(p) && 1 <= i <= 9
    ensures r.Some? ==> r.value <= 9 - i
    decreases 9 - i
  {
    if i == 9 then Some(0)
    else if sq + i >= SQUARE_COUNT then None
    else if p.pcs[sq + i].Some? then Some(0)
    else Shift(1, EmptyRun(p, sq, i + 1))
  }

  lemma EmptyRunStep(p: Pos, sq: nat, i: nat, count: nat)
    requires WellFormed(p) && 1 <= i < 9 && sq + i < SQUARE_COUNT && p.pcs[sq + i].None?
    ensures Shift(count, EmptyRun(p, sq, i)) == Shift(count + 1, EmptyRun(p, sq, i + 1))
  {
    ShiftStep(count, EmptyRun(p, sq, i), EmptyRun(p, sq, i + 1));
  }

  lemma ShiftStep(count: nat, here: Option<nat>, rest: Option<nat>)
    requires here == Shift(1, rest)
    ensures Shift(count, here) == Shift(count + 1, rest)
  {
  }

  /** The text of one square: the piece in its owner's case, or the count of the empty run. */
  function CellText(p: Pos, sq: nat): Option<string>
    requires WellFormed(p) && sq < SQUARE_COUNT
  {
    match p.pcs[sq]
    case Some(piece) =>
      (match SideAt(p, sq)
       case None => None
       case Some(side) => Some(PieceToStr(piece, side)))
    case None =>
      (match EmptyRun(p, sq, 1)
       case None => None
       case Some(n) => Some(NatToString(n)))
  }

  /** The texts in order, joined; a panic in any is a panic. */
  function Concat(cells: seq<Option<string>>): Option<string>
  {
    if cells == [] then Some([]) else Cat(cells[0], Concat(cells[1..]))
  }

  /** The texts in order with a `/` between each two; a panic in any is a panic. */
  function JoinRows(rows: seq<Option<string>>): Option<string>
  {
    if rows == [] then Some([])
    else if |rows| == 1 then rows[0]
    else Cat(rows[0], Prepend("/", JoinRows(rows[1..])))
  }

  /** The cell texts of rank `rank`, files 0 to 8. */
  function RowCells(p: Pos, rank: nat): (r: seq<Option<string>>)
    requires WellFormed(p) && rank < 9
    ensures |r| == 9
  {
    seq(9, f => CellAt(p, rank, f))
  }

  /** The text of file `f` of rank `rank`. */
  function CellAt(p: Pos, rank: nat, f: int): Option<string>
    requires WellFormed(p) && rank < 9
  {
    if 0 <= f < 9 then CellText(p, rank * 9 + f) else None
  }

  /** The text of rank `rank`. */
  function RowText(p: Pos, rank: nat): Option<string>
    requires WellFormed(p) && rank < 9
  {
    Concat(RowCells(p, rank))
  }

  /** The rank texts in the order `to_sfen` writes them: rank 8 first. */
  function BoardRows(p: Pos): (r: seq<Option<string>>)
    requires WellFormed(p)
    ensures |r| == 9
  {
    seq(9, k => RankAt(p, k))
  }

  /** The text of the `k`-th rank written, rank `8 - k`. */
  function RankAt(p: Pos, k: int): Option<string>
    requires WellFormed(p)
  {
    if 0 <= k < 9 then RowText(p, 8 - k) else None
  }

  /** The board field: the ranks from 8 down to 0, separated by `/`. */
  function BoardText(p: Pos): Option<string>
    requires WellFormed(p)
  {
    JoinRows(BoardRows(p))
  }

  /** The side-to-move field with the spaces around it: `w` for Sente and `b` for Gote. */
  function SideText(stm: Side): string
  {
    if stm.IsSente() then " w " else " b "
  }

  /** The hand field: `-` when both hands are empty, else Sente's hand and then Gote's. */
  function HandsText(p: Pos): Option<string>
    requires WellFormed(p)
  {
    if HandIsEmpty(p.hand[0]) && HandIsEmpty(p.hand[1]) then Some("-")
    else Cat(HandText(p.hand[0], Sente), HandText(p.hand[1], Gote))
  }

  /** `board.to_sfen()`, as written; `None` is a panic. */
  function SfenText(p: Pos): Option<string>
    requires WellFormed(p)
  {
    Cat(BoardText(p), Cat(Some(SideText(p.stm)), Cat(HandsText(p), Some(" " + NatToString(p.moves)))))
  }

  lemma PrependNothing(o: Option<string>)
    ensures Prepend([], o) == o
  {
    if o.Some? {
      assert [] + o.value == o.value;
    }
  }

  lemma ConcatStep(cells: seq<Option<string>>, i: nat, row: string, cell: string)
    requires i < |cells| && cells[i] == Some(cell)
    ensures Prepend(row, Concat(cells[i..])) == Prepend(row + cell, Concat(cells[i + 1..]))
  {
    assert cells[i..][1..] == cells[i + 1..];
    var rest := Concat(cells[i + 1..]);
    if rest.Some? {
      assert row + (cell + rest.value) == (row + cell) + rest.value;
    }
  }

  /** The scan over the squares after an empty square `sq`, with its `break` at the first occupied one. */
  method EmptyCount(board: Board, sq: nat) returns (r: Option<nat>)
    requires board.Valid() && sq < SQUARE_COUNT
    ensures r == EmptyRun(board.Model(), sq, 1)
  {
    ghost var p := board.Model();
    assert WellFormed(p);
    var count: nat := 0;
    for i := 1 to 9
      invariant EmptyRun(p, sq, 1) == Shift(count, EmptyRun(p, sq, i))
    {
      var next := sq + i;
      if next >= SQUARE_COUNT {
        assert EmptyRun(p, sq, i) == None;
        return None;
      }
      var here := board.PieceAt(next);
      assert here == p.pcs[next];
      if here.Some? {
        assert EmptyRun(p, sq, i) == Some(0);
        return Some(count);
      }
      EmptyRunStep(p, sq, i, count);
      count := count + 1;
    }
    return Some(count);
  }

  /** The body of `to_sfen`'s loop over the files: the text of square `sq`. */
  method CellToSfen(board: Board, sq: nat) returns (r: Option<string>)
    requires board.Valid() && sq < SQUARE_COUNT
    ensures r == CellText(board.Model(), sq)
  {
    var piece := board.PieceAt(sq);
    if piece.Some? {
      var side := board.SideAt(sq);
      if side.None? {
        return None;
      }
      return Some(PieceToStr(piece.value, side.value));
    }
    var count := EmptyCount(board, sq);
    if count.None? {
      return None;
    }
    return Some(NatToString(count.value));
  }

  /** The body of `to_sfen`'s loop over the ranks: the loop over the files of rank `rank`. */
  method RankToSfen(board: Board, rank: nat) returns (r: Option<string>)
    requires board.Valid() && rank < 9
    ensures r == RowText(board.Model(), rank)
  {
    ghost var cells := RowCells(board.Model(), rank);
    var row := "";
    PrependNothing(Concat(cells));
    assert cells[0..] == cells;
    for file := 0 to 9
      invariant Concat(cells) == Prepend(row, Concat(cells[file..]))
    {
      var cell := CellToSfen(board, rank * 9 + file);
      if cell.None? {
        assert Concat(cells[file..]) == None;
        return None;
      }
      ConcatStep(cells, file, row, cell.value);
      row := row + cell.value;
    }
    assert row + [] == row;
    return Some(row);
  }


  lemma JoinStep(rows: seq<Option<string>>, k: nat, sfen: string, t: string)
    requires |rows| == 9 && k < 9 && rows[k] == Some(t)
    ensures k < 8 ==> Prepend(sfen, JoinRows(rows[k..])) == Prepend(sfen + t + "/", JoinRows(rows[k + 1..]))
    ensures k == 8 ==> Prepend(sfen, JoinRows(rows[k..])) == Prepend(sfen + t, JoinRows(rows[k + 1..]))
  {
    var rest := JoinRows(rows[k + 1..]);
    if k == 8 {
      assert rows[k..] == [rows[8]];
      assert rows[k + 1..] == [];
      assert (sfen + t) + [] == sfen + t;
    } else {
      assert rows[k..][1..] == rows[k + 1..];
      if rest.Some? {
        assert sfen + (t + ("/" + rest.value)) == sfen + t + "/" + rest.value;
      }
    }
  }

  lemma JoinStops(rows: seq<Option<string>>, k: nat)
    requires k < |rows| && rows[k] == None
    ensures JoinRows(rows[k..]) == None
  {
  }

  /** `to_sfen`'s loop over the ranks, rank 8 first, with a `/` after every rank but rank 0. */
  method BoardToSfen(board: Board) returns (r: Option<string>)
    requires board.Valid()
    ensures r == BoardText(board.Model())
  {
    ghost var p := board.Model();
    ghost var rows := BoardRows(p);
    var sfen := "";
    PrependNothing(BoardText(p));
    assert rows[0..] == rows;
    for k := 0 to 9
      invariant BoardText(p) == Prepend(sfen, JoinRows(rows[k..]))
    {
      var rank := 8 - k;
      var row := RankToSfen(board, rank);
      if row.None? {
        JoinStops(rows, k);
        return None;
      }
      JoinStep(rows, k, sfen, row.value);
      sfen := sfen + row.value;
      if rank > 0 {
        sfen := sfen + "/";
      }
    }
    assert rows[9..] == [];
    assert sfen + [] == sfen;
    return Some(sfen);
  }

  /** The hand field `to_sfen` writes. */
  method HandsToSfen(board: Board) returns (r: Option<string>)
    requires board.Valid()
    ensures r == HandsText(board.Model())
  {
    if board.sente.IsEmpty() && board.gote.IsEmpty() {
      return Some("-");
    }
    var s := HandToSfen(board.sente, Sente);
    if s.None? {
      return None;
    }
    var g := HandToSfen(board.gote, Gote);
    if g.None? {
      return None;
    }
    return Some(s.value + g.value);
  }

  /** The record is the board field, the side field, the hand field, a space and the move count. */
  lemma SfenTextOf(p: Pos, board: string, hands: string)
    requires WellFormed(p) && BoardText(p) == Some(board) && HandsText(p) == Some(hands)
    ensures SfenText(p) == Some(board + SideText(p.stm) + hands + " " + NatToString(p.moves))
  {
    Regroup(board, SideText(p.stm), hands, " ", NatToString(p.moves));
  }

  lemma Regroup(a: string, b: string, c: string, d: string, e: string)
    ensures a + (b + (c + (d + e))) == a + b + c + d + e
  {
  }

  /** `board.to_sfen()`, proved to compute `SfenText`; `None` is a panic. */
  method ToSfen(board: Board) returns (r: Option<string>)
    requires board.Valid()
    ensures r == SfenText(board.Model())
  {
    var sfen := BoardToSfen(board);
    if sfen.None? {
      return None;
    }
    var stm := if board.Stm().IsSente() then " w " else " b ";
    var hands := HandsToSfen(board);
    if hands.None? {
      return None;
    }
    var moves := NatToString(board.Moves());
    SfenTextOf(board.Model(), sfen.value, hands.value);
    return Some(sfen.value + stm + hands.value + " " + moves);
  }

  // ---------------------------------------------------------------------------
  // What to_sfen writes
  // ---------------------------------------------------------------------------

  /** The scan from `sq + i` panics exactly when it reaches past square 80 with every square on the way empty. */
  lemma {:induction false} EmptyRunPanics(p: Pos, sq: nat, i: nat)
    requires WellFormed(p) && 1 <= i <= 8
    ensures EmptyRun(p, sq, i).None? <==> sq + 8 >= SQUARE_COUNT && forall j | sq + i <= j < SQUARE_COUNT :: p.pcs[j].None?
    decreases 9 - i
  {
    if sq + i < SQUARE_COUNT && p.pcs[sq + i].None? && i < 8 {
      EmptyRunPanics(p, sq, i + 1);
    }
  }

  /** On a consistent board a square's text panics exactly when it is empty and the scan runs past square 80. */
  lemma CellPanics(p: Pos, sq: nat)
    requires Consistent(p) && sq < SQUARE_COUNT
    ensures CellText(p, sq).None? <==>
      p.pcs[sq].None? && sq + 8 >= SQUARE_COUNT && forall j | sq + 1 <= j < SQUARE_COUNT :: p.pcs[j].None?
  {
    SideAtOwner(p, sq);
    EmptyRunPanics(p, sq, 1);
  }

  lemma {:induction false} ConcatPanics(cells: seq<Option<string>>)
    ensures Concat(cells).None? <==> exists i | 0 <= i < |cells| :: cells[i].None?
  {
    if cells != [] {
      ConcatPanics(cells[1..]);
      if Concat(cells[1..]).None? {
        var i :| 0 <= i < |cells[1..]| && cells[1..][i].None?;
        assert cells[i + 1].None?;
      }
      if cells[0].Some? && Concat(cells[1..]).Some? {
        forall i | 0 <= i < |cells|
          ensures cells[i].Some?
        {
          if i > 0 {
            assert cells[i] == cells[1..][i - 1];
          }
        }
      }
    }
  }

  lemma {:induction false} JoinRowsPanics(rows: seq<Option<string>>)
    ensures JoinRows(rows).None? <==> exists i | 0 <= i < |rows| :: rows[i].None?
  {
    if |rows| > 1 {
      JoinRowsPanics(rows[1..]);
      if JoinRows(rows[1..]).None? {
        var i :| 0 <= i < |rows[1..]| && rows[1..][i].None?;
        assert rows[i + 1].None?;
      }
      if rows[0].Some? && JoinRows(rows[1..]).Some? {
        forall i | 0 <= i < |rows|
          ensures rows[i].Some?
        {
          if i > 0 {
            assert rows[i] == rows[1..][i - 1];
          }
        }
      }
    }
  }

  /** A cell of the board field panics exactly when square 80 is empty: then the cell of square 80 does. */
  lemma CellPanicsAt80(p: Pos, sq: nat)
    requires Consistent(p) && sq < SQUARE_COUNT
    ensures CellText(p, sq).None? ==> p.pcs[80].None?
    ensures p.pcs[80].None? ==> CellText(p, 80).None?
  {
    CellPanics(p, sq);
    CellPanics(p, 80);
    if CellText(p, sq).None? && sq < 80 {
      assert sq + 1 <= 80;
    }
  }

  /**
   * On a consistent board `to_sfen` writes the board field without panic exactly when
   * square 80 (the last file of the last rank, the first square it writes) is occupied:
   * the empty-square scan of every other square stops at it.
   */
  lemma BoardTextPanics(p: Pos)
    requires Consistent(p)
    ensures BoardText(p).None? <==> p.pcs[80].None?
  {
    if BoardText(p).None? {
      BoardPanicsOnlyAt80(p);
    }
    if p.pcs[80].None? {
      BoardPanicsAt80(p);
    }
  }

  lemma BoardPanicsOnlyAt80(p: Pos)
    requires Consistent(p) && BoardText(p).None?
    ensures p.pcs[80].None?
  {
    var rows := BoardRows(p);
    JoinRowsPanics(rows);
    var k :| 0 <= k < 9 && rows[k].None?;
    assert RowText(p, 8 - k).None?;
    RowPanicsOnlyAt80(p, 8 - k);
  }

  lemma RowPanicsOnlyAt80(p: Pos, rank: nat)
    requires Consistent(p) && rank < 9 && RowText(p, rank).None?
    ensures p.pcs[80].None?
  {
    var cells := RowCells(p, rank);
    ConcatPanics(cells);
    var f :| 0 <= f < 9 && cells[f].None?;
    assert CellText(p, rank * 9 + f).None?;
    CellPanicsAt80(p, rank * 9 + f);
  }

  lemma BoardPanicsAt80(p: Pos)
    requires Consistent(p) && p.pcs[80].None?
    ensures BoardText(p).None?
  {
    var rows := BoardRows(p);
    var cells := RowCells(p, 8);
    CellPanicsAt80(p, 0);
    assert cells[8].None?;
    ConcatPanics(cells);
    assert rows[0].None?;
    JoinRowsPanics(rows);
  }

  /** `to_sfen` panics on every consistent board whose square 80 is empty (the empty board among them). */
  lemma SfenTextPanics(p: Pos)
    requires Consistent(p) && p.pcs[80].None?
    ensures SfenText(p).None?
  {
    BoardTextPanics(p);
  }

  /**
   * An empty square right before an occupied one is written as `0`: the count starts after
   * the square itself.
   */
  lemma ZeroBeforePiece(p: Pos, sq: nat)
    requires WellFormed(p) && sq + 1 < SQUARE_COUNT && p.pcs[sq].None? && p.pcs[sq + 1].Some?
    ensures CellText(p, sq) == Some("0")
  {
  }

  /** Text that holds neither a `/` nor whitespace. */
  predicate Plain(t: string)
  {
    forall i | 0 <= i < |t| :: t[i] != '/' && !IsSpace(t[i])
  }

  lemma PlainAppend(a: string, b: string)
    requires Plain(a) && Plain(b)
    ensures Plain(a + b)
  {
    forall i | 0 <= i < |a + b|
      ensures (a + b)[i] != '/' && !IsSpace((a + b)[i])
    {
      if i >= |a| {
        assert (a + b)[i] == b[i - |a|];
      }
    }
  }

  lemma PieceToStrPlain(p: Piece, side: Side)
    ensures PieceToStr(p, side) != [] && Plain(PieceToStr(p, side))
  {
  }

  lemma {:induction false} RepeatPlain(s: string, n: nat)
    requires Plain(s)
    ensures Plain(Repeat(s, n))
  {
    if n > 0 {
      RepeatPlain(s, n - 1);
      PlainAppend(Repeat(s, n - 1), s);
    }
  }

  /** Every cell text is a non-empty run of letters, `+` and digits. */
  lemma CellPlain(p: Pos, sq: nat, c: string)
    requires WellFormed(p) && sq < SQUARE_COUNT && CellText(p, sq) == Some(c)
    ensures c != [] && Plain(c)
  {
    if p.pcs[sq].None? {
      var n := EmptyRun(p, sq, 1).value;
      assert c == NatToString(n);
    }
  }

  lemma {:induction false} ConcatPlain(cells: seq<Option<string>>, t: string)
    requires Concat(cells) == Some(t)
    requires forall i | 0 <= i < |cells| && cells[i].Some? :: Plain(cells[i].value)
    ensures Plain(t)
    ensures cells != [] && cells[0].value != [] ==> t != []
  {
    if cells != [] {
      var rest := Concat(cells[1..]).value;
      forall i | 0 <= i < |cells[1..]| && cells[1..][i].Some?
        ensures Plain(cells[1..][i].value)
      {
        assert cells[1..][i] == cells[i + 1];
      }
      ConcatPlain(cells[1..], rest);
      PlainAppend(cells[0].value, rest);
    }
  }

  /** Every cell text of a rank is a non-empty run of letters, `+` and digits. */
  lemma CellsPlain(p: Pos, rank: nat, cells: seq<Option<string>>)
    requires WellFormed(p) && rank < 9 && cells == RowCells(p, rank)
    ensures forall i | 0 <= i < 9 && cells[i].Some? :: cells[i].value != [] && Plain(cells[i].value)
  {
    forall i | 0 <= i < 9 && cells[i].Some?
      ensures cells[i].value != [] && Plain(cells[i].value)
    {
      assert cells[i] == CellText(p, rank * 9 + i);
      CellPlain(p, rank * 9 + i, cells[i].value);
    }
  }

  /** Every rank text the writer produces is a word free of `/`. */
  lemma RowPlain(p: Pos, rank: nat, t: string)
    requires WellFormed(p) && rank < 9 && RowText(p, rank) == Some(t)
    ensures t != [] && Plain(t)
  {
    var cells := RowCells(p, rank);
    ConcatPanics(cells);
    assert cells[0].Some?;
    CellsPlain(p, rank, cells);
    ConcatPlain(cells, t);
  }

  /** The texts of rows none of which panics. */
  function Values(rows: seq<Option<string>>): (r: seq<string>)
    requires forall i | 0 <= i < |rows| :: rows[i].Some?
    ensures |r| == |rows|
  {
    seq(|rows|, i => if 0 <= i < |rows| then rows[i].value else [])
  }

  lemma {:induction false} JoinRowsJoin(rows: seq<Option<string>>, t: string)
    requires |rows| >= 1 && JoinRows(rows) == Some(t)
    ensures forall i | 0 <= i < |rows| :: rows[i].Some?
    ensures t == Join(Values(rows), '/')
  {
    JoinRowsPanics(rows);
    if |rows| > 1 {
      var rest := JoinRows(rows[1..]).value;
      JoinRowsJoin(rows[1..], rest);
      assert Values(rows)[1..] == Values(rows[1..]);
      assert t == rows[0].value + ("/" + rest);
      assert t == rows[0].value + ['/'] + rest;
    }
  }

  /**
   * The board field `to_sfen` writes is a word with exactly 8 `/`, and splitting it at `/`
   * gives back the nine rank texts, rank 8 first.
   */
  lemma BoardTextRanks(p: Pos, t: string)
    requires WellFormed(p) && BoardText(p) == Some(t)
    ensures |Split(t, '/')| == 9 && Occurrences(t, '/') == 8
    ensures forall k | 0 <= k < 9 :: RowText(p, 8 - k) == Some(Split(t, '/')[k])
    ensures IsWord(t)
  {
    var rows := BoardRows(p);
    JoinRowsJoin(rows, t);
    var vals := Values(rows);
    RowsPlain(p, vals);
    SplitJoin(vals, '/');
    SplitCount(t, '/');
    JoinWord(vals);
  }

  lemma RowsPlain(p: Pos, vals: seq<string>)
    requires WellFormed(p) && |vals| == 9
    requires forall k | 0 <= k < 9 :: RowText(p, 8 - k) == Some(vals[k])
    ensures forall k | 0 <= k < 9 :: '/' !in vals[k] && vals[k] != [] && Plain(vals[k])
  {
    forall k | 0 <= k < 9
      ensures '/' !in vals[k] && vals[k] != [] && Plain(vals[k])
    {
      assert RowText(p, 8 - k) == Some(vals[k]);
      RowPlain(p, 8 - k, vals[k]);
      PlainNoSlash(vals[k]);
    }
  }

  lemma {:induction false} JoinWord(parts: seq<string>)
    requires |parts| >= 1 && forall k | 0 <= k < |parts| :: parts[k] != [] && Plain(parts[k])
    ensures IsWord(Join(parts, '/'))
  {
    if |parts| > 1 {
      JoinWord(parts[1..]);
      var t := Join(parts, '/');
      var rest := Join(parts[1..], '/');
      assert t == parts[0] + (['/'] + rest);
      forall i | 0 <= i < |t|
        ensures !IsSpace(t[i])
      {
        if i < |parts[0]| {
          assert t[i] == parts[0][i];
        } else if i > |parts[0]| {
          assert t[i] == rest[i - |parts[0]| - 1];
        }
      }
    }
  }

  lemma {:induction false} HandTextPlain(h: seq<nat>, side: Side, i: nat, t: string)
    requires ValidHand(h) && i <= HAND_SLOTS && HandTextFrom(h, side, i) == Some(t)
    ensures Plain(t)
    decreases HAND_SLOTS - i
  {
    if i < HAND_SLOTS {
      var v := h[i];
      var rest := HandTextFrom(h, side, i + 1).value;
      HandTextPlain(h, side, i + 1, rest);
      PieceToStrPlain(FromU8(v), side);
      RepeatPlain(PieceToStr(FromU8(v), side), h[v]);
      PlainAppend(Repeat(PieceToStr(FromU8(v), side), h[v]), rest);
    }
  }

  /** The hand field holds no whitespace and no `/`. */
  lemma HandsPlain(p: Pos, t: string)
    requires WellFormed(p) && HandsText(p) == Some(t)
    ensures Plain(t)
  {
    if !(HandIsEmpty(p.hand[0]) && HandIsEmpty(p.hand[1])) {
      var a := HandText(p.hand[0], Sente).value;
      var b := HandText(p.hand[1], Gote).value;
      HandTextPlain(p.hand[0], Sente, 0, a);
      HandTextPlain(p.hand[1], Gote, 0, b);
      PlainAppend(a, b);
    }
  }

  /** The letter of the side-to-move field. */
  function SideWord(stm: Side): string
  {
    if stm.IsSente() then "w" else "b"
  }

  /** The side field `to_sfen` writes reads back as the same side. */
  lemma SideRoundTrip(stm: Side)
    ensures SideText(stm) == " " + SideWord(stm) + " "
    ensures ParseSide(SideWord(stm)) == Ok(stm)
  {
  }

  lemma PlainWord(t: string)
    requires t != [] && Plain(t)
    ensures IsWord(t)
  {
  }

  /**
   * When the hand field is not empty, `split_whitespace` cuts the record `to_sfen` writes
   * into its four fields, the side and move-count fields of which read back as the board's
   * side to move and move count, and the board field of which has the nine ranks.
   */
  lemma SfenFields(p: Pos, t: string)
    requires WellFormed(p) && SfenText(p) == Some(t) && HandsText(p).value != []
    ensures Words(t) == [BoardText(p).value, SideWord(p.stm), HandsText(p).value, NatToString(p.moves)]
    ensures ParseSide(Words(t)[1]) == Ok(p.stm)
    ensures ParseU8(Words(t)[3]) == Some(p.moves)
    ensures |Split(Words(t)[0], '/')| == 9
  {
    var b := BoardText(p).value;
    var h := HandsText(p).value;
    var m := NatToString(p.moves);
    BoardTextRanks(p, b);
    HandsPlain(p, h);
    PlainWord(h);
    SideRoundTrip(p.stm);
    ParseNatToString(p.moves);
    SfenTextOf(p, b, h);
    FourWords(b, SideWord(p.stm), h, m);
  }

  /** Four words joined as `to_sfen` joins its fields come apart again under `split_whitespace`. */
  lemma FourWords(b: string, w: string, h: string, m: string)
    requires IsWord(b) && IsWord(w) && IsWord(h) && IsWord(m)
    ensures Words(b + (" " + w + " ") + h + " " + m) == [b, w, h, m]
  {
    var ws := [b, w, h, m];
    var sp := " ";
    var r2 := h + (sp + m);
    var r3 := w + (sp + r2);
    assert ws[1..] == [w, h, m] && ws[1..][1..] == [h, m] && ws[1..][1..][1..] == [m];
    assert Unwords([h, m]) == h + sp + m;
    Assoc(h, sp, m);
    assert Unwords([w, h, m]) == w + sp + r2;
    Assoc(w, sp, r2);
    assert Unwords(ws) == b + sp + r3;
    Assoc(b, sp, r3);
    Assoc(b + (sp + w + sp) + h, sp, m);
    Assoc(b + (sp + w + sp), h, sp + m);
    Assoc(b, sp + w + sp, r2);
    Assoc(sp + w, sp, r2);
    Assoc(sp, w, sp + r2);
    assert b + (sp + w + sp) + h + sp + m == b + (sp + r3);
    WordsUnwords(ws);
  }

  lemma Assoc(a: string, b: string, c: string)
    ensures a + b + c == a + (b + c)
  {
  }

  // ---------------------------------------------------------------------------
  // What from_sfen accepts
  // ---------------------------------------------------------------------------

  /** The errors the board field can raise. */
  predicate BoardError(e: SfenError)
  {
    e == BadPromotion || e == BadPiece || e == BadFiles
  }

  lemma {:induction false} GroupErrors(chars: string, i: nat, c: Cursor)
    requires i <= |chars| && WellFormed(c.pos)
    ensures GroupFrom(chars, i, c).Err? ==> GroupFrom(chars, i, c).error == BadPromotion || GroupFrom(chars, i, c).error == BadPiece
    decreases |chars| - i
  {
    if i < |chars| {
      var step := GroupStep(chars, i, c);
      if step.Ok? {
        GroupErrors(chars, i + 1, step.value);
      }
    }
  }

  lemma {:induction false} RanksErrors(ranks: seq<string>, r: nat, p: Pos)
    requires |ranks| == 9 && r <= 9 && WellFormed(p)
    ensures ParseRanks(ranks, r, p).Err? ==> BoardError(ParseRanks(ranks, r, p).error)
    decreases 9 - r
  {
    if r < 9 {
      GroupErrors(ranks[r], 0, Cursor(p, 0, r));
      var g := ParseGroup(ranks[r], r, p);
      if g.Ok? {
        RanksErrors(ranks, r + 1, g.value);
      }
    }
  }

  /** The side token is `b` (Gote) or `w` (Sente); any other token is an error. */
  lemma ParseSideMeaning(part: string)
    ensures ParseSide(part) == if part == "b" then Ok(Gote) else if part == "w" then Ok(Sente) else Err(BadSide)
  {
    if |part| == 1 {
      assert part == [part[0]];
    }
  }

  /** `from_sfen` fails with the part-count error exactly when there are not 3 or 4 fields. */
  lemma PartsError(sfen: string)
    ensures ParseSfen(sfen) == Err(BadParts) <==> |Words(sfen)| < 3 || |Words(sfen)| > 4
  {
    var parts := Words(sfen);
    if 3 <= |parts| <= 4 {
      var ranks := Split(parts[0], '/');
      if |ranks| == 9 {
        RanksErrors(ranks, 0, Empty());
      }
    }
  }

  /** With 3 or 4 fields, the rank-count error is raised exactly when the board field does not have 8 `/`. */
  lemma RanksError(sfen: string)
    requires 3 <= |Words(sfen)| <= 4
    ensures ParseSfen(sfen) == Err(BadRanks) <==> Occurrences(Words(sfen)[0], '/') != 8
  {
    var parts := Words(sfen);
    var ranks := Split(parts[0], '/');
    SplitCount(parts[0], '/');
    if |ranks| == 9 {
      RanksErrors(ranks, 0, Empty());
    }
  }

  /**
   * What a successful parse holds: the ranks of the board field parsed, the side token,
   * the hands (`-` leaves both empty; otherwise each side's letters in the field), and the
   * move count (0 without a fourth field, else the field's `u8` value).
   */
  lemma ParseSfenFields(sfen: string, p: Pos)
    requires ParseSfen(sfen) == Ok(p)
    ensures 3 <= |Words(sfen)| <= 4
    ensures |Split(Words(sfen)[0], '/')| == 9
    ensures ParseRanks(Split(Words(sfen)[0], '/'), 0, Empty()).Ok?
    ensures ParseSide(Words(sfen)[1]) == Ok(p.stm)
    ensures Words(sfen)[2] == "-" ==> p.hand == [EmptyHand(), EmptyHand()]
    ensures Words(sfen)[2] != "-" ==> HandFrom(Words(sfen)[2], Sente) == Some(p.hand[0])
    ensures Words(sfen)[2] != "-" ==> HandFrom(Words(sfen)[2], Gote) == Some(p.hand[1])
    ensures |Words(sfen)| == 3 ==> p.moves == 0
    ensures |Words(sfen)| == 4 ==> ParseU8(Words(sfen)[3]) == Some(p.moves)
  {
    var parts := Words(sfen);
    var q := ParseRanks(Split(parts[0], '/'), 0, Empty()).value;
    RanksKeep(Split(parts[0], '/'), 0, Empty());
  }

  /** The board field only places pieces: the hands, the counter and the side to move stay as they were. */
  lemma {:induction false} RanksKeep(ranks: seq<string>, r: nat, p: Pos)
    requires |ranks| == 9 && r <= 9 && WellFormed(p)
    ensures ParseRanks(ranks, r, p).Ok? ==>
      var q := ParseRanks(ranks, r, p).value; q.hand == p.hand && q.moves == p.moves && q.stm == p.stm
    decreases 9 - r
  {
    if r < 9 {
      GroupKeeps(ranks[r], 0, Cursor(p, 0, r));
      var g := ParseGroup(ranks[r], r, p);
      if g.Ok? {
        RanksKeep(ranks, r + 1, g.value);
      }
    }
  }

  lemma {:induction false} GroupKeeps(chars: string, i: nat, c: Cursor)
    requires i <= |chars| && WellFormed(c.pos)
    ensures GroupFrom(chars, i, c).Ok? ==>
      var d := GroupFrom(chars, i, c).value.pos; d.hand == c.pos.hand && d.moves == c.pos.moves && d.stm == c.pos.stm
    decreases |chars| - i
  {
    if i < |chars| {
      var step := GroupStep(chars, i, c);
      if step.Ok? {
        GroupKeeps(chars, i + 1, step.value);
      }
    }
  }

  /** With the other fields in order, a fourth field that is not a `u8` is the move-count error. */
  lemma MovesError(sfen: string)
    requires |Words(sfen)| == 4 && |Split(Words(sfen)[0], '/')| == 9
    requires ParseRanks(Split(Words(sfen)[0], '/'), 0, Empty()).Ok? && ParseSide(Words(sfen)[1]).Ok?
    requires Words(sfen)[2] == "-" || (HandFrom(Words(sfen)[2], Sente).Some? && HandFrom(Words(sfen)[2], Gote).Some?)
    ensures ParseSfen(sfen) == Err(BadMoves) <==> ParseU8(Words(sfen)[3]).None?
  {
  }

  /** A group whose last character is `+` never parses. */
  lemma {:induction false} TrailingPlus(chars: string, i: nat, c: Cursor)
    requires i < |chars| && chars[|chars| - 1] == '+' && WellFormed(c.pos)
    ensures !GroupFrom(chars, i, c).Ok?
    ensures i == |chars| - 1 ==> GroupFrom(chars, i, c) == Err(BadPromotion)
    decreases |chars| - i
  {
    if i < |chars| - 1 {
      var step := GroupStep(chars, i, c);
      if step.Ok? {
        TrailingPlus(chars, i + 1, step.value);
      }
    }
  }

  /** A character that is neither a digit, nor `+`, nor a piece letter. */
  predicate Unknown(ch: char)
  {
    !IsDigit(ch) && ch != '+' && LetterKind(UpperChar(ch)).None?
  }

  /** A group holding an unknown character never parses; reaching it is the piece error. */
  lemma {:induction false} UnknownChar(chars: string, i: nat, c: Cursor, j: nat)
    requires i <= j < |chars| && Unknown(chars[j]) && WellFormed(c.pos)
    ensures !GroupFrom(chars, i, c).Ok?
    ensures i == j ==> GroupFrom(chars, i, c) == Err(BadPiece)
    decreases |chars| - i
  {
    PieceFromChar(chars[j]);
    if i < j {
      var step := GroupStep(chars, i, c);
      if step.Ok? {
        UnknownChar(chars, i + 1, step.value, j);
      }
    }
  }

  /** A group that never parses makes the whole board field fail, whatever comes before it. */
  lemma {:induction false} RanksFail(ranks: seq<string>, r: nat, p: Pos, k: nat)
    requires |ranks| == 9 && r <= k < 9 && WellFormed(p)
    requires forall q: Pos | WellFormed(q) :: !GroupFrom(ranks[k], 0, Cursor(q, 0, k)).Ok?
    ensures !ParseRanks(ranks, r, p).Ok?
    decreases 9 - r
  {
    var g := ParseGroup(ranks[r], r, p);
    if r < k && g.Ok? {
      RanksFail(ranks, r + 1, g.value, k);
    }
  }

  /** The files a group without `+` spans: each digit its value, each piece one file. */
  function Width(chars: string): nat
  {
    if chars == [] then 0 else (if IsDigit(chars[0]) then DigitValue(chars[0]) else 1) + Width(chars[1..])
  }

  lemma {:induction false} PlainGroupWidth(chars: string, i: nat, c: Cursor)
    requires i <= |chars| && '+' !in chars && WellFormed(c.pos)
    ensures GroupFrom(chars, i, c).Ok? ==>
      GroupFrom(chars, i, c).value.file == c.file + Width(chars[i..]) && GroupFrom(chars, i, c).value.rank == c.rank
    decreases |chars| - i
  {
    if i < |chars| {
      assert chars[i..][1..] == chars[i + 1..];
      var step := GroupStep(chars, i, c);
      if step.Ok? {
        PlainGroupWidth(chars, i + 1, step.value);
      }
    }
  }

  /** A group without `+` that reads to its end fails with the file-count error exactly when it does not span 9 files. */
  lemma FilesError(group: string, rankIdx: nat, p: Pos)
    requires '+' !in group && WellFormed(p) && GroupFrom(group, 0, Cursor(p, 0, rankIdx)).Ok?
    ensures ParseGroup(group, rankIdx, p) == Err(BadFiles) <==> Width(group) != 9
  {
    PlainGroupWidth(group, 0, Cursor(p, 0, rankIdx));
    assert group[0..] == group;
  }

  /** A record one of whose rank groups ends with `+` is never read. */
  lemma TrailingPlusRejected(sfen: string, k: nat)
    requires 3 <= |Words(sfen)| <= 4 && |Split(Words(sfen)[0], '/')| == 9 && k < 9
    requires Split(Words(sfen)[0], '/')[k] != [] && Split(Words(sfen)[0], '/')[k][|Split(Words(sfen)[0], '/')[k]| - 1] == '+'
    ensures !ParseSfen(sfen).Ok?
  {
    var ranks := Split(Words(sfen)[0], '/');
    forall q: Pos | WellFormed(q)
      ensures !GroupFrom(ranks[k], 0, Cursor(q, 0, k)).Ok?
    {
      TrailingPlus(ranks[k], 0, Cursor(q, 0, k));
    }
    RanksFail(ranks, 0, Empty(), k);
  }

  /** A record one of whose rank groups holds an unknown character is never read. */
  lemma UnknownRejected(sfen: string, k: nat, j: nat)
    requires 3 <= |Words(sfen)| <= 4 && |Split(Words(sfen)[0], '/')| == 9 && k < 9
    requires j < |Split(Words(sfen)[0], '/')[k]| && Unknown(Split(Words(sfen)[0], '/')[k][j])
    ensures !ParseSfen(sfen).Ok?
  {
    var ranks := Split(Words(sfen)[0], '/');
    forall q: Pos | WellFormed(q)
      ensures !GroupFrom(ranks[k], 0, Cursor(q, 0, k)).Ok?
    {
      UnknownChar(ranks[k], 0, Cursor(q, 0, k), j);
    }
    RanksFail(ranks, 0, Empty(), k);
  }

  /**
   * As written, `+P` in the first group places a promoted pawn on square 72 and then reads
   * the `P` again as a pawn, which goes one file on and, with `rank_idx` bumped, one rank
   * down (square 64); the group then stands on file 2, not 1.
   */
  lemma PromotionReadTwice(p: Pos)
    requires WellFormed(p)
    ensures GroupFrom("+P", 0, Cursor(p, 0, 0))
         == Ok(Cursor(AddPiece(AddPiece(p, Sente, PromotedPawn, 72), Sente, Pawn, 64), 2, 1))
  {
    var chars := "+P";
    assert chars[0..2] == chars;
    assert PieceFromStr(chars) == Some(PromotedPawn) by {
      PieceStrRoundTrip(PromotedPawn, Sente);
      assert PieceToStr(PromotedPawn, Sente) == chars;
    }
    assert PieceFromStr([chars[1]]) == Some(Pawn) by {
      PieceStrRoundTrip(Pawn, Sente);
      assert PieceToStr(Pawn, Sente) == [chars[1]];
    }
    var c1 := Cursor(AddPiece(p, Sente, PromotedPawn, 72), 1, 1);
    assert GroupStep(chars, 0, Cursor(p, 0, 0)) == Ok(c1);
    assert GroupStep(chars, 1, c1) == Ok(Cursor(AddPiece(c1.pos, Sente, Pawn, 64), 2, 1));
  }

  // ---------------------------------------------------------------------------
  // The intended record codec
  // ---------------------------------------------------------------------------

  /**
   * The intended reading of a rank group: a `+` and the letter after it are one piece that
   * takes one file, and `rank_idx` stays as it is.
   */
  function GroupFixed(chars: string, c: Cursor): (r: Outcome<Cursor>)
    requires WellFormed(c.pos)
    ensures r.Ok? ==> WellFormed(r.value.pos)
    decreases |chars|
  {
    if chars == [] then Ok(c)
    else match FixedStep(chars, c)
      case Ok(s) => GroupFixed(chars[s.1..], s.0)
      case Err(e) => Err(e)
      case Panic => Panic
  }

  /** The first item of a rank group under the intended reading, and how many characters it takes. */
  function FixedStep(chars: string, c: Cursor): (r: Outcome<(Cursor, nat)>)
    requires chars != [] && WellFormed(c.pos)
    ensures r.Ok? ==> WellFormed(r.value.0.pos) && 1 <= r.value.1 <= |chars|
  {
    if IsDigit(chars[0]) then
      if c.file + DigitValue(chars[0]) >= U8_LIMIT then Panic
      else Ok((c.(file := c.file + DigitValue(chars[0])), 1))
    else
      var n := if chars[0] == '+' then 2 else 1;
      if |chars| < n then Err(BadPromotion)
      else match PieceFromStr(chars[..n])
        case None => Err(BadPiece)
        case Some(piece) =>
          match Place(c, CaseSide(chars[n - 1]), piece, false)
          case Ok(next) => Ok((next, n))
          case Err(e) => Err(e)
          case Panic => Panic
  }

  function ParseGroupFixed(group: string, rankIdx: nat, p: Pos): (r: Outcome<Pos>)
    requires WellFormed(p)
    ensures r.Ok? ==> WellFormed(r.value)
  {
    match GroupFixed(group, Cursor(p, 0, rankIdx))
    case Ok(c) => if c.file != 9 then Err(BadFiles) else Ok(c.pos)
    case Err(e) => Err(e)
    case Panic => Panic
  }

  function ParseRanksFixed(ranks: seq<string>, r: nat, p: Pos): (o: Outcome<Pos>)
    requires |ranks| == 9 && r <= 9 && WellFormed(p)
    ensures o.Ok? ==> WellFormed(o.value)
    decreases 9 - r
  {
    if r == 9 then Ok(p)
    else match ParseGroupFixed(ranks[r], r, p)
      case Ok(q) => ParseRanksFixed(ranks, r + 1, q)
      case Err(e) => Err(e)
      case Panic => Panic
  }

  /** The intended `from_sfen`: `ParseSfen` with the intended reading of rank groups. */
  function ParseSfenFixed(sfen: string): (r: Outcome<Pos>)
    ensures r.Ok? ==> WellFormed(r.value)
  {
    var parts := Words(sfen);
    if |parts| < 3 || |parts| > 4 then Err(BadParts)
    else
      var ranks := Split(parts[0], '/');
      if |ranks| != 9 then Err(BadRanks)
      else ReadFields(parts, ParseRanksFixed(ranks, 0, Empty()))
  }

  /** The owner of an occupied square, read from Sente's board first as `side_at` does. */
  function SideOf(p: Pos, sq: nat): Side
    requires WellFormed(p) && sq < SQUARE_COUNT
  {
    if Owns(p, Sente, sq) then Sente else Gote
  }

  /** The intended count for an empty square: the run of empty squares from it to the end of its rank. */
  function RunFixed(p: Pos, rank: nat, file: nat): (n: nat)
    requires WellFormed(p) && rank < 9 && file < 9
    ensures 1 <= n <= 9 - file
    decreases 9 - file
  {
    if file < 8 && p.pcs[rank * 9 + file + 1].None? then 1 + RunFixed(p, rank, file + 1) else 1
  }

  /** The intended text of files `file..8` of a rank: a piece, or one digit for a whole run of empty squares. */
  function RowFixed(p: Pos, rank: nat, file: nat): string
    requires WellFormed(p) && rank < 9 && file <= 9
    decreases 9 - file
  {
    if file == 9 then []
    else
      var sq := rank * 9 + file;
      match p.pcs[sq]
      case Some(piece) => PieceToStr(piece, SideOf(p, sq)) + RowFixed(p, rank, file + 1)
      case None =>
        var n := RunFixed(p, rank, file);
        [DigitChar(n)] + RowFixed(p, rank, file + n)
  }

  function BoardRowsFixed(p: Pos): (r: seq<string>)
    requires WellFormed(p)
    ensures |r| == 9
  {
    seq(9, k => RowAt(p, k))
  }

  /** The intended text of the `k`-th rank group, rank `8 - k`. */
  function RowAt(p: Pos, k: int): string
    requires WellFormed(p)
  {
    if 0 <= k < 9 then RowFixed(p, 8 - k, 0) else []
  }

  /** The intended board field: never a panic. */
  function BoardFixed(p: Pos): string
    requires WellFormed(p)
  {
    Join(BoardRowsFixed(p), '/')
  }

  /** The intended hand field. */
  function HandsFixed(p: Pos): string
    requires WellFormed(p)
  {
    if HandIsEmpty(p.hand[0]) && HandIsEmpty(p.hand[1]) then "-"
    else HandTextFixed(p.hand[0], Sente) + HandTextFixed(p.hand[1], Gote)
  }

  /** The intended `to_sfen`: never a panic. */
  function SfenFixed(p: Pos): string
    requires WellFormed(p)
  {
    BoardFixed(p) + SideText(p.stm) + HandsFixed(p) + " " + NatToString(p.moves)
  }

  // ---------------------------------------------------------------------------
  // The intended codec reads back what it writes
  // ---------------------------------------------------------------------------

  /** Square `sq` of `q` is square `sq` of `p`: the same kind and the same owner. */
  predicate SameSquare(q: Pos, p: Pos, sq: nat)
    requires WellFormed(q) && WellFormed(p) && sq < SQUARE_COUNT
  {
    && q.pcs[sq] == p.pcs[sq]
    && (Owns(q, Sente, sq) <==> Owns(p, Sente, sq))
    && (Owns(q, Gote, sq) <==> Owns(p, Gote, sq))
  }

  /** The squares read once a scan from rank 8 down has reached file `file` of rank `rank`. */
  predicate Scanned(rank: nat, file: nat, sq: nat)
  {
    sq >= (rank + 1) * 9 || rank * 9 <= sq < rank * 9 + file
  }

  /** `q` agrees with `p` on the squares read so far and is empty elsewhere. */
  predicate Copied(q: Pos, p: Pos, rank: nat, file: nat)
    requires WellFormed(q) && WellFormed(p)
  {
    && (forall sq | 0 <= sq < SQUARE_COUNT && Scanned(rank, file, sq) :: SameSquare(q, p, sq))
    && (forall sq | 0 <= sq < SQUARE_COUNT && !Scanned(rank, file, sq) :: q.pcs[sq].None?)
  }

  /** Reading a piece copies its square. */
  lemma CopyStep(q: Pos, p: Pos, rank: nat, file: nat)
    requires Consistent(q) && Consistent(p) && rank < 9 && file < 9
    requires Copied(q, p, rank, file) && p.pcs[rank * 9 + file].Some?
    ensures Consistent(AddPiece(q, SideOf(p, rank * 9 + file), p.pcs[rank * 9 + file].value, rank * 9 + file))
    ensures Copied(AddPiece(q, SideOf(p, rank * 9 + file), p.pcs[rank * 9 + file].value, rank * 9 + file), p, rank, file + 1)
  {
    var sq := rank * 9 + file;
    var side := SideOf(p, sq);
    var piece := p.pcs[sq].value;
    var r := AddPiece(q, side, piece, sq);
    assert !Scanned(rank, file, sq);
    AddPreserves(q, side, piece, sq);
    assert SquareOk(p, sq);
    forall s | 0 <= s < SQUARE_COUNT && s != sq
      ensures r.pcs[s] == q.pcs[s]
      ensures Owns(r, Sente, s) <==> Owns(q, Sente, s)
      ensures Owns(r, Gote, s) <==> Owns(q, Gote, s)
    {
      AddBits(q, side, piece, sq, SideIndex(Sente), s);
      AddBits(q, side, piece, sq, SideIndex(Gote), s);
    }
    assert Owns(p, side, sq) && !Owns(p, side.Flip(), sq);
    assert SameSquare(r, p, sq);
    forall s | 0 <= s < SQUARE_COUNT && Scanned(rank, file + 1, s)
      ensures SameSquare(r, p, s)
    {
      if s != sq {
        assert Scanned(rank, file, s);
      }
    }
    forall s | 0 <= s < SQUARE_COUNT && !Scanned(rank, file + 1, s)
      ensures r.pcs[s].None?
    {
      assert s != sq && !Scanned(rank, file, s);
    }
  }

  /** The squares a run count covers are empty. */
  lemma {:induction false} RunEmpty(p: Pos, rank: nat, file: nat)
    requires WellFormed(p) && rank < 9 && file < 9 && p.pcs[rank * 9 + file].None?
    ensures forall sq | rank * 9 + file <= sq < rank * 9 + file + RunFixed(p, rank, file) :: p.pcs[sq].None?
    decreases 9 - file
  {
    if file < 8 && p.pcs[rank * 9 + file + 1].None? {
      RunEmpty(p, rank, file + 1);
    }
  }

  /** Skipping a run of empty squares copies them, as they are empty in both. */
  lemma SkipStep(q: Pos, p: Pos, rank: nat, file: nat)
    requires Consistent(q) && Consistent(p) && rank < 9 && file < 9
    requires Copied(q, p, rank, file) && p.pcs[rank * 9 + file].None?
    ensures Copied(q, p, rank, file + RunFixed(p, rank, file))
  {
    var n := RunFixed(p, rank, file);
    RunEmpty(p, rank, file);
    forall s | 0 <= s < SQUARE_COUNT && Scanned(rank, file + n, s)
      ensures SameSquare(q, p, s)
    {
      if !Scanned(rank, file, s) {
        assert SquareOk(p, s) && SquareOk(q, s);
      }
    }
  }

  /** The intended group reader takes a piece's text as one piece on one file. */
  lemma PieceItem(piece: Piece, side: Side, rest: string, c: Cursor, next: Cursor, k: nat)
    requires WellFormed(c.pos) && c.rank <= 8 && (8 - c.rank) * 9 + c.file < SQUARE_COUNT
    requires next == Cursor(AddPiece(c.pos, side, piece, (8 - c.rank) * 9 + c.file), c.file + 1, c.rank)
    requires k == |PieceToStr(piece, side)|
    ensures k <= |PieceToStr(piece, side) + rest|
    ensures FixedStep(PieceToStr(piece, side) + rest, c) == Ok((next, k))
    ensures (PieceToStr(piece, side) + rest)[k..] == rest
  {
    var t := PieceToStr(piece, side);
    var chars := t + rest;
    PieceStrRoundTrip(piece, side);
    assert chars[..|t|] == t;
    assert chars[|t| - 1] == SideLetter(piece, side);
  }

  /** The intended group reader moves on by a digit's value. */
  lemma DigitItem(d: nat, rest: string, c: Cursor, next: Cursor)
    requires WellFormed(c.pos) && d < 10 && c.file + d < U8_LIMIT && next == c.(file := c.file + d)
    ensures FixedStep([DigitChar(d)] + rest, c) == Ok((next, 1))
    ensures ([DigitChar(d)] + rest)[1..] == rest
  {
  }

  /** A rank group read to its end on file 9 with the whole rank copied and nothing else changed. */
  predicate RowDone(p: Pos, rank: nat, q: Pos, o: Outcome<Cursor>)
    requires WellFormed(p) && WellFormed(q)
  {
    && o.Ok? && o.value.file == 9 && Consistent(o.value.pos) && WellFormed(o.value.pos)
    && Copied(o.value.pos, p, rank, 9)
    && o.value.pos.hand == q.hand && o.value.pos.moves == q.moves && o.value.pos.stm == q.stm
  }

  /** On an occupied square the intended text starts with the piece's text. */
  lemma RowFixedSome(p: Pos, rank: nat, file: nat, t: string, rest: string)
    requires WellFormed(p) && rank < 9 && file < 9 && p.pcs[rank * 9 + file].Some?
    requires t == PieceToStr(p.pcs[rank * 9 + file].value, SideOf(p, rank * 9 + file))
    requires rest == RowFixed(p, rank, file + 1)
    ensures RowFixed(p, rank, file) == t + rest
  {
  }

  /** On an empty square the intended text starts with the run's count. */
  lemma RowFixedNone(p: Pos, rank: nat, file: nat, n: nat, rest: string)
    requires WellFormed(p) && rank < 9 && file < 9 && p.pcs[rank * 9 + file].None?
    requires n == RunFixed(p, rank, file) && rest == RowFixed(p, rank, file + n)
    ensures RowFixed(p, rank, file) == [DigitChar(n)] + rest
  {
  }

  /** The intended reader goes on after the first item of a group. */
  lemma GroupNext(chars: string, c: Cursor, next: Cursor, k: nat, rest: string)
    requires WellFormed(c.pos) && chars != [] && FixedStep(chars, c) == Ok((next, k))
    requires chars[k..] == rest
    ensures GroupFixed(chars, c) == GroupFixed(rest, next)
  {
  }

  /** On an occupied square the intended text holds the piece, which the intended reader places there. */
  lemma RowPiece(p: Pos, rank: nat, file: nat, q: Pos, here: Outcome<Cursor>, after: Outcome<Cursor>)
    requires WellFormed(p) && WellFormed(q) && rank < 9 && file < 9 && p.pcs[rank * 9 + file].Some?
    requires here == GroupFixed(RowFixed(p, rank, file), Cursor(q, file, 8 - rank))
    requires after == GroupFixed(RowFixed(p, rank, file + 1),
        Cursor(AddPiece(q, SideOf(p, rank * 9 + file), p.pcs[rank * 9 + file].value, rank * 9 + file), file + 1, 8 - rank))
    ensures here == after
  {
    var sq := rank * 9 + file;
    var piece := p.pcs[sq].value;
    var side := SideOf(p, sq);
    var t := PieceToStr(piece, side);
    var rest := RowFixed(p, rank, file + 1);
    var c := Cursor(q, file, 8 - rank);
    var next := Cursor(AddPiece(q, side, piece, sq), file + 1, 8 - rank);
    var chars := t + rest;
    RowFixedSome(p, rank, file, t, rest);
    assert here == GroupFixed(chars, c);
    PieceItem(piece, side, rest, c, next, |t|);
    GroupNext(chars, c, next, |t|, rest);
    assert after == GroupFixed(rest, next);
  }

  /** On an empty square the intended text holds the run's count, which the intended reader skips. */
  lemma RowSkip(p: Pos, rank: nat, file: nat, q: Pos, here: Outcome<Cursor>, after: Outcome<Cursor>)
    requires WellFormed(p) && WellFormed(q) && rank < 9 && file < 9 && p.pcs[rank * 9 + file].None?
    requires here == GroupFixed(RowFixed(p, rank, file), Cursor(q, file, 8 - rank))
    requires after ==
      GroupFixed(RowFixed(p, rank, file + RunFixed(p, rank, file)), Cursor(q, file + RunFixed(p, rank, file), 8 - rank))
    ensures here == after
  {
    var n := RunFixed(p, rank, file);
    var rest := RowFixed(p, rank, file + n);
    var c := Cursor(q, file, 8 - rank);
    var next := Cursor(q, file + n, 8 - rank);
    var chars := [DigitChar(n)] + rest;
    RowFixedNone(p, rank, file, n, rest);
    assert here == GroupFixed(chars, c);
    DigitItem(n, rest, c, next);
    GroupNext(chars, c, next, 1, rest);
    assert after == GroupFixed(rest, next);
  }

  /**
   * Reading the intended text of files `file..8` of rank `rank` onto a board that holds the
   * squares read so far ends on file 9 with the whole rank copied.
   */
  lemma {:induction false} RowRoundTrip(p: Pos, rank: nat, file: nat, q: Pos, here: Outcome<Cursor>)
    requires Consistent(p) && Consistent(q) && rank < 9 && file <= 9
    requires Copied(q, p, rank, file)
    requires here == GroupFixed(RowFixed(p, rank, file), Cursor(q, file, 8 - rank))
    ensures RowDone(p, rank, q, here)
    decreases 9 - file, 1
  {
    if file < 9 {
      if p.pcs[rank * 9 + file].Some? {
        PieceTrip(p, rank, file, q, here);
      } else {
        SkipTrip(p, rank, file, q, here);
      }
    }
  }

  /** `RowRoundTrip` from an occupied square. */
  lemma {:induction false} PieceTrip(p: Pos, rank: nat, file: nat, q: Pos, here: Outcome<Cursor>)
    requires Consistent(p) && Consistent(q) && rank < 9 && file < 9 && p.pcs[rank * 9 + file].Some?
    requires Copied(q, p, rank, file)
    requires here == GroupFixed(RowFixed(p, rank, file), Cursor(q, file, 8 - rank))
    ensures RowDone(p, rank, q, here)
    decreases 9 - file, 0
  {
    var sq := rank * 9 + file;
    var next := AddPiece(q, SideOf(p, sq), p.pcs[sq].value, sq);
    var after := GroupFixed(RowFixed(p, rank, file + 1), Cursor(next, file + 1, 8 - rank));
    CopyStep(q, p, rank, file);
    RowRoundTrip(p, rank, file + 1, next, after);
    PieceDone(p, rank, file, q, next, here, after);
  }

  /** `RowRoundTrip` from an empty square. */
  lemma {:induction false} SkipTrip(p: Pos, rank: nat, file: nat, q: Pos, here: Outcome<Cursor>)
    requires Consistent(p) && Consistent(q) && rank < 9 && file < 9 && p.pcs[rank * 9 + file].None?
    requires Copied(q, p, rank, file)
    requires here == GroupFixed(RowFixed(p, rank, file), Cursor(q, file, 8 - rank))
    ensures RowDone(p, rank, q, here)
    decreases 9 - file, 0
  {
    var n := RunFixed(p, rank, file);
    var after := GroupFixed(RowFixed(p, rank, file + n), Cursor(q, file + n, 8 - rank));
    SkipStep(q, p, rank, file);
    assert 1 <= n <= 9 - file;
    assert Copied(q, p, rank, file + n);
    RowRoundTrip(p, rank, file + n, q, after);
    SkipDone(p, rank, file, q, here, after);
  }

  lemma SkipDone(p: Pos, rank: nat, file: nat, q: Pos, here: Outcome<Cursor>, after: Outcome<Cursor>)
    requires WellFormed(p) && WellFormed(q) && rank < 9 && file < 9 && p.pcs[rank * 9 + file].None?
    requires here == GroupFixed(RowFixed(p, rank, file), Cursor(q, file, 8 - rank))
    requires after ==
      GroupFixed(RowFixed(p, rank, file + RunFixed(p, rank, file)), Cursor(q, file + RunFixed(p, rank, file), 8 - rank))
    requires RowDone(p, rank, q, after)
    ensures RowDone(p, rank, q, here)
  {
    RowSkip(p, rank, file, q, here, after);
  }

  lemma PieceDone(p: Pos, rank: nat, file: nat, q: Pos, next: Pos, here: Outcome<Cursor>, after: Outcome<Cursor>)
    requires WellFormed(p) && WellFormed(q) && rank < 9 && file < 9 && p.pcs[rank * 9 + file].Some?
    requires next == AddPiece(q, SideOf(p, rank * 9 + file), p.pcs[rank * 9 + file].value, rank * 9 + file)
    requires here == GroupFixed(RowFixed(p, rank, file), Cursor(q, file, 8 - rank))
    requires after == GroupFixed(RowFixed(p, rank, file + 1), Cursor(next, file + 1, 8 - rank))
    requires RowDone(p, rank, next, after)
    ensures RowDone(p, rank, q, here)
  {
    RowPiece(p, rank, file, q, here, after);
  }

  lemma CopiedNext(q: Pos, p: Pos, rank: nat)
    requires WellFormed(q) && WellFormed(p) && 0 < rank < 9 && Copied(q, p, rank, 9)
    ensures Copied(q, p, rank - 1, 0)
  {
    forall sq | 0 <= sq < SQUARE_COUNT
      ensures Scanned(rank, 9, sq) == Scanned(rank - 1, 0, sq)
    {
    }
  }

  /** Reading the intended rank texts from group `k` on copies ranks `8 - k` down to 0. */
  lemma {:induction false} RanksRoundTrip(p: Pos, k: nat, q: Pos)
    requires Consistent(p) && Consistent(q) && k < 9 && Copied(q, p, 8 - k, 0)
    ensures ParseRanksFixed(BoardRowsFixed(p), k, q).Ok?
    ensures var r := ParseRanksFixed(BoardRowsFixed(p), k, q).value;
      && Consistent(r) && Copied(r, p, 0, 9)
      && r.hand == q.hand && r.moves == q.moves && r.stm == q.stm
    decreases 9 - k
  {
    var rows := BoardRowsFixed(p);
    var r := RankTrip(p, k, q);
    ParseRanksStep(rows, k, q, r);
    if k < 8 {
      CopiedNext(r, p, 8 - k);
      assert 8 - (k + 1) == 8 - k - 1;
      RanksRoundTrip(p, k + 1, r);
      var o := ParseRanksFixed(rows, k + 1, r);
      assert ParseRanksFixed(rows, k, q) == o;
    } else {
      assert ParseRanksFixed(rows, k, q) == Ok(r);
    }
  }

  /** A group read without error hands its board on to the next group. */
  lemma ParseRanksStep(ranks: seq<string>, k: nat, q: Pos, r: Pos)
    requires |ranks| == 9 && k < 9 && WellFormed(q) && ParseGroupFixed(ranks[k], k, q) == Ok(r)
    ensures ParseRanksFixed(ranks, k, q) == ParseRanksFixed(ranks, k + 1, r)
    ensures k == 8 ==> ParseRanksFixed(ranks, k, q) == Ok(r)
  {
  }

  /** The intended reader takes the `k`-th group the intended writer produces back to its rank. */
  lemma RankTrip(p: Pos, k: nat, q: Pos) returns (r: Pos)
    requires Consistent(p) && Consistent(q) && k < 9 && Copied(q, p, 8 - k, 0)
    ensures ParseGroupFixed(BoardRowsFixed(p)[k], k, q) == Ok(r)
    ensures Consistent(r) && Copied(r, p, 8 - k, 9)
    ensures r.hand == q.hand && r.moves == q.moves && r.stm == q.stm
  {
    var rows := BoardRowsFixed(p);
    assert rows[k] == RowFixed(p, 8 - k, 0);
    var o := GroupFixed(rows[k], Cursor(q, 0, k));
    RowRoundTrip(p, 8 - k, 0, q, o);
    r := o.value.pos;
  }

  /** Two consistent boards with the same kind and owner on every square have the same bitboards. */
  lemma SameBits(q: Pos, p: Pos, k: nat)
    requires Consistent(q) && Consistent(p) && k < PIECE_COUNT + 2
    requires forall sq | 0 <= sq < SQUARE_COUNT :: SameSquare(q, p, sq)
    ensures q.bb[k] == p.bb[k]
  {
    forall i: nat
      ensures Has(q.bb[k], i) == Has(p.bb[k], i)
    {
      if i < SQUARE_COUNT {
        assert SquareOk(q, i) && SquareOk(p, i) && SameSquare(q, p, i);
      } else {
        Pow2Values();
        HasBelow(q.bb[k], 81, i);
        HasBelow(p.bb[k], 81, i);
      }
    }
    Extensional(q.bb[k], p.bb[k]);
  }

  lemma SameBoard(q: Pos, p: Pos)
    requires Consistent(q) && Consistent(p) && Copied(q, p, 0, 9)
    ensures q.bb == p.bb && q.pcs == p.pcs
  {
    forall sq | 0 <= sq < SQUARE_COUNT
      ensures SameSquare(q, p, sq)
    {
      assert Scanned(0, 9, sq);
    }
    forall k | 0 <= k < PIECE_COUNT + 2
      ensures q.bb[k] == p.bb[k]
    {
      SameBits(q, p, k);
    }
  }

  /** The intended rank text holds no whitespace and no `/`, and is not empty. */
  lemma {:induction false} RowFixedPlain(p: Pos, rank: nat, file: nat)
    requires WellFormed(p) && rank < 9 && file <= 9
    ensures Plain(RowFixed(p, rank, file))
    ensures file < 9 ==> RowFixed(p, rank, file) != []
    decreases 9 - file
  {
    if file < 9 {
      if p.pcs[rank * 9 + file].Some? {
        RowFixedPlain(p, rank, file + 1);
        PiecePlain(p, rank, file);
      } else {
        var n := RunFixed(p, rank, file);
        RowFixedPlain(p, rank, file + n);
        RunPlain(p, rank, file);
      }
    }
  }

  /** An occupied square's text in front of a plain rest keeps the rank text plain. */
  lemma PiecePlain(p: Pos, rank: nat, file: nat)
    requires WellFormed(p) && rank < 9 && file < 9 && p.pcs[rank * 9 + file].Some?
    requires Plain(RowFixed(p, rank, file + 1))
    ensures RowFixed(p, rank, file) != [] && Plain(RowFixed(p, rank, file))
  {
    var sq := rank * 9 + file;
    var t := PieceToStr(p.pcs[sq].value, SideOf(p, sq));
    var rest := RowFixed(p, rank, file + 1);
    RowFixedSome(p, rank, file, t, rest);
    PieceToStrPlain(p.pcs[sq].value, SideOf(p, sq));
    PlainJoin(RowFixed(p, rank, file), t, rest);
  }

  /** A run's digit in front of a plain rest keeps the rank text plain. */
  lemma RunPlain(p: Pos, rank: nat, file: nat)
    requires WellFormed(p) && rank < 9 && file < 9 && p.pcs[rank * 9 + file].None?
    requires Plain(RowFixed(p, rank, file + RunFixed(p, rank, file)))
    ensures RowFixed(p, rank, file) != [] && Plain(RowFixed(p, rank, file))
  {
    var n := RunFixed(p, rank, file);
    var rest := RowFixed(p, rank, file + n);
    RowFixedNone(p, rank, file, n, rest);
    DigitPlain(n);
    PlainJoin(RowFixed(p, rank, file), [DigitChar(n)], rest);
  }

  lemma PlainJoin(whole: string, a: string, b: string)
    requires whole == a + b && a != [] && Plain(a) && Plain(b)
    ensures whole != [] && Plain(whole)
  {
    PlainAppend(a, b);
  }

  lemma DigitPlain(n: nat)
    requires n < 10
    ensures Plain([DigitChar(n)])
  {
    var c := DigitChar(n);
    assert '0' <= c <= '9';
  }

  /** The intended board field is a word that splits at `/` into the nine rank texts, rank 8 first. */
  lemma BoardFixedField(p: Pos)
    requires WellFormed(p)
    ensures IsWord(BoardFixed(p)) && Split(BoardFixed(p), '/') == BoardRowsFixed(p)
  {
    var rows := BoardRowsFixed(p);
    RowsFixedPlain(p);
    assert forall k | 0 <= k < 9 :: rows[k] == RowAt(p, k);
    SplitJoin(rows, '/');
    JoinWord(rows);
  }

  lemma RowsFixedPlain(p: Pos)
    requires WellFormed(p)
    ensures forall k | 0 <= k < 9 :: RowAt(p, k) != [] && Plain(RowAt(p, k)) && '/' !in RowAt(p, k)
  {
    forall k | 0 <= k < 9
      ensures RowAt(p, k) != [] && Plain(RowAt(p, k)) && '/' !in RowAt(p, k)
    {
      RankPlain(p, 8 - k, RowAt(p, k));
    }
  }

  lemma RankPlain(p: Pos, rank: nat, t: string)
    requires WellFormed(p) && rank < 9 && t == RowFixed(p, rank, 0)
    ensures t != [] && Plain(t) && '/' !in t
  {
    RowFixedPlain(p, rank, 0);
    PlainNoSlash(t);
  }

  lemma PlainNoSlash(t: string)
    requires Plain(t)
    ensures '/' !in t
  {
  }

  lemma {:induction false} RepeatNoDash(s: string, n: nat)
    requires s != [] && '-' !in s
    ensures '-' !in Repeat(s, n)
    ensures Repeat(s, n) == [] ==> n == 0
  {
    if n > 0 {
      RepeatNoDash(s, n - 1);
    }
  }

  /** The intended hand text: no whitespace, no `/`, no `-`, and empty only for an empty hand. */
  lemma {:induction false} HandFixedPlain(h: seq<nat>, side: Side, i: nat)
    requires ValidHand(h) && i <= HAND_SLOTS
    ensures Plain(HandTextFixedFrom(h, side, i)) && '-' !in HandTextFixedFrom(h, side, i)
    ensures HandTextFixedFrom(h, side, i) == [] ==> forall j | i <= j < HAND_SLOTS :: h[j] == 0
    decreases HAND_SLOTS - i
  {
    if i < HAND_SLOTS {
      var t := PieceToStr(FromU8(i), side);
      var rest := HandTextFixedFrom(h, side, i + 1);
      HandFixedPlain(h, side, i + 1);
      PieceToStrPlain(FromU8(i), side);
      HandFixedStep(t, h[i], rest);
      var whole := HandTextFixedFrom(h, side, i);
      assert whole == Repeat(t, h[i]) + rest;
      if whole == [] {
        forall j | i <= j < HAND_SLOTS
          ensures h[j] == 0
        {
          if j > i {
            assert i + 1 <= j;
          }
        }
      }
    }
  }

  /** One piece's run in front of the rest of the hand text keeps it plain and free of `-`. */
  lemma HandFixedStep(t: string, n: nat, rest: string)
    requires t != [] && Plain(t) && '-' !in t && Plain(rest) && '-' !in rest
    ensures Plain(Repeat(t, n) + rest) && '-' !in Repeat(t, n) + rest
    ensures Repeat(t, n) + rest == [] ==> n == 0 && rest == []
  {
    RepeatPlain(t, n);
    RepeatNoDash(t, n);
    PlainAppend(Repeat(t, n), rest);
  }

  /** A valid hand with every count 0 is `Hand::new()`. */
  lemma EmptyHandIs(h: seq<nat>)
    requires ValidHand(h) && HandIsEmpty(h)
    ensures h == EmptyHand()
  {
  }

  /**
   * The intended hand field is a word, and reading it onto a board with empty hands gives
   * both hands back.
   */
  lemma HandsFixedField(p: Pos, x: Pos)
    requires WellFormed(p) && WellFormed(x) && x.hand == [EmptyHand(), EmptyHand()]
    ensures IsWord(HandsFixed(p))
    ensures ParseHands(x, HandsFixed(p)) == Ok(x.(hand := p.hand))
  {
    assert p.hand == [p.hand[0], p.hand[1]];
    if HandIsEmpty(p.hand[0]) && HandIsEmpty(p.hand[1]) {
      EmptyHandIs(p.hand[0]);
      EmptyHandIs(p.hand[1]);
    } else {
      HandTextsField(p.hand[0], p.hand[1]);
    }
  }

  /** Two hands not both empty: their intended text is a word other than `-` that reads back as both. */
  lemma HandTextsField(sente: seq<nat>, gote: seq<nat>)
    requires ValidHand(sente) && ValidHand(gote) && !(HandIsEmpty(sente) && HandIsEmpty(gote))
    ensures IsWord(HandTextFixed(sente, Sente) + HandTextFixed(gote, Gote))
    ensures HandTextFixed(sente, Sente) + HandTextFixed(gote, Gote) != "-"
    ensures HandFrom(HandTextFixed(sente, Sente) + HandTextFixed(gote, Gote), Sente) == Some(sente)
    ensures HandFrom(HandTextFixed(sente, Sente) + HandTextFixed(gote, Gote), Gote) == Some(gote)
  {
    var a := HandTextFixed(sente, Sente);
    var b := HandTextFixed(gote, Gote);
    HandFixedPlain(sente, Sente, 0);
    HandFixedPlain(gote, Gote, 0);
    PlainAppend(a, b);
    assert a + b != [];
    assert '-' !in a + b;
    assert "-"[0] == '-';
    HandRoundTrip(sente, gote, Sente);
    HandRoundTrip(sente, gote, Gote);
  }

  /** The four fields of the intended record come apart under `split_whitespace`. */
  lemma SfenFixedWords(p: Pos)
    requires WellFormed(p)
    ensures Words(SfenFixed(p)) == [BoardFixed(p), SideWord(p.stm), HandsFixed(p), NatToString(p.moves)]
  {
    BoardFixedField(p);
    HandsFixedField(p, Empty());
    SideRoundTrip(p.stm);
    FourWords(BoardFixed(p), SideWord(p.stm), HandsFixed(p), NatToString(p.moves));
  }

  /**
   * The intended `from_sfen` reads back exactly the consistent board the intended `to_sfen`
   * writes: kinds, owners, bitboards, hands, side to move and move count.
   */
  lemma SfenRoundTrip(p: Pos)
    requires Consistent(p)
    ensures ParseSfenFixed(SfenFixed(p)) == Ok(p)
  {
    var parts := Words(SfenFixed(p));
    SfenFixedWords(p);
    BoardFixedField(p);
    var ranks := Split(parts[0], '/');
    assert ranks == BoardRowsFixed(p);
    assert Copied(Empty(), p, 8, 0);
    RanksRoundTrip(p, 0, Empty());
    var board := ParseRanksFixed(ranks, 0, Empty());
    var r := board.value;
    SameBoard(r, p);
    SideRoundTrip(p.stm);
    var x := r.(stm := p.stm);
    HandsFixedField(p, x);
    var y := x.(hand := p.hand);
    ParseNatToString(p.moves);
    assert ParseMoves(y, parts) == Ok(p);
    FieldsOk(parts, board, p.stm, y, p);
  }

  /** The fields after the board field read in turn give the position. */
  lemma FieldsOk(parts: seq<string>, board: Outcome<Pos>, side: Side, y: Pos, z: Pos)
    requires 3 <= |parts| <= 4 && board.Ok? && WellFormed(board.value)
    requires ParseSide(parts[1]) == Ok(side)
    requires ParseHands(board.value.(stm := side), parts[2]) == Ok(y)
    requires ParseMoves(y, parts) == Ok(z)
    ensures ReadFields(parts, board) == Ok(z)
  {
  }
}
