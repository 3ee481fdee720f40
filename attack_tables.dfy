/**
 * The constant attack tables of src/attacks.rs, and the evaluation of every entry bit by bit.
 *
 * Each table keeps the source's values and order. An entry is written as nine rows of nine,
 * one row per rank, which is only a layout: entry `sq` is the element at index `sq`.
 *
 * For every entry, a `...Bits<sq>` lemma lists its set bits, and a `...Rank<r>` lemma matches
 * the nine entries of rank `r` against the step sets of module Steps. The literal lemmas keep
 * the square as a parameter fixed by `requires`, so that the solver evaluates one entry at a time.
 */
module AttackTables {
  import opened Bits
  import opened Consts
  import opened Steps

  /** `KING_ATTACKS` (src/attacks.rs:50-66). */
  const KING_ATTACKS: seq<nat> :=
    [0x602, 0xe05, 0x1c0a, 0x3814, 0x7028, 0xe050, 0x1c0a0, 0x38140, 0x30080]
    + [0xc0403, 0x1c0a07, 0x38140e, 0x70281c, 0xe05038, 0x1c0a070, 0x38140e0, 0x70281c0, 0x6010180]
    + [0x18080600, 0x38140e00, 0x70281c00, 0xe0503800, 0x1c0a07000, 0x38140e000, 0x70281c000, 0xe05038000, 0xc02030000]
    + [0x30100c0000, 0x70281c0000, 0xe050380000, 0x1c0a0700000, 0x38140e00000, 0x70281c00000, 0xe0503800000, 0x1c0a07000000, 0x180406000000]
    + [0x602018000000, 0xe05038000000, 0x1c0a070000000, 0x38140e0000000, 0x70281c0000000, 0xe050380000000, 0x1c0a0700000000, 0x38140e00000000, 0x30080c00000000]
    + [0xc0403000000000, 0x1c0a07000000000, 0x38140e000000000, 0x70281c000000000, 0xe05038000000000, 0x1c0a070000000000, 0x38140e0000000000, 0x70281c0000000000, 0x6010180000000000]
    + [0x18080600000000000, 0x38140e00000000000, 0x70281c00000000000, 0xe0503800000000000, 0x1c0a07000000000000, 0x38140e000000000000, 0x70281c000000000000, 0xe05038000000000000, 0xc02030000000000000]
    + [0x30100c0000000000000, 0x70281c0000000000000, 0xe050380000000000000, 0x1c0a0700000000000000, 0x38140e00000000000000, 0x70281c00000000000000, 0xe0503800000000000000, 0x1c0a07000000000000000, 0x180406000000000000000]
    + [0x2018000000000000000, 0x5038000000000000000, 0xa070000000000000000, 0x140e0000000000000000, 0x281c0000000000000000, 0x50380000000000000000, 0xa0700000000000000000, 0x140e00000000000000000, 0x280c00000000000000000]

  /** `KNIGHT_ATTACKS` (src/attacks.rs:68-92), indexed `[side][sq]`. */
  const KNIGHT_ATTACKS: seq<seq<nat>> := [
    [0x80000, 0x140000, 0x280000, 0x500000, 0xa00000, 0x1400000, 0x2800000, 0x5000000, 0x2000000]
    + [0x10000000, 0x28000000, 0x50000000, 0xa0000000, 0x140000000, 0x280000000, 0x500000000, 0xa00000000, 0x400000000]
    + [0x2000000000, 0x5000000000, 0xa000000000, 0x14000000000, 0x28000000000, 0x50000000000, 0xa0000000000, 0x140000000000, 0x80000000000]
    + [0x400000000000, 0xa00000000000, 0x1400000000000, 0x2800000000000, 0x5000000000000, 0xa000000000000, 0x14000000000000, 0x28000000000000, 0x10000000000000]
    + [0x80000000000000, 0x140000000000000, 0x280000000000000, 0x500000000000000, 0xa00000000000000, 0x1400000000000000, 0x2800000000000000, 0x5000000000000000, 0x2000000000000000]
    + [0x10000000000000000, 0x28000000000000000, 0x50000000000000000, 0xa0000000000000000, 0x140000000000000000, 0x280000000000000000, 0x500000000000000000, 0xa00000000000000000, 0x400000000000000000]
    + [0x2000000000000000000, 0x5000000000000000000, 0xa000000000000000000, 0x14000000000000000000, 0x28000000000000000000, 0x50000000000000000000, 0xa0000000000000000000, 0x140000000000000000000, 0x80000000000000000000]
    + [0x0, 0x0, 0x0, 0x0, 0x0, 0x0, 0x0, 0x0, 0x0]
    + [0x0, 0x0, 0x0, 0x0, 0x0, 0x0, 0x0, 0x0, 0x0],
    [0x0, 0x0, 0x0, 0x0, 0x0, 0x0, 0x0, 0x0, 0x0]
    + [0x0, 0x0, 0x0, 0x0, 0x0, 0x0, 0x0, 0x0, 0x0]
    + [0x2, 0x5, 0xa, 0x14, 0x28, 0x50, 0xa0, 0x140, 0x80]
    + [0x400, 0xa00, 0x1400, 0x2800, 0x5000, 0xa000, 0x14000, 0x28000, 0x10000]
    + [0x80000, 0x140000, 0x280000, 0x500000, 0xa00000, 0x1400000, 0x2800000, 0x5000000, 0x2000000]
    + [0x10000000, 0x28000000, 0x50000000, 0xa0000000, 0x140000000, 0x280000000, 0x500000000, 0xa00000000, 0x400000000]
    + [0x2000000000, 0x5000000000, 0xa000000000, 0x14000000000, 0x28000000000, 0x50000000000, 0xa0000000000, 0x140000000000, 0x80000000000]
    + [0x400000000000, 0xa00000000000, 0x1400000000000, 0x2800000000000, 0x5000000000000, 0xa000000000000, 0x14000000000000, 0x28000000000000, 0x10000000000000]
    + [0x80000000000000, 0x140000000000000, 0x280000000000000, 0x500000000000000, 0xa00000000000000, 0x1400000000000000, 0x2800000000000000, 0x5000000000000000, 0x2000000000000000]
  ]

  /** `SILVER_ATTACKS` (src/attacks.rs:94-127), indexed `[side][sq]`. */
  const SILVER_ATTACKS: seq<seq<nat>> := [
    [0x600, 0xe00, 0x1c00, 0x3800, 0x7000, 0xe000, 0x1c000, 0x38000, 0x30000]
    + [0xc0002, 0x1c0005, 0x38000a, 0x700014, 0xe00028, 0x1c00050, 0x38000a0, 0x7000140, 0x6000080]
    + [0x18000400, 0x38000a00, 0x70001400, 0xe0002800, 0x1c0005000, 0x38000a000, 0x700014000, 0xe00028000, 0xc00010000]
    + [0x3000080000, 0x7000140000, 0xe000280000, 0x1c000500000, 0x38000a00000, 0x70001400000, 0xe0002800000, 0x1c0005000000, 0x180002000000]
    + [0x600010000000, 0xe00028000000, 0x1c00050000000, 0x38000a0000000, 0x7000140000000, 0xe000280000000, 0x1c000500000000, 0x38000a00000000, 0x30000400000000]
    + [0xc0002000000000, 0x1c0005000000000, 0x38000a000000000, 0x700014000000000, 0xe00028000000000, 0x1c00050000000000, 0x38000a0000000000, 0x7000140000000000, 0x6000080000000000]
    + [0x18000400000000000, 0x38000a00000000000, 0x70001400000000000, 0xe0002800000000000, 0x1c0005000000000000, 0x38000a000000000000, 0x700014000000000000, 0xe00028000000000000, 0xc00010000000000000]
    + [0x3000080000000000000, 0x7000140000000000000, 0xe000280000000000000, 0x1c000500000000000000, 0x38000a00000000000000, 0x70001400000000000000, 0xe0002800000000000000, 0x1c0005000000000000000, 0x180002000000000000000]
    + [0x10000000000000000, 0x28000000000000000, 0x50000000000000000, 0xa0000000000000000, 0x140000000000000000, 0x280000000000000000, 0x500000000000000000, 0xa00000000000000000, 0x400000000000000000],
    [0x400, 0xa00, 0x1400, 0x2800, 0x5000, 0xa000, 0x14000, 0x28000, 0x10000]
    + [0x80003, 0x140007, 0x28000e, 0x50001c, 0xa00038, 0x1400070, 0x28000e0, 0x50001c0, 0x2000180]
    + [0x10000600, 0x28000e00, 0x50001c00, 0xa0003800, 0x140007000, 0x28000e000, 0x50001c000, 0xa00038000, 0x400030000]
    + [0x20000c0000, 0x50001c0000, 0xa000380000, 0x14000700000, 0x28000e00000, 0x50001c00000, 0xa0003800000, 0x140007000000, 0x80006000000]
    + [0x400018000000, 0xa00038000000, 0x1400070000000, 0x28000e0000000, 0x50001c0000000, 0xa000380000000, 0x14000700000000, 0x28000e00000000, 0x10000c00000000]
    + [0x80003000000000, 0x140007000000000, 0x28000e000000000, 0x50001c000000000, 0xa00038000000000, 0x1400070000000000, 0x28000e0000000000, 0x50001c0000000000, 0x2000180000000000]
    + [0x10000600000000000, 0x28000e00000000000, 0x50001c00000000000, 0xa0003800000000000, 0x140007000000000000, 0x28000e000000000000, 0x50001c000000000000, 0xa00038000000000000, 0x400030000000000000]
    + [0x20000c0000000000000, 0x50001c0000000000000, 0xa000380000000000000, 0x14000700000000000000, 0x28000e00000000000000, 0x50001c00000000000000, 0xa0003800000000000000, 0x140007000000000000000, 0x80006000000000000000]
    + [0x18000000000000000, 0x38000000000000000, 0x70000000000000000, 0xe0000000000000000, 0x1c0000000000000000, 0x380000000000000000, 0x700000000000000000, 0xe00000000000000000, 0xc00000000000000000]
  ]

  /** `GOLD_ATTACKS` (src/attacks.rs:129-160), indexed `[side][sq]`. */
  const GOLD_ATTACKS: seq<seq<nat>> := [
    [0x602, 0xe05, 0x1c0a, 0x3814, 0x7028, 0xe050, 0x1c0a0, 0x38140, 0x30080]
    + [0xc0401, 0x1c0a02, 0x381404, 0x702808, 0xe05010, 0x1c0a020, 0x3814040, 0x7028080, 0x6010100]
    + [0x18080200, 0x38140400, 0x70280800, 0xe0501000, 0x1c0a02000, 0x381404000, 0x702808000, 0xe05010000, 0xc02020000]
    + [0x3010040000, 0x7028080000, 0xe050100000, 0x1c0a0200000, 0x38140400000, 0x70280800000, 0xe0501000000, 0x1c0a02000000, 0x180404000000]
    + [0x602008000000, 0xe05010000000, 0x1c0a020000000, 0x3814040000000, 0x7028080000000, 0xe050100000000, 0x1c0a0200000000, 0x38140400000000, 0x30080800000000]
    + [0xc0401000000000, 0x1c0a02000000000, 0x381404000000000, 0x702808000000000, 0xe05010000000000, 0x1c0a020000000000, 0x3814040000000000, 0x7028080000000000, 0x6010100000000000]
    + [0x18080200000000000, 0x38140400000000000, 0x70280800000000000, 0xe0501000000000000, 0x1c0a02000000000000, 0x381404000000000000, 0x702808000000000000, 0xe05010000000000000, 0xc02020000000000000]
    + [0x3010040000000000000, 0x7028080000000000000, 0xe050100000000000000, 0x1c0a0200000000000000, 0x38140400000000000000, 0x70280800000000000000, 0xe0501000000000000000, 0x1c0a02000000000000000, 0x180404000000000000000]
    + [0x2008000000000000000, 0x5010000000000000000, 0xa020000000000000000, 0x14040000000000000000, 0x28080000000000000000, 0x50100000000000000000, 0xa0200000000000000000, 0x140400000000000000000, 0x280800000000000000000],
    [0x202, 0x405, 0x80a, 0x1014, 0x2028, 0x4050, 0x80a0, 0x10140, 0x20080]
    + [0x40403, 0x80a07, 0x10140e, 0x20281c, 0x405038, 0x80a070, 0x10140e0, 0x20281c0, 0x4010180]
    + [0x8080600, 0x10140e00, 0x20281c00, 0x40503800, 0x80a07000, 0x10140e000, 0x20281c000, 0x405038000, 0x802030000]
    + [0x10100c0000, 0x20281c0000, 0x4050380000, 0x80a0700000, 0x10140e00000, 0x20281c00000, 0x40503800000, 0x80a07000000, 0x100406000000]
    + [0x202018000000, 0x405038000000, 0x80a070000000, 0x10140e0000000, 0x20281c0000000, 0x4050380000000, 0x80a0700000000, 0x10140e00000000, 0x20080c00000000]
    + [0x40403000000000, 0x80a07000000000, 0x10140e000000000, 0x20281c000000000, 0x405038000000000, 0x80a070000000000, 0x10140e0000000000, 0x20281c0000000000, 0x4010180000000000]
    + [0x8080600000000000, 0x10140e00000000000, 0x20281c00000000000, 0x40503800000000000, 0x80a07000000000000, 0x10140e000000000000, 0x20281c000000000000, 0x405038000000000000, 0x802030000000000000]
    + [0x10100c0000000000000, 0x20281c0000000000000, 0x4050380000000000000, 0x80a0700000000000000, 0x10140e00000000000000, 0x20281c00000000000000, 0x40503800000000000000, 0x80a07000000000000000, 0x100406000000000000000]
    + [0x2018000000000000000, 0x5038000000000000000, 0xa070000000000000000, 0x140e0000000000000000, 0x281c0000000000000000, 0x50380000000000000000, 0xa0700000000000000000, 0x140e00000000000000000, 0x280c00000000000000000]
  ]

  lemma Shapes()
    ensures |KING_ATTACKS| == 81
    ensures |KNIGHT_ATTACKS| == 2 && |KNIGHT_ATTACKS[0]| == 81 && |KNIGHT_ATTACKS[1]| == 81
    ensures |SILVER_ATTACKS| == 2 && |SILVER_ATTACKS[0]| == 81 && |SILVER_ATTACKS[1]| == 81
    ensures |GOLD_ATTACKS| == 2 && |GOLD_ATTACKS[0]| == 81 && |GOLD_ATTACKS[1]| == 81
  {
  }

  // ---------------------------------------------------------------------------
  // Literal powers of two, and the bits of a sum of distinct ones
  // ---------------------------------------------------------------------------

  lemma Bound1(a: nat)
    ensures Pow2(a) < Pow2(a + 1)
  {
    Pow2Less(a, a + 1);
  }

  lemma Bits1(a: nat, t: nat)
    ensures Has(Pow2(a), t) <==> t == a
  {
    HasPow2(a, t);
  }

  lemma Bound2(a: nat, b: nat)
    requires a < b
    ensures Pow2(a) + Pow2(b) < Pow2(b + 1)
  {
    Bound1(a);
    Pow2Mono(a + 1, b);
    Pow2Less(b, b + 1);
  }

  lemma Bits2(a: nat, b: nat, t: nat)
    requires a < b
    ensures Has(Pow2(a) + Pow2(b), t) <==> t == a || t == b
  {
    Bits1(a, t);
    Bound1(a);
    Pow2Mono(a + 1, b);
    HasAddPow2(Pow2(a), b, t);
  }

  lemma Bound3(a: nat, b: nat, c: nat)
    requires a < b < c
    ensures Pow2(a) + Pow2(b) + Pow2(c) < Pow2(c + 1)
  {
    Bound2(a, b);
    Pow2Mono(b + 1, c);
    Pow2Less(c, c + 1);
  }

  lemma Bits3(a: nat, b: nat, c: nat, t: nat)
    requires a < b < c
    ensures Has(Pow2(a) + Pow2(b) + Pow2(c), t) <==> t == a || t == b || t == c
  {
    Bits2(a, b, t);
    Bound2(a, b);
    Pow2Mono(b + 1, c);
    HasAddPow2(Pow2(a) + Pow2(b), c, t);
  }

  lemma Bound4(a: nat, b: nat, c: nat, d: nat)
    requires a < b < c < d
    ensures Pow2(a) + Pow2(b) + Pow2(c) + Pow2(d) < Pow2(d + 1)
  {
    Bound3(a, b, c);
    Pow2Mono(c + 1, d);
    Pow2Less(d, d + 1);
  }

  lemma Bits4(a: nat, b: nat, c: nat, d: nat, t: nat)
    requires a < b < c < d
    ensures Has(Pow2(a) + Pow2(b) + Pow2(c) + Pow2(d), t) <==> t == a || t == b || t == c || t == d
  {
    Bits3(a, b, c, t);
    Bound3(a, b, c);
    Pow2Mono(c + 1, d);
    HasAddPow2(Pow2(a) + Pow2(b) + Pow2(c), d, t);
  }

  lemma Bound5(a: nat, b: nat, c: nat, d: nat, e: nat)
    requires a < b < c < d < e
    ensures Pow2(a) + Pow2(b) + Pow2(c) + Pow2(d) + Pow2(e) < Pow2(e + 1)
  {
    Bound4(a, b, c, d);
    Pow2Mono(d + 1, e);
    Pow2Less(e, e + 1);
  }

  lemma Bits5(a: nat, b: nat, c: nat, d: nat, e: nat, t: nat)
    requires a < b < c < d < e
    ensures Has(Pow2(a) + Pow2(b) + Pow2(c) + Pow2(d) + Pow2(e), t) <==> t == a || t == b || t == c || t == d || t == e
  {
    Bits4(a, b, c, d, t);
    Bound4(a, b, c, d);
    Pow2Mono(d + 1, e);
    HasAddPow2(Pow2(a) + Pow2(b) + Pow2(c) + Pow2(d), e, t);
  }

  lemma Bound6(a: nat, b: nat, c: nat, d: nat, e: nat, f: nat)
    requires a < b < c < d < e < f
    ensures Pow2(a) + Pow2(b) + Pow2(c) + Pow2(d) + Pow2(e) + Pow2(f) < Pow2(f + 1)
  {
    Bound5(a, b, c, d, e);
    Pow2Mono(e + 1, f);
    Pow2Less(f, f + 1);
  }

  lemma Bits6(a: nat, b: nat, c: nat, d: nat, e: nat, f: nat, t: nat)
    requires a < b < c < d < e < f
    ensures Has(Pow2(a) + Pow2(b) + Pow2(c) + Pow2(d) + Pow2(e) + Pow2(f), t) <==> t == a || t == b || t == c || t == d || t == e || t == f
  {
    Bits5(a, b, c, d, e, t);
    Bound5(a, b, c, d, e);
    Pow2Mono(e + 1, f);
    HasAddPow2(Pow2(a) + Pow2(b) + Pow2(c) + Pow2(d) + Pow2(e), f, t);
  }

  lemma Bound7(a: nat, b: nat, c: nat, d: nat, e: nat, f: nat, g: nat)
    requires a < b < c < d < e < f < g
    ensures Pow2(a) + Pow2(b) + Pow2(c) + Pow2(d) + Pow2(e) + Pow2(f) + Pow2(g) < Pow2(g + 1)
  {
    Bound6(a, b, c, d, e, f);
    Pow2Mono(f + 1, g);
    Pow2Less(g, g + 1);
  }

  lemma Bits7(a: nat, b: nat, c: nat, d: nat, e: nat, f: nat, g: nat, t: nat)
    requires a < b < c < d < e < f < g
    ensures Has(Pow2(a) + Pow2(b) + Pow2(c) + Pow2(d) + Pow2(e) + Pow2(f) + Pow2(g), t) <==> t == a || t == b || t == c || t == d || t == e || t == f || t == g
  {
    Bits6(a, b, c, d, e, f, t);
    Bound6(a, b, c, d, e, f);
    Pow2Mono(f + 1, g);
    HasAddPow2(Pow2(a) + Pow2(b) + Pow2(c) + Pow2(d) + Pow2(e) + Pow2(f), g, t);
  }

  lemma Bound8(a: nat, b: nat, c: nat, d: nat, e: nat, f: nat, g: nat, h: nat)
    requires a < b < c < d < e < f < g < h
    ensures Pow2(a) + Pow2(b) + Pow2(c) + Pow2(d) + Pow2(e) + Pow2(f) + Pow2(g) + Pow2(h) < Pow2(h + 1)
  {
    Bound7(a, b, c, d, e, f, g);
    Pow2Mono(g + 1, h);
    Pow2Less(h, h + 1);
  }

  lemma Bits8(a: nat, b: nat, c: nat, d: nat, e: nat, f: nat, g: nat, h: nat, t: nat)
    requires a < b < c < d < e < f < g < h
    ensures Has(Pow2(a) + Pow2(b) + Pow2(c) + Pow2(d) + Pow2(e) + Pow2(f) + Pow2(g) + Pow2(h), t) <==> t == a || t == b || t == c || t == d || t == e || t == f || t == g || t == h
  {
    Bits7(a, b, c, d, e, f, g, t);
    Bound7(a, b, c, d, e, f, g);
    Pow2Mono(g + 1, h);
    HasAddPow2(Pow2(a) + Pow2(b) + Pow2(c) + Pow2(d) + Pow2(e) + Pow2(f) + Pow2(g), h, t);
  }

  // ---------------------------------------------------------------------------
  // KING_ATTACKS
  // ---------------------------------------------------------------------------

  lemma KingBits0(sq: nat, t: nat)
    requires sq == 0
    ensures Has(KING_ATTACKS[sq], t) <==> t == 1 || t == 9 || t == 10
  {
    Pow2Lit0();
    Bits3(1, 9, 10, t);
  }

  lemma KingBits1(sq: nat, t: nat)
    requires sq == 1
    ensures Has(KING_ATTACKS[sq], t) <==> t == 0 || t == 2 || t == 9 || t == 10 || t == 11
  {
    Pow2Lit0();
    Bits5(0, 2, 9, 10, 11, t);
  }

  lemma KingBits2(sq: nat, t: nat)
    requires sq == 2
    ensures Has(KING_ATTACKS[sq], t) <==> t == 1 || t == 3 || t == 10 || t == 11 || t == 12
  {
    Pow2Lit0();
    Bits5(1, 3, 10, 11, 12, t);
  }

  lemma KingBits3(sq: nat, t: nat)
    requires sq == 3
    ensures Has(KING_ATTACKS[sq], t) <==> t == 2 || t == 4 || t == 11 || t == 12 || t == 13
  {
    Pow2Lit0();
    Bits5(2, 4, 11, 12, 13, t);
  }

  lemma KingBits4(sq: nat, t: nat)
    requires sq == 4
    ensures Has(KING_ATTACKS[sq], t) <==> t == 3 || t == 5 || t == 12 || t == 13 || t == 14
  {
    Pow2Lit0();
    Bits5(3, 5, 12, 13, 14, t);
  }

  lemma KingBits5(sq: nat, t: nat)
    requires sq == 5
    ensures Has(KING_ATTACKS[sq], t) <==> t == 4 || t == 6 || t == 13 || t == 14 || t == 15
  {
    Pow2Lit0();
    Bits5(4, 6, 13, 14, 15, t);
  }

  lemma KingBits6(sq: nat, t: nat)
    requires sq == 6
    ensures Has(KING_ATTACKS[sq], t) <==> t == 5 || t == 7 || t == 14 || t == 15 || t == 16
  {
    Pow2Lit0(); Pow2Lit1();
    Bits5(5, 7, 14, 15, 16, t);
  }

  lemma KingBits7(sq: nat, t: nat)
    requires sq == 7
    ensures Has(KING_ATTACKS[sq], t) <==> t == 6 || t == 8 || t == 15 || t == 16 || t == 17
  {
    Pow2Lit0(); Pow2Lit1();
    Bits5(6, 8, 15, 16, 17, t);
  }

  lemma KingBits8(sq: nat, t: nat)
    requires sq == 8
    ensures Has(KING_ATTACKS[sq], t) <==> t == 7 || t == 16 || t == 17
  {
    Pow2Lit0(); Pow2Lit1();
    Bits3(7, 16, 17, t);
  }

  lemma KingBits9(sq: nat, t: nat)
    requires sq == 9
    ensures Has(KING_ATTACKS[sq], t) <==> t == 0 || t == 1 || t == 10 || t == 18 || t == 19
  {
    Pow2Lit0(); Pow2Lit1();
    Bits5(0, 1, 10, 18, 19, t);
  }

  lemma KingBits10(sq: nat, t: nat)
    requires sq == 10
    ensures Has(KING_ATTACKS[sq], t) <==> t == 0 || t == 1 || t == 2 || t == 9 || t == 11 || t == 18 || t == 19 || t == 20
  {
    Pow2Lit0(); Pow2Lit1();
    Bits8(0, 1, 2, 9, 11, 18, 19, 20, t);
  }

  lemma KingBits11(sq: nat, t: nat)
    requires sq == 11
    ensures Has(KING_ATTACKS[sq], t) <==> t == 1 || t == 2 || t == 3 || t == 10 || t == 12 || t == 19 || t == 20 || t == 21
  {
    Pow2Lit0(); Pow2Lit1();
    Bits8(1, 2, 3, 10, 12, 19, 20, 21, t);
  }

  lemma KingBits12(sq: nat, t: nat)
    requires sq == 12
    ensures Has(KING_ATTACKS[sq], t) <==> t == 2 || t == 3 || t == 4 || t == 11 || t == 13 || t == 20 || t == 21 || t == 22
  {
    Pow2Lit0(); Pow2Lit1();
    Bits8(2, 3, 4, 11, 13, 20, 21, 22, t);
  }

  lemma KingBits13(sq: nat, t: nat)
    requires sq == 13
    ensures Has(KING_ATTACKS[sq], t) <==> t == 3 || t == 4 || t == 5 || t == 12 || t == 14 || t == 21 || t == 22 || t == 23
  {
    Pow2Lit0(); Pow2Lit1();
    Bits8(3, 4, 5, 12, 14, 21, 22, 23, t);
  }

  lemma KingBits14(sq: nat, t: nat)
    requires sq == 14
    ensures Has(KING_ATTACKS[sq], t) <==> t == 4 || t == 5 || t == 6 || t == 13 || t == 15 || t == 22 || t == 23 || t == 24
  {
    Pow2Lit0(); Pow2Lit1();
    Bits8(4, 5, 6, 13, 15, 22, 23, 24, t);
  }

  lemma KingBits15(sq: nat, t: nat)
    requires sq == 15
    ensures Has(KING_ATTACKS[sq], t) <==> t == 5 || t == 6 || t == 7 || t == 14 || t == 16 || t == 23 || t == 24 || t == 25
  {
    Pow2Lit0(); Pow2Lit1();
    Bits8(5, 6, 7, 14, 16, 23, 24, 25, t);
  }

  lemma KingBits16(sq: nat, t: nat)
    requires sq == 16
    ensures Has(KING_ATTACKS[sq], t) <==> t == 6 || t == 7 || t == 8 || t == 15 || t == 17 || t == 24 || t == 25 || t == 26
  {
    Pow2Lit0(); Pow2Lit1();
    Bits8(6, 7, 8, 15, 17, 24, 25, 26, t);
  }

  lemma KingBits17(sq: nat, t: nat)
    requires sq == 17
    ensures Has(KING_ATTACKS[sq], t) <==> t == 7 || t == 8 || t == 16 || t == 25 || t == 26
  {
    Pow2Lit0(); Pow2Lit1();
    Bits5(7, 8, 16, 25, 26, t);
  }

  lemma KingBits18(sq: nat, t: nat)
    requires sq == 18
    ensures Has(KING_ATTACKS[sq], t) <==> t == 9 || t == 10 || t == 19 || t == 27 || t == 28
  {
    Pow2Lit0(); Pow2Lit1();
    Bits5(9, 10, 19, 27, 28, t);
  }

  lemma KingBits19(sq: nat, t: nat)
    requires sq == 19
    ensures Has(KING_ATTACKS[sq], t) <==> t == 9 || t == 10 || t == 11 || t == 18 || t == 20 || t == 27 || t == 28 || t == 29
  {
    Pow2Lit0(); Pow2Lit1();
    Bits8(9, 10, 11, 18, 20, 27, 28, 29, t);
  }

  lemma KingBits20(sq: nat, t: nat)
    requires sq == 20
    ensures Has(KING_ATTACKS[sq], t) <==> t == 10 || t == 11 || t == 12 || t == 19 || t == 21 || t == 28 || t == 29 || t == 30
  {
    Pow2Lit0(); Pow2Lit1();
    Bits8(10, 11, 12, 19, 21, 28, 29, 30, t);
  }

  lemma KingBits21(sq: nat, t: nat)
    requires sq == 21
    ensures Has(KING_ATTACKS[sq], t) <==> t == 11 || t == 12 || t == 13 || t == 20 || t == 22 || t == 29 || t == 30 || t == 31
  {
    Pow2Lit0(); Pow2Lit1();
    Bits8(11, 12, 13, 20, 22, 29, 30, 31, t);
  }

  lemma KingBits22(sq: nat, t: nat)
    requires sq == 22
    ensures Has(KING_ATTACKS[sq], t) <==> t == 12 || t == 13 || t == 14 || t == 21 || t == 23 || t == 30 || t == 31 || t == 32
  {
    Pow2Lit0(); Pow2Lit1(); Pow2Lit2();
    Bits8(12, 13, 14, 21, 23, 30, 31, 32, t);
  }

  lemma KingBits23(sq: nat, t: nat)
    requires sq == 23
    ensures Has(KING_ATTACKS[sq], t) <==> t == 13 || t == 14 || t == 15 || t == 22 || t == 24 || t == 31 || t == 32 || t == 33
  {
    Pow2Lit0(); Pow2Lit1(); Pow2Lit2();
    Bits8(13, 14, 15, 22, 24, 31, 32, 33, t);
  }

  lemma KingBits24(sq: nat, t: nat)
    requires sq == 24
    ensures Has(KING_ATTACKS[sq], t) <==> t == 14 || t == 15 || t == 16 || t == 23 || t == 25 || t == 32 || t == 33 || t == 34
  {
    Pow2Lit0(); Pow2Lit1(); Pow2Lit2();
    Bits8(14, 15, 16, 23, 25, 32, 33, 34, t);
  }

  lemma KingBits25(sq: nat, t: nat)
    requires sq == 25
    ensures Has(KING_ATTACKS[sq], t) <==> t == 15 || t == 16 || t == 17 || t == 24 || t == 26 || t == 33 || t == 34 || t == 35
  {
    Pow2Lit0(); Pow2Lit1(); Pow2Lit2();
    Bits8(15, 16, 17, 24, 26, 33, 34, 35, t);
  }

  lemma KingBits26(sq: nat, t: nat)
    requires sq == 26
    ensures Has(KING_ATTACKS[sq], t) <==> t == 16 || t == 17 || t == 25 || t == 34 || t == 35
  {
    Pow2Lit1(); Pow2Lit2();
    Bits5(16, 17, 25, 34, 35, t);
  }

  lemma KingBits27(sq: nat, t: nat)
    requires sq == 27
    ensures Has(KING_ATTACKS[sq], t) <==> t == 18 || t == 19 || t == 28 || t == 36 || t == 37
  {
    Pow2Lit1(); Pow2Lit2();
    Bits5(18, 19, 28, 36, 37, t);
  }

  lemma KingBits28(sq: nat, t: nat)
    requires sq == 28
    ensures Has(KING_ATTACKS[sq], t) <==> t == 18 || t == 19 || t == 20 || t == 27 || t == 29 || t == 36 || t == 37 || t == 38
  {
    Pow2Lit1(); Pow2Lit2();
    Bits8(18, 19, 20, 27, 29, 36, 37, 38, t);
  }

  lemma KingBits29(sq: nat, t: nat)
    requires sq == 29
    ensures Has(KING_ATTACKS[sq], t) <==> t == 19 || t == 20 || t == 21 || t == 28 || t == 30 || t == 37 || t == 38 || t == 39
  {
    Pow2Lit1(); Pow2Lit2();
    Bits8(19, 20, 21, 28, 30, 37, 38, 39, t);
  }

  lemma KingBits30(sq: nat, t: nat)
    requires sq == 30
    ensures Has(KING_ATTACKS[sq], t) <==> t == 20 || t == 21 || t == 22 || t == 29 || t == 31 || t == 38 || t == 39 || t == 40
  {
    Pow2Lit1(); Pow2Lit2();
    Bits8(20, 21, 22, 29, 31, 38, 39, 40, t);
  }

  lemma KingBits31(sq: nat, t: nat)
    requires sq == 31
    ensures Has(KING_ATTACKS[sq], t) <==> t == 21 || t == 22 || t == 23 || t == 30 || t == 32 || t == 39 || t == 40 || t == 41
  {
    Pow2Lit1(); Pow2Lit2();
    Bits8(21, 22, 23, 30, 32, 39, 40, 41, t);
  }

  lemma KingBits32(sq: nat, t: nat)
    requires sq == 32
    ensures Has(KING_ATTACKS[sq], t) <==> t == 22 || t == 23 || t == 24 || t == 31 || t == 33 || t == 40 || t == 41 || t == 42
  {
    Pow2Lit1(); Pow2Lit2();
    Bits8(22, 23, 24, 31, 33, 40, 41, 42, t);
  }

  lemma KingBits33(sq: nat, t: nat)
    requires sq == 33
    ensures Has(KING_ATTACKS[sq], t) <==> t == 23 || t == 24 || t == 25 || t == 32 || t == 34 || t == 41 || t == 42 || t == 43
  {
    Pow2Lit1(); Pow2Lit2();
    Bits8(23, 24, 25, 32, 34, 41, 42, 43, t);
  }

  lemma KingBits34(sq: nat, t: nat)
    requires sq == 34
    ensures Has(KING_ATTACKS[sq], t) <==> t == 24 || t == 25 || t == 26 || t == 33 || t == 35 || t == 42 || t == 43 || t == 44
  {
    Pow2Lit1(); Pow2Lit2();
    Bits8(24, 25, 26, 33, 35, 42, 43, 44, t);
  }

  lemma KingBits35(sq: nat, t: nat)
    requires sq == 35
    ensures Has(KING_ATTACKS[sq], t) <==> t == 25 || t == 26 || t == 34 || t == 43 || t == 44
  {
    Pow2Lit1(); Pow2Lit2();
    Bits5(25, 26, 34, 43, 44, t);
  }

  lemma KingBits36(sq: nat, t: nat)
    requires sq == 36
    ensures Has(KING_ATTACKS[sq], t) <==> t == 27 || t == 28 || t == 37 || t == 45 || t == 46
  {
    Pow2Lit1(); Pow2Lit2();
    Bits5(27, 28, 37, 45, 46, t);
  }

  lemma KingBits37(sq: nat, t: nat)
    requires sq == 37
    ensures Has(KING_ATTACKS[sq], t) <==> t == 27 || t == 28 || t == 29 || t == 36 || t == 38 || t == 45 || t == 46 || t == 47
  {
    Pow2Lit1(); Pow2Lit2();
    Bits8(27, 28, 29, 36, 38, 45, 46, 47, t);
  }

  lemma KingBits38(sq: nat, t: nat)
    requires sq == 38
    ensures Has(KING_ATTACKS[sq], t) <==> t == 28 || t == 29 || t == 30 || t == 37 || t == 39 || t == 46 || t == 47 || t == 48
  {
    Pow2Lit1(); Pow2Lit2(); Pow2Lit3();
    Bits8(28, 29, 30, 37, 39, 46, 47, 48, t);
  }

  lemma KingBits39(sq: nat, t: nat)
    requires sq == 39
    ensures Has(KING_ATTACKS[sq], t) <==> t == 29 || t == 30 || t == 31 || t == 38 || t == 40 || t == 47 || t == 48 || t == 49
  {
    Pow2Lit1(); Pow2Lit2(); Pow2Lit3();
    Bits8(29, 30, 31, 38, 40, 47, 48, 49, t);
  }

  lemma KingBits40(sq: nat, t: nat)
    requires sq == 40
    ensures Has(KING_ATTACKS[sq], t) <==> t == 30 || t == 31 || t == 32 || t == 39 || t == 41 || t == 48 || t == 49 || t == 50
  {
    Pow2Lit1(); Pow2Lit2(); Pow2Lit3();
    Bits8(30, 31, 32, 39, 41, 48, 49, 50, t);
  }

  lemma KingBits41(sq: nat, t: nat)
    requires sq == 41
    ensures Has(KING_ATTACKS[sq], t) <==> t == 31 || t == 32 || t == 33 || t == 40 || t == 42 || t == 49 || t == 50 || t == 51
  {
    Pow2Lit1(); Pow2Lit2(); Pow2Lit3();
    Bits8(31, 32, 33, 40, 42, 49, 50, 51, t);
  }

  lemma KingBits42(sq: nat, t: nat)
    requires sq == 42
    ensures Has(KING_ATTACKS[sq], t) <==> t == 32 || t == 33 || t == 34 || t == 41 || t == 43 || t == 50 || t == 51 || t == 52
  {
    Pow2Lit2(); Pow2Lit3();
    Bits8(32, 33, 34, 41, 43, 50, 51, 52, t);
  }

  lemma KingBits43(sq: nat, t: nat)
    requires sq == 43
    ensures Has(KING_ATTACKS[sq], t) <==> t == 33 || t == 34 || t == 35 || t == 42 || t == 44 || t == 51 || t == 52 || t == 53
  {
    Pow2Lit2(); Pow2Lit3();
    Bits8(33, 34, 35, 42, 44, 51, 52, 53, t);
  }

  lemma KingBits44(sq: nat, t: nat)
    requires sq == 44
    ensures Has(KING_ATTACKS[sq], t) <==> t == 34 || t == 35 || t == 43 || t == 52 || t == 53
  {
    Pow2Lit2(); Pow2Lit3();
    Bits5(34, 35, 43, 52, 53, t);
  }

  lemma KingBits45(sq: nat, t: nat)
    requires sq == 45
    ensures Has(KING_ATTACKS[sq], t) <==> t == 36 || t == 37 || t == 46 || t == 54 || t == 55
  {
    Pow2Lit2(); Pow2Lit3();
    Bits5(36, 37, 46, 54, 55, t);
  }

  lemma KingBits46(sq: nat, t: nat)
    requires sq == 46
    ensures Has(KING_ATTACKS[sq], t) <==> t == 36 || t == 37 || t == 38 || t == 45 || t == 47 || t == 54 || t == 55 || t == 56
  {
    Pow2Lit2(); Pow2Lit3();
    Bits8(36, 37, 38, 45, 47, 54, 55, 56, t);
  }

  lemma KingBits47(sq: nat, t: nat)
    requires sq == 47
    ensures Has(KING_ATTACKS[sq], t) <==> t == 37 || t == 38 || t == 39 || t == 46 || t == 48 || t == 55 || t == 56 || t == 57
  {
    Pow2Lit2(); Pow2Lit3();
    Bits8(37, 38, 39, 46, 48, 55, 56, 57, t);
  }

  lemma KingBits48(sq: nat, t: nat)
    requires sq == 48
    ensures Has(KING_ATTACKS[sq], t) <==> t == 38 || t == 39 || t == 40 || t == 47 || t == 49 || t == 56 || t == 57 || t == 58
  {
    Pow2Lit2(); Pow2Lit3();
    Bits8(38, 39, 40, 47, 49, 56, 57, 58, t);
  }

  lemma KingBits49(sq: nat, t: nat)
    requires sq == 49
    ensures Has(KING_ATTACKS[sq], t) <==> t == 39 || t == 40 || t == 41 || t == 48 || t == 50 || t == 57 || t == 58 || t == 59
  {
    Pow2Lit2(); Pow2Lit3();
    Bits8(39, 40, 41, 48, 50, 57, 58, 59, t);
  }

  lemma KingBits50(sq: nat, t: nat)
    requires sq == 50
    ensures Has(KING_ATTACKS[sq], t) <==> t == 40 || t == 41 || t == 42 || t == 49 || t == 51 || t == 58 || t == 59 || t == 60
  {
    Pow2Lit2(); Pow2Lit3();
    Bits8(40, 41, 42, 49, 51, 58, 59, 60, t);
  }

  lemma KingBits51(sq: nat, t: nat)
    requires sq == 51
    ensures Has(KING_ATTACKS[sq], t) <==> t == 41 || t == 42 || t == 43 || t == 50 || t == 52 || t == 59 || t == 60 || t == 61
  {
    Pow2Lit2(); Pow2Lit3();
    Bits8(41, 42, 43, 50, 52, 59, 60, 61, t);
  }

  lemma KingBits52(sq: nat, t: nat)
    requires sq == 52
    ensures Has(KING_ATTACKS[sq], t) <==> t == 42 || t == 43 || t == 44 || t == 51 || t == 53 || t == 60 || t == 61 || t == 62
  {
    Pow2Lit2(); Pow2Lit3();
    Bits8(42, 43, 44, 51, 53, 60, 61, 62, t);
  }

  lemma KingBits53(sq: nat, t: nat)
    requires sq == 53
    ensures Has(KING_ATTACKS[sq], t) <==> t == 43 || t == 44 || t == 52 || t == 61 || t == 62
  {
    Pow2Lit2(); Pow2Lit3();
    Bits5(43, 44, 52, 61, 62, t);
  }

  lemma KingBits54(sq: nat, t: nat)
    requires sq == 54
    ensures Has(KING_ATTACKS[sq], t) <==> t == 45 || t == 46 || t == 55 || t == 63 || t == 64
  {
    Pow2Lit2(); Pow2Lit3(); Pow2Lit4();
    Bits5(45, 46, 55, 63, 64, t);
  }

  lemma KingBits55(sq: nat, t: nat)
    requires sq == 55
    ensures Has(KING_ATTACKS[sq], t) <==> t == 45 || t == 46 || t == 47 || t == 54 || t == 56 || t == 63 || t == 64 || t == 65
  {
    Pow2Lit2(); Pow2Lit3(); Pow2Lit4();
    Bits8(45, 46, 47, 54, 56, 63, 64, 65, t);
  }

  lemma KingBits56(sq: nat, t: nat)
    requires sq == 56
    ensures Has(KING_ATTACKS[sq], t) <==> t == 46 || t == 47 || t == 48 || t == 55 || t == 57 || t == 64 || t == 65 || t == 66
  {
    Pow2Lit2(); Pow2Lit3(); Pow2Lit4();
    Bits8(46, 47, 48, 55, 57, 64, 65, 66, t);
  }

  lemma KingBits57(sq: nat, t: nat)
    requires sq == 57
    ensures Has(KING_ATTACKS[sq], t) <==> t == 47 || t == 48 || t == 49 || t == 56 || t == 58 || t == 65 || t == 66 || t == 67
  {
    Pow2Lit2(); Pow2Lit3(); Pow2Lit4();
    Bits8(47, 48, 49, 56, 58, 65, 66, 67, t);
  }

  lemma KingBits58(sq: nat, t: nat)
    requires sq == 58
    ensures Has(KING_ATTACKS[sq], t) <==> t == 48 || t == 49 || t == 50 || t == 57 || t == 59 || t == 66 || t == 67 || t == 68
  {
    Pow2Lit3(); Pow2Lit4();
    Bits8(48, 49, 50, 57, 59, 66, 67, 68, t);
  }

  lemma KingBits59(sq: nat, t: nat)
    requires sq == 59
    ensures Has(KING_ATTACKS[sq], t) <==> t == 49 || t == 50 || t == 51 || t == 58 || t == 60 || t == 67 || t == 68 || t == 69
  {
    Pow2Lit3(); Pow2Lit4();
    Bits8(49, 50, 51, 58, 60, 67, 68, 69, t);
  }

  lemma KingBits60(sq: nat, t: nat)
    requires sq == 60
    ensures Has(KING_ATTACKS[sq], t) <==> t == 50 || t == 51 || t == 52 || t == 59 || t == 61 || t == 68 || t == 69 || t == 70
  {
    Pow2Lit3(); Pow2Lit4();
    Bits8(50, 51, 52, 59, 61, 68, 69, 70, t);
  }

  lemma KingBits61(sq: nat, t: nat)
    requires sq == 61
    ensures Has(KING_ATTACKS[sq], t) <==> t == 51 || t == 52 || t == 53 || t == 60 || t == 62 || t == 69 || t == 70 || t == 71
  {
    Pow2Lit3(); Pow2Lit4();
    Bits8(51, 52, 53, 60, 62, 69, 70, 71, t);
  }

  lemma KingBits62(sq: nat, t: nat)
    requires sq == 62
    ensures Has(KING_ATTACKS[sq], t) <==> t == 52 || t == 53 || t == 61 || t == 70 || t == 71
  {
    Pow2Lit3(); Pow2Lit4();
    Bits5(52, 53, 61, 70, 71, t);
  }

  lemma KingBits63(sq: nat, t: nat)
    requires sq == 63
    ensures Has(KING_ATTACKS[sq], t) <==> t == 54 || t == 55 || t == 64 || t == 72 || t == 73
  {
    Pow2Lit3(); Pow2Lit4();
    Bits5(54, 55, 64, 72, 73, t);
  }

  lemma KingBits64(sq: nat, t: nat)
    requires sq == 64
    ensures Has(KING_ATTACKS[sq], t) <==> t == 54 || t == 55 || t == 56 || t == 63 || t == 65 || t == 72 || t == 73 || t == 74
  {
    Pow2Lit3(); Pow2Lit4();
    Bits8(54, 55, 56, 63, 65, 72, 73, 74, t);
  }

  lemma KingBits65(sq: nat, t: nat)
    requires sq == 65
    ensures Has(KING_ATTACKS[sq], t) <==> t == 55 || t == 56 || t == 57 || t == 64 || t == 66 || t == 73 || t == 74 || t == 75
  {
    Pow2Lit3(); Pow2Lit4();
    Bits8(55, 56, 57, 64, 66, 73, 74, 75, t);
  }

  lemma KingBits66(sq: nat, t: nat)
    requires sq == 66
    ensures Has(KING_ATTACKS[sq], t) <==> t == 56 || t == 57 || t == 58 || t == 65 || t == 67 || t == 74 || t == 75 || t == 76
  {
    Pow2Lit3(); Pow2Lit4();
    Bits8(56, 57, 58, 65, 67, 74, 75, 76, t);
  }

  lemma KingBits67(sq: nat, t: nat)
    requires sq == 67
    ensures Has(KING_ATTACKS[sq], t) <==> t == 57 || t == 58 || t == 59 || t == 66 || t == 68 || t == 75 || t == 76 || t == 77
  {
    Pow2Lit3(); Pow2Lit4();
    Bits8(57, 58, 59, 66, 68, 75, 76, 77, t);
  }

  lemma KingBits68(sq: nat, t: nat)
    requires sq == 68
    ensures Has(KING_ATTACKS[sq], t) <==> t == 58 || t == 59 || t == 60 || t == 67 || t == 69 || t == 76 || t == 77 || t == 78
  {
    Pow2Lit3(); Pow2Lit4();
    Bits8(58, 59, 60, 67, 69, 76, 77, 78, t);
  }

  lemma KingBits69(sq: nat, t: nat)
    requires sq == 69
    ensures Has(KING_ATTACKS[sq], t) <==> t == 59 || t == 60 || t == 61 || t == 68 || t == 70 || t == 77 || t == 78 || t == 79
  {
    Pow2Lit3(); Pow2Lit4();
    Bits8(59, 60, 61, 68, 70, 77, 78, 79, t);
  }

  lemma KingBits70(sq: nat, t: nat)
    requires sq == 70
    ensures Has(KING_ATTACKS[sq], t) <==> t == 60 || t == 61 || t == 62 || t == 69 || t == 71 || t == 78 || t == 79 || t == 80
  {
    Pow2Lit3(); Pow2Lit4(); Pow2Lit5();
    Bits8(60, 61, 62, 69, 71, 78, 79, 80, t);
  }

  lemma KingBits71(sq: nat, t: nat)
    requires sq == 71
    ensures Has(KING_ATTACKS[sq], t) <==> t == 61 || t == 62 || t == 70 || t == 79 || t == 80
  {
    Pow2Lit3(); Pow2Lit4(); Pow2Lit5();
    Bits5(61, 62, 70, 79, 80, t);
  }

  lemma KingBits72(sq: nat, t: nat)
    requires sq == 72
    ensures Has(KING_ATTACKS[sq], t) <==> t == 63 || t == 64 || t == 73
  {
    Pow2Lit3(); Pow2Lit4();
    Bits3(63, 64, 73, t);
  }

  lemma KingBits73(sq: nat, t: nat)
    requires sq == 73
    ensures Has(KING_ATTACKS[sq], t) <==> t == 63 || t == 64 || t == 65 || t == 72 || t == 74
  {
    Pow2Lit3(); Pow2Lit4();
    Bits5(63, 64, 65, 72, 74, t);
  }

  lemma KingBits74(sq: nat, t: nat)
    requires sq == 74
    ensures Has(KING_ATTACKS[sq], t) <==> t == 64 || t == 65 || t == 66 || t == 73 || t == 75
  {
    Pow2Lit4();
    Bits5(64, 65, 66, 73, 75, t);
  }

  lemma KingBits75(sq: nat, t: nat)
    requires sq == 75
    ensures Has(KING_ATTACKS[sq], t) <==> t == 65 || t == 66 || t == 67 || t == 74 || t == 76
  {
    Pow2Lit4();
    Bits5(65, 66, 67, 74, 76, t);
  }

  lemma KingBits76(sq: nat, t: nat)
    requires sq == 76
    ensures Has(KING_ATTACKS[sq], t) <==> t == 66 || t == 67 || t == 68 || t == 75 || t == 77
  {
    Pow2Lit4();
    Bits5(66, 67, 68, 75, 77, t);
  }

  lemma KingBits77(sq: nat, t: nat)
    requires sq == 77
    ensures Has(KING_ATTACKS[sq], t) <==> t == 67 || t == 68 || t == 69 || t == 76 || t == 78
  {
    Pow2Lit4();
    Bits5(67, 68, 69, 76, 78, t);
  }

  lemma KingBits78(sq: nat, t: nat)
    requires sq == 78
    ensures Has(KING_ATTACKS[sq], t) <==> t == 68 || t == 69 || t == 70 || t == 77 || t == 79
  {
    Pow2Lit4();
    Bits5(68, 69, 70, 77, 79, t);
  }

  lemma KingBits79(sq: nat, t: nat)
    requires sq == 79
    ensures Has(KING_ATTACKS[sq], t) <==> t == 69 || t == 70 || t == 71 || t == 78 || t == 80
  {
    Pow2Lit4(); Pow2Lit5();
    Bits5(69, 70, 71, 78, 80, t);
  }

  lemma KingBits80(sq: nat, t: nat)
    requires sq == 80
    ensures Has(KING_ATTACKS[sq], t) <==> t == 70 || t == 71 || t == 79 || t == 81
  {
    Pow2Lit4(); Pow2Lit5();
    Bits4(70, 71, 79, 81, t);
  }

  lemma KingRank0(sq: nat, t: nat)
    requires 0 <= sq < 9
    ensures Has(KING_ATTACKS[sq], t) <==> KingStep(sq, t)
  {
    if sq == 0 {
      KingBits0(sq, t);
    } else if sq == 1 {
      KingBits1(sq, t);
    } else if sq == 2 {
      KingBits2(sq, t);
    } else if sq == 3 {
      KingBits3(sq, t);
    } else if sq == 4 {
      KingBits4(sq, t);
    } else if sq == 5 {
      KingBits5(sq, t);
    } else if sq == 6 {
      KingBits6(sq, t);
    } else if sq == 7 {
      KingBits7(sq, t);
    } else {
      KingBits8(sq, t);
    }
  }

  lemma KingRank1(sq: nat, t: nat)
    requires 9 <= sq < 18
    ensures Has(KING_ATTACKS[sq], t) <==> KingStep(sq, t)
  {
    if sq == 9 {
      KingBits9(sq, t);
    } else if sq == 10 {
      KingBits10(sq, t);
    } else if sq == 11 {
      KingBits11(sq, t);
    } else if sq == 12 {
      KingBits12(sq, t);
    } else if sq == 13 {
      KingBits13(sq, t);
    } else if sq == 14 {
      KingBits14(sq, t);
    } else if sq == 15 {
      KingBits15(sq, t);
    } else if sq == 16 {
      KingBits16(sq, t);
    } else {
      KingBits17(sq, t);
    }
  }

  lemma KingRank2(sq: nat, t: nat)
    requires 18 <= sq < 27
    ensures Has(KING_ATTACKS[sq], t) <==> KingStep(sq, t)
  {
    if sq == 18 {
      KingBits18(sq, t);
    } else if sq == 19 {
      KingBits19(sq, t);
    } else if sq == 20 {
      KingBits20(sq, t);
    } else if sq == 21 {
      KingBits21(sq, t);
    } else if sq == 22 {
      KingBits22(sq, t);
    } else if sq == 23 {
      KingBits23(sq, t);
    } else if sq == 24 {
      KingBits24(sq, t);
    } else if sq == 25 {
      KingBits25(sq, t);
    } else {
      KingBits26(sq, t);
    }
  }

  lemma KingRank3(sq: nat, t: nat)
    requires 27 <= sq < 36
    ensures Has(KING_ATTACKS[sq], t) <==> KingStep(sq, t)
  {
    if sq == 27 {
      KingBits27(sq, t);
    } else if sq == 28 {
      KingBits28(sq, t);
    } else if sq == 29 {
      KingBits29(sq, t);
    } else if sq == 30 {
      KingBits30(sq, t);
    } else if sq == 31 {
      KingBits31(sq, t);
    } else if sq == 32 {
      KingBits32(sq, t);
    } else if sq == 33 {
      KingBits33(sq, t);
    } else if sq == 34 {
      KingBits34(sq, t);
    } else {
      KingBits35(sq, t);
    }
  }

  lemma KingRank4(sq: nat, t: nat)
    requires 36 <= sq < 45
    ensures Has(KING_ATTACKS[sq], t) <==> KingStep(sq, t)
  {
    if sq == 36 {
      KingBits36(sq, t);
    } else if sq == 37 {
      KingBits37(sq, t);
    } else if sq == 38 {
      KingBits38(sq, t);
    } else if sq == 39 {
      KingBits39(sq, t);
    } else if sq == 40 {
      KingBits40(sq, t);
    } else if sq == 41 {
      KingBits41(sq, t);
    } else if sq == 42 {
      KingBits42(sq, t);
    } else if sq == 43 {
      KingBits43(sq, t);
    } else {
      KingBits44(sq, t);
    }
  }

  lemma KingRank5(sq: nat, t: nat)
    requires 45 <= sq < 54
    ensures Has(KING_ATTACKS[sq], t) <==> KingStep(sq, t)
  {
    if sq == 45 {
      KingBits45(sq, t);
    } else if sq == 46 {
      KingBits46(sq, t);
    } else if sq == 47 {
      KingBits47(sq, t);
    } else if sq == 48 {
      KingBits48(sq, t);
    } else if sq == 49 {
      KingBits49(sq, t);
    } else if sq == 50 {
      KingBits50(sq, t);
    } else if sq == 51 {
      KingBits51(sq, t);
    } else if sq == 52 {
      KingBits52(sq, t);
    } else {
      KingBits53(sq, t);
    }
  }

  lemma KingRank6(sq: nat, t: nat)
    requires 54 <= sq < 63
    ensures Has(KING_ATTACKS[sq], t) <==> KingStep(sq, t)
  {
    if sq == 54 {
      KingBits54(sq, t);
    } else if sq == 55 {
      KingBits55(sq, t);
    } else if sq == 56 {
      KingBits56(sq, t);
    } else if sq == 57 {
      KingBits57(sq, t);
    } else if sq == 58 {
      KingBits58(sq, t);
    } else if sq == 59 {
      KingBits59(sq, t);
    } else if sq == 60 {
      KingBits60(sq, t);
    } else if sq == 61 {
      KingBits61(sq, t);
    } else {
      KingBits62(sq, t);
    }
  }

  lemma KingRank7(sq: nat, t: nat)
    requires 63 <= sq < 72
    ensures Has(KING_ATTACKS[sq], t) <==> KingStep(sq, t)
  {
    if sq < 68 {
      KingRank7Low(sq, t);
    } else {
      KingRank7High(sq, t);
    }
  }

  lemma KingRank7Low(sq: nat, t: nat)
    requires 63 <= sq < 68
    ensures Has(KING_ATTACKS[sq], t) <==> KingStep(sq, t)
  {
    if sq == 63 {
      KingBits63(sq, t);
    } else if sq == 64 {
      KingBits64(sq, t);
    } else if sq == 65 {
      KingBits65(sq, t);
    } else if sq == 66 {
      KingBits66(sq, t);
    } else {
      KingBits67(sq, t);
    }
  }

  lemma KingRank7High(sq: nat, t: nat)
    requires 68 <= sq < 72
    ensures Has(KING_ATTACKS[sq], t) <==> KingStep(sq, t)
  {
    if sq == 68 {
      KingBits68(sq, t);
    } else if sq == 69 {
      KingBits69(sq, t);
    } else if sq == 70 {
      KingBits70(sq, t);
    } else {
      KingBits71(sq, t);
    }
  }

  lemma KingRank8(sq: nat, t: nat)
    requires 72 <= sq < 81
    ensures Has(KING_ATTACKS[sq], t) <==> KingStep(sq, t) || (sq == 80 && t == 81)
  {
    if sq < 77 {
      KingRank8Low(sq, t);
    } else {
      KingRank8High(sq, t);
    }
  }

  lemma KingRank8Low(sq: nat, t: nat)
    requires 72 <= sq < 77
    ensures Has(KING_ATTACKS[sq], t) <==> KingStep(sq, t) || (sq == 80 && t == 81)
  {
    if sq == 72 {
      KingBits72(sq, t);
    } else if sq == 73 {
      KingBits73(sq, t);
    } else if sq == 74 {
      KingBits74(sq, t);
    } else if sq == 75 {
      KingBits75(sq, t);
    } else {
      KingBits76(sq, t);
    }
  }

  lemma KingRank8High(sq: nat, t: nat)
    requires 77 <= sq < 81
    ensures Has(KING_ATTACKS[sq], t) <==> KingStep(sq, t) || (sq == 80 && t == 81)
  {
    if sq == 77 {
      KingBits77(sq, t);
    } else if sq == 78 {
      KingBits78(sq, t);
    } else if sq == 79 {
      KingBits79(sq, t);
    } else {
      KingBits80(sq, t);
    }
  }

  // ---------------------------------------------------------------------------
  // KNIGHT_ATTACKS, Sente
  // ---------------------------------------------------------------------------

  lemma KnightSenteBits0(sq: nat, t: nat)
    requires sq == 0
    ensures Has(KNIGHT_ATTACKS[0][sq], t) <==> t == 19
  {
    Pow2Lit1();
    Bits1(19, t);
  }

  lemma KnightSenteBits1(sq: nat, t: nat)
    requires sq == 1
    ensures Has(KNIGHT_ATTACKS[0][sq], t) <==> t == 18 || t == 20
  {
    Pow2Lit1();
    Bits2(18, 20, t);
  }

  lemma KnightSenteBits2(sq: nat, t: nat)
    requires sq == 2
    ensures Has(KNIGHT_ATTACKS[0][sq], t) <==> t == 19 || t == 21
  {
    Pow2Lit1();
    Bits2(19, 21, t);
  }

  lemma KnightSenteBits3(sq: nat, t: nat)
    requires sq == 3
    ensures Has(KNIGHT_ATTACKS[0][sq], t) <==> t == 20 || t == 22
  {
    Pow2Lit1();
    Bits2(20, 22, t);
  }

  lemma KnightSenteBits4(sq: nat, t: nat)
    requires sq == 4
    ensures Has(KNIGHT_ATTACKS[0][sq], t) <==> t == 21 || t == 23
  {
    Pow2Lit1();
    Bits2(21, 23, t);
  }

  lemma KnightSenteBits5(sq: nat, t: nat)
    requires sq == 5
    ensures Has(KNIGHT_ATTACKS[0][sq], t) <==> t == 22 || t == 24
  {
    Pow2Lit1();
    Bits2(22, 24, t);
  }

  lemma KnightSenteBits6(sq: nat, t: nat)
    requires sq == 6
    ensures Has(KNIGHT_ATTACKS[0][sq], t) <==> t == 23 || t == 25
  {
    Pow2Lit1();
    Bits2(23, 25, t);
  }

  lemma KnightSenteBits7(sq: nat, t: nat)
    requires sq == 7
    ensures Has(KNIGHT_ATTACKS[0][sq], t) <==> t == 24 || t == 26
  {
    Pow2Lit1();
    Bits2(24, 26, t);
  }

  lemma KnightSenteBits8(sq: nat, t: nat)
    requires sq == 8
    ensures Has(KNIGHT_ATTACKS[0][sq], t) <==> t == 25
  {
    Pow2Lit1();
    Bits1(25, t);
  }

  lemma KnightSenteBits9(sq: nat, t: nat)
    requires sq == 9
    ensures Has(KNIGHT_ATTACKS[0][sq], t) <==> t == 28
  {
    Pow2Lit1();
    Bits1(28, t);
  }

  lemma KnightSenteBits10(sq: nat, t: nat)
    requires sq == 10
    ensures Has(KNIGHT_ATTACKS[0][sq], t) <==> t == 27 || t == 29
  {
    Pow2Lit1();
    Bits2(27, 29, t);
  }

  lemma KnightSenteBits11(sq: nat, t: nat)
    requires sq == 11
    ensures Has(KNIGHT_ATTACKS[0][sq], t) <==> t == 28 || t == 30
  {
    Pow2Lit1();
    Bits2(28, 30, t);
  }

  lemma KnightSenteBits12(sq: nat, t: nat)
    requires sq == 12
    ensures Has(KNIGHT_ATTACKS[0][sq], t) <==> t == 29 || t == 31
  {
    Pow2Lit1();
    Bits2(29, 31, t);
  }

  lemma KnightSenteBits13(sq: nat, t: nat)
    requires sq == 13
    ensures Has(KNIGHT_ATTACKS[0][sq], t) <==> t == 30 || t == 32
  {
    Pow2Lit1(); Pow2Lit2();
    Bits2(30, 32, t);
  }

  lemma KnightSenteBits14(sq: nat, t: nat)
    requires sq == 14
    ensures Has(KNIGHT_ATTACKS[0][sq], t) <==> t == 31 || t == 33
  {
    Pow2Lit1(); Pow2Lit2();
    Bits2(31, 33, t);
  }

  lemma KnightSenteBits15(sq: nat, t: nat)
    requires sq == 15
    ensures Has(KNIGHT_ATTACKS[0][sq], t) <==> t == 32 || t == 34
  {
    Pow2Lit2();
    Bits2(32, 34, t);
  }

  lemma KnightSenteBits16(sq: nat, t: nat)
    requires sq == 16
    ensures Has(KNIGHT_ATTACKS[0][sq], t) <==> t == 33 || t == 35
  {
    Pow2Lit2();
    Bits2(33, 35, t);
  }

  lemma KnightSenteBits17(sq: nat, t: nat)
    requires sq == 17
    ensures Has(KNIGHT_ATTACKS[0][sq], t) <==> t == 34
  {
    Pow2Lit2();
    Bits1(34, t);
  }

  lemma KnightSenteBits18(sq: nat, t: nat)
    requires sq == 18
    ensures Has(KNIGHT_ATTACKS[0][sq], t) <==> t == 37
  {
    Pow2Lit2();
    Bits1(37, t);
  }

  lemma KnightSenteBits19(sq: nat, t: nat)
    requires sq == 19
    ensures Has(KNIGHT_ATTACKS[0][sq], t) <==> t == 36 || t == 38
  {
    Pow2Lit2();
    Bits2(36, 38, t);
  }

  lemma KnightSenteBits20(sq: nat, t: nat)
    requires sq == 20
    ensures Has(KNIGHT_ATTACKS[0][sq], t) <==> t == 37 || t == 39
  {
    Pow2Lit2();
    Bits2(37, 39, t);
  }

  lemma KnightSenteBits21(sq: nat, t: nat)
    requires sq == 21
    ensures Has(KNIGHT_ATTACKS[0][sq], t) <==> t == 38 || t == 40
  {
    Pow2Lit2();
    Bits2(38, 40, t);
  }

  lemma KnightSenteBits22(sq: nat, t: nat)
    requires sq == 22
    ensures Has(KNIGHT_ATTACKS[0][sq], t) <==> t == 39 || t == 41
  {
    Pow2Lit2();
    Bits2(39, 41, t);
  }

  lemma KnightSenteBits23(sq: nat, t: nat)
    requires sq == 23
    ensures Has(KNIGHT_ATTACKS[0][sq], t) <==> t == 40 || t == 42
  {
    Pow2Lit2();
    Bits2(40, 42, t);
  }

  lemma KnightSenteBits24(sq: nat, t: nat)
    requires sq == 24
    ensures Has(KNIGHT_ATTACKS[0][sq], t) <==> t == 41 || t == 43
  {
    Pow2Lit2();
    Bits2(41, 43, t);
  }

  lemma KnightSenteBits25(sq: nat, t: nat)
    requires sq == 25
    ensures Has(KNIGHT_ATTACKS[0][sq], t) <==> t == 42 || t == 44
  {
    Pow2Lit2();
    Bits2(42, 44, t);
  }

  lemma KnightSenteBits26(sq: nat, t: nat)
    requires sq == 26
    ensures Has(KNIGHT_ATTACKS[0][sq], t) <==> t == 43
  {
    Pow2Lit2();
    Bits1(43, t);
  }

  lemma KnightSenteBits27(sq: nat, t: nat)
    requires sq == 27
    ensures Has(KNIGHT_ATTACKS[0][sq], t) <==> t == 46
  {
    Pow2Lit2();
    Bits1(46, t);
  }

  lemma KnightSenteBits28(sq: nat, t: nat)
    requires sq == 28
    ensures Has(KNIGHT_ATTACKS[0][sq], t) <==> t == 45 || t == 47
  {
    Pow2Lit2();
    Bits2(45, 47, t);
  }

  lemma KnightSenteBits29(sq: nat, t: nat)
    requires sq == 29
    ensures Has(KNIGHT_ATTACKS[0][sq], t) <==> t == 46 || t == 48
  {
    Pow2Lit2(); Pow2Lit3();
    Bits2(46, 48, t);
  }

  lemma KnightSenteBits30(sq: nat, t: nat)
    requires sq == 30
    ensures Has(KNIGHT_ATTACKS[0][sq], t) <==> t == 47 || t == 49
  {
    Pow2Lit2(); Pow2Lit3();
    Bits2(47, 49, t);
  }

  lemma KnightSenteBits31(sq: nat, t: nat)
    requires sq == 31
    ensures Has(KNIGHT_ATTACKS[0][sq], t) <==> t == 48 || t == 50
  {
    Pow2Lit3();
    Bits2(48, 50, t);
  }

  lemma KnightSenteBits32(sq: nat, t: nat)
    requires sq == 32
    ensures Has(KNIGHT_ATTACKS[0][sq], t) <==> t == 49 || t == 51
  {
    Pow2Lit3();
    Bits2(49, 51, t);
  }

  lemma KnightSenteBits33(sq: nat, t: nat)
    requires sq == 33
    ensures Has(KNIGHT_ATTACKS[0][sq], t) <==> t == 50 || t == 52
  {
    Pow2Lit3();
    Bits2(50, 52, t);
  }

  lemma KnightSenteBits34(sq: nat, t: nat)
    requires sq == 34
    ensures Has(KNIGHT_ATTACKS[0][sq], t) <==> t == 51 || t == 53
  {
    Pow2Lit3();
    Bits2(51, 53, t);
  }

  lemma KnightSenteBits35(sq: nat, t: nat)
    requires sq == 35
    ensures Has(KNIGHT_ATTACKS[0][sq], t) <==> t == 52
  {
    Pow2Lit3();
    Bits1(52, t);
  }

  lemma KnightSenteBits36(sq: nat, t: nat)
    requires sq == 36
    ensures Has(KNIGHT_ATTACKS[0][sq], t) <==> t == 55
  {
    Pow2Lit3();
    Bits1(55, t);
  }

  lemma KnightSenteBits37(sq: nat, t: nat)
    requires sq == 37
    ensures Has(KNIGHT_ATTACKS[0][sq], t) <==> t == 54 || t == 56
  {
    Pow2Lit3();
    Bits2(54, 56, t);
  }

  lemma KnightSenteBits38(sq: nat, t: nat)
    requires sq == 38
    ensures Has(KNIGHT_ATTACKS[0][sq], t) <==> t == 55 || t == 57
  {
    Pow2Lit3();
    Bits2(55, 57, t);
  }

  lemma KnightSenteBits39(sq: nat, t: nat)
    requires sq == 39
    ensures Has(KNIGHT_ATTACKS[0][sq], t) <==> t == 56 || t == 58
  {
    Pow2Lit3();
    Bits2(56, 58, t);
  }

  lemma KnightSenteBits40(sq: nat, t: nat)
    requires sq == 40
    ensures Has(KNIGHT_ATTACKS[0][sq], t) <==> t == 57 || t == 59
  {
    Pow2Lit3();
    Bits2(57, 59, t);
  }

  lemma KnightSenteBits41(sq: nat, t: nat)
    requires sq == 41
    ensures Has(KNIGHT_ATTACKS[0][sq], t) <==> t == 58 || t == 60
  {
    Pow2Lit3();
    Bits2(58, 60, t);
  }

  lemma KnightSenteBits42(sq: nat, t: nat)
    requires sq == 42
    ensures Has(KNIGHT_ATTACKS[0][sq], t) <==> t == 59 || t == 61
  {
    Pow2Lit3();
    Bits2(59, 61, t);
  }

  lemma KnightSenteBits43(sq: nat, t: nat)
    requires sq == 43
    ensures Has(KNIGHT_ATTACKS[0][sq], t) <==> t == 60 || t == 62
  {
    Pow2Lit3();
    Bits2(60, 62, t);
  }

  lemma KnightSenteBits44(sq: nat, t: nat)
    requires sq == 44
    ensures Has(KNIGHT_ATTACKS[0][sq], t) <==> t == 61
  {
    Pow2Lit3();
    Bits1(61, t);
  }

  lemma KnightSenteBits45(sq: nat, t: nat)
    requires sq == 45
    ensures Has(KNIGHT_ATTACKS[0][sq], t) <==> t == 64
  {
    Pow2Lit4();
    Bits1(64, t);
  }

  lemma KnightSenteBits46(sq: nat, t: nat)
    requires sq == 46
    ensures Has(KNIGHT_ATTACKS[0][sq], t) <==> t == 63 || t == 65
  {
    Pow2Lit3(); Pow2Lit4();
    Bits2(63, 65, t);
  }

  lemma KnightSenteBits47(sq: nat, t: nat)
    requires sq == 47
    ensures Has(KNIGHT_ATTACKS[0][sq], t) <==> t == 64 || t == 66
  {
    Pow2Lit4();
    Bits2(64, 66, t);
  }

  lemma KnightSenteBits48(sq: nat, t: nat)
    requires sq == 48
    ensures Has(KNIGHT_ATTACKS[0][sq], t) <==> t == 65 || t == 67
  {
    Pow2Lit4();
    Bits2(65, 67, t);
  }

  lemma KnightSenteBits49(sq: nat, t: nat)
    requires sq == 49
    ensures Has(KNIGHT_ATTACKS[0][sq], t) <==> t == 66 || t == 68
  {
    Pow2Lit4();
    Bits2(66, 68, t);
  }

  lemma KnightSenteBits50(sq: nat, t: nat)
    requires sq == 50
    ensures Has(KNIGHT_ATTACKS[0][sq], t) <==> t == 67 || t == 69
  {
    Pow2Lit4();
    Bits2(67, 69, t);
  }

  lemma KnightSenteBits51(sq: nat, t: nat)
    requires sq == 51
    ensures Has(KNIGHT_ATTACKS[0][sq], t) <==> t == 68 || t == 70
  {
    Pow2Lit4();
    Bits2(68, 70, t);
  }

  lemma KnightSenteBits52(sq: nat, t: nat)
    requires sq == 52
    ensures Has(KNIGHT_ATTACKS[0][sq], t) <==> t == 69 || t == 71
  {
    Pow2Lit4();
    Bits2(69, 71, t);
  }

  lemma KnightSenteBits53(sq: nat, t: nat)
    requires sq == 53
    ensures Has(KNIGHT_ATTACKS[0][sq], t) <==> t == 70
  {
    Pow2Lit4();
    Bits1(70, t);
  }

  lemma KnightSenteBits54(sq: nat, t: nat)
    requires sq == 54
    ensures Has(KNIGHT_ATTACKS[0][sq], t) <==> t == 73
  {
    Pow2Lit4();
    Bits1(73, t);
  }

  lemma KnightSenteBits55(sq: nat, t: nat)
    requires sq == 55
    ensures Has(KNIGHT_ATTACKS[0][sq], t) <==> t == 72 || t == 74
  {
    Pow2Lit4();
    Bits2(72, 74, t);
  }

  lemma KnightSenteBits56(sq: nat, t: nat)
    requires sq == 56
    ensures Has(KNIGHT_ATTACKS[0][sq], t) <==> t == 73 || t == 75
  {
    Pow2Lit4();
    Bits2(73, 75, t);
  }

  lemma KnightSenteBits57(sq: nat, t: nat)
    requires sq == 57
    ensures Has(KNIGHT_ATTACKS[0][sq], t) <==> t == 74 || t == 76
  {
    Pow2Lit4();
    Bits2(74, 76, t);
  }

  lemma KnightSenteBits58(sq: nat, t: nat)
    requires sq == 58
    ensures Has(KNIGHT_ATTACKS[0][sq], t) <==> t == 75 || t == 77
  {
    Pow2Lit4();
    Bits2(75, 77, t);
  }

  lemma KnightSenteBits59(sq: nat, t: nat)
    requires sq == 59
    ensures Has(KNIGHT_ATTACKS[0][sq], t) <==> t == 76 || t == 78
  {
    Pow2Lit4();
    Bits2(76, 78, t);
  }

  lemma KnightSenteBits60(sq: nat, t: nat)
    requires sq == 60
    ensures Has(KNIGHT_ATTACKS[0][sq], t) <==> t == 77 || t == 79
  {
    Pow2Lit4();
    Bits2(77, 79, t);
  }

  lemma KnightSenteBits61(sq: nat, t: nat)
    requires sq == 61
    ensures Has(KNIGHT_ATTACKS[0][sq], t) <==> t == 78 || t == 80
  {
    Pow2Lit4(); Pow2Lit5();
    Bits2(78, 80, t);
  }

  lemma KnightSenteBits62(sq: nat, t: nat)
    requires sq == 62
    ensures Has(KNIGHT_ATTACKS[0][sq], t) <==> t == 79
  {
    Pow2Lit4();
    Bits1(79, t);
  }

  lemma KnightSenteBits63(sq: nat, t: nat)
    requires sq == 63
    ensures !Has(KNIGHT_ATTACKS[0][sq], t)
  {
    HasZero(t);
  }

  lemma KnightSenteBits64(sq: nat, t: nat)
    requires sq == 64
    ensures !Has(KNIGHT_ATTACKS[0][sq], t)
  {
    HasZero(t);
  }

  lemma KnightSenteBits65(sq: nat, t: nat)
    requires sq == 65
    ensures !Has(KNIGHT_ATTACKS[0][sq], t)
  {
    HasZero(t);
  }

  lemma KnightSenteBits66(sq: nat, t: nat)
    requires sq == 66
    ensures !Has(KNIGHT_ATTACKS[0][sq], t)
  {
    HasZero(t);
  }

  lemma KnightSenteBits67(sq: nat, t: nat)
    requires sq == 67
    ensures !Has(KNIGHT_ATTACKS[0][sq], t)
  {
    HasZero(t);
  }

  lemma KnightSenteBits68(sq: nat, t: nat)
    requires sq == 68
    ensures !Has(KNIGHT_ATTACKS[0][sq], t)
  {
    HasZero(t);
  }

  lemma KnightSenteBits69(sq: nat, t: nat)
    requires sq == 69
    ensures !Has(KNIGHT_ATTACKS[0][sq], t)
  {
    HasZero(t);
  }

  lemma KnightSenteBits70(sq: nat, t: nat)
    requires sq == 70
    ensures !Has(KNIGHT_ATTACKS[0][sq], t)
  {
    HasZero(t);
  }

  lemma KnightSenteBits71(sq: nat, t: nat)
    requires sq == 71
    ensures !Has(KNIGHT_ATTACKS[0][sq], t)
  {
    HasZero(t);
  }

  lemma KnightSenteBits72(sq: nat, t: nat)
    requires sq == 72
    ensures !Has(KNIGHT_ATTACKS[0][sq], t)
  {
    HasZero(t);
  }

  lemma KnightSenteBits73(sq: nat, t: nat)
    requires sq == 73
    ensures !Has(KNIGHT_ATTACKS[0][sq], t)
  {
    HasZero(t);
  }

  lemma KnightSenteBits74(sq: nat, t: nat)
    requires sq == 74
    ensures !Has(KNIGHT_ATTACKS[0][sq], t)
  {
    HasZero(t);
  }

  lemma KnightSenteBits75(sq: nat, t: nat)
    requires sq == 75
    ensures !Has(KNIGHT_ATTACKS[0][sq], t)
  {
    HasZero(t);
  }

  lemma KnightSenteBits76(sq: nat, t: nat)
    requires sq == 76
    ensures !Has(KNIGHT_ATTACKS[0][sq], t)
  {
    HasZero(t);
  }

  lemma KnightSenteBits77(sq: nat, t: nat)
    requires sq == 77
    ensures !Has(KNIGHT_ATTACKS[0][sq], t)
  {
    HasZero(t);
  }

  lemma KnightSenteBits78(sq: nat, t: nat)
    requires sq == 78
    ensures !Has(KNIGHT_ATTACKS[0][sq], t)
  {
    HasZero(t);
  }

  lemma KnightSenteBits79(sq: nat, t: nat)
    requires sq == 79
    ensures !Has(KNIGHT_ATTACKS[0][sq], t)
  {
    HasZero(t);
  }

  lemma KnightSenteBits80(sq: nat, t: nat)
    requires sq == 80
    ensures !Has(KNIGHT_ATTACKS[0][sq], t)
  {
    HasZero(t);
  }

  lemma KnightSenteRank0(sq: nat, t: nat)
    requires 0 <= sq < 9
    ensures Has(KNIGHT_ATTACKS[0][sq], t) <==> KnightStep(Sente, sq, t)
  {
    if sq == 0 {
      KnightSenteBits0(sq, t);
    } else if sq == 1 {
      KnightSenteBits1(sq, t);
    } else if sq == 2 {
      KnightSenteBits2(sq, t);
    } else if sq == 3 {
      KnightSenteBits3(sq, t);
    } else if sq == 4 {
      KnightSenteBits4(sq, t);
    } else if sq == 5 {
      KnightSenteBits5(sq, t);
    } else if sq == 6 {
      KnightSenteBits6(sq, t);
    } else if sq == 7 {
      KnightSenteBits7(sq, t);
    } else {
      KnightSenteBits8(sq, t);
    }
  }

  lemma KnightSenteRank1(sq: nat, t: nat)
    requires 9 <= sq < 18
    ensures Has(KNIGHT_ATTACKS[0][sq], t) <==> KnightStep(Sente, sq, t)
  {
    if sq == 9 {
      KnightSenteBits9(sq, t);
    } else if sq == 10 {
      KnightSenteBits10(sq, t);
    } else if sq == 11 {
      KnightSenteBits11(sq, t);
    } else if sq == 12 {
      KnightSenteBits12(sq, t);
    } else if sq == 13 {
      KnightSenteBits13(sq, t);
    } else if sq == 14 {
      KnightSenteBits14(sq, t);
    } else if sq == 15 {
      KnightSenteBits15(sq, t);
    } else if sq == 16 {
      KnightSenteBits16(sq, t);
    } else {
      KnightSenteBits17(sq, t);
    }
  }

  lemma KnightSenteRank2(sq: nat, t: nat)
    requires 18 <= sq < 27
    ensures Has(KNIGHT_ATTACKS[0][sq], t) <==> KnightStep(Sente, sq, t)
  {
    if sq == 18 {
      KnightSenteBits18(sq, t);
    } else if sq == 19 {
      KnightSenteBits19(sq, t);
    } else if sq == 20 {
      KnightSenteBits20(sq, t);
    } else if sq == 21 {
      KnightSenteBits21(sq, t);
    } else if sq == 22 {
      KnightSenteBits22(sq, t);
    } else if sq == 23 {
      KnightSenteBits23(sq, t);
    } else if sq == 24 {
      KnightSenteBits24(sq, t);
    } else if sq == 25 {
      KnightSenteBits25(sq, t);
    } else {
      KnightSenteBits26(sq, t);
    }
  }

  lemma KnightSenteRank3(sq: nat, t: nat)
    requires 27 <= sq < 36
    ensures Has(KNIGHT_ATTACKS[0][sq], t) <==> KnightStep(Sente, sq, t)
  {
    if sq == 27 {
      KnightSenteBits27(sq, t);
    } else if sq == 28 {
      KnightSenteBits28(sq, t);
    } else if sq == 29 {
      KnightSenteBits29(sq, t);
    } else if sq == 30 {
      KnightSenteBits30(sq, t);
    } else if sq == 31 {
      KnightSenteBits31(sq, t);
    } else if sq == 32 {
      KnightSenteBits32(sq, t);
    } else if sq == 33 {
      KnightSenteBits33(sq, t);
    } else if sq == 34 {
      KnightSenteBits34(sq, t);
    } else {
      KnightSenteBits35(sq, t);
    }
  }

  lemma KnightSenteRank4(sq: nat, t: nat)
    requires 36 <= sq < 45
    ensures Has(KNIGHT_ATTACKS[0][sq], t) <==> KnightStep(Sente, sq, t)
  {
    if sq == 36 {
      KnightSenteBits36(sq, t);
    } else if sq == 37 {
      KnightSenteBits37(sq, t);
    } else if sq == 38 {
      KnightSenteBits38(sq, t);
    } else if sq == 39 {
      KnightSenteBits39(sq, t);
    } else if sq == 40 {
      KnightSenteBits40(sq, t);
    } else if sq == 41 {
      KnightSenteBits41(sq, t);
    } else if sq == 42 {
      KnightSenteBits42(sq, t);
    } else if sq == 43 {
      KnightSenteBits43(sq, t);
    } else {
      KnightSenteBits44(sq, t);
    }
  }

  lemma KnightSenteRank5(sq: nat, t: nat)
    requires 45 <= sq < 54
    ensures Has(KNIGHT_ATTACKS[0][sq], t) <==> KnightStep(Sente, sq, t)
  {
    if sq == 45 {
      KnightSenteBits45(sq, t);
    } else if sq == 46 {
      KnightSenteBits46(sq, t);
    } else if sq == 47 {
      KnightSenteBits47(sq, t);
    } else if sq == 48 {
      KnightSenteBits48(sq, t);
    } else if sq == 49 {
      KnightSenteBits49(sq, t);
    } else if sq == 50 {
      KnightSenteBits50(sq, t);
    } else if sq == 51 {
      KnightSenteBits51(sq, t);
    } else if sq == 52 {
      KnightSenteBits52(sq, t);
    } else {
      KnightSenteBits53(sq, t);
    }
  }

  lemma KnightSenteRank6(sq: nat, t: nat)
    requires 54 <= sq < 63
    ensures Has(KNIGHT_ATTACKS[0][sq], t) <==> KnightStep(Sente, sq, t)
  {
    if sq == 54 {
      KnightSenteBits54(sq, t);
    } else if sq == 55 {
      KnightSenteBits55(sq, t);
    } else if sq == 56 {
      KnightSenteBits56(sq, t);
    } else if sq == 57 {
      KnightSenteBits57(sq, t);
    } else if sq == 58 {
      KnightSenteBits58(sq, t);
    } else if sq == 59 {
      KnightSenteBits59(sq, t);
    } else if sq == 60 {
      KnightSenteBits60(sq, t);
    } else if sq == 61 {
      KnightSenteBits61(sq, t);
    } else {
      KnightSenteBits62(sq, t);
    }
  }

  lemma KnightSenteRank7(sq: nat, t: nat)
    requires 63 <= sq < 72
    ensures Has(KNIGHT_ATTACKS[0][sq], t) <==> KnightStep(Sente, sq, t)
  {
    if sq == 63 {
      KnightSenteBits63(sq, t);
    } else if sq == 64 {
      KnightSenteBits64(sq, t);
    } else if sq == 65 {
      KnightSenteBits65(sq, t);
    } else if sq == 66 {
      KnightSenteBits66(sq, t);
    } else if sq == 67 {
      KnightSenteBits67(sq, t);
    } else if sq == 68 {
      KnightSenteBits68(sq, t);
    } else if sq == 69 {
      KnightSenteBits69(sq, t);
    } else if sq == 70 {
      KnightSenteBits70(sq, t);
    } else {
      KnightSenteBits71(sq, t);
    }
  }

  lemma KnightSenteRank8(sq: nat, t: nat)
    requires 72 <= sq < 81
    ensures Has(KNIGHT_ATTACKS[0][sq], t) <==> KnightStep(Sente, sq, t)
  {
    if sq == 72 {
      KnightSenteBits72(sq, t);
    } else if sq == 73 {
      KnightSenteBits73(sq, t);
    } else if sq == 74 {
      KnightSenteBits74(sq, t);
    } else if sq == 75 {
      KnightSenteBits75(sq, t);
    } else if sq == 76 {
      KnightSenteBits76(sq, t);
    } else if sq == 77 {
      KnightSenteBits77(sq, t);
    } else if sq == 78 {
      KnightSenteBits78(sq, t);
    } else if sq == 79 {
      KnightSenteBits79(sq, t);
    } else {
      KnightSenteBits80(sq, t);
    }
  }

  // ---------------------------------------------------------------------------
  // KNIGHT_ATTACKS, Gote
  // ---------------------------------------------------------------------------

  lemma KnightGoteBits0(sq: nat, t: nat)
    requires sq == 0
    ensures !Has(KNIGHT_ATTACKS[1][sq], t)
  {
    HasZero(t);
  }

  lemma KnightGoteBits1(sq: nat, t: nat)
    requires sq == 1
    ensures !Has(KNIGHT_ATTACKS[1][sq], t)
  {
    HasZero(t);
  }

  lemma KnightGoteBits2(sq: nat, t: nat)
    requires sq == 2
    ensures !Has(KNIGHT_ATTACKS[1][sq], t)
  {
    HasZero(t);
  }

  lemma KnightGoteBits3(sq: nat, t: nat)
    requires sq == 3
    ensures !Has(KNIGHT_ATTACKS[1][sq], t)
  {
    HasZero(t);
  }

  lemma KnightGoteBits4(sq: nat, t: nat)
    requires sq == 4
    ensures !Has(KNIGHT_ATTACKS[1][sq], t)
  {
    HasZero(t);
  }

  lemma KnightGoteBits5(sq: nat, t: nat)
    requires sq == 5
    ensures !Has(KNIGHT_ATTACKS[1][sq], t)
  {
    HasZero(t);
  }

  lemma KnightGoteBits6(sq: nat, t: nat)
    requires sq == 6
    ensures !Has(KNIGHT_ATTACKS[1][sq], t)
  {
    HasZero(t);
  }

  lemma KnightGoteBits7(sq: nat, t: nat)
    requires sq == 7
    ensures !Has(KNIGHT_ATTACKS[1][sq], t)
  {
    HasZero(t);
  }

  lemma KnightGoteBits8(sq: nat, t: nat)
    requires sq == 8
    ensures !Has(KNIGHT_ATTACKS[1][sq], t)
  {
    HasZero(t);
  }

  lemma KnightGoteBits9(sq: nat, t: nat)
    requires sq == 9
    ensures !Has(KNIGHT_ATTACKS[1][sq], t)
  {
    HasZero(t);
  }

  lemma KnightGoteBits10(sq: nat, t: nat)
    requires sq == 10
    ensures !Has(KNIGHT_ATTACKS[1][sq], t)
  {
    HasZero(t);
  }

  lemma KnightGoteBits11(sq: nat, t: nat)
    requires sq == 11
    ensures !Has(KNIGHT_ATTACKS[1][sq], t)
  {
    HasZero(t);
  }

  lemma KnightGoteBits12(sq: nat, t: nat)
    requires sq == 12
    ensures !Has(KNIGHT_ATTACKS[1][sq], t)
  {
    HasZero(t);
  }

  lemma KnightGoteBits13(sq: nat, t: nat)
    requires sq == 13
    ensures !Has(KNIGHT_ATTACKS[1][sq], t)
  {
    HasZero(t);
  }

  lemma KnightGoteBits14(sq: nat, t: nat)
    requires sq == 14
    ensures !Has(KNIGHT_ATTACKS[1][sq], t)
  {
    HasZero(t);
  }

  lemma KnightGoteBits15(sq: nat, t: nat)
    requires sq == 15
    ensures !Has(KNIGHT_ATTACKS[1][sq], t)
  {
    HasZero(t);
  }

  lemma KnightGoteBits16(sq: nat, t: nat)
    requires sq == 16
    ensures !Has(KNIGHT_ATTACKS[1][sq], t)
  {
    HasZero(t);
  }

  lemma KnightGoteBits17(sq: nat, t: nat)
    requires sq == 17
    ensures !Has(KNIGHT_ATTACKS[1][sq], t)
  {
    HasZero(t);
  }

  lemma KnightGoteBits18(sq: nat, t: nat)
    requires sq == 18
    ensures Has(KNIGHT_ATTACKS[1][sq], t) <==> t == 1
  {
    Pow2Lit0();
    Bits1(1, t);
  }

  lemma KnightGoteBits19(sq: nat, t: nat)
    requires sq == 19
    ensures Has(KNIGHT_ATTACKS[1][sq], t) <==> t == 0 || t == 2
  {
    Pow2Lit0();
    Bits2(0, 2, t);
  }

  lemma KnightGoteBits20(sq: nat, t: nat)
    requires sq == 20
    ensures Has(KNIGHT_ATTACKS[1][sq], t) <==> t == 1 || t == 3
  {
    Pow2Lit0();
    Bits2(1, 3, t);
  }

  lemma KnightGoteBits21(sq: nat, t: nat)
    requires sq == 21
    ensures Has(KNIGHT_ATTACKS[1][sq], t) <==> t == 2 || t == 4
  {
    Pow2Lit0();
    Bits2(2, 4, t);
  }

  lemma KnightGoteBits22(sq: nat, t: nat)
    requires sq == 22
    ensures Has(KNIGHT_ATTACKS[1][sq], t) <==> t == 3 || t == 5
  {
    Pow2Lit0();
    Bits2(3, 5, t);
  }

  lemma KnightGoteBits23(sq: nat, t: nat)
    requires sq == 23
    ensures Has(KNIGHT_ATTACKS[1][sq], t) <==> t == 4 || t == 6
  {
    Pow2Lit0();
    Bits2(4, 6, t);
  }

  lemma KnightGoteBits24(sq: nat, t: nat)
    requires sq == 24
    ensures Has(KNIGHT_ATTACKS[1][sq], t) <==> t == 5 || t == 7
  {
    Pow2Lit0();
    Bits2(5, 7, t);
  }

  lemma KnightGoteBits25(sq: nat, t: nat)
    requires sq == 25
    ensures Has(KNIGHT_ATTACKS[1][sq], t) <==> t == 6 || t == 8
  {
    Pow2Lit0();
    Bits2(6, 8, t);
  }

  lemma KnightGoteBits26(sq: nat, t: nat)
    requires sq == 26
    ensures Has(KNIGHT_ATTACKS[1][sq], t) <==> t == 7
  {
    Pow2Lit0();
    Bits1(7, t);
  }

  lemma KnightGoteBits27(sq: nat, t: nat)
    requires sq == 27
    ensures Has(KNIGHT_ATTACKS[1][sq], t) <==> t == 10
  {
    Pow2Lit0();
    Bits1(10, t);
  }

  lemma KnightGoteBits28(sq: nat, t: nat)
    requires sq == 28
    ensures Has(KNIGHT_ATTACKS[1][sq], t) <==> t == 9 || t == 11
  {
    Pow2Lit0();
    Bits2(9, 11, t);
  }

  lemma KnightGoteBits29(sq: nat, t: nat)
    requires sq == 29
    ensures Has(KNIGHT_ATTACKS[1][sq], t) <==> t == 10 || t == 12
  {
    Pow2Lit0();
    Bits2(10, 12, t);
  }

  lemma KnightGoteBits30(sq: nat, t: nat)
    requires sq == 30
    ensures Has(KNIGHT_ATTACKS[1][sq], t) <==> t == 11 || t == 13
  {
    Pow2Lit0();
    Bits2(11, 13, t);
  }

  lemma KnightGoteBits31(sq: nat, t: nat)
    requires sq == 31
    ensures Has(KNIGHT_ATTACKS[1][sq], t) <==> t == 12 || t == 14
  {
    Pow2Lit0();
    Bits2(12, 14, t);
  }

  lemma KnightGoteBits32(sq: nat, t: nat)
    requires sq == 32
    ensures Has(KNIGHT_ATTACKS[1][sq], t) <==> t == 13 || t == 15
  {
    Pow2Lit0();
    Bits2(13, 15, t);
  }

  lemma KnightGoteBits33(sq: nat, t: nat)
    requires sq == 33
    ensures Has(KNIGHT_ATTACKS[1][sq], t) <==> t == 14 || t == 16
  {
    Pow2Lit0(); Pow2Lit1();
    Bits2(14, 16, t);
  }

  lemma KnightGoteBits34(sq: nat, t: nat)
    requires sq == 34
    ensures Has(KNIGHT_ATTACKS[1][sq], t) <==> t == 15 || t == 17
  {
    Pow2Lit0(); Pow2Lit1();
    Bits2(15, 17, t);
  }

  lemma KnightGoteBits35(sq: nat, t: nat)
    requires sq == 35
    ensures Has(KNIGHT_ATTACKS[1][sq], t) <==> t == 16
  {
    Pow2Lit1();
    Bits1(16, t);
  }

  lemma KnightGoteBits36(sq: nat, t: nat)
    requires sq == 36
    ensures Has(KNIGHT_ATTACKS[1][sq], t) <==> t == 19
  {
    Pow2Lit1();
    Bits1(19, t);
  }

  lemma KnightGoteBits37(sq: nat, t: nat)
    requires sq == 37
    ensures Has(KNIGHT_ATTACKS[1][sq], t) <==> t == 18 || t == 20
  {
    Pow2Lit1();
    Bits2(18, 20, t);
  }

  lemma KnightGoteBits38(sq: nat, t: nat)
    requires sq == 38
    ensures Has(KNIGHT_ATTACKS[1][sq], t) <==> t == 19 || t == 21
  {
    Pow2Lit1();
    Bits2(19, 21, t);
  }

  lemma KnightGoteBits39(sq: nat, t: nat)
    requires sq == 39
    ensures Has(KNIGHT_ATTACKS[1][sq], t) <==> t == 20 || t == 22
  {
    Pow2Lit1();
    Bits2(20, 22, t);
  }

  lemma KnightGoteBits40(sq: nat, t: nat)
    requires sq == 40
    ensures Has(KNIGHT_ATTACKS[1][sq], t) <==> t == 21 || t == 23
  {
    Pow2Lit1();
    Bits2(21, 23, t);
  }

  lemma KnightGoteBits41(sq: nat, t: nat)
    requires sq == 41
    ensures Has(KNIGHT_ATTACKS[1][sq], t) <==> t == 22 || t == 24
  {
    Pow2Lit1();
    Bits2(22, 24, t);
  }

  lemma KnightGoteBits42(sq: nat, t: nat)
    requires sq == 42
    ensures Has(KNIGHT_ATTACKS[1][sq], t) <==> t == 23 || t == 25
  {
    Pow2Lit1();
    Bits2(23, 25, t);
  }

  lemma KnightGoteBits43(sq: nat, t: nat)
    requires sq == 43
    ensures Has(KNIGHT_ATTACKS[1][sq], t) <==> t == 24 || t == 26
  {
    Pow2Lit1();
    Bits2(24, 26, t);
  }

  lemma KnightGoteBits44(sq: nat, t: nat)
    requires sq == 44
    ensures Has(KNIGHT_ATTACKS[1][sq], t) <==> t == 25
  {
    Pow2Lit1();
    Bits1(25, t);
  }

  lemma KnightGoteBits45(sq: nat, t: nat)
    requires sq == 45
    ensures Has(KNIGHT_ATTACKS[1][sq], t) <==> t == 28
  {
    Pow2Lit1();
    Bits1(28, t);
  }

  lemma KnightGoteBits46(sq: nat, t: nat)
    requires sq == 46
    ensures Has(KNIGHT_ATTACKS[1][sq], t) <==> t == 27 || t == 29
  {
    Pow2Lit1();
    Bits2(27, 29, t);
  }

  lemma KnightGoteBits47(sq: nat, t: nat)
    requires sq == 47
    ensures Has(KNIGHT_ATTACKS[1][sq], t) <==> t == 28 || t == 30
  {
    Pow2Lit1();
    Bits2(28, 30, t);
  }

  lemma KnightGoteBits48(sq: nat, t: nat)
    requires sq == 48
    ensures Has(KNIGHT_ATTACKS[1][sq], t) <==> t == 29 || t == 31
  {
    Pow2Lit1();
    Bits2(29, 31, t);
  }

  lemma KnightGoteBits49(sq: nat, t: nat)
    requires sq == 49
    ensures Has(KNIGHT_ATTACKS[1][sq], t) <==> t == 30 || t == 32
  {
    Pow2Lit1(); Pow2Lit2();
    Bits2(30, 32, t);
  }

  lemma KnightGoteBits50(sq: nat, t: nat)
    requires sq == 50
    ensures Has(KNIGHT_ATTACKS[1][sq], t) <==> t == 31 || t == 33
  {
    Pow2Lit1(); Pow2Lit2();
    Bits2(31, 33, t);
  }

  lemma KnightGoteBits51(sq: nat, t: nat)
    requires sq == 51
    ensures Has(KNIGHT_ATTACKS[1][sq], t) <==> t == 32 || t == 34
  {
    Pow2Lit2();
    Bits2(32, 34, t);
  }

  lemma KnightGoteBits52(sq: nat, t: nat)
    requires sq == 52
    ensures Has(KNIGHT_ATTACKS[1][sq], t) <==> t == 33 || t == 35
  {
    Pow2Lit2();
    Bits2(33, 35, t);
  }

  lemma KnightGoteBits53(sq: nat, t: nat)
    requires sq == 53
    ensures Has(KNIGHT_ATTACKS[1][sq], t) <==> t == 34
  {
    Pow2Lit2();
    Bits1(34, t);
  }

  lemma KnightGoteBits54(sq: nat, t: nat)
    requires sq == 54
    ensures Has(KNIGHT_ATTACKS[1][sq], t) <==> t == 37
  {
    Pow2Lit2();
    Bits1(37, t);
  }

  lemma KnightGoteBits55(sq: nat, t: nat)
    requires sq == 55
    ensures Has(KNIGHT_ATTACKS[1][sq], t) <==> t == 36 || t == 38
  {
    Pow2Lit2();
    Bits2(36, 38, t);
  }

  lemma KnightGoteBits56(sq: nat, t: nat)
    requires sq == 56
    ensures Has(KNIGHT_ATTACKS[1][sq], t) <==> t == 37 || t == 39
  {
    Pow2Lit2();
    Bits2(37, 39, t);
  }

  lemma KnightGoteBits57(sq: nat, t: nat)
    requires sq == 57
    ensures Has(KNIGHT_ATTACKS[1][sq], t) <==> t == 38 || t == 40
  {
    Pow2Lit2();
    Bits2(38, 40, t);
  }

  lemma KnightGoteBits58(sq: nat, t: nat)
    requires sq == 58
    ensures Has(KNIGHT_ATTACKS[1][sq], t) <==> t == 39 || t == 41
  {
    Pow2Lit2();
    Bits2(39, 41, t);
  }

  lemma KnightGoteBits59(sq: nat, t: nat)
    requires sq == 59
    ensures Has(KNIGHT_ATTACKS[1][sq], t) <==> t == 40 || t == 42
  {
    Pow2Lit2();
    Bits2(40, 42, t);
  }

  lemma KnightGoteBits60(sq: nat, t: nat)
    requires sq == 60
    ensures Has(KNIGHT_ATTACKS[1][sq], t) <==> t == 41 || t == 43
  {
    Pow2Lit2();
    Bits2(41, 43, t);
  }

  lemma KnightGoteBits61(sq: nat, t: nat)
    requires sq == 61
    ensures Has(KNIGHT_ATTACKS[1][sq], t) <==> t == 42 || t == 44
  {
    Pow2Lit2();
    Bits2(42, 44, t);
  }

  lemma KnightGoteBits62(sq: nat, t: nat)
    requires sq == 62
    ensures Has(KNIGHT_ATTACKS[1][sq], t) <==> t == 43
  {
    Pow2Lit2();
    Bits1(43, t);
  }

  lemma KnightGoteBits63(sq: nat, t: nat)
    requires sq == 63
    ensures Has(KNIGHT_ATTACKS[1][sq], t) <==> t == 46
  {
    Pow2Lit2();
    Bits1(46, t);
  }

  lemma KnightGoteBits64(sq: nat, t: nat)
    requires sq == 64
    ensures Has(KNIGHT_ATTACKS[1][sq], t) <==> t == 45 || t == 47
  {
    Pow2Lit2();
    Bits2(45, 47, t);
  }

  lemma KnightGoteBits65(sq: nat, t: nat)
    requires sq == 65
    ensures Has(KNIGHT_ATTACKS[1][sq], t) <==> t == 46 || t == 48
  {
    Pow2Lit2(); Pow2Lit3();
    Bits2(46, 48, t);
  }

  lemma KnightGoteBits66(sq: nat, t: nat)
    requires sq == 66
    ensures Has(KNIGHT_ATTACKS[1][sq], t) <==> t == 47 || t == 49
  {
    Pow2Lit2(); Pow2Lit3();
    Bits2(47, 49, t);
  }

  lemma KnightGoteBits67(sq: nat, t: nat)
    requires sq == 67
    ensures Has(KNIGHT_ATTACKS[1][sq], t) <==> t == 48 || t == 50
  {
    Pow2Lit3();
    Bits2(48, 50, t);
  }

  lemma KnightGoteBits68(sq: nat, t: nat)
    requires sq == 68
    ensures Has(KNIGHT_ATTACKS[1][sq], t) <==> t == 49 || t == 51
  {
    Pow2Lit3();
    Bits2(49, 51, t);
  }

  lemma KnightGoteBits69(sq: nat, t: nat)
    requires sq == 69
    ensures Has(KNIGHT_ATTACKS[1][sq], t) <==> t == 50 || t == 52
  {
    Pow2Lit3();
    Bits2(50, 52, t);
  }

  lemma KnightGoteBits70(sq: nat, t: nat)
    requires sq == 70
    ensures Has(KNIGHT_ATTACKS[1][sq], t) <==> t == 51 || t == 53
  {
    Pow2Lit3();
    Bits2(51, 53, t);
  }

  lemma KnightGoteBits71(sq: nat, t: nat)
    requires sq == 71
    ensures Has(KNIGHT_ATTACKS[1][sq], t) <==> t == 52
  {
    Pow2Lit3();
    Bits1(52, t);
  }

  lemma KnightGoteBits72(sq: nat, t: nat)
    requires sq == 72
    ensures Has(KNIGHT_ATTACKS[1][sq], t) <==> t == 55
  {
    Pow2Lit3();
    Bits1(55, t);
  }

  lemma KnightGoteBits73(sq: nat, t: nat)
    requires sq == 73
    ensures Has(KNIGHT_ATTACKS[1][sq], t) <==> t == 54 || t == 56
  {
    Pow2Lit3();
    Bits2(54, 56, t);
  }

  lemma KnightGoteBits74(sq: nat, t: nat)
    requires sq == 74
    ensures Has(KNIGHT_ATTACKS[1][sq], t) <==> t == 55 || t == 57
  {
    Pow2Lit3();
    Bits2(55, 57, t);
  }

  lemma KnightGoteBits75(sq: nat, t: nat)
    requires sq == 75
    ensures Has(KNIGHT_ATTACKS[1][sq], t) <==> t == 56 || t == 58
  {
    Pow2Lit3();
    Bits2(56, 58, t);
  }

  lemma KnightGoteBits76(sq: nat, t: nat)
    requires sq == 76
    ensures Has(KNIGHT_ATTACKS[1][sq], t) <==> t == 57 || t == 59
  {
    Pow2Lit3();
    Bits2(57, 59, t);
  }

  lemma KnightGoteBits77(sq: nat, t: nat)
    requires sq == 77
    ensures Has(KNIGHT_ATTACKS[1][sq], t) <==> t == 58 || t == 60
  {
    Pow2Lit3();
    Bits2(58, 60, t);
  }

  lemma KnightGoteBits78(sq: nat, t: nat)
    requires sq == 78
    ensures Has(KNIGHT_ATTACKS[1][sq], t) <==> t == 59 || t == 61
  {
    Pow2Lit3();
    Bits2(59, 61, t);
  }

  lemma KnightGoteBits79(sq: nat, t: nat)
    requires sq == 79
    ensures Has(KNIGHT_ATTACKS[1][sq], t) <==> t == 60 || t == 62
  {
    Pow2Lit3();
    Bits2(60, 62, t);
  }

  lemma KnightGoteBits80(sq: nat, t: nat)
    requires sq == 80
    ensures Has(KNIGHT_ATTACKS[1][sq], t) <==> t == 61
  {
    Pow2Lit3();
    Bits1(61, t);
  }

  lemma KnightGoteRank0(sq: nat, t: nat)
    requires 0 <= sq < 9
    ensures Has(KNIGHT_ATTACKS[1][sq], t) <==> KnightStep(Gote, sq, t)
  {
    if sq == 0 {
      KnightGoteBits0(sq, t);
    } else if sq == 1 {
      KnightGoteBits1(sq, t);
    } else if sq == 2 {
      KnightGoteBits2(sq, t);
    } else if sq == 3 {
      KnightGoteBits3(sq, t);
    } else if sq == 4 {
      KnightGoteBits4(sq, t);
    } else if sq == 5 {
      KnightGoteBits5(sq, t);
    } else if sq == 6 {
      KnightGoteBits6(sq, t);
    } else if sq == 7 {
      KnightGoteBits7(sq, t);
    } else {
      KnightGoteBits8(sq, t);
    }
  }

  lemma KnightGoteRank1(sq: nat, t: nat)
    requires 9 <= sq < 18
    ensures Has(KNIGHT_ATTACKS[1][sq], t) <==> KnightStep(Gote, sq, t)
  {
    if sq == 9 {
      KnightGoteBits9(sq, t);
    } else if sq == 10 {
      KnightGoteBits10(sq, t);
    } else if sq == 11 {
      KnightGoteBits11(sq, t);
    } else if sq == 12 {
      KnightGoteBits12(sq, t);
    } else if sq == 13 {
      KnightGoteBits13(sq, t);
    } else if sq == 14 {
      KnightGoteBits14(sq, t);
    } else if sq == 15 {
      KnightGoteBits15(sq, t);
    } else if sq == 16 {
      KnightGoteBits16(sq, t);
    } else {
      KnightGoteBits17(sq, t);
    }
  }

  lemma KnightGoteRank2(sq: nat, t: nat)
    requires 18 <= sq < 27
    ensures Has(KNIGHT_ATTACKS[1][sq], t) <==> KnightStep(Gote, sq, t)
  {
    if sq == 18 {
      KnightGoteBits18(sq, t);
    } else if sq == 19 {
      KnightGoteBits19(sq, t);
    } else if sq == 20 {
      KnightGoteBits20(sq, t);
    } else if sq == 21 {
      KnightGoteBits21(sq, t);
    } else if sq == 22 {
      KnightGoteBits22(sq, t);
    } else if sq == 23 {
      KnightGoteBits23(sq, t);
    } else if sq == 24 {
      KnightGoteBits24(sq, t);
    } else if sq == 25 {
      KnightGoteBits25(sq, t);
    } else {
      KnightGoteBits26(sq, t);
    }
  }

  lemma KnightGoteRank3(sq: nat, t: nat)
    requires 27 <= sq < 36
    ensures Has(KNIGHT_ATTACKS[1][sq], t) <==> KnightStep(Gote, sq, t)
  {
    if sq == 27 {
      KnightGoteBits27(sq, t);
    } else if sq == 28 {
      KnightGoteBits28(sq, t);
    } else if sq == 29 {
      KnightGoteBits29(sq, t);
    } else if sq == 30 {
      KnightGoteBits30(sq, t);
    } else if sq == 31 {
      KnightGoteBits31(sq, t);
    } else if sq == 32 {
      KnightGoteBits32(sq, t);
    } else if sq == 33 {
      KnightGoteBits33(sq, t);
    } else if sq == 34 {
      KnightGoteBits34(sq, t);
    } else {
      KnightGoteBits35(sq, t);
    }
  }

  lemma KnightGoteRank4(sq: nat, t: nat)
    requires 36 <= sq < 45
    ensures Has(KNIGHT_ATTACKS[1][sq], t) <==> KnightStep(Gote, sq, t)
  {
    if sq == 36 {
      KnightGoteBits36(sq, t);
    } else if sq == 37 {
      KnightGoteBits37(sq, t);
    } else if sq == 38 {
      KnightGoteBits38(sq, t);
    } else if sq == 39 {
      KnightGoteBits39(sq, t);
    } else if sq == 40 {
      KnightGoteBits40(sq, t);
    } else if sq == 41 {
      KnightGoteBits41(sq, t);
    } else if sq == 42 {
      KnightGoteBits42(sq, t);
    } else if sq == 43 {
      KnightGoteBits43(sq, t);
    } else {
      KnightGoteBits44(sq, t);
    }
  }

  lemma KnightGoteRank5(sq: nat, t: nat)
    requires 45 <= sq < 54
    ensures Has(KNIGHT_ATTACKS[1][sq], t) <==> KnightStep(Gote, sq, t)
  {
    if sq == 45 {
      KnightGoteBits45(sq, t);
    } else if sq == 46 {
      KnightGoteBits46(sq, t);
    } else if sq == 47 {
      KnightGoteBits47(sq, t);
    } else if sq == 48 {
      KnightGoteBits48(sq, t);
    } else if sq == 49 {
      KnightGoteBits49(sq, t);
    } else if sq == 50 {
      KnightGoteBits50(sq, t);
    } else if sq == 51 {
      KnightGoteBits51(sq, t);
    } else if sq == 52 {
      KnightGoteBits52(sq, t);
    } else {
      KnightGoteBits53(sq, t);
    }
  }

  lemma KnightGoteRank6(sq: nat, t: nat)
    requires 54 <= sq < 63
    ensures Has(KNIGHT_ATTACKS[1][sq], t) <==> KnightStep(Gote, sq, t)
  {
    if sq == 54 {
      KnightGoteBits54(sq, t);
    } else if sq == 55 {
      KnightGoteBits55(sq, t);
    } else if sq == 56 {
      KnightGoteBits56(sq, t);
    } else if sq == 57 {
      KnightGoteBits57(sq, t);
    } else if sq == 58 {
      KnightGoteBits58(sq, t);
    } else if sq == 59 {
      KnightGoteBits59(sq, t);
    } else if sq == 60 {
      KnightGoteBits60(sq, t);
    } else if sq == 61 {
      KnightGoteBits61(sq, t);
    } else {
      KnightGoteBits62(sq, t);
    }
  }

  lemma KnightGoteRank7(sq: nat, t: nat)
    requires 63 <= sq < 72
    ensures Has(KNIGHT_ATTACKS[1][sq], t) <==> KnightStep(Gote, sq, t)
  {
    if sq == 63 {
      KnightGoteBits63(sq, t);
    } else if sq == 64 {
      KnightGoteBits64(sq, t);
    } else if sq == 65 {
      KnightGoteBits65(sq, t);
    } else if sq == 66 {
      KnightGoteBits66(sq, t);
    } else if sq == 67 {
      KnightGoteBits67(sq, t);
    } else if sq == 68 {
      KnightGoteBits68(sq, t);
    } else if sq == 69 {
      KnightGoteBits69(sq, t);
    } else if sq == 70 {
      KnightGoteBits70(sq, t);
    } else {
      KnightGoteBits71(sq, t);
    }
  }

  lemma KnightGoteRank8(sq: nat, t: nat)
    requires 72 <= sq < 81
    ensures Has(KNIGHT_ATTACKS[1][sq], t) <==> KnightStep(Gote, sq, t)
  {
    if sq == 72 {
      KnightGoteBits72(sq, t);
    } else if sq == 73 {
      KnightGoteBits73(sq, t);
    } else if sq == 74 {
      KnightGoteBits74(sq, t);
    } else if sq == 75 {
      KnightGoteBits75(sq, t);
    } else if sq == 76 {
      KnightGoteBits76(sq, t);
    } else if sq == 77 {
      KnightGoteBits77(sq, t);
    } else if sq == 78 {
      KnightGoteBits78(sq, t);
    } else if sq == 79 {
      KnightGoteBits79(sq, t);
    } else {
      KnightGoteBits80(sq, t);
    }
  }

  // ---------------------------------------------------------------------------
  // SILVER_ATTACKS, Sente
  // ---------------------------------------------------------------------------

  lemma SilverSenteBits0(sq: nat, t: nat)
    requires sq == 0
    ensures Has(SILVER_ATTACKS[0][sq], t) <==> t == 9 || t == 10
  {
    Pow2Lit0();
    Bits2(9, 10, t);
  }

  lemma SilverSenteBits1(sq: nat, t: nat)
    requires sq == 1
    ensures Has(SILVER_ATTACKS[0][sq], t) <==> t == 9 || t == 10 || t == 11
  {
    Pow2Lit0();
    Bits3(9, 10, 11, t);
  }

  lemma SilverSenteBits2(sq: nat, t: nat)
    requires sq == 2
    ensures Has(SILVER_ATTACKS[0][sq], t) <==> t == 10 || t == 11 || t == 12
  {
    Pow2Lit0();
    Bits3(10, 11, 12, t);
  }

  lemma SilverSenteBits3(sq: nat, t: nat)
    requires sq == 3
    ensures Has(SILVER_ATTACKS[0][sq], t) <==> t == 11 || t == 12 || t == 13
  {
    Pow2Lit0();
    Bits3(11, 12, 13, t);
  }

  lemma SilverSenteBits4(sq: nat, t: nat)
    requires sq == 4
    ensures Has(SILVER_ATTACKS[0][sq], t) <==> t == 12 || t == 13 || t == 14
  {
    Pow2Lit0();
    Bits3(12, 13, 14, t);
  }

  lemma SilverSenteBits5(sq: nat, t: nat)
    requires sq == 5
    ensures Has(SILVER_ATTACKS[0][sq], t) <==> t == 13 || t == 14 || t == 15
  {
    Pow2Lit0();
    Bits3(13, 14, 15, t);
  }

  lemma SilverSenteBits6(sq: nat, t: nat)
    requires sq == 6
    ensures Has(SILVER_ATTACKS[0][sq], t) <==> t == 14 || t == 15 || t == 16
  {
    Pow2Lit0(); Pow2Lit1();
    Bits3(14, 15, 16, t);
  }

  lemma SilverSenteBits7(sq: nat, t: nat)
    requires sq == 7
    ensures Has(SILVER_ATTACKS[0][sq], t) <==> t == 15 || t == 16 || t == 17
  {
    Pow2Lit0(); Pow2Lit1();
    Bits3(15, 16, 17, t);
  }

  lemma SilverSenteBits8(sq: nat, t: nat)
    requires sq == 8
    ensures Has(SILVER_ATTACKS[0][sq], t) <==> t == 16 || t == 17
  {
    Pow2Lit1();
    Bits2(16, 17, t);
  }

  lemma SilverSenteBits9(sq: nat, t: nat)
    requires sq == 9
    ensures Has(SILVER_ATTACKS[0][sq], t) <==> t == 1 || t == 18 || t == 19
  {
    Pow2Lit0(); Pow2Lit1();
    Bits3(1, 18, 19, t);
  }

  lemma SilverSenteBits10(sq: nat, t: nat)
    requires sq == 10
    ensures Has(SILVER_ATTACKS[0][sq], t) <==> t == 0 || t == 2 || t == 18 || t == 19 || t == 20
  {
    Pow2Lit0(); Pow2Lit1();
    Bits5(0, 2, 18, 19, 20, t);
  }

  lemma SilverSenteBits11(sq: nat, t: nat)
    requires sq == 11
    ensures Has(SILVER_ATTACKS[0][sq], t) <==> t == 1 || t == 3 || t == 19 || t == 20 || t == 21
  {
    Pow2Lit0(); Pow2Lit1();
    Bits5(1, 3, 19, 20, 21, t);
  }

  lemma SilverSenteBits12(sq: nat, t: nat)
    requires sq == 12
    ensures Has(SILVER_ATTACKS[0][sq], t) <==> t == 2 || t == 4 || t == 20 || t == 21 || t == 22
  {
    Pow2Lit0(); Pow2Lit1();
    Bits5(2, 4, 20, 21, 22, t);
  }

  lemma SilverSenteBits13(sq: nat, t: nat)
    requires sq == 13
    ensures Has(SILVER_ATTACKS[0][sq], t) <==> t == 3 || t == 5 || t == 21 || t == 22 || t == 23
  {
    Pow2Lit0(); Pow2Lit1();
    Bits5(3, 5, 21, 22, 23, t);
  }

  lemma SilverSenteBits14(sq: nat, t: nat)
    requires sq == 14
    ensures Has(SILVER_ATTACKS[0][sq], t) <==> t == 4 || t == 6 || t == 22 || t == 23 || t == 24
  {
    Pow2Lit0(); Pow2Lit1();
    Bits5(4, 6, 22, 23, 24, t);
  }

  lemma SilverSenteBits15(sq: nat, t: nat)
    requires sq == 15
    ensures Has(SILVER_ATTACKS[0][sq], t) <==> t == 5 || t == 7 || t == 23 || t == 24 || t == 25
  {
    Pow2Lit0(); Pow2Lit1();
    Bits5(5, 7, 23, 24, 25, t);
  }

  lemma SilverSenteBits16(sq: nat, t: nat)
    requires sq == 16
    ensures Has(SILVER_ATTACKS[0][sq], t) <==> t == 6 || t == 8 || t == 24 || t == 25 || t == 26
  {
    Pow2Lit0(); Pow2Lit1();
    Bits5(6, 8, 24, 25, 26, t);
  }

  lemma SilverSenteBits17(sq: nat, t: nat)
    requires sq == 17
    ensures Has(SILVER_ATTACKS[0][sq], t) <==> t == 7 || t == 25 || t == 26
  {
    Pow2Lit0(); Pow2Lit1();
    Bits3(7, 25, 26, t);
  }

  lemma SilverSenteBits18(sq: nat, t: nat)
    requires sq == 18
    ensures Has(SILVER_ATTACKS[0][sq], t) <==> t == 10 || t == 27 || t == 28
  {
    Pow2Lit0(); Pow2Lit1();
    Bits3(10, 27, 28, t);
  }

  lemma SilverSenteBits19(sq: nat, t: nat)
    requires sq == 19
    ensures Has(SILVER_ATTACKS[0][sq], t) <==> t == 9 || t == 11 || t == 27 || t == 28 || t == 29
  {
    Pow2Lit0(); Pow2Lit1();
    Bits5(9, 11, 27, 28, 29, t);
  }

  lemma SilverSenteBits20(sq: nat, t: nat)
    requires sq == 20
    ensures Has(SILVER_ATTACKS[0][sq], t) <==> t == 10 || t == 12 || t == 28 || t == 29 || t == 30
  {
    Pow2Lit0(); Pow2Lit1();
    Bits5(10, 12, 28, 29, 30, t);
  }

  lemma SilverSenteBits21(sq: nat, t: nat)
    requires sq == 21
    ensures Has(SILVER_ATTACKS[0][sq], t) <==> t == 11 || t == 13 || t == 29 || t == 30 || t == 31
  {
    Pow2Lit0(); Pow2Lit1();
    Bits5(11, 13, 29, 30, 31, t);
  }

  lemma SilverSenteBits22(sq: nat, t: nat)
    requires sq == 22
    ensures Has(SILVER_ATTACKS[0][sq], t) <==> t == 12 || t == 14 || t == 30 || t == 31 || t == 32
  {
    Pow2Lit0(); Pow2Lit1(); Pow2Lit2();
    Bits5(12, 14, 30, 31, 32, t);
  }

  lemma SilverSenteBits23(sq: nat, t: nat)
    requires sq == 23
    ensures Has(SILVER_ATTACKS[0][sq], t) <==> t == 13 || t == 15 || t == 31 || t == 32 || t == 33
  {
    Pow2Lit0(); Pow2Lit1(); Pow2Lit2();
    Bits5(13, 15, 31, 32, 33, t);
  }

  lemma SilverSenteBits24(sq: nat, t: nat)
    requires sq == 24
    ensures Has(SILVER_ATTACKS[0][sq], t) <==> t == 14 || t == 16 || t == 32 || t == 33 || t == 34
  {
    Pow2Lit0(); Pow2Lit1(); Pow2Lit2();
    Bits5(14, 16, 32, 33, 34, t);
  }

  lemma SilverSenteBits25(sq: nat, t: nat)
    requires sq == 25
    ensures Has(SILVER_ATTACKS[0][sq], t) <==> t == 15 || t == 17 || t == 33 || t == 34 || t == 35
  {
    Pow2Lit0(); Pow2Lit1(); Pow2Lit2();
    Bits5(15, 17, 33, 34, 35, t);
  }

  lemma SilverSenteBits26(sq: nat, t: nat)
    requires sq == 26
    ensures Has(SILVER_ATTACKS[0][sq], t) <==> t == 16 || t == 34 || t == 35
  {
    Pow2Lit1(); Pow2Lit2();
    Bits3(16, 34, 35, t);
  }

  lemma SilverSenteBits27(sq: nat, t: nat)
    requires sq == 27
    ensures Has(SILVER_ATTACKS[0][sq], t) <==> t == 19 || t == 36 || t == 37
  {
    Pow2Lit1(); Pow2Lit2();
    Bits3(19, 36, 37, t);
  }

  lemma SilverSenteBits28(sq: nat, t: nat)
    requires sq == 28
    ensures Has(SILVER_ATTACKS[0][sq], t) <==> t == 18 || t == 20 || t == 36 || t == 37 || t == 38
  {
    Pow2Lit1(); Pow2Lit2();
    Bits5(18, 20, 36, 37, 38, t);
  }

  lemma SilverSenteBits29(sq: nat, t: nat)
    requires sq == 29
    ensures Has(SILVER_ATTACKS[0][sq], t) <==> t == 19 || t == 21 || t == 37 || t == 38 || t == 39
  {
    Pow2Lit1(); Pow2Lit2();
    Bits5(19, 21, 37, 38, 39, t);
  }

  lemma SilverSenteBits30(sq: nat, t: nat)
    requires sq == 30
    ensures Has(SILVER_ATTACKS[0][sq], t) <==> t == 20 || t == 22 || t == 38 || t == 39 || t == 40
  {
    Pow2Lit1(); Pow2Lit2();
    Bits5(20, 22, 38, 39, 40, t);
  }

  lemma SilverSenteBits31(sq: nat, t: nat)
    requires sq == 31
    ensures Has(SILVER_ATTACKS[0][sq], t) <==> t == 21 || t == 23 || t == 39 || t == 40 || t == 41
  {
    Pow2Lit1(); Pow2Lit2();
    Bits5(21, 23, 39, 40, 41, t);
  }

  lemma SilverSenteBits32(sq: nat, t: nat)
    requires sq == 32
    ensures Has(SILVER_ATTACKS[0][sq], t) <==> t == 22 || t == 24 || t == 40 || t == 41 || t == 42
  {
    Pow2Lit1(); Pow2Lit2();
    Bits5(22, 24, 40, 41, 42, t);
  }

  lemma SilverSenteBits33(sq: nat, t: nat)
    requires sq == 33
    ensures Has(SILVER_ATTACKS[0][sq], t) <==> t == 23 || t == 25 || t == 41 || t == 42 || t == 43
  {
    Pow2Lit1(); Pow2Lit2();
    Bits5(23, 25, 41, 42, 43, t);
  }

  lemma SilverSenteBits34(sq: nat, t: nat)
    requires sq == 34
    ensures Has(SILVER_ATTACKS[0][sq], t) <==> t == 24 || t == 26 || t == 42 || t == 43 || t == 44
  {
    Pow2Lit1(); Pow2Lit2();
    Bits5(24, 26, 42, 43, 44, t);
  }

  lemma SilverSenteBits35(sq: nat, t: nat)
    requires sq == 35
    ensures Has(SILVER_ATTACKS[0][sq], t) <==> t == 25 || t == 43 || t == 44
  {
    Pow2Lit1(); Pow2Lit2();
    Bits3(25, 43, 44, t);
  }

  lemma SilverSenteBits36(sq: nat, t: nat)
    requires sq == 36
    ensures Has(SILVER_ATTACKS[0][sq], t) <==> t == 28 || t == 45 || t == 46
  {
    Pow2Lit1(); Pow2Lit2();
    Bits3(28, 45, 46, t);
  }

  lemma SilverSenteBits37(sq: nat, t: nat)
    requires sq == 37
    ensures Has(SILVER_ATTACKS[0][sq], t) <==> t == 27 || t == 29 || t == 45 || t == 46 || t == 47
  {
    Pow2Lit1(); Pow2Lit2();
    Bits5(27, 29, 45, 46, 47, t);
  }

  lemma SilverSenteBits38(sq: nat, t: nat)
    requires sq == 38
    ensures Has(SILVER_ATTACKS[0][sq], t) <==> t == 28 || t == 30 || t == 46 || t == 47 || t == 48
  {
    Pow2Lit1(); Pow2Lit2(); Pow2Lit3();
    Bits5(28, 30, 46, 47, 48, t);
  }

  lemma SilverSenteBits39(sq: nat, t: nat)
    requires sq == 39
    ensures Has(SILVER_ATTACKS[0][sq], t) <==> t == 29 || t == 31 || t == 47 || t == 48 || t == 49
  {
    Pow2Lit1(); Pow2Lit2(); Pow2Lit3();
    Bits5(29, 31, 47, 48, 49, t);
  }

  lemma SilverSenteBits40(sq: nat, t: nat)
    requires sq == 40
    ensures Has(SILVER_ATTACKS[0][sq], t) <==> t == 30 || t == 32 || t == 48 || t == 49 || t == 50
  {
    Pow2Lit1(); Pow2Lit2(); Pow2Lit3();
    Bits5(30, 32, 48, 49, 50, t);
  }

  lemma SilverSenteBits41(sq: nat, t: nat)
    requires sq == 41
    ensures Has(SILVER_ATTACKS[0][sq], t) <==> t == 31 || t == 33 || t == 49 || t == 50 || t == 51
  {
    Pow2Lit1(); Pow2Lit2(); Pow2Lit3();
    Bits5(31, 33, 49, 50, 51, t);
  }

  lemma SilverSenteBits42(sq: nat, t: nat)
    requires sq == 42
    ensures Has(SILVER_ATTACKS[0][sq], t) <==> t == 32 || t == 34 || t == 50 || t == 51 || t == 52
  {
    Pow2Lit2(); Pow2Lit3();
    Bits5(32, 34, 50, 51, 52, t);
  }

  lemma SilverSenteBits43(sq: nat, t: nat)
    requires sq == 43
    ensures Has(SILVER_ATTACKS[0][sq], t) <==> t == 33 || t == 35 || t == 51 || t == 52 || t == 53
  {
    Pow2Lit2(); Pow2Lit3();
    Bits5(33, 35, 51, 52, 53, t);
  }

  lemma SilverSenteBits44(sq: nat, t: nat)
    requires sq == 44
    ensures Has(SILVER_ATTACKS[0][sq], t) <==> t == 34 || t == 52 || t == 53
  {
    Pow2Lit2(); Pow2Lit3();
    Bits3(34, 52, 53, t);
  }

  lemma SilverSenteBits45(sq: nat, t: nat)
    requires sq == 45
    ensures Has(SILVER_ATTACKS[0][sq], t) <==> t == 37 || t == 54 || t == 55
  {
    Pow2Lit2(); Pow2Lit3();
    Bits3(37, 54, 55, t);
  }

  lemma SilverSenteBits46(sq: nat, t: nat)
    requires sq == 46
    ensures Has(SILVER_ATTACKS[0][sq], t) <==> t == 36 || t == 38 || t == 54 || t == 55 || t == 56
  {
    Pow2Lit2(); Pow2Lit3();
    Bits5(36, 38, 54, 55, 56, t);
  }

  lemma SilverSenteBits47(sq: nat, t: nat)
    requires sq == 47
    ensures Has(SILVER_ATTACKS[0][sq], t) <==> t == 37 || t == 39 || t == 55 || t == 56 || t == 57
  {
    Pow2Lit2(); Pow2Lit3();
    Bits5(37, 39, 55, 56, 57, t);
  }

  lemma SilverSenteBits48(sq: nat, t: nat)
    requires sq == 48
    ensures Has(SILVER_ATTACKS[0][sq], t) <==> t == 38 || t == 40 || t == 56 || t == 57 || t == 58
  {
    Pow2Lit2(); Pow2Lit3();
    Bits5(38, 40, 56, 57, 58, t);
  }

  lemma SilverSenteBits49(sq: nat, t: nat)
    requires sq == 49
    ensures Has(SILVER_ATTACKS[0][sq], t) <==> t == 39 || t == 41 || t == 57 || t == 58 || t == 59
  {
    Pow2Lit2(); Pow2Lit3();
    Bits5(39, 41, 57, 58, 59, t);
  }

  lemma SilverSenteBits50(sq: nat, t: nat)
    requires sq == 50
    ensures Has(SILVER_ATTACKS[0][sq], t) <==> t == 40 || t == 42 || t == 58 || t == 59 || t == 60
  {
    Pow2Lit2(); Pow2Lit3();
    Bits5(40, 42, 58, 59, 60, t);
  }

  lemma SilverSenteBits51(sq: nat, t: nat)
    requires sq == 51
    ensures Has(SILVER_ATTACKS[0][sq], t) <==> t == 41 || t == 43 || t == 59 || t == 60 || t == 61
  {
    Pow2Lit2(); Pow2Lit3();
    Bits5(41, 43, 59, 60, 61, t);
  }

  lemma SilverSenteBits52(sq: nat, t: nat)
    requires sq == 52
    ensures Has(SILVER_ATTACKS[0][sq], t) <==> t == 42 || t == 44 || t == 60 || t == 61 || t == 62
  {
    Pow2Lit2(); Pow2Lit3();
    Bits5(42, 44, 60, 61, 62, t);
  }

  lemma SilverSenteBits53(sq: nat, t: nat)
    requires sq == 53
    ensures Has(SILVER_ATTACKS[0][sq], t) <==> t == 43 || t == 61 || t == 62
  {
    Pow2Lit2(); Pow2Lit3();
    Bits3(43, 61, 62, t);
  }

  lemma SilverSenteBits54(sq: nat, t: nat)
    requires sq == 54
    ensures Has(SILVER_ATTACKS[0][sq], t) <==> t == 46 || t == 63 || t == 64
  {
    Pow2Lit2(); Pow2Lit3(); Pow2Lit4();
    Bits3(46, 63, 64, t);
  }

  lemma SilverSenteBits55(sq: nat, t: nat)
    requires sq == 55
    ensures Has(SILVER_ATTACKS[0][sq], t) <==> t == 45 || t == 47 || t == 63 || t == 64 || t == 65
  {
    Pow2Lit2(); Pow2Lit3(); Pow2Lit4();
    Bits5(45, 47, 63, 64, 65, t);
  }

  lemma SilverSenteBits56(sq: nat, t: nat)
    requires sq == 56
    ensures Has(SILVER_ATTACKS[0][sq], t) <==> t == 46 || t == 48 || t == 64 || t == 65 || t == 66
  {
    Pow2Lit2(); Pow2Lit3(); Pow2Lit4();
    Bits5(46, 48, 64, 65, 66, t);
  }

  lemma SilverSenteBits57(sq: nat, t: nat)
    requires sq == 57
    ensures Has(SILVER_ATTACKS[0][sq], t) <==> t == 47 || t == 49 || t == 65 || t == 66 || t == 67
  {
    Pow2Lit2(); Pow2Lit3(); Pow2Lit4();
    Bits5(47, 49, 65, 66, 67, t);
  }

  lemma SilverSenteBits58(sq: nat, t: nat)
    requires sq == 58
    ensures Has(SILVER_ATTACKS[0][sq], t) <==> t == 48 || t == 50 || t == 66 || t == 67 || t == 68
  {
    Pow2Lit3(); Pow2Lit4();
    Bits5(48, 50, 66, 67, 68, t);
  }

  lemma SilverSenteBits59(sq: nat, t: nat)
    requires sq == 59
    ensures Has(SILVER_ATTACKS[0][sq], t) <==> t == 49 || t == 51 || t == 67 || t == 68 || t == 69
  {
    Pow2Lit3(); Pow2Lit4();
    Bits5(49, 51, 67, 68, 69, t);
  }

  lemma SilverSenteBits60(sq: nat, t: nat)
    requires sq == 60
    ensures Has(SILVER_ATTACKS[0][sq], t) <==> t == 50 || t == 52 || t == 68 || t == 69 || t == 70
  {
    Pow2Lit3(); Pow2Lit4();
    Bits5(50, 52, 68, 69, 70, t);
  }

  lemma SilverSenteBits61(sq: nat, t: nat)
    requires sq == 61
    ensures Has(SILVER_ATTACKS[0][sq], t) <==> t == 51 || t == 53 || t == 69 || t == 70 || t == 71
  {
    Pow2Lit3(); Pow2Lit4();
    Bits5(51, 53, 69, 70, 71, t);
  }

  lemma SilverSenteBits62(sq: nat, t: nat)
    requires sq == 62
    ensures Has(SILVER_ATTACKS[0][sq], t) <==> t == 52 || t == 70 || t == 71
  {
    Pow2Lit3(); Pow2Lit4();
    Bits3(52, 70, 71, t);
  }

  lemma SilverSenteBits63(sq: nat, t: nat)
    requires sq == 63
    ensures Has(SILVER_ATTACKS[0][sq], t) <==> t == 55 || t == 72 || t == 73
  {
    Pow2Lit3(); Pow2Lit4();
    Bits3(55, 72, 73, t);
  }

  lemma SilverSenteBits64(sq: nat, t: nat)
    requires sq == 64
    ensures Has(SILVER_ATTACKS[0][sq], t) <==> t == 54 || t == 56 || t == 72 || t == 73 || t == 74
  {
    Pow2Lit3(); Pow2Lit4();
    Bits5(54, 56, 72, 73, 74, t);
  }

  lemma SilverSenteBits65(sq: nat, t: nat)
    requires sq == 65
    ensures Has(SILVER_ATTACKS[0][sq], t) <==> t == 55 || t == 57 || t == 73 || t == 74 || t == 75
  {
    Pow2Lit3(); Pow2Lit4();
    Bits5(55, 57, 73, 74, 75, t);
  }

  lemma SilverSenteBits66(sq: nat, t: nat)
    requires sq == 66
    ensures Has(SILVER_ATTACKS[0][sq], t) <==> t == 56 || t == 58 || t == 74 || t == 75 || t == 76
  {
    Pow2Lit3(); Pow2Lit4();
    Bits5(56, 58, 74, 75, 76, t);
  }

  lemma SilverSenteBits67(sq: nat, t: nat)
    requires sq == 67
    ensures Has(SILVER_ATTACKS[0][sq], t) <==> t == 57 || t == 59 || t == 75 || t == 76 || t == 77
  {
    Pow2Lit3(); Pow2Lit4();
    Bits5(57, 59, 75, 76, 77, t);
  }

  lemma SilverSenteBits68(sq: nat, t: nat)
    requires sq == 68
    ensures Has(SILVER_ATTACKS[0][sq], t) <==> t == 58 || t == 60 || t == 76 || t == 77 || t == 78
  {
    Pow2Lit3(); Pow2Lit4();
    Bits5(58, 60, 76, 77, 78, t);
  }

  lemma SilverSenteBits69(sq: nat, t: nat)
    requires sq == 69
    ensures Has(SILVER_ATTACKS[0][sq], t) <==> t == 59 || t == 61 || t == 77 || t == 78 || t == 79
  {
    Pow2Lit3(); Pow2Lit4();
    Bits5(59, 61, 77, 78, 79, t);
  }

  lemma SilverSenteBits70(sq: nat, t: nat)
    requires sq == 70
    ensures Has(SILVER_ATTACKS[0][sq], t) <==> t == 60 || t == 62 || t == 78 || t == 79 || t == 80
  {
    Pow2Lit3(); Pow2Lit4(); Pow2Lit5();
    Bits5(60, 62, 78, 79, 80, t);
  }

  lemma SilverSenteBits71(sq: nat, t: nat)
    requires sq == 71
    ensures Has(SILVER_ATTACKS[0][sq], t) <==> t == 61 || t == 79 || t == 80
  {
    Pow2Lit3(); Pow2Lit4(); Pow2Lit5();
    Bits3(61, 79, 80, t);
  }

  lemma SilverSenteBits72(sq: nat, t: nat)
    requires sq == 72
    ensures Has(SILVER_ATTACKS[0][sq], t) <==> t == 64
  {
    Pow2Lit4();
    Bits1(64, t);
  }

  lemma SilverSenteBits73(sq: nat, t: nat)
    requires sq == 73
    ensures Has(SILVER_ATTACKS[0][sq], t) <==> t == 63 || t == 65
  {
    Pow2Lit3(); Pow2Lit4();
    Bits2(63, 65, t);
  }

  lemma SilverSenteBits74(sq: nat, t: nat)
    requires sq == 74
    ensures Has(SILVER_ATTACKS[0][sq], t) <==> t == 64 || t == 66
  {
    Pow2Lit4();
    Bits2(64, 66, t);
  }

  lemma SilverSenteBits75(sq: nat, t: nat)
    requires sq == 75
    ensures Has(SILVER_ATTACKS[0][sq], t) <==> t == 65 || t == 67
  {
    Pow2Lit4();
    Bits2(65, 67, t);
  }

  lemma SilverSenteBits76(sq: nat, t: nat)
    requires sq == 76
    ensures Has(SILVER_ATTACKS[0][sq], t) <==> t == 66 || t == 68
  {
    Pow2Lit4();
    Bits2(66, 68, t);
  }

  lemma SilverSenteBits77(sq: nat, t: nat)
    requires sq == 77
    ensures Has(SILVER_ATTACKS[0][sq], t) <==> t == 67 || t == 69
  {
    Pow2Lit4();
    Bits2(67, 69, t);
  }

  lemma SilverSenteBits78(sq: nat, t: nat)
    requires sq == 78
    ensures Has(SILVER_ATTACKS[0][sq], t) <==> t == 68 || t == 70
  {
    Pow2Lit4();
    Bits2(68, 70, t);
  }

  lemma SilverSenteBits79(sq: nat, t: nat)
    requires sq == 79
    ensures Has(SILVER_ATTACKS[0][sq], t) <==> t == 69 || t == 71
  {
    Pow2Lit4();
    Bits2(69, 71, t);
  }

  lemma SilverSenteBits80(sq: nat, t: nat)
    requires sq == 80
    ensures Has(SILVER_ATTACKS[0][sq], t) <==> t == 70
  {
    Pow2Lit4();
    Bits1(70, t);
  }

  lemma SilverSenteRank0(sq: nat, t: nat)
    requires 0 <= sq < 9
    ensures Has(SILVER_ATTACKS[0][sq], t) <==> SilverStep(Sente, sq, t)
  {
    if sq == 0 {
      SilverSenteBits0(sq, t);
    } else if sq == 1 {
      SilverSenteBits1(sq, t);
    } else if sq == 2 {
      SilverSenteBits2(sq, t);
    } else if sq == 3 {
      SilverSenteBits3(sq, t);
    } else if sq == 4 {
      SilverSenteBits4(sq, t);
    } else if sq == 5 {
      SilverSenteBits5(sq, t);
    } else if sq == 6 {
      SilverSenteBits6(sq, t);
    } else if sq == 7 {
      SilverSenteBits7(sq, t);
    } else {
      SilverSenteBits8(sq, t);
    }
  }

  lemma SilverSenteRank1(sq: nat, t: nat)
    requires 9 <= sq < 18
    ensures Has(SILVER_ATTACKS[0][sq], t) <==> SilverStep(Sente, sq, t)
  {
    if sq == 9 {
      SilverSenteBits9(sq, t);
    } else if sq == 10 {
      SilverSenteBits10(sq, t);
    } else if sq == 11 {
      SilverSenteBits11(sq, t);
    } else if sq == 12 {
      SilverSenteBits12(sq, t);
    } else if sq == 13 {
      SilverSenteBits13(sq, t);
    } else if sq == 14 {
      SilverSenteBits14(sq, t);
    } else if sq == 15 {
      SilverSenteBits15(sq, t);
    } else if sq == 16 {
      SilverSenteBits16(sq, t);
    } else {
      SilverSenteBits17(sq, t);
    }
  }

  lemma SilverSenteRank2(sq: nat, t: nat)
    requires 18 <= sq < 27
    ensures Has(SILVER_ATTACKS[0][sq], t) <==> SilverStep(Sente, sq, t)
  {
    if sq == 18 {
      SilverSenteBits18(sq, t);
    } else if sq == 19 {
      SilverSenteBits19(sq, t);
    } else if sq == 20 {
      SilverSenteBits20(sq, t);
    } else if sq == 21 {
      SilverSenteBits21(sq, t);
    } else if sq == 22 {
      SilverSenteBits22(sq, t);
    } else if sq == 23 {
      SilverSenteBits23(sq, t);
    } else if sq == 24 {
      SilverSenteBits24(sq, t);
    } else if sq == 25 {
      SilverSenteBits25(sq, t);
    } else {
      SilverSenteBits26(sq, t);
    }
  }

  lemma SilverSenteRank3(sq: nat, t: nat)
    requires 27 <= sq < 36
    ensures Has(SILVER_ATTACKS[0][sq], t) <==> SilverStep(Sente, sq, t)
  {
    if sq == 27 {
      SilverSenteBits27(sq, t);
    } else if sq == 28 {
      SilverSenteBits28(sq, t);
    } else if sq == 29 {
      SilverSenteBits29(sq, t);
    } else if sq == 30 {
      SilverSenteBits30(sq, t);
    } else if sq == 31 {
      SilverSenteBits31(sq, t);
    } else if sq == 32 {
      SilverSenteBits32(sq, t);
    } else if sq == 33 {
      SilverSenteBits33(sq, t);
    } else if sq == 34 {
      SilverSenteBits34(sq, t);
    } else {
      SilverSenteBits35(sq, t);
    }
  }

  lemma SilverSenteRank4(sq: nat, t: nat)
    requires 36 <= sq < 45
    ensures Has(SILVER_ATTACKS[0][sq], t) <==> SilverStep(Sente, sq, t)
  {
    if sq == 36 {
      SilverSenteBits36(sq, t);
    } else if sq == 37 {
      SilverSenteBits37(sq, t);
    } else if sq == 38 {
      SilverSenteBits38(sq, t);
    } else if sq == 39 {
      SilverSenteBits39(sq, t);
    } else if sq == 40 {
      SilverSenteBits40(sq, t);
    } else if sq == 41 {
      SilverSenteBits41(sq, t);
    } else if sq == 42 {
      SilverSenteBits42(sq, t);
    } else if sq == 43 {
      SilverSenteBits43(sq, t);
    } else {
      SilverSenteBits44(sq, t);
    }
  }

  lemma SilverSenteRank5(sq: nat, t: nat)
    requires 45 <= sq < 54
    ensures Has(SILVER_ATTACKS[0][sq], t) <==> SilverStep(Sente, sq, t)
  {
    if sq == 45 {
      SilverSenteBits45(sq, t);
    } else if sq == 46 {
      SilverSenteBits46(sq, t);
    } else if sq == 47 {
      SilverSenteBits47(sq, t);
    } else if sq == 48 {
      SilverSenteBits48(sq, t);
    } else if sq == 49 {
      SilverSenteBits49(sq, t);
    } else if sq == 50 {
      SilverSenteBits50(sq, t);
    } else if sq == 51 {
      SilverSenteBits51(sq, t);
    } else if sq == 52 {
      SilverSenteBits52(sq, t);
    } else {
      SilverSenteBits53(sq, t);
    }
  }

  lemma SilverSenteRank6(sq: nat, t: nat)
    requires 54 <= sq < 63
    ensures Has(SILVER_ATTACKS[0][sq], t) <==> SilverStep(Sente, sq, t)
  {
    if sq == 54 {
      SilverSenteBits54(sq, t);
    } else if sq == 55 {
      SilverSenteBits55(sq, t);
    } else if sq == 56 {
      SilverSenteBits56(sq, t);
    } else if sq == 57 {
      SilverSenteBits57(sq, t);
    } else if sq == 58 {
      SilverSenteBits58(sq, t);
    } else if sq == 59 {
      SilverSenteBits59(sq, t);
    } else if sq == 60 {
      SilverSenteBits60(sq, t);
    } else if sq == 61 {
      SilverSenteBits61(sq, t);
    } else {
      SilverSenteBits62(sq, t);
    }
  }

  lemma SilverSenteRank7(sq: nat, t: nat)
    requires 63 <= sq < 72
    ensures Has(SILVER_ATTACKS[0][sq], t) <==> SilverStep(Sente, sq, t)
  {
    if sq == 63 {
      SilverSenteBits63(sq, t);
    } else if sq == 64 {
      SilverSenteBits64(sq, t);
    } else if sq == 65 {
      SilverSenteBits65(sq, t);
    } else if sq == 66 {
      SilverSenteBits66(sq, t);
    } else if sq == 67 {
      SilverSenteBits67(sq, t);
    } else if sq == 68 {
      SilverSenteBits68(sq, t);
    } else if sq == 69 {
      SilverSenteBits69(sq, t);
    } else if sq == 70 {
      SilverSenteBits70(sq, t);
    } else {
      SilverSenteBits71(sq, t);
    }
  }

  lemma SilverSenteRank8(sq: nat, t: nat)
    requires 72 <= sq < 81
    ensures Has(SILVER_ATTACKS[0][sq], t) <==> SilverStep(Sente, sq, t)
  {
    if sq == 72 {
      SilverSenteBits72(sq, t);
    } else if sq == 73 {
      SilverSenteBits73(sq, t);
    } else if sq == 74 {
      SilverSenteBits74(sq, t);
    } else if sq == 75 {
      SilverSenteBits75(sq, t);
    } else if sq == 76 {
      SilverSenteBits76(sq, t);
    } else if sq == 77 {
      SilverSenteBits77(sq, t);
    } else if sq == 78 {
      SilverSenteBits78(sq, t);
    } else if sq == 79 {
      SilverSenteBits79(sq, t);
    } else {
      SilverSenteBits80(sq, t);
    }
  }

  // ---------------------------------------------------------------------------
  // SILVER_ATTACKS, Gote
  // ---------------------------------------------------------------------------

  lemma SilverGoteBits0(sq: nat, t: nat)
    requires sq == 0
    ensures Has(SILVER_ATTACKS[1][sq], t) <==> t == 10
  {
    Pow2Lit0();
    Bits1(10, t);
  }

  lemma SilverGoteBits1(sq: nat, t: nat)
    requires sq == 1
    ensures Has(SILVER_ATTACKS[1][sq], t) <==> t == 9 || t == 11
  {
    Pow2Lit0();
    Bits2(9, 11, t);
  }

  lemma SilverGoteBits2(sq: nat, t: nat)
    requires sq == 2
    ensures Has(SILVER_ATTACKS[1][sq], t) <==> t == 10 || t == 12
  {
    Pow2Lit0();
    Bits2(10, 12, t);
  }

  lemma SilverGoteBits3(sq: nat, t: nat)
    requires sq == 3
    ensures Has(SILVER_ATTACKS[1][sq], t) <==> t == 11 || t == 13
  {
    Pow2Lit0();
    Bits2(11, 13, t);
  }

  lemma SilverGoteBits4(sq: nat, t: nat)
    requires sq == 4
    ensures Has(SILVER_ATTACKS[1][sq], t) <==> t == 12 || t == 14
  {
    Pow2Lit0();
    Bits2(12, 14, t);
  }

  lemma SilverGoteBits5(sq: nat, t: nat)
    requires sq == 5
    ensures Has(SILVER_ATTACKS[1][sq], t) <==> t == 13 || t == 15
  {
    Pow2Lit0();
    Bits2(13, 15, t);
  }

  lemma SilverGoteBits6(sq: nat, t: nat)
    requires sq == 6
    ensures Has(SILVER_ATTACKS[1][sq], t) <==> t == 14 || t == 16
  {
    Pow2Lit0(); Pow2Lit1();
    Bits2(14, 16, t);
  }

  lemma SilverGoteBits7(sq: nat, t: nat)
    requires sq == 7
    ensures Has(SILVER_ATTACKS[1][sq], t) <==> t == 15 || t == 17
  {
    Pow2Lit0(); Pow2Lit1();
    Bits2(15, 17, t);
  }

  lemma SilverGoteBits8(sq: nat, t: nat)
    requires sq == 8
    ensures Has(SILVER_ATTACKS[1][sq], t) <==> t == 16
  {
    Pow2Lit1();
    Bits1(16, t);
  }

  lemma SilverGoteBits9(sq: nat, t: nat)
    requires sq == 9
    ensures Has(SILVER_ATTACKS[1][sq], t) <==> t == 0 || t == 1 || t == 19
  {
    Pow2Lit0(); Pow2Lit1();
    Bits3(0, 1, 19, t);
  }

  lemma SilverGoteBits10(sq: nat, t: nat)
    requires sq == 10
    ensures Has(SILVER_ATTACKS[1][sq], t) <==> t == 0 || t == 1 || t == 2 || t == 18 || t == 20
  {
    Pow2Lit0(); Pow2Lit1();
    Bits5(0, 1, 2, 18, 20, t);
  }

  lemma SilverGoteBits11(sq: nat, t: nat)
    requires sq == 11
    ensures Has(SILVER_ATTACKS[1][sq], t) <==> t == 1 || t == 2 || t == 3 || t == 19 || t == 21
  {
    Pow2Lit0(); Pow2Lit1();
    Bits5(1, 2, 3, 19, 21, t);
  }

  lemma SilverGoteBits12(sq: nat, t: nat)
    requires sq == 12
    ensures Has(SILVER_ATTACKS[1][sq], t) <==> t == 2 || t == 3 || t == 4 || t == 20 || t == 22
  {
    Pow2Lit0(); Pow2Lit1();
    Bits5(2, 3, 4, 20, 22, t);
  }

  lemma SilverGoteBits13(sq: nat, t: nat)
    requires sq == 13
    ensures Has(SILVER_ATTACKS[1][sq], t) <==> t == 3 || t == 4 || t == 5 || t == 21 || t == 23
  {
    Pow2Lit0(); Pow2Lit1();
    Bits5(3, 4, 5, 21, 23, t);
  }

  lemma SilverGoteBits14(sq: nat, t: nat)
    requires sq == 14
    ensures Has(SILVER_ATTACKS[1][sq], t) <==> t == 4 || t == 5 || t == 6 || t == 22 || t == 24
  {
    Pow2Lit0(); Pow2Lit1();
    Bits5(4, 5, 6, 22, 24, t);
  }

  lemma SilverGoteBits15(sq: nat, t: nat)
    requires sq == 15
    ensures Has(SILVER_ATTACKS[1][sq], t) <==> t == 5 || t == 6 || t == 7 || t == 23 || t == 25
  {
    Pow2Lit0(); Pow2Lit1();
    Bits5(5, 6, 7, 23, 25, t);
  }

  lemma SilverGoteBits16(sq: nat, t: nat)
    requires sq == 16
    ensures Has(SILVER_ATTACKS[1][sq], t) <==> t == 6 || t == 7 || t == 8 || t == 24 || t == 26
  {
    Pow2Lit0(); Pow2Lit1();
    Bits5(6, 7, 8, 24, 26, t);
  }

  lemma SilverGoteBits17(sq: nat, t: nat)
    requires sq == 17
    ensures Has(SILVER_ATTACKS[1][sq], t) <==> t == 7 || t == 8 || t == 25
  {
    Pow2Lit0(); Pow2Lit1();
    Bits3(7, 8, 25, t);
  }

  lemma SilverGoteBits18(sq: nat, t: nat)
    requires sq == 18
    ensures Has(SILVER_ATTACKS[1][sq], t) <==> t == 9 || t == 10 || t == 28
  {
    Pow2Lit0(); Pow2Lit1();
    Bits3(9, 10, 28, t);
  }

  lemma SilverGoteBits19(sq: nat, t: nat)
    requires sq == 19
    ensures Has(SILVER_ATTACKS[1][sq], t) <==> t == 9 || t == 10 || t == 11 || t == 27 || t == 29
  {
    Pow2Lit0(); Pow2Lit1();
    Bits5(9, 10, 11, 27, 29, t);
  }

  lemma SilverGoteBits20(sq: nat, t: nat)
    requires sq == 20
    ensures Has(SILVER_ATTACKS[1][sq], t) <==> t == 10 || t == 11 || t == 12 || t == 28 || t == 30
  {
    Pow2Lit0(); Pow2Lit1();
    Bits5(10, 11, 12, 28, 30, t);
  }

  lemma SilverGoteBits21(sq: nat, t: nat)
    requires sq == 21
    ensures Has(SILVER_ATTACKS[1][sq], t) <==> t == 11 || t == 12 || t == 13 || t == 29 || t == 31
  {
    Pow2Lit0(); Pow2Lit1();
    Bits5(11, 12, 13, 29, 31, t);
  }

  lemma SilverGoteBits22(sq: nat, t: nat)
    requires sq == 22
    ensures Has(SILVER_ATTACKS[1][sq], t) <==> t == 12 || t == 13 || t == 14 || t == 30 || t == 32
  {
    Pow2Lit0(); Pow2Lit1(); Pow2Lit2();
    Bits5(12, 13, 14, 30, 32, t);
  }

  lemma SilverGoteBits23(sq: nat, t: nat)
    requires sq == 23
    ensures Has(SILVER_ATTACKS[1][sq], t) <==> t == 13 || t == 14 || t == 15 || t == 31 || t == 33
  {
    Pow2Lit0(); Pow2Lit1(); Pow2Lit2();
    Bits5(13, 14, 15, 31, 33, t);
  }

  lemma SilverGoteBits24(sq: nat, t: nat)
    requires sq == 24
    ensures Has(SILVER_ATTACKS[1][sq], t) <==> t == 14 || t == 15 || t == 16 || t == 32 || t == 34
  {
    Pow2Lit0(); Pow2Lit1(); Pow2Lit2();
    Bits5(14, 15, 16, 32, 34, t);
  }

  lemma SilverGoteBits25(sq: nat, t: nat)
    requires sq == 25
    ensures Has(SILVER_ATTACKS[1][sq], t) <==> t == 15 || t == 16 || t == 17 || t == 33 || t == 35
  {
    Pow2Lit0(); Pow2Lit1(); Pow2Lit2();
    Bits5(15, 16, 17, 33, 35, t);
  }

  lemma SilverGoteBits26(sq: nat, t: nat)
    requires sq == 26
    ensures Has(SILVER_ATTACKS[1][sq], t) <==> t == 16 || t == 17 || t == 34
  {
    Pow2Lit1(); Pow2Lit2();
    Bits3(16, 17, 34, t);
  }

  lemma SilverGoteBits27(sq: nat, t: nat)
    requires sq == 27
    ensures Has(SILVER_ATTACKS[1][sq], t) <==> t == 18 || t == 19 || t == 37
  {
    Pow2Lit1(); Pow2Lit2();
    Bits3(18, 19, 37, t);
  }

  lemma SilverGoteBits28(sq: nat, t: nat)
    requires sq == 28
    ensures Has(SILVER_ATTACKS[1][sq], t) <==> t == 18 || t == 19 || t == 20 || t == 36 || t == 38
  {
    Pow2Lit1(); Pow2Lit2();
    Bits5(18, 19, 20, 36, 38, t);
  }

  lemma SilverGoteBits29(sq: nat, t: nat)
    requires sq == 29
    ensures Has(SILVER_ATTACKS[1][sq], t) <==> t == 19 || t == 20 || t == 21 || t == 37 || t == 39
  {
    Pow2Lit1(); Pow2Lit2();
    Bits5(19, 20, 21, 37, 39, t);
  }

  lemma SilverGoteBits30(sq: nat, t: nat)
    requires sq == 30
    ensures Has(SILVER_ATTACKS[1][sq], t) <==> t == 20 || t == 21 || t == 22 || t == 38 || t == 40
  {
    Pow2Lit1(); Pow2Lit2();
    Bits5(20, 21, 22, 38, 40, t);
  }

  lemma SilverGoteBits31(sq: nat, t: nat)
    requires sq == 31
    ensures Has(SILVER_ATTACKS[1][sq], t) <==> t == 21 || t == 22 || t == 23 || t == 39 || t == 41
  {
    Pow2Lit1(); Pow2Lit2();
    Bits5(21, 22, 23, 39, 41, t);
  }

  lemma SilverGoteBits32(sq: nat, t: nat)
    requires sq == 32
    ensures Has(SILVER_ATTACKS[1][sq], t) <==> t == 22 || t == 23 || t == 24 || t == 40 || t == 42
  {
    Pow2Lit1(); Pow2Lit2();
    Bits5(22, 23, 24, 40, 42, t);
  }

  lemma SilverGoteBits33(sq: nat, t: nat)
    requires sq == 33
    ensures Has(SILVER_ATTACKS[1][sq], t) <==> t == 23 || t == 24 || t == 25 || t == 41 || t == 43
  {
    Pow2Lit1(); Pow2Lit2();
    Bits5(23, 24, 25, 41, 43, t);
  }

  lemma SilverGoteBits34(sq: nat, t: nat)
    requires sq == 34
    ensures Has(SILVER_ATTACKS[1][sq], t) <==> t == 24 || t == 25 || t == 26 || t == 42 || t == 44
  {
    Pow2Lit1(); Pow2Lit2();
    Bits5(24, 25, 26, 42, 44, t);
  }

  lemma SilverGoteBits35(sq: nat, t: nat)
    requires sq == 35
    ensures Has(SILVER_ATTACKS[1][sq], t) <==> t == 25 || t == 26 || t == 43
  {
    Pow2Lit1(); Pow2Lit2();
    Bits3(25, 26, 43, t);
  }

  lemma SilverGoteBits36(sq: nat, t: nat)
    requires sq == 36
    ensures Has(SILVER_ATTACKS[1][sq], t) <==> t == 27 || t == 28 || t == 46
  {
    Pow2Lit1(); Pow2Lit2();
    Bits3(27, 28, 46, t);
  }

  lemma SilverGoteBits37(sq: nat, t: nat)
    requires sq == 37
    ensures Has(SILVER_ATTACKS[1][sq], t) <==> t == 27 || t == 28 || t == 29 || t == 45 || t == 47
  {
    Pow2Lit1(); Pow2Lit2();
    Bits5(27, 28, 29, 45, 47, t);
  }

  lemma SilverGoteBits38(sq: nat, t: nat)
    requires sq == 38
    ensures Has(SILVER_ATTACKS[1][sq], t) <==> t == 28 || t == 29 || t == 30 || t == 46 || t == 48
  {
    Pow2Lit1(); Pow2Lit2(); Pow2Lit3();
    Bits5(28, 29, 30, 46, 48, t);
  }

  lemma SilverGoteBits39(sq: nat, t: nat)
    requires sq == 39
    ensures Has(SILVER_ATTACKS[1][sq], t) <==> t == 29 || t == 30 || t == 31 || t == 47 || t == 49
  {
    Pow2Lit1(); Pow2Lit2(); Pow2Lit3();
    Bits5(29, 30, 31, 47, 49, t);
  }

  lemma SilverGoteBits40(sq: nat, t: nat)
    requires sq == 40
    ensures Has(SILVER_ATTACKS[1][sq], t) <==> t == 30 || t == 31 || t == 32 || t == 48 || t == 50
  {
    Pow2Lit1(); Pow2Lit2(); Pow2Lit3();
    Bits5(30, 31, 32, 48, 50, t);
  }

  lemma SilverGoteBits41(sq: nat, t: nat)
    requires sq == 41
    ensures Has(SILVER_ATTACKS[1][sq], t) <==> t == 31 || t == 32 || t == 33 || t == 49 || t == 51
  {
    Pow2Lit1(); Pow2Lit2(); Pow2Lit3();
    Bits5(31, 32, 33, 49, 51, t);
  }

  lemma SilverGoteBits42(sq: nat, t: nat)
    requires sq == 42
    ensures Has(SILVER_ATTACKS[1][sq], t) <==> t == 32 || t == 33 || t == 34 || t == 50 || t == 52
  {
    Pow2Lit2(); Pow2Lit3();
    Bits5(32, 33, 34, 50, 52, t);
  }

  lemma SilverGoteBits43(sq: nat, t: nat)
    requires sq == 43
    ensures Has(SILVER_ATTACKS[1][sq], t) <==> t == 33 || t == 34 || t == 35 || t == 51 || t == 53
  {
    Pow2Lit2(); Pow2Lit3();
    Bits5(33, 34, 35, 51, 53, t);
  }

  lemma SilverGoteBits44(sq: nat, t: nat)
    requires sq == 44
    ensures Has(SILVER_ATTACKS[1][sq], t) <==> t == 34 || t == 35 || t == 52
  {
    Pow2Lit2(); Pow2Lit3();
    Bits3(34, 35, 52, t);
  }

  lemma SilverGoteBits45(sq: nat, t: nat)
    requires sq == 45
    ensures Has(SILVER_ATTACKS[1][sq], t) <==> t == 36 || t == 37 || t == 55
  {
    Pow2Lit2(); Pow2Lit3();
    Bits3(36, 37, 55, t);
  }

  lemma SilverGoteBits46(sq: nat, t: nat)
    requires sq == 46
    ensures Has(SILVER_ATTACKS[1][sq], t) <==> t == 36 || t == 37 || t == 38 || t == 54 || t == 56
  {
    Pow2Lit2(); Pow2Lit3();
    Bits5(36, 37, 38, 54, 56, t);
  }

  lemma SilverGoteBits47(sq: nat, t: nat)
    requires sq == 47
    ensures Has(SILVER_ATTACKS[1][sq], t) <==> t == 37 || t == 38 || t == 39 || t == 55 || t == 57
  {
    Pow2Lit2(); Pow2Lit3();
    Bits5(37, 38, 39, 55, 57, t);
  }

  lemma SilverGoteBits48(sq: nat, t: nat)
    requires sq == 48
    ensures Has(SILVER_ATTACKS[1][sq], t) <==> t == 38 || t == 39 || t == 40 || t == 56 || t == 58
  {
    Pow2Lit2(); Pow2Lit3();
    Bits5(38, 39, 40, 56, 58, t);
  }

  lemma SilverGoteBits49(sq: nat, t: nat)
    requires sq == 49
    ensures Has(SILVER_ATTACKS[1][sq], t) <==> t == 39 || t == 40 || t == 41 || t == 57 || t == 59
  {
    Pow2Lit2(); Pow2Lit3();
    Bits5(39, 40, 41, 57, 59, t);
  }

  lemma SilverGoteBits50(sq: nat, t: nat)
    requires sq == 50
    ensures Has(SILVER_ATTACKS[1][sq], t) <==> t == 40 || t == 41 || t == 42 || t == 58 || t == 60
  {
    Pow2Lit2(); Pow2Lit3();
    Bits5(40, 41, 42, 58, 60, t);
  }

  lemma SilverGoteBits51(sq: nat, t: nat)
    requires sq == 51
    ensures Has(SILVER_ATTACKS[1][sq], t) <==> t == 41 || t == 42 || t == 43 || t == 59 || t == 61
  {
    Pow2Lit2(); Pow2Lit3();
    Bits5(41, 42, 43, 59, 61, t);
  }

  lemma SilverGoteBits52(sq: nat, t: nat)
    requires sq == 52
    ensures Has(SILVER_ATTACKS[1][sq], t) <==> t == 42 || t == 43 || t == 44 || t == 60 || t == 62
  {
    Pow2Lit2(); Pow2Lit3();
    Bits5(42, 43, 44, 60, 62, t);
  }

  lemma SilverGoteBits53(sq: nat, t: nat)
    requires sq == 53
    ensures Has(SILVER_ATTACKS[1][sq], t) <==> t == 43 || t == 44 || t == 61
  {
    Pow2Lit2(); Pow2Lit3();
    Bits3(43, 44, 61, t);
  }

  lemma SilverGoteBits54(sq: nat, t: nat)
    requires sq == 54
    ensures Has(SILVER_ATTACKS[1][sq], t) <==> t == 45 || t == 46 || t == 64
  {
    Pow2Lit2(); Pow2Lit4();
    Bits3(45, 46, 64, t);
  }

  lemma SilverGoteBits55(sq: nat, t: nat)
    requires sq == 55
    ensures Has(SILVER_ATTACKS[1][sq], t) <==> t == 45 || t == 46 || t == 47 || t == 63 || t == 65
  {
    Pow2Lit2(); Pow2Lit3(); Pow2Lit4();
    Bits5(45, 46, 47, 63, 65, t);
  }

  lemma SilverGoteBits56(sq: nat, t: nat)
    requires sq == 56
    ensures Has(SILVER_ATTACKS[1][sq], t) <==> t == 46 || t == 47 || t == 48 || t == 64 || t == 66
  {
    Pow2Lit2(); Pow2Lit3(); Pow2Lit4();
    Bits5(46, 47, 48, 64, 66, t);
  }

  lemma SilverGoteBits57(sq: nat, t: nat)
    requires sq == 57
    ensures Has(SILVER_ATTACKS[1][sq], t) <==> t == 47 || t == 48 || t == 49 || t == 65 || t == 67
  {
    Pow2Lit2(); Pow2Lit3(); Pow2Lit4();
    Bits5(47, 48, 49, 65, 67, t);
  }

  lemma SilverGoteBits58(sq: nat, t: nat)
    requires sq == 58
    ensures Has(SILVER_ATTACKS[1][sq], t) <==> t == 48 || t == 49 || t == 50 || t == 66 || t == 68
  {
    Pow2Lit3(); Pow2Lit4();
    Bits5(48, 49, 50, 66, 68, t);
  }

  lemma SilverGoteBits59(sq: nat, t: nat)
    requires sq == 59
    ensures Has(SILVER_ATTACKS[1][sq], t) <==> t == 49 || t == 50 || t == 51 || t == 67 || t == 69
  {
    Pow2Lit3(); Pow2Lit4();
    Bits5(49, 50, 51, 67, 69, t);
  }

  lemma SilverGoteBits60(sq: nat, t: nat)
    requires sq == 60
    ensures Has(SILVER_ATTACKS[1][sq], t) <==> t == 50 || t == 51 || t == 52 || t == 68 || t == 70
  {
    Pow2Lit3(); Pow2Lit4();
    Bits5(50, 51, 52, 68, 70, t);
  }

  lemma SilverGoteBits61(sq: nat, t: nat)
    requires sq == 61
    ensures Has(SILVER_ATTACKS[1][sq], t) <==> t == 51 || t == 52 || t == 53 || t == 69 || t == 71
  {
    Pow2Lit3(); Pow2Lit4();
    Bits5(51, 52, 53, 69, 71, t);
  }

  lemma SilverGoteBits62(sq: nat, t: nat)
    requires sq == 62
    ensures Has(SILVER_ATTACKS[1][sq], t) <==> t == 52 || t == 53 || t == 70
  {
    Pow2Lit3(); Pow2Lit4();
    Bits3(52, 53, 70, t);
  }

  lemma SilverGoteBits63(sq: nat, t: nat)
    requires sq == 63
    ensures Has(SILVER_ATTACKS[1][sq], t) <==> t == 54 || t == 55 || t == 73
  {
    Pow2Lit3(); Pow2Lit4();
    Bits3(54, 55, 73, t);
  }

  lemma SilverGoteBits64(sq: nat, t: nat)
    requires sq == 64
    ensures Has(SILVER_ATTACKS[1][sq], t) <==> t == 54 || t == 55 || t == 56 || t == 72 || t == 74
  {
    Pow2Lit3(); Pow2Lit4();
    Bits5(54, 55, 56, 72, 74, t);
  }

  lemma SilverGoteBits65(sq: nat, t: nat)
    requires sq == 65
    ensures Has(SILVER_ATTACKS[1][sq], t) <==> t == 55 || t == 56 || t == 57 || t == 73 || t == 75
  {
    Pow2Lit3(); Pow2Lit4();
    Bits5(55, 56, 57, 73, 75, t);
  }

  lemma SilverGoteBits66(sq: nat, t: nat)
    requires sq == 66
    ensures Has(SILVER_ATTACKS[1][sq], t) <==> t == 56 || t == 57 || t == 58 || t == 74 || t == 76
  {
    Pow2Lit3(); Pow2Lit4();
    Bits5(56, 57, 58, 74, 76, t);
  }

  lemma SilverGoteBits67(sq: nat, t: nat)
    requires sq == 67
    ensures Has(SILVER_ATTACKS[1][sq], t) <==> t == 57 || t == 58 || t == 59 || t == 75 || t == 77
  {
    Pow2Lit3(); Pow2Lit4();
    Bits5(57, 58, 59, 75, 77, t);
  }

  lemma SilverGoteBits68(sq: nat, t: nat)
    requires sq == 68
    ensures Has(SILVER_ATTACKS[1][sq], t) <==> t == 58 || t == 59 || t == 60 || t == 76 || t == 78
  {
    Pow2Lit3(); Pow2Lit4();
    Bits5(58, 59, 60, 76, 78, t);
  }

  lemma SilverGoteBits69(sq: nat, t: nat)
    requires sq == 69
    ensures Has(SILVER_ATTACKS[1][sq], t) <==> t == 59 || t == 60 || t == 61 || t == 77 || t == 79
  {
    Pow2Lit3(); Pow2Lit4();
    Bits5(59, 60, 61, 77, 79, t);
  }

  lemma SilverGoteBits70(sq: nat, t: nat)
    requires sq == 70
    ensures Has(SILVER_ATTACKS[1][sq], t) <==> t == 60 || t == 61 || t == 62 || t == 78 || t == 80
  {
    Pow2Lit3(); Pow2Lit4(); Pow2Lit5();
    Bits5(60, 61, 62, 78, 80, t);
  }

  lemma SilverGoteBits71(sq: nat, t: nat)
    requires sq == 71
    ensures Has(SILVER_ATTACKS[1][sq], t) <==> t == 61 || t == 62 || t == 79
  {
    Pow2Lit3(); Pow2Lit4();
    Bits3(61, 62, 79, t);
  }

  lemma SilverGoteBits72(sq: nat, t: nat)
    requires sq == 72
    ensures Has(SILVER_ATTACKS[1][sq], t) <==> t == 63 || t == 64
  {
    Pow2Lit3(); Pow2Lit4();
    Bits2(63, 64, t);
  }

  lemma SilverGoteBits73(sq: nat, t: nat)
    requires sq == 73
    ensures Has(SILVER_ATTACKS[1][sq], t) <==> t == 63 || t == 64 || t == 65
  {
    Pow2Lit3(); Pow2Lit4();
    Bits3(63, 64, 65, t);
  }

  lemma SilverGoteBits74(sq: nat, t: nat)
    requires sq == 74
    ensures Has(SILVER_ATTACKS[1][sq], t) <==> t == 64 || t == 65 || t == 66
  {
    Pow2Lit4();
    Bits3(64, 65, 66, t);
  }

  lemma SilverGoteBits75(sq: nat, t: nat)
    requires sq == 75
    ensures Has(SILVER_ATTACKS[1][sq], t) <==> t == 65 || t == 66 || t == 67
  {
    Pow2Lit4();
    Bits3(65, 66, 67, t);
  }

  lemma SilverGoteBits76(sq: nat, t: nat)
    requires sq == 76
    ensures Has(SILVER_ATTACKS[1][sq], t) <==> t == 66 || t == 67 || t == 68
  {
    Pow2Lit4();
    Bits3(66, 67, 68, t);
  }

  lemma SilverGoteBits77(sq: nat, t: nat)
    requires sq == 77
    ensures Has(SILVER_ATTACKS[1][sq], t) <==> t == 67 || t == 68 || t == 69
  {
    Pow2Lit4();
    Bits3(67, 68, 69, t);
  }

  lemma SilverGoteBits78(sq: nat, t: nat)
    requires sq == 78
    ensures Has(SILVER_ATTACKS[1][sq], t) <==> t == 68 || t == 69 || t == 70
  {
    Pow2Lit4();
    Bits3(68, 69, 70, t);
  }

  lemma SilverGoteBits79(sq: nat, t: nat)
    requires sq == 79
    ensures Has(SILVER_ATTACKS[1][sq], t) <==> t == 69 || t == 70 || t == 71
  {
    Pow2Lit4();
    Bits3(69, 70, 71, t);
  }

  lemma SilverGoteBits80(sq: nat, t: nat)
    requires sq == 80
    ensures Has(SILVER_ATTACKS[1][sq], t) <==> t == 70 || t == 71
  {
    Pow2Lit4();
    Bits2(70, 71, t);
  }

  lemma SilverGoteRank0(sq: nat, t: nat)
    requires 0 <= sq < 9
    ensures Has(SILVER_ATTACKS[1][sq], t) <==> SilverStep(Gote, sq, t)
  {
    if sq == 0 {
      SilverGoteBits0(sq, t);
    } else if sq == 1 {
      SilverGoteBits1(sq, t);
    } else if sq == 2 {
      SilverGoteBits2(sq, t);
    } else if sq == 3 {
      SilverGoteBits3(sq, t);
    } else if sq == 4 {
      SilverGoteBits4(sq, t);
    } else if sq == 5 {
      SilverGoteBits5(sq, t);
    } else if sq == 6 {
      SilverGoteBits6(sq, t);
    } else if sq == 7 {
      SilverGoteBits7(sq, t);
    } else {
      SilverGoteBits8(sq, t);
    }
  }

  lemma SilverGoteRank1(sq: nat, t: nat)
    requires 9 <= sq < 18
    ensures Has(SILVER_ATTACKS[1][sq], t) <==> SilverStep(Gote, sq, t)
  {
    if sq == 9 {
      SilverGoteBits9(sq, t);
    } else if sq == 10 {
      SilverGoteBits10(sq, t);
    } else if sq == 11 {
      SilverGoteBits11(sq, t);
    } else if sq == 12 {
      SilverGoteBits12(sq, t);
    } else if sq == 13 {
      SilverGoteBits13(sq, t);
    } else if sq == 14 {
      SilverGoteBits14(sq, t);
    } else if sq == 15 {
      SilverGoteBits15(sq, t);
    } else if sq == 16 {
      SilverGoteBits16(sq, t);
    } else {
      SilverGoteBits17(sq, t);
    }
  }

  lemma SilverGoteRank2(sq: nat, t: nat)
    requires 18 <= sq < 27
    ensures Has(SILVER_ATTACKS[1][sq], t) <==> SilverStep(Gote, sq, t)
  {
    if sq == 18 {
      SilverGoteBits18(sq, t);
    } else if sq == 19 {
      SilverGoteBits19(sq, t);
    } else if sq == 20 {
      SilverGoteBits20(sq, t);
    } else if sq == 21 {
      SilverGoteBits21(sq, t);
    } else if sq == 22 {
      SilverGoteBits22(sq, t);
    } else if sq == 23 {
      SilverGoteBits23(sq, t);
    } else if sq == 24 {
      SilverGoteBits24(sq, t);
    } else if sq == 25 {
      SilverGoteBits25(sq, t);
    } else {
      SilverGoteBits26(sq, t);
    }
  }

  lemma SilverGoteRank3(sq: nat, t: nat)
    requires 27 <= sq < 36
    ensures Has(SILVER_ATTACKS[1][sq], t) <==> SilverStep(Gote, sq, t)
  {
    if sq == 27 {
      SilverGoteBits27(sq, t);
    } else if sq == 28 {
      SilverGoteBits28(sq, t);
    } else if sq == 29 {
      SilverGoteBits29(sq, t);
    } else if sq == 30 {
      SilverGoteBits30(sq, t);
    } else if sq == 31 {
      SilverGoteBits31(sq, t);
    } else if sq == 32 {
      SilverGoteBits32(sq, t);
    } else if sq == 33 {
      SilverGoteBits33(sq, t);
    } else if sq == 34 {
      SilverGoteBits34(sq, t);
    } else {
      SilverGoteBits35(sq, t);
    }
  }

  lemma SilverGoteRank4(sq: nat, t: nat)
    requires 36 <= sq < 45
    ensures Has(SILVER_ATTACKS[1][sq], t) <==> SilverStep(Gote, sq, t)
  {
    if sq == 36 {
      SilverGoteBits36(sq, t);
    } else if sq == 37 {
      SilverGoteBits37(sq, t);
    } else if sq == 38 {
      SilverGoteBits38(sq, t);
    } else if sq == 39 {
      SilverGoteBits39(sq, t);
    } else if sq == 40 {
      SilverGoteBits40(sq, t);
    } else if sq == 41 {
      SilverGoteBits41(sq, t);
    } else if sq == 42 {
      SilverGoteBits42(sq, t);
    } else if sq == 43 {
      SilverGoteBits43(sq, t);
    } else {
      SilverGoteBits44(sq, t);
    }
  }

  lemma SilverGoteRank5(sq: nat, t: nat)
    requires 45 <= sq < 54
    ensures Has(SILVER_ATTACKS[1][sq], t) <==> SilverStep(Gote, sq, t)
  {
    if sq == 45 {
      SilverGoteBits45(sq, t);
    } else if sq == 46 {
      SilverGoteBits46(sq, t);
    } else if sq == 47 {
      SilverGoteBits47(sq, t);
    } else if sq == 48 {
      SilverGoteBits48(sq, t);
    } else if sq == 49 {
      SilverGoteBits49(sq, t);
    } else if sq == 50 {
      SilverGoteBits50(sq, t);
    } else if sq == 51 {
      SilverGoteBits51(sq, t);
    } else if sq == 52 {
      SilverGoteBits52(sq, t);
    } else {
      SilverGoteBits53(sq, t);
    }
  }

  lemma SilverGoteRank6(sq: nat, t: nat)
    requires 54 <= sq < 63
    ensures Has(SILVER_ATTACKS[1][sq], t) <==> SilverStep(Gote, sq, t)
  {
    if sq == 54 {
      SilverGoteBits54(sq, t);
    } else if sq == 55 {
      SilverGoteBits55(sq, t);
    } else if sq == 56 {
      SilverGoteBits56(sq, t);
    } else if sq == 57 {
      SilverGoteBits57(sq, t);
    } else if sq == 58 {
      SilverGoteBits58(sq, t);
    } else if sq == 59 {
      SilverGoteBits59(sq, t);
    } else if sq == 60 {
      SilverGoteBits60(sq, t);
    } else if sq == 61 {
      SilverGoteBits61(sq, t);
    } else {
      SilverGoteBits62(sq, t);
    }
  }

  lemma SilverGoteRank7(sq: nat, t: nat)
    requires 63 <= sq < 72
    ensures Has(SILVER_ATTACKS[1][sq], t) <==> SilverStep(Gote, sq, t)
  {
    if sq == 63 {
      SilverGoteBits63(sq, t);
    } else if sq == 64 {
      SilverGoteBits64(sq, t);
    } else if sq == 65 {
      SilverGoteBits65(sq, t);
    } else if sq == 66 {
      SilverGoteBits66(sq, t);
    } else if sq == 67 {
      SilverGoteBits67(sq, t);
    } else if sq == 68 {
      SilverGoteBits68(sq, t);
    } else if sq == 69 {
      SilverGoteBits69(sq, t);
    } else if sq == 70 {
      SilverGoteBits70(sq, t);
    } else {
      SilverGoteBits71(sq, t);
    }
  }

  lemma SilverGoteRank8(sq: nat, t: nat)
    requires 72 <= sq < 81
    ensures Has(SILVER_ATTACKS[1][sq], t) <==> SilverStep(Gote, sq, t)
  {
    if sq < 77 {
      SilverGoteRank8Low(sq, t);
    } else {
      SilverGoteRank8High(sq, t);
    }
  }

  lemma SilverGoteRank8Low(sq: nat, t: nat)
    requires 72 <= sq < 77
    ensures Has(SILVER_ATTACKS[1][sq], t) <==> SilverStep(Gote, sq, t)
  {
    if sq == 72 {
      SilverGoteBits72(sq, t);
    } else if sq == 73 {
      SilverGoteBits73(sq, t);
    } else if sq == 74 {
      SilverGoteBits74(sq, t);
    } else if sq == 75 {
      SilverGoteBits75(sq, t);
    } else {
      SilverGoteBits76(sq, t);
    }
  }

  lemma SilverGoteRank8High(sq: nat, t: nat)
    requires 77 <= sq < 81
    ensures Has(SILVER_ATTACKS[1][sq], t) <==> SilverStep(Gote, sq, t)
  {
    if sq == 77 {
      SilverGoteBits77(sq, t);
    } else if sq == 78 {
      SilverGoteBits78(sq, t);
    } else if sq == 79 {
      SilverGoteBits79(sq, t);
    } else {
      SilverGoteBits80(sq, t);
    }
  }

  // ---------------------------------------------------------------------------
  // GOLD_ATTACKS, Sente
  // ---------------------------------------------------------------------------

  lemma GoldSenteBits0(sq: nat, t: nat)
    requires sq == 0
    ensures Has(GOLD_ATTACKS[0][sq], t) <==> t == 1 || t == 9 || t == 10
  {
    Pow2Lit0();
    Bits3(1, 9, 10, t);
  }

  lemma GoldSenteBits1(sq: nat, t: nat)
    requires sq == 1
    ensures Has(GOLD_ATTACKS[0][sq], t) <==> t == 0 || t == 2 || t == 9 || t == 10 || t == 11
  {
    Pow2Lit0();
    Bits5(0, 2, 9, 10, 11, t);
  }

  lemma GoldSenteBits2(sq: nat, t: nat)
    requires sq == 2
    ensures Has(GOLD_ATTACKS[0][sq], t) <==> t == 1 || t == 3 || t == 10 || t == 11 || t == 12
  {
    Pow2Lit0();
    Bits5(1, 3, 10, 11, 12, t);
  }

  lemma GoldSenteBits3(sq: nat, t: nat)
    requires sq == 3
    ensures Has(GOLD_ATTACKS[0][sq], t) <==> t == 2 || t == 4 || t == 11 || t == 12 || t == 13
  {
    Pow2Lit0();
    Bits5(2, 4, 11, 12, 13, t);
  }

  lemma GoldSenteBits4(sq: nat, t: nat)
    requires sq == 4
    ensures Has(GOLD_ATTACKS[0][sq], t) <==> t == 3 || t == 5 || t == 12 || t == 13 || t == 14
  {
    Pow2Lit0();
    Bits5(3, 5, 12, 13, 14, t);
  }

  lemma GoldSenteBits5(sq: nat, t: nat)
    requires sq == 5
    ensures Has(GOLD_ATTACKS[0][sq], t) <==> t == 4 || t == 6 || t == 13 || t == 14 || t == 15
  {
    Pow2Lit0();
    Bits5(4, 6, 13, 14, 15, t);
  }

  lemma GoldSenteBits6(sq: nat, t: nat)
    requires sq == 6
    ensures Has(GOLD_ATTACKS[0][sq], t) <==> t == 5 || t == 7 || t == 14 || t == 15 || t == 16
  {
    Pow2Lit0(); Pow2Lit1();
    Bits5(5, 7, 14, 15, 16, t);
  }

  lemma GoldSenteBits7(sq: nat, t: nat)
    requires sq == 7
    ensures Has(GOLD_ATTACKS[0][sq], t) <==> t == 6 || t == 8 || t == 15 || t == 16 || t == 17
  {
    Pow2Lit0(); Pow2Lit1();
    Bits5(6, 8, 15, 16, 17, t);
  }

  lemma GoldSenteBits8(sq: nat, t: nat)
    requires sq == 8
    ensures Has(GOLD_ATTACKS[0][sq], t) <==> t == 7 || t == 16 || t == 17
  {
    Pow2Lit0(); Pow2Lit1();
    Bits3(7, 16, 17, t);
  }

  lemma GoldSenteBits9(sq: nat, t: nat)
    requires sq == 9
    ensures Has(GOLD_ATTACKS[0][sq], t) <==> t == 0 || t == 10 || t == 18 || t == 19
  {
    Pow2Lit0(); Pow2Lit1();
    Bits4(0, 10, 18, 19, t);
  }

  lemma GoldSenteBits10(sq: nat, t: nat)
    requires sq == 10
    ensures Has(GOLD_ATTACKS[0][sq], t) <==> t == 1 || t == 9 || t == 11 || t == 18 || t == 19 || t == 20
  {
    Pow2Lit0(); Pow2Lit1();
    Bits6(1, 9, 11, 18, 19, 20, t);
  }

  lemma GoldSenteBits11(sq: nat, t: nat)
    requires sq == 11
    ensures Has(GOLD_ATTACKS[0][sq], t) <==> t == 2 || t == 10 || t == 12 || t == 19 || t == 20 || t == 21
  {
    Pow2Lit0(); Pow2Lit1();
    Bits6(2, 10, 12, 19, 20, 21, t);
  }

  lemma GoldSenteBits12(sq: nat, t: nat)
    requires sq == 12
    ensures Has(GOLD_ATTACKS[0][sq], t) <==> t == 3 || t == 11 || t == 13 || t == 20 || t == 21 || t == 22
  {
    Pow2Lit0(); Pow2Lit1();
    Bits6(3, 11, 13, 20, 21, 22, t);
  }

  lemma GoldSenteBits13(sq: nat, t: nat)
    requires sq == 13
    ensures Has(GOLD_ATTACKS[0][sq], t) <==> t == 4 || t == 12 || t == 14 || t == 21 || t == 22 || t == 23
  {
    Pow2Lit0(); Pow2Lit1();
    Bits6(4, 12, 14, 21, 22, 23, t);
  }

  lemma GoldSenteBits14(sq: nat, t: nat)
    requires sq == 14
    ensures Has(GOLD_ATTACKS[0][sq], t) <==> t == 5 || t == 13 || t == 15 || t == 22 || t == 23 || t == 24
  {
    Pow2Lit0(); Pow2Lit1();
    Bits6(5, 13, 15, 22, 23, 24, t);
  }

  lemma GoldSenteBits15(sq: nat, t: nat)
    requires sq == 15
    ensures Has(GOLD_ATTACKS[0][sq], t) <==> t == 6 || t == 14 || t == 16 || t == 23 || t == 24 || t == 25
  {
    Pow2Lit0(); Pow2Lit1();
    Bits6(6, 14, 16, 23, 24, 25, t);
  }

  lemma GoldSenteBits16(sq: nat, t: nat)
    requires sq == 16
    ensures Has(GOLD_ATTACKS[0][sq], t) <==> t == 7 || t == 15 || t == 17 || t == 24 || t == 25 || t == 26
  {
    Pow2Lit0(); Pow2Lit1();
    Bits6(7, 15, 17, 24, 25, 26, t);
  }

  lemma GoldSenteBits17(sq: nat, t: nat)
    requires sq == 17
    ensures Has(GOLD_ATTACKS[0][sq], t) <==> t == 8 || t == 16 || t == 25 || t == 26
  {
    Pow2Lit0(); Pow2Lit1();
    Bits4(8, 16, 25, 26, t);
  }

  lemma GoldSenteBits18(sq: nat, t: nat)
    requires sq == 18
    ensures Has(GOLD_ATTACKS[0][sq], t) <==> t == 9 || t == 19 || t == 27 || t == 28
  {
    Pow2Lit0(); Pow2Lit1();
    Bits4(9, 19, 27, 28, t);
  }

  lemma GoldSenteBits19(sq: nat, t: nat)
    requires sq == 19
    ensures Has(GOLD_ATTACKS[0][sq], t) <==> t == 10 || t == 18 || t == 20 || t == 27 || t == 28 || t == 29
  {
    Pow2Lit0(); Pow2Lit1();
    Bits6(10, 18, 20, 27, 28, 29, t);
  }

  lemma GoldSenteBits20(sq: nat, t: nat)
    requires sq == 20
    ensures Has(GOLD_ATTACKS[0][sq], t) <==> t == 11 || t == 19 || t == 21 || t == 28 || t == 29 || t == 30
  {
    Pow2Lit0(); Pow2Lit1();
    Bits6(11, 19, 21, 28, 29, 30, t);
  }

  lemma GoldSenteBits21(sq: nat, t: nat)
    requires sq == 21
    ensures Has(GOLD_ATTACKS[0][sq], t) <==> t == 12 || t == 20 || t == 22 || t == 29 || t == 30 || t == 31
  {
    Pow2Lit0(); Pow2Lit1();
    Bits6(12, 20, 22, 29, 30, 31, t);
  }

  lemma GoldSenteBits22(sq: nat, t: nat)
    requires sq == 22
    ensures Has(GOLD_ATTACKS[0][sq], t) <==> t == 13 || t == 21 || t == 23 || t == 30 || t == 31 || t == 32
  {
    Pow2Lit0(); Pow2Lit1(); Pow2Lit2();
    Bits6(13, 21, 23, 30, 31, 32, t);
  }

  lemma GoldSenteBits23(sq: nat, t: nat)
    requires sq == 23
    ensures Has(GOLD_ATTACKS[0][sq], t) <==> t == 14 || t == 22 || t == 24 || t == 31 || t == 32 || t == 33
  {
    Pow2Lit0(); Pow2Lit1(); Pow2Lit2();
    Bits6(14, 22, 24, 31, 32, 33, t);
  }

  lemma GoldSenteBits24(sq: nat, t: nat)
    requires sq == 24
    ensures Has(GOLD_ATTACKS[0][sq], t) <==> t == 15 || t == 23 || t == 25 || t == 32 || t == 33 || t == 34
  {
    Pow2Lit0(); Pow2Lit1(); Pow2Lit2();
    Bits6(15, 23, 25, 32, 33, 34, t);
  }

  lemma GoldSenteBits25(sq: nat, t: nat)
    requires sq == 25
    ensures Has(GOLD_ATTACKS[0][sq], t) <==> t == 16 || t == 24 || t == 26 || t == 33 || t == 34 || t == 35
  {
    Pow2Lit1(); Pow2Lit2();
    Bits6(16, 24, 26, 33, 34, 35, t);
  }

  lemma GoldSenteBits26(sq: nat, t: nat)
    requires sq == 26
    ensures Has(GOLD_ATTACKS[0][sq], t) <==> t == 17 || t == 25 || t == 34 || t == 35
  {
    Pow2Lit1(); Pow2Lit2();
    Bits4(17, 25, 34, 35, t);
  }

  lemma GoldSenteBits27(sq: nat, t: nat)
    requires sq == 27
    ensures Has(GOLD_ATTACKS[0][sq], t) <==> t == 18 || t == 28 || t == 36 || t == 37
  {
    Pow2Lit1(); Pow2Lit2();
    Bits4(18, 28, 36, 37, t);
  }

  lemma GoldSenteBits28(sq: nat, t: nat)
    requires sq == 28
    ensures Has(GOLD_ATTACKS[0][sq], t) <==> t == 19 || t == 27 || t == 29 || t == 36 || t == 37 || t == 38
  {
    Pow2Lit1(); Pow2Lit2();
    Bits6(19, 27, 29, 36, 37, 38, t);
  }

  lemma GoldSenteBits29(sq: nat, t: nat)
    requires sq == 29
    ensures Has(GOLD_ATTACKS[0][sq], t) <==> t == 20 || t == 28 || t == 30 || t == 37 || t == 38 || t == 39
  {
    Pow2Lit1(); Pow2Lit2();
    Bits6(20, 28, 30, 37, 38, 39, t);
  }

  lemma GoldSenteBits30(sq: nat, t: nat)
    requires sq == 30
    ensures Has(GOLD_ATTACKS[0][sq], t) <==> t == 21 || t == 29 || t == 31 || t == 38 || t == 39 || t == 40
  {
    Pow2Lit1(); Pow2Lit2();
    Bits6(21, 29, 31, 38, 39, 40, t);
  }

  lemma GoldSenteBits31(sq: nat, t: nat)
    requires sq == 31
    ensures Has(GOLD_ATTACKS[0][sq], t) <==> t == 22 || t == 30 || t == 32 || t == 39 || t == 40 || t == 41
  {
    Pow2Lit1(); Pow2Lit2();
    Bits6(22, 30, 32, 39, 40, 41, t);
  }

  lemma GoldSenteBits32(sq: nat, t: nat)
    requires sq == 32
    ensures Has(GOLD_ATTACKS[0][sq], t) <==> t == 23 || t == 31 || t == 33 || t == 40 || t == 41 || t == 42
  {
    Pow2Lit1(); Pow2Lit2();
    Bits6(23, 31, 33, 40, 41, 42, t);
  }

  lemma GoldSenteBits33(sq: nat, t: nat)
    requires sq == 33
    ensures Has(GOLD_ATTACKS[0][sq], t) <==> t == 24 || t == 32 || t == 34 || t == 41 || t == 42 || t == 43
  {
    Pow2Lit1(); Pow2Lit2();
    Bits6(24, 32, 34, 41, 42, 43, t);
  }

  lemma GoldSenteBits34(sq: nat, t: nat)
    requires sq == 34
    ensures Has(GOLD_ATTACKS[0][sq], t) <==> t == 25 || t == 33 || t == 35 || t == 42 || t == 43 || t == 44
  {
    Pow2Lit1(); Pow2Lit2();
    Bits6(25, 33, 35, 42, 43, 44, t);
  }

  lemma GoldSenteBits35(sq: nat, t: nat)
    requires sq == 35
    ensures Has(GOLD_ATTACKS[0][sq], t) <==> t == 26 || t == 34 || t == 43 || t == 44
  {
    Pow2Lit1(); Pow2Lit2();
    Bits4(26, 34, 43, 44, t);
  }

  lemma GoldSenteBits36(sq: nat, t: nat)
    requires sq == 36
    ensures Has(GOLD_ATTACKS[0][sq], t) <==> t == 27 || t == 37 || t == 45 || t == 46
  {
    Pow2Lit1(); Pow2Lit2();
    Bits4(27, 37, 45, 46, t);
  }

  lemma GoldSenteBits37(sq: nat, t: nat)
    requires sq == 37
    ensures Has(GOLD_ATTACKS[0][sq], t) <==> t == 28 || t == 36 || t == 38 || t == 45 || t == 46 || t == 47
  {
    Pow2Lit1(); Pow2Lit2();
    Bits6(28, 36, 38, 45, 46, 47, t);
  }

  lemma GoldSenteBits38(sq: nat, t: nat)
    requires sq == 38
    ensures Has(GOLD_ATTACKS[0][sq], t) <==> t == 29 || t == 37 || t == 39 || t == 46 || t == 47 || t == 48
  {
    Pow2Lit1(); Pow2Lit2(); Pow2Lit3();
    Bits6(29, 37, 39, 46, 47, 48, t);
  }

  lemma GoldSenteBits39(sq: nat, t: nat)
    requires sq == 39
    ensures Has(GOLD_ATTACKS[0][sq], t) <==> t == 30 || t == 38 || t == 40 || t == 47 || t == 48 || t == 49
  {
    Pow2Lit1(); Pow2Lit2(); Pow2Lit3();
    Bits6(30, 38, 40, 47, 48, 49, t);
  }

  lemma GoldSenteBits40(sq: nat, t: nat)
    requires sq == 40
    ensures Has(GOLD_ATTACKS[0][sq], t) <==> t == 31 || t == 39 || t == 41 || t == 48 || t == 49 || t == 50
  {
    Pow2Lit1(); Pow2Lit2(); Pow2Lit3();
    Bits6(31, 39, 41, 48, 49, 50, t);
  }

  lemma GoldSenteBits41(sq: nat, t: nat)
    requires sq == 41
    ensures Has(GOLD_ATTACKS[0][sq], t) <==> t == 32 || t == 40 || t == 42 || t == 49 || t == 50 || t == 51
  {
    Pow2Lit2(); Pow2Lit3();
    Bits6(32, 40, 42, 49, 50, 51, t);
  }

  lemma GoldSenteBits42(sq: nat, t: nat)
    requires sq == 42
    ensures Has(GOLD_ATTACKS[0][sq], t) <==> t == 33 || t == 41 || t == 43 || t == 50 || t == 51 || t == 52
  {
    Pow2Lit2(); Pow2Lit3();
    Bits6(33, 41, 43, 50, 51, 52, t);
  }

  lemma GoldSenteBits43(sq: nat, t: nat)
    requires sq == 43
    ensures Has(GOLD_ATTACKS[0][sq], t) <==> t == 34 || t == 42 || t == 44 || t == 51 || t == 52 || t == 53
  {
    Pow2Lit2(); Pow2Lit3();
    Bits6(34, 42, 44, 51, 52, 53, t);
  }

  lemma GoldSenteBits44(sq: nat, t: nat)
    requires sq == 44
    ensures Has(GOLD_ATTACKS[0][sq], t) <==> t == 35 || t == 43 || t == 52 || t == 53
  {
    Pow2Lit2(); Pow2Lit3();
    Bits4(35, 43, 52, 53, t);
  }

  lemma GoldSenteBits45(sq: nat, t: nat)
    requires sq == 45
    ensures Has(GOLD_ATTACKS[0][sq], t) <==> t == 36 || t == 46 || t == 54 || t == 55
  {
    Pow2Lit2(); Pow2Lit3();
    Bits4(36, 46, 54, 55, t);
  }

  lemma GoldSenteBits46(sq: nat, t: nat)
    requires sq == 46
    ensures Has(GOLD_ATTACKS[0][sq], t) <==> t == 37 || t == 45 || t == 47 || t == 54 || t == 55 || t == 56
  {
    Pow2Lit2(); Pow2Lit3();
    Bits6(37, 45, 47, 54, 55, 56, t);
  }

  lemma GoldSenteBits47(sq: nat, t: nat)
    requires sq == 47
    ensures Has(GOLD_ATTACKS[0][sq], t) <==> t == 38 || t == 46 || t == 48 || t == 55 || t == 56 || t == 57
  {
    Pow2Lit2(); Pow2Lit3();
    Bits6(38, 46, 48, 55, 56, 57, t);
  }

  lemma GoldSenteBits48(sq: nat, t: nat)
    requires sq == 48
    ensures Has(GOLD_ATTACKS[0][sq], t) <==> t == 39 || t == 47 || t == 49 || t == 56 || t == 57 || t == 58
  {
    Pow2Lit2(); Pow2Lit3();
    Bits6(39, 47, 49, 56, 57, 58, t);
  }

  lemma GoldSenteBits49(sq: nat, t: nat)
    requires sq == 49
    ensures Has(GOLD_ATTACKS[0][sq], t) <==> t == 40 || t == 48 || t == 50 || t == 57 || t == 58 || t == 59
  {
    Pow2Lit2(); Pow2Lit3();
    Bits6(40, 48, 50, 57, 58, 59, t);
  }

  lemma GoldSenteBits50(sq: nat, t: nat)
    requires sq == 50
    ensures Has(GOLD_ATTACKS[0][sq], t) <==> t == 41 || t == 49 || t == 51 || t == 58 || t == 59 || t == 60
  {
    Pow2Lit2(); Pow2Lit3();
    Bits6(41, 49, 51, 58, 59, 60, t);
  }

  lemma GoldSenteBits51(sq: nat, t: nat)
    requires sq == 51
    ensures Has(GOLD_ATTACKS[0][sq], t) <==> t == 42 || t == 50 || t == 52 || t == 59 || t == 60 || t == 61
  {
    Pow2Lit2(); Pow2Lit3();
    Bits6(42, 50, 52, 59, 60, 61, t);
  }

  lemma GoldSenteBits52(sq: nat, t: nat)
    requires sq == 52
    ensures Has(GOLD_ATTACKS[0][sq], t) <==> t == 43 || t == 51 || t == 53 || t == 60 || t == 61 || t == 62
  {
    Pow2Lit2(); Pow2Lit3();
    Bits6(43, 51, 53, 60, 61, 62, t);
  }

  lemma GoldSenteBits53(sq: nat, t: nat)
    requires sq == 53
    ensures Has(GOLD_ATTACKS[0][sq], t) <==> t == 44 || t == 52 || t == 61 || t == 62
  {
    Pow2Lit2(); Pow2Lit3();
    Bits4(44, 52, 61, 62, t);
  }

  lemma GoldSenteBits54(sq: nat, t: nat)
    requires sq == 54
    ensures Has(GOLD_ATTACKS[0][sq], t) <==> t == 45 || t == 55 || t == 63 || t == 64
  {
    Pow2Lit2(); Pow2Lit3(); Pow2Lit4();
    Bits4(45, 55, 63, 64, t);
  }

  lemma GoldSenteBits55(sq: nat, t: nat)
    requires sq == 55
    ensures Has(GOLD_ATTACKS[0][sq], t) <==> t == 46 || t == 54 || t == 56 || t == 63 || t == 64 || t == 65
  {
    Pow2Lit2(); Pow2Lit3(); Pow2Lit4();
    Bits6(46, 54, 56, 63, 64, 65, t);
  }

  lemma GoldSenteBits56(sq: nat, t: nat)
    requires sq == 56
    ensures Has(GOLD_ATTACKS[0][sq], t) <==> t == 47 || t == 55 || t == 57 || t == 64 || t == 65 || t == 66
  {
    Pow2Lit2(); Pow2Lit3(); Pow2Lit4();
    Bits6(47, 55, 57, 64, 65, 66, t);
  }

  lemma GoldSenteBits57(sq: nat, t: nat)
    requires sq == 57
    ensures Has(GOLD_ATTACKS[0][sq], t) <==> t == 48 || t == 56 || t == 58 || t == 65 || t == 66 || t == 67
  {
    Pow2Lit3(); Pow2Lit4();
    Bits6(48, 56, 58, 65, 66, 67, t);
  }

  lemma GoldSenteBits58(sq: nat, t: nat)
    requires sq == 58
    ensures Has(GOLD_ATTACKS[0][sq], t) <==> t == 49 || t == 57 || t == 59 || t == 66 || t == 67 || t == 68
  {
    Pow2Lit3(); Pow2Lit4();
    Bits6(49, 57, 59, 66, 67, 68, t);
  }

  lemma GoldSenteBits59(sq: nat, t: nat)
    requires sq == 59
    ensures Has(GOLD_ATTACKS[0][sq], t) <==> t == 50 || t == 58 || t == 60 || t == 67 || t == 68 || t == 69
  {
    Pow2Lit3(); Pow2Lit4();
    Bits6(50, 58, 60, 67, 68, 69, t);
  }

  lemma GoldSenteBits60(sq: nat, t: nat)
    requires sq == 60
    ensures Has(GOLD_ATTACKS[0][sq], t) <==> t == 51 || t == 59 || t == 61 || t == 68 || t == 69 || t == 70
  {
    Pow2Lit3(); Pow2Lit4();
    Bits6(51, 59, 61, 68, 69, 70, t);
  }

  lemma GoldSenteBits61(sq: nat, t: nat)
    requires sq == 61
    ensures Has(GOLD_ATTACKS[0][sq], t) <==> t == 52 || t == 60 || t == 62 || t == 69 || t == 70 || t == 71
  {
    Pow2Lit3(); Pow2Lit4();
    Bits6(52, 60, 62, 69, 70, 71, t);
  }

  lemma GoldSenteBits62(sq: nat, t: nat)
    requires sq == 62
    ensures Has(GOLD_ATTACKS[0][sq], t) <==> t == 53 || t == 61 || t == 70 || t == 71
  {
    Pow2Lit3(); Pow2Lit4();
    Bits4(53, 61, 70, 71, t);
  }

  lemma GoldSenteBits63(sq: nat, t: nat)
    requires sq == 63
    ensures Has(GOLD_ATTACKS[0][sq], t) <==> t == 54 || t == 64 || t == 72 || t == 73
  {
    Pow2Lit3(); Pow2Lit4();
    Bits4(54, 64, 72, 73, t);
  }

  lemma GoldSenteBits64(sq: nat, t: nat)
    requires sq == 64
    ensures Has(GOLD_ATTACKS[0][sq], t) <==> t == 55 || t == 63 || t == 65 || t == 72 || t == 73 || t == 74
  {
    Pow2Lit3(); Pow2Lit4();
    Bits6(55, 63, 65, 72, 73, 74, t);
  }

  lemma GoldSenteBits65(sq: nat, t: nat)
    requires sq == 65
    ensures Has(GOLD_ATTACKS[0][sq], t) <==> t == 56 || t == 64 || t == 66 || t == 73 || t == 74 || t == 75
  {
    Pow2Lit3(); Pow2Lit4();
    Bits6(56, 64, 66, 73, 74, 75, t);
  }

  lemma GoldSenteBits66(sq: nat, t: nat)
    requires sq == 66
    ensures Has(GOLD_ATTACKS[0][sq], t) <==> t == 57 || t == 65 || t == 67 || t == 74 || t == 75 || t == 76
  {
    Pow2Lit3(); Pow2Lit4();
    Bits6(57, 65, 67, 74, 75, 76, t);
  }

  lemma GoldSenteBits67(sq: nat, t: nat)
    requires sq == 67
    ensures Has(GOLD_ATTACKS[0][sq], t) <==> t == 58 || t == 66 || t == 68 || t == 75 || t == 76 || t == 77
  {
    Pow2Lit3(); Pow2Lit4();
    Bits6(58, 66, 68, 75, 76, 77, t);
  }

  lemma GoldSenteBits68(sq: nat, t: nat)
    requires sq == 68
    ensures Has(GOLD_ATTACKS[0][sq], t) <==> t == 59 || t == 67 || t == 69 || t == 76 || t == 77 || t == 78
  {
    Pow2Lit3(); Pow2Lit4();
    Bits6(59, 67, 69, 76, 77, 78, t);
  }

  lemma GoldSenteBits69(sq: nat, t: nat)
    requires sq == 69
    ensures Has(GOLD_ATTACKS[0][sq], t) <==> t == 60 || t == 68 || t == 70 || t == 77 || t == 78 || t == 79
  {
    Pow2Lit3(); Pow2Lit4();
    Bits6(60, 68, 70, 77, 78, 79, t);
  }

  lemma GoldSenteBits70(sq: nat, t: nat)
    requires sq == 70
    ensures Has(GOLD_ATTACKS[0][sq], t) <==> t == 61 || t == 69 || t == 71 || t == 78 || t == 79 || t == 80
  {
    Pow2Lit3(); Pow2Lit4(); Pow2Lit5();
    Bits6(61, 69, 71, 78, 79, 80, t);
  }

  lemma GoldSenteBits71(sq: nat, t: nat)
    requires sq == 71
    ensures Has(GOLD_ATTACKS[0][sq], t) <==> t == 62 || t == 70 || t == 79 || t == 80
  {
    Pow2Lit3(); Pow2Lit4(); Pow2Lit5();
    Bits4(62, 70, 79, 80, t);
  }

  lemma GoldSenteBits72(sq: nat, t: nat)
    requires sq == 72
    ensures Has(GOLD_ATTACKS[0][sq], t) <==> t == 63 || t == 73
  {
    Pow2Lit3(); Pow2Lit4();
    Bits2(63, 73, t);
  }

  lemma GoldSenteBits73(sq: nat, t: nat)
    requires sq == 73
    ensures Has(GOLD_ATTACKS[0][sq], t) <==> t == 64 || t == 72 || t == 74
  {
    Pow2Lit4();
    Bits3(64, 72, 74, t);
  }

  lemma GoldSenteBits74(sq: nat, t: nat)
    requires sq == 74
    ensures Has(GOLD_ATTACKS[0][sq], t) <==> t == 65 || t == 73 || t == 75
  {
    Pow2Lit4();
    Bits3(65, 73, 75, t);
  }

  lemma GoldSenteBits75(sq: nat, t: nat)
    requires sq == 75
    ensures Has(GOLD_ATTACKS[0][sq], t) <==> t == 66 || t == 74 || t == 76
  {
    Pow2Lit4();
    Bits3(66, 74, 76, t);
  }

  lemma GoldSenteBits76(sq: nat, t: nat)
    requires sq == 76
    ensures Has(GOLD_ATTACKS[0][sq], t) <==> t == 67 || t == 75 || t == 77
  {
    Pow2Lit4();
    Bits3(67, 75, 77, t);
  }

  lemma GoldSenteBits77(sq: nat, t: nat)
    requires sq == 77
    ensures Has(GOLD_ATTACKS[0][sq], t) <==> t == 68 || t == 76 || t == 78
  {
    Pow2Lit4();
    Bits3(68, 76, 78, t);
  }

  lemma GoldSenteBits78(sq: nat, t: nat)
    requires sq == 78
    ensures Has(GOLD_ATTACKS[0][sq], t) <==> t == 69 || t == 77 || t == 79
  {
    Pow2Lit4();
    Bits3(69, 77, 79, t);
  }

  lemma GoldSenteBits79(sq: nat, t: nat)
    requires sq == 79
    ensures Has(GOLD_ATTACKS[0][sq], t) <==> t == 70 || t == 78 || t == 80
  {
    Pow2Lit4(); Pow2Lit5();
    Bits3(70, 78, 80, t);
  }

  lemma GoldSenteBits80(sq: nat, t: nat)
    requires sq == 80
    ensures Has(GOLD_ATTACKS[0][sq], t) <==> t == 71 || t == 79 || t == 81
  {
    Pow2Lit4(); Pow2Lit5();
    Bits3(71, 79, 81, t);
  }

  lemma GoldSenteRank0(sq: nat, t: nat)
    requires 0 <= sq < 9
    ensures Has(GOLD_ATTACKS[0][sq], t) <==> GoldStep(Sente, sq, t)
  {
    if sq == 0 {
      GoldSenteBits0(sq, t);
    } else if sq == 1 {
      GoldSenteBits1(sq, t);
    } else if sq == 2 {
      GoldSenteBits2(sq, t);
    } else if sq == 3 {
      GoldSenteBits3(sq, t);
    } else if sq == 4 {
      GoldSenteBits4(sq, t);
    } else if sq == 5 {
      GoldSenteBits5(sq, t);
    } else if sq == 6 {
      GoldSenteBits6(sq, t);
    } else if sq == 7 {
      GoldSenteBits7(sq, t);
    } else {
      GoldSenteBits8(sq, t);
    }
  }

  lemma GoldSenteRank1(sq: nat, t: nat)
    requires 9 <= sq < 18
    ensures Has(GOLD_ATTACKS[0][sq], t) <==> GoldStep(Sente, sq, t)
  {
    if sq == 9 {
      GoldSenteBits9(sq, t);
    } else if sq == 10 {
      GoldSenteBits10(sq, t);
    } else if sq == 11 {
      GoldSenteBits11(sq, t);
    } else if sq == 12 {
      GoldSenteBits12(sq, t);
    } else if sq == 13 {
      GoldSenteBits13(sq, t);
    } else if sq == 14 {
      GoldSenteBits14(sq, t);
    } else if sq == 15 {
      GoldSenteBits15(sq, t);
    } else if sq == 16 {
      GoldSenteBits16(sq, t);
    } else {
      GoldSenteBits17(sq, t);
    }
  }

  lemma GoldSenteRank2(sq: nat, t: nat)
    requires 18 <= sq < 27
    ensures Has(GOLD_ATTACKS[0][sq], t) <==> GoldStep(Sente, sq, t)
  {
    if sq == 18 {
      GoldSenteBits18(sq, t);
    } else if sq == 19 {
      GoldSenteBits19(sq, t);
    } else if sq == 20 {
      GoldSenteBits20(sq, t);
    } else if sq == 21 {
      GoldSenteBits21(sq, t);
    } else if sq == 22 {
      GoldSenteBits22(sq, t);
    } else if sq == 23 {
      GoldSenteBits23(sq, t);
    } else if sq == 24 {
      GoldSenteBits24(sq, t);
    } else if sq == 25 {
      GoldSenteBits25(sq, t);
    } else {
      GoldSenteBits26(sq, t);
    }
  }

  lemma GoldSenteRank3(sq: nat, t: nat)
    requires 27 <= sq < 36
    ensures Has(GOLD_ATTACKS[0][sq], t) <==> GoldStep(Sente, sq, t)
  {
    if sq == 27 {
      GoldSenteBits27(sq, t);
    } else if sq == 28 {
      GoldSenteBits28(sq, t);
    } else if sq == 29 {
      GoldSenteBits29(sq, t);
    } else if sq == 30 {
      GoldSenteBits30(sq, t);
    } else if sq == 31 {
      GoldSenteBits31(sq, t);
    } else if sq == 32 {
      GoldSenteBits32(sq, t);
    } else if sq == 33 {
      GoldSenteBits33(sq, t);
    } else if sq == 34 {
      GoldSenteBits34(sq, t);
    } else {
      GoldSenteBits35(sq, t);
    }
  }

  lemma GoldSenteRank4(sq: nat, t: nat)
    requires 36 <= sq < 45
    ensures Has(GOLD_ATTACKS[0][sq], t) <==> GoldStep(Sente, sq, t)
  {
    if sq == 36 {
      GoldSenteBits36(sq, t);
    } else if sq == 37 {
      GoldSenteBits37(sq, t);
    } else if sq == 38 {
      GoldSenteBits38(sq, t);
    } else if sq == 39 {
      GoldSenteBits39(sq, t);
    } else if sq == 40 {
      GoldSenteBits40(sq, t);
    } else if sq == 41 {
      GoldSenteBits41(sq, t);
    } else if sq == 42 {
      GoldSenteBits42(sq, t);
    } else if sq == 43 {
      GoldSenteBits43(sq, t);
    } else {
      GoldSenteBits44(sq, t);
    }
  }

  lemma GoldSenteRank5(sq: nat, t: nat)
    requires 45 <= sq < 54
    ensures Has(GOLD_ATTACKS[0][sq], t) <==> GoldStep(Sente, sq, t)
  {
    if sq == 45 {
      GoldSenteBits45(sq, t);
    } else if sq == 46 {
      GoldSenteBits46(sq, t);
    } else if sq == 47 {
      GoldSenteBits47(sq, t);
    } else if sq == 48 {
      GoldSenteBits48(sq, t);
    } else if sq == 49 {
      GoldSenteBits49(sq, t);
    } else if sq == 50 {
      GoldSenteBits50(sq, t);
    } else if sq == 51 {
      GoldSenteBits51(sq, t);
    } else if sq == 52 {
      GoldSenteBits52(sq, t);
    } else {
      GoldSenteBits53(sq, t);
    }
  }

  lemma GoldSenteRank6(sq: nat, t: nat)
    requires 54 <= sq < 63
    ensures Has(GOLD_ATTACKS[0][sq], t) <==> GoldStep(Sente, sq, t)
  {
    if sq == 54 {
      GoldSenteBits54(sq, t);
    } else if sq == 55 {
      GoldSenteBits55(sq, t);
    } else if sq == 56 {
      GoldSenteBits56(sq, t);
    } else if sq == 57 {
      GoldSenteBits57(sq, t);
    } else if sq == 58 {
      GoldSenteBits58(sq, t);
    } else if sq == 59 {
      GoldSenteBits59(sq, t);
    } else if sq == 60 {
      GoldSenteBits60(sq, t);
    } else if sq == 61 {
      GoldSenteBits61(sq, t);
    } else {
      GoldSenteBits62(sq, t);
    }
  }

  lemma GoldSenteRank7(sq: nat, t: nat)
    requires 63 <= sq < 72
    ensures Has(GOLD_ATTACKS[0][sq], t) <==> GoldStep(Sente, sq, t)
  {
    if sq < 68 {
      GoldSenteRank7Low(sq, t);
    } else {
      GoldSenteRank7High(sq, t);
    }
  }

  lemma GoldSenteRank7Low(sq: nat, t: nat)
    requires 63 <= sq < 68
    ensures Has(GOLD_ATTACKS[0][sq], t) <==> GoldStep(Sente, sq, t)
  {
    if sq == 63 {
      GoldSenteBits63(sq, t);
    } else if sq == 64 {
      GoldSenteBits64(sq, t);
    } else if sq == 65 {
      GoldSenteBits65(sq, t);
    } else if sq == 66 {
      GoldSenteBits66(sq, t);
    } else {
      GoldSenteBits67(sq, t);
    }
  }

  lemma GoldSenteRank7High(sq: nat, t: nat)
    requires 68 <= sq < 72
    ensures Has(GOLD_ATTACKS[0][sq], t) <==> GoldStep(Sente, sq, t)
  {
    if sq == 68 {
      GoldSenteBits68(sq, t);
    } else if sq == 69 {
      GoldSenteBits69(sq, t);
    } else if sq == 70 {
      GoldSenteBits70(sq, t);
    } else {
      GoldSenteBits71(sq, t);
    }
  }

  lemma GoldSenteRank8(sq: nat, t: nat)
    requires 72 <= sq < 81
    ensures Has(GOLD_ATTACKS[0][sq], t) <==> GoldStep(Sente, sq, t) || (sq == 80 && t == 81)
  {
    if sq < 77 {
      GoldSenteRank8Low(sq, t);
    } else {
      GoldSenteRank8High(sq, t);
    }
  }

  lemma GoldSenteRank8Low(sq: nat, t: nat)
    requires 72 <= sq < 77
    ensures Has(GOLD_ATTACKS[0][sq], t) <==> GoldStep(Sente, sq, t) || (sq == 80 && t == 81)
  {
    if sq == 72 {
      GoldSenteBits72(sq, t);
    } else if sq == 73 {
      GoldSenteBits73(sq, t);
    } else if sq == 74 {
      GoldSenteBits74(sq, t);
    } else if sq == 75 {
      GoldSenteBits75(sq, t);
    } else {
      GoldSenteBits76(sq, t);
    }
  }

  lemma GoldSenteRank8High(sq: nat, t: nat)
    requires 77 <= sq < 81
    ensures Has(GOLD_ATTACKS[0][sq], t) <==> GoldStep(Sente, sq, t) || (sq == 80 && t == 81)
  {
    if sq == 77 {
      GoldSenteBits77(sq, t);
    } else if sq == 78 {
      GoldSenteBits78(sq, t);
    } else if sq == 79 {
      GoldSenteBits79(sq, t);
    } else {
      GoldSenteBits80(sq, t);
    }
  }

  // ---------------------------------------------------------------------------
  // GOLD_ATTACKS, Gote
  // ---------------------------------------------------------------------------

  lemma GoldGoteBits0(sq: nat, t: nat)
    requires sq == 0
    ensures Has(GOLD_ATTACKS[1][sq], t) <==> t == 1 || t == 9
  {
    Pow2Lit0();
    Bits2(1, 9, t);
  }

  lemma GoldGoteBits1(sq: nat, t: nat)
    requires sq == 1
    ensures Has(GOLD_ATTACKS[1][sq], t) <==> t == 0 || t == 2 || t == 10
  {
    Pow2Lit0();
    Bits3(0, 2, 10, t);
  }

  lemma GoldGoteBits2(sq: nat, t: nat)
    requires sq == 2
    ensures Has(GOLD_ATTACKS[1][sq], t) <==> t == 1 || t == 3 || t == 11
  {
    Pow2Lit0();
    Bits3(1, 3, 11, t);
  }

  lemma GoldGoteBits3(sq: nat, t: nat)
    requires sq == 3
    ensures Has(GOLD_ATTACKS[1][sq], t) <==> t == 2 || t == 4 || t == 12
  {
    Pow2Lit0();
    Bits3(2, 4, 12, t);
  }

  lemma GoldGoteBits4(sq: nat, t: nat)
    requires sq == 4
    ensures Has(GOLD_ATTACKS[1][sq], t) <==> t == 3 || t == 5 || t == 13
  {
    Pow2Lit0();
    Bits3(3, 5, 13, t);
  }

  lemma GoldGoteBits5(sq: nat, t: nat)
    requires sq == 5
    ensures Has(GOLD_ATTACKS[1][sq], t) <==> t == 4 || t == 6 || t == 14
  {
    Pow2Lit0();
    Bits3(4, 6, 14, t);
  }

  lemma GoldGoteBits6(sq: nat, t: nat)
    requires sq == 6
    ensures Has(GOLD_ATTACKS[1][sq], t) <==> t == 5 || t == 7 || t == 15
  {
    Pow2Lit0();
    Bits3(5, 7, 15, t);
  }

  lemma GoldGoteBits7(sq: nat, t: nat)
    requires sq == 7
    ensures Has(GOLD_ATTACKS[1][sq], t) <==> t == 6 || t == 8 || t == 16
  {
    Pow2Lit0(); Pow2Lit1();
    Bits3(6, 8, 16, t);
  }

  lemma GoldGoteBits8(sq: nat, t: nat)
    requires sq == 8
    ensures Has(GOLD_ATTACKS[1][sq], t) <==> t == 7 || t == 17
  {
    Pow2Lit0(); Pow2Lit1();
    Bits2(7, 17, t);
  }

  lemma GoldGoteBits9(sq: nat, t: nat)
    requires sq == 9
    ensures Has(GOLD_ATTACKS[1][sq], t) <==> t == 0 || t == 1 || t == 10 || t == 18
  {
    Pow2Lit0(); Pow2Lit1();
    Bits4(0, 1, 10, 18, t);
  }

  lemma GoldGoteBits10(sq: nat, t: nat)
    requires sq == 10
    ensures Has(GOLD_ATTACKS[1][sq], t) <==> t == 0 || t == 1 || t == 2 || t == 9 || t == 11 || t == 19
  {
    Pow2Lit0(); Pow2Lit1();
    Bits6(0, 1, 2, 9, 11, 19, t);
  }

  lemma GoldGoteBits11(sq: nat, t: nat)
    requires sq == 11
    ensures Has(GOLD_ATTACKS[1][sq], t) <==> t == 1 || t == 2 || t == 3 || t == 10 || t == 12 || t == 20
  {
    Pow2Lit0(); Pow2Lit1();
    Bits6(1, 2, 3, 10, 12, 20, t);
  }

  lemma GoldGoteBits12(sq: nat, t: nat)
    requires sq == 12
    ensures Has(GOLD_ATTACKS[1][sq], t) <==> t == 2 || t == 3 || t == 4 || t == 11 || t == 13 || t == 21
  {
    Pow2Lit0(); Pow2Lit1();
    Bits6(2, 3, 4, 11, 13, 21, t);
  }

  lemma GoldGoteBits13(sq: nat, t: nat)
    requires sq == 13
    ensures Has(GOLD_ATTACKS[1][sq], t) <==> t == 3 || t == 4 || t == 5 || t == 12 || t == 14 || t == 22
  {
    Pow2Lit0(); Pow2Lit1();
    Bits6(3, 4, 5, 12, 14, 22, t);
  }

  lemma GoldGoteBits14(sq: nat, t: nat)
    requires sq == 14
    ensures Has(GOLD_ATTACKS[1][sq], t) <==> t == 4 || t == 5 || t == 6 || t == 13 || t == 15 || t == 23
  {
    Pow2Lit0(); Pow2Lit1();
    Bits6(4, 5, 6, 13, 15, 23, t);
  }

  lemma GoldGoteBits15(sq: nat, t: nat)
    requires sq == 15
    ensures Has(GOLD_ATTACKS[1][sq], t) <==> t == 5 || t == 6 || t == 7 || t == 14 || t == 16 || t == 24
  {
    Pow2Lit0(); Pow2Lit1();
    Bits6(5, 6, 7, 14, 16, 24, t);
  }

  lemma GoldGoteBits16(sq: nat, t: nat)
    requires sq == 16
    ensures Has(GOLD_ATTACKS[1][sq], t) <==> t == 6 || t == 7 || t == 8 || t == 15 || t == 17 || t == 25
  {
    Pow2Lit0(); Pow2Lit1();
    Bits6(6, 7, 8, 15, 17, 25, t);
  }

  lemma GoldGoteBits17(sq: nat, t: nat)
    requires sq == 17
    ensures Has(GOLD_ATTACKS[1][sq], t) <==> t == 7 || t == 8 || t == 16 || t == 26
  {
    Pow2Lit0(); Pow2Lit1();
    Bits4(7, 8, 16, 26, t);
  }

  lemma GoldGoteBits18(sq: nat, t: nat)
    requires sq == 18
    ensures Has(GOLD_ATTACKS[1][sq], t) <==> t == 9 || t == 10 || t == 19 || t == 27
  {
    Pow2Lit0(); Pow2Lit1();
    Bits4(9, 10, 19, 27, t);
  }

  lemma GoldGoteBits19(sq: nat, t: nat)
    requires sq == 19
    ensures Has(GOLD_ATTACKS[1][sq], t) <==> t == 9 || t == 10 || t == 11 || t == 18 || t == 20 || t == 28
  {
    Pow2Lit0(); Pow2Lit1();
    Bits6(9, 10, 11, 18, 20, 28, t);
  }

  lemma GoldGoteBits20(sq: nat, t: nat)
    requires sq == 20
    ensures Has(GOLD_ATTACKS[1][sq], t) <==> t == 10 || t == 11 || t == 12 || t == 19 || t == 21 || t == 29
  {
    Pow2Lit0(); Pow2Lit1();
    Bits6(10, 11, 12, 19, 21, 29, t);
  }

  lemma GoldGoteBits21(sq: nat, t: nat)
    requires sq == 21
    ensures Has(GOLD_ATTACKS[1][sq], t) <==> t == 11 || t == 12 || t == 13 || t == 20 || t == 22 || t == 30
  {
    Pow2Lit0(); Pow2Lit1();
    Bits6(11, 12, 13, 20, 22, 30, t);
  }

  lemma GoldGoteBits22(sq: nat, t: nat)
    requires sq == 22
    ensures Has(GOLD_ATTACKS[1][sq], t) <==> t == 12 || t == 13 || t == 14 || t == 21 || t == 23 || t == 31
  {
    Pow2Lit0(); Pow2Lit1();
    Bits6(12, 13, 14, 21, 23, 31, t);
  }

  lemma GoldGoteBits23(sq: nat, t: nat)
    requires sq == 23
    ensures Has(GOLD_ATTACKS[1][sq], t) <==> t == 13 || t == 14 || t == 15 || t == 22 || t == 24 || t == 32
  {
    Pow2Lit0(); Pow2Lit1(); Pow2Lit2();
    Bits6(13, 14, 15, 22, 24, 32, t);
  }

  lemma GoldGoteBits24(sq: nat, t: nat)
    requires sq == 24
    ensures Has(GOLD_ATTACKS[1][sq], t) <==> t == 14 || t == 15 || t == 16 || t == 23 || t == 25 || t == 33
  {
    Pow2Lit0(); Pow2Lit1(); Pow2Lit2();
    Bits6(14, 15, 16, 23, 25, 33, t);
  }

  lemma GoldGoteBits25(sq: nat, t: nat)
    requires sq == 25
    ensures Has(GOLD_ATTACKS[1][sq], t) <==> t == 15 || t == 16 || t == 17 || t == 24 || t == 26 || t == 34
  {
    Pow2Lit0(); Pow2Lit1(); Pow2Lit2();
    Bits6(15, 16, 17, 24, 26, 34, t);
  }

  lemma GoldGoteBits26(sq: nat, t: nat)
    requires sq == 26
    ensures Has(GOLD_ATTACKS[1][sq], t) <==> t == 16 || t == 17 || t == 25 || t == 35
  {
    Pow2Lit1(); Pow2Lit2();
    Bits4(16, 17, 25, 35, t);
  }

  lemma GoldGoteBits27(sq: nat, t: nat)
    requires sq == 27
    ensures Has(GOLD_ATTACKS[1][sq], t) <==> t == 18 || t == 19 || t == 28 || t == 36
  {
    Pow2Lit1(); Pow2Lit2();
    Bits4(18, 19, 28, 36, t);
  }

  lemma GoldGoteBits28(sq: nat, t: nat)
    requires sq == 28
    ensures Has(GOLD_ATTACKS[1][sq], t) <==> t == 18 || t == 19 || t == 20 || t == 27 || t == 29 || t == 37
  {
    Pow2Lit1(); Pow2Lit2();
    Bits6(18, 19, 20, 27, 29, 37, t);
  }

  lemma GoldGoteBits29(sq: nat, t: nat)
    requires sq == 29
    ensures Has(GOLD_ATTACKS[1][sq], t) <==> t == 19 || t == 20 || t == 21 || t == 28 || t == 30 || t == 38
  {
    Pow2Lit1(); Pow2Lit2();
    Bits6(19, 20, 21, 28, 30, 38, t);
  }

  lemma GoldGoteBits30(sq: nat, t: nat)
    requires sq == 30
    ensures Has(GOLD_ATTACKS[1][sq], t) <==> t == 20 || t == 21 || t == 22 || t == 29 || t == 31 || t == 39
  {
    Pow2Lit1(); Pow2Lit2();
    Bits6(20, 21, 22, 29, 31, 39, t);
  }

  lemma GoldGoteBits31(sq: nat, t: nat)
    requires sq == 31
    ensures Has(GOLD_ATTACKS[1][sq], t) <==> t == 21 || t == 22 || t == 23 || t == 30 || t == 32 || t == 40
  {
    Pow2Lit1(); Pow2Lit2();
    Bits6(21, 22, 23, 30, 32, 40, t);
  }

  lemma GoldGoteBits32(sq: nat, t: nat)
    requires sq == 32
    ensures Has(GOLD_ATTACKS[1][sq], t) <==> t == 22 || t == 23 || t == 24 || t == 31 || t == 33 || t == 41
  {
    Pow2Lit1(); Pow2Lit2();
    Bits6(22, 23, 24, 31, 33, 41, t);
  }

  lemma GoldGoteBits33(sq: nat, t: nat)
    requires sq == 33
    ensures Has(GOLD_ATTACKS[1][sq], t) <==> t == 23 || t == 24 || t == 25 || t == 32 || t == 34 || t == 42
  {
    Pow2Lit1(); Pow2Lit2();
    Bits6(23, 24, 25, 32, 34, 42, t);
  }

  lemma GoldGoteBits34(sq: nat, t: nat)
    requires sq == 34
    ensures Has(GOLD_ATTACKS[1][sq], t) <==> t == 24 || t == 25 || t == 26 || t == 33 || t == 35 || t == 43
  {
    Pow2Lit1(); Pow2Lit2();
    Bits6(24, 25, 26, 33, 35, 43, t);
  }

  lemma GoldGoteBits35(sq: nat, t: nat)
    requires sq == 35
    ensures Has(GOLD_ATTACKS[1][sq], t) <==> t == 25 || t == 26 || t == 34 || t == 44
  {
    Pow2Lit1(); Pow2Lit2();
    Bits4(25, 26, 34, 44, t);
  }

  lemma GoldGoteBits36(sq: nat, t: nat)
    requires sq == 36
    ensures Has(GOLD_ATTACKS[1][sq], t) <==> t == 27 || t == 28 || t == 37 || t == 45
  {
    Pow2Lit1(); Pow2Lit2();
    Bits4(27, 28, 37, 45, t);
  }

  lemma GoldGoteBits37(sq: nat, t: nat)
    requires sq == 37
    ensures Has(GOLD_ATTACKS[1][sq], t) <==> t == 27 || t == 28 || t == 29 || t == 36 || t == 38 || t == 46
  {
    Pow2Lit1(); Pow2Lit2();
    Bits6(27, 28, 29, 36, 38, 46, t);
  }

  lemma GoldGoteBits38(sq: nat, t: nat)
    requires sq == 38
    ensures Has(GOLD_ATTACKS[1][sq], t) <==> t == 28 || t == 29 || t == 30 || t == 37 || t == 39 || t == 47
  {
    Pow2Lit1(); Pow2Lit2();
    Bits6(28, 29, 30, 37, 39, 47, t);
  }

  lemma GoldGoteBits39(sq: nat, t: nat)
    requires sq == 39
    ensures Has(GOLD_ATTACKS[1][sq], t) <==> t == 29 || t == 30 || t == 31 || t == 38 || t == 40 || t == 48
  {
    Pow2Lit1(); Pow2Lit2(); Pow2Lit3();
    Bits6(29, 30, 31, 38, 40, 48, t);
  }

  lemma GoldGoteBits40(sq: nat, t: nat)
    requires sq == 40
    ensures Has(GOLD_ATTACKS[1][sq], t) <==> t == 30 || t == 31 || t == 32 || t == 39 || t == 41 || t == 49
  {
    Pow2Lit1(); Pow2Lit2(); Pow2Lit3();
    Bits6(30, 31, 32, 39, 41, 49, t);
  }

  lemma GoldGoteBits41(sq: nat, t: nat)
    requires sq == 41
    ensures Has(GOLD_ATTACKS[1][sq], t) <==> t == 31 || t == 32 || t == 33 || t == 40 || t == 42 || t == 50
  {
    Pow2Lit1(); Pow2Lit2(); Pow2Lit3();
    Bits6(31, 32, 33, 40, 42, 50, t);
  }

  lemma GoldGoteBits42(sq: nat, t: nat)
    requires sq == 42
    ensures Has(GOLD_ATTACKS[1][sq], t) <==> t == 32 || t == 33 || t == 34 || t == 41 || t == 43 || t == 51
  {
    Pow2Lit2(); Pow2Lit3();
    Bits6(32, 33, 34, 41, 43, 51, t);
  }

  lemma GoldGoteBits43(sq: nat, t: nat)
    requires sq == 43
    ensures Has(GOLD_ATTACKS[1][sq], t) <==> t == 33 || t == 34 || t == 35 || t == 42 || t == 44 || t == 52
  {
    Pow2Lit2(); Pow2Lit3();
    Bits6(33, 34, 35, 42, 44, 52, t);
  }

  lemma GoldGoteBits44(sq: nat, t: nat)
    requires sq == 44
    ensures Has(GOLD_ATTACKS[1][sq], t) <==> t == 34 || t == 35 || t == 43 || t == 53
  {
    Pow2Lit2(); Pow2Lit3();
    Bits4(34, 35, 43, 53, t);
  }

  lemma GoldGoteBits45(sq: nat, t: nat)
    requires sq == 45
    ensures Has(GOLD_ATTACKS[1][sq], t) <==> t == 36 || t == 37 || t == 46 || t == 54
  {
    Pow2Lit2(); Pow2Lit3();
    Bits4(36, 37, 46, 54, t);
  }

  lemma GoldGoteBits46(sq: nat, t: nat)
    requires sq == 46
    ensures Has(GOLD_ATTACKS[1][sq], t) <==> t == 36 || t == 37 || t == 38 || t == 45 || t == 47 || t == 55
  {
    Pow2Lit2(); Pow2Lit3();
    Bits6(36, 37, 38, 45, 47, 55, t);
  }

  lemma GoldGoteBits47(sq: nat, t: nat)
    requires sq == 47
    ensures Has(GOLD_ATTACKS[1][sq], t) <==> t == 37 || t == 38 || t == 39 || t == 46 || t == 48 || t == 56
  {
    Pow2Lit2(); Pow2Lit3();
    Bits6(37, 38, 39, 46, 48, 56, t);
  }

  lemma GoldGoteBits48(sq: nat, t: nat)
    requires sq == 48
    ensures Has(GOLD_ATTACKS[1][sq], t) <==> t == 38 || t == 39 || t == 40 || t == 47 || t == 49 || t == 57
  {
    Pow2Lit2(); Pow2Lit3();
    Bits6(38, 39, 40, 47, 49, 57, t);
  }

  lemma GoldGoteBits49(sq: nat, t: nat)
    requires sq == 49
    ensures Has(GOLD_ATTACKS[1][sq], t) <==> t == 39 || t == 40 || t == 41 || t == 48 || t == 50 || t == 58
  {
    Pow2Lit2(); Pow2Lit3();
    Bits6(39, 40, 41, 48, 50, 58, t);
  }

  lemma GoldGoteBits50(sq: nat, t: nat)
    requires sq == 50
    ensures Has(GOLD_ATTACKS[1][sq], t) <==> t == 40 || t == 41 || t == 42 || t == 49 || t == 51 || t == 59
  {
    Pow2Lit2(); Pow2Lit3();
    Bits6(40, 41, 42, 49, 51, 59, t);
  }

  lemma GoldGoteBits51(sq: nat, t: nat)
    requires sq == 51
    ensures Has(GOLD_ATTACKS[1][sq], t) <==> t == 41 || t == 42 || t == 43 || t == 50 || t == 52 || t == 60
  {
    Pow2Lit2(); Pow2Lit3();
    Bits6(41, 42, 43, 50, 52, 60, t);
  }

  lemma GoldGoteBits52(sq: nat, t: nat)
    requires sq == 52
    ensures Has(GOLD_ATTACKS[1][sq], t) <==> t == 42 || t == 43 || t == 44 || t == 51 || t == 53 || t == 61
  {
    Pow2Lit2(); Pow2Lit3();
    Bits6(42, 43, 44, 51, 53, 61, t);
  }

  lemma GoldGoteBits53(sq: nat, t: nat)
    requires sq == 53
    ensures Has(GOLD_ATTACKS[1][sq], t) <==> t == 43 || t == 44 || t == 52 || t == 62
  {
    Pow2Lit2(); Pow2Lit3();
    Bits4(43, 44, 52, 62, t);
  }

  lemma GoldGoteBits54(sq: nat, t: nat)
    requires sq == 54
    ensures Has(GOLD_ATTACKS[1][sq], t) <==> t == 45 || t == 46 || t == 55 || t == 63
  {
    Pow2Lit2(); Pow2Lit3();
    Bits4(45, 46, 55, 63, t);
  }

  lemma GoldGoteBits55(sq: nat, t: nat)
    requires sq == 55
    ensures Has(GOLD_ATTACKS[1][sq], t) <==> t == 45 || t == 46 || t == 47 || t == 54 || t == 56 || t == 64
  {
    Pow2Lit2(); Pow2Lit3(); Pow2Lit4();
    Bits6(45, 46, 47, 54, 56, 64, t);
  }

  lemma GoldGoteBits56(sq: nat, t: nat)
    requires sq == 56
    ensures Has(GOLD_ATTACKS[1][sq], t) <==> t == 46 || t == 47 || t == 48 || t == 55 || t == 57 || t == 65
  {
    Pow2Lit2(); Pow2Lit3(); Pow2Lit4();
    Bits6(46, 47, 48, 55, 57, 65, t);
  }

  lemma GoldGoteBits57(sq: nat, t: nat)
    requires sq == 57
    ensures Has(GOLD_ATTACKS[1][sq], t) <==> t == 47 || t == 48 || t == 49 || t == 56 || t == 58 || t == 66
  {
    Pow2Lit2(); Pow2Lit3(); Pow2Lit4();
    Bits6(47, 48, 49, 56, 58, 66, t);
  }

  lemma GoldGoteBits58(sq: nat, t: nat)
    requires sq == 58
    ensures Has(GOLD_ATTACKS[1][sq], t) <==> t == 48 || t == 49 || t == 50 || t == 57 || t == 59 || t == 67
  {
    Pow2Lit3(); Pow2Lit4();
    Bits6(48, 49, 50, 57, 59, 67, t);
  }

  lemma GoldGoteBits59(sq: nat, t: nat)
    requires sq == 59
    ensures Has(GOLD_ATTACKS[1][sq], t) <==> t == 49 || t == 50 || t == 51 || t == 58 || t == 60 || t == 68
  {
    Pow2Lit3(); Pow2Lit4();
    Bits6(49, 50, 51, 58, 60, 68, t);
  }

  lemma GoldGoteBits60(sq: nat, t: nat)
    requires sq == 60
    ensures Has(GOLD_ATTACKS[1][sq], t) <==> t == 50 || t == 51 || t == 52 || t == 59 || t == 61 || t == 69
  {
    Pow2Lit3(); Pow2Lit4();
    Bits6(50, 51, 52, 59, 61, 69, t);
  }

  lemma GoldGoteBits61(sq: nat, t: nat)
    requires sq == 61
    ensures Has(GOLD_ATTACKS[1][sq], t) <==> t == 51 || t == 52 || t == 53 || t == 60 || t == 62 || t == 70
  {
    Pow2Lit3(); Pow2Lit4();
    Bits6(51, 52, 53, 60, 62, 70, t);
  }

  lemma GoldGoteBits62(sq: nat, t: nat)
    requires sq == 62
    ensures Has(GOLD_ATTACKS[1][sq], t) <==> t == 52 || t == 53 || t == 61 || t == 71
  {
    Pow2Lit3(); Pow2Lit4();
    Bits4(52, 53, 61, 71, t);
  }

  lemma GoldGoteBits63(sq: nat, t: nat)
    requires sq == 63
    ensures Has(GOLD_ATTACKS[1][sq], t) <==> t == 54 || t == 55 || t == 64 || t == 72
  {
    Pow2Lit3(); Pow2Lit4();
    Bits4(54, 55, 64, 72, t);
  }

  lemma GoldGoteBits64(sq: nat, t: nat)
    requires sq == 64
    ensures Has(GOLD_ATTACKS[1][sq], t) <==> t == 54 || t == 55 || t == 56 || t == 63 || t == 65 || t == 73
  {
    Pow2Lit3(); Pow2Lit4();
    Bits6(54, 55, 56, 63, 65, 73, t);
  }

  lemma GoldGoteBits65(sq: nat, t: nat)
    requires sq == 65
    ensures Has(GOLD_ATTACKS[1][sq], t) <==> t == 55 || t == 56 || t == 57 || t == 64 || t == 66 || t == 74
  {
    Pow2Lit3(); Pow2Lit4();
    Bits6(55, 56, 57, 64, 66, 74, t);
  }

  lemma GoldGoteBits66(sq: nat, t: nat)
    requires sq == 66
    ensures Has(GOLD_ATTACKS[1][sq], t) <==> t == 56 || t == 57 || t == 58 || t == 65 || t == 67 || t == 75
  {
    Pow2Lit3(); Pow2Lit4();
    Bits6(56, 57, 58, 65, 67, 75, t);
  }

  lemma GoldGoteBits67(sq: nat, t: nat)
    requires sq == 67
    ensures Has(GOLD_ATTACKS[1][sq], t) <==> t == 57 || t == 58 || t == 59 || t == 66 || t == 68 || t == 76
  {
    Pow2Lit3(); Pow2Lit4();
    Bits6(57, 58, 59, 66, 68, 76, t);
  }

  lemma GoldGoteBits68(sq: nat, t: nat)
    requires sq == 68
    ensures Has(GOLD_ATTACKS[1][sq], t) <==> t == 58 || t == 59 || t == 60 || t == 67 || t == 69 || t == 77
  {
    Pow2Lit3(); Pow2Lit4();
    Bits6(58, 59, 60, 67, 69, 77, t);
  }

  lemma GoldGoteBits69(sq: nat, t: nat)
    requires sq == 69
    ensures Has(GOLD_ATTACKS[1][sq], t) <==> t == 59 || t == 60 || t == 61 || t == 68 || t == 70 || t == 78
  {
    Pow2Lit3(); Pow2Lit4();
    Bits6(59, 60, 61, 68, 70, 78, t);
  }

  lemma GoldGoteBits70(sq: nat, t: nat)
    requires sq == 70
    ensures Has(GOLD_ATTACKS[1][sq], t) <==> t == 60 || t == 61 || t == 62 || t == 69 || t == 71 || t == 79
  {
    Pow2Lit3(); Pow2Lit4();
    Bits6(60, 61, 62, 69, 71, 79, t);
  }

  lemma GoldGoteBits71(sq: nat, t: nat)
    requires sq == 71
    ensures Has(GOLD_ATTACKS[1][sq], t) <==> t == 61 || t == 62 || t == 70 || t == 80
  {
    Pow2Lit3(); Pow2Lit4(); Pow2Lit5();
    Bits4(61, 62, 70, 80, t);
  }

  lemma GoldGoteBits72(sq: nat, t: nat)
    requires sq == 72
    ensures Has(GOLD_ATTACKS[1][sq], t) <==> t == 63 || t == 64 || t == 73
  {
    Pow2Lit3(); Pow2Lit4();
    Bits3(63, 64, 73, t);
  }

  lemma GoldGoteBits73(sq: nat, t: nat)
    requires sq == 73
    ensures Has(GOLD_ATTACKS[1][sq], t) <==> t == 63 || t == 64 || t == 65 || t == 72 || t == 74
  {
    Pow2Lit3(); Pow2Lit4();
    Bits5(63, 64, 65, 72, 74, t);
  }

  lemma GoldGoteBits74(sq: nat, t: nat)
    requires sq == 74
    ensures Has(GOLD_ATTACKS[1][sq], t) <==> t == 64 || t == 65 || t == 66 || t == 73 || t == 75
  {
    Pow2Lit4();
    Bits5(64, 65, 66, 73, 75, t);
  }

  lemma GoldGoteBits75(sq: nat, t: nat)
    requires sq == 75
    ensures Has(GOLD_ATTACKS[1][sq], t) <==> t == 65 || t == 66 || t == 67 || t == 74 || t == 76
  {
    Pow2Lit4();
    Bits5(65, 66, 67, 74, 76, t);
  }

  lemma GoldGoteBits76(sq: nat, t: nat)
    requires sq == 76
    ensures Has(GOLD_ATTACKS[1][sq], t) <==> t == 66 || t == 67 || t == 68 || t == 75 || t == 77
  {
    Pow2Lit4();
    Bits5(66, 67, 68, 75, 77, t);
  }

  lemma GoldGoteBits77(sq: nat, t: nat)
    requires sq == 77
    ensures Has(GOLD_ATTACKS[1][sq], t) <==> t == 67 || t == 68 || t == 69 || t == 76 || t == 78
  {
    Pow2Lit4();
    Bits5(67, 68, 69, 76, 78, t);
  }

  lemma GoldGoteBits78(sq: nat, t: nat)
    requires sq == 78
    ensures Has(GOLD_ATTACKS[1][sq], t) <==> t == 68 || t == 69 || t == 70 || t == 77 || t == 79
  {
    Pow2Lit4();
    Bits5(68, 69, 70, 77, 79, t);
  }

  lemma GoldGoteBits79(sq: nat, t: nat)
    requires sq == 79
    ensures Has(GOLD_ATTACKS[1][sq], t) <==> t == 69 || t == 70 || t == 71 || t == 78 || t == 80
  {
    Pow2Lit4(); Pow2Lit5();
    Bits5(69, 70, 71, 78, 80, t);
  }

  lemma GoldGoteBits80(sq: nat, t: nat)
    requires sq == 80
    ensures Has(GOLD_ATTACKS[1][sq], t) <==> t == 70 || t == 71 || t == 79 || t == 81
  {
    Pow2Lit4(); Pow2Lit5();
    Bits4(70, 71, 79, 81, t);
  }

  lemma GoldGoteRank0(sq: nat, t: nat)
    requires 0 <= sq < 9
    ensures Has(GOLD_ATTACKS[1][sq], t) <==> GoldStep(Gote, sq, t)
  {
    if sq == 0 {
      GoldGoteBits0(sq, t);
    } else if sq == 1 {
      GoldGoteBits1(sq, t);
    } else if sq == 2 {
      GoldGoteBits2(sq, t);
    } else if sq == 3 {
      GoldGoteBits3(sq, t);
    } else if sq == 4 {
      GoldGoteBits4(sq, t);
    } else if sq == 5 {
      GoldGoteBits5(sq, t);
    } else if sq == 6 {
      GoldGoteBits6(sq, t);
    } else if sq == 7 {
      GoldGoteBits7(sq, t);
    } else {
      GoldGoteBits8(sq, t);
    }
  }

  lemma GoldGoteRank1(sq: nat, t: nat)
    requires 9 <= sq < 18
    ensures Has(GOLD_ATTACKS[1][sq], t) <==> GoldStep(Gote, sq, t)
  {
    if sq == 9 {
      GoldGoteBits9(sq, t);
    } else if sq == 10 {
      GoldGoteBits10(sq, t);
    } else if sq == 11 {
      GoldGoteBits11(sq, t);
    } else if sq == 12 {
      GoldGoteBits12(sq, t);
    } else if sq == 13 {
      GoldGoteBits13(sq, t);
    } else if sq == 14 {
      GoldGoteBits14(sq, t);
    } else if sq == 15 {
      GoldGoteBits15(sq, t);
    } else if sq == 16 {
      GoldGoteBits16(sq, t);
    } else {
      GoldGoteBits17(sq, t);
    }
  }

  lemma GoldGoteRank2(sq: nat, t: nat)
    requires 18 <= sq < 27
    ensures Has(GOLD_ATTACKS[1][sq], t) <==> GoldStep(Gote, sq, t)
  {
    if sq < 23 {
      GoldGoteRank2Low(sq, t);
    } else {
      GoldGoteRank2High(sq, t);
    }
  }

  lemma GoldGoteRank2Low(sq: nat, t: nat)
    requires 18 <= sq < 23
    ensures Has(GOLD_ATTACKS[1][sq], t) <==> GoldStep(Gote, sq, t)
  {
    if sq == 18 {
      GoldGoteBits18(sq, t);
    } else if sq == 19 {
      GoldGoteBits19(sq, t);
    } else if sq == 20 {
      GoldGoteBits20(sq, t);
    } else if sq == 21 {
      GoldGoteBits21(sq, t);
    } else {
      GoldGoteBits22(sq, t);
    }
  }

  lemma GoldGoteRank2High(sq: nat, t: nat)
    requires 23 <= sq < 27
    ensures Has(GOLD_ATTACKS[1][sq], t) <==> GoldStep(Gote, sq, t)
  {
    if sq == 23 {
      GoldGoteBits23(sq, t);
    } else if sq == 24 {
      GoldGoteBits24(sq, t);
    } else if sq == 25 {
      GoldGoteBits25(sq, t);
    } else {
      GoldGoteBits26(sq, t);
    }
  }

  lemma GoldGoteRank3(sq: nat, t: nat)
    requires 27 <= sq < 36
    ensures Has(GOLD_ATTACKS[1][sq], t) <==> GoldStep(Gote, sq, t)
  {
    if sq == 27 {
      GoldGoteBits27(sq, t);
    } else if sq == 28 {
      GoldGoteBits28(sq, t);
    } else if sq == 29 {
      GoldGoteBits29(sq, t);
    } else if sq == 30 {
      GoldGoteBits30(sq, t);
    } else if sq == 31 {
      GoldGoteBits31(sq, t);
    } else if sq == 32 {
      GoldGoteBits32(sq, t);
    } else if sq == 33 {
      GoldGoteBits33(sq, t);
    } else if sq == 34 {
      GoldGoteBits34(sq, t);
    } else {
      GoldGoteBits35(sq, t);
    }
  }

  lemma GoldGoteRank4(sq: nat, t: nat)
    requires 36 <= sq < 45
    ensures Has(GOLD_ATTACKS[1][sq], t) <==> GoldStep(Gote, sq, t)
  {
    if sq < 41 {
      GoldGoteRank4Low(sq, t);
    } else {
      GoldGoteRank4High(sq, t);
    }
  }

  lemma GoldGoteRank4Low(sq: nat, t: nat)
    requires 36 <= sq < 41
    ensures Has(GOLD_ATTACKS[1][sq], t) <==> GoldStep(Gote, sq, t)
  {
    if sq == 36 {
      GoldGoteBits36(sq, t);
    } else if sq == 37 {
      GoldGoteBits37(sq, t);
    } else if sq == 38 {
      GoldGoteBits38(sq, t);
    } else if sq == 39 {
      GoldGoteBits39(sq, t);
    } else {
      GoldGoteBits40(sq, t);
    }
  }

  lemma GoldGoteRank4High(sq: nat, t: nat)
    requires 41 <= sq < 45
    ensures Has(GOLD_ATTACKS[1][sq], t) <==> GoldStep(Gote, sq, t)
  {
    if sq == 41 {
      GoldGoteBits41(sq, t);
    } else if sq == 42 {
      GoldGoteBits42(sq, t);
    } else if sq == 43 {
      GoldGoteBits43(sq, t);
    } else {
      GoldGoteBits44(sq, t);
    }
  }

  lemma GoldGoteRank5(sq: nat, t: nat)
    requires 45 <= sq < 54
    ensures Has(GOLD_ATTACKS[1][sq], t) <==> GoldStep(Gote, sq, t)
  {
    if sq < 50 {
      GoldGoteRank5Low(sq, t);
    } else {
      GoldGoteRank5High(sq, t);
    }
  }

  lemma GoldGoteRank5Low(sq: nat, t: nat)
    requires 45 <= sq < 50
    ensures Has(GOLD_ATTACKS[1][sq], t) <==> GoldStep(Gote, sq, t)
  {
    if sq == 45 {
      GoldGoteBits45(sq, t);
    } else if sq == 46 {
      GoldGoteBits46(sq, t);
    } else if sq == 47 {
      GoldGoteBits47(sq, t);
    } else if sq == 48 {
      GoldGoteBits48(sq, t);
    } else {
      GoldGoteBits49(sq, t);
    }
  }

  lemma GoldGoteRank5High(sq: nat, t: nat)
    requires 50 <= sq < 54
    ensures Has(GOLD_ATTACKS[1][sq], t) <==> GoldStep(Gote, sq, t)
  {
    if sq == 50 {
      GoldGoteBits50(sq, t);
    } else if sq == 51 {
      GoldGoteBits51(sq, t);
    } else if sq == 52 {
      GoldGoteBits52(sq, t);
    } else {
      GoldGoteBits53(sq, t);
    }
  }

  lemma GoldGoteRank6(sq: nat, t: nat)
    requires 54 <= sq < 63
    ensures Has(GOLD_ATTACKS[1][sq], t) <==> GoldStep(Gote, sq, t)
  {
    if sq < 59 {
      GoldGoteRank6Low(sq, t);
    } else {
      GoldGoteRank6High(sq, t);
    }
  }

  lemma GoldGoteRank6Low(sq: nat, t: nat)
    requires 54 <= sq < 59
    ensures Has(GOLD_ATTACKS[1][sq], t) <==> GoldStep(Gote, sq, t)
  {
    if sq == 54 {
      GoldGoteBits54(sq, t);
    } else if sq == 55 {
      GoldGoteBits55(sq, t);
    } else if sq == 56 {
      GoldGoteBits56(sq, t);
    } else if sq == 57 {
      GoldGoteBits57(sq, t);
    } else {
      GoldGoteBits58(sq, t);
    }
  }

  lemma GoldGoteRank6High(sq: nat, t: nat)
    requires 59 <= sq < 63
    ensures Has(GOLD_ATTACKS[1][sq], t) <==> GoldStep(Gote, sq, t)
  {
    if sq == 59 {
      GoldGoteBits59(sq, t);
    } else if sq == 60 {
      GoldGoteBits60(sq, t);
    } else if sq == 61 {
      GoldGoteBits61(sq, t);
    } else {
      GoldGoteBits62(sq, t);
    }
  }

  lemma GoldGoteRank7(sq: nat, t: nat)
    requires 63 <= sq < 72
    ensures Has(GOLD_ATTACKS[1][sq], t) <==> GoldStep(Gote, sq, t)
  {
    if sq < 68 {
      GoldGoteRank7Low(sq, t);
    } else {
      GoldGoteRank7High(sq, t);
    }
  }

  lemma GoldGoteRank7Low(sq: nat, t: nat)
    requires 63 <= sq < 68
    ensures Has(GOLD_ATTACKS[1][sq], t) <==> GoldStep(Gote, sq, t)
  {
    if sq == 63 {
      GoldGoteBits63(sq, t);
    } else if sq == 64 {
      GoldGoteBits64(sq, t);
    } else if sq == 65 {
      GoldGoteBits65(sq, t);
    } else if sq == 66 {
      GoldGoteBits66(sq, t);
    } else {
      GoldGoteBits67(sq, t);
    }
  }

  lemma GoldGoteRank7High(sq: nat, t: nat)
    requires 68 <= sq < 72
    ensures Has(GOLD_ATTACKS[1][sq], t) <==> GoldStep(Gote, sq, t)
  {
    if sq == 68 {
      GoldGoteBits68(sq, t);
    } else if sq == 69 {
      GoldGoteBits69(sq, t);
    } else if sq == 70 {
      GoldGoteBits70(sq, t);
    } else {
      GoldGoteBits71(sq, t);
    }
  }

  lemma GoldGoteRank8(sq: nat, t: nat)
    requires 72 <= sq < 81
    ensures Has(GOLD_ATTACKS[1][sq], t) <==> GoldStep(Gote, sq, t) || (sq == 80 && t == 81)
  {
    if sq < 77 {
      GoldGoteRank8Low(sq, t);
    } else {
      GoldGoteRank8High(sq, t);
    }
  }

  lemma GoldGoteRank8Low(sq: nat, t: nat)
    requires 72 <= sq < 77
    ensures Has(GOLD_ATTACKS[1][sq], t) <==> GoldStep(Gote, sq, t) || (sq == 80 && t == 81)
  {
    if sq == 72 {
      GoldGoteBits72(sq, t);
    } else if sq == 73 {
      GoldGoteBits73(sq, t);
    } else if sq == 74 {
      GoldGoteBits74(sq, t);
    } else if sq == 75 {
      GoldGoteBits75(sq, t);
    } else {
      GoldGoteBits76(sq, t);
    }
  }

  lemma GoldGoteRank8High(sq: nat, t: nat)
    requires 77 <= sq < 81
    ensures Has(GOLD_ATTACKS[1][sq], t) <==> GoldStep(Gote, sq, t) || (sq == 80 && t == 81)
  {
    if sq == 77 {
      GoldGoteBits77(sq, t);
    } else if sq == 78 {
      GoldGoteBits78(sq, t);
    } else if sq == 79 {
      GoldGoteBits79(sq, t);
    } else {
      GoldGoteBits80(sq, t);
    }
  }

}
