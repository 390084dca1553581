/**
 * Attack detection (engine/detect_attack.py): whether a side attacks a
 * square with a knight, its king, a slider along an open line or a pawn.
 * The function is pure; it is proved equal to a geometric description.
 */
module DetectAttack {
  import opened Wrappers
  import opened PyInt
  import opened Bitboard
  import opened Attacks
  import opened Sliders
  import opened Positions

  // The kinds, as offsets within a side's six boards of `PieceOrder`.
  const Pawn: nat := 0
  const Knight: nat := 1
  const Bishop: nat := 2
  const Rook: nat := 3
  const Queen: nat := 4
  const King: nat := 5

  /** `pos.pieces[PIECE_TO_INDEX[letter]]` for the letter of `kind` in `side`'s case. */
  function PieceBoard(b: Board, side: Side, kind: nat): Bitboard
    requires |b.pieces| == 12 && kind < 6
  {
    b.pieces[side.FirstIndex() + kind]
  }

  /** Lines 6-19: the letters "PNBRQK" and "pnbrqk" name the boards `PieceBoard` reads. */
  lemma PieceBoardLetters(side: Side, kind: nat)
    requires kind < 6
    ensures var letters := if side == White then "PNBRQK" else "pnbrqk";
      PieceIndex(letters[kind]) == Some(side.FirstIndex() + kind)
  {
    var letters := if side == White then "PNBRQK" else "pnbrqk";
    assert PieceOrder[side.FirstIndex() + kind] == letters[kind];
    PieceIndexBijective(letters[kind], side.FirstIndex() + kind);
  }

  /**
   * Lines 34-52: the squares from which a pawn of `side` would attack `sq`.
   * Besides the board squares, `sq` may be -1, the square `pop_lsb` gives
   * for an empty board.
   */
  function PawnAttackers(sq: int, side: Side): Bitboard
    requires -1 <= sq < 64
  {
    if side == White then
      var attackers := 0;
      var attackers := if sq >= 9 && sq % 8 != 0 then Or(attackers, Shl(1, sq - 9)) else attackers;
      if sq >= 7 && sq % 8 != 7 then Or(attackers, Shl(1, sq - 7)) else attackers
    else
      var attackers := 0;
      var attackers := if sq <= 54 && sq % 8 != 7 then Or(attackers, Shl(1, sq + 9)) else attackers;
      if sq <= 56 && sq % 8 != 0 then Or(attackers, Shl(1, sq + 7)) else attackers
  }

  /** A pawn of `side` on `p` attacks `t`: one rank forward for its side and one file aside. */
  predicate PawnHits(side: Side, p: int, t: int)
  {
    0 <= p < 64 && 0 <= t < 64 &&
    Abs(FileOf(t) - FileOf(p)) == 1 &&
    RankOf(t) == RankOf(p) + (if side == White then 1 else -1)
  }

  /** The two squares a pawn can attack `sq` from, with the guards of lines 38, 40, 47 and 49. */
  lemma PawnHitsSquares(sq: Square, side: Side, p: int)
    ensures side == White ==> (PawnHits(side, p, sq) <==>
      (sq >= 9 && sq % 8 != 0 && p == sq - 9) || (sq >= 7 && sq % 8 != 7 && p == sq - 7))
    ensures side == Black ==> (PawnHits(side, p, sq) <==>
      (sq <= 54 && sq % 8 != 7 && p == sq + 9) || (sq <= 56 && sq % 8 != 0 && p == sq + 7))
  {
    var f, r := sq % 8, sq / 8;
    assert sq == 8 * r + f;
    if 0 <= p < 64 {
      var pf, pr := p % 8, p / 8;
      assert p == 8 * pr + pf;
    }
  }

  /** The set built by `attackers |= 1 << x` when `guard` holds. */
  lemma GuardedBit(acc: Bitboard, guard: bool, x: nat, p: nat)
    requires acc >= 0
    ensures var r := if guard then Or(acc, Shl(1, x)) else acc;
      r >= 0 && (IsSet(r, p) <==> IsSet(acc, p) || (guard && p == x))
  {
    BitValue(x);
    BitSquares(x, p);
    BoolSquares(acc, Bit(x), p);
    OrNonNegative(acc, Bit(x));
  }

  /**
   * The a- and h-file guards make the attacker set exactly the squares a
   * pawn attacks `sq` from: never straight ahead, never across the edge of
   * the board.
   */
  lemma PawnAttackersGeometry(sq: Square, side: Side, p: nat)
    ensures PawnAttackers(sq, side) >= 0
    ensures IsSet(PawnAttackers(sq, side), p) <==> PawnHits(side, p, sq)
  {
    EmptySquares(p);
    PawnHitsSquares(sq, side, p);
    if side == White {
      var g1 := sq >= 9 && sq % 8 != 0;
      var a := if g1 then Or(0, Shl(1, sq - 9)) else 0;
      GuardedBit(0, g1, if g1 then sq - 9 else 0, p);
      GuardedBit(a, sq >= 7 && sq % 8 != 7, if sq >= 7 then sq - 7 else 0, p);
    } else {
      var g1 := sq <= 54 && sq % 8 != 7;
      var a := if g1 then Or(0, Shl(1, sq + 9)) else 0;
      GuardedBit(0, g1, sq + 9, p);
      GuardedBit(a, sq <= 56 && sq % 8 != 0, sq + 7, p);
    }
  }

  /** Python's `table[i]`, where a negative index counts from the end. */
  function Entry(table: seq<Bitboard>, i: int): Bitboard
    requires -|table| <= i < |table|
  {
    if i < 0 then table[|table| + i] else table[i]
  }

  /**
   * `is_square_attacked(pos, sq, by_side)`, for a board square or for -1,
   * the square `pop_lsb` gives for an empty king board.
   */
  function IsSquareAttacked(b: Board, sq: int, bySide: Side): bool
    requires |b.pieces| == 12 && -1 <= sq < 64
  {
    var pawns := PieceBoard(b, bySide, Pawn);
    var knights := PieceBoard(b, bySide, Knight);
    var bishops := PieceBoard(b, bySide, Bishop);
    var rooks := PieceBoard(b, bySide, Rook);
    var queens := PieceBoard(b, bySide, Queen);
    var king := PieceBoard(b, bySide, King);
    if And(Entry(KnightAttacks, sq), knights) != 0 then true
    else if And(Entry(KingAttacks, sq), king) != 0 then true
    else if And(RookAttacks(sq, b.allOcc), Or(rooks, queens)) != 0 then true
    else if And(BishopAttacks(sq, b.allOcc), Or(bishops, queens)) != 0 then true
    else And(pawns, PawnAttackers(sq, bySide)) != 0
  }

  /** A rook on `t` and the square `s` see each other along a rank or file over `occ`. */
  predicate RookLine(s: int, t: int, occ: Bitboard)
  {
    Sees(s, t, 0, 1, occ) || Sees(s, t, 0, -1, occ) || Sees(s, t, 1, 0, occ) || Sees(s, t, -1, 0, occ)
  }

  /** A bishop on `t` and the square `s` see each other along a diagonal over `occ`. */
  predicate BishopLine(s: int, t: int, occ: Bitboard)
  {
    Sees(s, t, 1, 1, occ) || Sees(s, t, -1, 1, occ) || Sees(s, t, 1, -1, occ) || Sees(s, t, -1, -1, occ)
  }

  /** The attacks on `sq`, stated piece by piece in terms of board geometry. */
  ghost predicate AttackedBy(b: Board, sq: Square, side: Side)
    requires |b.pieces| == 12
  {
    (exists t: nat :: IsSet(PieceBoard(b, side, Knight), t) && KnightStep(sq, t)) ||
    (exists t: nat :: IsSet(PieceBoard(b, side, King), t) && KingStep(sq, t)) ||
    (exists t: nat :: (IsSet(PieceBoard(b, side, Rook), t) || IsSet(PieceBoard(b, side, Queen), t)) &&
      RookLine(sq, t, b.allOcc)) ||
    (exists t: nat :: (IsSet(PieceBoard(b, side, Bishop), t) || IsSet(PieceBoard(b, side, Queen), t)) &&
      BishopLine(sq, t, b.allOcc)) ||
    (exists t: nat :: IsSet(PieceBoard(b, side, Pawn), t) && PawnHits(side, t, sq))
  }

  /** The test `table[sq] & pieces` against a table entry of non-negative squares. */
  lemma TableHit(entry: Bitboard, pieces: Bitboard)
    requires entry >= 0
    ensures And(entry, pieces) != 0 <==> exists t: nat :: IsSet(pieces, t) && IsSet(entry, t)
  {
    AndNonZero(entry, pieces);
  }

  /** The test `attacks & (a | c)` with non-negative `attacks`. */
  lemma UnionHit(attacks: Bitboard, a: Bitboard, c: Bitboard)
    requires attacks >= 0
    ensures And(attacks, Or(a, c)) != 0 <==> exists t: nat :: (IsSet(a, t) || IsSet(c, t)) && IsSet(attacks, t)
  {
    AndNonZero(attacks, Or(a, c));
    forall t: nat
      ensures IsSet(Or(a, c), t) <==> IsSet(a, t) || IsSet(c, t)
    {
      BoolSquares(a, c, t);
    }
  }

  /** Lines 21-22 and 24-25: the knight and king tests. */
  lemma LeaperTests(b: Board, sq: Square, side: Side)
    requires |b.pieces| == 12
    ensures And(KnightAttacks[sq], PieceBoard(b, side, Knight)) != 0 <==>
      exists t: nat :: IsSet(PieceBoard(b, side, Knight), t) && KnightStep(sq, t)
    ensures And(KingAttacks[sq], PieceBoard(b, side, King)) != 0 <==>
      exists t: nat :: IsSet(PieceBoard(b, side, King), t) && KingStep(sq, t)
  {
    TableHit(KnightAttacks[sq], PieceBoard(b, side, Knight));
    TableHit(KingAttacks[sq], PieceBoard(b, side, King));
    forall t: nat
      ensures IsSet(KnightAttacks[sq], t) <==> KnightStep(sq, t)
      ensures IsSet(KingAttacks[sq], t) <==> KingStep(sq, t)
    {
      KnightAttacksGeometry(sq, t);
      KingAttacksGeometry(sq, t);
    }
  }

  /** Lines 27-31: the rook-or-queen and bishop-or-queen tests. */
  lemma SliderTests(b: Board, sq: Square, side: Side)
    requires |b.pieces| == 12
    ensures And(RookAttacks(sq, b.allOcc), Or(PieceBoard(b, side, Rook), PieceBoard(b, side, Queen))) != 0 <==>
      exists t: nat :: (IsSet(PieceBoard(b, side, Rook), t) || IsSet(PieceBoard(b, side, Queen), t)) &&
        RookLine(sq, t, b.allOcc)
    ensures And(BishopAttacks(sq, b.allOcc), Or(PieceBoard(b, side, Bishop), PieceBoard(b, side, Queen))) != 0 <==>
      exists t: nat :: (IsSet(PieceBoard(b, side, Bishop), t) || IsSet(PieceBoard(b, side, Queen), t)) &&
        BishopLine(sq, t, b.allOcc)
  {
    AttacksNonNegative(sq, b.allOcc);
    UnionHit(RookAttacks(sq, b.allOcc), PieceBoard(b, side, Rook), PieceBoard(b, side, Queen));
    UnionHit(BishopAttacks(sq, b.allOcc), PieceBoard(b, side, Bishop), PieceBoard(b, side, Queen));
    forall t: nat
      ensures IsSet(RookAttacks(sq, b.allOcc), t) <==> RookLine(sq, t, b.allOcc)
      ensures IsSet(BishopAttacks(sq, b.allOcc), t) <==> BishopLine(sq, t, b.allOcc)
    {
      RookGeometry(sq, b.allOcc, t);
      BishopGeometry(sq, b.allOcc, t);
    }
  }

  /** Lines 33-52: the pawn test. */
  lemma PawnTest(b: Board, sq: Square, side: Side)
    requires |b.pieces| == 12
    ensures And(PieceBoard(b, side, Pawn), PawnAttackers(sq, side)) != 0 <==>
      exists t: nat :: IsSet(PieceBoard(b, side, Pawn), t) && PawnHits(side, t, sq)
  {
    PawnAttackersGeometry(sq, side, 0);
    AndNonZero(PieceBoard(b, side, Pawn), PawnAttackers(sq, side));
    forall t: nat
      ensures IsSet(PawnAttackers(sq, side), t) <==> PawnHits(side, t, sq)
    {
      PawnAttackersGeometry(sq, side, t);
    }
  }

  /**
   * Lines 5-54: a square is reported attacked exactly when a knight or
   * king of the side stands a step away, a rook or queen sees it along an
   * open rank or file, a bishop or queen along an open diagonal, or a pawn
   * of the side attacks it diagonally forward; otherwise the answer is false.
   */
  lemma IsSquareAttackedGeometry(b: Board, sq: Square, side: Side)
    requires |b.pieces| == 12
    ensures IsSquareAttacked(b, sq, side) <==> AttackedBy(b, sq, side)
  {
    LeaperTests(b, sq, side);
    SliderTests(b, sq, side);
    PawnTest(b, sq, side);
  }

  // ---------------------------------------------------------------------------
  // Square -1.

  /**
   * The attacks `is_square_attacked` reports on square -1. The negative
   * index makes the knight and king tests read the tables' entries for h8.
   * Since `-1 % 8 == 7`, the rays start as from a square just below h1:
   * north up the h-file from h1, and north-west along the diagonal from g1.
   * A black pawn on g1 is the only pawn that hits it.
   */
  ghost predicate AttackedBelowH1(b: Board, side: Side)
    requires |b.pieces| == 12
  {
    KnightNearH8(b, side) || KingNearH8(b, side) ||
    RookBelowH1(b, side) || BishopBelowH1(b, side) || PawnBelowH1(b, side)
  }

  /** A knight of `side` a knight's move from h8. */
  ghost predicate KnightNearH8(b: Board, side: Side)
    requires |b.pieces| == 12
  {
    exists t: nat :: IsSet(PieceBoard(b, side, Knight), t) && KnightStep(63, t)
  }

  /** The king of `side` next to h8. */
  ghost predicate KingNearH8(b: Board, side: Side)
    requires |b.pieces| == 12
  {
    exists t: nat :: IsSet(PieceBoard(b, side, King), t) && KingStep(63, t)
  }

  /** A rook or queen of `side` on h1, or, with h1 empty, seeing h1 down the h-file. */
  ghost predicate RookBelowH1(b: Board, side: Side)
    requires |b.pieces| == 12
  {
    exists t: nat :: (IsSet(PieceBoard(b, side, Rook), t) || IsSet(PieceBoard(b, side, Queen), t)) &&
      (t == 7 || (!IsSet(b.allOcc, 7) && Sees(7, t, 0, 1, b.allOcc)))
  }

  /** A bishop or queen of `side` on g1, or, with g1 empty, seeing g1 down the diagonal from a7. */
  ghost predicate BishopBelowH1(b: Board, side: Side)
    requires |b.pieces| == 12
  {
    exists t: nat :: (IsSet(PieceBoard(b, side, Bishop), t) || IsSet(PieceBoard(b, side, Queen), t)) &&
      (t == 6 || (!IsSet(b.allOcc, 6) && Sees(6, t, -1, 1, b.allOcc)))
  }

  /** A black pawn on g1, when `side` is black. */
  predicate PawnBelowH1(b: Board, side: Side)
    requires |b.pieces| == 12
  {
    side == Black && IsSet(PieceBoard(b, side, Pawn), 6)
  }

  /** From -1 the north ray enters the board on h1 and then goes on as the ray from h1. */
  lemma NorthBelowH1(occ: Bitboard)
    ensures Ray(-1, North, occ) == if IsSet(occ, 7) then Bit(7) else Or(Bit(7), Ray(7, North, occ))
  {
    BlockerTest(occ, 7);
  }

  /** From -1 the north-west ray enters the board on g1 and then goes on as the ray from g1. */
  lemma NorthWestBelowH1(occ: Bitboard)
    ensures Ray(-1, NorthWest, occ) == if IsSet(occ, 6) then Bit(6) else Or(Bit(6), Ray(6, NorthWest, occ))
  {
    BlockerTest(occ, 6);
  }

  /** Every other ray from -1 leaves the board or wraps to file a at once. */
  lemma OtherRaysBelowH1(occ: Bitboard)
    ensures Ray(-1, South, occ) == 0 && Ray(-1, East, occ) == 0 && Ray(-1, West, occ) == 0
    ensures Ray(-1, NorthEast, occ) == 0 && Ray(-1, SouthEast, occ) == 0 && Ray(-1, SouthWest, occ) == 0
  {
  }

  /** A ray that enters on `e` and, past an empty `e`, goes on as the ray from `e`. */
  lemma EnteringRay(occ: Bitboard, e: Square, df: int, dr: int, r: Bitboard, t: nat)
    requires IsDirection(df, dr)
    requires r == if IsSet(occ, e) then Bit(e) else Or(Bit(e), Ray(e, 8 * dr + df, occ))
    ensures IsSet(r, t) <==> t == e || (!IsSet(occ, e) && Sees(e, t, df, dr, occ))
  {
    BitSquares(e, t);
    RayGeometry(e, df, dr, occ, t);
    BoolSquares(Bit(e), Ray(e, 8 * dr + df, occ), t);
  }

  /** The rook from -1 sees h1 and, past an empty h1, what a rook on h1 sees northward. */
  lemma RookRaysBelowH1(occ: Bitboard, t: nat)
    ensures IsSet(RookAttacks(-1, occ), t) <==> t == 7 || (!IsSet(occ, 7) && Sees(7, t, 0, 1, occ))
  {
    OtherRaysBelowH1(occ);
    NorthBelowH1(occ);
    FourRays(Ray(-1, North, occ), 0, 0, 0, t);
    EmptySquares(t);
    EnteringRay(occ, 7, 0, 1, Ray(-1, North, occ), t);
  }

  /** The bishop from -1 sees g1 and, past an empty g1, what a bishop on g1 sees north-west. */
  lemma BishopRaysBelowH1(occ: Bitboard, t: nat)
    ensures IsSet(BishopAttacks(-1, occ), t) <==> t == 6 || (!IsSet(occ, 6) && Sees(6, t, -1, 1, occ))
  {
    OtherRaysBelowH1(occ);
    NorthWestBelowH1(occ);
    FourRays(0, Ray(-1, NorthWest, occ), 0, 0, t);
    EmptySquares(t);
    EnteringRay(occ, 6, -1, 1, Ray(-1, NorthWest, occ), t);
  }

  /** No white pawn attacks -1; a black pawn does exactly from g1. */
  lemma PawnsBelowH1(pawns: Bitboard, side: Side)
    ensures And(pawns, PawnAttackers(-1, side)) != 0 <==> side == Black && IsSet(pawns, 6)
  {
    if side == White {
      assert PawnAttackers(-1, side) == 0;
      AndNonZero(pawns, 0);
      forall t: nat
        ensures !IsSet(0, t)
      {
        EmptySquares(t);
      }
    } else {
      assert PawnAttackers(-1, side) == Or(0, Shl(1, 6));
      GuardedBit(0, true, 6, 0);
      AndNonZero(pawns, Or(0, Shl(1, 6)));
      forall t: nat
        ensures IsSet(Or(0, Shl(1, 6)), t) <==> t == 6
      {
        EmptySquares(t);
        GuardedBit(0, true, 6, t);
      }
    }
  }

  /** Lines 21-25 on square -1: the knight and king tests read the entries for h8. */
  lemma LeaperTestsBelowH1(b: Board, side: Side)
    requires |b.pieces| == 12
    ensures And(Entry(KnightAttacks, -1), PieceBoard(b, side, Knight)) != 0 <==> KnightNearH8(b, side)
    ensures And(Entry(KingAttacks, -1), PieceBoard(b, side, King)) != 0 <==> KingNearH8(b, side)
  {
    LeaperTests(b, 63, side);
  }

  /** Lines 27-31 on square -1: the slider tests look up the h-file and along the g1 diagonal. */
  lemma SliderTestsBelowH1(b: Board, side: Side)
    requires |b.pieces| == 12
    ensures And(RookAttacks(-1, b.allOcc), Or(PieceBoard(b, side, Rook), PieceBoard(b, side, Queen))) != 0 <==>
      RookBelowH1(b, side)
    ensures And(BishopAttacks(-1, b.allOcc), Or(PieceBoard(b, side, Bishop), PieceBoard(b, side, Queen))) != 0 <==>
      BishopBelowH1(b, side)
  {
    AttacksNonNegative(-1, b.allOcc);
    UnionHit(RookAttacks(-1, b.allOcc), PieceBoard(b, side, Rook), PieceBoard(b, side, Queen));
    UnionHit(BishopAttacks(-1, b.allOcc), PieceBoard(b, side, Bishop), PieceBoard(b, side, Queen));
    forall t: nat
      ensures IsSet(RookAttacks(-1, b.allOcc), t) <==> t == 7 || (!IsSet(b.allOcc, 7) && Sees(7, t, 0, 1, b.allOcc))
      ensures IsSet(BishopAttacks(-1, b.allOcc), t) <==> t == 6 || (!IsSet(b.allOcc, 6) && Sees(6, t, -1, 1, b.allOcc))
    {
      RookRaysBelowH1(b.allOcc, t);
      BishopRaysBelowH1(b.allOcc, t);
    }
  }

  /** The five tests of lines 21-52, as `is_square_attacked` runs them on square -1. */
  lemma TestsBelowH1(b: Board, sq: int, side: Side)
    requires |b.pieces| == 12 && sq == -1
    ensures IsSquareAttacked(b, sq, side) <==>
      And(Entry(KnightAttacks, -1), PieceBoard(b, side, Knight)) != 0 ||
      And(Entry(KingAttacks, -1), PieceBoard(b, side, King)) != 0 ||
      And(RookAttacks(-1, b.allOcc), Or(PieceBoard(b, side, Rook), PieceBoard(b, side, Queen))) != 0 ||
      And(BishopAttacks(-1, b.allOcc), Or(PieceBoard(b, side, Bishop), PieceBoard(b, side, Queen))) != 0 ||
      And(PieceBoard(b, side, Pawn), PawnAttackers(-1, side)) != 0
  {
  }

  /**
   * Lines 5-54 on square -1 (the value `pop_lsb` gives for an empty board):
   * the knight and king tests look from h8, the sliders and pawns from just
   * below h1, as `AttackedBelowH1` describes.
   */
  lemma IsSquareAttackedBelowH1(b: Board, sq: int, side: Side)
    requires |b.pieces| == 12 && sq == -1
    ensures IsSquareAttacked(b, sq, side) <==> AttackedBelowH1(b, side)
  {
    TestsBelowH1(b, sq, side);
    LeaperTestsBelowH1(b, side);
    SliderTestsBelowH1(b, side);
    PawnsBelowH1(PieceBoard(b, side, Pawn), side);
  }
}
