/**
 * Sliding-piece attacks (engine/sliders.py): rays cast square by square
 * from a square in one direction, stopping at the board's edge, at a
 * wrap-around to the other side of the board, or on the first occupied
 * square, which is included.
 */
module Sliders {
  import opened PyInt
  import opened Bitboard

  const North: int := 8
  const South: int := -8
  const East: int := 1
  const West: int := -1
  const NorthEast: int := 9
  const NorthWest: int := 7
  const SouthEast: int := -7
  const SouthWest: int := -9

  /** `sq % 8`; Python's `%` by a positive divisor never yields a negative value, like Dafny's. */
  function FileOf(sq: int): (f: int)
    ensures 0 <= f < 8
  {
    sq % 8
  }

  /** `sq // 8`; Python's floor division by a positive divisor agrees with Dafny's `/`. */
  function RankOf(sq: int): (r: int)
    ensures 0 <= sq < 64 ==> 0 <= r < 8
    ensures sq == 8 * r + FileOf(sq)
  {
    sq / 8
  }

  /** Decreases with every step of a ray in direction `dir` that stays on the board. */
  function RayMeasure(cur: int, dir: int): int
  {
    if dir > 0 then 64 - cur else cur + 1
  }

  /**
   * What the loop of `ray_attacks` adds from `cur` on, where `file` is the
   * file it last accepted: the reference the loop is proved against.
   */
  function RayFrom(cur: int, file: int, dir: int, occ: Bitboard): Bitboard
    requires dir != 0
    decreases RayMeasure(cur, dir)
  {
    var next := cur + dir;
    var newFile := FileOf(next);
    if next < 0 || next > 63 then 0
    else if Abs(newFile - file) > 1 then 0
    else if And(occ, Bit(next)) != 0 then Bit(next)
    else Or(Bit(next), RayFrom(next, newFile, dir, occ))
  }

  /** The ray from `sq` in direction `dir` over the occupied squares `occ`. */
  function Ray(sq: int, dir: int, occ: Bitboard): Bitboard
    requires dir != 0
  {
    RayFrom(sq, FileOf(sq), dir, occ)
  }

  /**
   * The original's `ray_attacks`. A zero direction never leaves the start
   * square and loops for ever in the original, so it is excluded.
   */
  method RayAttacks(sq: int, dir: int, occ: Bitboard) returns (attacks: Bitboard)
    requires dir != 0
    ensures attacks == Ray(sq, dir, occ)
  {
    attacks := 0;
    var cur := sq;
    var curFile := FileOf(sq);
    while true
      invariant Or(attacks, RayFrom(cur, curFile, dir, occ)) == Ray(sq, dir, occ)
      decreases RayMeasure(cur, dir)
    {
      ghost var before := attacks;
      cur := cur + dir;
      var newFile := FileOf(cur);
      if cur < 0 || cur > 63 {
        break;
      }
      if Abs(newFile - curFile) > 1 {
        break;
      }
      attacks := Or(attacks, Bit(cur));
      if And(occ, Bit(cur)) != 0 {
        break;
      }
      OrAssociative(before, Bit(cur), RayFrom(cur, newFile, dir, occ));
      curFile := newFile;
    }
  }

  /** The original's `rook_attacks`: the four orthogonal rays. */
  function RookAttacks(sq: int, occ: Bitboard): Bitboard
  {
    var attacks := 0;
    var attacks := Or(attacks, Ray(sq, North, occ));
    var attacks := Or(attacks, Ray(sq, South, occ));
    var attacks := Or(attacks, Ray(sq, East, occ));
    var attacks := Or(attacks, Ray(sq, West, occ));
    attacks
  }

  /** The original's `bishop_attacks`: the four diagonal rays. */
  function BishopAttacks(sq: int, occ: Bitboard): Bitboard
  {
    var attacks := 0;
    var attacks := Or(attacks, Ray(sq, NorthEast, occ));
    var attacks := Or(attacks, Ray(sq, NorthWest, occ));
    var attacks := Or(attacks, Ray(sq, SouthEast, occ));
    var attacks := Or(attacks, Ray(sq, SouthWest, occ));
    attacks
  }

  /** The original's `queen_attacks`. */
  function QueenAttacks(sq: int, occ: Bitboard): Bitboard
  {
    Or(RookAttacks(sq, occ), BishopAttacks(sq, occ))
  }

  lemma {:induction false} RayFromNonNegative(cur: int, file: int, dir: int, occ: Bitboard)
    requires dir != 0
    ensures RayFrom(cur, file, dir, occ) >= 0
    decreases RayMeasure(cur, dir)
  {
    var next := cur + dir;
    if 0 <= next <= 63 {
      BitValue(next);
      if Abs(FileOf(next) - file) <= 1 && And(occ, Bit(next)) == 0 {
        RayFromNonNegative(next, FileOf(next), dir, occ);
        OrNonNegative(Bit(next), RayFrom(next, FileOf(next), dir, occ));
      }
    }
  }

  /** Slider attack sets are non-negative: they hold no sign bits. */
  lemma AttacksNonNegative(sq: int, occ: Bitboard)
    ensures RookAttacks(sq, occ) >= 0 && BishopAttacks(sq, occ) >= 0 && QueenAttacks(sq, occ) >= 0
  {
    RayFromNonNegative(sq, FileOf(sq), North, occ);
    RayFromNonNegative(sq, FileOf(sq), South, occ);
    RayFromNonNegative(sq, FileOf(sq), East, occ);
    RayFromNonNegative(sq, FileOf(sq), West, occ);
    RayFromNonNegative(sq, FileOf(sq), NorthEast, occ);
    RayFromNonNegative(sq, FileOf(sq), NorthWest, occ);
    RayFromNonNegative(sq, FileOf(sq), SouthEast, occ);
    RayFromNonNegative(sq, FileOf(sq), SouthWest, occ);
    var n, s, e, w := Ray(sq, North, occ), Ray(sq, South, occ), Ray(sq, East, occ), Ray(sq, West, occ);
    OrNonNegative(0, n);
    OrNonNegative(Or(0, n), s);
    OrNonNegative(Or(Or(0, n), s), e);
    OrNonNegative(Or(Or(Or(0, n), s), e), w);
    var ne, nw, se, sw := Ray(sq, NorthEast, occ), Ray(sq, NorthWest, occ), Ray(sq, SouthEast, occ), Ray(sq, SouthWest, occ);
    OrNonNegative(0, ne);
    OrNonNegative(Or(0, ne), nw);
    OrNonNegative(Or(Or(0, ne), nw), se);
    OrNonNegative(Or(Or(Or(0, ne), nw), se), sw);
    OrNonNegative(RookAttacks(sq, occ), BishopAttacks(sq, occ));
  }

  // ---------------------------------------------------------------------------
  // Geometry of a ray.

  function Sign(x: int): int
  {
    if x > 0 then 1 else if x < 0 then -1 else 0
  }

  /** A compass direction: one file step `df` and one rank step `dr`, not both zero. */
  predicate IsDirection(df: int, dr: int)
  {
    -1 <= df <= 1 && -1 <= dr <= 1 && (df != 0 || dr != 0)
  }

  /** `t` lies on the line from `s` in direction (`df`, `dr`), beyond `s`. */
  predicate InDirection(s: int, t: int, df: int, dr: int)
  {
    0 <= s < 64 && 0 <= t < 64 &&
    Sign(FileOf(t) - FileOf(s)) == df && Sign(RankOf(t) - RankOf(s)) == dr &&
    (df != 0 && dr != 0 ==> Abs(FileOf(t) - FileOf(s)) == Abs(RankOf(t) - RankOf(s)))
  }

  /** The number of king steps from `s` to `t`. */
  function Distance(s: int, t: int): nat
  {
    var df := Abs(FileOf(t) - FileOf(s));
    var dr := Abs(RankOf(t) - RankOf(s));
    if df < dr then dr else df
  }

  /** No occupied square lies on the line from `s` toward `t` strictly before `t`. */
  predicate Unblocked(s: int, t: int, df: int, dr: int, occ: Bitboard)
  {
    forall u :: 0 <= u < 64 && InDirection(s, u, df, dr) && Distance(s, u) < Distance(s, t) ==> !IsSet(occ, u)
  }

  /** The squares a slider on `s` sees in direction (`df`, `dr`) over `occ`. */
  predicate Sees(s: int, t: int, df: int, dr: int, occ: Bitboard)
  {
    InDirection(s, t, df, dr) && Unblocked(s, t, df, dr, occ)
  }

  /** One step from `s` in direction (`df`, `dr`), when the target is on the board. */
  lemma StepOnBoard(s: Square, df: int, dr: int, t: int)
    requires IsDirection(df, dr)
    requires 0 <= FileOf(s) + df < 8 && 0 <= RankOf(s) + dr < 8
    ensures var next := s + 8 * dr + df;
      0 <= next < 64 && FileOf(next) == FileOf(s) + df && RankOf(next) == RankOf(s) + dr &&
      InDirection(s, next, df, dr) && Distance(s, next) == 1 &&
      (InDirection(s, t, df, dr) <==> t == next || InDirection(next, t, df, dr)) &&
      (InDirection(next, t, df, dr) ==> Distance(s, t) == Distance(next, t) + 1)
  {
    var next := s + 8 * dr + df;
    var f, r := FileOf(s), RankOf(s);
    assert next == 8 * (r + dr) + (f + df);
    if 0 <= t < 64 {
      assert t == 8 * RankOf(t) + FileOf(t);
    }
  }

  /** A step from `s` off the board edge in direction (`df`, `dr`): nothing lies that way. */
  lemma StepOffBoard(s: Square, df: int, dr: int, occ: Bitboard, t: int)
    requires IsDirection(df, dr)
    requires !(0 <= FileOf(s) + df < 8 && 0 <= RankOf(s) + dr < 8)
    ensures RayFrom(s, FileOf(s), 8 * dr + df, occ) == 0
    ensures !InDirection(s, t, df, dr)
  {
    var f, r := FileOf(s), RankOf(s);
    var next := s + 8 * dr + df;
    assert next == 8 * (r + dr) + (f + df);
    if 0 <= f + df < 8 {
      assert next < 0 || next > 63;
    } else if f + df == 8 {
      assert next == 8 * (r + dr + 1);
    } else {
      assert next == 8 * (r + dr - 1) + 7;
    }
  }

  /** `occ & bit(next)`, the original's blocker test, asks whether `next` is occupied. */
  lemma BlockerTest(occ: Bitboard, next: nat)
    ensures And(occ, Bit(next)) != 0 <==> IsSet(occ, next)
  {
    AndBitNonZero(occ, next);
  }

  /**
   * The ray from an on-board square in a compass direction holds exactly
   * the squares on that line up to and including the first occupied one:
   * it never wraps around an edge and never passes a blocker.
   */
  lemma {:induction false} RayGeometry(s: Square, df: int, dr: int, occ: Bitboard, t: nat)
    requires IsDirection(df, dr)
    ensures IsSet(Ray(s, 8 * dr + df, occ), t) <==> Sees(s, t, df, dr, occ)
    decreases RayMeasure(s, 8 * dr + df)
  {
    var dir := 8 * dr + df;
    if !(0 <= FileOf(s) + df < 8 && 0 <= RankOf(s) + dr < 8) {
      StepOffBoard(s, df, dr, occ, t);
      EmptySquares(t);
    } else {
      var next := s + dir;
      StepOnBoard(s, df, dr, t);
      BlockerTest(occ, next);
      if IsSet(occ, next) {
        assert Ray(s, dir, occ) == Bit(next);
        BitSquares(next, t);
        if InDirection(s, t, df, dr) && t != next {
          StepOnBoard(s, df, dr, t);
          assert Distance(s, next) < Distance(s, t);
        }
      } else {
        assert Ray(s, dir, occ) == Or(Bit(next), Ray(next, dir, occ));
        IsSetIsDigit(Ray(s, dir, occ), t);
        HasOr(Bit(next), Ray(next, dir, occ), t);
        IsSetIsDigit(Bit(next), t);
        IsSetIsDigit(Ray(next, dir, occ), t);
        BitSquares(next, t);
        RayGeometry(next, df, dr, occ, t);
        if t != next && InDirection(next, t, df, dr) {
          UnblockedStep(s, df, dr, occ, t);
        }
        if t == next {
          NextUnblocked(s, df, dr, occ);
        }
      }
    }
  }

  /** Nothing lies strictly between `s` and its neighbour in a direction. */
  lemma NextUnblocked(s: Square, df: int, dr: int, occ: Bitboard)
    requires IsDirection(df, dr)
    requires 0 <= FileOf(s) + df < 8 && 0 <= RankOf(s) + dr < 8
    ensures Unblocked(s, s + 8 * dr + df, df, dr, occ)
  {
    StepOnBoard(s, df, dr, s);
  }

  /** Past an empty neighbour, the line from `s` is unblocked exactly where the line from the neighbour is. */
  lemma UnblockedStep(s: Square, df: int, dr: int, occ: Bitboard, t: int)
    requires IsDirection(df, dr)
    requires 0 <= FileOf(s) + df < 8 && 0 <= RankOf(s) + dr < 8
    requires !IsSet(occ, s + 8 * dr + df)
    requires InDirection(s + 8 * dr + df, t, df, dr)
    ensures Unblocked(s, t, df, dr, occ) <==> Unblocked(s + 8 * dr + df, t, df, dr, occ)
  {
    var next := s + 8 * dr + df;
    StepOnBoard(s, df, dr, t);
    if Unblocked(s, t, df, dr, occ) {
      forall u | InDirection(next, u, df, dr) && Distance(next, u) < Distance(next, t)
        ensures !IsSet(occ, u)
      {
        StepOnBoard(s, df, dr, u);
      }
    }
    if Unblocked(next, t, df, dr, occ) {
      forall u | InDirection(s, u, df, dr) && Distance(s, u) < Distance(s, t)
        ensures !IsSet(occ, u)
      {
        StepOnBoard(s, df, dr, u);
      }
    }
  }

  // ---------------------------------------------------------------------------
  // Consequences.

  /** A ray holds only board squares, never its own square, and at most seven steps away. */
  lemma RayOnBoard(s: Square, df: int, dr: int, occ: Bitboard, t: nat)
    requires IsDirection(df, dr)
    requires IsSet(Ray(s, 8 * dr + df, occ), t)
    ensures t < 64 && t != s && 1 <= Distance(s, t) <= 7
    ensures Abs(FileOf(t) - FileOf(s)) <= 7 && Abs(RankOf(t) - RankOf(s)) <= 7
  {
    RayGeometry(s, df, dr, occ, t);
  }

  /** The first occupied square on a ray is part of it, and nothing beyond it is. */
  lemma RayStopsAtBlocker(s: Square, df: int, dr: int, occ: Bitboard, b: nat, t: nat)
    requires IsDirection(df, dr)
    requires Sees(s, b, df, dr, occ) && IsSet(occ, b)
    requires InDirection(s, t, df, dr) && Distance(s, b) < Distance(s, t)
    ensures IsSet(Ray(s, 8 * dr + df, occ), b)
    ensures !IsSet(Ray(s, 8 * dr + df, occ), t)
  {
    RayGeometry(s, df, dr, occ, b);
    RayGeometry(s, df, dr, occ, t);
  }

  /** The eight named directions are the compass directions (file step, rank step). */
  lemma DirectionsAreCompass()
    ensures North == 8 * 1 + 0 && South == 8 * -1 + 0
    ensures East == 8 * 0 + 1 && West == 8 * 0 + -1
    ensures NorthEast == 8 * 1 + 1 && NorthWest == 8 * 1 + -1
    ensures SouthEast == 8 * -1 + 1 && SouthWest == 8 * -1 + -1
  {
  }

  /** Membership in a union of four rays. */
  lemma FourRays(a: Bitboard, b: Bitboard, c: Bitboard, d: Bitboard, t: nat)
    ensures IsSet(Or(Or(Or(Or(0, a), b), c), d), t) <==> IsSet(a, t) || IsSet(b, t) || IsSet(c, t) || IsSet(d, t)
  {
    var x := Or(Or(Or(Or(0, a), b), c), d);
    IsSetIsDigit(x, t);
    IsSetIsDigit(a, t);
    IsSetIsDigit(b, t);
    IsSetIsDigit(c, t);
    IsSetIsDigit(d, t);
    HasOr(Or(Or(Or(0, a), b), c), d, t);
    HasOr(Or(Or(0, a), b), c, t);
    HasOr(Or(0, a), b, t);
  }

  /** A rook sees exactly the squares it sees along the four orthogonal lines. */
  lemma RookGeometry(s: Square, occ: Bitboard, t: nat)
    ensures IsSet(RookAttacks(s, occ), t) <==>
      Sees(s, t, 0, 1, occ) || Sees(s, t, 0, -1, occ) || Sees(s, t, 1, 0, occ) || Sees(s, t, -1, 0, occ)
  {
    FourRays(Ray(s, North, occ), Ray(s, South, occ), Ray(s, East, occ), Ray(s, West, occ), t);
    RayGeometry(s, 0, 1, occ, t);
    RayGeometry(s, 0, -1, occ, t);
    RayGeometry(s, 1, 0, occ, t);
    RayGeometry(s, -1, 0, occ, t);
  }

  /** A bishop sees exactly the squares it sees along the four diagonals. */
  lemma BishopGeometry(s: Square, occ: Bitboard, t: nat)
    ensures IsSet(BishopAttacks(s, occ), t) <==>
      Sees(s, t, 1, 1, occ) || Sees(s, t, -1, 1, occ) || Sees(s, t, 1, -1, occ) || Sees(s, t, -1, -1, occ)
  {
    FourRays(Ray(s, NorthEast, occ), Ray(s, NorthWest, occ), Ray(s, SouthEast, occ), Ray(s, SouthWest, occ), t);
    RayGeometry(s, 1, 1, occ, t);
    RayGeometry(s, -1, 1, occ, t);
    RayGeometry(s, 1, -1, occ, t);
    RayGeometry(s, -1, -1, occ, t);
  }

  /** On an empty board a rook sees its whole rank and file, except its own square. */
  lemma RookEmptyBoard(s: Square, t: nat)
    ensures IsSet(RookAttacks(s, 0), t) <==> t < 64 && t != s && (FileOf(t) == FileOf(s) || RankOf(t) == RankOf(s))
  {
    RookGeometry(s, 0, t);
    forall u
      ensures !IsSet(0, u)
    {
      EmptySquares(u);
    }
    if t < 64 {
      assert t == 8 * RankOf(t) + FileOf(t);
      assert s == 8 * RankOf(s) + FileOf(s);
    }
  }

  /** Every square a bishop sees is on a diagonal through its square, at least one step away. */
  lemma BishopDiagonal(s: Square, occ: Bitboard, t: nat)
    requires IsSet(BishopAttacks(s, occ), t)
    ensures Abs(FileOf(t) - FileOf(s)) == Abs(RankOf(t) - RankOf(s)) >= 1
  {
    BishopGeometry(s, occ, t);
  }

  /** A queen sees what a rook and a bishop on its square see together. */
  lemma QueenIsRookAndBishop(s: int, occ: Bitboard, t: nat)
    ensures IsSet(QueenAttacks(s, occ), t) <==> IsSet(RookAttacks(s, occ), t) || IsSet(BishopAttacks(s, occ), t)
  {
    IsSetIsDigit(QueenAttacks(s, occ), t);
    IsSetIsDigit(RookAttacks(s, occ), t);
    IsSetIsDigit(BishopAttacks(s, occ), t);
    HasOr(RookAttacks(s, occ), BishopAttacks(s, occ), t);
  }
}
