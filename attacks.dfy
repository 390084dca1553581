/**
 * Precomputed leaper attacks (engine/attacks.py): the file masks, the
 * 64-bit trim and the knight attack set of every square.
 *
 * The king table the attack detector reads is not defined in the original
 * file; `KingAttacksFrom` below is defined by analogy with the knight
 * (one guarded shift per king direction) and proved against the same kind
 * of geometric specification.
 */
module Attacks {
  import opened PyInt
  import opened Bitboard

  /** Every square of the board: `0xFFFFFFFFFFFFFFFF`. */
  const Full64: int := 0xFFFF_FFFF_FFFF_FFFF

  const FileA: Bitboard := 0x0101_0101_0101_0101
  const FileB: Bitboard := Shl(FileA, 1)
  const FileG: Bitboard := Shl(FileA, 6)
  const FileH: Bitboard := Shl(FileA, 7)

  const NotFileA: Bitboard := And(Not(FileA), Full64)
  const NotFileH: Bitboard := And(Not(FileH), Full64)
  const NotFileAB: Bitboard := And(Not(Or(FileA, FileB)), Full64)
  const NotFileGH: Bitboard := And(Not(Or(FileG, FileH)), Full64)

  /** `_mask64`: keeps the digits of the 64 board squares. */
  function Mask64(x: int): (r: Bitboard)
    ensures 0 <= r < Pow2(64)
    ensures forall t: nat :: IsSet(r, t) <==> t < 64 && IsSet(x, t)
  {
    FullIsLowOnes();
    AndBounds(x, Full64);
    forall t: nat
      ensures IsSet(And(x, Full64), t) <==> t < 64 && IsSet(x, t)
    {
      IsSetIsDigit(And(x, Full64), t);
      IsSetIsDigit(x, t);
      HasAnd(x, Full64, t);
      HasLowOnes(64, t);
    }
    And(x, Full64)
  }

  lemma FullIsLowOnes()
    ensures Full64 == Pow2(64) - 1
  {
    Pow2Values();
  }

  // ---------------------------------------------------------------------------
  // File masks.

  /** One square per rank on file a, for the lowest `n` ranks. */
  function FileARanks(n: nat): int
  {
    if n == 0 then 0 else 1 + 256 * FileARanks(n - 1)
  }

  lemma {:induction false} FileARanksDigits(n: nat, t: nat)
    ensures Has(FileARanks(n), t) <==> t < 8 * n && t % 8 == 0
  {
    if n == 0 {
      HasZero(t);
    } else {
      var y := FileARanks(n - 1);
      assert Pow2(8) == 256;
      ShlValue(y, 8);
      assert FileARanks(n) == 1 + Shl(y, 8);
      HasPlusShl(1, y, 8, t);
      if t >= 8 {
        FileARanksDigits(n - 1, t - 8);
        assert (t - 8) % 8 == t % 8;
      } else if t > 0 {
        assert Has(1, t) == Has(0, t - 1);
        HasZero(t - 1);
      }
    }
  }

  lemma FileAValue()
    ensures FileA == FileARanks(8)
  {
    assert FileARanks(1) == 0x01;
    assert FileARanks(2) == 0x0101;
    assert FileARanks(3) == 0x01_0101;
    assert FileARanks(4) == 0x0101_0101;
    assert FileARanks(5) == 0x01_0101_0101;
    assert FileARanks(6) == 0x0101_0101_0101;
    assert FileARanks(7) == 0x01_0101_0101_0101;
  }

  /** The file of square `t` is `k` (files count from a = 0). */
  predicate OnFile(t: nat, k: int)
  {
    t < 64 && t % 8 == k
  }

  lemma FileASquares(t: nat)
    ensures Has(FileA, t) <==> OnFile(t, 0)
  {
    FileAValue();
    FileARanksDigits(8, t);
  }

  lemma ShiftedFileSquares(k: nat, t: nat)
    requires k < 8
    ensures Has(Shl(FileA, k), t) <==> OnFile(t, k)
  {
    HasShl(FileA, k, t);
    if k <= t {
      FileASquares(t - k);
    }
  }

  /** The digits of `~m & 0xFFFFFFFFFFFFFFFF`: the board squares not in `m`. */
  lemma ComplementSquares(m: int, t: nat)
    ensures Has(And(Not(m), Full64), t) <==> t < 64 && !Has(m, t)
  {
    HasAnd(Not(m), Full64, t);
    HasNot(m, t);
    FullIsLowOnes();
    HasLowOnes(64, t);
  }

  lemma NotFileASquares(t: nat)
    ensures Has(NotFileA, t) <==> t < 64 && t % 8 != 0
  {
    ComplementSquares(FileA, t);
    FileASquares(t);
  }

  lemma NotFileHSquares(t: nat)
    ensures Has(NotFileH, t) <==> t < 64 && t % 8 != 7
  {
    ComplementSquares(FileH, t);
    ShiftedFileSquares(7, t);
  }

  lemma NotFileABSquares(t: nat)
    ensures Has(NotFileAB, t) <==> t < 64 && t % 8 != 0 && t % 8 != 1
  {
    ComplementSquares(Or(FileA, FileB), t);
    HasOr(FileA, FileB, t);
    FileASquares(t);
    ShiftedFileSquares(1, t);
  }

  lemma NotFileGHSquares(t: nat)
    ensures Has(NotFileGH, t) <==> t < 64 && t % 8 != 6 && t % 8 != 7
  {
    ComplementSquares(Or(FileG, FileH), t);
    HasOr(FileG, FileH, t);
    ShiftedFileSquares(6, t);
    ShiftedFileSquares(7, t);
  }

  /** The four "not on file" masks hold exactly the board squares off the named files. */
  lemma NotFileMasks(t: nat)
    ensures IsSet(NotFileA, t) <==> t < 64 && t % 8 != 0
    ensures IsSet(NotFileH, t) <==> t < 64 && t % 8 != 7
    ensures IsSet(NotFileAB, t) <==> t < 64 && t % 8 != 0 && t % 8 != 1
    ensures IsSet(NotFileGH, t) <==> t < 64 && t % 8 != 6 && t % 8 != 7
  {
    IsSetIsDigit(NotFileA, t);
    IsSetIsDigit(NotFileH, t);
    IsSetIsDigit(NotFileAB, t);
    IsSetIsDigit(NotFileGH, t);
    NotFileASquares(t);
    NotFileHSquares(t);
    NotFileABSquares(t);
    NotFileGHSquares(t);
  }

  // ---------------------------------------------------------------------------
  // Guarded shifts of a single square.

  /** `(bit(sq) & mask) << k` holds `sq + k` exactly when `mask` holds `sq`. */
  lemma GuardUp(sq: nat, mask: int, k: nat, t: nat)
    ensures Has(Shl(And(Bit(sq), mask), k), t) <==> t == sq + k && Has(mask, sq)
  {
    HasShl(And(Bit(sq), mask), k, t);
    if k <= t {
      HasAnd(Bit(sq), mask, t - k);
      BitValue(sq);
      HasPow2(sq, t - k);
    }
  }

  /** `(bit(sq) & mask) >> k` holds `sq - k` exactly when `mask` holds `sq`. */
  lemma GuardDown(sq: nat, mask: int, k: nat, t: nat)
    ensures Has(Shr(And(Bit(sq), mask), k), t) <==> t + k == sq && Has(mask, sq)
  {
    HasShr(And(Bit(sq), mask), k, t);
    HasAnd(Bit(sq), mask, t + k);
    BitValue(sq);
    HasPow2(sq, t + k);
  }

  lemma PlainUp(sq: nat, k: nat, t: nat)
    ensures Has(Shl(Bit(sq), k), t) <==> t == sq + k
  {
    HasShl(Bit(sq), k, t);
    BitValue(sq);
    if k <= t {
      HasPow2(sq, t - k);
    }
  }

  lemma PlainDown(sq: nat, k: nat, t: nat)
    ensures Has(Shr(Bit(sq), k), t) <==> t + k == sq
  {
    HasShr(Bit(sq), k, t);
    BitValue(sq);
    HasPow2(sq, t + k);
  }

  // ---------------------------------------------------------------------------
  // Knight.

  /** The original's `knight_attacks_from`. */
  function KnightAttacksFrom(sq: nat): Bitboard
  {
    var bb := Bit(sq);
    var attacks := 0;
    var attacks := Or(attacks, Shl(And(bb, NotFileH), 17));
    var attacks := Or(attacks, Shl(And(bb, NotFileA), 15));
    var attacks := Or(attacks, Shr(And(bb, NotFileH), 15));
    var attacks := Or(attacks, Shr(And(bb, NotFileA), 17));
    var attacks := Or(attacks, Shl(And(bb, NotFileGH), 10));
    var attacks := Or(attacks, Shl(And(bb, NotFileAB), 6));
    var attacks := Or(attacks, Shr(And(bb, NotFileGH), 6));
    var attacks := Or(attacks, Shr(And(bb, NotFileAB), 10));
    Mask64(attacks)
  }

  /** `t` is a knight's move from `s`: one file and two ranks away, or two files and one rank. */
  predicate KnightStep(s: int, t: int)
  {
    0 <= s < 64 && 0 <= t < 64 &&
    var df := Abs(t % 8 - s % 8);
    var dr := Abs(t / 8 - s / 8);
    (df == 1 && dr == 2) || (df == 2 && dr == 1)
  }

  /** The squares the eight guarded shifts of `knight_attacks_from` reach. */
  predicate KnightShifts(sq: nat, t: nat)
  {
    t < 64 && sq < 64 &&
    ((t == sq + 17 && sq % 8 != 7) || (t == sq + 15 && sq % 8 != 0) ||
     (t + 15 == sq && sq % 8 != 7) || (t + 17 == sq && sq % 8 != 0) ||
     (t == sq + 10 && sq % 8 != 6 && sq % 8 != 7) || (t == sq + 6 && sq % 8 != 0 && sq % 8 != 1) ||
     (t + 6 == sq && sq % 8 != 6 && sq % 8 != 7) || (t + 10 == sq && sq % 8 != 0 && sq % 8 != 1))
  }

  /** The eight guarded shifts, square by square. */
  lemma KnightDigits(sq: nat, t: nat)
    ensures IsSet(KnightAttacksFrom(sq), t) <==> KnightShifts(sq, t)
  {
    var bb := Bit(sq);
    var a0 := Shl(And(bb, NotFileH), 17);
    var a1 := Shl(And(bb, NotFileA), 15);
    var a2 := Shr(And(bb, NotFileH), 15);
    var a3 := Shr(And(bb, NotFileA), 17);
    var a4 := Shl(And(bb, NotFileGH), 10);
    var a5 := Shl(And(bb, NotFileAB), 6);
    var a6 := Shr(And(bb, NotFileGH), 6);
    var a7 := Shr(And(bb, NotFileAB), 10);
    var attacks := Or(Or(Or(Or(Or(Or(Or(Or(0, a0), a1), a2), a3), a4), a5), a6), a7);
    assert KnightAttacksFrom(sq) == Mask64(attacks);
    HasOr(Or(Or(Or(Or(Or(Or(Or(0, a0), a1), a2), a3), a4), a5), a6), a7, t);
    HasOr(Or(Or(Or(Or(Or(Or(0, a0), a1), a2), a3), a4), a5), a6, t);
    HasOr(Or(Or(Or(Or(Or(0, a0), a1), a2), a3), a4), a5, t);
    HasOr(Or(Or(Or(Or(0, a0), a1), a2), a3), a4, t);
    HasOr(Or(Or(Or(0, a0), a1), a2), a3, t);
    HasOr(Or(Or(0, a0), a1), a2, t);
    HasOr(Or(0, a0), a1, t);
    HasOr(0, a0, t);
    HasZero(t);
    GuardUp(sq, NotFileH, 17, t);
    GuardUp(sq, NotFileA, 15, t);
    GuardDown(sq, NotFileH, 15, t);
    GuardDown(sq, NotFileA, 17, t);
    GuardUp(sq, NotFileGH, 10, t);
    GuardUp(sq, NotFileAB, 6, t);
    GuardDown(sq, NotFileGH, 6, t);
    GuardDown(sq, NotFileAB, 10, t);
    NotFileASquares(sq);
    NotFileHSquares(sq);
    NotFileABSquares(sq);
    NotFileGHSquares(sq);
    IsSetIsDigit(attacks, t);
  }

  /**
   * The knight attack set of a square is exactly the set of squares a
   * knight's move away: the file guards stop every wrap-around.
   */
  lemma KnightAttacksGeometry(sq: Square, t: nat)
    ensures IsSet(KnightAttacksFrom(sq), t) <==> KnightStep(sq, t)
  {
    KnightDigits(sq, t);
  }

  /** A knight never attacks its own square, and knight attack is symmetric. */
  lemma KnightAttacksSymmetric(s: Square, t: Square)
    ensures !IsSet(KnightAttacksFrom(s), s)
    ensures IsSet(KnightAttacksFrom(s), t) <==> IsSet(KnightAttacksFrom(t), s)
  {
    KnightAttacksGeometry(s, s);
    KnightAttacksGeometry(s, t);
    KnightAttacksGeometry(t, s);
  }

  /** `KNIGHT_ATTACKS`: the knight attack set of every square, by index. */
  function KnightAttacksTable(): (table: seq<Bitboard>)
    ensures |table| == 64
    ensures forall sq :: 0 <= sq < 64 ==> table[sq] == KnightAttacksFrom(sq)
  {
    seq(64, (sq: int) requires 0 <= sq => KnightAttacksFrom(sq))
  }

  const KnightAttacks: seq<Bitboard> := KnightAttacksTable()

  // ---------------------------------------------------------------------------
  // King (by analogy with the knight).

  /** The king's eight single steps, each guarded against leaving through the a or h file. */
  function KingAttacksFrom(sq: nat): Bitboard
  {
    var bb := Bit(sq);
    var attacks := 0;
    var attacks := Or(attacks, Shl(bb, 8));
    var attacks := Or(attacks, Shr(bb, 8));
    var attacks := Or(attacks, Shl(And(bb, NotFileH), 1));
    var attacks := Or(attacks, Shr(And(bb, NotFileA), 1));
    var attacks := Or(attacks, Shl(And(bb, NotFileH), 9));
    var attacks := Or(attacks, Shl(And(bb, NotFileA), 7));
    var attacks := Or(attacks, Shr(And(bb, NotFileH), 7));
    var attacks := Or(attacks, Shr(And(bb, NotFileA), 9));
    Mask64(attacks)
  }

  /** `t` is a king's step from `s`: at most one file and one rank away, and not `s`. */
  predicate KingStep(s: int, t: int)
  {
    0 <= s < 64 && 0 <= t < 64 && s != t &&
    Abs(t % 8 - s % 8) <= 1 && Abs(t / 8 - s / 8) <= 1
  }

  /** The squares the eight king shifts reach. */
  predicate KingShifts(sq: Square, t: nat)
  {
    t < 64 &&
    (t == sq + 8 || t + 8 == sq ||
     (sq % 8 != 7 && (t == sq + 1 || t == sq + 9 || t + 7 == sq)) ||
     (sq % 8 != 0 && (t + 1 == sq || t == sq + 7 || t + 9 == sq)))
  }

  lemma KingDigits(sq: Square, t: nat)
    ensures IsSet(KingAttacksFrom(sq), t) <==> KingShifts(sq, t)
  {
    var bb := Bit(sq);
    var a0 := Shl(bb, 8);
    var a1 := Shr(bb, 8);
    var a2 := Shl(And(bb, NotFileH), 1);
    var a3 := Shr(And(bb, NotFileA), 1);
    var a4 := Shl(And(bb, NotFileH), 9);
    var a5 := Shl(And(bb, NotFileA), 7);
    var a6 := Shr(And(bb, NotFileH), 7);
    var a7 := Shr(And(bb, NotFileA), 9);
    var attacks := Or(Or(Or(Or(Or(Or(Or(Or(0, a0), a1), a2), a3), a4), a5), a6), a7);
    assert KingAttacksFrom(sq) == Mask64(attacks);
    HasOr(Or(Or(Or(Or(Or(Or(Or(0, a0), a1), a2), a3), a4), a5), a6), a7, t);
    HasOr(Or(Or(Or(Or(Or(Or(0, a0), a1), a2), a3), a4), a5), a6, t);
    HasOr(Or(Or(Or(Or(Or(0, a0), a1), a2), a3), a4), a5, t);
    HasOr(Or(Or(Or(Or(0, a0), a1), a2), a3), a4, t);
    HasOr(Or(Or(Or(0, a0), a1), a2), a3, t);
    HasOr(Or(Or(0, a0), a1), a2, t);
    HasOr(Or(0, a0), a1, t);
    HasOr(0, a0, t);
    HasZero(t);
    PlainUp(sq, 8, t);
    PlainDown(sq, 8, t);
    GuardUp(sq, NotFileH, 1, t);
    GuardDown(sq, NotFileA, 1, t);
    GuardUp(sq, NotFileH, 9, t);
    GuardUp(sq, NotFileA, 7, t);
    GuardDown(sq, NotFileH, 7, t);
    GuardDown(sq, NotFileA, 9, t);
    NotFileASquares(sq);
    NotFileHSquares(sq);
    IsSetIsDigit(attacks, t);
  }

  lemma KingAttacksGeometry(sq: Square, t: nat)
    ensures IsSet(KingAttacksFrom(sq), t) <==> KingStep(sq, t)
  {
    KingDigits(sq, t);
    KingShiftsAreSteps(sq, t);
  }

  lemma KingShiftsAreSteps(sq: Square, t: nat)
    ensures KingShifts(sq, t) <==> KingStep(sq, t)
  {
    var sf, sr := sq % 8, sq / 8;
    assert sq == 8 * sr + sf;
    if t < 64 {
      var tf, tr := t % 8, t / 8;
      assert t == 8 * tr + tf;
      if KingStep(sq, t) {
        assert -1 <= tf - sf <= 1 && -1 <= tr - sr <= 1;
      }
    }
  }

  /** A king never attacks its own square, and king attack is symmetric. */
  lemma KingAttacksSymmetric(s: Square, t: Square)
    ensures !IsSet(KingAttacksFrom(s), s)
    ensures IsSet(KingAttacksFrom(s), t) <==> IsSet(KingAttacksFrom(t), s)
  {
    KingAttacksGeometry(s, s);
    KingAttacksGeometry(s, t);
    KingAttacksGeometry(t, s);
  }

  function KingAttacksTable(): (table: seq<Bitboard>)
    ensures |table| == 64
    ensures forall sq :: 0 <= sq < 64 ==> table[sq] == KingAttacksFrom(sq)
  {
    seq(64, (sq: int) requires 0 <= sq => KingAttacksFrom(sq))
  }

  const KingAttacks: seq<Bitboard> := KingAttacksTable()
}
