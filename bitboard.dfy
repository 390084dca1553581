/**
 * Squares, bitboards and square/coordinate conversion (engine/bitboard.py).
 *
 * A square is an index with a1 = 0, h1 = 7, a8 = 56 and h8 = 63. A bitboard
 * is a Python integer whose binary digit i stands for square i; the
 * operations on it are the Python ones modelled in `PyInt`, so digits at 64
 * and above, which the original can create, are modelled too.
 */
module Bitboard {
  import opened Wrappers
  import opened PyInt

  type Square = i: int | 0 <= i < 64
  type Bitboard = int

  const Files: string := "abcdefgh"
  const Ranks: string := "12345678"

  /** Index of the square on `file` and `rank`. */
  function SquareIndex(file: int, rank: int): (r: int)
    ensures 0 <= file < 8 && 0 <= rank < 8 ==> 0 <= r < 64 && r % 8 == file && r / 8 == rank
  {
    rank * 8 + file
  }

  /** Position of the first occurrence of `c` in `s`, as Python's `str.index`. */
  function IndexOf(s: string, c: char): (r: Option<nat>)
    ensures r.None? <==> c !in s
    ensures r.Some? ==> r.value < |s| && s[r.value] == c && c !in s[..r.value]
  {
    if |s| == 0 then None
    else if s[0] == c then Some(0)
    else match IndexOf(s[1..], c)
      case None => None
      case Some(i) => assert s[1..][..i] == s[1..i + 1]; Some(i + 1)
  }

  /** `FILES.index(c)`: the files a-h are consecutive characters. */
  function FileIndex(c: char): (r: Option<nat>)
    ensures r.None? <==> c !in Files
    ensures r.Some? ==> r.value < 8 && Files[r.value] == c
  {
    if 'a' <= c <= 'h' then Some(c as int - 'a' as int) else None
  }

  /** `RANKS.index(c)`: the ranks 1-8 are consecutive characters. */
  function RankIndex(c: char): (r: Option<nat>)
    ensures r.None? <==> c !in Ranks
    ensures r.Some? ==> r.value < 8 && Ranks[r.value] == c
  {
    if '1' <= c <= '8' then Some(c as int - '1' as int) else None
  }

  /**
   * Square named by the first two characters of `s` ("e2" is 12).
   * `None` where the original raises: `s` too short, a file letter outside
   * a-h or a rank digit outside 1-8. Characters after the second are ignored.
   */
  function UciToSq(s: string): (r: Option<Square>)
    ensures r.Some? <==> |s| >= 2 && s[0] in Files && s[1] in Ranks
    ensures r.Some? ==> Files[r.value % 8] == s[0] && Ranks[r.value / 8] == s[1]
  {
    if |s| < 2 then None
    else
      match (FileIndex(s[0]), RankIndex(s[1]))
      case (Some(f), Some(rk)) => Some(SquareIndex(f, rk))
      case _ => None
  }

  /** Coordinate name of a square ("e2" for 12). */
  function SqToUci(sq: Square): (s: string)
    ensures |s| == 2 && s[0] in Files && s[1] in Ranks
  {
    [Files[sq % 8], Ranks[sq / 8]]
  }

  lemma SqToUciRoundTrip(sq: Square)
    ensures UciToSq(SqToUci(sq)) == Some(sq)
  {
    var s := SqToUci(sq);
    var r := UciToSq(s);
    assert Files[r.value % 8] == Files[sq % 8];
    FilesDistinct(r.value % 8, sq % 8);
    RanksDistinct(r.value / 8, sq / 8);
  }

  lemma UciToSqRoundTrip(s: string)
    requires |s| == 2 && s[0] in Files && s[1] in Ranks
    ensures UciToSq(s).Some? && SqToUci(UciToSq(s).value) == s
  {
  }

  lemma FilesDistinct(i: int, j: int)
    requires 0 <= i < 8 && 0 <= j < 8 && Files[i] == Files[j]
    ensures i == j
  {
  }

  lemma RanksDistinct(i: int, j: int)
    requires 0 <= i < 8 && 0 <= j < 8 && Ranks[i] == Ranks[j]
    ensures i == j
  {
  }


  // ---------------------------------------------------------------------------
  // Single squares.

  /** The bitboard holding only `sq`: `1 << sq`. */
  function Bit(sq: nat): Bitboard
  {
    Shl(1, sq)
  }

  /** `bb | bit(sq)`. */
  function SetBit(bb: Bitboard, sq: nat): Bitboard
  {
    Or(bb, Bit(sq))
  }

  /** `bb & ~bit(sq)`. */
  function ClearBit(bb: Bitboard, sq: nat): Bitboard
  {
    And(bb, Not(Bit(sq)))
  }

  /** `(bb >> sq) & 1 == 1`. */
  predicate IsSet(bb: Bitboard, sq: nat)
  {
    And(Shr(bb, sq), 1) == 1
  }

  /** `is_set` reads binary digit `sq`. */
  lemma IsSetIsDigit(bb: Bitboard, sq: nat)
    ensures IsSet(bb, sq) <==> Has(bb, sq)
  {
    var s := Shr(bb, sq);
    HasShr(bb, sq, 0);
    if s != 0 && s != -1 {
      AndStep(s, 1);
      assert And(s / 2, 0) == 0;
    }
  }

  lemma BitValue(sq: nat)
    ensures Bit(sq) == Pow2(sq)
  {
    ShlOne(sq);
  }

  /** `bit(sq)` holds `sq` and nothing else. */
  lemma BitSquares(sq: nat, t: nat)
    ensures IsSet(Bit(sq), t) <==> t == sq
  {
    IsSetIsDigit(Bit(sq), t);
    BitValue(sq);
    HasPow2(sq, t);
  }

  /** After `set_bit`, `sq` is set and every other square keeps its membership. */
  lemma SetBitSquares(bb: Bitboard, sq: nat, t: nat)
    ensures IsSet(SetBit(bb, sq), t) <==> IsSet(bb, t) || t == sq
  {
    IsSetIsDigit(SetBit(bb, sq), t);
    IsSetIsDigit(bb, t);
    HasOr(bb, Bit(sq), t);
    BitValue(sq);
    HasPow2(sq, t);
  }

  /** After `clear_bit`, `sq` is clear and every other square keeps its membership. */
  lemma ClearBitSquares(bb: Bitboard, sq: nat, t: nat)
    ensures IsSet(ClearBit(bb, sq), t) <==> IsSet(bb, t) && t != sq
  {
    IsSetIsDigit(ClearBit(bb, sq), t);
    IsSetIsDigit(bb, t);
    HasAnd(bb, Not(Bit(sq)), t);
    HasNot(Bit(sq), t);
    BitValue(sq);
    HasPow2(sq, t);
  }

  lemma EmptySquares(t: nat)
    ensures !IsSet(0, t)
  {
    IsSetIsDigit(0, t);
    HasZero(t);
  }

  // ---------------------------------------------------------------------------
  // Lowest square.

  /** The lowest square of a non-empty, non-negative bitboard (reference definition). */
  function Lowest(bb: Bitboard): (sq: nat)
    requires bb > 0
    decreases bb
  {
    if bb % 2 == 1 then 0 else 1 + Lowest(bb / 2)
  }

  lemma {:induction false} LowestIsLowest(bb: Bitboard)
    requires bb > 0
    ensures Has(bb, Lowest(bb))
    ensures forall j: nat :: j < Lowest(bb) ==> !Has(bb, j)
    ensures Pow2(Lowest(bb)) <= bb
    decreases bb
  {
    if bb % 2 == 0 {
      LowestIsLowest(bb / 2);
      forall j: nat | j < Lowest(bb)
        ensures !Has(bb, j)
      {
        if j > 0 {
          assert Has(bb, j) == Has(bb / 2, j - 1);
        }
      }
    }
  }

  /** The original's `pop_lsb`: `(bb & -bb).bit_length() - 1` and `bb ^ (bb & -bb)`. */
  function PopLsb(bb: Bitboard): (int, Bitboard)
  {
    var lsb := And(bb, -bb);
    (BitLength(lsb) - 1, Xor(bb, lsb))
  }

  lemma {:induction false} AndComplement(a: int)
    ensures And(a, Not(a)) == 0
    decreases Abs(a)
  {
    if a != 0 && a != -1 {
      AndComplement(a / 2);
      assert Not(a) / 2 == Not(a / 2);
    }
  }

  /** `bb & -bb` keeps only the lowest square. */
  lemma {:induction false} IsolateLowest(bb: Bitboard)
    requires bb > 0
    ensures And(bb, -bb) == Pow2(Lowest(bb))
    decreases bb
  {
    if bb % 2 == 1 {
      if bb != 1 {
        assert -bb / 2 == Not(bb / 2);
        AndComplement(bb / 2);
      }
    } else {
      IsolateLowest(bb / 2);
      assert -bb / 2 == -(bb / 2);
    }
  }

  lemma {:induction false} BitLengthPow2(k: nat)
    ensures BitLength(Pow2(k)) == k + 1
  {
    if k > 0 {
      BitLengthPow2(k - 1);
    }
  }

  /** XOR with a set square's bit subtracts it. */
  lemma {:induction false} XorSetSquare(bb: Bitboard, k: nat)
    requires bb >= 0 && Has(bb, k)
    ensures Xor(bb, Pow2(k)) == bb - Pow2(k)
    decreases k
  {
    if k == 0 {
      assert Xor(bb / 2, 0) == bb / 2;
    } else {
      XorSetSquare(bb / 2, k - 1);
    }
  }

  lemma {:induction false} AndSelf(a: int)
    ensures And(a, a) == a
    decreases Abs(a)
  {
    if a != 0 && a != -1 {
      AndSelf(a / 2);
    }
  }

  /** `bb & (bb - 1)`, the original's other way of dropping the lowest square. */
  lemma {:induction false} AndDecrement(bb: Bitboard)
    requires bb > 0
    ensures And(bb, bb - 1) == bb - Pow2(Lowest(bb))
    decreases bb
  {
    if bb % 2 == 1 {
      if bb != 1 {
        assert (bb - 1) / 2 == bb / 2;
        AndSelf(bb / 2);
      }
    } else {
      AndDecrement(bb / 2);
      assert (bb - 1) / 2 == bb / 2 - 1;
    }
  }

  /** Clearing a set square subtracts its bit. */
  lemma ClearSetSquare(bb: Bitboard, k: nat)
    requires bb >= 0 && Has(bb, k)
    ensures ClearBit(bb, k) == bb - Pow2(k)
  {
    XorSetSquare(bb, k);
    forall i: nat
      ensures Has(ClearBit(bb, k), i) <==> Has(bb - Pow2(k), i)
    {
      ClearBitSquares(bb, k, i);
      IsSetIsDigit(ClearBit(bb, k), i);
      IsSetIsDigit(bb, i);
      HasXor(bb, Pow2(k), i);
      HasPow2(k, i);
    }
    SameDigits(ClearBit(bb, k), bb - Pow2(k));
  }

  /** Number of set squares of a non-negative bitboard. */
  function PopCount(bb: Bitboard): nat
    requires bb >= 0
    decreases bb
  {
    if bb == 0 then 0 else bb % 2 + PopCount(bb / 2)
  }

  lemma {:induction false} PopCountClear(bb: Bitboard, k: nat)
    requires bb >= 0 && Has(bb, k)
    ensures bb - Pow2(k) >= 0
    ensures PopCount(bb - Pow2(k)) == PopCount(bb) - 1
    decreases k
  {
    if k == 0 {
      assert (bb - 1) / 2 == bb / 2;
    } else {
      PopCountClear(bb / 2, k - 1);
      assert (bb - Pow2(k)) / 2 == bb / 2 - Pow2(k - 1);
    }
  }

  /** `pop_lsb` of an empty board gives square -1 and an empty board. */
  lemma PopLsbEmpty()
    ensures PopLsb(0) == (-1, 0)
  {
  }

  /** For a non-empty board, `pop_lsb` gives its lowest square. */
  lemma PopLsbSquare(bb: Bitboard)
    requires bb > 0
    ensures PopLsb(bb).0 == Lowest(bb)
    ensures IsSet(bb, Lowest(bb))
    ensures forall j: nat :: j < Lowest(bb) ==> !IsSet(bb, j)
  {
    var k := Lowest(bb);
    IsolateLowest(bb);
    BitLengthPow2(k);
    LowestIsLowest(bb);
    IsSetIsDigit(bb, k);
    forall j: nat | j < k
      ensures !IsSet(bb, j)
    {
      IsSetIsDigit(bb, j);
    }
  }

  /**
   * For a non-empty board, the remainder `pop_lsb` gives is the board with
   * its lowest square cleared, so it is smaller and has one square fewer.
   */
  lemma PopLsbRest(bb: Bitboard)
    requires bb > 0
    ensures PopLsb(bb).1 == ClearBit(bb, Lowest(bb))
    ensures 0 <= PopLsb(bb).1 < bb
    ensures PopCount(PopLsb(bb).1) == PopCount(bb) - 1
  {
    var k := Lowest(bb);
    IsolateLowest(bb);
    LowestIsLowest(bb);
    XorSetSquare(bb, k);
    ClearSetSquare(bb, k);
    PopCountClear(bb, k);
  }

  /** `bb & (bb - 1)` equals the remainder `pop_lsb` returns. */
  lemma ClearLowestAgrees(bb: Bitboard)
    requires bb > 0
    ensures And(bb, bb - 1) == PopLsb(bb).1
  {
    AndDecrement(bb);
    IsolateLowest(bb);
    LowestIsLowest(bb);
    XorSetSquare(bb, Lowest(bb));
  }

  // ---------------------------------------------------------------------------
  // The squares of a bitboard in ascending order, the order in which
  // repeated `pop_lsb` visits them.

  function SquaresFrom(bb: Bitboard, base: nat): seq<nat>
    requires bb >= 0
    decreases bb
  {
    if bb == 0 then []
    else (if bb % 2 == 1 then [base] else []) + SquaresFrom(bb / 2, base + 1)
  }

  function Squares(bb: Bitboard): seq<nat>
    requires bb >= 0
  {
    SquaresFrom(bb, 0)
  }

  lemma {:induction false} SquaresFromPeel(bb: Bitboard, base: nat)
    requires bb > 0
    ensures Pow2(Lowest(bb)) <= bb
    ensures SquaresFrom(bb, base) == [base + Lowest(bb)] + SquaresFrom(bb - Pow2(Lowest(bb)), base)
    decreases bb
  {
    LowestIsLowest(bb);
    if bb % 2 == 1 {
      assert (bb - 1) / 2 == bb / 2;
    } else {
      SquaresFromPeel(bb / 2, base + 1);
      assert (bb - Pow2(Lowest(bb))) / 2 == bb / 2 - Pow2(Lowest(bb / 2));
    }
  }

  /** Popping the lowest square splits off the head of `Squares`. */
  lemma SquaresPeel(bb: Bitboard)
    requires bb > 0
    ensures PopLsb(bb).1 >= 0
    ensures Squares(bb) == [PopLsb(bb).0] + Squares(PopLsb(bb).1)
  {
    PopLsbSquare(bb);
    PopLsbRest(bb);
    LowestIsLowest(bb);
    ClearSetSquare(bb, Lowest(bb));
    SquaresFromPeel(bb, 0);
  }

  lemma {:induction false} SquaresFromMembers(bb: Bitboard, base: nat, t: nat)
    requires bb >= 0
    ensures t in SquaresFrom(bb, base) <==> base <= t && Has(bb, t - base)
    decreases bb
  {
    if bb == 0 {
      if base <= t {
        HasZero(t - base);
      }
    } else {
      SquaresFromMembers(bb / 2, base + 1, t);
      if base < t {
        assert Has(bb, t - base) == Has(bb / 2, t - base - 1);
      }
    }
  }

  /** `Squares(bb)` lists exactly the set squares. */
  lemma SquaresMembers(bb: Bitboard, t: nat)
    requires bb >= 0
    ensures t in Squares(bb) <==> IsSet(bb, t)
  {
    SquaresFromMembers(bb, 0, t);
    IsSetIsDigit(bb, t);
  }

  lemma {:induction false} SquaresFromIncreasing(bb: Bitboard, base: nat)
    requires bb >= 0
    ensures forall i, j :: 0 <= i < j < |SquaresFrom(bb, base)| ==> SquaresFrom(bb, base)[i] < SquaresFrom(bb, base)[j]
    ensures forall i :: 0 <= i < |SquaresFrom(bb, base)| ==> base <= SquaresFrom(bb, base)[i]
    decreases bb
  {
    if bb > 0 {
      SquaresFromIncreasing(bb / 2, base + 1);
    }
  }

  lemma {:induction false} SquaresFromCount(bb: Bitboard, base: nat)
    requires bb >= 0
    ensures |SquaresFrom(bb, base)| == PopCount(bb)
    decreases bb
  {
    if bb > 0 {
      SquaresFromCount(bb / 2, base + 1);
    }
  }

  /** `Squares(bb)` is strictly increasing and has `PopCount(bb)` entries. */
  lemma SquaresSorted(bb: Bitboard)
    requires bb >= 0
    ensures forall i, j :: 0 <= i < j < |Squares(bb)| ==> Squares(bb)[i] < Squares(bb)[j]
    ensures |Squares(bb)| == PopCount(bb)
  {
    SquaresFromIncreasing(bb, 0);
    SquaresFromCount(bb, 0);
  }

  /** A board below `2^64` has all its squares on the board. */
  lemma SquaresOnBoard(bb: Bitboard, t: nat)
    requires 0 <= bb < Pow2(64) && IsSet(bb, t)
    ensures t < 64
  {
    IsSetIsDigit(bb, t);
    if t >= 64 {
      NoHighDigit(bb, 64, t);
    }
  }

  /** Every square listed for a board below `2^64` is a board square. */
  lemma SquaresAllOnBoard(bb: Bitboard)
    requires 0 <= bb < Pow2(64)
    ensures forall i :: 0 <= i < |Squares(bb)| ==> Squares(bb)[i] < 64
  {
    forall i | 0 <= i < |Squares(bb)|
      ensures Squares(bb)[i] < 64
    {
      SquaresMembers(bb, Squares(bb)[i]);
      SquaresOnBoard(bb, Squares(bb)[i]);
    }
  }

  // ---------------------------------------------------------------------------
  // Truth of a bitboard expression, as in `if a & b:`.

  /** `a | b`, `a & b` and `~a` square by square. */
  lemma BoolSquares(a: Bitboard, b: Bitboard, t: nat)
    ensures IsSet(Or(a, b), t) <==> IsSet(a, t) || IsSet(b, t)
    ensures IsSet(And(a, b), t) <==> IsSet(a, t) && IsSet(b, t)
    ensures IsSet(Not(a), t) <==> !IsSet(a, t)
  {
    IsSetIsDigit(Or(a, b), t);
    IsSetIsDigit(And(a, b), t);
    IsSetIsDigit(Not(a), t);
    IsSetIsDigit(a, t);
    IsSetIsDigit(b, t);
    HasOr(a, b, t);
    HasAnd(a, b, t);
    HasNot(a, t);
  }

  /** `a & b` is non-zero exactly when the two boards share a square. */
  lemma AndNonZero(a: Bitboard, b: Bitboard)
    requires a >= 0 || b >= 0
    ensures And(a, b) != 0 <==> exists t: nat :: IsSet(a, t) && IsSet(b, t)
  {
    AndBounds(a, b);
    if And(a, b) > 0 {
      var t := Lowest(And(a, b));
      LowestIsLowest(And(a, b));
      HasAnd(a, b, t);
      IsSetIsDigit(a, t);
      IsSetIsDigit(b, t);
    }
    if exists t: nat :: IsSet(a, t) && IsSet(b, t) {
      var t: nat :| IsSet(a, t) && IsSet(b, t);
      IsSetIsDigit(a, t);
      IsSetIsDigit(b, t);
      HasAnd(a, b, t);
      HasZero(t);
    }
  }

  /** `bb & bit(sq)` is non-zero exactly when `sq` is set. */
  lemma AndBitNonZero(bb: Bitboard, sq: nat)
    ensures And(bb, Bit(sq)) != 0 <==> IsSet(bb, sq)
  {
    BitValue(sq);
    AndNonZero(bb, Bit(sq));
    BitSquares(sq, sq);
    forall t: nat | IsSet(bb, t) && IsSet(Bit(sq), t)
      ensures t == sq
    {
      BitSquares(sq, t);
    }
  }

  // ---------------------------------------------------------------------------
  // Boards that fit in 64 bits.

  /** Setting a board square keeps a board within 64 bits; clearing any square keeps it non-negative and no larger. */
  lemma SetClearBounds(bb: Bitboard, sq: nat)
    ensures 0 <= bb < Pow2(64) && sq < 64 ==> 0 <= SetBit(bb, sq) < Pow2(64)
    ensures 0 <= bb ==> 0 <= ClearBit(bb, sq) <= bb
  {
    if 0 <= bb < Pow2(64) && sq < 64 {
      BitValue(sq);
      Pow2Monotonic(sq, 64);
      OrBelow(bb, Bit(sq), 64);
    }
    if 0 <= bb {
      AndBounds(bb, Not(Bit(sq)));
    }
  }
}
