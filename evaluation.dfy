/**
 * Static evaluation (engine/evaluation.py): material plus a piece-square
 * bonus, from White's point of view, in centipawns. A white piece on `sq`
 * adds its value and its table entry at `sq`; a black piece subtracts its
 * value and its table entry at the vertically mirrored square.
 *
 * `Evaluate` runs the original's loops; `Score` is the sum they compute,
 * written as a sum over the 64 squares of each board, and the lemmas say
 * what that sum is worth: what one piece adds, and that swapping colours
 * and mirroring the ranks negates it.
 */
module Evaluation {
  import opened Wrappers
  import opened PyInt
  import opened Bitboard
  import opened Positions

  /** `PIECE_VALUES`, in the dictionary's insertion order. */
  const PieceValues: seq<(char, int)> := [
    ('P', 100), ('N', 320), ('B', 330), ('R', 500), ('Q', 900), ('K', 0),
    ('p', 100), ('n', 320), ('b', 330), ('r', 500), ('q', 900), ('k', 0)]

  const PawnTable: seq<int> :=
    [  0,   0,   0,   0,   0,   0,   0,   0] +
    [  5,  10,  10, -20, -20,  10,  10,   5] +
    [  5,  -5, -10,   0,   0, -10,  -5,   5] +
    [  0,   0,   0,  20,  20,   0,   0,   0] +
    [  5,   5,  10,  25,  25,  10,   5,   5] +
    [ 10,  10,  20,  30,  30,  20,  10,  10] +
    [ 50,  50,  50,  50,  50,  50,  50,  50] +
    [  0,   0,   0,   0,   0,   0,   0,   0]

  const KnightTable: seq<int> :=
    [-50, -40, -30, -30, -30, -30, -40, -50] +
    [-40, -20,   0,   5,   5,   0, -20, -40] +
    [-30,   5,  10,  15,  15,  10,   5, -30] +
    [-30,   0,  15,  20,  20,  15,   0, -30] +
    [-30,   5,  15,  20,  20,  15,   5, -30] +
    [-30,   0,  10,  15,  15,  10,   0, -30] +
    [-40, -20,   0,   0,   0,   0, -20, -40] +
    [-50, -40, -30, -30, -30, -30, -40, -50]

  const BishopTable: seq<int> :=
    [-20, -10, -10, -10, -10, -10, -10, -20] +
    [-10,   5,   0,   0,   0,   0,   5, -10] +
    [-10,  10,  10,  10,  10,  10,  10, -10] +
    [-10,   0,  10,  10,  10,  10,   0, -10] +
    [-10,   5,   5,  10,  10,   5,   5, -10] +
    [-10,   0,   5,  10,  10,   5,   0, -10] +
    [-10,   0,   0,   0,   0,   0,   0, -10] +
    [-20, -10, -10, -10, -10, -10, -10, -20]

  const RookTable: seq<int> :=
    [  0,   0,   0,   5,   5,   0,   0,   0] +
    [ -5,   0,   0,   0,   0,   0,   0,  -5] +
    [ -5,   0,   0,   0,   0,   0,   0,  -5] +
    [ -5,   0,   0,   0,   0,   0,   0,  -5] +
    [ -5,   0,   0,   0,   0,   0,   0,  -5] +
    [ -5,   0,   0,   0,   0,   0,   0,  -5] +
    [  5,  10,  10,  10,  10,  10,  10,   5] +
    [  0,   0,   0,   0,   0,   0,   0,   0]

  const QueenTable: seq<int> :=
    [-20, -10, -10,  -5,  -5, -10, -10, -20] +
    [-10,   0,   0,   0,   0,   0,   0, -10] +
    [-10,   0,   5,   5,   5,   5,   0, -10] +
    [ -5,   0,   5,   5,   5,   5,   0,  -5] +
    [  0,   0,   5,   5,   5,   5,   0,  -5] +
    [-10,   5,   5,   5,   5,   5,   0, -10] +
    [-10,   0,   5,   0,   0,   0,   0, -10] +
    [-20, -10, -10,  -5,  -5, -10, -10, -20]

  const KingMiddlegameTable: seq<int> :=
    [ 20,  30,  10,   0,   0,  10,  30,  20] +
    [ 20,  20,   0,   0,   0,   0,  20,  20] +
    [-10, -20, -20, -20, -20, -20, -20, -10] +
    [-20, -30, -30, -40, -40, -30, -30, -20] +
    [-30, -40, -40, -50, -50, -40, -40, -30] +
    [-30, -40, -40, -50, -50, -40, -40, -30] +
    [-30, -40, -40, -50, -50, -40, -40, -30] +
    [-30, -40, -40, -50, -50, -40, -40, -30]

  /** `str.isupper` on a single ASCII character. */
  predicate IsUpper(c: char)
  {
    'A' <= c <= 'Z'
  }

  /** `str.lower` on a single ASCII character. */
  function Lower(c: char): char
  {
    if IsUpper(c) then (c as int + 32) as char else c
  }

  /** Lines 117-128: the table chosen for a piece, by its lower-case letter. */
  function TableFor(kind: char): (t: seq<int>)
    requires kind in "pnbrqk"
    ensures |t| == 64
  {
    if kind == 'p' then PawnTable
    else if kind == 'n' then KnightTable
    else if kind == 'b' then BishopTable
    else if kind == 'r' then RookTable
    else if kind == 'q' then QueenTable
    else KingMiddlegameTable
  }

  /** The items of `PIECE_VALUES` come in the order of `PIECE_ORDER`, white letters first. */
  lemma PieceValuesLetters(k: nat)
    requires k < 12
    ensures PieceValues[k].0 == PieceOrder[k]
    ensures Lower(PieceValues[k].0) in "pnbrqk"
    ensures IsUpper(PieceValues[k].0) <==> k < 6
  {
    if k < 6 {
      if k == 0 {} else if k == 1 {} else if k == 2 {} else if k == 3 {} else if k == 4 {} else {}
    } else {
      if k == 6 {} else if k == 7 {} else if k == 8 {} else if k == 9 {} else if k == 10 {} else {}
    }
  }

  /** Each item's letter has its own position as board index. */
  lemma PieceValuesIndexed(k: nat)
    requires k < 12
    ensures Lower(PieceValues[k].0) in "pnbrqk"
    ensures PieceIndex(PieceValues[k].0) == Some(k)
    ensures IsUpper(PieceValues[k].0) <==> k < 6
  {
    PieceValuesLetters(k);
    PieceIndexBijective(PieceValues[k].0, k);
  }

  // ---------------------------------------------------------------------------
  // `flip_square`.

  /** `flip_square(sq)`: the square on the same file and the mirrored rank. */
  function FlipSquare(sq: int): (r: int)
    ensures r % 8 == sq % 8 && r / 8 == 7 - sq / 8
    ensures 0 <= sq < 64 ==> 0 <= r < 64
  {
    var rank := sq / 8;
    var file := sq % 8;
    (7 - rank) * 8 + file
  }

  /** Flipping twice gives the square back. */
  lemma FlipSquareInvolution(sq: int)
    ensures FlipSquare(FlipSquare(sq)) == sq
  {
    var r := FlipSquare(sq);
    assert r / 8 == 7 - sq / 8 && r % 8 == sq % 8;
  }

  // ---------------------------------------------------------------------------
  // `count_bits`.

  /** `count_bits(bb)`: the loop clearing the lowest square with `bb & (bb - 1)`; a negative board would never reach 0. */
  method CountBits(bb: Bitboard) returns (count: nat)
    requires bb >= 0
    ensures count == PopCount(bb)
  {
    count := 0;
    var rest := bb;
    while rest != 0
      invariant rest >= 0
      invariant count + PopCount(rest) == PopCount(bb)
      decreases rest
    {
      ClearLowestAgrees(rest);
      PopLsbRest(rest);
      rest := And(rest, rest - 1);
      count := count + 1;
    }
  }

  // ---------------------------------------------------------------------------
  // Sums over a range of squares.

  /** `f(lo) + ... + f(hi - 1)`. */
  function Sum(f: nat -> int, lo: nat, hi: nat): int
    requires lo <= hi
    decreases hi - lo
  {
    if lo == hi then 0 else f(lo) + Sum(f, lo + 1, hi)
  }

  lemma {:induction false} SumSame(f: nat -> int, g: nat -> int, lo: nat, hi: nat)
    requires lo <= hi
    requires forall i :: lo <= i < hi ==> f(i) == g(i)
    ensures Sum(f, lo, hi) == Sum(g, lo, hi)
    decreases hi - lo
  {
    if lo < hi {
      SumSame(f, g, lo + 1, hi);
    }
  }

  lemma {:induction false} SumOfZeros(f: nat -> int, lo: nat, hi: nat)
    requires lo <= hi
    requires forall i :: lo <= i < hi ==> f(i) == 0
    ensures Sum(f, lo, hi) == 0
    decreases hi - lo
  {
    if lo < hi {
      SumOfZeros(f, lo + 1, hi);
    }
  }

  /** Two sums that differ in one term differ by that term. */
  lemma {:induction false} SumExcept(f: nat -> int, g: nat -> int, lo: nat, hi: nat, t: nat)
    requires lo <= t < hi
    requires forall i :: lo <= i < hi && i != t ==> f(i) == g(i)
    ensures Sum(f, lo, hi) == Sum(g, lo, hi) + f(t) - g(t)
    decreases hi - lo
  {
    if lo == t {
      SumSame(f, g, lo + 1, hi);
    } else {
      SumExcept(f, g, lo + 1, hi, t);
    }
  }

  lemma {:induction false} SumSplit(f: nat -> int, lo: nat, mid: nat, hi: nat)
    requires lo <= mid <= hi
    ensures Sum(f, lo, hi) == Sum(f, lo, mid) + Sum(f, mid, hi)
    decreases mid - lo
  {
    if lo < mid {
      SumSplit(f, lo + 1, mid, hi);
    }
  }

  /** A block of `g` that is the negated, shifted block of `f`. */
  lemma {:induction false} SumShiftNegated(f: nat -> int, g: nat -> int, lo: nat, lo2: nat, n: nat)
    requires forall i :: lo <= i < lo + n ==> g(i) == -f(lo2 + (i - lo))
    ensures Sum(g, lo, lo + n) == -Sum(f, lo2, lo2 + n)
    decreases n
  {
    if n > 0 {
      SumShiftNegated(f, g, lo + 1, lo2 + 1, n - 1);
    }
  }

  /** Rank `r` of `g` is rank `7 - r` of `f` read through `flip_square`, negated. */
  lemma MirrorRank(f: nat -> int, g: nat -> int, r: nat)
    requires r < 8
    requires forall t: nat :: t < 64 ==> g(t) == -f(FlipSquare(t))
    ensures Sum(g, 8 * r, 8 * r + 8) == -Sum(f, 56 - 8 * r, 64 - 8 * r)
  {
    forall i | 8 * r <= i < 8 * r + 8
      ensures g(i) == -f(56 - 8 * r + (i - 8 * r))
    {
      assert i / 8 == r;
    }
    SumShiftNegated(f, g, 8 * r, 56 - 8 * r, 8);
  }

  /** The first `n` ranks of `g` are the last `n` ranks of `f`, flipped and negated. */
  lemma {:induction false} MirrorRanks(f: nat -> int, g: nat -> int, n: nat)
    requires n <= 8
    requires forall t: nat :: t < 64 ==> g(t) == -f(FlipSquare(t))
    ensures Sum(g, 0, 8 * n) == -Sum(f, 64 - 8 * n, 64)
  {
    if n > 0 {
      MirrorRanks(f, g, n - 1);
      MirrorRank(f, g, n - 1);
      SumSplit(g, 0, 8 * (n - 1), 8 * n);
      SumSplit(f, 64 - 8 * n, 72 - 8 * n, 64);
    }
  }

  /** Reading a board sum through `flip_square` and negating every term negates the sum. */
  lemma SumMirror(f: nat -> int, g: nat -> int)
    requires forall t: nat :: t < 64 ==> g(t) == -f(FlipSquare(t))
    ensures Sum(g, 0, 64) == -Sum(f, 0, 64)
  {
    MirrorRanks(f, g, 8);
  }

  // ---------------------------------------------------------------------------
  // What `evaluate` sums.

  /** Lines 135-138: what one piece of item `k` on square `t` adds to the score. */
  function SquareScore(k: nat, t: nat): int
    requires k < 12 && t < 64
  {
    PieceValuesIndexed(k);
    var (piece, value) := PieceValues[k];
    if IsUpper(piece) then value + TableFor(Lower(piece))[t]
    else -(value + TableFor(Lower(piece))[FlipSquare(t)])
  }

  /** The term of square `t` for a board of item `k`. */
  function PieceTerm(bb: Bitboard, k: nat): nat -> int
    requires k < 12
  {
    (t: nat) => if t < 64 && IsSet(bb, t) then SquareScore(k, t) else 0
  }

  /** What the pieces of item `k` on `bb` add to the score. */
  function PieceScore(bb: Bitboard, k: nat): int
    requires k < 12
  {
    Sum(PieceTerm(bb, k), 0, 64)
  }

  /** `s[0] + ... + s[n - 1]`. */
  function Total(s: seq<int>, n: nat): int
    requires n <= |s|
  {
    if n == 0 then 0 else Total(s, n - 1) + s[n - 1]
  }

  /** What each item of `PIECE_VALUES` adds to the score. */
  function ItemScores(b: Board): (s: seq<int>)
    requires |b.pieces| == 12
    ensures |s| == 12
  {
    seq(12, k requires 0 <= k < 12 => PieceScore(b.pieces[k], k))
  }

  /** The value `evaluate` returns. */
  function Score(b: Board): int
    requires |b.pieces| == 12
  {
    Total(ItemScores(b), 12)
  }

  /** An empty board adds nothing. */
  lemma NoPieceScore(k: nat)
    requires k < 12
    ensures PieceScore(0, k) == 0
  {
    forall i: nat | i < 64
      ensures PieceTerm(0, k)(i) == 0
    {
      EmptySquares(i);
    }
    SumOfZeros(PieceTerm(0, k), 0, 64);
  }

  /** One turn of the inner loop: the popped square's term leaves the sum. */
  lemma PieceStep(bb: Bitboard, k: nat)
    requires 0 < bb < Pow2(64) && k < 12
    ensures var sq := PopLsb(bb).0; var rest := And(bb, bb - 1);
      0 <= sq < 64 && 0 <= rest < bb &&
      PieceScore(bb, k) == PieceScore(rest, k) + SquareScore(k, sq)
  {
    ClearLowestAgrees(bb);
    PopLsbSquare(bb);
    PopLsbRest(bb);
    var sq := Lowest(bb);
    SquaresOnBoard(bb, sq);
    var rest := And(bb, bb - 1);
    forall i: nat | i < 64
      ensures IsSet(rest, i) <==> IsSet(bb, i) && i != sq
    {
      ClearBitSquares(bb, sq, i);
    }
    SumExcept(PieceTerm(bb, k), PieceTerm(rest, k), 0, 64, sq);
  }

  /** Lines 131-138: the inner loop, adding the term of every square of `bb` for item `k`. */
  method AddPieces(ghost k: nat, piece: char, value: int, table: seq<int>, bb0: Bitboard, score0: int)
    returns (score: int)
    requires k < 12 && PieceValues[k] == (piece, value)
    requires Lower(piece) in "pnbrqk" && table == TableFor(Lower(piece))
    requires 0 <= bb0 < Pow2(64)
    ensures score == score0 + PieceScore(bb0, k)
  {
    score := score0;
    var bb := bb0;
    while bb != 0
      invariant 0 <= bb < Pow2(64)
      invariant score + PieceScore(bb, k) == score0 + PieceScore(bb0, k)
      decreases bb
    {
      PieceStep(bb, k);
      var sq := BitLength(And(bb, -bb)) - 1;
      bb := And(bb, bb - 1);
      if IsUpper(piece) {
        score := score + (value + table[sq]);
      } else {
        score := score - (value + table[FlipSquare(sq)]);
      }
    }
    NoPieceScore(k);
  }

  /** `evaluate(pos)`: lines 109-112 walk `PIECE_VALUES` in order and pick each item's board and table. */
  method Evaluate(pos: Position) returns (score: int)
    requires pos.Valid() && OnBoard(pos.Value())
    ensures score == Score(pos.Value())
  {
    ghost var b := pos.Value();
    score := 0;
    for k := 0 to 12
      invariant score == Total(ItemScores(b), k)
    {
      PieceValuesIndexed(k);
      var (piece, value) := PieceValues[k];
      var idx := PieceIndex(piece).value;
      var bb := pos.pieces[idx];
      var table := TableFor(Lower(piece));
      score := AddPieces(k, piece, value, table, bb, score);
    }
  }

  // ---------------------------------------------------------------------------
  // What the score is worth.

  /** Changing one term of a total changes the total by the difference. */
  lemma {:induction false} TotalReplace(s: seq<int>, k: nat, x: int, n: nat)
    requires k < |s| && n <= |s|
    ensures Total(s[k := x], n) == Total(s, n) + (if k < n then x - s[k] else 0)
  {
    if n > 0 {
      TotalReplace(s, k, x, n - 1);
    }
  }

  /** The total of twelve terms, the white item and the black item of each kind side by side. */
  lemma TotalPairs(s: seq<int>)
    requires |s| == 12
    ensures Total(s, 12) == (s[0] + s[6]) + (s[1] + s[7]) + (s[2] + s[8]) +
      (s[3] + s[9]) + (s[4] + s[10]) + (s[5] + s[11])
  {
    assert Total(s, 1) == s[0];
    assert Total(s, 2) == s[0] + s[1];
    assert Total(s, 3) == s[0] + s[1] + s[2];
    assert Total(s, 4) == s[0] + s[1] + s[2] + s[3];
    assert Total(s, 5) == s[0] + s[1] + s[2] + s[3] + s[4];
    assert Total(s, 6) == s[0] + s[1] + s[2] + s[3] + s[4] + s[5];
    assert Total(s, 7) == s[0] + s[1] + s[2] + s[3] + s[4] + s[5] + s[6];
    assert Total(s, 8) == s[0] + s[1] + s[2] + s[3] + s[4] + s[5] + s[6] + s[7];
    assert Total(s, 9) == s[0] + s[1] + s[2] + s[3] + s[4] + s[5] + s[6] + s[7] + s[8];
    assert Total(s, 10) == s[0] + s[1] + s[2] + s[3] + s[4] + s[5] + s[6] + s[7] + s[8] + s[9];
    assert Total(s, 11) == s[0] + s[1] + s[2] + s[3] + s[4] + s[5] + s[6] + s[7] + s[8] + s[9] + s[10];
  }

  /** What a piece of item `k` on `t` is worth: white adds value and table entry, black subtracts them at the mirrored square. */
  lemma SquareScoreValue(k: nat, t: nat)
    requires k < 12 && t < 64
    ensures Lower(PieceValues[k].0) in "pnbrqk"
    ensures k < 6 ==> SquareScore(k, t) == PieceValues[k].1 + TableFor(Lower(PieceValues[k].0))[t]
    ensures k >= 6 ==> SquareScore(k, t) == -(PieceValues[k].1 + TableFor(Lower(PieceValues[k].0))[FlipSquare(t)])
  {
    PieceValuesIndexed(k);
  }

  /** A piece put on an empty square of its board adds its square's term. */
  lemma PlaceOnBoard(bb: Bitboard, k: nat, t: nat)
    requires k < 12 && t < 64 && !IsSet(bb, t)
    ensures PieceScore(SetBit(bb, t), k) == PieceScore(bb, k) + SquareScore(k, t)
  {
    forall i: nat | i < 64
      ensures IsSet(SetBit(bb, t), i) <==> IsSet(bb, i) || i == t
    {
      SetBitSquares(bb, t, i);
    }
    SumExcept(PieceTerm(SetBit(bb, t), k), PieceTerm(bb, k), 0, 64, t);
  }

  /**
   * Lines 131-138: a piece of item `k` put on an empty square `t` adds its
   * material value and its table entry to the score when it is white, and
   * subtracts them (the table read at the mirrored square) when it is black.
   */
  lemma PlaceAddsPiece(b: Board, k: nat, t: nat)
    requires OnBoard(b) && k < 12 && t < 64 && !IsSet(b.pieces[k], t)
    ensures OnBoard(Place(b, k, t))
    ensures Score(Place(b, k, t)) == Score(b) + SquareScore(k, t)
  {
    var c := Place(b, k, t);
    SetClearBounds(b.pieces[k], t);
    assert OnBoard(c) by {
      forall i | 0 <= i < 12
        ensures 0 <= c.pieces[i] < Pow2(64)
      {
        if i != k {
          assert c.pieces[i] == b.pieces[i];
        }
      }
    }
    PlaceOnBoard(b.pieces[k], k, t);
    var x := PieceScore(c.pieces[k], k);
    assert ItemScores(c) == ItemScores(b)[k := x];
    TotalReplace(ItemScores(b), k, x, 12);
  }

  /** A king's square term is its table entry alone. */
  lemma KingSquareScore(t: nat)
    requires t < 64
    ensures SquareScore(5, t) == KingMiddlegameTable[t]
    ensures SquareScore(11, t) == -KingMiddlegameTable[FlipSquare(t)]
  {
    SquareScoreValue(5, t);
    SquareScoreValue(11, t);
  }

  /** Lines 11, 17, 78-87: a king adds no material, only its table entry. */
  lemma KingScoresTableOnly(b: Board, t: nat)
    requires OnBoard(b) && t < 64
    ensures !IsSet(b.pieces[5], t) ==> Score(Place(b, 5, t)) == Score(b) + KingMiddlegameTable[t]
    ensures !IsSet(b.pieces[11], t) ==> Score(Place(b, 11, t)) == Score(b) - KingMiddlegameTable[FlipSquare(t)]
  {
    KingSquareScore(t);
    if !IsSet(b.pieces[5], t) {
      PlaceAddsPiece(b, 5, t);
    }
    if !IsSet(b.pieces[11], t) {
      PlaceAddsPiece(b, 11, t);
    }
  }

  /** A board without pieces (whatever its side, castling rights and clocks). */
  predicate NoPieces(b: Board)
  {
    |b.pieces| == 12 && forall i :: 0 <= i < 12 ==> b.pieces[i] == 0
  }

  /** Terms that are all 0 total 0. */
  lemma {:induction false} TotalOfZeros(s: seq<int>, n: nat)
    requires n <= |s|
    requires forall k :: 0 <= k < |s| ==> s[k] == 0
    ensures Total(s, n) == 0
  {
    if n > 0 {
      TotalOfZeros(s, n - 1);
    }
  }

  /** A position without pieces scores 0. */
  lemma NoPiecesScore(b: Board)
    requires NoPieces(b)
    ensures OnBoard(b) && Score(b) == 0
  {
    var s := ItemScores(b);
    forall k | 0 <= k < 12
      ensures s[k] == 0
    {
      NoPieceScore(k);
    }
    TotalOfZeros(s, 12);
  }

  /** Item `k + 6` is the black piece of item `k`'s kind, with the same value. */
  lemma SameKind(k: nat)
    requires k < 6
    ensures PieceValues[k + 6].1 == PieceValues[k].1
    ensures Lower(PieceValues[k + 6].0) == Lower(PieceValues[k].0)
  {
    if k == 0 {} else if k == 1 {} else if k == 2 {} else if k == 3 {} else if k == 4 {} else {}
  }

  /** A white piece of item `k` and a black piece of the same kind on the mirrored square cancel. */
  lemma SquareScoreMirror(k: nat, t: nat)
    requires k < 6 && t < 64
    ensures SquareScore(k + 6, FlipSquare(t)) == -SquareScore(k, t)
  {
    FlipSquareInvolution(t);
    SameKind(k);
    SquareScoreValue(k, t);
    SquareScoreValue(k + 6, FlipSquare(t));
  }

  /** Boards `bm` and `bb` hold the same squares up to `flip_square`. */
  predicate FlippedBoards(bm: Bitboard, bb: Bitboard)
  {
    forall t: nat :: t < 64 ==> (IsSet(bm, t) <==> IsSet(bb, FlipSquare(t)))
  }

  /** `m` is `b` with the colours swapped and the ranks mirrored. */
  predicate Mirrored(b: Board, m: Board)
  {
    |b.pieces| == 12 && |m.pieces| == 12 &&
    forall i :: 0 <= i < 6 ==>
      FlippedBoards(m.pieces[i], b.pieces[i + 6]) && FlippedBoards(m.pieces[i + 6], b.pieces[i])
  }

  /** The pieces of a flipped board, recoloured, score the negation. */
  lemma PieceScoreMirror(bm: Bitboard, bb: Bitboard, k: nat)
    requires k < 6 && FlippedBoards(bm, bb)
    ensures PieceScore(bm, k) == -PieceScore(bb, k + 6)
    ensures PieceScore(bm, k + 6) == -PieceScore(bb, k)
  {
    forall t: nat | t < 64
      ensures PieceTerm(bm, k)(t) == -PieceTerm(bb, k + 6)(FlipSquare(t))
      ensures PieceTerm(bm, k + 6)(t) == -PieceTerm(bb, k)(FlipSquare(t))
    {
      SquareScoreMirror(k, t);
      SquareScoreMirror(k, FlipSquare(t));
      FlipSquareInvolution(t);
    }
    SumMirror(PieceTerm(bb, k + 6), PieceTerm(bm, k));
    SumMirror(PieceTerm(bb, k), PieceTerm(bm, k + 6));
  }

  /** Twelve terms whose white-and-black pairs are negated have the negated total. */
  lemma TotalNegated(s: seq<int>, sm: seq<int>)
    requires |s| == 12 && |sm| == 12
    requires forall k :: 0 <= k < 6 ==> sm[k] + sm[k + 6] == -(s[k] + s[k + 6])
    ensures Total(sm, 12) == -Total(s, 12)
  {
    TotalPairs(s);
    TotalPairs(sm);
  }

  /** The white and black pieces of one kind, mirrored, score the negation. */
  lemma PairMirror(b: Board, m: Board, k: nat)
    requires Mirrored(b, m) && k < 6
    ensures ItemScores(m)[k] + ItemScores(m)[k + 6] == -(ItemScores(b)[k] + ItemScores(b)[k + 6])
  {
    PieceScoreMirror(m.pieces[k], b.pieces[k + 6], k);
    PieceScoreMirror(m.pieces[k + 6], b.pieces[k], k);
  }

  /**
   * Lines 96-101 and 135-138: swapping the colours of every piece and
   * mirroring the ranks negates the score.
   */
  lemma MirrorNegates(b: Board, m: Board)
    requires Mirrored(b, m)
    ensures Score(m) == -Score(b)
  {
    forall k | 0 <= k < 6
      ensures ItemScores(m)[k] + ItemScores(m)[k + 6] == -(ItemScores(b)[k] + ItemScores(b)[k + 6])
    {
      PairMirror(b, m, k);
    }
    TotalNegated(ItemScores(b), ItemScores(m));
  }

  /** A position that is its own mirror image (the start position, king against king on e1 and e8) scores 0. */
  lemma SymmetricScoresZero(b: Board)
    requires Mirrored(b, b)
    ensures Score(b) == 0
  {
    MirrorNegates(b, b);
  }

  /** A white rook on a1 is worth its material: the rook table holds 0 there. */
  lemma RookOnA1()
    ensures SquareScore(3, 0) == 500
  {
    SquareScoreValue(3, 0);
    assert PieceValues[3] == ('R', 500);
    assert Lower('R') == 'r';
  }

  /** Kings put on e1 and e8 leave the score as it was. */
  lemma KingsCancel(a: Board, b: Board)
    requires OnBoard(a) && !IsSet(a.pieces[5], 4) && !IsSet(a.pieces[11], 60)
    requires b == Place(a, 5, 4)
    ensures Score(Place(b, 11, 60)) == Score(a)
  {
    PlaceAddsPiece(a, 5, 4);
    assert b.pieces[11] == a.pieces[11];
    PlaceAddsPiece(b, 11, 60);
    SquareScoreMirror(5, 4);
  }

  /** Lines 5-18 and 78-87 on the position "4k3/8/8/8/8/8/8/4K3": kings on e1 and e8 cancel. */
  lemma OnlyKingsScore(e: Board)
    requires NoPieces(e)
    ensures Score(Place(Place(e, 5, 4), 11, 60)) == 0
  {
    EmptySquares(4);
    EmptySquares(60);
    NoPiecesScore(e);
    KingsCancel(e, Place(e, 5, 4));
  }

  /** Lines 5-18 and 78-87 on the position "4k3/8/8/8/8/8/8/R3K3": a rook on a1 is worth 500. */
  lemma RookAndKingsScore(e: Board)
    requires NoPieces(e)
    ensures Score(Place(Place(Place(e, 3, 0), 5, 4), 11, 60)) == 500
  {
    EmptySquares(0);
    EmptySquares(4);
    EmptySquares(60);
    NoPiecesScore(e);
    PlaceAddsPiece(e, 3, 0);
    RookOnA1();
    var r := Place(e, 3, 0);
    assert r.pieces[5] == 0 && r.pieces[11] == 0;
    KingsCancel(r, Place(r, 5, 4));
  }

  // ---------------------------------------------------------------------------
  // How large the score can be.

  /** A bound on `|evaluate(pos)|` for every position: 12 boards of 64 squares, each worth at most 950. */
  const ScoreBound: int := 729600

  /** Every entry of `s` lies in `-c..c`. */
  predicate EntriesWithin(s: seq<int>, c: int)
  {
    forall x :: x in s ==> -c <= x <= c
  }

  /** No piece-square entry exceeds 50 in magnitude. */
  lemma TablesWithin(kind: char)
    requires kind in "pnbrqk"
    ensures EntriesWithin(TableFor(kind), 50)
  {
    if kind == 'p' {
      PawnTableWithin();
    } else if kind == 'n' {
      KnightTableWithin();
    } else if kind == 'b' {
      BishopTableWithin();
    } else if kind == 'r' {
      RookTableWithin();
    } else if kind == 'q' {
      QueenTableWithin();
    } else {
      KingTableWithin();
    }
  }

  lemma PawnTableWithin()
    ensures EntriesWithin(PawnTable, 50)
  {
  }

  lemma KnightTableWithin()
    ensures EntriesWithin(KnightTable, 50)
  {
  }

  lemma BishopTableWithin()
    ensures EntriesWithin(BishopTable, 50)
  {
  }

  lemma RookTableWithin()
    ensures EntriesWithin(RookTable, 50)
  {
  }

  lemma QueenTableWithin()
    ensures EntriesWithin(QueenTable, 50)
  {
  }

  lemma KingTableWithin()
    ensures EntriesWithin(KingMiddlegameTable, 50)
  {
  }

  /** Lines 5-18: no piece is worth more than 900. */
  lemma ValueWithin(k: nat)
    requires k < 12
    ensures 0 <= PieceValues[k].1 <= 900
  {
    assert PieceValues[k] in PieceValues;
  }

  lemma SquareScoreBounded(k: nat, t: nat)
    requires k < 12 && t < 64
    ensures -950 <= SquareScore(k, t) <= 950
  {
    SquareScoreValue(k, t);
    ValueWithin(k);
    var table := TableFor(Lower(PieceValues[k].0));
    TablesWithin(Lower(PieceValues[k].0));
    assert table[t] in table && table[FlipSquare(t)] in table;
  }

  lemma {:induction false} SumBounded(f: nat -> int, lo: nat, hi: nat, c: int)
    requires lo <= hi && c >= 0
    requires forall i: nat :: lo <= i < hi ==> -c <= f(i) <= c
    ensures -c * (hi - lo) <= Sum(f, lo, hi) <= c * (hi - lo)
    decreases hi - lo
  {
    if lo < hi {
      SumBounded(f, lo + 1, hi, c);
      assert c * (hi - lo) == c + c * (hi - (lo + 1));
    }
  }

  lemma {:induction false} TotalBounded(s: seq<int>, n: nat, c: int)
    requires n <= |s| && c >= 0
    requires forall i :: 0 <= i < |s| ==> -c <= s[i] <= c
    ensures -c * n <= Total(s, n) <= c * n
  {
    if n > 0 {
      TotalBounded(s, n - 1, c);
      assert c * n == c * (n - 1) + c;
    }
  }

  /** Every position's score lies within `ScoreBound`, far inside `INFINITY`. */
  lemma ScoreBounded(b: Board)
    requires |b.pieces| == 12
    ensures -ScoreBound <= Score(b) <= ScoreBound
  {
    forall k | 0 <= k < 12
      ensures -60800 <= ItemScores(b)[k] <= 60800
    {
      forall t: nat | t < 64
        ensures -950 <= PieceTerm(b.pieces[k], k)(t) <= 950
      {
        SquareScoreBounded(k, t);
      }
      SumBounded(PieceTerm(b.pieces[k], k), 0, 64, 950);
    }
    TotalBounded(ItemScores(b), 12, 60800);
  }
}
