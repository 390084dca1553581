/**
 * The position record (engine/position.py): twelve piece bitboards in the
 * order "PNBRQKpnbrqk", the cached occupancy boards and the game state.
 *
 * `Position` is the mutable object the original passes around; `Board` is
 * a value snapshot of it that the specification functions work on.
 */
module Positions {
  import opened Wrappers
  import opened PyInt
  import opened Bitboard

  const PieceOrder: string := "PNBRQKpnbrqk"

  /** `PIECE_TO_INDEX`, written out: the board index of a piece letter. */
  function PieceIndex(c: char): (r: Option<nat>)
    ensures r.Some? ==> r.value < 12
  {
    match c
    case 'P' => Some(0)
    case 'N' => Some(1)
    case 'B' => Some(2)
    case 'R' => Some(3)
    case 'Q' => Some(4)
    case 'K' => Some(5)
    case 'p' => Some(6)
    case 'n' => Some(7)
    case 'b' => Some(8)
    case 'r' => Some(9)
    case 'q' => Some(10)
    case 'k' => Some(11)
    case _ => None
  }

  /** The table is `enumerate(PIECE_ORDER)`: a letter has an index exactly when it is in the order, and the index is its position there. */
  lemma PieceIndexMeaning(c: char)
    ensures PieceIndex(c).None? <==> c !in PieceOrder
    ensures PieceIndex(c).Some? ==> PieceOrder[PieceIndex(c).value] == c
  {
    if c in PieceOrder {
      var i :| 0 <= i < 12 && PieceOrder[i] == c;
      assert PieceIndex(PieceOrder[i]).Some?;
    }
  }

  lemma PieceOrderDistinct(i: int, j: int)
    requires 0 <= i < 12 && 0 <= j < 12 && PieceOrder[i] == PieceOrder[j]
    ensures i == j
  {
  }

  /**
   * `PIECE_TO_INDEX` is a bijection between the twelve letters and 0..11;
   * white letters (upper case) get 0..5 and black letters 6..11.
   */
  lemma PieceIndexBijective(c: char, i: int)
    requires 0 <= i < 12
    ensures PieceIndex(c) == Some(i) <==> c == PieceOrder[i]
    ensures PieceIndex(c).Some? ==> (PieceIndex(c).value < 6 <==> c in "PNBRQK")
  {
    if c == PieceOrder[i] {
      PieceOrderDistinct(PieceIndex(c).value, i);
    }
    if PieceIndex(c).Some? {
      var j := PieceIndex(c).value;
      assert PieceOrder[..6] == "PNBRQK";
      if c in "PNBRQK" {
        var k :| 0 <= k < 6 && PieceOrder[k] == c;
        PieceOrderDistinct(j, k);
      }
    }
  }

  /** The side to move; the original stores it as "w" or "b". */
  datatype Side = White | Black
  {
    function Opponent(): Side
    {
      if this == White then Black else White
    }

    /** The first of the six board indices holding this side's pieces. */
    function FirstIndex(): nat
    {
      if this == White then 0 else 6
    }
  }

  function SideText(s: Side): string
  {
    if s == White then "w" else "b"
  }

  /** A snapshot of every field of a position. */
  datatype Board = Board(
    pieces: seq<Bitboard>,
    whiteOcc: Bitboard,
    blackOcc: Bitboard,
    allOcc: Bitboard,
    side: Side,
    castling: string,
    ep: Option<int>,
    halfmove: int,
    fullmove: int)

  /** The OR of `s[lo]`, ..., `s[hi - 1]`, folded from the left as the original's loops do. */
  function Union(s: seq<Bitboard>, lo: nat, hi: nat): Bitboard
    requires lo <= hi <= |s|
    decreases hi
  {
    if hi == lo then 0 else Or(Union(s, lo, hi - 1), s[hi - 1])
  }

  /** A square is in the union exactly when it is in one of the boards. */
  lemma {:induction false} UnionSquares(s: seq<Bitboard>, lo: nat, hi: nat, t: nat)
    requires lo <= hi <= |s|
    ensures IsSet(Union(s, lo, hi), t) <==> exists i :: lo <= i < hi && IsSet(s[i], t)
    decreases hi
  {
    if hi == lo {
      EmptySquares(t);
    } else {
      UnionSquares(s, lo, hi - 1, t);
      IsSetIsDigit(Union(s, lo, hi), t);
      IsSetIsDigit(Union(s, lo, hi - 1), t);
      IsSetIsDigit(s[hi - 1], t);
      HasOr(Union(s, lo, hi - 1), s[hi - 1], t);
    }
  }

  /** Boards within 64 bits stay within 64 bits under union. */
  lemma {:induction false} UnionBelow(s: seq<Bitboard>, lo: nat, hi: nat)
    requires lo <= hi <= |s|
    requires forall i :: lo <= i < hi ==> 0 <= s[i] < Pow2(64)
    ensures 0 <= Union(s, lo, hi) < Pow2(64)
    decreases hi
  {
    if hi > lo {
      UnionBelow(s, lo, hi - 1);
      OrBelow(Union(s, lo, hi - 1), s[hi - 1], 64);
    }
  }

  /** The occupancy boards agree with the piece boards. */
  predicate OccupancyConsistent(b: Board)
  {
    |b.pieces| == 12 &&
    b.whiteOcc == Union(b.pieces, 0, 6) &&
    b.blackOcc == Union(b.pieces, 6, 12) &&
    b.allOcc == Or(b.whiteOcc, b.blackOcc)
  }

  /** The effect of `recompute_occupancy` on a snapshot. */
  function Recompute(b: Board): (r: Board)
    requires |b.pieces| == 12
  {
    var w := Union(b.pieces, 0, 6);
    var bl := Union(b.pieces, 6, 12);
    b.(whiteOcc := w, blackOcc := bl, allOcc := Or(w, bl))
  }

  /**
   * After recomputation the occupancy boards agree with the pieces, only
   * the three occupancy fields differ, and recomputing again changes
   * nothing: a consistent position is exactly a fixed point.
   */
  lemma RecomputeProperties(b: Board)
    requires |b.pieces| == 12
    ensures OccupancyConsistent(Recompute(b))
    ensures Recompute(b).(whiteOcc := b.whiteOcc, blackOcc := b.blackOcc, allOcc := b.allOcc) == b
    ensures Recompute(Recompute(b)) == Recompute(b)
    ensures OccupancyConsistent(b) <==> Recompute(b) == b
  {
  }

  /** The occupancy boards of a consistent position, square by square. */
  lemma OccupancySquares(b: Board, t: nat)
    requires OccupancyConsistent(b)
    ensures IsSet(b.whiteOcc, t) <==> exists i :: 0 <= i < 6 && IsSet(b.pieces[i], t)
    ensures IsSet(b.blackOcc, t) <==> exists i :: 6 <= i < 12 && IsSet(b.pieces[i], t)
    ensures IsSet(b.allOcc, t) <==> exists i :: 0 <= i < 12 && IsSet(b.pieces[i], t)
  {
    UnionSquares(b.pieces, 0, 6, t);
    UnionSquares(b.pieces, 6, 12, t);
    IsSetIsDigit(b.allOcc, t);
    IsSetIsDigit(b.whiteOcc, t);
    IsSetIsDigit(b.blackOcc, t);
    HasOr(b.whiteOcc, b.blackOcc, t);
  }

  /** Every piece board fits in 64 bits. */
  predicate OnBoard(b: Board)
  {
    |b.pieces| == 12 && forall i :: 0 <= i < 12 ==> 0 <= b.pieces[i] < Pow2(64)
  }

  /** A consistent position with boards in 64 bits has occupancy boards in 64 bits. */
  lemma OccupancyOnBoard(b: Board)
    requires OccupancyConsistent(b) && OnBoard(b)
    ensures 0 <= b.whiteOcc < Pow2(64) && 0 <= b.blackOcc < Pow2(64) && 0 <= b.allOcc < Pow2(64)
  {
    UnionBelow(b.pieces, 0, 6);
    UnionBelow(b.pieces, 6, 12);
    OrBelow(b.whiteOcc, b.blackOcc, 64);
  }

  /** The snapshot `Position.empty()` produces. */
  function EmptyBoard(): Board
  {
    Board(seq(12, _ => 0), 0, 0, 0, White, "-", None, 0, 1)
  }

  /** A board with one more piece of board `k` on `t`. */
  function Place(b: Board, k: nat, t: nat): Board
    requires |b.pieces| == 12 && k < 12
  {
    b.(pieces := b.pieces[k := SetBit(b.pieces[k], t)])
  }

  /** The empty position holds no piece, and its occupancy boards agree with that. */
  lemma EmptyBoardProperties(t: nat)
    ensures OccupancyConsistent(EmptyBoard()) && OnBoard(EmptyBoard())
    ensures forall i :: 0 <= i < 12 ==> !IsSet(EmptyBoard().pieces[i], t)
    ensures !IsSet(EmptyBoard().allOcc, t)
  {
    EmptySquares(t);
    assert Union(EmptyBoard().pieces, 0, 6) == 0 by {
      assert Union(EmptyBoard().pieces, 0, 1) == 0;
      assert Union(EmptyBoard().pieces, 0, 2) == 0;
      assert Union(EmptyBoard().pieces, 0, 3) == 0;
      assert Union(EmptyBoard().pieces, 0, 4) == 0;
      assert Union(EmptyBoard().pieces, 0, 5) == 0;
    }
    assert Union(EmptyBoard().pieces, 6, 12) == 0 by {
      assert Union(EmptyBoard().pieces, 6, 7) == 0;
      assert Union(EmptyBoard().pieces, 6, 8) == 0;
      assert Union(EmptyBoard().pieces, 6, 9) == 0;
      assert Union(EmptyBoard().pieces, 6, 10) == 0;
      assert Union(EmptyBoard().pieces, 6, 11) == 0;
    }
  }

  class Position {
    const pieces: array<Bitboard>
    var whiteOcc: Bitboard
    var blackOcc: Bitboard
    var allOcc: Bitboard
    var side: Side
    var castling: string
    var ep: Option<int>
    var halfmove: int
    var fullmove: int

    predicate Valid()
    {
      pieces.Length == 12
    }

    /** The snapshot of the current field values. */
    function Value(): Board
      reads this, pieces
    {
      Board(pieces[..], whiteOcc, blackOcc, allOcc, side, castling, ep, halfmove, fullmove)
    }

    /** `Position.empty()`. */
    constructor Empty()
      ensures Valid() && fresh(pieces)
      ensures Value() == EmptyBoard()
    {
      pieces := new Bitboard[12](_ => 0);
      whiteOcc, blackOcc, allOcc := 0, 0, 0;
      side := White;
      castling := "-";
      ep := None;
      halfmove, fullmove := 0, 1;
    }

    /** A position holding the fields of `b`, with a fresh list of boards. */
    constructor FromBoard(b: Board)
      requires |b.pieces| == 12
      ensures Valid() && fresh(pieces)
      ensures Value() == b
    {
      pieces := new Bitboard[12](i requires 0 <= i < 12 => b.pieces[i]);
      whiteOcc, blackOcc, allOcc := b.whiteOcc, b.blackOcc, b.allOcc;
      side := b.side;
      castling := b.castling;
      ep := b.ep;
      halfmove, fullmove := b.halfmove, b.fullmove;
      new;
      assert pieces[..] == b.pieces;
    }

    /** `Position.copy()`: a deep copy that shares no list with the original. */
    method Copy() returns (p: Position)
      requires Valid()
      ensures fresh(p) && fresh(p.pieces) && p.Valid()
      ensures p.Value() == Value()
    {
      p := new Position.FromBoard(Value());
    }

    /** `recompute_occupancy`: rebuilds the three occupancy boards from the pieces. */
    method RecomputeOccupancy()
      requires Valid()
      modifies this
      ensures whiteOcc == Union(pieces[..], 0, 6)
      ensures blackOcc == Union(pieces[..], 6, 12)
      ensures allOcc == Or(whiteOcc, blackOcc)
      ensures Value() == Recompute(old(Value()))
    {
      var w := 0;
      var b := 0;
      for i := 0 to 6
        invariant w == Union(pieces[..], 0, i)
      {
        w := Or(w, pieces[i]);
      }
      for i := 6 to 12
        invariant b == Union(pieces[..], 6, i)
      {
        b := Or(b, pieces[i]);
      }
      whiteOcc := w;
      blackOcc := b;
      allOcc := Or(w, b);
    }
  }
}
