/**
 * Making a move (engine/makeunmake.py): the full state transition from a
 * position and a move to the next position. The original copies the
 * position and rewrites the copy's piece list in place; `MakeMove` does
 * the same on a `Position` object and is proved equal to `Apply`, a pure
 * function of the snapshot built from one function per step of the
 * original. The lemmas state what each step promises.
 */
module MakeUnmake {
  import opened Wrappers
  import opened PyInt
  import opened Bitboard
  import opened Positions
  import opened Moves

  /**
   * The first board among `p[lo]`, ..., `p[hi - 1]` holding `sq`, as the
   * original's searches for the moving and the captured piece find it.
   */
  function FirstHolder(p: seq<Bitboard>, lo: nat, hi: nat, sq: nat): (r: Option<nat>)
    requires lo <= hi <= |p|
    ensures r.Some? ==> lo <= r.value < hi && IsSet(p[r.value], sq)
    ensures forall j :: lo <= j < hi && (r.None? || j < r.value) ==> !IsSet(p[j], sq)
    decreases hi - lo
  {
    if lo == hi then None
    else if IsSet(p[lo], sq) then Some(lo)
    else FirstHolder(p, lo + 1, hi, sq)
  }

  /** Python's `str.upper()` on one ASCII character. */
  function Upper(c: char): char
  {
    if 'a' <= c <= 'z' then (c as int - 32) as char else c
  }

  /** Python's `str.lower()` on one ASCII character. */
  function Lower(c: char): char
  {
    if 'A' <= c <= 'Z' then (c as int + 32) as char else c
  }

  /** The piece letter a promotion names for the side to move. */
  function PromoLetter(side: Side, c: char): char
  {
    if side == White then Upper(c) else Lower(c)
  }

  /** `str.replace(c, "")`. */
  function RemoveChar(s: string, c: char): (r: string)
    ensures forall x :: x in r <==> x in s && x != c
  {
    if |s| == 0 then ""
    else (if s[0] == c then "" else [s[0]]) + RemoveChar(s[1..], c)
  }

  /** The board index of the moving piece: the first own board holding the origin square. */
  function MoverOf(b: Board, m: Move): Option<nat>
    requires |b.pieces| == 12 && m.fromSq >= 0
  {
    var own := b.side.FirstIndex();
    FirstHolder(b.pieces, own, own + 6, m.fromSq)
  }

  /**
   * What `make_move` needs not to raise: squares that are valid shift
   * counts, a piece of the side to move on the origin, a promotion letter
   * naming a piece, no en-passant victim square below 0 (a white capture
   * onto the first rank) and no queenside rook square below 0.
   */
  predicate Makeable(b: Board, m: Move)
  {
    |b.pieces| == 12 && m.fromSq >= 0 && m.toSq >= 0 &&
    var own := b.side.FirstIndex();
    var mover := MoverOf(b, m);
    mover.Some? &&
    (m.promo.Some? ==> PieceIndex(PromoLetter(b.side, m.promo.value)).Some?) &&
    !(b.side == White && b.ep == Some(m.toSq) && mover.value == own && m.toSq < 8) &&
    !(mover.value == own + 5 && m.fromSq - m.toSq == 2 && m.fromSq < 4)
  }

  // ---------------------------------------------------------------------------
  // The steps of `make_move` on the list of piece boards.

  /** Lines 19-20: the mover's board loses the origin and gains the target. */
  function MovePiece(p: seq<Bitboard>, mover: nat, from: nat, to: nat): (r: seq<Bitboard>)
    requires mover < |p|
    ensures |r| == |p| && forall j :: 0 <= j < |p| && j != mover ==> r[j] == p[j]
  {
    p[mover := SetBit(ClearBit(p[mover], from), to)]
  }

  /** Lines 23-26: the first enemy board holding the target loses it. */
  function Capture(p: seq<Bitboard>, enemy: nat, to: nat): (r: seq<Bitboard>)
    requires enemy + 6 <= |p|
    ensures |r| == |p|
    ensures forall j :: 0 <= j < |p| && Some(j) != FirstHolder(p, enemy, enemy + 6, to) ==> r[j] == p[j]
  {
    match FirstHolder(p, enemy, enemy + 6, to)
    case Some(i) => p[i := ClearBit(p[i], to)]
    case None => p
  }

  /** Lines 29-35: a promotion takes the target off the mover's board and puts it on the promoted kind's. */
  function Promote(p: seq<Bitboard>, side: Side, mover: nat, to: nat, promo: Option<char>): (r: seq<Bitboard>)
    requires mover < |p| == 12
    requires promo.Some? ==> PieceIndex(PromoLetter(side, promo.value)).Some?
    ensures |r| == |p|
    ensures promo.None? ==> r == p
    ensures forall j :: 0 <= j < |p| && j != mover && (promo.None? || Some(j) != PieceIndex(PromoLetter(side, promo.value))) ==> r[j] == p[j]
  {
    match promo
    case None => p
    case Some(c) =>
      var q := p[mover := ClearBit(p[mover], to)];
      var k := PieceIndex(PromoLetter(side, c)).value;
      q[k := SetBit(q[k], to)]
  }

  /** Whether the move captures en passant: a pawn of the side to move lands on the en-passant square. */
  predicate EnPassantFires(side: Side, ep: Option<int>, mover: nat, to: int)
  {
    ep.Some? && to == ep.value && mover == side.FirstIndex()
  }

  /** Lines 39-49: an en-passant capture removes the enemy pawn one rank behind the target. */
  function EnPassantCapture(p: seq<Bitboard>, side: Side, ep: Option<int>, mover: nat, to: int): (r: seq<Bitboard>)
    requires |p| == 12
    requires EnPassantFires(side, ep, mover, to) ==> (if side == White then ep.value >= 8 else ep.value >= -8)
    ensures |r| == |p|
    ensures forall j :: 0 <= j < |p| && j != side.Opponent().FirstIndex() ==> r[j] == p[j]
    ensures !EnPassantFires(side, ep, mover, to) ==> r == p
  {
    if EnPassantFires(side, ep, mover, to) then
      if side == White then p[6 := ClearBit(p[6], ep.value - 8)]
      else p[0 := ClearBit(p[0], ep.value + 8)]
    else p
  }

  /** Lines 65-80: a king moving two files also moves its rook. */
  function CastleRook(p: seq<Bitboard>, side: Side, mover: nat, from: int, to: int): (r: seq<Bitboard>)
    requires |p| == 12
    requires mover == side.FirstIndex() + 5 && from - to == 2 ==> from >= 4
    requires from >= 0
    ensures |r| == |p|
    ensures forall j :: 0 <= j < |p| && j != side.FirstIndex() + 3 ==> r[j] == p[j]
    ensures !(mover == side.FirstIndex() + 5 && (to - from == 2 || from - to == 2)) ==> r == p
  {
    var rook := side.FirstIndex() + 3;
    if mover == side.FirstIndex() + 5 && to - from == 2 then
      p[rook := SetBit(ClearBit(p[rook], from + 3), from + 1)]
    else if mover == side.FirstIndex() + 5 && from - to == 2 then
      p[rook := SetBit(ClearBit(p[rook], from - 4), from - 1)]
    else p
  }

  /** Lines 53-62: the new en-passant square, behind a pawn's double push. */
  function NewEp(side: Side, mover: nat, from: int, to: int): Option<int>
  {
    if mover == side.FirstIndex() then
      if side == White && to - from == 16 then Some(from + 8)
      else if side == Black && from - to == 16 then Some(from - 8)
      else None
    else None
  }

  /** The castling letters the move takes away (lines 84-107). */
  predicate Revoked(x: char, side: Side, mover: nat, from: int, to: int)
  {
    (x == 'K' && ((side == White && (mover == 5 || from == 7)) || to == 7)) ||
    (x == 'Q' && ((side == White && (mover == 5 || from == 0)) || to == 0)) ||
    (x == 'k' && ((side == Black && (mover == 11 || from == 63)) || to == 63)) ||
    (x == 'q' && ((side == Black && (mover == 11 || from == 56)) || to == 56))
  }

  /** Lines 84-107: the castling letters left once the move's revocations are applied. */
  function RevokeRights(castling: string, side: Side, mover: nat, from: int, to: int): (c: string)
    ensures forall x :: x in c <==> x in castling && !Revoked(x, side, mover, from, to)
  {
    var c := castling;
    var c := if side == White && mover == 5 then RemoveChar(RemoveChar(c, 'K'), 'Q') else c;
    var c := if side == White && from == 0 then RemoveChar(c, 'Q') else c;
    var c := if side == White && from == 7 then RemoveChar(c, 'K') else c;
    var c := if side == Black && mover == 11 then RemoveChar(RemoveChar(c, 'k'), 'q') else c;
    var c := if side == Black && from == 56 then RemoveChar(c, 'q') else c;
    var c := if side == Black && from == 63 then RemoveChar(c, 'k') else c;
    var c := if to == 0 then RemoveChar(c, 'Q') else c;
    var c := if to == 7 then RemoveChar(c, 'K') else c;
    var c := if to == 56 then RemoveChar(c, 'q') else c;
    if to == 63 then RemoveChar(c, 'k') else c
  }

  /** Line 108: castling rights after the move, "-" when none is left. */
  function CastlingRights(castling: string, side: Side, mover: nat, from: int, to: int): string
  {
    var c := RevokeRights(castling, side, mover, from, to);
    if c == "" then "-" else c
  }

  /** The piece boards after the move. */
  function PiecesAfter(b: Board, m: Move): (p: seq<Bitboard>)
    requires Makeable(b, m)
    ensures |p| == 12
  {
    var own := b.side.FirstIndex();
    var mover := MoverOf(b, m).value;
    var p1 := MovePiece(b.pieces, mover, m.fromSq, m.toSq);
    var p2 := Capture(p1, 6 - own, m.toSq);
    var p3 := Promote(p2, b.side, mover, m.toSq, m.promo);
    var p4 := EnPassantCapture(p3, b.side, b.ep, mover, m.toSq);
    CastleRook(p4, b.side, mover, m.fromSq, m.toSq)
  }

  /** `make_move` on a snapshot. */
  function Apply(b: Board, m: Move): (r: Board)
    requires Makeable(b, m)
  {
    var enemy := b.side.Opponent().FirstIndex();
    var mover := MoverOf(b, m).value;
    var isCapture := FirstHolder(b.pieces, enemy, enemy + 6, m.toSq).Some?;
    var isPawnMove := mover == 0 || mover == 6;
    Recompute(b.(
      pieces := PiecesAfter(b, m),
      ep := NewEp(b.side, mover, m.fromSq, m.toSq),
      castling := CastlingRights(b.castling, b.side, mover, m.fromSq, m.toSq),
      halfmove := if isPawnMove || isCapture then 0 else b.halfmove + 1,
      fullmove := if b.side == Black then b.fullmove + 1 else b.fullmove,
      side := b.side.Opponent()))
  }

  // ---------------------------------------------------------------------------
  // The steps in place, on the copy's list of boards.

  /** Lines 12-16: the loop that finds the moving piece. */
  method FindMover(pieces: array<Bitboard>, side: Side, from: nat) returns (moving: Option<nat>)
    requires pieces.Length == 12
    ensures moving == FirstHolder(pieces[..], side.FirstIndex(), side.FirstIndex() + 6, from)
  {
    var own := side.FirstIndex();
    moving := None;
    var i := own;
    while i < own + 6
      invariant own <= i <= own + 6
      invariant FirstHolder(pieces[..], own, own + 6, from) == FirstHolder(pieces[..], i, own + 6, from)
    {
      if IsSet(pieces[i], from) {
        moving := Some(i);
        break;
      }
      i := i + 1;
    }
  }

  method MovePieceInPlace(pieces: array<Bitboard>, mover: nat, from: nat, to: nat)
    requires mover < pieces.Length
    modifies pieces
    ensures pieces[..] == MovePiece(old(pieces[..]), mover, from, to)
  {
    pieces[mover] := ClearBit(pieces[mover], from);
    pieces[mover] := SetBit(pieces[mover], to);
  }

  /** Lines 23-26: the loop that removes the captured piece. */
  method CaptureInPlace(pieces: array<Bitboard>, enemy: nat, to: nat)
    requires enemy + 6 <= pieces.Length
    modifies pieces
    ensures pieces[..] == Capture(old(pieces[..]), enemy, to)
  {
    ghost var p := pieces[..];
    var i := enemy;
    while i < enemy + 6
      invariant enemy <= i <= enemy + 6
      invariant FirstHolder(p, enemy, enemy + 6, to) == FirstHolder(p, i, enemy + 6, to)
      invariant pieces[..] == p
    {
      if IsSet(pieces[i], to) {
        pieces[i] := ClearBit(pieces[i], to);
        break;
      }
      i := i + 1;
    }
  }

  method PromoteInPlace(pieces: array<Bitboard>, side: Side, mover: nat, to: nat, promo: Option<char>)
    requires mover < pieces.Length == 12
    requires promo.Some? ==> PieceIndex(PromoLetter(side, promo.value)).Some?
    modifies pieces
    ensures pieces[..] == Promote(old(pieces[..]), side, mover, to, promo)
  {
    if promo.Some? {
      pieces[mover] := ClearBit(pieces[mover], to);
      var promoChar := if side == White then Upper(promo.value) else Lower(promo.value);
      var promoIdx := PieceIndex(promoChar).value;
      pieces[promoIdx] := SetBit(pieces[promoIdx], to);
    }
  }

  method EnPassantInPlace(pieces: array<Bitboard>, side: Side, ep: Option<int>, mover: nat, to: int)
    requires pieces.Length == 12
    requires EnPassantFires(side, ep, mover, to) ==> (if side == White then ep.value >= 8 else ep.value >= -8)
    modifies pieces
    ensures pieces[..] == EnPassantCapture(old(pieces[..]), side, ep, mover, to)
  {
    if ep.Some? && to == ep.value {
      var pawnIdx := if side == White then 0 else 6;
      if mover == pawnIdx {
        if side == White {
          pieces[6] := ClearBit(pieces[6], ep.value - 8);
        } else {
          pieces[0] := ClearBit(pieces[0], ep.value + 8);
        }
      }
    }
  }

  method CastleRookInPlace(pieces: array<Bitboard>, side: Side, mover: nat, from: int, to: int)
    requires pieces.Length == 12
    requires mover == side.FirstIndex() + 5 && from - to == 2 ==> from >= 4
    requires from >= 0
    modifies pieces
    ensures pieces[..] == CastleRook(old(pieces[..]), side, mover, from, to)
  {
    var kingIdx := if side == White then 5 else 11;
    if mover == kingIdx {
      var rookIdx := if side == White then 3 else 9;
      if to - from == 2 {
        pieces[rookIdx] := ClearBit(pieces[rookIdx], from + 3);
        pieces[rookIdx] := SetBit(pieces[rookIdx], from + 1);
      } else if from - to == 2 {
        pieces[rookIdx] := ClearBit(pieces[rookIdx], from - 4);
        pieces[rookIdx] := SetBit(pieces[rookIdx], from - 1);
      }
    }
  }

  /** Lines 84-108, as the original rewrites `new_castling` step by step. */
  method UpdateCastling(castling: string, side: Side, mover: nat, from: int, to: int) returns (r: string)
    ensures r == CastlingRights(castling, side, mover, from, to)
  {
    var newCastling := castling;
    if side == White {
      if mover == 5 {
        newCastling := RemoveChar(RemoveChar(newCastling, 'K'), 'Q');
      }
      if from == 0 {
        newCastling := RemoveChar(newCastling, 'Q');
      }
      if from == 7 {
        newCastling := RemoveChar(newCastling, 'K');
      }
    } else {
      if mover == 11 {
        newCastling := RemoveChar(RemoveChar(newCastling, 'k'), 'q');
      }
      if from == 56 {
        newCastling := RemoveChar(newCastling, 'q');
      }
      if from == 63 {
        newCastling := RemoveChar(newCastling, 'k');
      }
    }
    if to == 0 {
      newCastling := RemoveChar(newCastling, 'Q');
    }
    if to == 7 {
      newCastling := RemoveChar(newCastling, 'K');
    }
    if to == 56 {
      newCastling := RemoveChar(newCastling, 'q');
    }
    if to == 63 {
      newCastling := RemoveChar(newCastling, 'k');
    }
    r := if newCastling != "" then newCastling else "-";
  }

  /** `Apply` spelled out field by field, for the values the in-place code computes. */
  lemma ApplyFields(b: Board, m: Move, mover: nat, castling: string, ep: Option<int>, halfmove: int, fullmove: int)
    requires Makeable(b, m) && Some(mover) == MoverOf(b, m)
    requires castling == CastlingRights(b.castling, b.side, mover, m.fromSq, m.toSq)
    requires ep == NewEp(b.side, mover, m.fromSq, m.toSq)
    requires var enemy := b.side.Opponent().FirstIndex();
      var isCapture := FirstHolder(b.pieces, enemy, enemy + 6, m.toSq).Some?;
      halfmove == if mover == 0 || mover == 6 || isCapture then 0 else b.halfmove + 1
    requires fullmove == if b.side == Black then b.fullmove + 1 else b.fullmove
    ensures Apply(b, m) == Recompute(Board(
      PiecesAfter(b, m), b.whiteOcc, b.blackOcc, b.allOcc, b.side.Opponent(), castling, ep, halfmove, fullmove))
  {
  }

  /** Lines 8-80 on the copy's boards: finds the mover and applies every board step. */
  method UpdatePieces(pieces: array<Bitboard>, ghost b: Board, side: Side, ep: Option<int>, m: Move)
    returns (mover: nat)
    requires pieces.Length == 12 && pieces[..] == b.pieces && b.side == side && b.ep == ep
    requires Makeable(b, m)
    modifies pieces
    ensures Some(mover) == MoverOf(b, m)
    ensures pieces[..] == PiecesAfter(b, m)
  {
    var own: nat := if side == White then 0 else 6;
    var enemy: nat := 6 - own;
    var moving := FindMover(pieces, side, m.fromSq);
    mover := moving.value;
    MovePieceInPlace(pieces, mover, m.fromSq, m.toSq);
    CaptureInPlace(pieces, enemy, m.toSq);
    PromoteInPlace(pieces, side, mover, m.toSq, m.promo);
    EnPassantInPlace(pieces, side, ep, mover, m.toSq);
    CastleRookInPlace(pieces, side, mover, m.fromSq, m.toSq);
  }

  /**
   * Lines 53-127 on the copy, once its boards are those of `Apply`: writes
   * the new game state and recomputes the occupancy boards.
   */
  method SetState(np: Position, ghost b: Board, ghost m: Move, ghost mover: nat,
                  side: Side, castling: string, ep: Option<int>, halfmove: int, fullmove: int)
    requires np.Valid() && Makeable(b, m) && Some(mover) == MoverOf(b, m)
    requires np.pieces[..] == PiecesAfter(b, m) && side == b.side.Opponent()
    requires castling == CastlingRights(b.castling, b.side, mover, m.fromSq, m.toSq)
    requires ep == NewEp(b.side, mover, m.fromSq, m.toSq)
    requires var enemy := b.side.Opponent().FirstIndex();
      var isCapture := FirstHolder(b.pieces, enemy, enemy + 6, m.toSq).Some?;
      halfmove == if mover == 0 || mover == 6 || isCapture then 0 else b.halfmove + 1
    requires fullmove == if b.side == Black then b.fullmove + 1 else b.fullmove
    modifies np
    ensures np.Value() == Apply(b, m)
  {
    np.ep := ep;
    np.castling := castling;
    np.halfmove := halfmove;
    np.fullmove := fullmove;
    np.side := side;
    ApplyFields(b, m, mover, castling, ep, halfmove, fullmove);
    np.RecomputeOccupancy();
  }

  /** The original's `make_move`: a fresh position; the argument is left as it was. */
  method MakeMove(pos: Position, m: Move) returns (np: Position)
    requires pos.Valid() && Makeable(pos.Value(), m)
    ensures fresh(np) && fresh(np.pieces) && np.Valid()
    ensures np.Value() == Apply(old(pos.Value()), m)
    ensures pos.Value() == old(pos.Value())
  {
    ghost var b := pos.Value();
    np := pos.Copy();
    var mover := UpdatePieces(np.pieces, b, pos.side, pos.ep, m);
    var ep := NewEp(pos.side, mover, m.fromSq, m.toSq);
    var castling := UpdateCastling(pos.castling, pos.side, mover, m.fromSq, m.toSq);

    // Clocks.
    var enemy: nat := if pos.side == White then 6 else 0;
    var isCapture := FirstHolder(pos.pieces[..], enemy, enemy + 6, m.toSq).Some?;
    var isPawnMove := mover == 0 || mover == 6;
    var halfmove := if isPawnMove || isCapture then 0 else pos.halfmove + 1;
    var fullmove := if pos.side == Black then pos.fullmove + 1 else pos.fullmove;

    // Switch side to move, then recompute the occupancy boards.
    var side := if pos.side == White then Black else White;
    SetState(np, b, m, mover, side, castling, ep, halfmove, fullmove);
  }

  // ---------------------------------------------------------------------------
  // What `make_move` promises about the next position.

  /** The board index of the moving piece, for a makeable move. */
  function Mover(b: Board, m: Move): (i: nat)
    requires Makeable(b, m)
    ensures b.side.FirstIndex() <= i < b.side.FirstIndex() + 6
    ensures IsSet(b.pieces[i], m.fromSq)
  {
    MoverOf(b, m).value
  }

  /** The enemy board the capture step clears, if any. */
  function Victim(b: Board, m: Move): Option<nat>
    requires Makeable(b, m)
  {
    var enemy := b.side.Opponent().FirstIndex();
    FirstHolder(b.pieces, enemy, enemy + 6, m.toSq)
  }

  lemma {:induction false} FirstHolderFrame(p: seq<Bitboard>, q: seq<Bitboard>, lo: nat, hi: nat, sq: nat)
    requires lo <= hi <= |p| && hi <= |q|
    requires forall j :: lo <= j < hi ==> p[j] == q[j]
    ensures FirstHolder(p, lo, hi, sq) == FirstHolder(q, lo, hi, sq)
    decreases hi - lo
  {
    if lo < hi {
      FirstHolderFrame(p, q, lo + 1, hi, sq);
    }
  }

  /** The piece boards after each step of the move, ending with the boards of `Apply`. */
  lemma Steps(b: Board, m: Move) returns (p1: seq<Bitboard>, p2: seq<Bitboard>, p3: seq<Bitboard>, p4: seq<Bitboard>)
    requires Makeable(b, m)
    ensures p1 == MovePiece(b.pieces, Mover(b, m), m.fromSq, m.toSq)
    ensures FirstHolder(p1, b.side.Opponent().FirstIndex(), b.side.Opponent().FirstIndex() + 6, m.toSq) == Victim(b, m)
    ensures p2 == Capture(p1, b.side.Opponent().FirstIndex(), m.toSq)
    ensures p3 == Promote(p2, b.side, Mover(b, m), m.toSq, m.promo)
    ensures p4 == EnPassantCapture(p3, b.side, b.ep, Mover(b, m), m.toSq)
    ensures Apply(b, m).pieces == CastleRook(p4, b.side, Mover(b, m), m.fromSq, m.toSq)
  {
    var enemy := b.side.Opponent().FirstIndex();
    p1 := MovePiece(b.pieces, Mover(b, m), m.fromSq, m.toSq);
    FirstHolderFrame(p1, b.pieces, enemy, enemy + 6, m.toSq);
    p2 := Capture(p1, enemy, m.toSq);
    p3 := Promote(p2, b.side, Mover(b, m), m.toSq, m.promo);
    p4 := EnPassantCapture(p3, b.side, b.ep, Mover(b, m), m.toSq);
  }

  /**
   * Lines 12-20: without a promotion the mover's board ends up having lost
   * the origin and gained the target, whatever else the move does.
   */
  lemma MoverBoard(b: Board, m: Move, t: nat)
    requires Makeable(b, m) && m.promo.None?
    ensures var i := Mover(b, m);
      IsSet(Apply(b, m).pieces[i], t) <==> t == m.toSq || (IsSet(b.pieces[i], t) && t != m.fromSq)
  {
    var p1, p2, p3, p4 := Steps(b, m);
    var i := Mover(b, m);
    assert Apply(b, m).pieces[i] == p1[i];
    SetBitSquares(ClearBit(b.pieces[i], m.fromSq), m.toSq, t);
    ClearBitSquares(b.pieces[i], m.fromSq, t);
  }

  /**
   * The other boards of the side to move are left alone, except the
   * promoted kind's board and, on castling, the rook's.
   */
  lemma OtherOwnBoards(b: Board, m: Move, j: nat)
    requires Makeable(b, m)
    requires b.side.FirstIndex() <= j < b.side.FirstIndex() + 6 && j != Mover(b, m)
    requires m.promo.Some? ==> Some(j) != PieceIndex(PromoLetter(b.side, m.promo.value))
    requires j == b.side.FirstIndex() + 3 ==>
      !(Mover(b, m) == b.side.FirstIndex() + 5 && (m.toSq - m.fromSq == 2 || m.fromSq - m.toSq == 2))
    ensures Apply(b, m).pieces[j] == b.pieces[j]
  {
    var p1, p2, p3, p4 := Steps(b, m);
  }

  /**
   * Lines 23-26: away from en passant, each enemy board keeps its squares
   * except that the first enemy board holding the target loses it; every
   * other enemy board is unchanged, so at most one piece is captured.
   */
  lemma CaptureBoards(b: Board, m: Move, j: nat, t: nat)
    requires Makeable(b, m)
    requires b.side.Opponent().FirstIndex() <= j < b.side.Opponent().FirstIndex() + 6
    requires !EnPassantFires(b.side, b.ep, Mover(b, m), m.toSq)
    ensures IsSet(Apply(b, m).pieces[j], t) <==> IsSet(b.pieces[j], t) && !(t == m.toSq && Victim(b, m) == Some(j))
    ensures Victim(b, m) != Some(j) ==> Apply(b, m).pieces[j] == b.pieces[j]
    ensures Victim(b, m).Some? <==> exists i :: b.side.Opponent().FirstIndex() <= i < b.side.Opponent().FirstIndex() + 6 && IsSet(b.pieces[i], m.toSq)
  {
    var p1, p2, p3, p4 := Steps(b, m);
    if m.promo.Some? {
      PromotedIsOwn(b.side, m.promo.value);
    }
    assert p3[j] == p2[j];
    assert p4 == p3;
    if Victim(b, m) == Some(j) {
      ClearBitSquares(b.pieces[j], m.toSq, t);
    }
  }

  /** A promotion letter, cased for the side to move, names one of that side's boards. */
  lemma PromotedIsOwn(side: Side, c: char)
    requires PieceIndex(PromoLetter(side, c)).Some?
    ensures side.FirstIndex() <= PieceIndex(PromoLetter(side, c)).value < side.FirstIndex() + 6
  {
    var l := PromoLetter(side, c);
    PieceIndexBijective(l, 0);
    if side == White {
      assert !('a' <= l <= 'z');
      assert l !in "pnbrqk";
      assert PieceOrder == "PNBRQK" + "pnbrqk";
    } else {
      assert !('A' <= l <= 'Z');
      assert l !in "PNBRQK";
    }
  }

  /**
   * Lines 29-35: with a promotion the target ends up on the promoted
   * kind's board, which is one of the mover's own; when that is not the
   * mover's board, the mover's board has lost both origin and target.
   */
  lemma PromotionBoards(b: Board, m: Move, t: nat)
    requires Makeable(b, m) && m.promo.Some?
    ensures var k := PieceIndex(PromoLetter(b.side, m.promo.value)).value;
      var i := Mover(b, m);
      b.side.FirstIndex() <= k < b.side.FirstIndex() + 6 &&
      IsSet(Apply(b, m).pieces[k], m.toSq) &&
      (k != i ==> (IsSet(Apply(b, m).pieces[i], t) <==> IsSet(b.pieces[i], t) && t != m.fromSq && t != m.toSq))
  {
    PromotedIsOwn(b.side, m.promo.value);
    PromotionTarget(b, m);
    if PieceIndex(PromoLetter(b.side, m.promo.value)).value != Mover(b, m) {
      PromotionMoverBoard(b, m, t);
    }
  }

  /** The promoted kind's board holds the target after the move. */
  lemma PromotionTarget(b: Board, m: Move)
    requires Makeable(b, m) && m.promo.Some?
    ensures IsSet(Apply(b, m).pieces[PieceIndex(PromoLetter(b.side, m.promo.value)).value], m.toSq)
  {
    var p1, p2, p3, p4 := Steps(b, m);
    PromotedIsOwn(b.side, m.promo.value);
    var k := PieceIndex(PromoLetter(b.side, m.promo.value)).value;
    var i := Mover(b, m);
    var q := p2[i := ClearBit(p2[i], m.toSq)];
    assert p3 == q[k := SetBit(q[k], m.toSq)];
    assert p4[k] == p3[k];
    SetBitSquares(q[k], m.toSq, m.toSq);
    PromotedKeepsTarget(p4, b.side, i, m.fromSq, m.toSq, k);
  }

  /** When the promoted kind is not the mover's, the mover's board loses both origin and target. */
  lemma PromotionMoverBoard(b: Board, m: Move, t: nat)
    requires Makeable(b, m) && m.promo.Some?
    requires PieceIndex(PromoLetter(b.side, m.promo.value)).value != Mover(b, m)
    ensures IsSet(Apply(b, m).pieces[Mover(b, m)], t) <==> IsSet(b.pieces[Mover(b, m)], t) && t != m.fromSq && t != m.toSq
  {
    var p1, p2, p3, p4 := Steps(b, m);
    PromotedIsOwn(b.side, m.promo.value);
    var i := Mover(b, m);
    assert Apply(b, m).pieces[i] == p3[i];
    assert p3[i] == ClearBit(p1[i], m.toSq);
    ClearBitSquares(p1[i], m.toSq, t);
    SetBitSquares(ClearBit(b.pieces[i], m.fromSq), m.toSq, t);
    ClearBitSquares(b.pieces[i], m.fromSq, t);
  }

  /** The castling step never clears a king move's target. */
  lemma PromotedKeepsTarget(p: seq<Bitboard>, side: Side, mover: nat, from: int, to: int, k: nat)
    requires |p| == 12 && k < 12 && from >= 0 && to >= 0
    requires mover == side.FirstIndex() + 5 && from - to == 2 ==> from >= 4
    requires IsSet(p[k], to)
    ensures IsSet(CastleRook(p, side, mover, from, to)[k], to)
  {
    var rook := side.FirstIndex() + 3;
    if mover == side.FirstIndex() + 5 && k == rook {
      if to - from == 2 {
        ClearBitSquares(p[k], from + 3, to);
        SetBitSquares(ClearBit(p[k], from + 3), from + 1, to);
      } else if from - to == 2 {
        ClearBitSquares(p[k], from - 4, to);
        SetBitSquares(ClearBit(p[k], from - 4), from - 1, to);
      }
    }
  }

  /**
   * Lines 39-49: a pawn landing on the en-passant square removes the enemy
   * pawn one rank behind it; the enemy pawn board keeps every other square
   * apart from the target.
   */
  lemma EnPassantBoards(b: Board, m: Move, t: nat)
    requires Makeable(b, m) && EnPassantFires(b.side, b.ep, Mover(b, m), m.toSq)
    ensures var pawns := b.side.Opponent().FirstIndex();
      var sq := if b.side == White then m.toSq - 8 else m.toSq + 8;
      sq >= 0 && !IsSet(Apply(b, m).pieces[pawns], sq) &&
      (t != m.toSq ==> (IsSet(Apply(b, m).pieces[pawns], t) <==> IsSet(b.pieces[pawns], t) && t != sq))
  {
    var p1, p2, p3, p4 := Steps(b, m);
    var pawns := b.side.Opponent().FirstIndex();
    var sq: nat := if b.side == White then m.toSq - 8 else m.toSq + 8;
    if m.promo.Some? {
      PromotedIsOwn(b.side, m.promo.value);
    }
    assert p3[pawns] == p2[pawns];
    assert Apply(b, m).pieces[pawns] == ClearBit(p2[pawns], sq);
    ClearBitSquares(p2[pawns], sq, sq);
    ClearBitSquares(p2[pawns], sq, t);
    if Victim(b, m) == Some(pawns) {
      ClearBitSquares(b.pieces[pawns], m.toSq, t);
    }
  }

  /** Lines 53-62: there is a new en-passant square exactly after a pawn's double push, halfway between origin and target. */
  lemma EnPassantSquare(b: Board, m: Move)
    requires Makeable(b, m)
    ensures Apply(b, m).ep.Some? <==>
      Mover(b, m) == b.side.FirstIndex() && (if b.side == White then m.toSq - m.fromSq == 16 else m.fromSq - m.toSq == 16)
    ensures Apply(b, m).ep.Some? ==> 2 * Apply(b, m).ep.value == m.fromSq + m.toSq
  {
  }

  /**
   * Lines 65-80: a king moving two files right takes its rook from three
   * files right of the origin to one file right; two files left, from four
   * files left to one file left. The rook board is otherwise unchanged.
   */
  lemma CastlingRookBoard(b: Board, m: Move, t: nat)
    requires Makeable(b, m) && m.promo.None? && Mover(b, m) == b.side.FirstIndex() + 5
    ensures var rook := b.side.FirstIndex() + 3;
      var before := b.pieces[rook];
      var after := Apply(b, m).pieces[rook];
      (m.toSq - m.fromSq == 2 ==> (IsSet(after, t) <==> t == m.fromSq + 1 || (IsSet(before, t) && t != m.fromSq + 3))) &&
      (m.fromSq - m.toSq == 2 ==> (IsSet(after, t) <==> t == m.fromSq - 1 || (IsSet(before, t) && t != m.fromSq - 4)))
  {
    var p1, p2, p3, p4 := Steps(b, m);
    var rook := b.side.FirstIndex() + 3;
    assert p1[rook] == b.pieces[rook];
    assert p2[rook] == p1[rook];
    assert p4 == p3 == p2;
    var before := b.pieces[rook];
    if m.toSq - m.fromSq == 2 {
      SetBitSquares(ClearBit(before, m.fromSq + 3), m.fromSq + 1, t);
      ClearBitSquares(before, m.fromSq + 3, t);
    } else if m.fromSq - m.toSq == 2 {
      SetBitSquares(ClearBit(before, m.fromSq - 4), m.fromSq - 1, t);
      ClearBitSquares(before, m.fromSq - 4, t);
    }
  }

  /**
   * Lines 84-108: a right survives exactly when it was held and not
   * revoked, the result is never empty, and when every letter is revoked
   * it is "-".
   */
  lemma CastlingRightsLetters(castling: string, side: Side, mover: nat, from: int, to: int, x: char)
    ensures var r := CastlingRights(castling, side, mover, from, to);
      r != "" &&
      (x != '-' ==> (x in r <==> x in castling && !Revoked(x, side, mover, from, to))) &&
      ((forall y :: y in castling ==> Revoked(y, side, mover, from, to)) ==> r == "-")
  {
    var c := RevokeRights(castling, side, mover, from, to);
    if c != "" && forall y :: y in castling ==> Revoked(y, side, mover, from, to) {
      assert c[0] in c;
    }
  }

  /**
   * Lines 110-124: the halfmove clock restarts on a pawn move or when some
   * enemy board holds the target, and counts up otherwise; the fullmove
   * number counts Black's moves; the side to move flips.
   */
  lemma ClocksAndSide(b: Board, m: Move)
    requires Makeable(b, m)
    ensures var enemy := b.side.Opponent().FirstIndex();
      var captures := exists j :: enemy <= j < enemy + 6 && IsSet(b.pieces[j], m.toSq);
      Apply(b, m).halfmove == if Mover(b, m) in {0, 6} || captures then 0 else b.halfmove + 1
    ensures Apply(b, m).fullmove == if b.side == Black then b.fullmove + 1 else b.fullmove
    ensures Apply(b, m).side != b.side
    ensures Apply(b, m).castling == CastlingRights(b.castling, b.side, Mover(b, m), m.fromSq, m.toSq)
  {
  }

  /** Every piece board within 64 bits. */
  predicate Fits(p: seq<Bitboard>)
  {
    forall j :: 0 <= j < |p| ==> 0 <= p[j] < Pow2(64)
  }

  /** Replacing one board by a board within 64 bits keeps every board within 64 bits. */
  lemma UpdateFits(p: seq<Bitboard>, j: nat, x: Bitboard)
    requires Fits(p) && j < |p| && 0 <= x < Pow2(64)
    ensures Fits(p[j := x])
  {
  }

  lemma ClearFits(p: seq<Bitboard>, j: nat, clear: nat)
    requires Fits(p) && j < |p|
    ensures Fits(p[j := ClearBit(p[j], clear)])
  {
    SetClearBounds(p[j], clear);
    UpdateFits(p, j, ClearBit(p[j], clear));
  }

  lemma SetFits(p: seq<Bitboard>, j: nat, put: nat)
    requires Fits(p) && j < |p| && put < 64
    ensures Fits(p[j := SetBit(p[j], put)])
  {
    SetClearBounds(p[j], put);
    UpdateFits(p, j, SetBit(p[j], put));
  }

  lemma MoveBitFits(p: seq<Bitboard>, j: nat, clear: nat, put: nat)
    requires Fits(p) && j < |p| && put < 64
    ensures Fits(p[j := SetBit(ClearBit(p[j], clear), put)])
  {
    SetClearBounds(p[j], clear);
    SetClearBounds(ClearBit(p[j], clear), put);
    UpdateFits(p, j, SetBit(ClearBit(p[j], clear), put));
  }

  lemma MovePieceFits(p: seq<Bitboard>, mover: nat, from: nat, to: nat)
    requires mover < |p| && Fits(p) && to < 64
    ensures Fits(MovePiece(p, mover, from, to))
  {
    MoveBitFits(p, mover, from, to);
  }

  lemma CaptureFits(p: seq<Bitboard>, enemy: nat, to: nat)
    requires enemy + 6 <= |p| && Fits(p)
    ensures Fits(Capture(p, enemy, to))
  {
    if FirstHolder(p, enemy, enemy + 6, to).Some? {
      var v := FirstHolder(p, enemy, enemy + 6, to).value;
      ClearFits(p, v, to);
    }
  }

  lemma PromoteFits(p: seq<Bitboard>, side: Side, mover: nat, to: nat, promo: Option<char>)
    requires mover < |p| == 12 && Fits(p) && to < 64
    requires promo.Some? ==> PieceIndex(PromoLetter(side, promo.value)).Some?
    ensures Fits(Promote(p, side, mover, to, promo))
  {
    if promo.Some? {
      var k := PieceIndex(PromoLetter(side, promo.value)).value;
      var q := p[mover := ClearBit(p[mover], to)];
      ClearFits(p, mover, to);
      SetFits(q, k, to);
    }
  }

  lemma EnPassantFits(p: seq<Bitboard>, side: Side, ep: Option<int>, mover: nat, to: int)
    requires |p| == 12 && Fits(p)
    requires EnPassantFires(side, ep, mover, to) ==> (if side == White then ep.value >= 8 else ep.value >= -8)
    ensures Fits(EnPassantCapture(p, side, ep, mover, to))
  {
    if EnPassantFires(side, ep, mover, to) {
      if side == White {
        ClearFits(p, 6, ep.value - 8);
        assert EnPassantCapture(p, side, ep, mover, to) == p[6 := ClearBit(p[6], ep.value - 8)];
      } else {
        ClearFits(p, 0, ep.value + 8);
        assert EnPassantCapture(p, side, ep, mover, to) == p[0 := ClearBit(p[0], ep.value + 8)];
      }
    }
  }

  lemma CastleRookFits(p: seq<Bitboard>, side: Side, mover: nat, from: int, to: int)
    requires |p| == 12 && Fits(p) && 0 <= from < 64 && to < 64
    requires mover == side.FirstIndex() + 5 && from - to == 2 ==> from >= 4
    ensures Fits(CastleRook(p, side, mover, from, to))
  {
    var rook := side.FirstIndex() + 3;
    var r := CastleRook(p, side, mover, from, to);
    if mover == side.FirstIndex() + 5 && to - from == 2 {
      assert r == p[rook := SetBit(ClearBit(p[rook], from + 3), from + 1)];
      MoveBitFits(p, rook, from + 3, from + 1);
    } else if mover == side.FirstIndex() + 5 && from - to == 2 {
      assert r == p[rook := SetBit(ClearBit(p[rook], from - 4), from - 1)];
      MoveBitFits(p, rook, from - 4, from - 1);
    } else {
      assert r == p;
    }
  }

  /**
   * Lines 126-127: after the move the occupancy boards are the unions of
   * the piece boards, and a move between board squares keeps every board
   * within 64 bits.
   */
  lemma ApplyConsistent(b: Board, m: Move)
    requires Makeable(b, m)
    ensures OccupancyConsistent(Apply(b, m))
    ensures OnBoard(b) && m.fromSq < 64 && m.toSq < 64 ==> OnBoard(Apply(b, m))
  {
    var p1, p2, p3, p4 := Steps(b, m);
    if OnBoard(b) && m.fromSq < 64 && m.toSq < 64 {
      MovePieceFits(b.pieces, Mover(b, m), m.fromSq, m.toSq);
      CaptureFits(p1, b.side.Opponent().FirstIndex(), m.toSq);
      PromoteFits(p2, b.side, Mover(b, m), m.toSq, m.promo);
      EnPassantFits(p3, b.side, b.ep, Mover(b, m), m.toSq);
      CastleRookFits(p4, b.side, Mover(b, m), m.fromSq, m.toSq);
    }
  }
}
