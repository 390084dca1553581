/**
 * Knight move generation (engine/movegen.py): for every knight of the side
 * to move, in ascending square order, every attacked square not held by
 * an own piece, in ascending order. `GenerateKnightMoves` runs the
 * original's two `pop_lsb` loops; `KnightMoves` is the list they build.
 */
module MoveGen {
  import opened Wrappers
  import opened PyInt
  import opened Bitboard
  import opened Attacks
  import opened Positions
  import opened Moves

  /** The side to move's knights. */
  function Knights(b: Board): Bitboard
    requires |b.pieces| == 12
  {
    b.pieces[b.side.FirstIndex() + 1]
  }

  /** The side to move's occupancy board, as stored in the position. */
  function OwnOcc(b: Board): Bitboard
  {
    if b.side == White then b.whiteOcc else b.blackOcc
  }

  /** Lines 22-24: the squares a knight on `from` may move to. */
  function KnightTargets(b: Board, from: Square): (r: Bitboard)
    ensures r >= 0
  {
    AndBounds(KnightAttacks[from], Not(OwnOcc(b)));
    And(KnightAttacks[from], Not(OwnOcc(b)))
  }

  /** One move per target, in the order of `tos`. */
  function TargetMoves(from: nat, tos: seq<nat>): seq<Move>
  {
    if tos == [] then [] else [Move(from, tos[0], None)] + TargetMoves(from, tos[1..])
  }

  /** Every square of `s` is a board square. */
  predicate OnBoardSquares(s: seq<nat>)
  {
    forall i :: 0 <= i < |s| ==> s[i] < 64
  }

  lemma {:induction false} TargetMovesEntries(from: nat, tos: seq<nat>)
    ensures |TargetMoves(from, tos)| == |tos|
    ensures forall i :: 0 <= i < |tos| ==> TargetMoves(from, tos)[i] == Move(from, tos[i], None)
  {
    if tos != [] {
      TargetMovesEntries(from, tos[1..]);
    }
  }

  /** The moves of the knights on `froms`, one knight after the other. */
  function MovesFrom(b: Board, froms: seq<nat>): seq<Move>
    requires OnBoardSquares(froms)
  {
    if froms == [] then []
    else TargetMoves(froms[0], Squares(KnightTargets(b, froms[0]))) + MovesFrom(b, froms[1..])
  }

  /** What `generate_knight_moves` needs: the knights' board holds only board squares. */
  predicate KnightsOnBoard(b: Board)
  {
    |b.pieces| == 12 && 0 <= Knights(b) < Pow2(64)
  }

  /** The list `generate_knight_moves` returns. */
  function KnightMoves(b: Board): seq<Move>
    requires KnightsOnBoard(b)
  {
    SquaresAllOnBoard(Knights(b));
    MovesFrom(b, Squares(Knights(b)))
  }

  /** Lines 26-29: the inner loop, appending one move per target square in `pop_lsb` order. */
  method AppendTargets(moves: seq<Move>, fromSq: nat, targets: Bitboard) returns (r: seq<Move>)
    requires targets >= 0
    ensures r == moves + TargetMoves(fromSq, Squares(targets))
  {
    r := moves;
    var t := targets;
    while t != 0
      invariant 0 <= t
      invariant r + TargetMoves(fromSq, Squares(t)) == moves + TargetMoves(fromSq, Squares(targets))
      decreases t
    {
      SquaresPeel(t);
      PopLsbRest(t);
      var popped := PopLsb(t);
      r := r + [Move(fromSq, popped.0, None)];
      t := popped.1;
    }
    assert Squares(t) == [];
  }

  /** One turn of the outer loop: `pop_lsb` splits off the first knight's moves. */
  lemma PeelKnight(b: Board, bb: Bitboard)
    requires 0 < bb < Pow2(64)
    ensures var popped := PopLsb(bb);
      0 <= popped.0 < 64 && 0 <= popped.1 < bb &&
      OnBoardSquares(Squares(bb)) &&
      OnBoardSquares(Squares(popped.1)) &&
      MovesFrom(b, Squares(bb)) ==
        TargetMoves(popped.0, Squares(KnightTargets(b, popped.0))) + MovesFrom(b, Squares(popped.1))
  {
    SquaresPeel(bb);
    PopLsbRest(bb);
    PopLsbSquare(bb);
    SquaresOnBoard(bb, Lowest(bb));
    SquaresAllOnBoard(bb);
    SquaresAllOnBoard(PopLsb(bb).1);
    assert Squares(bb)[1..] == Squares(PopLsb(bb).1);
  }

  /** What the outer loop keeps: `moves` and the knights left on `bb` make up the whole list. */
  predicate KnightLoopInv(b: Board, moves: seq<Move>, bb: Bitboard)
    requires KnightsOnBoard(b)
  {
    0 <= bb < Pow2(64) && OnBoardSquares(Squares(bb)) &&
    moves + MovesFrom(b, Squares(bb)) == KnightMoves(b)
  }

  lemma AppendAssoc(x: seq<Move>, y: seq<Move>, z: seq<Move>)
    ensures (x + y) + z == x + (y + z)
  {
  }

  /** One turn of the outer loop keeps `KnightLoopInv`. */
  lemma KnightLoopStep(b: Board, moves: seq<Move>, bb: Bitboard, from: int, left: Bitboard)
    requires KnightsOnBoard(b) && KnightLoopInv(b, moves, bb) && bb != 0
    requires (from, left) == PopLsb(bb)
    ensures 0 <= from < 64 && 0 <= left < bb
    ensures KnightLoopInv(b, moves + TargetMoves(from, Squares(KnightTargets(b, from))), left)
  {
    PeelKnight(b, bb);
    var block := TargetMoves(from, Squares(KnightTargets(b, from)));
    var rest := MovesFrom(b, Squares(left));
    AppendAssoc(moves, block, rest);
  }

  /** Lines 18-29: the outer loop over the knights, in `pop_lsb` order. */
  method KnightLoop(ghost b: Board, knights: Bitboard, ownOcc: Bitboard) returns (moves: seq<Move>)
    requires KnightsOnBoard(b) && knights == Knights(b) && ownOcc == OwnOcc(b)
    ensures moves == KnightMoves(b)
  {
    moves := [];
    var bb := knights;
    SquaresAllOnBoard(bb);
    while bb != 0
      invariant KnightLoopInv(b, moves, bb)
      decreases bb
    {
      var popped := PopLsb(bb);
      KnightLoopStep(b, moves, bb, popped.0, popped.1);
      var fromSq := popped.0;
      bb := popped.1;
      var attacks := KnightAttacks[fromSq];
      var targets := And(attacks, Not(ownOcc));
      assert targets == KnightTargets(b, fromSq);
      moves := AppendTargets(moves, fromSq, targets);
    }
  }

  /** `generate_knight_moves(pos)`: lines 9-16 pick the side's knights and occupancy. */
  method GenerateKnightMoves(pos: Position) returns (moves: seq<Move>)
    requires pos.Valid() && KnightsOnBoard(pos.Value())
    ensures moves == KnightMoves(pos.Value())
  {
    var knights, ownOcc;
    if pos.side == White {
      knights := pos.pieces[1];
      ownOcc := pos.whiteOcc;
    } else {
      knights := pos.pieces[7];
      ownOcc := pos.blackOcc;
    }
    moves := KnightLoop(pos.Value(), knights, ownOcc);
  }

  // ---------------------------------------------------------------------------
  // What the generated list holds.

  /** `KnightTargets` square by square: a knight's step onto a square not held by an own piece. */
  lemma KnightTargetSquares(b: Board, from: Square, t: nat)
    ensures IsSet(KnightTargets(b, from), t) <==> KnightStep(from, t) && !IsSet(OwnOcc(b), t)
  {
    BoolSquares(KnightAttacks[from], Not(OwnOcc(b)), t);
    BoolSquares(OwnOcc(b), 0, t);
    KnightAttacksGeometry(from, t);
  }

  lemma {:induction false} MovesFromMembers(b: Board, froms: seq<nat>, mv: Move)
    requires OnBoardSquares(froms)
    ensures mv in MovesFrom(b, froms) <==>
      mv.fromSq in froms && 0 <= mv.fromSq < 64 && mv.toSq >= 0 &&
      IsSet(KnightTargets(b, mv.fromSq), mv.toSq) && mv.promo.None?
  {
    if froms != [] {
      MovesFromMembers(b, froms[1..], mv);
      var f := froms[0];
      var tos := Squares(KnightTargets(b, f));
      TargetMovesEntries(f, tos);
      if mv.fromSq == f && mv.toSq >= 0 {
        SquaresMembers(KnightTargets(b, f), mv.toSq);
        if mv.toSq in tos && mv.promo.None? {
          var k :| 0 <= k < |tos| && tos[k] == mv.toSq;
          assert TargetMoves(f, tos)[k] == mv;
        }
      }
      assert froms == [f] + froms[1..];
    }
  }

  /**
   * Lines 9-29: a move is generated exactly when it starts on a knight of
   * the side to move, goes a knight's step to a square no own piece
   * holds (an enemy piece may be there) and carries no promotion.
   */
  lemma KnightMovesExactly(b: Board, mv: Move)
    requires KnightsOnBoard(b)
    ensures mv in KnightMoves(b) <==>
      mv.fromSq >= 0 && IsSet(Knights(b), mv.fromSq) &&
      KnightStep(mv.fromSq, mv.toSq) && !IsSet(OwnOcc(b), mv.toSq) && mv.promo.None?
  {
    SquaresAllOnBoard(Knights(b));
    MovesFromMembers(b, Squares(Knights(b)), mv);
    if mv.fromSq >= 0 {
      SquaresMembers(Knights(b), mv.fromSq);
      if IsSet(Knights(b), mv.fromSq) {
        SquaresOnBoard(Knights(b), mv.fromSq);
        if mv.toSq >= 0 {
          KnightTargetSquares(b, mv.fromSq, mv.toSq);
        }
      }
    }
  }

  /** Generation order: by origin square, then by target square. */
  predicate Before(x: Move, y: Move)
  {
    x.fromSq < y.fromSq || (x.fromSq == y.fromSq && x.toSq < y.toSq)
  }

  predicate Ordered(ms: seq<Move>)
  {
    forall i, j :: 0 <= i < j < |ms| ==> Before(ms[i], ms[j])
  }

  /** Two ordered runs, the first wholly before the second, make one ordered run. */
  lemma OrderedConcat(head: seq<Move>, tail: seq<Move>)
    requires Ordered(head) && Ordered(tail)
    requires forall i, j :: 0 <= i < |head| && 0 <= j < |tail| ==> Before(head[i], tail[j])
    ensures Ordered(head + tail)
  {
    var all := head + tail;
    forall i, j | 0 <= i < j < |all|
      ensures Before(all[i], all[j])
    {
      if j < |head| {
        assert all[i] == head[i] && all[j] == head[j];
      } else if i < |head| {
        assert all[i] == head[i] && all[j] == tail[j - |head|];
      } else {
        assert all[i] == tail[i - |head|] && all[j] == tail[j - |head|];
      }
    }
  }

  /** One knight's moves follow its ascending targets. */
  lemma TargetMovesOrdered(from: nat, tos: seq<nat>)
    requires forall i, j :: 0 <= i < j < |tos| ==> tos[i] < tos[j]
    ensures Ordered(TargetMoves(from, tos))
  {
    TargetMovesEntries(from, tos);
  }

  /** Knights all past `f` make only moves starting past `f`. */
  lemma {:induction false} MovesFromAfter(b: Board, froms: seq<nat>, f: nat)
    requires OnBoardSquares(froms)
    requires forall i :: 0 <= i < |froms| ==> f < froms[i]
    ensures forall j :: 0 <= j < |MovesFrom(b, froms)| ==> f < MovesFrom(b, froms)[j].fromSq
  {
    if froms != [] {
      MovesFromAfter(b, froms[1..], f);
      TargetMovesEntries(froms[0], Squares(KnightTargets(b, froms[0])));
    }
  }

  lemma {:induction false} MovesFromOrdered(b: Board, froms: seq<nat>)
    requires OnBoardSquares(froms)
    requires forall i, j :: 0 <= i < j < |froms| ==> froms[i] < froms[j]
    ensures Ordered(MovesFrom(b, froms))
  {
    if froms != [] {
      var f := froms[0];
      var head := TargetMoves(f, Squares(KnightTargets(b, f)));
      var tail := MovesFrom(b, froms[1..]);
      TargetMovesEntries(f, Squares(KnightTargets(b, f)));
      SquaresSorted(KnightTargets(b, f));
      TargetMovesOrdered(f, Squares(KnightTargets(b, f)));
      MovesFromOrdered(b, froms[1..]);
      MovesFromAfter(b, froms[1..], f);
      OrderedConcat(head, tail);
    }
  }

  /**
   * Lines 18-29, following `pop_lsb` order: the moves come by ascending
   * origin and, for one knight, by ascending target, so none is generated
   * twice.
   */
  lemma KnightMovesOrdered(b: Board)
    requires KnightsOnBoard(b)
    ensures Ordered(KnightMoves(b))
    ensures forall i, j :: 0 <= i < j < |KnightMoves(b)| ==> KnightMoves(b)[i] != KnightMoves(b)[j]
  {
    SquaresAllOnBoard(Knights(b));
    SquaresSorted(Knights(b));
    MovesFromOrdered(b, Squares(Knights(b)));
  }
}
