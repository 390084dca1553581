/**
 * The search (engine/search.py): fail-hard negamax with alpha-beta
 * pruning and the root driver that picks a move. What the search calls on
 * a position is the parameter `Engine`: the legal-move generator and the
 * check test, which are not part of this model, and `make_move` and
 * `evaluate`, which `UsesModel` ties to `Apply` and `Score`. Positions are
 * `Board` snapshots.
 */
module Search {
  import opened Wrappers
  import opened Positions
  import opened Moves
  import opened MakeUnmake
  import opened Evaluation

  /** Line 7. */
  const Infinity: int := 999_999
  /** Line 8. */
  const CheckmateScore: int := 100_000

  /**
   * What the search calls on a position: `generate_legal_moves`,
   * `is_in_check`, `make_move` and `evaluate`.
   */
  datatype Engine = Engine(
    legalMoves: Board -> seq<Move>,
    inCheck: Board -> bool,
    play: (Board, Move) -> Board,
    evaluate: Board -> int)

  /**
   * The engine of this model: every legal move can be played by
   * `make_move`, `play` is `make_move` and `evaluate` is `evaluate`. The
   * triggers keep those two definitions out of the proofs that do not
   * need them.
   */
  ghost predicate UsesModel(e: Engine)
  {
    (forall b: Board, m: Move :: |b.pieces| == 12 && m in e.legalMoves(b) ==> Makeable(b, m)) &&
    (forall b: Board, m: Move {:trigger Apply(b, m)} :: Makeable(b, m) ==> e.play(b, m) == Apply(b, m)) &&
    (forall b: Board {:trigger Score(b)} :: |b.pieces| == 12 ==> e.evaluate(b) == Score(b))
  }

  /** A legal move of the model's engine leads to a position with twelve piece boards. */
  lemma PlayKeepsBoards(e: Engine, b: Board, m: Move)
    requires UsesModel(e) && |b.pieces| == 12 && m in e.legalMoves(b)
    ensures |e.play(b, m).pieces| == 12
  {
    assert e.play(b, m) == Apply(b, m);
  }

  /** Lines 11-13: the static score from the side to move's point of view. */
  function Leaf(e: Engine, b: Board): int
  {
    if b.side == White then e.evaluate(b) else -e.evaluate(b)
  }

  /** Lines 17-20: checkmate or stalemate. */
  function NoMovesScore(e: Engine, b: Board): int
  {
    if e.inCheck(b) then -CheckmateScore else 0
  }

  /** Every move of `moves` is a legal move of `b`. */
  predicate Listed(e: Engine, b: Board, moves: seq<Move>)
  {
    forall m :: m in moves ==> m in e.legalMoves(b)
  }

  // ---------------------------------------------------------------------------
  // What `negamax` computes.

  /** `negamax(pos, depth, alpha, beta)`. */
  function AlphaBeta(e: Engine, b: Board, depth: nat, alpha: int, beta: int): int
    decreases depth, 1, 0
  {
    if depth == 0 then Leaf(e, b)
    else
      var moves := e.legalMoves(b);
      if moves == [] then NoMovesScore(e, b)
      else AlphaBetaLoop(e, b, moves, depth, alpha, beta)
  }

  /** Lines 22-31: the loop over the remaining `moves`, with the current `alpha`. */
  function AlphaBetaLoop(e: Engine, b: Board, moves: seq<Move>, depth: nat, alpha: int, beta: int): int
    requires depth >= 1
    decreases depth, 0, |moves|
  {
    if moves == [] then alpha
    else
      var score := -AlphaBeta(e, e.play(b, moves[0]), depth - 1, -beta, -alpha);
      if score >= beta then beta
      else AlphaBetaLoop(e, b, moves[1..], depth, if score > alpha then score else alpha, beta)
  }

  /** Lines 10-31: `negamax`, recursing on the position after each move. */
  method Negamax(e: Engine, b: Board, depth: nat, alpha: int, beta: int) returns (score: int)
    ensures score == AlphaBeta(e, b, depth, alpha, beta)
    decreases depth
  {
    if depth == 0 {
      var s := e.evaluate(b);
      return if b.side == White then s else -s;
    }
    var moves := e.legalMoves(b);
    if |moves| == 0 {
      if e.inCheck(b) {
        return -CheckmateScore;
      }
      return 0;
    }
    var a := alpha;
    var i := 0;
    while i < |moves|
      invariant 0 <= i <= |moves|
      invariant AlphaBetaLoop(e, b, moves[i..], depth, a, beta) == AlphaBetaLoop(e, b, moves, depth, alpha, beta)
    {
      assert moves[i..][1..] == moves[i + 1..];
      var newPos := e.play(b, moves[i]);
      var child := Negamax(e, newPos, depth - 1, -beta, -a);
      var s := -child;
      if s >= beta {
        return beta;
      }
      if s > a {
        a := s;
      }
      i := i + 1;
    }
    return a;
  }

  // ---------------------------------------------------------------------------
  // Plain negamax, without pruning: the value alpha-beta is measured against.

  function Max(x: int, y: int): int
  {
    if x >= y then x else y
  }

  /** The negamax value of `b` searched to `depth`. */
  function Value(e: Engine, b: Board, depth: nat): int
    decreases depth, 1, 0
  {
    if depth == 0 then Leaf(e, b)
    else
      var moves := e.legalMoves(b);
      if moves == [] then NoMovesScore(e, b)
      else Best(e, b, moves, depth)
  }

  /** The score of a child, seen from `b`. */
  function ChildValue(e: Engine, b: Board, m: Move, depth: nat): int
    requires depth >= 1
    decreases depth, 0, 0
  {
    -Value(e, e.play(b, m), depth - 1)
  }

  /** The largest child score among `moves`. */
  function Best(e: Engine, b: Board, moves: seq<Move>, depth: nat): int
    requires depth >= 1 && moves != []
    decreases depth, 0, |moves|
  {
    var s := ChildValue(e, b, moves[0], depth);
    if |moves| == 1 then s else Max(s, Best(e, b, moves[1..], depth))
  }

  /** `Best` is the largest child score, and some child reaches it. */
  lemma {:induction false} BestIsMax(e: Engine, b: Board, moves: seq<Move>, depth: nat)
    requires depth >= 1 && moves != []
    ensures forall i :: 0 <= i < |moves| ==> ChildValue(e, b, moves[i], depth) <= Best(e, b, moves, depth)
    ensures exists i :: 0 <= i < |moves| && ChildValue(e, b, moves[i], depth) == Best(e, b, moves, depth)
    decreases |moves|
  {
    if |moves| > 1 {
      BestIsMax(e, b, moves[1..], depth);
      forall i | 1 <= i < |moves|
        ensures ChildValue(e, b, moves[i], depth) <= Best(e, b, moves, depth)
      {
        assert moves[i] == moves[1..][i - 1];
      }
      if ChildValue(e, b, moves[0], depth) < Best(e, b, moves[1..], depth) {
        var j :| 0 <= j < |moves[1..]| && ChildValue(e, b, moves[1..][j], depth) == Best(e, b, moves[1..], depth);
        assert moves[j + 1] == moves[1..][j];
      }
    } else {
      assert ChildValue(e, b, moves[0], depth) == Best(e, b, moves, depth);
    }
  }

  /** `v` clamped into `lo..hi`. */
  function Clamp(v: int, lo: int, hi: int): int
  {
    if v < lo then lo else if v > hi then hi else v
  }

  /**
   * `x` is a fail-hard answer for the true value `v` in the window
   * `(lo, hi)`: exact inside the window, and on the right side of it
   * outside.
   */
  predicate Agrees(x: int, v: int, lo: int, hi: int)
  {
    (v <= lo ==> x <= lo) && (v >= hi ==> x >= hi) && (lo < v < hi ==> x == v)
  }

  /** Negating the answer and the value turns the window `(-beta, -alpha)` into `(alpha, beta)`. */
  lemma AgreesNegated(x: int, v: int, lo: int, hi: int)
    requires Agrees(x, v, lo, hi)
    ensures Agrees(-x, -v, -hi, -lo)
  {
  }

  /**
   * Lines 10-31: with `alpha < beta`, `negamax` agrees with plain negamax
   * in the window, and a position searched further (depth at least 1, with
   * legal moves) gets exactly the negamax value clamped into the window.
   */
  lemma {:induction false} AlphaBetaCorrect(e: Engine, b: Board, depth: nat, alpha: int, beta: int)
    requires alpha < beta
    ensures Agrees(AlphaBeta(e, b, depth, alpha, beta), Value(e, b, depth), alpha, beta)
    ensures depth >= 1 && e.legalMoves(b) != [] ==>
      AlphaBeta(e, b, depth, alpha, beta) == Clamp(Value(e, b, depth), alpha, beta)
    decreases depth, 1, 0
  {
    if depth >= 1 && e.legalMoves(b) != [] {
      LoopClamps(e, b, e.legalMoves(b), depth, alpha, beta);
    }
  }

  /** Lines 22-31: the loop returns the best child score clamped into the window. */
  lemma {:induction false} LoopClamps(e: Engine, b: Board, moves: seq<Move>, depth: nat, alpha: int, beta: int)
    requires depth >= 1 && moves != []
    requires alpha < beta
    ensures AlphaBetaLoop(e, b, moves, depth, alpha, beta) == Clamp(Best(e, b, moves, depth), alpha, beta)
    decreases depth, 0, |moves|
  {
    var child := e.play(b, moves[0]);
    AlphaBetaCorrect(e, child, depth - 1, -beta, -alpha);
    var x := AlphaBeta(e, child, depth - 1, -beta, -alpha);
    AgreesNegated(x, Value(e, child, depth - 1), -beta, -alpha);
    var score := -x;
    if score < beta && |moves| > 1 {
      LoopClamps(e, b, moves[1..], depth, if score > alpha then score else alpha, beta);
    }
  }

  /**
   * Lines 22-31: when moves exist and `alpha < beta`, the result lies in
   * `alpha..beta` and is at least every child's score that stays below
   * `beta`.
   */
  lemma FailHardBounds(e: Engine, b: Board, depth: nat, alpha: int, beta: int)
    requires alpha < beta
    requires depth >= 1 && e.legalMoves(b) != []
    ensures alpha <= AlphaBeta(e, b, depth, alpha, beta) <= beta
    ensures forall m :: m in e.legalMoves(b) && ChildValue(e, b, m, depth) < beta ==>
      ChildValue(e, b, m, depth) <= AlphaBeta(e, b, depth, alpha, beta)
  {
    var moves := e.legalMoves(b);
    AlphaBetaCorrect(e, b, depth, alpha, beta);
    BestIsMax(e, b, moves, depth);
  }

  // ---------------------------------------------------------------------------
  // How large a score can be.

  /** Negamax values never leave `ScoreBound`, which is far inside `Infinity`. */
  lemma {:induction false} ValueBounded(e: Engine, b: Board, depth: nat)
    requires UsesModel(e) && |b.pieces| == 12
    ensures -ScoreBound <= Value(e, b, depth) <= ScoreBound
    decreases depth, 1, 0
  {
    if depth == 0 {
      ScoreBounded(b);
    } else if e.legalMoves(b) != [] {
      BestBounded(e, b, e.legalMoves(b), depth);
    }
  }

  lemma {:induction false} BestBounded(e: Engine, b: Board, moves: seq<Move>, depth: nat)
    requires UsesModel(e) && |b.pieces| == 12 && Listed(e, b, moves)
    requires depth >= 1 && moves != []
    ensures -ScoreBound <= Best(e, b, moves, depth) <= ScoreBound
    decreases depth, 0, |moves|
  {
    PlayKeepsBoards(e, b, moves[0]);
    ValueBounded(e, e.play(b, moves[0]), depth - 1);
    if |moves| > 1 {
      BestBounded(e, b, moves[1..], depth);
    }
  }

  // ---------------------------------------------------------------------------
  // The root.

  /** Lines 48-54: the root loop over the remaining `moves`, with the best move and `alpha` so far. */
  function RootLoop(e: Engine, b: Board, moves: seq<Move>, depth: nat, best: Option<Move>, alpha: int): (Option<Move>, int)
    requires depth >= 1
  {
    if moves == [] then (best, alpha)
    else
      var score := -AlphaBeta(e, e.play(b, moves[0]), depth - 1, -Infinity, -alpha);
      if score > alpha then RootLoop(e, b, moves[1..], depth, Some(moves[0]), score)
      else RootLoop(e, b, moves[1..], depth, best, alpha)
  }

  /** What `search(pos, depth)` returns. */
  function SearchResult(e: Engine, b: Board, depth: nat): (Option<Move>, int)
    requires depth >= 1
  {
    var moves := e.legalMoves(b);
    if moves == [] then (None, 0)
    else RootLoop(e, b, moves, depth, None, -Infinity)
  }

  /**
   * Lines 34-56: `search`. A depth of 0 would call `negamax` with depth -1,
   * which never reaches its base case, so the depth is at least 1.
   */
  method SearchRoot(e: Engine, b: Board, depth: nat) returns (bestMove: Option<Move>, score: int)
    requires depth >= 1
    ensures (bestMove, score) == SearchResult(e, b, depth)
  {
    bestMove := None;
    var alpha := -Infinity;
    var beta := Infinity;
    var moves := e.legalMoves(b);
    if |moves| == 0 {
      return None, 0;
    }
    var i := 0;
    while i < |moves|
      invariant 0 <= i <= |moves|
      invariant RootLoop(e, b, moves[i..], depth, bestMove, alpha) == RootLoop(e, b, moves, depth, None, -Infinity)
    {
      assert moves[i..][1..] == moves[i + 1..];
      var newPos := e.play(b, moves[i]);
      var child := Negamax(e, newPos, depth - 1, -beta, -alpha);
      var s := -child;
      if s > alpha {
        alpha := s;
        bestMove := Some(moves[i]);
      }
      i := i + 1;
    }
    score := alpha;
  }

  /** The index of the first of `moves` whose score is the best. */
  function FirstBest(e: Engine, b: Board, moves: seq<Move>, depth: nat): (i: nat)
    requires depth >= 1 && moves != []
    ensures i < |moves|
    decreases |moves|
  {
    if |moves| == 1 || ChildValue(e, b, moves[0], depth) >= Best(e, b, moves[1..], depth) then 0
    else 1 + FirstBest(e, b, moves[1..], depth)
  }

  /** `FirstBest` reaches the best score, and every move before it scores strictly less. */
  lemma {:induction false} FirstBestIsFirst(e: Engine, b: Board, moves: seq<Move>, depth: nat)
    requires depth >= 1 && moves != []
    ensures ChildValue(e, b, moves[FirstBest(e, b, moves, depth)], depth) == Best(e, b, moves, depth)
    ensures forall j :: 0 <= j < FirstBest(e, b, moves, depth) ==>
      ChildValue(e, b, moves[j], depth) < Best(e, b, moves, depth)
    decreases |moves|
  {
    if |moves| > 1 && ChildValue(e, b, moves[0], depth) < Best(e, b, moves[1..], depth) {
      FirstBestIsFirst(e, b, moves[1..], depth);
      var k := FirstBest(e, b, moves[1..], depth);
      assert moves[1..][k] == moves[k + 1];
      forall j | 1 <= j < k + 1
        ensures ChildValue(e, b, moves[j], depth) < Best(e, b, moves, depth)
      {
        assert moves[1..][j - 1] == moves[j];
      }
    }
  }

  /** The root loop: `alpha` becomes the best score when that beats it, with the first move reaching it. */
  lemma {:induction false} RootLoopFindsBest(e: Engine, b: Board, moves: seq<Move>, depth: nat, best: Option<Move>, alpha: int)
    requires UsesModel(e) && |b.pieces| == 12 && Listed(e, b, moves)
    requires depth >= 1 && moves != []
    requires -Infinity <= alpha <= ScoreBound
    ensures var (bm, sc) := RootLoop(e, b, moves, depth, best, alpha);
      var v := Best(e, b, moves, depth);
      sc == Max(alpha, v) &&
      (v > alpha ==> bm == Some(moves[FirstBest(e, b, moves, depth)])) &&
      (v <= alpha ==> bm == best)
    decreases |moves|
  {
    var child := e.play(b, moves[0]);
    AlphaBetaCorrect(e, child, depth - 1, -Infinity, -alpha);
    PlayKeepsBoards(e, b, moves[0]);
    ValueBounded(e, child, depth - 1);
    var x := AlphaBeta(e, child, depth - 1, -Infinity, -alpha);
    AgreesNegated(x, Value(e, child, depth - 1), -Infinity, -alpha);
    var score := -x;
    var s := ChildValue(e, b, moves[0], depth);
    assert score > alpha <==> s > alpha;
    assert score > alpha ==> score == s;
    if |moves| > 1 {
      if score > alpha {
        RootLoopFindsBest(e, b, moves[1..], depth, Some(moves[0]), score);
        if Best(e, b, moves[1..], depth) > s {
          assert moves[1..][FirstBest(e, b, moves[1..], depth)] == moves[1 + FirstBest(e, b, moves[1..], depth)];
        }
      } else {
        RootLoopFindsBest(e, b, moves[1..], depth, best, alpha);
        if Best(e, b, moves[1..], depth) > alpha {
          assert moves[1..][FirstBest(e, b, moves[1..], depth)] == moves[1 + FirstBest(e, b, moves[1..], depth)];
        }
      }
    }
  }

  /**
   * Lines 34-56: with no legal moves `search` returns no move and 0;
   * otherwise it always returns a move (every score is far inside
   * `INFINITY`): the first legal move reaching the strictly highest score,
   * and that score, which is the negamax value of the position.
   */
  lemma SearchFindsBest(e: Engine, b: Board, depth: nat)
    requires UsesModel(e) && |b.pieces| == 12 && depth >= 1
    ensures e.legalMoves(b) == [] ==> SearchResult(e, b, depth) == (None, 0)
    ensures e.legalMoves(b) != [] ==>
      var moves := e.legalMoves(b);
      var i := FirstBest(e, b, moves, depth);
      SearchResult(e, b, depth) == (Some(moves[i]), Value(e, b, depth)) &&
      (forall j :: 0 <= j < |moves| ==> ChildValue(e, b, moves[j], depth) <= ChildValue(e, b, moves[i], depth)) &&
      (forall j :: 0 <= j < i ==> ChildValue(e, b, moves[j], depth) < ChildValue(e, b, moves[i], depth))
  {
    var moves := e.legalMoves(b);
    if moves != [] {
      BestBounded(e, b, moves, depth);
      RootLoopFindsBest(e, b, moves, depth, None, -Infinity);
      BestIsMax(e, b, moves, depth);
      FirstBestIsFirst(e, b, moves, depth);
    }
  }
}
