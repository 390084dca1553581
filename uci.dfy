/**
 * The command parsers of the Universal Chess Interface front end
 * (engine/uci.py): `parse_move` turns "e2e4" / "e7e8q" into a `Move`,
 * `parse_go` reads the search depth of a "go" command, and
 * `parse_position` rebuilds the position of a "position" command by
 * playing its moves from the start position or a FEN, collecting the hash
 * of every position passed through.
 *
 * Where the original raises (an index error, a failed square name, an
 * unbound `pos`, a failed `int(...)`, a move `make_move` cannot play) the
 * model returns `None` or an `Err`.
 */
module Uci {
  import opened Wrappers
  import opened Bitboard
  import opened Positions
  import opened Moves
  import opened MakeUnmake
  import opened Zobrist
  import opened Fen

  /** Python's slice `s[lo:hi]` for `0 <= lo <= hi`: the bounds are cut down to the length. */
  function Slice<T>(s: seq<T>, lo: nat, hi: nat): (r: seq<T>)
    requires lo <= hi
    ensures hi <= |s| ==> r == s[lo..hi]
    ensures |r| == if |s| <= lo then 0 else if |s| <= hi then |s| - lo else hi - lo
  {
    if |s| <= lo then [] else if |s| <= hi then s[lo..] else s[lo..hi]
  }

  // ---------------------------------------------------------------------------
  // parse_move

  /**
   * `parse_move(s)`: the squares named by `s[0:2]` and `s[2:4]`, and the
   * fifth character as promotion exactly when `s` has five characters.
   * `None` where `uci_to_sq` raises.
   */
  function ParseMove(s: string): (r: Option<Move>)
    ensures r.Some? ==> 0 <= r.value.fromSq < 64 && 0 <= r.value.toSq < 64
  {
    match (UciToSq(Slice(s, 0, 2)), UciToSq(Slice(s, 2, 4)))
    case (Some(f), Some(t)) => Some(Move(f, t, if |s| == 5 then Some(s[4]) else None))
    case _ => None
  }

  /**
   * Lines 10-15: a text parses exactly when its first four characters name
   * two squares; the squares are the ones named and the promotion is the
   * fifth character of a five-character text, none otherwise (a longer
   * text loses its tail).
   */
  lemma ParseMoveMeaning(s: string)
    ensures ParseMove(s).Some? <==> |s| >= 4 && s[0] in Files && s[1] in Ranks && s[2] in Files && s[3] in Ranks
    ensures ParseMove(s).Some? ==>
      var m := ParseMove(s).value;
      SqToUci(m.fromSq) == s[..2] && SqToUci(m.toSq) == s[2..4] &&
      m.promo == (if |s| == 5 then Some(s[4]) else None)
  {
    ParseMoveAccepts(s);
    if ParseMove(s).Some? {
      ParseMoveFields(s);
    }
  }

  lemma ParseMoveAccepts(s: string)
    ensures ParseMove(s).Some? <==> |s| >= 4 && s[0] in Files && s[1] in Ranks && s[2] in Files && s[3] in Ranks
  {
    if |s| >= 4 {
      assert Slice(s, 0, 2) == s[..2];
      assert Slice(s, 2, 4) == s[2..4];
    }
  }

  lemma ParseMoveFields(s: string)
    requires ParseMove(s).Some?
    ensures var m := ParseMove(s).value;
      SqToUci(m.fromSq) == s[..2] && SqToUci(m.toSq) == s[2..4] &&
      m.promo == (if |s| == 5 then Some(s[4]) else None)
  {
    var a, b := Slice(s, 0, 2), Slice(s, 2, 4);
    assert a == s[..2] && b == s[2..4];
    NamedSquare(a);
    NamedSquare(b);
  }

  /** A two-character square name that parses prints back unchanged. */
  lemma NamedSquare(a: string)
    requires |a| == 2 && UciToSq(a).Some?
    ensures SqToUci(UciToSq(a).value) == a
  {
  }

  /** Lines 10-15 against engine/move.py:10-13: every move on the board reads back from its text. */
  lemma ParseMoveToUci(m: Move)
    requires 0 <= m.fromSq < 64 && 0 <= m.toSq < 64
    ensures ParseMove(ToUci(m)) == Some(m)
  {
    var s := ToUci(m);
    SqToUciRoundTrip(m.fromSq);
    SqToUciRoundTrip(m.toSq);
    assert Slice(s, 0, 2) == SqToUci(m.fromSq);
    assert Slice(s, 2, 4) == SqToUci(m.toSq);
  }

  /** The other direction: a four- or five-character text that parses is printed back unchanged. */
  lemma ToUciParseMove(s: string)
    requires |s| == 4 || |s| == 5
    requires ParseMove(s).Some?
    ensures ToUci(ParseMove(s).value) == s
  {
    ParseMoveFields(s);
    var t := ToUci(ParseMove(s).value);
    assert t[..2] == s[..2] && t[2..4] == s[2..4] && t[4..] == s[4..];
    assert t == t[..2] + t[2..4] + t[4..];
    assert s == s[..2] + s[2..4] + s[4..];
  }

  // ---------------------------------------------------------------------------
  // parse_go

  /** A "depth" token at `j` with a token after it. */
  predicate DepthAt(tokens: seq<string>, j: nat)
  {
    j + 1 < |tokens| && tokens[j] == "depth"
  }

  /** The first index from `i` on that holds a "depth" token with a successor. */
  function FirstDepth(tokens: seq<string>, i: nat): (r: Option<nat>)
    requires i <= |tokens|
    ensures r.Some? ==> i <= r.value && DepthAt(tokens, r.value)
    ensures r.Some? ==> forall j :: i <= j < r.value ==> !DepthAt(tokens, j)
    ensures r.None? ==> forall j :: i <= j < |tokens| ==> !DepthAt(tokens, j)
    decreases |tokens| - i
  {
    if i == |tokens| then None
    else if DepthAt(tokens, i) then Some(i)
    else FirstDepth(tokens, i + 1)
  }

  /** What `parse_go(tokens)` returns: the number after the first "depth" that has one, 5 if there is none; `None` where `int` raises. */
  function GoDepth(tokens: seq<string>): Option<int>
  {
    match FirstDepth(tokens, 0)
    case None => Some(5)
    case Some(j) => ParseInt(tokens[j + 1])
  }

  /** `parse_go`: lines 47-56, the loop stopping at the first "depth" with a successor. */
  method ParseGo(tokens: seq<string>) returns (depth: Option<int>)
    ensures depth == GoDepth(tokens)
  {
    depth := Some(5);
    var i := 0;
    while i < |tokens|
      invariant i <= |tokens|
      invariant depth == Some(5)
      invariant FirstDepth(tokens, 0) == FirstDepth(tokens, i)
    {
      if tokens[i] == "depth" && i + 1 < |tokens| {
        depth := ParseInt(tokens[i + 1]);
        break;
      }
      i := i + 1;
    }
  }

  lemma {:induction false} FirstDepthIgnoresTrailing(tokens: seq<string>, i: nat)
    requires i <= |tokens|
    requires tokens == [] || tokens[|tokens| - 1] != "depth"
    ensures FirstDepth(tokens + ["depth"], i) == FirstDepth(tokens, i)
    decreases |tokens| - i
  {
    var t := tokens + ["depth"];
    assert forall j :: 0 <= j < |tokens| ==> t[j] == tokens[j];
    if i < |tokens| {
      assert DepthAt(t, i) <==> DepthAt(tokens, i);
      FirstDepthIgnoresTrailing(tokens, i + 1);
    } else {
      assert !DepthAt(t, i);
    }
  }

  /** Line 52: a "depth" with nothing after it is not read, so appending one changes nothing. */
  lemma TrailingDepthIgnored(tokens: seq<string>)
    requires tokens == [] || tokens[|tokens| - 1] != "depth"
    ensures GoDepth(tokens + ["depth"]) == GoDepth(tokens)
  {
    FirstDepthIgnoresTrailing(tokens, 0);
    var t := tokens + ["depth"];
    if FirstDepth(tokens, 0).Some? {
      var j := FirstDepth(tokens, 0).value;
      assert t[j + 1] == tokens[j + 1];
    }
  }

  // ---------------------------------------------------------------------------
  // parse_position

  /** Why `parse_position` raises. */
  datatype UciError =
    | MissingKind              // line 23: no token after "position"
    | UnknownKind              // line 34: neither "startpos" nor "fen", so `pos` is unbound
    | BadFen(fen: FenError)    // lines 24 and 30: `parse_fen` raises
    | BadMove(text: string)    // line 40: `parse_move` raises
    | Unplayable(move: Move)   // line 41: `make_move` raises

  const StartFen: string := "rnbqkbnr/pppppppp/8/8/8/8/PPPPPPPP/RNBQKBNR w KQkq - 0 1"

  /** Lines 20-31: the position the command starts from and the index of the token after it. */
  function StartOf(tokens: seq<string>): (r: Result<(Board, nat), UciError>)
    ensures r.Ok? ==> |r.value.0.pieces| == 12 && OnBoard(r.value.0)
  {
    if |tokens| < 2 then Err(MissingKind)
    else if tokens[1] == "startpos" then
      match Decode(StartFen)
      case Err(e) => Err(BadFen(e))
      case Ok(b) => DecodeMeaning(StartFen); Ok((b, 2))
    else if tokens[1] == "fen" then
      var fen := Unwords(Slice(tokens, 2, 8));
      match Decode(fen)
      case Err(e) => Err(BadFen(e))
      case Ok(b) => DecodeMeaning(fen); Ok((b, 8))
    else Err(UnknownKind)
  }

  /** Line 37: the move texts, those after a "moves" token at `idx`. */
  function MovesOf(tokens: seq<string>, idx: nat): seq<string>
  {
    if idx < |tokens| && tokens[idx] == "moves" then tokens[idx + 1..] else []
  }

  /**
   * `play` is `make_move` wherever `make_move` does not raise. The fold
   * below is stated over such a `play`, so that reasoning about the fold
   * meets `make_move` only where a step is taken.
   */
  ghost predicate IsMakeMove(play: (Board, Move) -> Board)
  {
    (forall b, m {:trigger Apply(b, m)} :: Makeable(b, m) ==> play(b, m) == Apply(b, m)) &&
    (forall b, m {:trigger play(b, m)} :: Makeable(b, m) ==> |play(b, m).pieces| == 12)
  }

  /** `hash` is `hash_position` with the keys `keys`, on every board of twelve piece boards. */
  ghost predicate IsHash(keys: Keys, hash: Board -> int)
    requires keys.Valid()
  {
    forall b: Board {:trigger Hash(keys, b)} :: |b.pieces| == 12 ==> hash(b) == Hash(keys, b)
  }

  /** `make_move` as a value, leaving the boards alone where it raises. */
  function MakeMoveFn(): (Board, Move) -> Board
  {
    (b, m) => if Makeable(b, m) then Apply(b, m) else b
  }

  /** `hash_position` as a value. */
  function HashFn(keys: Keys): Board -> int
    requires keys.Valid()
  {
    (b: Board) => if |b.pieces| == 12 then Hash(keys, b) else 0
  }

  /** The values the engine's own functions give meet the two predicates. */
  lemma EngineFunctions(keys: Keys)
    requires keys.Valid()
    ensures IsMakeMove(MakeMoveFn()) && IsHash(keys, HashFn(keys))
  {
    forall b, m | Makeable(b, m)
      ensures |MakeMoveFn()(b, m).pieces| == 12
    {
      ApplyConsistent(b, m);
    }
  }

  /**
   * Lines 40-41: one move text played on `last`: `parse_move` and then
   * `make_move`, either of which may raise.
   */
  function Advance(play: (Board, Move) -> Board, last: Board, text: string): Result<Board, UciError>
  {
    match ParseMove(text)
    case None => Err(BadMove(text))
    case Some(m) => if Makeable(last, m) then Ok(play(last, m)) else Err(Unplayable(m))
  }

  /** `Advance` as a value, the step the fold below takes. */
  function StepOf(play: (Board, Move) -> Board): (Board, string) -> Result<Board, UciError>
  {
    (last, text) => Advance(play, last, text)
  }

  /**
   * Lines 38-43: the positions passed through while the move texts are
   * played in order from `b` by `step`, `b` first; the first failing step
   * ends the fold.
   */
  function Trail(step: (Board, string) -> Result<Board, UciError>, b: Board, ms: seq<string>): (r: Result<seq<Board>, UciError>)
    ensures r.Ok? ==> |r.value| == |ms| + 1 && r.value[0] == b
    decreases |ms|
  {
    if ms == [] then Ok([b])
    else
      match Trail(step, b, ms[..|ms| - 1])
      case Err(e) => Err(e)
      case Ok(t) =>
        match step(t[|t| - 1], ms[|ms| - 1])
        case Err(e) => Err(e)
        case Ok(next) => Ok(t + [next])
  }

  /** A move text that fails ends the trail: later texts are not read. */
  lemma {:induction false} TrailErrStays(step: (Board, string) -> Result<Board, UciError>, b: Board, ms: seq<string>, k: nat)
    requires k <= |ms|
    ensures Trail(step, b, ms[..k]).Err? ==> Trail(step, b, ms) == Trail(step, b, ms[..k])
    decreases |ms| - k
  {
    if k == |ms| {
      assert ms[..k] == ms;
    } else if Trail(step, b, ms[..k]).Err? {
      assert ms[..k + 1][..k] == ms[..k];
      TrailErrStays(step, b, ms, k + 1);
    }
  }

  /** One more move text played onto an accepted prefix of the trail. */
  lemma TrailExtend(step: (Board, string) -> Result<Board, UciError>, b: Board, ms: seq<string>, k: nat, t: seq<Board>)
    requires k < |ms| && Trail(step, b, ms[..k]) == Ok(t)
    ensures Trail(step, b, ms[..k + 1]) ==
      match step(t[k], ms[k])
      case Err(e) => Err(e)
      case Ok(next) => Ok(t + [next])
  {
    assert ms[..k + 1][..k] == ms[..k];
    assert ms[..k + 1][k] == ms[k];
  }

  /** The trail of a prefix of the move texts is the prefix of the trail. */
  lemma {:induction false} TrailPrefix(step: (Board, string) -> Result<Board, UciError>, b: Board, ms: seq<string>, k: nat)
    requires Trail(step, b, ms).Ok? && k <= |ms|
    ensures Trail(step, b, ms[..k]) == Ok(Trail(step, b, ms).value[..k + 1])
    decreases |ms| - k
  {
    var t := Trail(step, b, ms).value;
    if k < |ms| {
      TrailPrefix(step, b, ms, k + 1);
      TrailErrStays(step, b, ms, k);
      var tk := Trail(step, b, ms[..k]).value;
      TrailExtend(step, b, ms, k, tk);
      assert Trail(step, b, ms[..k + 1]) == Ok(t[..k + 2]);
      assert step(tk[k], ms[k]).Ok?;
      var next := step(tk[k], ms[k]).value;
      assert t[..k + 2] == tk + [next];
      assert tk == t[..k + 2][..k + 1];
      assert tk == t[..k + 1];
    } else {
      assert ms[..k] == ms && t[..k + 1] == t;
    }
  }

  /**
   * Lines 38-43: each position of the trail is `make_move` (see
   * `IsMakeMove`) of the one before it and the next move text, parsed;
   * every move text parses and can be made.
   */
  lemma TrailSteps(play: (Board, Move) -> Board, b: Board, ms: seq<string>, i: nat)
    requires Trail(StepOf(play), b, ms).Ok? && i < |ms|
    ensures var t := Trail(StepOf(play), b, ms).value;
      ParseMove(ms[i]).Some? && Makeable(t[i], ParseMove(ms[i]).value) &&
      t[i + 1] == play(t[i], ParseMove(ms[i]).value)
  {
    var t := Trail(StepOf(play), b, ms).value;
    TrailPrefix(StepOf(play), b, ms, i);
    TrailPrefix(StepOf(play), b, ms, i + 1);
    TrailExtend(StepOf(play), b, ms, i, t[..i + 1]);
    assert t[..i + 1][i] == t[i];
    assert t[..i + 2] == t[..i + 1] + [t[i + 1]];
    assert StepOf(play)(t[i], ms[i]) == Advance(play, t[i], ms[i]);
  }

  /** The hashes of the boards of `t`, added one board at a time as lines 34 and 42 do. */
  function HistoryOf(hash: Board -> int, t: seq<Board>): set<int>
  {
    if t == [] then {} else HistoryOf(hash, t[..|t| - 1]) + {hash(t[|t| - 1])}
  }

  /** The history holds exactly the hash of every board passed through. */
  lemma {:induction false} HistoryOfHashes(hash: Board -> int, t: seq<Board>, h: int)
    ensures h in HistoryOf(hash, t) <==> exists i :: 0 <= i < |t| && h == hash(t[i])
  {
    if t != [] {
      var u := t[..|t| - 1];
      HistoryOfHashes(hash, u, h);
      if h in HistoryOf(hash, u) {
        var i :| 0 <= i < |u| && h == hash(u[i]);
        assert t[i] == u[i];
      }
      if exists i :: 0 <= i < |t| && h == hash(t[i]) {
        var i :| 0 <= i < |t| && h == hash(t[i]);
        if i < |u| {
          assert t[i] == u[i];
        }
      }
    }
  }

  /** What `parse_position(tokens)` returns: the final position and the set of hashes seen. */
  function ParsedPosition(play: (Board, Move) -> Board, hash: Board -> int, tokens: seq<string>): Result<(Board, set<int>), UciError>
    requires IsMakeMove(play)
  {
    match StartOf(tokens)
    case Err(e) => Err(e)
    case Ok((b, idx)) =>
      match Trail(StepOf(play), b, MovesOf(tokens, idx))
      case Err(e) => Err(e)
      case Ok(t) => Ok((t[|t| - 1], HistoryOf(hash, t)))
  }

  /**
   * Lines 18-45: the position is the start position with every move text
   * played in order, and the history holds exactly the hashes of the start
   * position and of every position after it.
   */
  lemma ParsedPositionMeaning(play: (Board, Move) -> Board, hash: Board -> int, tokens: seq<string>)
    requires IsMakeMove(play) && ParsedPosition(play, hash, tokens).Ok?
    ensures var (b, idx) := StartOf(tokens).value;
      var ms := MovesOf(tokens, idx);
      var t := Trail(StepOf(play), b, ms).value;
      var (pos, history) := ParsedPosition(play, hash, tokens).value;
      pos == t[|ms|] &&
      (forall h :: h in history <==> exists i :: 0 <= i <= |ms| && h == hash(t[i]))
  {
    var (b, idx) := StartOf(tokens).value;
    var t := Trail(StepOf(play), b, MovesOf(tokens, idx)).value;
    forall h
      ensures h in HistoryOf(hash, t) <==> exists i :: 0 <= i <= |MovesOf(tokens, idx)| && h == hash(t[i])
    {
      HistoryOfHashes(hash, t, h);
    }
  }

  /** Without a "moves" token the position is the start position and the history its hash alone. */
  lemma NoMoves(play: (Board, Move) -> Board, hash: Board -> int, tokens: seq<string>)
    requires IsMakeMove(play) && StartOf(tokens).Ok?
    requires var idx := StartOf(tokens).value.1; idx >= |tokens| || tokens[idx] != "moves"
    ensures var b := StartOf(tokens).value.0;
      ParsedPosition(play, hash, tokens) == Ok((b, {hash(b)}))
  {
    var (b, idx) := StartOf(tokens).value;
    assert MovesOf(tokens, idx) == [];
    assert Trail(StepOf(play), b, []) == Ok([b]);
    assert [b][..0] == [];
    assert HistoryOf(hash, [b]) == {} + {hash(b)};
    assert {} + {hash(b)} == {hash(b)};
  }

  /**
   * Lines 28-31: with "fen", the six tokens after it, when they are words
   * without spaces, are exactly the fields `parse_fen` reads.
   */
  lemma FenTokensAreFields(tokens: seq<string>)
    requires |tokens| >= 8
    requires forall i :: 2 <= i < 8 ==> tokens[i] != [] && NoSpace(tokens[i])
    ensures Words(Unwords(Slice(tokens, 2, 8))) == tokens[2..8]
  {
    var f := tokens[2..8];
    assert forall i :: 0 <= i < 6 ==> f[i] == tokens[i + 2];
    WordsUnwords(f);
  }

  /** Line 42: adding a position's hash to the history. */
  lemma HistoryAppend(hash: Board -> int, t: seq<Board>, x: Board)
    ensures HistoryOf(hash, t + [x]) == HistoryOf(hash, t) + {hash(x)}
  {
    assert (t + [x])[..|t|] == t;
  }

  /** Lines 41-42: `make_move` on the current position, then the hash of the new one. */
  method PlayAndHash(keys: Keys, pos: Position, m: Move) returns (next: Position, h: int)
    requires keys.Valid() && pos.Valid() && OnBoard(pos.Value())
    requires Makeable(pos.Value(), m) && m.fromSq < 64 && m.toSq < 64
    ensures fresh(next) && next.Valid() && OnBoard(next.Value())
    ensures next.Value() == Apply(pos.Value(), m) && h == Hash(keys, next.Value())
  {
    ApplyConsistent(pos.Value(), m);
    next := MakeMove(pos, m);
    h := HashPosition(keys, next);
  }

  /**
   * Lines 37-43: the loop over the move texts, replacing `pos` by the
   * position after each move and adding its hash to `history`.
   */
  method PlayMoves(keys: Keys, ghost play: (Board, Move) -> Board, ghost hash: Board -> int,
                   pos0: Position, history0: set<int>, ms: seq<string>)
    returns (r: Result<(Position, set<int>), UciError>)
    requires keys.Valid() && IsMakeMove(play) && IsHash(keys, hash)
    requires pos0.Valid() && OnBoard(pos0.Value()) && history0 == HistoryOf(hash, [pos0.Value()])
    ensures Trail(StepOf(play), pos0.Value(), ms).Err? ==> r == Err(Trail(StepOf(play), pos0.Value(), ms).error)
    ensures Trail(StepOf(play), pos0.Value(), ms).Ok? ==>
      var t := Trail(StepOf(play), pos0.Value(), ms).value;
      r.Ok? && (fresh(r.value.0) || r.value.0 == pos0) && r.value.0.Valid() &&
      r.value.0.Value() == t[|t| - 1] && r.value.1 == HistoryOf(hash, t)
  {
    ghost var b := pos0.Value();
    var pos := pos0;
    var history := history0;
    ghost var t := [b];
    assert ms[..0] == [];
    var i := 0;
    while i < |ms|
      invariant i <= |ms| && |t| == i + 1
      invariant Trail(StepOf(play), b, ms[..i]) == Ok(t)
      invariant (fresh(pos) || pos == pos0) && pos.Valid() && OnBoard(pos.Value())
      invariant pos.Value() == t[i] && history == HistoryOf(hash, t)
    {
      TrailExtend(StepOf(play), b, ms, i, t);
      assert StepOf(play)(t[i], ms[i]) == Advance(play, t[i], ms[i]);
      var m := ParseMove(ms[i]);
      if m.None? {
        TrailErrStays(StepOf(play), b, ms, i + 1);
        return Err(BadMove(ms[i]));
      }
      if !Makeable(pos.Value(), m.value) {
        TrailErrStays(StepOf(play), b, ms, i + 1);
        return Err(Unplayable(m.value));
      }
      var h;
      pos, h := PlayAndHash(keys, pos, m.value);
      history := history + {h};
      HistoryAppend(hash, t, pos.Value());
      t := t + [pos.Value()];
      i := i + 1;
    }
    assert ms[..i] == ms;
    return Ok((pos, history));
  }

  /** Lines 20-31: the start position as a fresh object, and the index of the token after it. */
  method StartPosition(tokens: seq<string>) returns (r: Result<(Position, nat), UciError>)
    ensures r.Err? <==> StartOf(tokens).Err?
    ensures r.Err? ==> r.error == StartOf(tokens).error
    ensures r.Ok? ==>
      fresh(r.value.0) && r.value.0.Valid() && (r.value.0.Value(), r.value.1) == StartOf(tokens).value
  {
    if |tokens| < 2 {
      return Err(MissingKind);
    }
    var fen: string;
    var idx: nat;
    if tokens[1] == "startpos" {
      fen, idx := StartFen, 2;
    } else if tokens[1] == "fen" {
      fen, idx := Unwords(Slice(tokens, 2, 8)), 8;
    } else {
      return Err(UnknownKind);
    }
    var parsed := ParseFen(fen);
    if parsed.Err? {
      return Err(BadFen(parsed.error));
    }
    return Ok((parsed.value, idx));
  }

  /**
   * `parse_position`: lines 18-45. In the contract `play` and `hash`
   * stand for `make_move` and `hash_position`, which the method calls
   * itself.
   */
  method ParsePosition(keys: Keys, ghost play: (Board, Move) -> Board, ghost hash: Board -> int, tokens: seq<string>)
    returns (r: Result<(Position, set<int>), UciError>)
    requires keys.Valid() && IsMakeMove(play) && IsHash(keys, hash)
    ensures r.Err? <==> ParsedPosition(play, hash, tokens).Err?
    ensures r.Err? ==> r.error == ParsedPosition(play, hash, tokens).error
    ensures r.Ok? ==>
      r.value.0.Valid() &&
      r.value.0.Value() == ParsedPosition(play, hash, tokens).value.0 &&
      r.value.1 == ParsedPosition(play, hash, tokens).value.1
  {
    var start := StartPosition(tokens);
    if start.Err? {
      return Err(start.error);
    }
    var (pos, idx) := start.value;
    ghost var b := pos.Value();
    assert OnBoard(b);
    var h := HashPosition(keys, pos);
    var history := {h};
    assert HistoryOf(hash, [b]) == history by {
      assert [b][..0] == [];
      assert {} + {h} == {h};
    }
    var moves: seq<string> := [];
    if idx < |tokens| && tokens[idx] == "moves" {
      moves := tokens[idx + 1..];
    }
    assert moves == MovesOf(tokens, idx);
    r := PlayMoves(keys, play, hash, pos, history, moves);
    ParsedFrom(play, hash, tokens, b, idx);
  }

  /** `ParsedPosition` once the start position is known. */
  lemma ParsedFrom(play: (Board, Move) -> Board, hash: Board -> int, tokens: seq<string>, b: Board, idx: nat)
    requires IsMakeMove(play) && StartOf(tokens) == Ok((b, idx))
    ensures var tr := Trail(StepOf(play), b, MovesOf(tokens, idx));
      var parsed := ParsedPosition(play, hash, tokens);
      (parsed.Err? <==> tr.Err?) &&
      (tr.Err? ==> parsed.error == tr.error) &&
      (tr.Ok? ==> parsed.value == (tr.value[|tr.value| - 1], HistoryOf(hash, tr.value)))
  {
  }
}
