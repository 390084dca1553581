/**
 * Decoding Forsyth-Edwards Notation (engine/fen.py), as described in
 * section 16.1 of the PGN Standard: six whitespace-separated fields, the
 * piece placement as eight '/'-separated ranks from rank 8 down to rank 1,
 * the side to move, the castling rights, the en-passant square and the two
 * clocks.
 *
 * `Decode` is the whole of `parse_fen` as a function on text, built from
 * folds that follow its loops; `ParseFen` runs those loops on a fresh
 * `Position`. Every `ValueError` and `IndexError` the original raises is a
 * `FenError`.
 */
module Fen {
  import opened Wrappers
  import opened PyInt
  import opened Bitboard
  import opened Positions

  /** Why `parse_fen` raises. */
  datatype FenError =
    | FieldCount               // lines 10-11
    | RankCount                // lines 18-19
    | InvalidPiece(ch: char)   // lines 29-30
    | TooManyFiles             // lines 31-32
    | RankSum                  // lines 39-40
    | SideToMove               // lines 42-43
    | EpFile                   // line 51: the file letter is not in a-h
    | EpRank                   // line 52: no second character, or not a digit
    | BadClock                 // lines 55-56: a clock that `int` rejects

  // ---------------------------------------------------------------------------
  // Splitting text.

  /** The characters `str.split()` separates on (the ASCII ones). */
  predicate IsSpace(c: char)
  {
    var n := c as int;
    n == 32 || 9 <= n <= 13 || 28 <= n <= 31
  }

  predicate NoSpace(w: string)
  {
    forall i :: 0 <= i < |w| ==> !IsSpace(w[i])
  }

  /** The longest prefix of `s` without whitespace. */
  function Token(s: string): (w: string)
    ensures |w| <= |s| && w == s[..|w|] && NoSpace(w)
    ensures |w| < |s| ==> IsSpace(s[|w|])
  {
    if s == [] || IsSpace(s[0]) then []
    else
      var rest := Token(s[1..]);
      assert s[1..][..|rest|] == s[1..|rest| + 1];
      [s[0]] + rest
  }

  /** `s.strip().split()`: the maximal runs of characters other than whitespace. */
  function Words(s: string): (ws: seq<string>)
    ensures forall i :: 0 <= i < |ws| ==> ws[i] != [] && NoSpace(ws[i])
    decreases |s|
  {
    if s == [] then []
    else if IsSpace(s[0]) then Words(s[1..])
    else
      var w := Token(s);
      [w] + Words(s[|w|..])
  }

  /** `" ".join(ws)`. */
  function Unwords(ws: seq<string>): string
  {
    if ws == [] then ""
    else if |ws| == 1 then ws[0]
    else ws[0] + " " + Unwords(ws[1..])
  }

  lemma {:induction false} TokenOfWord(w: string, rest: string)
    requires NoSpace(w) && (rest == [] || IsSpace(rest[0]))
    ensures Token(w + rest) == w
  {
    if w != [] {
      assert (w + rest)[1..] == w[1..] + rest;
      TokenOfWord(w[1..], rest);
    }
  }

  /** Joining words with single spaces and splitting again gives the words back. */
  lemma {:induction false} WordsUnwords(ws: seq<string>)
    requires forall i :: 0 <= i < |ws| ==> ws[i] != [] && NoSpace(ws[i])
    ensures Words(Unwords(ws)) == ws
  {
    if |ws| == 1 {
      TokenOfWord(ws[0], []);
      assert ws[0] + [] == ws[0];
    } else if |ws| > 1 {
      var rest := Unwords(ws[1..]);
      var s := ws[0] + " " + rest;
      TokenOfWord(ws[0], " " + rest);
      assert ws[0] + (" " + rest) == s;
      assert s[|ws[0]|..] == " " + rest;
      assert (" " + rest)[1..] == rest;
      WordsUnwords(ws[1..]);
    }
  }

  /** `s.split(c)`: the pieces between occurrences of `c`, empty ones included. */
  function SplitOn(s: string, c: char): (parts: seq<string>)
    ensures |parts| >= 1
    ensures forall i :: 0 <= i < |parts| ==> c !in parts[i]
    decreases |s|
  {
    match IndexOf(s, c)
    case None => [s]
    case Some(i) => [s[..i]] + SplitOn(s[i + 1..], c)
  }

  /** `c.join(parts)`. */
  function JoinWith(parts: seq<string>, c: char): string
    requires |parts| >= 1
  {
    if |parts| == 1 then parts[0] else parts[0] + [c] + JoinWith(parts[1..], c)
  }

  /** Splitting and joining again gives the text back. */
  lemma {:induction false} JoinSplit(s: string, c: char)
    ensures JoinWith(SplitOn(s, c), c) == s
    decreases |s|
  {
    match IndexOf(s, c)
    case None =>
    case Some(i) =>
      var rest := SplitOn(s[i + 1..], c);
      JoinSplit(s[i + 1..], c);
      assert SplitOn(s, c) == [s[..i]] + rest;
      assert ([s[..i]] + rest)[1..] == rest;
      assert JoinWith(SplitOn(s, c), c) == s[..i] + [c] + s[i + 1..];
      assert s == s[..i] + [c] + s[i + 1..];
  }

  /** Joining pieces without `c` and splitting again gives the pieces back. */
  lemma {:induction false} SplitJoin(parts: seq<string>, c: char)
    requires |parts| >= 1 && forall i :: 0 <= i < |parts| ==> c !in parts[i]
    ensures SplitOn(JoinWith(parts, c), c) == parts
  {
    if |parts| > 1 {
      var rest := JoinWith(parts[1..], c);
      SplitAfter(parts[0], c, rest);
      assert forall i :: 0 <= i < |parts[1..]| ==> parts[1..][i] == parts[i + 1];
      SplitJoin(parts[1..], c);
      assert parts == [parts[0]] + parts[1..];
    } else {
      assert IndexOf(parts[0], c).None?;
    }
  }

  /** A text starting with a piece free of `c` and then `c` splits into that piece and the rest's pieces. */
  lemma SplitAfter(w: string, c: char, rest: string)
    requires c !in w
    ensures SplitOn(w + [c] + rest, c) == [w] + SplitOn(rest, c)
  {
    var s := w + [c] + rest;
    IndexOfAfter(w, c, rest);
    assert s[|w| + 1..] == rest;
    assert s[..|w|] == w;
  }

  lemma IndexOfAfter(w: string, c: char, rest: string)
    requires c !in w
    ensures IndexOf(w + [c] + rest, c) == Some(|w|)
  {
    var s := w + [c] + rest;
    assert s[|w|] == c;
    assert forall j :: 0 <= j < |w| ==> s[j] == w[j];
    assert forall j :: |w| < j <= |s| ==> s[..j][|w|] == c;
  }

  // ---------------------------------------------------------------------------
  // Numbers.

  /** The digits `str.isdigit` and `int` accept here (the ASCII ones). */
  predicate IsDigit(c: char)
  {
    '0' <= c <= '9'
  }

  function DigitValue(c: char): nat
    requires IsDigit(c)
  {
    c as int - '0' as int
  }

  predicate AllDigits(s: string)
  {
    forall i :: 0 <= i < |s| ==> IsDigit(s[i])
  }

  /** The number written by decimal digits. */
  function DigitsValue(s: string): nat
    requires AllDigits(s)
  {
    if s == [] then 0 else DigitsValue(s[..|s| - 1]) * 10 + DigitValue(s[|s| - 1])
  }

  /** `int(s)`: an optional sign and at least one decimal digit. */
  function ParseInt(s: string): Option<int>
  {
    if |s| > 0 && (s[0] == '+' || s[0] == '-') then
      var body := s[1..];
      if body != [] && AllDigits(body) then
        var v: int := DigitsValue(body);
        Some(if s[0] == '-' then -v else v)
      else None
    else if s != [] && AllDigits(s) then Some(DigitsValue(s))
    else None
  }

  /** `str(n)` for a natural number. */
  function NatText(n: nat): (s: string)
    ensures s != [] && AllDigits(s)
  {
    var d := ['0' + (n % 10) as char];
    if n < 10 then d else NatText(n / 10) + d
  }

  /** `str(n)`. */
  function IntText(n: int): string
  {
    if n < 0 then "-" + NatText(-n) else NatText(n)
  }

  lemma {:induction false} NatTextValue(n: nat)
    ensures DigitsValue(NatText(n)) == n
  {
    var s := NatText(n);
    if n >= 10 {
      NatTextValue(n / 10);
      assert s[..|s| - 1] == NatText(n / 10);
    }
  }

  /** `int(str(n)) == n`. */
  lemma ParseIntText(n: int)
    ensures ParseInt(IntText(n)) == Some(n)
  {
    if n < 0 {
      NatTextValue(-n);
      assert IntText(n)[1..] == NatText(-n);
    } else {
      NatTextValue(n);
    }
  }

  // ---------------------------------------------------------------------------
  // The piece placement.

  /** Lines 26-37: one character of a rank, with the boards and the file reached so far. */
  function Step(pieces: seq<Bitboard>, rank: nat, file: nat, ch: char): (r: Result<(seq<Bitboard>, nat), FenError>)
    requires |pieces| == 12
    ensures r.Ok? ==> |r.value.0| == 12
  {
    if IsDigit(ch) then Ok((pieces, file + DigitValue(ch)))
    else match PieceIndex(ch)
      case None => Err(InvalidPiece(ch))
      case Some(k) =>
        if file > 7 then Err(TooManyFiles)
        else Ok((pieces[k := SetBit(pieces[k], SquareIndex(file, rank))], file + 1))
  }

  /** Lines 23-37: the first `n` characters of the rank `s`, placed on `rank`. */
  function ScanRank(pieces: seq<Bitboard>, rank: nat, s: string, n: nat): (r: Result<(seq<Bitboard>, nat), FenError>)
    requires |pieces| == 12 && n <= |s|
    ensures r.Ok? ==> |r.value.0| == 12
  {
    if n == 0 then Ok((pieces, 0))
    else match ScanRank(pieces, rank, s, n - 1)
      case Err(e) => Err(e)
      case Ok((q, f)) => Step(q, rank, f, s[n - 1])
  }

  /** Lines 21-40: the first `n` ranks of the placement, the i-th placed on rank 7 - i. */
  function ScanRanks(pieces: seq<Bitboard>, ranks: seq<string>, n: nat): (r: Result<seq<Bitboard>, FenError>)
    requires |pieces| == 12 && n <= |ranks| && n <= 8
    ensures r.Ok? ==> |r.value| == 12
  {
    if n == 0 then Ok(pieces)
    else match ScanRanks(pieces, ranks, n - 1)
      case Err(e) => Err(e)
      case Ok(p) =>
        match ScanRank(p, 8 - n, ranks[n - 1], |ranks[n - 1]|)
        case Err(e) => Err(e)
        case Ok((q, f)) => if f != 8 then Err(RankSum) else Ok(q)
  }

  /** What a rank's text describes, from file a on: a digit d is d empty squares, a letter one square holding that piece. */
  function Cells(s: string): seq<Option<char>>
  {
    if s == [] then []
    else
      var c := s[|s| - 1];
      Cells(s[..|s| - 1]) + (if IsDigit(c) then seq(DigitValue(c), _ => None) else [Some(c)])
  }

  /**
   * The first `n` characters of `s` are accepted one by one: each is a digit,
   * or a piece letter arriving while the file is still at most h.
   */
  predicate CharsOk(s: string, n: nat)
    requires n <= |s|
  {
    n == 0 || (CharsOk(s, n - 1) && CharOk(s, n - 1))
  }

  /** Character `j` of a rank is a digit, or a piece letter arriving while the file is still at most h. */
  predicate CharOk(s: string, j: nat)
    requires j < |s|
  {
    IsDigit(s[j]) || (s[j] in PieceOrder && |Cells(s[..j])| <= 7)
  }

  /** A rank `parse_fen` accepts: digits and piece letters, every letter on a file up to h, eight squares in all. */
  predicate RankOk(s: string)
  {
    CharsOk(s, |s|) && |Cells(s)| == 8
  }

  /** `CharsOk` character by character: every character is a digit or a piece letter, and every letter stands on a file up to h. */
  lemma {:induction false} CharsOkAll(s: string, n: nat)
    requires n <= |s|
    ensures CharsOk(s, n) <==>
      (forall j :: 0 <= j < n ==> IsDigit(s[j]) || s[j] in PieceOrder) &&
      (forall j :: 0 <= j < n && !IsDigit(s[j]) ==> |Cells(s[..j])| <= 7)
  {
    CharsOkEach(s, n);
    if CharsOk(s, n) {
      forall j | 0 <= j < n
        ensures IsDigit(s[j]) || s[j] in PieceOrder
        ensures !IsDigit(s[j]) ==> |Cells(s[..j])| <= 7
      {
        assert CharOk(s, j);
      }
    } else {
      var j :| 0 <= j < n && !CharOk(s, j);
      assert !IsDigit(s[j]);
    }
  }

  lemma {:induction false} CharsOkEach(s: string, n: nat)
    requires n <= |s|
    ensures CharsOk(s, n) <==> forall j :: 0 <= j < n ==> CharOk(s, j)
  {
    if n > 0 {
      CharsOkEach(s, n - 1);
    }
  }

  /** The boards `q` are `p` plus the pieces `cells` describes from square `rank * 8` on. */
  ghost predicate Described(q: seq<Bitboard>, p: seq<Bitboard>, rank: nat, cells: seq<Option<char>>)
    requires |q| == 12 && |p| == 12
  {
    forall k, t: nat :: 0 <= k < 12 ==>
      (IsSet(q[k], t) <==> IsSet(p[k], t) || (rank * 8 <= t < rank * 8 + |cells| && cells[t - rank * 8] == Some(PieceOrder[k])))
  }

  predicate Within64(p: seq<Bitboard>)
  {
    forall k :: 0 <= k < |p| ==> 0 <= p[k] < Pow2(64)
  }

  lemma SetBitWithin(bb: Bitboard, t: nat)
    requires 0 <= bb < Pow2(64) && t < 64
    ensures 0 <= SetBit(bb, t) < Pow2(64)
  {
    BitValue(t);
    Pow2Monotonic(t, 64);
    OrBelow(bb, Bit(t), 64);
  }

  /** A digit adds empty cells and leaves the boards alone. */
  lemma DigitDescribes(p: seq<Bitboard>, q: seq<Bitboard>, rank: nat, cells: seq<Option<char>>, d: nat)
    requires |p| == 12 && |q| == 12 && Described(q, p, rank, cells)
    ensures Described(q, p, rank, cells + seq(d, _ => None))
  {
    var cells2 := cells + seq(d, _ => None);
    forall j, t: nat | 0 <= j < 12
      ensures IsSet(q[j], t) <==> IsSet(p[j], t) || (rank * 8 <= t < rank * 8 + |cells2| && cells2[t - rank * 8] == Some(PieceOrder[j]))
    {
      if rank * 8 <= t < rank * 8 + |cells| {
        assert cells2[t - rank * 8] == cells[t - rank * 8];
      }
    }
  }

  /** A piece letter sets its square on its own board and adds one cell holding it. */
  lemma PieceDescribes(p: seq<Bitboard>, q: seq<Bitboard>, rank: nat, cells: seq<Option<char>>, k: nat)
    requires |p| == 12 && |q| == 12 && k < 12 && Described(q, p, rank, cells)
    ensures Described(q[k := SetBit(q[k], rank * 8 + |cells|)], p, rank, cells + [Some(PieceOrder[k])])
  {
    var sq := rank * 8 + |cells|;
    var q2 := q[k := SetBit(q[k], sq)];
    var cells2 := cells + [Some(PieceOrder[k])];
    forall j, t: nat | 0 <= j < 12
      ensures IsSet(q2[j], t) <==> IsSet(p[j], t) || (rank * 8 <= t < rank * 8 + |cells2| && cells2[t - rank * 8] == Some(PieceOrder[j]))
    {
      PieceIndexBijective(PieceOrder[k], j);
      PieceIndexBijective(PieceOrder[k], k);
      if j == k {
        SetBitSquares(q[k], sq, t);
      }
      if rank * 8 <= t < sq {
        assert cells2[t - rank * 8] == cells[t - rank * 8];
      }
    }
  }

  /** One more character of the rank: the new cells extend the description. */
  lemma StepDescribes(p: seq<Bitboard>, q: seq<Bitboard>, rank: nat, f: nat, cells: seq<Option<char>>, ch: char)
    requires |p| == 12 && |q| == 12 && rank < 8 && Within64(q)
    requires Described(q, p, rank, cells) && f == |cells|
    requires Step(q, rank, f, ch).Ok?
    ensures var (q2, f2) := Step(q, rank, f, ch).value;
      var cells2 := cells + (if IsDigit(ch) then seq(DigitValue(ch), _ => None) else [Some(ch)]);
      f2 == |cells2| && Described(q2, p, rank, cells2) && Within64(q2)
  {
    if IsDigit(ch) {
      assert Step(q, rank, f, ch) == Ok((q, f + DigitValue(ch)));
      DigitDescribes(p, q, rank, cells, DigitValue(ch));
    } else {
      var k := PieceIndex(ch).value;
      PieceIndexMeaning(ch);
      var sq := SquareIndex(f, rank);
      assert sq == rank * 8 + |cells|;
      var q2 := q[k := SetBit(q[k], sq)];
      assert Step(q, rank, f, ch) == Ok((q2, f + 1));
      PieceDescribes(p, q, rank, cells, k);
      assert cells + [Some(PieceOrder[k])] == cells + [Some(ch)];
      SetBitWithin(q[k], sq);
      UpdateWithin(q, k, SetBit(q[k], sq));
    }
  }

  lemma UpdateWithin(p: seq<Bitboard>, k: nat, x: Bitboard)
    requires Within64(p) && k < |p| && 0 <= x < Pow2(64)
    ensures Within64(p[k := x])
  {
  }

  /** Lines 26-37, one character: when it is accepted and how far the file moves. */
  lemma StepAccepts(q: seq<Bitboard>, rank: nat, f: nat, ch: char)
    requires |q| == 12
    ensures Step(q, rank, f, ch).Ok? <==> IsDigit(ch) || (ch in PieceOrder && f <= 7)
    ensures Step(q, rank, f, ch).Ok? ==>
      Step(q, rank, f, ch).value.1 == f + (if IsDigit(ch) then DigitValue(ch) else 1)
  {
  }

  /**
   * Lines 23-37: the scan of the first `n` characters fails exactly when
   * some character is neither a digit nor a piece letter, or a letter
   * comes after file h; otherwise the file is the number of squares
   * described so far.
   */
  lemma {:induction false} ScanRankAccepts(p: seq<Bitboard>, rank: nat, s: string, n: nat)
    requires |p| == 12 && n <= |s|
    ensures ScanRank(p, rank, s, n).Ok? <==> CharsOk(s, n)
    ensures ScanRank(p, rank, s, n).Ok? ==> ScanRank(p, rank, s, n).value.1 == |Cells(s[..n])|
  {
    if n > 0 {
      ScanRankAccepts(p, rank, s, n - 1);
      assert s[..n][..n - 1] == s[..n - 1];
      if ScanRank(p, rank, s, n - 1).Ok? {
        var (q, f) := ScanRank(p, rank, s, n - 1).value;
        StepAccepts(q, rank, f, s[n - 1]);
      }
    }
  }

  /**
   * Lines 23-37: after `n` accepted characters the boards hold exactly the
   * pieces described so far, and stay within 64 bits.
   */
  lemma {:induction false} ScanRankMeaning(p: seq<Bitboard>, rank: nat, s: string, n: nat)
    requires |p| == 12 && rank < 8 && n <= |s| && Within64(p)
    requires ScanRank(p, rank, s, n).Ok?
    ensures var q := ScanRank(p, rank, s, n).value.0;
      Described(q, p, rank, Cells(s[..n])) && Within64(q)
  {
    ScanRankAccepts(p, rank, s, n);
    if n == 0 {
      assert Cells(s[..0]) == [];
    } else {
      ScanRankMeaning(p, rank, s, n - 1);
      ScanRankAccepts(p, rank, s, n - 1);
      assert s[..n][..n - 1] == s[..n - 1];
      var (q, f) := ScanRank(p, rank, s, n - 1).value;
      StepDescribes(p, q, rank, f, Cells(s[..n - 1]), s[n - 1]);
    }
  }

  lemma DivMod8(t: nat, r: nat)
    requires r * 8 <= t < r * 8 + 8
    ensures t / 8 == r && t % 8 == t - r * 8
  {
  }

  /** The pieces the first `n` ranks of the placement describe. */
  ghost predicate PlacementDescribed(q: seq<Bitboard>, ranks: seq<string>, n: nat)
    requires |q| == 12 && n <= |ranks| && n <= 8
    requires forall i :: 0 <= i < n ==> |Cells(ranks[i])| == 8
  {
    forall k, t: nat :: 0 <= k < 12 ==>
      (IsSet(q[k], t) <==> (8 - n) * 8 <= t < 64 && Cells(ranks[7 - t / 8])[t % 8] == Some(PieceOrder[k]))
  }

  /** Placing the `n`-th rank on rank 8 - n extends the description by that rank. */
  lemma RankAdded(p: seq<Bitboard>, q: seq<Bitboard>, ranks: seq<string>, n: nat)
    requires 1 <= n <= |ranks| && n <= 8 && |p| == 12 && |q| == 12
    requires forall i :: 0 <= i < n ==> |Cells(ranks[i])| == 8
    requires PlacementDescribed(p, ranks, n - 1)
    requires Described(q, p, 8 - n, Cells(ranks[n - 1]))
    ensures PlacementDescribed(q, ranks, n)
  {
    var rank := 8 - n;
    forall k, t: nat | 0 <= k < 12
      ensures IsSet(q[k], t) <==> (8 - n) * 8 <= t < 64 && Cells(ranks[7 - t / 8])[t % 8] == Some(PieceOrder[k])
    {
      if rank * 8 <= t < rank * 8 + 8 {
        DivMod8(t, rank);
      }
    }
  }

  /** Lines 23-40 for one whole rank: it is accepted, eight squares in all, exactly when it is `RankOk`. */
  lemma RankAccepted(p: seq<Bitboard>, rank: nat, s: string)
    requires |p| == 12
    ensures (ScanRank(p, rank, s, |s|).Ok? && ScanRank(p, rank, s, |s|).value.1 == 8) <==> RankOk(s)
  {
    ScanRankAccepts(p, rank, s, |s|);
    assert s[..|s|] == s;
  }

  /** Lines 23-37 for one whole rank: the boards gain exactly the pieces its text describes. */
  lemma RankPlaced(p: seq<Bitboard>, rank: nat, s: string)
    requires |p| == 12 && rank < 8 && Within64(p)
    requires ScanRank(p, rank, s, |s|).Ok?
    ensures Described(ScanRank(p, rank, s, |s|).value.0, p, rank, Cells(s))
    ensures Within64(ScanRank(p, rank, s, |s|).value.0)
  {
    ScanRankMeaning(p, rank, s, |s|);
    assert s[..|s|] == s;
  }

  /** Lines 21-40: boards within 64 bits stay within 64 bits while the ranks are placed. */
  lemma {:induction false} ScanRanksWithin(p0: seq<Bitboard>, ranks: seq<string>, n: nat)
    requires |p0| == 12 && Within64(p0) && n <= |ranks| && n <= 8
    ensures ScanRanks(p0, ranks, n).Ok? ==> Within64(ScanRanks(p0, ranks, n).value)
  {
    if n > 0 {
      ScanRanksWithin(p0, ranks, n - 1);
      if ScanRanks(p0, ranks, n - 1).Ok? {
        var p := ScanRanks(p0, ranks, n - 1).value;
        if ScanRank(p, 8 - n, ranks[n - 1], |ranks[n - 1]|).Ok? {
          RankPlaced(p, 8 - n, ranks[n - 1]);
        }
      }
    }
  }

  /** Each of the first `n` rank texts is `RankOk`, checked in order. */
  predicate RanksOk(ranks: seq<string>, n: nat)
    requires n <= |ranks|
  {
    n == 0 || (RanksOk(ranks, n - 1) && RankOk(ranks[n - 1]))
  }

  lemma {:induction false} RanksOkAll(ranks: seq<string>, n: nat)
    requires n <= |ranks|
    ensures RanksOk(ranks, n) <==> forall i :: 0 <= i < n ==> RankOk(ranks[i])
  {
    if n > 0 {
      RanksOkAll(ranks, n - 1);
    }
  }

  /** Lines 21-40: the first `n` ranks are accepted exactly when each is `RankOk`. */
  lemma {:induction false} ScanRanksAccepts(p0: seq<Bitboard>, ranks: seq<string>, n: nat)
    requires |p0| == 12 && n <= |ranks| && n <= 8
    ensures ScanRanks(p0, ranks, n).Ok? <==> forall i :: 0 <= i < n ==> RankOk(ranks[i])
  {
    ScanRanksAcceptsInOrder(p0, ranks, n);
    RanksOkAll(ranks, n);
  }

  lemma {:induction false} ScanRanksAcceptsInOrder(p0: seq<Bitboard>, ranks: seq<string>, n: nat)
    requires |p0| == 12 && n <= |ranks| && n <= 8
    ensures ScanRanks(p0, ranks, n).Ok? <==> RanksOk(ranks, n)
  {
    if n > 0 {
      ScanRanksAcceptsInOrder(p0, ranks, n - 1);
      ScanRanksStep(p0, ranks, n);
    }
  }

  /** Lines 21-40, one rank more: the `n`-th rank is accepted exactly when it is `RankOk`. */
  lemma ScanRanksStep(p0: seq<Bitboard>, ranks: seq<string>, n: nat)
    requires |p0| == 12 && 1 <= n <= |ranks| && n <= 8
    ensures ScanRanks(p0, ranks, n).Ok? <==> ScanRanks(p0, ranks, n - 1).Ok? && RankOk(ranks[n - 1])
  {
    if ScanRanks(p0, ranks, n - 1).Ok? {
      RankAccepted(ScanRanks(p0, ranks, n - 1).value, 8 - n, ranks[n - 1]);
    }
  }

  /**
   * Lines 21-40: starting from boards with no pieces, accepted ranks give
   * boards holding exactly the pieces they describe, the i-th text
   * describing rank 8 - i.
   */
  lemma ScanRanksDescribe(p0: seq<Bitboard>, ranks: seq<string>, n: nat)
    requires |p0| == 12 && Within64(p0) && n <= |ranks| && n <= 8
    requires forall k, t: nat :: 0 <= k < 12 ==> !IsSet(p0[k], t)
    requires forall i :: 0 <= i < n ==> RankOk(ranks[i])
    ensures ScanRanks(p0, ranks, n).Ok? && (forall i :: 0 <= i < n ==> |Cells(ranks[i])| == 8) &&
      PlacementDescribed(ScanRanks(p0, ranks, n).value, ranks, n)
  {
    RanksOkAll(ranks, n);
    ScanRanksDescribeInOrder(p0, ranks, n);
  }

  lemma ScanRanksDescribeInOrder(p0: seq<Bitboard>, ranks: seq<string>, n: nat)
    requires |p0| == 12 && Within64(p0) && n <= |ranks| && n <= 8
    requires forall k, t: nat :: 0 <= k < 12 ==> !IsSet(p0[k], t)
    requires RanksOk(ranks, n)
    ensures ScanRanks(p0, ranks, n).Ok? && (forall i :: 0 <= i < n ==> |Cells(ranks[i])| == 8) &&
      PlacementDescribed(ScanRanks(p0, ranks, n).value, ranks, n)
  {
    ScanRanksAcceptsInOrder(p0, ranks, n);
    RanksOkCells(ranks, n);
    var q := ScanRanks(p0, ranks, n).value;
    forall k, t: nat | 0 <= k < 12
      ensures IsSet(q[k], t) <==> (8 - n) * 8 <= t < 64 && Cells(ranks[7 - t / 8])[t % 8] == Some(PieceOrder[k])
    {
      ScanRanksSquare(p0, ranks, n, k, t);
    }
  }

  /** Square `t` of board `k` after the first `n` ranks: set exactly when the ranks describe that piece there. */
  lemma {:induction false} ScanRanksSquare(p0: seq<Bitboard>, ranks: seq<string>, n: nat, k: nat, t: nat)
    requires |p0| == 12 && Within64(p0) && n <= |ranks| && n <= 8 && k < 12
    requires forall k, t: nat :: 0 <= k < 12 ==> !IsSet(p0[k], t)
    requires ScanRanks(p0, ranks, n).Ok? && forall i :: 0 <= i < n ==> |Cells(ranks[i])| == 8
    ensures IsSet(ScanRanks(p0, ranks, n).value[k], t) <==>
      (8 - n) * 8 <= t < 64 && Cells(ranks[7 - t / 8])[t % 8] == Some(PieceOrder[k])
  {
    if n > 0 {
      ScanRanksSquare(p0, ranks, n - 1, k, t);
      ScanRanksWithin(p0, ranks, n - 1);
      var p := ScanRanks(p0, ranks, n - 1).value;
      var rank := 8 - n;
      RankPlaced(p, rank, ranks[n - 1]);
      assert ScanRanks(p0, ranks, n).value == ScanRank(p, rank, ranks[n - 1], |ranks[n - 1]|).value.0;
      if rank * 8 <= t < rank * 8 + 8 {
        DivMod8(t, rank);
      }
    }
  }

  /** Ranks accepted in order each describe eight squares. */
  lemma {:induction false} RanksOkCells(ranks: seq<string>, n: nat)
    requires n <= |ranks| && RanksOk(ranks, n)
    ensures forall i :: 0 <= i < n ==> |Cells(ranks[i])| == 8
  {
    if n > 0 {
      RanksOkCells(ranks, n - 1);
    }
  }

  // ---------------------------------------------------------------------------
  // The other fields.

  /** Lines 48-53: the en-passant field (never empty: it is a field of `split()`). */
  function EpField(ep: string): Result<Option<int>, FenError>
    requires ep != []
  {
    if ep == "-" then Ok(None)
    else match FileIndex(ep[0])
      case None => Err(EpFile)
      case Some(f) =>
        if |ep| < 2 || !IsDigit(ep[1]) then Err(EpRank)
        else Ok(Some(SquareIndex(f, DigitValue(ep[1]) - 1)))
  }

  /** Lines 48-53: a square name gives that square; extra characters are ignored. */
  lemma EpFieldSquare(ep: string)
    requires |ep| >= 2 && ep[0] in Files && '1' <= ep[1] <= '8'
    ensures UciToSq(ep).Some? && EpField(ep) == Ok(Some(UciToSq(ep).value))
  {
  }

  /** The snapshot `parse_fen` builds from the six fields, before `recompute_occupancy`. */
  function Assemble(pieces: seq<Bitboard>, stm: string, castling: string, ep: Option<int>, halfmove: int, fullmove: int): Board
  {
    Board(pieces, 0, 0, 0, if stm == "w" then White else Black, castling, ep, halfmove, fullmove)
  }

  /** Lines 42-58: the fields after the placement, read onto the boards `pieces`. */
  function Finish(pieces: seq<Bitboard>, stm: string, castling: string, ep: string, halfmove: string, fullmove: string): Result<Board, FenError>
    requires |pieces| == 12 && ep != []
  {
    if stm != "w" && stm != "b" then Err(SideToMove)
    else match EpField(ep)
      case Err(e) => Err(e)
      case Ok(sq) =>
        match (ParseInt(halfmove), ParseInt(fullmove))
        case (Some(h), Some(f)) => Ok(Recompute(Assemble(pieces, stm, castling, sq, h, f)))
        case _ => Err(BadClock)
  }

  /** What `parse_fen(fen)` returns, or why it raises. */
  function Decode(fen: string): Result<Board, FenError>
  {
    var parts := Words(fen);
    if |parts| != 6 then Err(FieldCount)
    else
      var ranks := SplitOn(parts[0], '/');
      if |ranks| != 8 then Err(RankCount)
      else match ScanRanks(EmptyBoard().pieces, ranks, 8)
        case Err(e) => Err(e)
        case Ok(pieces) =>
          Finish(pieces, parts[1], parts[2], parts[3], parts[4], parts[5])
  }

  /** The boards of the empty position: twelve boards, no piece anywhere. */
  lemma NoPieces()
    ensures |EmptyBoard().pieces| == 12 && Within64(EmptyBoard().pieces)
    ensures forall k, t: nat :: 0 <= k < 12 ==> !IsSet(EmptyBoard().pieces[k], t)
  {
    forall k, t: nat | 0 <= k < 12
      ensures !IsSet(EmptyBoard().pieces[k], t)
    {
      EmptyBoardProperties(t);
    }
    EmptyBoardProperties(0);
  }

  /**
   * Lines 9-56: `parse_fen` succeeds exactly when there are six fields,
   * eight ranks each naming eight squares with known pieces, a side of "w"
   * or "b", a readable en-passant field and two integer clocks.
   */
  lemma DecodeAccepts(fen: string)
    ensures var parts := Words(fen);
      Decode(fen).Ok? <==>
        |parts| == 6 && |SplitOn(parts[0], '/')| == 8 &&
        (forall i :: 0 <= i < 8 ==> RankOk(SplitOn(parts[0], '/')[i])) &&
        (parts[1] == "w" || parts[1] == "b") && EpField(parts[3]).Ok? &&
        ParseInt(parts[4]).Some? && ParseInt(parts[5]).Some?
  {
    var parts := Words(fen);
    if |parts| == 6 {
      var ranks := SplitOn(parts[0], '/');
      if |ranks| == 8 {
        NoPieces();
        ScanRanksAccepts(EmptyBoard().pieces, ranks, 8);
      }
    }
  }

  /**
   * Lines 21-58: a position `parse_fen` returns holds exactly the pieces the
   * placement describes (rank 8 first), every board fits in 64 bits, the
   * occupancy boards agree with the pieces, and the other fields are the
   * fields read, the castling text unchanged.
   */
  lemma DecodeMeaning(fen: string)
    requires Decode(fen).Ok?
    ensures var parts := Words(fen);
      var ranks := SplitOn(parts[0], '/');
      var b := Decode(fen).value;
      |parts| == 6 && |ranks| == 8 && (forall i :: 0 <= i < 8 ==> |Cells(ranks[i])| == 8) &&
      OccupancyConsistent(b) && OnBoard(b) &&
      (forall k, t: nat :: 0 <= k < 12 ==>
        (IsSet(b.pieces[k], t) <==> t < 64 && Cells(ranks[7 - t / 8])[t % 8] == Some(PieceOrder[k]))) &&
      b.side == (if parts[1] == "w" then White else Black) &&
      b.castling == parts[2] &&
      b.ep == EpField(parts[3]).value &&
      b.halfmove == ParseInt(parts[4]).value &&
      b.fullmove == ParseInt(parts[5]).value
  {
    var parts := Words(fen);
    var ranks := SplitOn(parts[0], '/');
    var e := EmptyBoard().pieces;
    NoPieces();
    DecodeAccepts(fen);
    ScanRanksWithin(e, ranks, 8);
    ScanRanksDescribe(e, ranks, 8);
    var b := Decode(fen).value;
    var pieces := ScanRanks(e, ranks, 8).value;
    RecomputeProperties(Assemble(pieces, parts[1], parts[2], EpField(parts[3]).value, ParseInt(parts[4]).value, ParseInt(parts[5]).value));
    assert b.pieces == pieces;
  }

  /** Lines 9-19: the errors found before the placement is read. */
  lemma DecodeShapeErrors(fen: string)
    ensures |Words(fen)| != 6 ==> Decode(fen) == Err(FieldCount)
    ensures |Words(fen)| == 6 && |SplitOn(Words(fen)[0], '/')| != 8 ==> Decode(fen) == Err(RankCount)
  {
  }

  // ---------------------------------------------------------------------------
  // `parse_fen` on a `Position`.

  lemma {:induction false} ScanRankErrStays(p: seq<Bitboard>, rank: nat, s: string, j: nat, n: nat)
    requires |p| == 12 && j <= n <= |s| && ScanRank(p, rank, s, j).Err?
    ensures ScanRank(p, rank, s, n) == ScanRank(p, rank, s, j)
    decreases n - j
  {
    if n > j {
      ScanRankErrStays(p, rank, s, j, n - 1);
    }
  }

  lemma {:induction false} ScanRanksErrStays(p: seq<Bitboard>, ranks: seq<string>, j: nat, n: nat)
    requires |p| == 12 && j <= n <= |ranks| && n <= 8 && ScanRanks(p, ranks, j).Err?
    ensures ScanRanks(p, ranks, n) == ScanRanks(p, ranks, j)
    decreases n - j
  {
    if n > j {
      ScanRanksErrStays(p, ranks, j, n - 1);
    }
  }

  /** Lines 22-40: one rank placed on the boards in place; the file reached, or the error. */
  method PlaceRank(pieces: array<Bitboard>, rank: nat, s: string) returns (r: Result<nat, FenError>)
    requires pieces.Length == 12
    modifies pieces
    ensures r.Ok? ==> ScanRank(old(pieces[..]), rank, s, |s|) == Ok((pieces[..], r.value))
    ensures r.Err? ==> ScanRank(old(pieces[..]), rank, s, |s|) == Err(r.error)
  {
    ghost var p := pieces[..];
    var file: nat := 0;
    var j := 0;
    while j < |s|
      invariant 0 <= j <= |s|
      invariant ScanRank(p, rank, s, j) == Ok((pieces[..], file))
    {
      var next := PlaceChar(pieces, rank, file, s[j]);
      if next.Err? {
        ScanRankErrStays(p, rank, s, j + 1, |s|);
        return Err(next.error);
      }
      file := next.value;
      j := j + 1;
    }
    return Ok(file);
  }

  /** Lines 25-37, one character: a digit skips files, a letter sets its square and moves one file on. */
  method PlaceChar(pieces: array<Bitboard>, rank: nat, file: nat, ch: char) returns (r: Result<nat, FenError>)
    requires pieces.Length == 12
    modifies pieces
    ensures var step := Step(old(pieces[..]), rank, file, ch);
      (r.Err? <==> step.Err?) &&
      (r.Err? ==> r.error == step.error) &&
      (r.Ok? ==> step.value == (pieces[..], r.value))
  {
    if IsDigit(ch) {
      return Ok(file + DigitValue(ch));
    }
    var idx := PieceIndex(ch);
    if idx.None? {
      return Err(InvalidPiece(ch));
    }
    if file > 7 {
      return Err(TooManyFiles);
    }
    var sq := SquareIndex(file, rank);
    pieces[idx.value] := SetBit(pieces[idx.value], sq);
    return Ok(file + 1);
  }

  /** Lines 21-40: the eight ranks placed on the boards in place, or the error. */
  method PlaceRanks(pieces: array<Bitboard>, ranks: seq<string>) returns (err: Option<FenError>)
    requires pieces.Length == 12 && |ranks| == 8
    modifies pieces
    ensures err.None? ==> ScanRanks(old(pieces[..]), ranks, 8) == Ok(pieces[..])
    ensures err.Some? ==> ScanRanks(old(pieces[..]), ranks, 8) == Err(err.value)
  {
    ghost var p := pieces[..];
    var i := 0;
    while i < 8
      invariant 0 <= i <= 8
      invariant ScanRanks(p, ranks, i) == Ok(pieces[..])
    {
      var rank := 7 - i;
      var placed := PlaceRank(pieces, rank, ranks[i]);
      if placed.Err? {
        ScanRanksErrStays(p, ranks, i + 1, 8);
        return Some(placed.error);
      }
      if placed.value != 8 {
        ScanRanksErrStays(p, ranks, i + 1, 8);
        return Some(RankSum);
      }
      i := i + 1;
    }
    return None;
  }

  /** Lines 42-58: the fields after the placement set on `pos`, which then recomputes its occupancy. */
  method FinishPosition(pos: Position, stm: string, castling: string, ep: string, halfmove: string, fullmove: string)
    returns (err: Option<FenError>)
    requires pos.Valid() && ep != []
    modifies pos
    ensures err.Some? ==> Finish(old(pos.pieces[..]), stm, castling, ep, halfmove, fullmove) == Err(err.value)
    ensures err.None? ==> Finish(old(pos.pieces[..]), stm, castling, ep, halfmove, fullmove) == Ok(pos.Value())
  {
    if stm != "w" && stm != "b" {
      return Some(SideToMove);
    }
    pos.side := if stm == "w" then White else Black;
    pos.castling := castling;
    if ep == "-" {
      pos.ep := None;
    } else {
      var f := FileIndex(ep[0]);
      if f.None? {
        return Some(EpFile);
      }
      if |ep| < 2 || !IsDigit(ep[1]) {
        return Some(EpRank);
      }
      pos.ep := Some(SquareIndex(f.value, DigitValue(ep[1]) - 1));
    }
    var h := ParseInt(halfmove);
    var fm := ParseInt(fullmove);
    if h.None? || fm.None? {
      return Some(BadClock);
    }
    pos.halfmove := h.value;
    pos.fullmove := fm.value;
    pos.RecomputeOccupancy();
    return None;
  }

  /** Lines 8-59: `parse_fen`, building a fresh position. */
  method ParseFen(fen: string) returns (r: Result<Position, FenError>)
    ensures r.Err? <==> Decode(fen).Err?
    ensures r.Err? ==> r.error == Decode(fen).error
    ensures r.Ok? ==> fresh(r.value) && fresh(r.value.pieces) && r.value.Valid() && r.value.Value() == Decode(fen).value
  {
    var parts := Words(fen);
    if |parts| != 6 {
      return Err(FieldCount);
    }
    var placement, stm, castling, ep, halfmove, fullmove := parts[0], parts[1], parts[2], parts[3], parts[4], parts[5];
    var pos := new Position.Empty();
    var ranks := SplitOn(placement, '/');
    if |ranks| != 8 {
      return Err(RankCount);
    }
    var placed := PlaceRanks(pos.pieces, ranks);
    if placed.Some? {
      return Err(placed.value);
    }
    var err := FinishPosition(pos, stm, castling, ep, halfmove, fullmove);
    if err.Some? {
      return Err(err.value);
    }
    return Ok(pos);
  }
}
