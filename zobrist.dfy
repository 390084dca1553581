/**
 * Zobrist hashing (engine/zobrist.py): the XOR of one key per occupied
 * (board, square) pair, the side key when black is to move, the key of the
 * castling rights and the key of the en-passant file. The original draws
 * its keys from a seeded random generator at import time; here they are a
 * given record `Keys`.
 */
module Zobrist {
  import opened Wrappers
  import opened PyInt
  import opened Bitboard
  import opened Positions

  /** `PIECE_KEYS`, `SIDE_KEY`, `CASTLING_KEYS` and `EP_KEYS`. */
  datatype Keys = Keys(piece: seq<seq<int>>, side: int, castling: seq<int>, ep: seq<int>)
  {
    /** Lines 7-16: 12 x 64 piece keys, 16 castling keys and 9 en-passant keys. */
    predicate Valid()
    {
      |piece| == 12 && (forall k :: 0 <= k < 12 ==> |piece[k]| == 64) &&
      |castling| == 16 && |ep| == 9
    }
  }

  // ---------------------------------------------------------------------------
  // Castling rights.

  /** `idx | 2^n` for an `idx` below `2^n` adds the flag. */
  lemma OrFlag(idx: int, n: nat)
    requires 0 <= idx < Pow2(n)
    ensures Or(idx, Pow2(n)) == idx + Pow2(n)
  {
    ShlOne(n);
    forall i: nat
      ensures Has(Or(idx, Pow2(n)), i) <==> Has(idx + Pow2(n), i)
    {
      HasOr(idx, Pow2(n), i);
      HasPow2(n, i);
      HasPlusShl(idx, 1, n, i);
      if i >= n {
        HasPow2(0, i - n);
        NoHighDigit(idx, n, i);
      }
    }
    SameDigits(Or(idx, Pow2(n)), idx + Pow2(n));
  }

  /** Lines 19-26: `castling_to_index`, one flag per letter of "KQkq". */
  function CastlingToIndex(castling: string): (r: int)
    ensures 0 <= r < 16
    ensures r % 2 == 1 <==> 'K' in castling
    ensures r / 2 % 2 == 1 <==> 'Q' in castling
    ensures r / 4 % 2 == 1 <==> 'k' in castling
    ensures r / 8 == 1 <==> 'q' in castling
  {
    var idx0 := 0;
    var idx1 := if 'K' in castling then Or(idx0, 1) else idx0;
    assert idx1 == if 'K' in castling then 1 else 0;
    var idx2 := if 'Q' in castling then Or(idx1, 2) else idx1;
    assert idx2 == idx1 + if 'Q' in castling then 2 else 0 by {
      OrFlag(idx1, 1);
    }
    var idx3 := if 'k' in castling then Or(idx2, 4) else idx2;
    assert idx3 == idx2 + if 'k' in castling then 4 else 0 by {
      assert Pow2(2) == 4;
      OrFlag(idx2, 2);
    }
    var idx4 := if 'q' in castling then Or(idx3, 8) else idx3;
    assert idx4 == idx3 + if 'q' in castling then 8 else 0 by {
      assert Pow2(3) == 8;
      OrFlag(idx3, 3);
    }
    idx4
  }

  /** The index depends only on which of the four letters occur, not on their order. */
  lemma CastlingOrderFree(c1: string, c2: string)
    requires forall ch :: ch in "KQkq" ==> (ch in c1 <==> ch in c2)
    ensures CastlingToIndex(c1) == CastlingToIndex(c2)
  {
    assert 'K' in c1 <==> 'K' in c2;
    assert 'Q' in c1 <==> 'Q' in c2;
    assert 'k' in c1 <==> 'k' in c2;
    assert 'q' in c1 <==> 'q' in c2;
  }

  /** No rights index 0; all four rights index 15. */
  lemma CastlingExtremes()
    ensures CastlingToIndex("-") == 0
    ensures CastlingToIndex("KQkq") == 15
  {
    var full := CastlingToIndex("KQkq");
    assert 'K' in "KQkq" && 'Q' in "KQkq" && 'k' in "KQkq" && 'q' in "KQkq";
    assert full % 2 == 1 && full / 2 % 2 == 1 && full / 4 % 2 == 1 && full / 8 == 1;
    assert !('K' in "-") && !('Q' in "-") && !('k' in "-") && !('q' in "-");
  }

  // ---------------------------------------------------------------------------
  // XOR over a range of squares.

  /** `f(lo) ^ f(lo + 1) ^ ... ^ f(hi - 1)`. */
  function XorOver(f: nat -> int, lo: nat, hi: nat): int
    decreases hi - lo
  {
    if lo >= hi then 0 else Xor(f(lo), XorOver(f, lo + 1, hi))
  }

  lemma {:induction false} XorOverSame(f: nat -> int, g: nat -> int, lo: nat, hi: nat)
    requires forall i: nat :: lo <= i < hi ==> f(i) == g(i)
    ensures XorOver(f, lo, hi) == XorOver(g, lo, hi)
    decreases hi - lo
  {
    if lo < hi {
      XorOverSame(f, g, lo + 1, hi);
    }
  }

  lemma {:induction false} XorOverZeros(f: nat -> int, lo: nat, hi: nat)
    requires forall i: nat :: lo <= i < hi ==> f(i) == 0
    ensures XorOver(f, lo, hi) == 0
    decreases hi - lo
  {
    if lo < hi {
      XorOverZeros(f, lo + 1, hi);
    }
  }

  /** Two ranges that differ only at `t`, where `g` is 0, differ by `f(t)`. */
  lemma {:induction false} XorOverExcept(f: nat -> int, g: nat -> int, lo: nat, hi: nat, t: nat)
    requires lo <= t < hi && g(t) == 0
    requires forall i: nat :: lo <= i < hi && i != t ==> f(i) == g(i)
    ensures XorOver(f, lo, hi) == Xor(XorOver(g, lo, hi), f(t))
    decreases hi - lo
  {
    if lo == t {
      XorOverSame(f, g, lo + 1, hi);
      XorCommutative(f(t), XorOver(g, lo + 1, hi));
    } else {
      XorOverExcept(f, g, lo + 1, hi, t);
      XorAssociative(f(lo), XorOver(g, lo + 1, hi), f(t));
    }
  }

  // ---------------------------------------------------------------------------
  // The hash.

  /** The key of square `t` for board `k` holding `bb`: `PIECE_KEYS[k][t]` when occupied. */
  function KeyTerm(keys: Keys, bb: Bitboard, k: nat): nat -> int
    requires keys.Valid() && k < 12
  {
    (t: nat) => if t < 64 && IsSet(bb, t) then keys.piece[k][t] else 0
  }

  /** The XOR of the keys of the squares of `bb` on board `k`. */
  function PieceHash(keys: Keys, bb: Bitboard, k: nat): int
    requires keys.Valid() && k < 12
  {
    XorOver(KeyTerm(keys, bb, k), 0, 64)
  }

  /** Each board's share of the hash. */
  function Shares(keys: Keys, pieces: seq<Bitboard>): (s: seq<int>)
    requires keys.Valid() && |pieces| == 12
    ensures |s| == 12
  {
    seq(12, k requires 0 <= k < 12 => PieceHash(keys, pieces[k], k))
  }

  /** `s[0] ^ s[1] ^ ... ^ s[n - 1]`, folded from the left. */
  function XorPrefix(s: seq<int>, n: nat): int
    requires n <= |s|
  {
    if n == 0 then 0 else Xor(XorPrefix(s, n - 1), s[n - 1])
  }

  /** Lines 33-39 after the first `n` boards. */
  function PiecesHash(keys: Keys, pieces: seq<Bitboard>, n: nat): int
    requires keys.Valid() && |pieces| == 12 && n <= 12
  {
    XorPrefix(Shares(keys, pieces), n)
  }

  /** Lines 49-53: the en-passant key's index, the file of the square or 8 for none. */
  function EpIndex(ep: Option<int>): (r: int)
    ensures 0 <= r <= 8
    ensures r == 8 <==> ep.None?
  {
    match ep
    case None => 8
    case Some(sq) => sq % 8
  }

  /** The side key's share: `SIDE_KEY` when black is to move, nothing otherwise. */
  function SideHash(keys: Keys, h: int, side: Side): int
  {
    if side == Black then Xor(h, keys.side) else h
  }

  /** The value `hash_position` returns. */
  function Hash(keys: Keys, b: Board): int
    requires keys.Valid() && |b.pieces| == 12
  {
    var h := SideHash(keys, PiecesHash(keys, b.pieces, 12), b.side);
    var h' := Xor(h, keys.castling[CastlingToIndex(b.castling)]);
    Xor(h', keys.ep[EpIndex(b.ep)])
  }

  /** An empty board contributes no key. */
  lemma NoPieceHash(keys: Keys, k: nat)
    requires keys.Valid() && k < 12
    ensures PieceHash(keys, 0, k) == 0
  {
    forall i: nat | i < 64
      ensures KeyTerm(keys, 0, k)(i) == 0
    {
      EmptySquares(i);
    }
    XorOverZeros(KeyTerm(keys, 0, k), 0, 64);
  }

  /** A board `bb` with `t` cleared leaves out exactly the key of `t`. */
  lemma PieceHashExcept(keys: Keys, bb: Bitboard, rest: Bitboard, k: nat, t: nat)
    requires keys.Valid() && k < 12 && t < 64 && IsSet(bb, t)
    requires forall i: nat :: i < 64 ==> (IsSet(rest, i) <==> IsSet(bb, i) && i != t)
    ensures PieceHash(keys, bb, k) == Xor(PieceHash(keys, rest, k), keys.piece[k][t])
  {
    XorOverExcept(KeyTerm(keys, bb, k), KeyTerm(keys, rest, k), 0, 64, t);
  }

  /** One turn of the inner loop: the popped square's key leaves the XOR. */
  lemma PieceHashStep(keys: Keys, bb: Bitboard, k: nat)
    requires keys.Valid() && 0 < bb < Pow2(64) && k < 12
    ensures var sq := PopLsb(bb).0; var rest := And(bb, bb - 1);
      0 <= sq < 64 && 0 <= rest < bb &&
      PieceHash(keys, bb, k) == Xor(PieceHash(keys, rest, k), keys.piece[k][sq])
  {
    ClearLowestAgrees(bb);
    PopLsbSquare(bb);
    PopLsbRest(bb);
    var sq := Lowest(bb);
    SquaresOnBoard(bb, sq);
    var rest := And(bb, bb - 1);
    forall i: nat | i < 64
      ensures IsSet(rest, i) <==> IsSet(bb, i) && i != sq
    {
      ClearBitSquares(bb, sq, i);
    }
    PieceHashExcept(keys, bb, rest, k, sq);
  }

  /** `h ^ a ^ b` regrouped as `h ^ (b ^ a)`. */
  lemma XorRegroup(h: int, a: int, b: int)
    ensures Xor(Xor(h, a), b) == Xor(h, Xor(b, a))
  {
    XorAssociative(h, a, b);
    XorCommutative(a, b);
  }

  /** `h ^ a ^ b == h ^ b ^ a`. */
  lemma XorSwap(h: int, a: int, b: int)
    ensures Xor(Xor(h, a), b) == Xor(Xor(h, b), a)
  {
    XorRegroup(h, a, b);
    XorAssociative(h, b, a);
  }

  /** Lines 35-39: the inner loop, XOR-ing in the key of every square of `bb0` for board `k`. */
  method XorPieces(keys: Keys, k: nat, bb0: Bitboard, h0: int) returns (h: int)
    requires keys.Valid() && k < 12 && 0 <= bb0 < Pow2(64)
    ensures h == Xor(h0, PieceHash(keys, bb0, k))
  {
    h := h0;
    var bb := bb0;
    while bb != 0
      invariant 0 <= bb < Pow2(64)
      invariant Xor(h, PieceHash(keys, bb, k)) == Xor(h0, PieceHash(keys, bb0, k))
      decreases bb
    {
      PieceHashStep(keys, bb, k);
      var sq := BitLength(And(bb, -bb)) - 1;
      var rest := And(bb, bb - 1);
      XorRegroup(h, keys.piece[k][sq], PieceHash(keys, rest, k));
      bb := rest;
      h := Xor(h, keys.piece[k][sq]);
    }
    NoPieceHash(keys, k);
  }

  /** `hash_position(pos)`: lines 29-55. */
  method HashPosition(keys: Keys, pos: Position) returns (h: int)
    requires keys.Valid() && pos.Valid() && OnBoard(pos.Value())
    ensures h == Hash(keys, pos.Value())
  {
    ghost var b := pos.Value();
    h := 0;
    for k := 0 to 12
      invariant h == PiecesHash(keys, b.pieces, k)
    {
      h := XorPieces(keys, k, pos.pieces[k], h);
    }
    if pos.side == Black {
      h := Xor(h, keys.side);
    }
    h := Xor(h, keys.castling[CastlingToIndex(pos.castling)]);
    if pos.ep.Some? {
      var epFile := pos.ep.value % 8;
      h := Xor(h, keys.ep[epFile]);
    } else {
      h := Xor(h, keys.ep[8]);
    }
  }

  // ---------------------------------------------------------------------------
  // What the hash depends on.

  /**
   * Lines 29-55 read only the piece boards, the side to move, the castling
   * letters and the en-passant file: positions that agree on those (in
   * particular ones differing only in their clocks or in the order of
   * the castling letters) hash alike.
   */
  lemma HashDependsOn(keys: Keys, b1: Board, b2: Board)
    requires keys.Valid() && |b1.pieces| == 12
    requires b1.pieces == b2.pieces && b1.side == b2.side
    requires forall ch :: ch in "KQkq" ==> (ch in b1.castling <==> ch in b2.castling)
    requires EpIndex(b1.ep) == EpIndex(b2.ep)
    ensures Hash(keys, b1) == Hash(keys, b2)
  {
    CastlingOrderFree(b1.castling, b2.castling);
  }

  /** Lines 42-43: positions differing only in the side to move differ by exactly `SIDE_KEY`. */
  lemma SideKeyDifference(keys: Keys, b: Board)
    requires keys.Valid() && |b.pieces| == 12
    ensures Hash(keys, b.(side := Black)) == Xor(Hash(keys, b.(side := White)), keys.side)
  {
    var p := PiecesHash(keys, b.pieces, 12);
    var c := keys.castling[CastlingToIndex(b.castling)];
    var e := keys.ep[EpIndex(b.ep)];
    XorSwap(p, keys.side, c);
    XorSwap(Xor(p, c), keys.side, e);
  }

  /** Lines 49-53: an en-passant square swaps `EP_KEYS[8]` for the key of its file. */
  lemma EpKeyDifference(keys: Keys, b: Board, sq: int)
    requires keys.Valid() && |b.pieces| == 12
    ensures Hash(keys, b.(ep := Some(sq))) ==
      Xor(Xor(Hash(keys, b.(ep := None)), keys.ep[8]), keys.ep[sq % 8])
  {
    var h := Xor(SideHash(keys, PiecesHash(keys, b.pieces, 12), b.side), keys.castling[CastlingToIndex(b.castling)]);
    XorCancel(h, keys.ep[8]);
  }

  /** A piece put on an empty square adds the square's key to its board's share. */
  lemma PieceHashPlace(keys: Keys, bb: Bitboard, k: nat, t: nat)
    requires keys.Valid() && k < 12 && t < 64 && !IsSet(bb, t)
    ensures PieceHash(keys, SetBit(bb, t), k) == Xor(PieceHash(keys, bb, k), keys.piece[k][t])
  {
    forall i: nat | i < 64
      ensures IsSet(bb, i) <==> IsSet(SetBit(bb, t), i) && i != t
    {
      SetBitSquares(bb, t, i);
    }
    SetBitSquares(bb, t, t);
    PieceHashExcept(keys, SetBit(bb, t), bb, k, t);
  }

  /** XOR-ing `d` into one term XORs it into every prefix that holds the term. */
  lemma {:induction false} XorPrefixUpdate(s: seq<int>, k: nat, d: int, n: nat)
    requires k < |s| && n <= |s|
    ensures XorPrefix(s[k := Xor(s[k], d)], n) ==
      if k < n then Xor(XorPrefix(s, n), d) else XorPrefix(s, n)
  {
    if n > 0 {
      XorPrefixUpdate(s, k, d, n - 1);
      var p := XorPrefix(s, n - 1);
      if n - 1 == k {
        XorAssociative(p, s[k], d);
      } else if k < n - 1 {
        XorSwap(p, d, s[n - 1]);
      }
    }
  }

  /**
   * Lines 33-39: every occupied square contributes its key once, so a piece
   * put on an empty square of board `k` XORs `PIECE_KEYS[k][t]` into the
   * hash, and taking it away XORs it out again.
   */
  lemma PlaceTogglesKey(keys: Keys, b: Board, k: nat, t: nat)
    requires keys.Valid() && |b.pieces| == 12 && k < 12 && t < 64
    requires !IsSet(b.pieces[k], t)
    ensures Hash(keys, Place(b, k, t)) == Xor(Hash(keys, b), keys.piece[k][t])
    ensures Hash(keys, b) == Xor(Hash(keys, Place(b, k, t)), keys.piece[k][t])
  {
    var key := keys.piece[k][t];
    PieceHashPlace(keys, b.pieces[k], k, t);
    var shares := Shares(keys, b.pieces);
    assert Shares(keys, Place(b, k, t).pieces) == shares[k := Xor(shares[k], key)];
    XorPrefixUpdate(shares, k, key, 12);
    var p := PiecesHash(keys, b.pieces, 12);
    var c := keys.castling[CastlingToIndex(b.castling)];
    var e := keys.ep[EpIndex(b.ep)];
    if b.side == Black {
      XorSwap(p, key, keys.side);
    }
    var h := SideHash(keys, p, b.side);
    XorSwap(h, key, c);
    XorSwap(Xor(h, c), key, e);
    XorCancel(Hash(keys, b), key);
  }
}
