/**
 * Legality (engine/move_validator.py): a move is legal when, after it is
 * made, the mover's king is not attacked by the other side.
 */
module MoveValidator {
  import opened PyInt
  import opened Bitboard
  import opened Positions
  import opened Moves
  import opened MakeUnmake
  import opened DetectAttack

  /**
   * The square `pop_lsb` finds on a king board: its lowest square, or -1
   * when the board is empty.
   */
  function KingSquare(bb: Bitboard): (sq: int)
    requires 0 <= bb < Pow2(64)
    ensures -1 <= sq < 64
    ensures sq == -1 <==> bb == 0
    ensures sq >= 0 ==> IsSet(bb, sq) && forall j: nat :: j < sq ==> !IsSet(bb, j)
  {
    if bb == 0 then
      PopLsbEmpty();
      PopLsb(bb).0
    else
      PopLsbSquare(bb);
      SquaresOnBoard(bb, Lowest(bb));
      PopLsb(bb).0
  }

  /**
   * What `is_legal` needs: a makeable move after which the mover's king
   * board is a board of squares below 64. The board may be empty: the
   * source then looks for attacks on square -1.
   */
  predicate Checkable(b: Board, m: Move)
  {
    Makeable(b, m) &&
    var king := Apply(b, m).pieces[b.side.FirstIndex() + King];
    0 <= king < Pow2(64)
  }

  /** `is_legal(pos, move)`. */
  function IsLegal(b: Board, m: Move): bool
    requires Checkable(b, m)
  {
    var next := Apply(b, m);
    var kingSq := KingSquare(next.pieces[b.side.FirstIndex() + King]);
    var attackingSide := if b.side == Black then White else Black;
    !IsSquareAttacked(next, kingSq, attackingSide)
  }

  /**
   * Lines 7-17: a move is legal exactly when, in the position after it,
   * no piece of the other side attacks the lowest square of the mover's
   * king board. When the mover has no king, the test runs on square -1
   * and the move is legal exactly when nothing attacks that square as
   * `AttackedBelowH1` describes.
   */
  lemma IsLegalMeaning(b: Board, m: Move)
    requires Checkable(b, m)
    ensures var next := Apply(b, m);
      var king := next.pieces[b.side.FirstIndex() + King];
      IsLegal(b, m) <==>
        if king == 0 then !AttackedBelowH1(next, b.side.Opponent())
        else !AttackedBy(next, KingSquare(king), b.side.Opponent())
  {
    var next := Apply(b, m);
    var king := next.pieces[b.side.FirstIndex() + King];
    if king == 0 {
      IsSquareAttackedBelowH1(next, KingSquare(king), b.side.Opponent());
    } else {
      IsSquareAttackedGeometry(next, KingSquare(king), b.side.Opponent());
    }
  }
}
