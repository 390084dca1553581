/**
 * A move as the engine passes it around (engine/move.py): an immutable
 * value of origin square, target square and optional promotion letter,
 * printed in the Universal Chess Interface's long algebraic form
 * ("e2e4", "e7e8q").
 */
module Moves {
  import opened Wrappers
  import opened Bitboard

  /**
   * The original's frozen `Move` dataclass; Dafny datatypes, like frozen
   * dataclasses, are compared field by field. The promotion is a single
   * letter (every move the engine builds has none or one).
   */
  datatype Move = Move(fromSq: int, toSq: int, promo: Option<char>)

  /** `to_uci`: both square names, then the promotion letter unchanged if there is one. */
  function ToUci(m: Move): (s: string)
    requires 0 <= m.fromSq < 64 && 0 <= m.toSq < 64
    ensures |s| == if m.promo.Some? then 5 else 4
    ensures s[..2] == SqToUci(m.fromSq) && s[2..4] == SqToUci(m.toSq)
    ensures m.promo.Some? ==> s[4] == m.promo.value
  {
    match m.promo
    case Some(p) => SqToUci(m.fromSq) + SqToUci(m.toSq) + [p]
    case None => SqToUci(m.fromSq) + SqToUci(m.toSq)
  }
}
