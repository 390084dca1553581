/**
 * Python's unbounded integers seen as bit strings.
 *
 * Python gives `&`, `|`, `^` and `~` two's-complement meaning with
 * infinitely many sign bits, `a << n` is `a * 2^n` and `a >> n` is
 * `a // 2^n` (rounding toward minus infinity). The functions below define
 * these operations digit by digit with `/ 2` and `% 2`, which for a
 * positive divisor agree with Python's `//` and `%`, and `Has(a, i)` reads
 * binary digit `i`. The lemmas characterise every operation by the digits
 * of its result.
 */
module PyInt {

  function Abs(a: int): nat
  {
    if a < 0 then -a else a
  }

  /** 2 to the power `n`. */
  function Pow2(n: nat): (r: nat)
    ensures r >= 1
  {
    if n == 0 then 1 else 2 * Pow2(n - 1)
  }

  /** Binary digit `i` of `a` (for negative `a`, of its two's complement). */
  predicate Has(a: int, i: nat)
    decreases i
  {
    if i == 0 then a % 2 == 1 else Has(a / 2, i - 1)
  }

  /** Python's `~a`. */
  function Not(a: int): int
  {
    -a - 1
  }

  /** Python's `a & b`. */
  function And(a: int, b: int): int
    decreases Abs(a) + Abs(b)
  {
    if a == 0 || b == 0 then 0
    else if a == -1 then b
    else if b == -1 then a
    else 2 * And(a / 2, b / 2) + (if a % 2 == 1 && b % 2 == 1 then 1 else 0)
  }

  /** Python's `a | b`. */
  function Or(a: int, b: int): int
    decreases Abs(a) + Abs(b)
  {
    if a == 0 then b
    else if b == 0 then a
    else if a == -1 || b == -1 then -1
    else 2 * Or(a / 2, b / 2) + (if a % 2 == 1 || b % 2 == 1 then 1 else 0)
  }

  /** Python's `a ^ b`. */
  function Xor(a: int, b: int): int
    decreases Abs(a) + Abs(b)
  {
    if a == 0 then b
    else if b == 0 then a
    else if a == -1 then Not(b)
    else if b == -1 then Not(a)
    else 2 * Xor(a / 2, b / 2) + (if a % 2 != b % 2 then 1 else 0)
  }

  /** Python's `a << n` for a non-negative shift count. */
  function Shl(a: int, n: nat): int
  {
    if n == 0 then a else 2 * Shl(a, n - 1)
  }

  /** Python's `a >> n` for a non-negative shift count. */
  function Shr(a: int, n: nat): int
    decreases n
  {
    if n == 0 then a else Shr(a / 2, n - 1)
  }

  /** Python's `a.bit_length()`: the number of binary digits of `|a|`. */
  function BitLength(a: int): nat
    decreases Abs(a)
  {
    if a == 0 then 0 else 1 + BitLength(Abs(a) / 2)
  }

  // ---------------------------------------------------------------------------
  // One step of each operation: the lowest digit and the rest.

  lemma HalfStep(a: int)
    ensures a == 2 * (a / 2) + a % 2
    ensures a % 2 == 0 || a % 2 == 1
  {
  }

  lemma NotStep(a: int)
    ensures Not(a) % 2 == 1 - a % 2
    ensures Not(a) / 2 == Not(a / 2)
  {
  }

  lemma AndStep(a: int, b: int)
    ensures And(a, b) % 2 == (if a % 2 == 1 && b % 2 == 1 then 1 else 0)
    ensures And(a, b) / 2 == And(a / 2, b / 2)
  {
    if a == 0 || b == 0 {
    } else if a == -1 {
      assert And(-1, b / 2) == b / 2;
    } else if b == -1 {
      assert And(a / 2, -1) == a / 2;
    }
  }

  lemma OrStep(a: int, b: int)
    ensures Or(a, b) % 2 == (if a % 2 == 1 || b % 2 == 1 then 1 else 0)
    ensures Or(a, b) / 2 == Or(a / 2, b / 2)
  {
  }

  lemma XorStep(a: int, b: int)
    ensures Xor(a, b) % 2 == (if a % 2 != b % 2 then 1 else 0)
    ensures Xor(a, b) / 2 == Xor(a / 2, b / 2)
  {
    if a == 0 || b == 0 {
    } else if a == -1 {
      NotStep(b);
    } else if b == -1 {
      NotStep(a);
    }
  }

  // ---------------------------------------------------------------------------
  // Digits of the results.

  lemma {:induction false} HasNot(a: int, i: nat)
    ensures Has(Not(a), i) <==> !Has(a, i)
    decreases i
  {
    NotStep(a);
    if i > 0 {
      HasNot(a / 2, i - 1);
    }
  }

  lemma {:induction false} HasAnd(a: int, b: int, i: nat)
    ensures Has(And(a, b), i) <==> Has(a, i) && Has(b, i)
    decreases i
  {
    AndStep(a, b);
    if i > 0 {
      HasAnd(a / 2, b / 2, i - 1);
    }
  }

  lemma {:induction false} HasOr(a: int, b: int, i: nat)
    ensures Has(Or(a, b), i) <==> Has(a, i) || Has(b, i)
    decreases i
  {
    OrStep(a, b);
    if i > 0 {
      HasOr(a / 2, b / 2, i - 1);
    }
  }

  lemma {:induction false} HasXor(a: int, b: int, i: nat)
    ensures Has(Xor(a, b), i) <==> Has(a, i) != Has(b, i)
    decreases i
  {
    XorStep(a, b);
    if i > 0 {
      HasXor(a / 2, b / 2, i - 1);
    }
  }

  lemma {:induction false} HasShl(a: int, n: nat, i: nat)
    ensures Has(Shl(a, n), i) <==> n <= i && Has(a, i - n)
    decreases n
  {
    if n > 0 && i > 0 {
      HasShl(a, n - 1, i - 1);
    }
  }

  lemma {:induction false} HasShr(a: int, n: nat, i: nat)
    ensures Has(Shr(a, n), i) <==> Has(a, i + n)
    decreases n
  {
    if n > 0 {
      HasShr(a / 2, n - 1, i);
    }
  }

  lemma {:induction false} HasPow2(n: nat, i: nat)
    ensures Has(Pow2(n), i) <==> i == n
    decreases n
  {
    if n == 0 {
      if i > 0 {
        HasZero(i - 1);
      }
    } else if i > 0 {
      HasPow2(n - 1, i - 1);
    }
  }

  lemma {:induction false} HasZero(i: nat)
    ensures !Has(0, i)
  {
    if i > 0 {
      HasZero(i - 1);
    }
  }

  /** The digits below `n` of `2^n - 1` are all one, the others zero. */
  lemma {:induction false} HasLowOnes(n: nat, i: nat)
    ensures Has(Pow2(n) - 1, i) <==> i < n
    decreases n
  {
    if n == 0 {
      HasZero(i);
    } else if i > 0 {
      HasLowOnes(n - 1, i - 1);
    }
  }

  /** `x + (y << k)` for `0 <= x < 2^k` holds the digits of `x` below `k` and those of `y` above. */
  lemma {:induction false} HasPlusShl(x: int, y: int, k: nat, i: nat)
    requires 0 <= x < Pow2(k)
    ensures Has(x + Shl(y, k), i) <==> if i < k then Has(x, i) else Has(y, i - k)
    decreases k
  {
    if k > 0 && i > 0 {
      HasPlusShl(x / 2, y, k - 1, i - 1);
      assert (x + Shl(y, k)) / 2 == x / 2 + Shl(y, k - 1);
    }
  }

  // ---------------------------------------------------------------------------
  // Values.

  /** Two integers with the same digits are equal. */
  lemma {:induction false} SameDigits(a: int, b: int)
    requires forall i: nat :: Has(a, i) <==> Has(b, i)
    ensures a == b
    decreases Abs(a) + Abs(b)
  {
    assert Has(a, 0) <==> Has(b, 0);
    if !((a == 0 || a == -1) && (b == 0 || b == -1)) {
      forall i: nat
        ensures Has(a / 2, i) <==> Has(b / 2, i)
      {
        assert Has(a, i + 1) <==> Has(b, i + 1);
      }
      SameDigits(a / 2, b / 2);
    }
  }

  lemma {:induction false} ShlOne(n: nat)
    ensures Shl(1, n) == Pow2(n)
  {
    if n > 0 {
      ShlOne(n - 1);
    }
  }

  lemma {:induction false} ShlValue(a: int, n: nat)
    ensures Shl(a, n) == a * Pow2(n)
  {
    if n > 0 {
      ShlValue(a, n - 1);
    }
  }

  lemma {:induction false} AndBounds(a: int, b: int)
    requires a >= 0 || b >= 0
    ensures 0 <= And(a, b)
    ensures a >= 0 ==> And(a, b) <= a
    ensures b >= 0 ==> And(a, b) <= b
    decreases Abs(a) + Abs(b)
  {
    if a == 0 || b == 0 || a == -1 || b == -1 {
    } else {
      AndBounds(a / 2, b / 2);
    }
  }

  lemma {:induction false} OrNonNegative(a: int, b: int)
    requires a >= 0 && b >= 0
    ensures Or(a, b) >= 0
    decreases Abs(a) + Abs(b)
  {
    if a != 0 && b != 0 {
      OrNonNegative(a / 2, b / 2);
    }
  }

  lemma {:induction false} XorNonNegative(a: int, b: int)
    requires a >= 0 && b >= 0
    ensures Xor(a, b) >= 0
    decreases Abs(a) + Abs(b)
  {
    if a != 0 && b != 0 {
      XorNonNegative(a / 2, b / 2);
    }
  }

  /** A non-negative integer below `2^n` has no digit at or above `n`. */
  lemma {:induction false} NoHighDigit(a: int, n: nat, i: nat)
    requires 0 <= a < Pow2(n) && n <= i
    ensures !Has(a, i)
    decreases n
  {
    if n == 0 {
      HasZero(i);
    } else {
      NoHighDigit(a / 2, n - 1, i - 1);
    }
  }

  lemma {:induction false} OrBelow(a: int, b: int, n: nat)
    requires 0 <= a < Pow2(n) && 0 <= b < Pow2(n)
    ensures 0 <= Or(a, b) < Pow2(n)
    decreases n
  {
    if n > 0 && a != 0 && b != 0 {
      OrBelow(a / 2, b / 2, n - 1);
    }
  }

  lemma {:induction false} Pow2Monotonic(m: nat, n: nat)
    requires m < n
    ensures Pow2(m) < Pow2(n)
    decreases n
  {
    if m < n - 1 {
      Pow2Monotonic(m, n - 1);
    }
  }

  lemma {:induction false} Pow2Add(m: nat, n: nat)
    ensures Pow2(m + n) == Pow2(m) * Pow2(n)
    decreases n
  {
    if n > 0 {
      Pow2Add(m, n - 1);
    }
  }

  /** The powers of two that the board masks use. */
  lemma Pow2Values()
    ensures Pow2(8) == 0x100
    ensures Pow2(16) == 0x1_0000
    ensures Pow2(32) == 0x1_0000_0000
    ensures Pow2(64) == 0x1_0000_0000_0000_0000
  {
    assert Pow2(4) == 16 by {
      assert Pow2(2) == 4;
    }
    Pow2Add(4, 4);
    Pow2Add(8, 8);
    Pow2Add(16, 16);
    Pow2Add(32, 32);
  }

  // ---------------------------------------------------------------------------
  // Algebra of `|` and `^`.

  lemma OrAssociative(a: int, b: int, c: int)
    ensures Or(Or(a, b), c) == Or(a, Or(b, c))
  {
    forall i: nat
      ensures Has(Or(Or(a, b), c), i) <==> Has(Or(a, Or(b, c)), i)
    {
      HasOr(Or(a, b), c, i);
      HasOr(a, b, i);
      HasOr(a, Or(b, c), i);
      HasOr(b, c, i);
    }
    SameDigits(Or(Or(a, b), c), Or(a, Or(b, c)));
  }

  lemma OrCommutative(a: int, b: int)
    ensures Or(a, b) == Or(b, a)
  {
    forall i: nat
      ensures Has(Or(a, b), i) <==> Has(Or(b, a), i)
    {
      HasOr(a, b, i);
      HasOr(b, a, i);
    }
    SameDigits(Or(a, b), Or(b, a));
  }

  lemma XorAssociative(a: int, b: int, c: int)
    ensures Xor(Xor(a, b), c) == Xor(a, Xor(b, c))
  {
    forall i: nat
      ensures Has(Xor(Xor(a, b), c), i) <==> Has(Xor(a, Xor(b, c)), i)
    {
      HasXor(Xor(a, b), c, i);
      HasXor(a, b, i);
      HasXor(a, Xor(b, c), i);
      HasXor(b, c, i);
    }
    SameDigits(Xor(Xor(a, b), c), Xor(a, Xor(b, c)));
  }

  lemma XorCommutative(a: int, b: int)
    ensures Xor(a, b) == Xor(b, a)
  {
    forall i: nat
      ensures Has(Xor(a, b), i) <==> Has(Xor(b, a), i)
    {
      HasXor(a, b, i);
      HasXor(b, a, i);
    }
    SameDigits(Xor(a, b), Xor(b, a));
  }

  /** XOR-ing the same value twice undoes it. */
  lemma XorCancel(a: int, b: int)
    ensures Xor(Xor(a, b), b) == a
  {
    forall i: nat
      ensures Has(Xor(Xor(a, b), b), i) <==> Has(a, i)
    {
      HasXor(Xor(a, b), b, i);
      HasXor(a, b, i);
    }
    SameDigits(Xor(Xor(a, b), b), a);
  }
}
