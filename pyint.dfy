/**
 * Python's integer division operators. Dafny's `/` and `%` are Euclidean
 * (the remainder is never negative); Python's `//` rounds toward negative
 * infinity and its `%` takes the sign of the divisor. Both coincide with
 * Dafny's operators when the divisor is positive.
 */
module PyInt {

  /** Python's `a % b`. */
  function FloorMod(a: int, b: int): (r: int)
    requires b != 0
    ensures b > 0 ==> 0 <= r < b
    ensures b < 0 ==> b < r <= 0
    ensures a == b * FloorDiv(a, b) + r
  {
    if b > 0 || a % b == 0 then a % b else a % b + b
  }

  /** Python's `a // b`. */
  function FloorDiv(a: int, b: int): int
    requires b != 0
  {
    if b > 0 || a % b == 0 then a / b else a / b - 1
  }

  /** With a positive divisor, Python's `%` is Dafny's Euclidean `%`. */
  lemma FloorModPositive(a: int, b: int)
    requires b > 0
    ensures FloorMod(a, b) == a % b && FloorDiv(a, b) == a / b
  {
  }

  /**
   * The remainder is unique: whenever `a` is `r` plus a multiple of `b`
   * with `r` in `[0, b)`, Python's `a % b` is `r`.
   */
  lemma {:induction false} FloorModUnique(a: int, q: int, r: int, b: int)
    requires b > 0 && 0 <= r < b
    requires a == b * q + r
    ensures FloorMod(a, b) == r
  {
    var q', r' := a / b, a % b;
    assert b * q' + r' == b * q + r;
    var d := q - q';
    assert b * d == r' - r by {
      assert b * q - b * q' == b * (q - q');
    }
  }

  /** Adding a multiple of a positive divisor does not change Python's `%`. */
  lemma {:induction false} FloorModShift(a: int, k: int, b: int)
    requires b > 0
    ensures FloorMod(a + b * k, b) == FloorMod(a, b)
  {
    var q, r := a / b, a % b;
    assert a + b * k == b * (q + k) + r by {
      assert b * (q + k) == b * q + b * k;
    }
    FloorModUnique(a + b * k, q + k, r, b);
  }
}
