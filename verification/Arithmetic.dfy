/** Facts about products and quotients of integers, one step at a time. */
module Arithmetic {

  lemma MulMono(a: int, x: int, y: int)
    requires a >= 0 && x <= y
    ensures a * x <= a * y
  {
  }

  lemma MulNonNegative(a: int, b: int)
    requires a >= 0 && b >= 0
    ensures a * b >= 0
  {
  }

  lemma MulSign(a: int, b: int)
    requires a > 0
    ensures b > 0 ==> a * b >= a
    ensures b < 0 ==> a * b <= -a
    ensures b == 0 ==> a * b == 0
  {
    if b > 0 {
      MulMono(a, 1, b);
    } else if b < 0 {
      MulMono(a, b, -1);
    }
  }

  /** Division by a positive number is the only such decomposition. */
  lemma DivModUnique(q: int, d: int, a: int, r: int)
    requires d > 0 && q == d * a + r && 0 <= r < d
    ensures a == q / d && r == q % d
  {
    var a', r' := q / d, q % d;
    assert d * (a - a') == r' - r by {
      assert q == d * a' + r';
    }
    MulSign(d, a - a');
  }

  lemma DivMod(q: int, d: int)
    requires d > 0
    ensures q == d * (q / d) + q % d && 0 <= q % d < d
  {
  }
}
