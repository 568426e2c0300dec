/** Python's `<` on `str`: code point by code point, a proper prefix first. */
module TextOrder {

  predicate Before(a: string, b: string) {
    |b| > 0 &&
    (|a| == 0 || a[0] < b[0] || (a[0] == b[0] && Before(a[1..], b[1..])))
  }

  lemma {:induction false} Irreflexive(a: string)
    ensures !Before(a, a)
  {
    if |a| > 0 {
      Irreflexive(a[1..]);
    }
  }

  lemma {:induction false} Transitive(a: string, b: string, c: string)
    requires Before(a, b) && Before(b, c)
    ensures Before(a, c)
  {
    if |a| > 0 && a[0] == b[0] && b[0] == c[0] {
      Transitive(a[1..], b[1..], c[1..]);
    }
  }

  lemma {:induction false} Total(a: string, b: string)
    ensures a == b || Before(a, b) || Before(b, a)
  {
    if |a| > 0 && |b| > 0 && a[0] == b[0] {
      Total(a[1..], b[1..]);
      assert a == [a[0]] + a[1..] && b == [b[0]] + b[1..];
    }
  }

  /** Strings of one length compare like their heads, then like their tails. */
  lemma {:induction false} BeforeAppend(a: string, b: string, c: string, d: string)
    requires |a| == |b|
    ensures Before(a + c, b + d) == (Before(a, b) || (a == b && Before(c, d)))
  {
    if |a| == 0 {
      assert a + c == c && b + d == d;
    } else {
      assert (a + c)[1..] == a[1..] + c && (b + d)[1..] == b[1..] + d;
      BeforeAppend(a[1..], b[1..], c, d);
      assert a == [a[0]] + a[1..] && b == [b[0]] + b[1..];
    }
  }
}
