/** Sums of an integer-valued function over a sequence. */
module Sums {

  function SumBy<T>(f: T -> int, s: seq<T>): int {
    if |s| == 0 then 0 else f(s[0]) + SumBy(f, s[1..])
  }

  lemma {:induction false} SumAppend<T>(f: T -> int, s: seq<T>, t: seq<T>)
    ensures SumBy(f, s + t) == SumBy(f, s) + SumBy(f, t)
  {
    if |s| == 0 {
      assert s + t == t;
    } else {
      assert (s + t)[1..] == s[1..] + t;
      SumAppend(f, s[1..], t);
    }
  }

  lemma SumSnoc<T>(f: T -> int, s: seq<T>, x: T)
    ensures SumBy(f, s + [x]) == SumBy(f, s) + f(x)
  {
    SumAppend(f, s, [x]);
  }

  lemma SumUpdate<T>(f: T -> int, s: seq<T>, i: nat, x: T)
    requires i < |s|
    ensures SumBy(f, s[i := x]) == SumBy(f, s) - f(s[i]) + f(x)
  {
    assert s == s[..i] + [s[i]] + s[i + 1..];
    assert s[i := x] == s[..i] + [x] + s[i + 1..];
    SumSnoc(f, s[..i], s[i]);
    SumSnoc(f, s[..i], x);
    SumAppend(f, s[..i] + [s[i]], s[i + 1..]);
    SumAppend(f, s[..i] + [x], s[i + 1..]);
  }

  /** Two arrangements of the same elements: find the first of `s` inside `t`. */
  lemma Extract<T>(s: seq<T>, t: seq<T>) returns (a: seq<T>, b: seq<T>)
    requires |s| > 0 && multiset(s) == multiset(t)
    ensures t == a + [s[0]] + b
    ensures multiset(s[1..]) == multiset(a + b)
  {
    assert s[0] in multiset(t);
    var i :| 0 <= i < |t| && t[i] == s[0];
    a, b := t[..i], t[i + 1..];
    assert t == a + [s[0]] + b;
    assert s == [] + [s[0]] + s[1..] && s[1..] == [] + s[1..];
    WithoutOne([], s[0], s[1..]);
    WithoutOne(a, s[0], b);
  }

  lemma WithoutOne<T>(a: seq<T>, x: T, b: seq<T>)
    ensures multiset(a + b) == multiset(a + [x] + b) - multiset{x}
  {
  }

  /** A sum sees only how often each element occurs. */
  lemma {:induction false} SumPermutation<T>(f: T -> int, s: seq<T>, t: seq<T>)
    requires multiset(s) == multiset(t)
    ensures SumBy(f, s) == SumBy(f, t)
  {
    if |s| == 0 {
      assert |multiset(t)| == 0;
    } else {
      var a, b := Extract(s, t);
      SumPermutation(f, s[1..], a + b);
      SumSnoc(f, a, s[0]);
      SumAppend(f, a + [s[0]], b);
      SumAppend(f, a, b);
    }
  }

  lemma {:induction false} SumBounded<T>(f: T -> int, s: seq<T>, bound: int)
    requires forall x :: x in s ==> f(x) <= bound
    ensures SumBy(f, s) <= |s| * bound
  {
    if |s| > 0 {
      SumBounded(f, s[1..], bound);
      assert f(s[0]) <= bound;
    }
  }

  lemma {:induction false} SumNonNegative<T>(f: T -> int, s: seq<T>)
    requires forall x :: x in s ==> f(x) >= 0
    ensures SumBy(f, s) >= 0
  {
    if |s| > 0 {
      SumNonNegative(f, s[1..]);
    }
  }
}
