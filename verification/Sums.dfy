/** Sums of an integer-valued function over a sequence. */
module Sums {

  function Sum<T>(f: T -> int, s: seq<T>): int {
    if s == [] then 0 else Sum(f, s[..|s| - 1]) + f(s[|s| - 1])
  }

  lemma SumSnoc<T>(f: T -> int, s: seq<T>, x: T)
    ensures Sum(f, s + [x]) == Sum(f, s) + f(x)
  {
    assert (s + [x])[..|s|] == s;
  }

  lemma {:induction false} SumCat<T>(f: T -> int, s: seq<T>, t: seq<T>)
    ensures Sum(f, s + t) == Sum(f, s) + Sum(f, t)
    decreases |t|
  {
    if t == [] {
      assert s + t == s;
    } else {
      var n := |t| - 1;
      SumCat(f, s, t[..n]);
      assert s + t == (s + t[..n]) + [t[n]];
      SumSnoc(f, s + t[..n], t[n]);
    }
  }

  lemma {:induction false} SumCong<T, U>(f: T -> int, s: seq<T>, g: U -> int, t: seq<U>)
    requires |s| == |t|
    requires forall i | 0 <= i < |s| :: f(s[i]) == g(t[i])
    ensures Sum(f, s) == Sum(g, t)
    decreases |s|
  {
    if s != [] {
      var n := |s| - 1;
      SumCong(f, s[..n], g, t[..n]);
    }
  }

  lemma {:induction false} SumLe<T>(f: T -> int, g: T -> int, s: seq<T>)
    requires forall i | 0 <= i < |s| :: f(s[i]) <= g(s[i])
    ensures Sum(f, s) <= Sum(g, s)
    decreases |s|
  {
    if s != [] {
      SumLe(f, g, s[..|s| - 1]);
    }
  }

  lemma {:induction false} SumNonPositive<T>(f: T -> int, s: seq<T>)
    requires forall i | 0 <= i < |s| :: f(s[i]) <= 0
    ensures Sum(f, s) <= 0
    decreases |s|
  {
    if s != [] {
      SumNonPositive(f, s[..|s| - 1]);
    }
  }

  lemma {:induction false} SumNonNegative<T>(f: T -> int, s: seq<T>)
    requires forall i | 0 <= i < |s| :: f(s[i]) >= 0
    ensures Sum(f, s) >= 0
    decreases |s|
  {
    if s != [] {
      SumNonNegative(f, s[..|s| - 1]);
    }
  }
}
