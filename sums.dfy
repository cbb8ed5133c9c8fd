/**
 * Left-to-right sums over a list, the shape of both `forEach` accumulation and
 * `reduce((sum, x) => sum + f(x), 0)` in the calculator.
 */
module Sums {

  /** f(s[0]) + f(s[1]) + ... + f(s[|s|-1]), accumulated from the left. */
  function Sum<T>(s: seq<T>, f: T -> real): real
  {
    if |s| == 0 then 0.0 else Sum(s[..|s| - 1], f) + f(s[|s| - 1])
  }

  /** Summing a concatenation is summing its parts. */
  lemma {:induction false} SumAppend<T>(u: seq<T>, v: seq<T>, f: T -> real)
    ensures Sum(u + v, f) == Sum(u, f) + Sum(v, f)
    decreases |v|
  {
    if |v| > 0 {
      var w := v[..|v| - 1];
      assert (u + v)[..|u + v| - 1] == u + w;
      SumAppend(u, w, f);
    } else {
      assert u + v == u;
    }
  }

  /** A sum over a list does not depend on the order of the list. */
  lemma {:induction false} SumPermutation<T>(a: seq<T>, b: seq<T>, f: T -> real)
    requires multiset(a) == multiset(b)
    ensures Sum(a, f) == Sum(b, f)
    decreases |a|
  {
    if |a| == 0 {
      assert |multiset(b)| == 0;
      assert b == [];
    } else {
      var n := |a| - 1;
      var x := a[n];
      assert a == a[..n] + [x];
      assert x in multiset(b);
      var j :| 0 <= j < |b| && b[j] == x;
      var rest := b[..j] + b[j + 1..];
      assert b == b[..j] + [x] + b[j + 1..];
      assert multiset(a[..n]) == multiset(a) - multiset{x};
      assert multiset(rest) == multiset(b) - multiset{x};
      SumPermutation(a[..n], rest, f);
      SumAppend(b[..j] + [x], b[j + 1..], f);
      SumAppend(b[..j], [x], f);
      SumAppend(b[..j], b[j + 1..], f);
      SumAppend(a[..n], [x], f);
      assert Sum([x], f) == f(x) by { assert [x][..0] == []; }
    }
  }

  /** Nonnegative terms give a nonnegative sum. */
  lemma {:induction false} SumNonNegative<T>(s: seq<T>, f: T -> real)
    requires forall i :: 0 <= i < |s| ==> f(s[i]) >= 0.0
    ensures Sum(s, f) >= 0.0
    decreases |s|
  {
    if |s| > 0 {
      SumNonNegative(s[..|s| - 1], f);
    }
  }

  /** Termwise-dominated sums are dominated. */
  lemma {:induction false} SumMonotone<T>(s: seq<T>, f: T -> real, g: T -> real)
    requires forall i :: 0 <= i < |s| ==> f(s[i]) <= g(s[i])
    ensures Sum(s, f) <= Sum(s, g)
    decreases |s|
  {
    if |s| > 0 {
      SumMonotone(s[..|s| - 1], f, g);
    }
  }

  /** Lists of equal length whose corresponding terms agree have equal sums. */
  lemma {:induction false} SumPointwise<T>(a: seq<T>, b: seq<T>, f: T -> real)
    requires |a| == |b|
    requires forall i :: 0 <= i < |a| ==> f(a[i]) == f(b[i])
    ensures Sum(a, f) == Sum(b, f)
    decreases |a|
  {
    if |a| > 0 {
      SumPointwise(a[..|a| - 1], b[..|b| - 1], f);
    }
  }

  /** A sum splits around any position. */
  lemma SumSplitAt<T>(s: seq<T>, k: nat, f: T -> real)
    requires k < |s|
    ensures Sum(s, f) == Sum(s[..k], f) + f(s[k]) + Sum(s[k + 1..], f)
  {
    assert s == (s[..k] + [s[k]]) + s[k + 1..];
    SumAppend(s[..k] + [s[k]], s[k + 1..], f);
    SumAppend(s[..k], [s[k]], f);
    assert [s[k]][..0] == [];
  }
}
