/** The `filter`, `filter(...).length` and `reduce` folds the module views
    compute their summary cards with, and the facts about them that the
    views rely on: a filter and its complement partition a list, two
    disjoint filters count at most the whole list, and status-filtered sums
    split and compare as their filters do. */
module Folds {

  /** `xs.filter(p)`: the elements satisfying `p`, in their original order. */
  function Filter<T(!new)>(xs: seq<T>, p: T -> bool): (r: seq<T>)
    ensures |r| <= |xs|
    ensures forall x :: x in r <==> x in xs && p(x)
    ensures multiset(r) <= multiset(xs)
  {
    if xs == [] then []
    else
      assert xs == [xs[0]] + xs[1..];
      (if p(xs[0]) then [xs[0]] else []) + Filter(xs[1..], p)
  }

  /** The complement of a filter condition. */
  function Not<T>(p: T -> bool): T -> bool
  {
    x => !p(x)
  }

  /** The condition every element meets. */
  function Always<T>(): T -> bool
  {
    x => true
  }

  /** A filter and its complement split a list: together they hold every
      element exactly as often as the list does. */
  lemma {:induction false} FilterPartition<T(!new)>(xs: seq<T>, p: T -> bool)
    ensures |Filter(xs, p)| + |Filter(xs, Not(p))| == |xs|
    ensures multiset(Filter(xs, p)) + multiset(Filter(xs, Not(p))) == multiset(xs)
  {
    if xs != [] {
      FilterPartition(xs[1..], p);
      assert xs == [xs[0]] + xs[1..];
    }
  }

  /** Filtering distributes over concatenation, so the kept elements keep
      their relative order. */
  lemma {:induction false} FilterConcat<T(!new)>(xs: seq<T>, ys: seq<T>, p: T -> bool)
    ensures Filter(xs + ys, p) == Filter(xs, p) + Filter(ys, p)
  {
    if xs == [] {
      assert xs + ys == ys;
    } else {
      assert (xs + ys)[1..] == xs[1..] + ys;
      FilterConcat(xs[1..], ys, p);
    }
  }

  /** Filtering keeps the list when every element passes. */
  lemma {:induction false} FilterAll<T(!new)>(xs: seq<T>, p: T -> bool)
    requires forall i :: 0 <= i < |xs| ==> p(xs[i])
    ensures Filter(xs, p) == xs
  {
    if xs != [] {
      FilterAll(xs[1..], p);
      assert xs == [xs[0]] + xs[1..];
    }
  }

  /** `xs.filter(p).length`. */
  function Count<T(!new)>(xs: seq<T>, p: T -> bool): (n: nat)
    ensures n <= |xs|
  {
    |Filter(xs, p)|
  }

  /** Two conditions that never hold together count no more than the list. */
  lemma {:induction false} CountDisjoint<T(!new)>(xs: seq<T>, p: T -> bool, q: T -> bool)
    requires forall x :: !(p(x) && q(x))
    ensures Count(xs, p) + Count(xs, q) <= |xs|
  {
    if xs != [] {
      CountDisjoint(xs[1..], p, q);
    }
  }

  /** `xs.reduce((acc, x) => acc + (p(x) ? f(x) : 0), 0)`, folded from the
      left as `reduce` does. */
  function SumWhere<T>(xs: seq<T>, p: T -> bool, f: T -> real): real
  {
    if xs == [] then 0.0
    else SumWhere(xs[..|xs| - 1], p, f) + (if p(xs[|xs| - 1]) then f(xs[|xs| - 1]) else 0.0)
  }

  /** `xs.reduce((acc, x) => acc + f(x), 0)`. */
  function Sum<T>(xs: seq<T>, f: T -> real): real
  {
    SumWhere(xs, Always(), f)
  }

  /** A sum over non-negative terms is non-negative. */
  lemma {:induction false} SumWhereNonNegative<T>(xs: seq<T>, p: T -> bool, f: T -> real)
    requires forall i :: 0 <= i < |xs| ==> f(xs[i]) >= 0.0
    ensures SumWhere(xs, p, f) >= 0.0
  {
    if xs != [] {
      SumWhereNonNegative(xs[..|xs| - 1], p, f);
    }
  }

  /** Over non-negative terms, a sum filtered by a weaker condition is at
      least the sum filtered by a stronger one. */
  lemma {:induction false} SumWhereMonotone<T>(xs: seq<T>, p: T -> bool, q: T -> bool, f: T -> real)
    requires forall x :: p(x) ==> q(x)
    requires forall i :: 0 <= i < |xs| ==> f(xs[i]) >= 0.0
    ensures SumWhere(xs, p, f) <= SumWhere(xs, q, f)
  {
    if xs != [] {
      SumWhereMonotone(xs[..|xs| - 1], p, q, f);
    }
  }

  /** When `p` holds exactly where one of two exclusive conditions `q`, `r`
      holds, the sum over `p` is the sum over `q` plus the sum over `r`. */
  lemma {:induction false} SumWhereSplit<T>(xs: seq<T>, p: T -> bool, q: T -> bool, r: T -> bool, f: T -> real)
    requires forall x :: p(x) <==> q(x) || r(x)
    requires forall x :: !(q(x) && r(x))
    ensures SumWhere(xs, p, f) == SumWhere(xs, q, f) + SumWhere(xs, r, f)
  {
    if xs != [] {
      SumWhereSplit(xs[..|xs| - 1], p, q, r, f);
    }
  }

  /** A sum of terms each between `lo` and `hi` lies between `n * lo` and
      `n * hi`. */
  lemma {:induction false} SumBounds<T>(xs: seq<T>, f: T -> real, lo: real, hi: real)
    requires forall i :: 0 <= i < |xs| ==> lo <= f(xs[i]) <= hi
    ensures |xs| as real * lo <= Sum(xs, f) <= |xs| as real * hi
  {
    if xs != [] {
      SumBounds(xs[..|xs| - 1], f, lo, hi);
    }
  }

  /** The mean of terms that all lie in [lo, hi] lies there too. */
  lemma MeanBounds<T>(xs: seq<T>, f: T -> real, lo: real, hi: real)
    requires |xs| > 0
    requires forall i :: 0 <= i < |xs| ==> lo <= f(xs[i]) <= hi
    ensures lo <= Sum(xs, f) / |xs| as real <= hi
  {
    SumBounds(xs, f, lo, hi);
    QuotientBounds(Sum(xs, f), |xs| as real, lo, hi);
  }

  /** Dividing by a positive count keeps bounds scaled by that count. */
  lemma QuotientBounds(total: real, n: real, lo: real, hi: real)
    requires n > 0.0
    requires n * lo <= total <= n * hi
    ensures lo <= total / n <= hi
  {
    assert total / n - lo == (total - n * lo) / n;
    assert hi - total / n == (n * hi - total) / n;
  }

  /** `xs.reduce((acc, x) => acc + f(x), 0)` for whole-number terms such as
      conversion counts and account-list lengths. */
  function SumNat<T>(xs: seq<T>, f: T -> nat): nat
  {
    if xs == [] then 0 else SumNat(xs[..|xs| - 1], f) + f(xs[|xs| - 1])
  }

  /** `SumNat` adds over concatenation. */
  lemma {:induction false} SumNatConcat<T>(xs: seq<T>, ys: seq<T>, f: T -> nat)
    ensures SumNat(xs + ys, f) == SumNat(xs, f) + SumNat(ys, f)
  {
    if ys == [] {
      assert xs + ys == xs;
    } else {
      assert (xs + ys)[..|xs + ys| - 1] == xs + ys[..|ys| - 1];
      SumNatConcat(xs, ys[..|ys| - 1], f);
    }
  }

  /** Dropping elements whose term is 0 does not change a `SumNat`. */
  lemma {:induction false} SumNatFilter<T(!new)>(xs: seq<T>, p: T -> bool, f: T -> nat)
    requires forall i :: 0 <= i < |xs| && !p(xs[i]) ==> f(xs[i]) == 0
    ensures SumNat(Filter(xs, p), f) == SumNat(xs, f)
  {
    if xs != [] {
      SumNatFilter(xs[1..], p, f);
      var head := if p(xs[0]) then [xs[0]] else [];
      assert Filter(xs, p) == head + Filter(xs[1..], p);
      SumNatConcat(head, Filter(xs[1..], p), f);
      assert xs == [xs[0]] + xs[1..];
      SumNatConcat([xs[0]], xs[1..], f);
      assert SumNat([xs[0]], f) == f(xs[0]) by {
        assert [xs[0]][..0] == [];
      }
    }
  }

  /** A filter count over three elements, one term per element. */
  lemma CountOfThree<T(!new)>(a: T, b: T, c: T, p: T -> bool)
    ensures Count([a, b, c], p) == (if p(a) then 1 else 0) + (if p(b) then 1 else 0) + (if p(c) then 1 else 0)
  {
    assert [a, b, c][1..] == [b, c];
    assert [b, c][1..] == [c];
    assert [c][1..] == [];
    assert Filter([c], p) == (if p(c) then [c] else []);
    assert Filter([b, c], p) == (if p(b) then [b] else []) + Filter([c], p);
    assert Filter([a, b, c], p) == (if p(a) then [a] else []) + Filter([b, c], p);
  }

  /** A filtered sum over four elements, one term per element. */
  lemma SumWhereOfFour<T>(a: T, b: T, c: T, d: T, p: T -> bool, f: T -> real)
    ensures SumWhere([a, b, c, d], p, f)
         == (if p(a) then f(a) else 0.0) + (if p(b) then f(b) else 0.0)
          + (if p(c) then f(c) else 0.0) + (if p(d) then f(d) else 0.0)
  {
    assert [a, b, c, d][..3] == [a, b, c];
    assert [a, b, c][..2] == [a, b];
    assert [a, b][..1] == [a];
    assert [a][..0] == [];
    assert SumWhere([a], p, f) == (if p(a) then f(a) else 0.0);
    assert SumWhere([a, b], p, f) == SumWhere([a], p, f) + (if p(b) then f(b) else 0.0);
    assert SumWhere([a, b, c], p, f) == SumWhere([a, b], p, f) + (if p(c) then f(c) else 0.0);
  }

  /** A sum over three elements, one term per element. */
  lemma SumOfThree<T>(a: T, b: T, c: T, f: T -> real)
    ensures Sum([a, b, c], f) == f(a) + f(b) + f(c)
  {
    assert [a, b, c][..2] == [a, b];
    assert [a, b][..1] == [a];
    assert [a][..0] == [];
    var all := Always<T>();
    assert all(a) && all(b) && all(c);
    assert SumWhere([a], all, f) == f(a);
    assert SumWhere([a, b], all, f) == f(a) + f(b);
    assert SumWhere([a, b, c], all, f) == f(a) + f(b) + f(c);
  }

  /** A whole-number sum over three elements, one term per element. */
  lemma SumNatOfThree<T>(a: T, b: T, c: T, f: T -> nat)
    ensures SumNat([a, b, c], f) == f(a) + f(b) + f(c)
  {
    assert [a, b, c][..2] == [a, b];
    assert [a, b][..1] == [a];
    assert [a][..0] == [];
    assert SumNat([a], f) == f(a);
    assert SumNat([a, b], f) == f(a) + f(b);
  }

  /** A filter count over four elements, one term per element. */
  lemma CountOfFour<T(!new)>(a: T, b: T, c: T, d: T, p: T -> bool)
    ensures Count([a, b, c, d], p)
         == (if p(a) then 1 else 0) + (if p(b) then 1 else 0) + (if p(c) then 1 else 0) + (if p(d) then 1 else 0)
  {
    assert [a, b, c, d][1..] == [b, c, d];
    CountOfThree(b, c, d, p);
    assert Filter([a, b, c, d], p) == (if p(a) then [a] else []) + Filter([b, c, d], p);
  }

  /** A sum over four elements, one term per element. */
  lemma SumOfFour<T>(a: T, b: T, c: T, d: T, f: T -> real)
    ensures Sum([a, b, c, d], f) == f(a) + f(b) + f(c) + f(d)
  {
    var all := Always<T>();
    assert all(a) && all(b) && all(c) && all(d);
    SumWhereOfFour(a, b, c, d, all, f);
  }

}
