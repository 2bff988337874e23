/** Left folds whose result does not depend on the order of the elements. */
module Fold {

  function FoldLeft<S, T>(step: (S, T) -> S, s: S, xs: seq<T>): S {
    if xs == [] then s else step(FoldLeft(step, s, xs[..|xs| - 1]), xs[|xs| - 1])
  }

  ghost predicate Commutes<S(!new), T(!new)>(step: (S, T) -> S) {
    forall s, x, y :: step(step(s, x), y) == step(step(s, y), x)
  }

  lemma {:induction false} FoldMoveLast<S(!new), T(!new)>(step: (S, T) -> S, s: S, xs: seq<T>, i: nat)
    requires Commutes(step) && i < |xs|
    ensures FoldLeft(step, s, xs) == step(FoldLeft(step, s, xs[..i] + xs[i + 1..]), xs[i])
    decreases |xs|
  {
    var n := |xs| - 1;
    var rest := xs[..i] + xs[i + 1..];
    if i < n {
      FoldMoveLast(step, s, xs[..n], i);
      assert rest[..|rest| - 1] == xs[..n][..i] + xs[..n][i + 1..];
    } else {
      assert rest == xs[..n];
    }
  }

  lemma {:induction false} FoldPermutation<S(!new), T(!new)>(step: (S, T) -> S, s: S, xs: seq<T>, ys: seq<T>)
    requires Commutes(step) && multiset(xs) == multiset(ys)
    ensures FoldLeft(step, s, xs) == FoldLeft(step, s, ys)
    decreases |xs|
  {
    assert |xs| == |multiset(xs)| == |multiset(ys)| == |ys|;
    if xs != [] {
      var n := |xs| - 1;
      var x := xs[n];
      assert xs == xs[..n] + [x];
      assert x in multiset(ys);
      var i :| 0 <= i < |ys| && ys[i] == x;
      var rest := ys[..i] + ys[i + 1..];
      assert ys == ys[..i] + [x] + ys[i + 1..];
      assert multiset(rest) == multiset(ys) - multiset{x};
      assert multiset(xs[..n]) == multiset(xs) - multiset{x};
      FoldPermutation(step, s, xs[..n], rest);
      FoldMoveLast(step, s, ys, i);
    }
  }

  function Filter<T>(keep: T -> bool, xs: seq<T>): seq<T> {
    if xs == [] then []
    else Filter(keep, xs[..|xs| - 1]) + (if keep(xs[|xs| - 1]) then [xs[|xs| - 1]] else [])
  }

  lemma {:induction false} FilterMeans<T>(keep: T -> bool, xs: seq<T>)
    ensures |Filter(keep, xs)| <= |xs| && forall x :: x in Filter(keep, xs) <==> x in xs && keep(x)
  {
    if xs != [] {
      FilterMeans(keep, xs[..|xs| - 1]);
      assert xs == xs[..|xs| - 1] + [xs[|xs| - 1]];
    }
  }

  lemma {:induction false} FilterPrefix<T>(keep: T -> bool, xs: seq<T>, i: nat)
    requires i <= |xs|
    ensures Filter(keep, xs[..i]) <= Filter(keep, xs)
    decreases |xs|
  {
    if i < |xs| {
      FilterPrefix(keep, xs[..|xs| - 1], i);
      assert xs[..|xs| - 1][..i] == xs[..i];
    } else {
      assert xs[..i] == xs;
    }
  }

  lemma {:induction false} FoldFilter<S(!new), T(!new)>(step: (S, T) -> S, s: S, keep: T -> bool, xs: seq<T>)
    requires forall r, x :: !keep(x) ==> step(r, x) == r
    ensures FoldLeft(step, s, Filter(keep, xs)) == FoldLeft(step, s, xs)
  {
    if xs != [] {
      var n := |xs| - 1;
      FoldFilter(step, s, keep, xs[..n]);
      var kept := Filter(keep, xs);
      if keep(xs[n]) {
        assert kept[..|kept| - 1] == Filter(keep, xs[..n]);
      } else {
        assert kept == Filter(keep, xs[..n]);
      }
    }
  }

  function UpTo<T>(xs: seq<T>, limit: int): seq<T> {
    if limit <= 0 then [] else if limit < |xs| then xs[..limit] else xs
  }

  function Map<T, U>(f: T -> U, xs: seq<T>): (ys: seq<U>)
    ensures |ys| == |xs| && forall i :: 0 <= i < |xs| ==> ys[i] == f(xs[i])
  {
    seq(|xs|, i requires 0 <= i < |xs| => f(xs[i]))
  }

  ghost predicate Distinct<T>(xs: seq<T>) {
    forall i, j :: 0 <= i < j < |xs| ==> xs[i] != xs[j]
  }

  lemma {:induction false} CountOne<T>(xs: seq<T>, x: T)
    requires Distinct(xs)
    ensures multiset(xs)[x] == if x in xs then 1 else 0
  {
    if x in xs {
      var i :| 0 <= i < |xs| && xs[i] == x;
      assert xs == xs[..i] + [x] + xs[i + 1..];
      assert x !in xs[..i] && x !in xs[i + 1..];
    }
  }

  lemma {:induction false} DistinctPermutation<T>(xs: seq<T>, ys: seq<T>)
    requires Distinct(xs) && Distinct(ys) && forall x :: x in xs <==> x in ys
    ensures multiset(xs) == multiset(ys)
  {
    forall x: T ensures multiset(xs)[x] == multiset(ys)[x] {
      CountOne(xs, x);
      CountOne(ys, x);
    }
  }

  lemma {:induction false} MapAround<T, U>(f: T -> U, xs: seq<T>, i: nat)
    requires i < |xs|
    ensures multiset(Map(f, xs)) == multiset(Map(f, xs[..i] + xs[i + 1..])) + multiset{f(xs[i])}
  {
    var rest := xs[..i] + xs[i + 1..];
    var ys, zs := Map(f, xs), Map(f, rest);
    assert ys == zs[..i] + [f(xs[i])] + zs[i..];
    assert zs == zs[..i] + zs[i..];
  }

  /** Where the last element of one sequence is in a permutation of it. */
  lemma {:induction false} LastInPermutation<T>(xs: seq<T>, ys: seq<T>) returns (i: nat)
    requires multiset(xs) == multiset(ys) && xs != []
    ensures i < |ys| && ys[i] == xs[|xs| - 1]
    ensures multiset(xs[..|xs| - 1]) == multiset(ys[..i] + ys[i + 1..])
  {
    var n := |xs| - 1;
    assert xs == xs[..n] + [xs[n]];
    assert xs[n] in multiset(ys);
    i :| 0 <= i < |ys| && ys[i] == xs[n];
    assert ys == ys[..i] + [ys[i]] + ys[i + 1..];
    assert multiset(xs[..n]) == multiset(xs) - multiset{xs[n]};
    assert multiset(ys[..i] + ys[i + 1..]) == multiset(ys) - multiset{xs[n]};
  }

  lemma {:induction false} MapPermutation<T, U>(f: T -> U, xs: seq<T>, ys: seq<T>)
    requires multiset(xs) == multiset(ys)
    ensures multiset(Map(f, xs)) == multiset(Map(f, ys))
    decreases |xs|
  {
    if xs == [] {
      assert |multiset(ys)| == 0;
      assert ys == [];
    } else {
      var n := |xs| - 1;
      var i := LastInPermutation(xs, ys);
      MapPermutation(f, xs[..n], ys[..i] + ys[i + 1..]);
      MapAround(f, xs, n);
      MapAround(f, ys, i);
      assert xs[..n] + xs[n + 1..] == xs[..n];
    }
  }
}
