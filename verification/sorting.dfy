/** Sorting by a comparison: what the library sort promises. */
module Sorting {

  /** `before` is a strict weak order. */
  ghost predicate Orders<T(!new)>(before: (T, T) -> bool) {
    && (forall a, b :: before(a, b) ==> !before(b, a))
    && (forall a, b, c :: before(a, c) ==> before(a, b) || before(b, c))
  }

  ghost predicate Sorted<T>(before: (T, T) -> bool, xs: seq<T>) {
    forall i, j :: 0 <= i < j < |xs| ==> !before(xs[j], xs[i])
  }

  function InsertBy<T>(before: (T, T) -> bool, x: T, xs: seq<T>): seq<T> {
    if xs == [] || !before(xs[0], x) then [x] + xs else [xs[0]] + InsertBy(before, x, xs[1..])
  }

  function SortBy<T>(before: (T, T) -> bool, xs: seq<T>): seq<T> {
    if xs == [] then [] else InsertBy(before, xs[0], SortBy(before, xs[1..]))
  }

  lemma {:induction false} InsertKeeps<T>(before: (T, T) -> bool, x: T, xs: seq<T>)
    ensures multiset(InsertBy(before, x, xs)) == multiset(xs) + multiset{x}
  {
    if xs != [] && before(xs[0], x) {
      InsertKeeps(before, x, xs[1..]);
      assert xs == [xs[0]] + xs[1..];
    }
  }

  lemma {:induction false} InsertSorts<T(!new)>(before: (T, T) -> bool, x: T, xs: seq<T>)
    requires Orders(before) && Sorted(before, xs)
    ensures Sorted(before, InsertBy(before, x, xs))
  {
    var ys := InsertBy(before, x, xs);
    if xs != [] && before(xs[0], x) {
      InsertSorts(before, x, xs[1..]);
      InsertKeeps(before, x, xs[1..]);
      forall j | 1 <= j < |ys| ensures !before(ys[j], ys[0]) {
        assert ys[j] in multiset(InsertBy(before, x, xs[1..]));
        assert ys[j] in xs[1..] || ys[j] == x;
      }
    } else {
      forall j | 1 <= j < |ys| ensures !before(ys[j], ys[0]) {
        if j > 1 { assert !before(xs[j - 1], xs[0]); }
      }
    }
  }

  lemma {:induction false} SortBySorts<T(!new)>(before: (T, T) -> bool, xs: seq<T>)
    requires Orders(before)
    ensures Sorted(before, SortBy(before, xs)) && multiset(SortBy(before, xs)) == multiset(xs)
  {
    if xs != [] {
      SortBySorts(before, xs[1..]);
      InsertSorts(before, xs[0], SortBy(before, xs[1..]));
      InsertKeeps(before, xs[0], SortBy(before, xs[1..]));
      assert xs == [xs[0]] + xs[1..];
    }
  }
}
