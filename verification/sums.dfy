/** Finite sums over sets. */
module Sums {

  ghost function Sum<T>(s: set<T>, f: T -> int): int {
    if s == {} then 0
    else
      var x :| x in s;
      f(x) + Sum(s - {x}, f)
  }

  lemma {:induction false} SumRemove<T>(s: set<T>, f: T -> int, x: T)
    requires x in s
    ensures Sum(s, f) == f(x) + Sum(s - {x}, f)
  {
    var y :| y in s && Sum(s, f) == f(y) + Sum(s - {y}, f);
    if y != x {
      SumRemove(s - {y}, f, x);
      SumRemove(s - {x}, f, y);
      assert s - {x} - {y} == s - {y} - {x};
    }
  }

  lemma {:induction false} SumAdd<T>(s: set<T>, f: T -> int, x: T)
    requires x !in s
    ensures Sum(s + {x}, f) == f(x) + Sum(s, f)
  {
    SumRemove(s + {x}, f, x);
    assert s + {x} - {x} == s;
  }

  lemma {:induction false} SumAtMost<T>(s: set<T>, f: T -> int, g: T -> int)
    requires forall x :: x in s ==> f(x) <= g(x)
    ensures Sum(s, f) <= Sum(s, g)
  {
    if s != {} {
      var x :| x in s;
      SumRemove(s, f, x);
      SumRemove(s, g, x);
      SumAtMost(s - {x}, f, g);
    }
  }

  lemma {:induction false} SumSame<T>(s: set<T>, f: T -> int, g: T -> int)
    requires forall x :: x in s ==> f(x) == g(x)
    ensures Sum(s, f) == Sum(s, g)
  {
    SumAtMost(s, f, g);
    SumAtMost(s, g, f);
  }

  /** Two functions that differ at one element. */
  lemma {:induction false} SumChange<T>(s: set<T>, f: T -> int, g: T -> int, x: T)
    requires x in s && forall y :: y in s && y != x ==> f(y) == g(y)
    ensures Sum(s, g) == Sum(s, f) - f(x) + g(x)
  {
    SumRemove(s, f, x);
    SumRemove(s, g, x);
    SumSame(s - {x}, f, g);
  }

  lemma {:induction false} SumNonNegative<T>(s: set<T>, f: T -> int)
    requires forall x :: x in s ==> f(x) >= 0
    ensures Sum(s, f) >= 0
  {
    if s != {} {
      var x :| x in s;
      SumRemove(s, f, x);
      SumNonNegative(s - {x}, f);
    }
  }

  lemma {:induction false} SumSandwich<T>(s: set<T>, f: T -> int, g: T -> int, h: T -> int)
    requires forall x :: x in s ==> f(x) <= h(x) && g(x) <= h(x) && h(x) <= f(x) + g(x)
    ensures Sum(s, h) <= Sum(s, f) + Sum(s, g) <= 2 * Sum(s, h)
  {
    if s != {} {
      var x :| x in s;
      SumRemove(s, f, x);
      SumRemove(s, g, x);
      SumRemove(s, h, x);
      SumSandwich(s - {x}, f, g, h);
    }
  }

  lemma {:induction false} SumZero<T>(s: set<T>, f: T -> int)
    requires forall x :: x in s ==> f(x) == 0
    ensures Sum(s, f) == 0
  {
    if s != {} {
      var x :| x in s;
      SumRemove(s, f, x);
      SumZero(s - {x}, f);
    }
  }

  // Sums by groups: when every element with a non-zero value belongs to exactly one group, the groups' sums add up.

  ghost function Part<T, G>(f: T -> int, belongs: (T, G) -> bool, g: G): T -> int {
    x => if belongs(x, g) then f(x) else 0
  }

  ghost function GroupSums<T, G>(s: set<T>, f: T -> int, belongs: (T, G) -> bool): G -> int {
    g => Sum(s, Part(f, belongs, g))
  }

  ghost predicate OneGroup<T, G(!new)>(x: T, groups: set<G>, belongs: (T, G) -> bool) {
    exists g :: g in groups && belongs(x, g) && forall h :: h in groups && belongs(x, h) ==> h == g
  }

  lemma {:induction false} SumByGroup<T, G(!new)>(s: set<T>, f: T -> int, groups: set<G>, belongs: (T, G) -> bool)
    requires forall x :: x in s && f(x) != 0 ==> OneGroup(x, groups, belongs)
    ensures Sum(s, f) == Sum(groups, GroupSums(s, f, belongs))
  {
    if s == {} {
      SumZero(groups, GroupSums(s, f, belongs));
    } else {
      var x :| x in s;
      var rest := s - {x};
      SumRemove(s, f, x);
      SumByGroup(rest, f, groups, belongs);
      forall g | g in groups
        ensures GroupSums(s, f, belongs)(g) == GroupSums(rest, f, belongs)(g) + Part(f, belongs, g)(x)
      {
        SumRemove(s, Part(f, belongs, g), x);
      }
      if f(x) != 0 {
        var g :| g in groups && belongs(x, g) && forall h :: h in groups && belongs(x, h) ==> h == g;
        SumChange(groups, GroupSums(rest, f, belongs), GroupSums(s, f, belongs), g);
      } else {
        SumSame(groups, GroupSums(rest, f, belongs), GroupSums(s, f, belongs));
      }
    }
  }

  // Sums in wrapping arithmetic.

  ghost predicate WrapsAt(wrap: int -> int, a: int, b: int) {
    wrap(wrap(a) + b) == wrap(a + b)
  }

  ghost predicate Wraps(wrap: int -> int) {
    forall a, b :: WrapsAt(wrap, a, b)
  }

  lemma WrapStep(wrap: int -> int, a: int, b: int)
    requires Wraps(wrap)
    ensures wrap(wrap(a) + b) == wrap(a + b)
  {
    assert WrapsAt(wrap, a, b);
  }

  ghost predicate TakesOne<T(!new)>(sum: set<T> -> int, f: T -> int, s: set<T>) {
    forall x :: x in s ==> sum(s) == f(x) + sum(s - {x})
  }

  /** `sum` adds up `f` over a set. */
  ghost predicate Adds<T(!new)>(sum: set<T> -> int, f: T -> int) {
    sum({}) == 0 && forall s :: TakesOne(sum, f, s)
  }

  /** The loop: adds up `f` in wrapping arithmetic, in any order. */
  method SumWrapping<T(==,!new)>(start: int, s: set<T>, f: T -> int, wrap: int -> int, ghost sum: set<T> -> int)
    returns (total: int)
    requires Wraps(wrap) && Adds(sum, f)
    ensures total == wrap(start + sum(s))
  {
    total := wrap(start);
    WrapStep(wrap, start, sum(s));
    WrapStep(wrap, start, 0);
    var left := s;
    while left != {}
      invariant wrap(total + sum(left)) == wrap(start + sum(s)) && wrap(total + 0) == total
      decreases |left|
    {
      var x :| x in left;
      assert TakesOne(sum, f, left);
      WrapStep(wrap, total + f(x), sum(left - {x}));
      WrapStep(wrap, total + f(x), 0);
      total := wrap(total + f(x));
      left := left - {x};
    }
  }

  ghost function SumOf<T(!new)>(f: T -> int): set<T> -> int {
    s => Sum(s, f)
  }

  lemma {:induction false} SumOfAdds<T(!new)>(f: T -> int)
    ensures Adds(SumOf(f), f)
  {
    forall s: set<T> ensures TakesOne(SumOf(f), f, s) {
      forall x | x in s ensures Sum(s, f) == f(x) + Sum(s - {x}, f) {
        SumRemove(s, f, x);
      }
    }
  }

  /** The loop: adds up non-negative values and gives up above `max`. */
  method SumBounded<T(==,!new)>(start: nat, s: set<T>, f: T -> int, max: int, ghost sum: set<T> -> int)
    returns (total: int, fits: bool)
    requires Adds(sum, f) && start <= max && forall x :: x in s ==> f(x) >= 0
    requires forall some :: some <= s ==> sum(some) >= 0
    ensures fits <==> start + sum(s) <= max
    ensures fits ==> total == start + sum(s)
  {
    total := start;
    var left := s;
    while left != {}
      invariant left <= s && total + sum(left) == start + sum(s) && 0 <= total <= max
      decreases |left|
    {
      var x :| x in left;
      assert TakesOne(sum, f, left);
      assert left - {x} <= s;
      if f(x) > max - total { return total, false; }
      total := total + f(x);
      left := left - {x};
    }
    fits := true;
  }

  ghost function Where<T>(s: set<T>, test: T -> bool): set<T> {
    set x | x in s && test(x)
  }

  /** One pass that counts the elements passing a test. */
  method CountWhere<T(==)>(s: set<T>, test: T -> bool) returns (n: int)
    ensures n == |Where(s, test)|
  {
    n := 0;
    var left := s;
    ghost var counted: set<T> := {};
    while left != {}
      invariant left <= s && n == |counted| && forall x :: x in counted <==> x in s && x !in left && test(x)
      decreases |left|
    {
      var x :| x in left;
      left := left - {x};
      if test(x) {
        n := n + 1;
        counted := counted + {x};
      }
    }
    assert counted == Where(s, test);
  }
}
