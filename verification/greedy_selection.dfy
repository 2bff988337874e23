/** Greedy selection: repeatedly take the least item under an order that depends on a state,
    and let each pick change the state. Nothing here knows what the items are. */
module GreedySelection {

  ghost predicate StrictTotalAt<C(!new), S(!new)>(less: (C, C, S) -> bool, items: set<C>, st: S) {
    && (forall a :: a in items ==> !less(a, a, st))
    && (forall a, b :: a in items && b in items && a != b ==> less(a, b, st) || less(b, a, st))
    && (forall a, b, c ::
          a in items && b in items && c in items && less(a, b, st) && less(b, c, st) ==> less(a, c, st))
  }

  /** A strict total order on the items and on every part of them, whatever the state. */
  ghost predicate StrictTotalOn<C(!new), S(!new)>(less: (C, C, S) -> bool, items: set<C>) {
    forall some: set<C>, st: S :: some <= items ==> StrictTotalAt(less, some, st)
  }

  ghost predicate Least<C(!new), S(!new)>(less: (C, C, S) -> bool, items: set<C>, st: S, c: C) {
    c in items && forall d :: d in items && d != c ==> less(c, d, st)
  }

  lemma {:induction false} LeastExists<C(!new), S(!new)>(less: (C, C, S) -> bool, items: set<C>, st: S)
    requires StrictTotalAt(less, items, st) && items != {}
    ensures exists c :: Least(less, items, st, c)
  {
    var x :| x in items;
    if items == {x} {
      assert Least(less, items, st, x);
    } else {
      LeastExists(less, items - {x}, st);
      var c :| Least(less, items - {x}, st, c);
      if less(c, x, st) {
        assert Least(less, items, st, c);
      } else {
        assert Least(less, items, st, x);
      }
    }
  }

  /** The picks, described without any order on the input. */
  ghost function Greedy<C(!new), S(!new)>(
    less: (C, C, S) -> bool, pick: (S, C) -> S, items: set<C>, st: S, limit: nat): seq<C>
    requires StrictTotalOn(less, items)
    decreases limit
  {
    if items == {} || limit == 0 then []
    else
      LeastExists(less, items, st);
      var c :| Least(less, items, st, c);
      [c] + Greedy(less, pick, items - {c}, pick(st, c), limit - 1)
  }

  /** The state after a run of picks. */
  function After<C, S>(pick: (S, C) -> S, st: S, picks: seq<C>): S
    decreases |picks|
  {
    if picks == [] then st else After(pick, pick(st, picks[0]), picks[1..])
  }

  lemma LeastUnique<C(!new), S(!new)>(less: (C, C, S) -> bool, items: set<C>, st: S, c: C, d: C)
    requires StrictTotalAt(less, items, st) && Least(less, items, st, c) && Least(less, items, st, d)
    ensures c == d
  {}

  lemma {:induction false} GreedyStep<C(!new), S(!new)>(
    less: (C, C, S) -> bool, pick: (S, C) -> S, items: set<C>, st: S, limit: nat, c: C)
    requires StrictTotalOn(less, items) && limit > 0 && Least(less, items, st, c)
    ensures Greedy(less, pick, items, st, limit) == [c] + Greedy(less, pick, items - {c}, pick(st, c), limit - 1)
  {
    var d := Greedy(less, pick, items, st, limit)[0];
    LeastUnique(less, items, st, c, d);
  }

  lemma {:induction false} GreedyMembers<C(!new), S(!new)>(
    less: (C, C, S) -> bool, pick: (S, C) -> S, items: set<C>, st: S, limit: nat)
    requires StrictTotalOn(less, items)
    ensures var out := Greedy(less, pick, items, st, limit);
            && |out| == (if limit < |items| then limit else |items|)
            && (forall i :: 0 <= i < |out| ==> out[i] in items)
            && (forall i, j :: 0 <= i < j < |out| ==> out[i] != out[j])
    decreases limit
  {
    if items != {} && limit > 0 {
      LeastExists(less, items, st);
      var c :| Least(less, items, st, c);
      GreedyStep(less, pick, items, st, limit, c);
      GreedyMembers(less, pick, items - {c}, pick(st, c), limit - 1);
    }
  }

  /** A smaller limit gives a prefix. */
  lemma {:induction false} GreedyPrefix<C(!new), S(!new)>(
    less: (C, C, S) -> bool, pick: (S, C) -> S, items: set<C>, st: S, small: nat, large: nat)
    requires StrictTotalOn(less, items) && small <= large
    ensures Greedy(less, pick, items, st, small) <= Greedy(less, pick, items, st, large)
    decreases small
  {
    if items != {} && small > 0 {
      LeastExists(less, items, st);
      var c :| Least(less, items, st, c);
      GreedyStep(less, pick, items, st, small, c);
      GreedyStep(less, pick, items, st, large, c);
      GreedyPrefix(less, pick, items - {c}, pick(st, c), small - 1, large - 1);
    }
  }

  /** Every pick is the least of what the earlier picks have left, in the state that they have led to. */
  lemma {:induction false} GreedyPickIsLeast<C(!new), S(!new)>(
    less: (C, C, S) -> bool, pick: (S, C) -> S, items: set<C>, st: S, limit: nat, i: nat)
    requires StrictTotalOn(less, items) && i < |Greedy(less, pick, items, st, limit)|
    ensures var picks := Greedy(less, pick, items, st, limit);
            Least(less, items - Elements(picks[..i]), After(pick, st, picks[..i]), picks[i])
    decreases i
  {
    var picks := Greedy(less, pick, items, st, limit);
    LeastExists(less, items, st);
    var c :| Least(less, items, st, c);
    GreedyStep(less, pick, items, st, limit, c);
    if i > 0 {
      GreedyPickIsLeast(less, pick, items - {c}, pick(st, c), limit - 1, i - 1);
      assert picks[..i] == [c] + picks[1..][..i - 1];
      assert Elements(picks[..i]) == {c} + Elements(picks[1..][..i - 1]);
    } else {
      assert items - Elements(picks[..0]) == items;
    }
  }

  // The loop: scan a slice for the best index, then remove it by moving the last element into its place.

  function BestIndex<C, S>(less: (C, C, S) -> bool, remaining: seq<C>, n: nat, st: S): (best: nat)
    requires 1 <= n <= |remaining|
    ensures best < n
  {
    if n == 1 then 0
    else
      var best := BestIndex(less, remaining, n - 1, st);
      if less(remaining[n - 1], remaining[best], st) then n - 1 else best
  }

  function SwapRemove<C>(s: seq<C>, i: nat): (r: seq<C>)
    requires i < |s|
    ensures |r| == |s| - 1
  {
    s[i := s[|s| - 1]][..|s| - 1]
  }

  function Select<C, S>(
    less: (C, C, S) -> bool, pick: (S, C) -> S, remaining: seq<C>, st: S, limit: nat): seq<C>
    decreases limit
  {
    if remaining == [] || limit == 0 then []
    else
      var best := BestIndex(less, remaining, |remaining|, st);
      [remaining[best]] + Select(less, pick, SwapRemove(remaining, best), pick(st, remaining[best]), limit - 1)
  }

  lemma ConcatAssociative<T>(a: seq<T>, b: seq<T>, c: seq<T>)
    ensures a + (b + c) == (a + b) + c
  {}

  lemma ConcatEmpty<T>(a: seq<T>)
    ensures [] + a == a
  {}

  method FindBest<C, S>(less: (C, C, S) -> bool, remaining: array<C>, n: nat, st: S) returns (best: nat)
    requires 1 <= n <= remaining.Length
    ensures best < n && best == BestIndex(less, remaining[..n], n, st)
  {
    best := 0;
    for index := 1 to n
      invariant best < index && best == BestIndex(less, remaining[..n], index, st)
    {
      if less(remaining[index], remaining[best], st) { best := index; }
    }
  }

  /** Fills a hole with the last element of the part in use. */
  method MoveLast<C>(remaining: array<C>, n: nat, hole: nat)
    requires hole < n <= remaining.Length
    modifies remaining
    ensures remaining[..n - 1] == SwapRemove(old(remaining[..n]), hole)
  {
    remaining[hole] := remaining[n - 1];
  }

  method SelectInPlace<C, S>(
    less: (C, C, S) -> bool, pick: (S, C) -> S, remaining: array<C>, initial: S, limit: nat)
    returns (picked: seq<C>)
    modifies remaining
    ensures picked == Select(less, pick, old(remaining[..]), initial, limit)
  {
    var n, st := remaining.Length, initial;
    picked := [];
    ghost var left := remaining[..];
    ghost var all := Select(less, pick, left, initial, limit);
    ConcatEmpty(all);
    while n > 0 && |picked| < limit
      invariant 0 <= n <= remaining.Length && |picked| <= limit && left == remaining[..n]
      invariant picked + Select(less, pick, left, st, limit - |picked|) == all
    {
      var best := FindBest(less, remaining, n, st);
      var c := remaining[best];
      ghost var rest := SwapRemove(left, best);
      SelectOneMore(less, pick, left, st, limit, picked, best);
      picked := picked + [c];
      st := pick(st, c);
      MoveLast(remaining, n, best);
      n, left := n - 1, rest;
    }
    SelectNothing(less, pick, left, st, limit - |picked|, picked);
  }

  lemma SelectOneMore<C, S>(
    less: (C, C, S) -> bool, pick: (S, C) -> S, left: seq<C>, st: S, limit: nat, picked: seq<C>, best: nat)
    requires left != [] && |picked| < limit && best == BestIndex(less, left, |left|, st)
    ensures var c := left[best];
            picked + Select(less, pick, left, st, limit - |picked|)
            == picked + [c] + Select(less, pick, SwapRemove(left, best), pick(st, c), limit - |picked| - 1)
  {}

  lemma SelectNothing<C, S>(less: (C, C, S) -> bool, pick: (S, C) -> S, left: seq<C>, st: S, room: nat, picked: seq<C>)
    requires left == [] || room == 0
    ensures picked + Select(less, pick, left, st, room) == picked
  {}

  ghost predicate NoDuplicates<C>(s: seq<C>) {
    forall i, j :: 0 <= i < j < |s| ==> s[i] != s[j]
  }

  ghost function Elements<C>(s: seq<C>): set<C> {
    set x | x in s
  }

  lemma {:induction false} ElementsSize<C>(s: seq<C>)
    requires NoDuplicates(s)
    ensures |Elements(s)| == |s|
  {
    if s != [] {
      var n := |s| - 1;
      ElementsSize(s[..n]);
      assert Elements(s) == Elements(s[..n]) + {s[n]};
    }
  }

  lemma {:induction false} BestIndexIsLeast<C(!new), S(!new)>(
    less: (C, C, S) -> bool, remaining: seq<C>, n: nat, st: S)
    requires 1 <= n <= |remaining| && NoDuplicates(remaining) && StrictTotalOn(less, Elements(remaining))
    ensures var best := BestIndex(less, remaining, n, st);
            forall j :: 0 <= j < n && j != best ==> less(remaining[best], remaining[j], st)
  {
    if n > 1 {
      assert StrictTotalAt(less, Elements(remaining), st);
      BestIndexIsLeast(less, remaining, n - 1, st);
      var previous := BestIndex(less, remaining, n - 1, st);
      assert remaining[n - 1] in Elements(remaining) && remaining[previous] in Elements(remaining);
    }
  }

  lemma {:induction false} SwapRemoveElements<C>(s: seq<C>, i: nat)
    requires i < |s| && NoDuplicates(s)
    ensures NoDuplicates(SwapRemove(s, i))
    ensures Elements(SwapRemove(s, i)) == Elements(s) - {s[i]}
  {
    var r := SwapRemove(s, i);
    forall x | x in s && x != s[i] ensures x in r {
      var k :| 0 <= k < |s| && s[k] == x;
      if k == |s| - 1 { assert r[i] == x; } else { assert r[k] == x; }
    }
  }

  lemma {:induction false} BestIsLeast<C(!new), S(!new)>(less: (C, C, S) -> bool, remaining: seq<C>, st: S)
    requires remaining != [] && NoDuplicates(remaining) && StrictTotalOn(less, Elements(remaining))
    ensures Least(less, Elements(remaining), st, remaining[BestIndex(less, remaining, |remaining|, st)])
  {
    BestIndexIsLeast(less, remaining, |remaining|, st);
  }

  /** One step of the loop: the least item, and what is left after swap removal. */
  lemma {:induction false} NextSelection<C(!new), S(!new)>(
    less: (C, C, S) -> bool, pick: (S, C) -> S, remaining: seq<C>, items: set<C>, st: S, limit: nat)
    returns (c: C, rest: seq<C>)
    requires NoDuplicates(remaining) && items == Elements(remaining) && StrictTotalOn(less, items)
    requires remaining != [] && limit > 0
    ensures Least(less, items, st, c) && NoDuplicates(rest) && items - {c} == Elements(rest)
    ensures Select(less, pick, remaining, st, limit) == [c] + Select(less, pick, rest, pick(st, c), limit - 1)
  {
    var best := BestIndex(less, remaining, |remaining|, st);
    c, rest := remaining[best], SwapRemove(remaining, best);
    BestIsLeast(less, remaining, st);
    SwapRemoveElements(remaining, best);
  }

  lemma {:induction false} SelectFrom<C(!new), S(!new)>(
    less: (C, C, S) -> bool, pick: (S, C) -> S, remaining: seq<C>, items: set<C>, st: S, limit: nat)
    requires NoDuplicates(remaining) && items == Elements(remaining) && StrictTotalOn(less, items)
    ensures Select(less, pick, remaining, st, limit) == Greedy(less, pick, items, st, limit)
    decreases limit
  {
    if remaining != [] && limit > 0 {
      var c, rest := NextSelection(less, pick, remaining, items, st, limit);
      GreedyStep(less, pick, items, st, limit, c);
      SelectFrom(less, pick, rest, items - {c}, pick(st, c), limit - 1);
    }
  }

  /** The loop computes the greedy picks, whatever order the slice starts in. */
  lemma {:induction false} SelectIsGreedy<C(!new), S(!new)>(
    less: (C, C, S) -> bool, pick: (S, C) -> S, remaining: seq<C>, st: S, limit: nat)
    requires NoDuplicates(remaining) && StrictTotalOn(less, Elements(remaining))
    ensures Select(less, pick, remaining, st, limit) == Greedy(less, pick, Elements(remaining), st, limit)
  {
    SelectFrom(less, pick, remaining, Elements(remaining), st, limit);
  }

  // Pruning: items that are always behind `limit` kept items can be left out.

  ghost predicate AlwaysLess<C(!new), S(!new)>(less: (C, C, S) -> bool, a: C, b: C) {
    forall s :: less(a, b, s)
  }

  ghost predicate Behind<C(!new), S(!new)>(
    less: (C, C, S) -> bool, kept: set<C>, limit: nat, c: C, ahead: set<C>) {
    ahead <= kept && |ahead| >= limit && forall a :: a in ahead ==> AlwaysLess(less, a, c)
  }

  ghost predicate Covers<C(!new), S(!new)>(less: (C, C, S) -> bool, all: set<C>, kept: set<C>, limit: nat) {
    kept <= all && forall c :: c in all && c !in kept ==> exists ahead :: Behind(less, kept, limit, c, ahead)
  }

  lemma {:induction false} CoversStep<C(!new), S(!new)>(
    less: (C, C, S) -> bool, all: set<C>, kept: set<C>, limit: nat, b: C)
    requires limit > 0 && Covers(less, all, kept, limit) && b in kept
    ensures Covers(less, all - {b}, kept - {b}, limit - 1)
  {
    var rest, fewer := kept - {b}, limit - 1;
    forall c | c in all - {b} && c !in rest
      ensures exists ahead :: Behind(less, rest, fewer, c, ahead)
    {
      var ahead :| Behind(less, kept, limit, c, ahead);
      assert Behind(less, rest, fewer, c, ahead - {b});
    }
  }

  lemma {:induction false} LeastIsNeverBehind<C(!new), S(!new)>(
    less: (C, C, S) -> bool, items: set<C>, st: S, c: C, a: C)
    requires StrictTotalOn(less, items) && Least(less, items, st, c) && a in items
    ensures !AlwaysLess(less, a, c)
  {
    assert StrictTotalAt(less, items, st);
    assert !less(a, c, st);
  }

  lemma {:induction false} LeastIsKept<C(!new), S(!new)>(
    less: (C, C, S) -> bool, all: set<C>, kept: set<C>, limit: nat, st: S, c: C)
    requires StrictTotalOn(less, all) && Least(less, all, st, c) && limit > 0 && Covers(less, all, kept, limit)
    ensures c in kept
  {
    if c !in kept {
      var ahead :| Behind(less, kept, limit, c, ahead);
      var a :| a in ahead;
      LeastIsNeverBehind(less, all, st, c, a);
      assert false;
    }
  }

  lemma {:induction false} PruningLosesNothing<C(!new), S(!new)>(
    less: (C, C, S) -> bool, pick: (S, C) -> S, all: set<C>, kept: set<C>, st: S, limit: nat)
    requires StrictTotalOn(less, all) && Covers(less, all, kept, limit)
    ensures StrictTotalOn(less, kept)
    ensures Greedy(less, pick, all, st, limit) == Greedy(less, pick, kept, st, limit)
    decreases limit
  {
    if limit > 0 && all != {} {
      LeastExists(less, all, st);
      var c :| Least(less, all, st, c);
      LeastIsKept(less, all, kept, limit, st, c);
      assert Least(less, kept, st, c);
      GreedyStep(less, pick, all, st, limit, c);
      GreedyStep(less, pick, kept, st, limit, c);
      CoversStep(less, all, kept, limit, c);
      PruningLosesNothing(less, pick, all - {c}, kept - {c}, pick(st, c), limit - 1);
    }
  }

  // Fair shares: when the order prefers low loads and every pick adds one, loads stay within one of each other.

  /** Each pick adds one to the load of its own key and leaves every other load alone. */
  ghost predicate PicksAddLoad<C(!new), S(!new), K(!new)>(
    pick: (S, C) -> S, load: (S, K) -> nat, key: C -> K, items: set<C>) {
    forall s, c, k :: c in items ==> load(pick(s, c), k) == load(s, k) + if k == key(c) then 1 else 0
  }

  /** Inside a group, a smaller item never has the larger load. */
  ghost predicate PrefersLowLoad<C(!new), S(!new), K(!new), G(!new)>(
    less: (C, C, S) -> bool, load: (S, K) -> nat, key: C -> K, group: C -> G, items: set<C>) {
    && (forall a, b :: a in items && b in items && key(a) == key(b) ==> group(a) == group(b))
    && (forall a, b, s :: a in items && b in items && group(a) == group(b) && less(a, b, s)
                          ==> load(s, key(a)) <= load(s, key(b)))
  }

  lemma {:induction false} LoadAfter<C(!new), S(!new), K(!new)>(
    pick: (S, C) -> S, load: (S, K) -> nat, key: C -> K, items: set<C>, st: S, picks: seq<C>, k: K)
    requires PicksAddLoad(pick, load, key, items) && forall i :: 0 <= i < |picks| ==> picks[i] in items
    ensures load(After(pick, st, picks), k) >= load(st, k)
    ensures (forall i :: 0 <= i < |picks| ==> key(picks[i]) != k) ==> load(After(pick, st, picks), k) == load(st, k)
    decreases |picks|
  {
    if picks != [] {
      LoadAfter(pick, load, key, items, pick(st, picks[0]), picks[1..], k);
      assert key(picks[0]) == k || load(pick(st, picks[0]), k) == load(st, k);
    }
  }

  /** How many picks have a key. */
  function PickCount<C, K(==)>(key: C -> K, picks: seq<C>, k: K): nat {
    if picks == [] then 0 else (if key(picks[0]) == k then 1 else 0) + PickCount(key, picks[1..], k)
  }

  /** A final load is the load before and the picks of its key. */
  lemma {:induction false} LoadCountsPicks<C(!new), S(!new), K(!new)>(
    pick: (S, C) -> S, load: (S, K) -> nat, key: C -> K, items: set<C>, st: S, picks: seq<C>, k: K)
    requires PicksAddLoad(pick, load, key, items) && forall i :: 0 <= i < |picks| ==> picks[i] in items
    ensures load(After(pick, st, picks), k) == load(st, k) + PickCount(key, picks, k)
    decreases |picks|
  {
    if picks != [] { LoadCountsPicks(pick, load, key, items, pick(st, picks[0]), picks[1..], k); }
  }

  lemma {:induction false} AllOneKey<C(!new), K(!new)>(key: C -> K, picks: seq<C>, own: K, other: K)
    requires (forall i :: 0 <= i < |picks| ==> key(picks[i]) == own) && own != other
    ensures PickCount(key, picks, own) == |picks| && PickCount(key, picks, other) == 0
  {
    if picks != [] { AllOneKey(key, picks[1..], own, other); }
  }

  lemma {:induction false} FairShare<C(!new), S(!new), K(!new), G(!new)>(
    less: (C, C, S) -> bool, pick: (S, C) -> S, load: (S, K) -> nat, key: C -> K, group: C -> G,
    items: set<C>, st: S, limit: nat, picks: seq<C>, b: C, c: C)
    requires StrictTotalOn(less, items) && PicksAddLoad(pick, load, key, items)
    requires PrefersLowLoad(less, load, key, group, items) && picks == Greedy(less, pick, items, st, limit)
    requires b in picks && c in items && c !in picks && group(b) == group(c)
    ensures load(After(pick, st, picks), key(b)) <= load(After(pick, st, picks), key(c)) + 1
    decreases limit
  {
    var f, rest := FirstPick(less, pick, items, st, limit, picks);
    AfterCons(pick, st, f, rest);
    if i :| 0 <= i < |rest| && key(rest[i]) == key(b) {
      FewerItems(less, pick, load, key, group, items, items - {f});
      SameGroup(less, load, key, group, items, rest[i], b);
      FairShare(less, pick, load, key, group, items - {f}, pick(st, f), limit - 1, rest, rest[i], c);
    } else {
      assert b == f;
      OnlyFirstPick(less, pick, load, key, group, items, st, b, rest, c);
    }
  }

  lemma {:induction false} FirstPick<C(!new), S(!new)>(
    less: (C, C, S) -> bool, pick: (S, C) -> S, items: set<C>, st: S, limit: nat, picks: seq<C>)
    returns (f: C, rest: seq<C>)
    requires StrictTotalOn(less, items) && picks == Greedy(less, pick, items, st, limit) && picks != []
    ensures limit > 0 && picks == [f] + rest && f in items
    ensures forall a :: a in items && a != f ==> less(f, a, st)
    ensures rest == Greedy(less, pick, items - {f}, pick(st, f), limit - 1)
    ensures forall i :: 0 <= i < |rest| ==> rest[i] in items && rest[i] != f
  {
    LeastExists(less, items, st);
    f :| Least(less, items, st, f);
    GreedyStep(less, pick, items, st, limit, f);
    rest := Greedy(less, pick, items - {f}, pick(st, f), limit - 1);
    GreedyMembers(less, pick, items - {f}, pick(st, f), limit - 1);
  }

  lemma FewerItems<C(!new), S(!new), K(!new), G(!new)>(
    less: (C, C, S) -> bool, pick: (S, C) -> S, load: (S, K) -> nat, key: C -> K, group: C -> G,
    items: set<C>, fewer: set<C>)
    requires StrictTotalOn(less, items) && PicksAddLoad(pick, load, key, items)
    requires PrefersLowLoad(less, load, key, group, items) && fewer <= items
    ensures StrictTotalOn(less, fewer) && PicksAddLoad(pick, load, key, fewer)
    ensures PrefersLowLoad(less, load, key, group, fewer)
  {}

  lemma SameGroup<C(!new), S(!new), K(!new), G(!new)>(
    less: (C, C, S) -> bool, load: (S, K) -> nat, key: C -> K, group: C -> G, items: set<C>, a: C, b: C)
    requires PrefersLowLoad(less, load, key, group, items) && a in items && b in items && key(a) == key(b)
    ensures group(a) == group(b)
  {}

  /** A key that is picked once, as the least, ends at most one above any key that was there to be picked. */
  lemma {:induction false} OnlyFirstPick<C(!new), S(!new), K(!new), G(!new)>(
    less: (C, C, S) -> bool, pick: (S, C) -> S, load: (S, K) -> nat, key: C -> K, group: C -> G,
    items: set<C>, st: S, b: C, rest: seq<C>, c: C)
    requires PicksAddLoad(pick, load, key, items) && PrefersLowLoad(less, load, key, group, items)
    requires b in items && c in items && group(b) == group(c) && less(b, c, st)
    requires forall i :: 0 <= i < |rest| ==> rest[i] in items && key(rest[i]) != key(b)
    ensures var final := After(pick, pick(st, b), rest); load(final, key(b)) <= load(final, key(c)) + 1
  {
    LoadAfter(pick, load, key, items, pick(st, b), rest, key(b));
    LoadAfter(pick, load, key, items, pick(st, b), rest, key(c));
  }

  lemma {:induction false} AfterCons<C, S>(pick: (S, C) -> S, st: S, c: C, picks: seq<C>)
    ensures After(pick, st, [c] + picks) == After(pick, pick(st, c), picks)
  {}

  // Phases: when some items always come first, the picks are those items' picks followed by the others'.

  ghost predicate ComeFirst<C(!new), S(!new)>(less: (C, C, S) -> bool, first: set<C>, late: set<C>) {
    forall a, b, s :: a in first && b in late ==> less(a, b, s)
  }

  /** The picks of a run whose first pick is known. */
  lemma {:induction false} FirstPickPhases<C(!new), S(!new)>(
    less: (C, C, S) -> bool, pick: (S, C) -> S, first: set<C>, late: set<C>, st: S, limit: nat, c: C,
    early: seq<C>, rest: seq<C>)
    requires StrictTotalOn(less, first + late) && StrictTotalOn(less, first) && limit > 0
    requires first !! late && ComeFirst(less, first, late) && Least(less, first, st, c)
    requires early == Greedy(less, pick, first - {c}, pick(st, c), limit - 1)
    requires Greedy(less, pick, first - {c} + late, pick(st, c), limit - 1) == early + rest
    ensures Greedy(less, pick, first, st, limit) == [c] + early
    ensures Greedy(less, pick, first + late, st, limit) == [c] + early + rest
  {
    var all := first + late;
    assert all - {c} == first - {c} + late;
    assert Least(less, all, st, c);
    GreedyStep(less, pick, first, st, limit, c);
    GreedyStep(less, pick, all, st, limit, c);
    ConcatAssociative([c], early, rest);
  }

  lemma {:induction false} Phases<C(!new), S(!new)>(
    less: (C, C, S) -> bool, pick: (S, C) -> S, first: set<C>, late: set<C>, st: S, limit: nat)
    returns (early: seq<C>, rest: seq<C>)
    requires StrictTotalOn(less, first + late) && StrictTotalOn(less, first) && StrictTotalOn(less, late)
    requires first !! late && ComeFirst(less, first, late)
    ensures early == Greedy(less, pick, first, st, limit) && |early| <= limit
    ensures rest == Greedy(less, pick, late, After(pick, st, early), limit - |early|)
    ensures Greedy(less, pick, first + late, st, limit) == early + rest
    decreases limit
  {
    if limit == 0 || first == {} {
      early, rest := [], Greedy(less, pick, late, st, limit);
      assert first == {} ==> first + late == late;
      ConcatEmpty(rest);
    } else {
      LeastExists(less, first, st);
      var c :| Least(less, first, st, c);
      var fewer;
      fewer, rest := Phases(less, pick, first - {c}, late, pick(st, c), limit - 1);
      FirstPickPhases(less, pick, first, late, st, limit, c, fewer, rest);
      AfterCons(pick, st, c, fewer);
      early := [c] + fewer;
    }
  }

  /** With enough room every item is picked. */
  lemma {:induction false} GreedyTakesAll<C(!new), S(!new)>(
    less: (C, C, S) -> bool, pick: (S, C) -> S, items: set<C>, st: S, limit: nat, c: C)
    requires StrictTotalOn(less, items) && c in items
    requires |Greedy(less, pick, items, st, limit)| < limit
    ensures c in Greedy(less, pick, items, st, limit)
  {
    var out := Greedy(less, pick, items, st, limit);
    GreedyMembers(less, pick, items, st, limit);
    ElementsSize(out);
    assert Elements(out) <= items;
    if c !in out {
      assert Elements(out) <= items - {c};
      SubsetSize(Elements(out), items - {c});
      assert false;
    }
  }

  lemma {:induction false} SubsetSize<T>(a: set<T>, b: set<T>)
    requires a <= b
    ensures |a| <= |b|
  {
    if a != {} {
      var x :| x in a;
      SubsetSize(a - {x}, b - {x});
    }
  }

  ghost function Chosen<C(!new)>(items: set<C>, test: C -> bool): set<C> {
    set c | c in items && test(c)
  }

  /** When a phase leaves an item out, it filled the limit. */
  lemma {:induction false} LeftOutMeansFull<C(!new), S(!new)>(
    less: (C, C, S) -> bool, pick: (S, C) -> S, items: set<C>, st: S, limit: nat, c: C)
    requires StrictTotalOn(less, items) && c in items && c !in Greedy(less, pick, items, st, limit)
    ensures |Greedy(less, pick, items, st, limit)| >= limit
  {
    if |Greedy(less, pick, items, st, limit)| < limit { GreedyTakesAll(less, pick, items, st, limit, c); }
  }

  /** The phases of a run whose order puts the items passing `first` before all others. */
  lemma {:induction false} PhasedPicks<C(!new), S(!new)>(
    less: (C, C, S) -> bool, pick: (S, C) -> S, items: set<C>, first: C -> bool, st: S, limit: nat)
    returns (early: seq<C>, late: seq<C>)
    requires StrictTotalOn(less, items)
    requires ComeFirst(less, Chosen(items, first), items - Chosen(items, first))
    ensures StrictTotalOn(less, Chosen(items, first)) && StrictTotalOn(less, items - Chosen(items, first))
    ensures early == Greedy(less, pick, Chosen(items, first), st, limit) && |early| <= limit
    ensures late == Greedy(less, pick, items - Chosen(items, first), After(pick, st, early), limit - |early|)
    ensures Greedy(less, pick, items, st, limit) == early + late
    ensures forall c :: c in early ==> c in items && first(c)
    ensures forall c :: c in late ==> c in items && !first(c)
    ensures forall c :: c in items && first(c) && c !in early ==> late == []
  {
    var ahead, behind := Chosen(items, first), items - Chosen(items, first);
    assert ahead + behind == items;
    early, late := Phases(less, pick, ahead, behind, st, limit);
    PhaseMembers(less, pick, ahead, st, limit, early);
    PhaseMembers(less, pick, behind, After(pick, st, early), limit - |early|, late);
    forall c | c in items && first(c) && c !in early ensures late == [] {
      LeftOutMeansFull(less, pick, ahead, st, limit, c);
    }
  }

  lemma {:induction false} PhaseMembers<C(!new), S(!new)>(
    less: (C, C, S) -> bool, pick: (S, C) -> S, items: set<C>, st: S, limit: nat, out: seq<C>)
    requires StrictTotalOn(less, items) && out == Greedy(less, pick, items, st, limit)
    ensures forall c :: c in out ==> c in items
    ensures limit == 0 ==> out == []
  {
    GreedyMembers(less, pick, items, st, limit);
  }

  lemma {:induction false} AfterConcat<C, S>(pick: (S, C) -> S, st: S, a: seq<C>, b: seq<C>)
    ensures After(pick, st, a + b) == After(pick, After(pick, st, a), b)
    decreases |a|
  {
    if a == [] {
      ConcatEmpty(b);
    } else {
      AfterConcat(pick, pick(st, a[0]), a[1..], b);
      assert (a + b)[1..] == a[1..] + b;
    }
  }

  lemma InConcat<T>(a: seq<T>, b: seq<T>)
    ensures forall x :: x in a + b <==> x in a || x in b
  {}

  lemma PicksAddLoadSubset<C(!new), S(!new), K(!new)>(
    pick: (S, C) -> S, load: (S, K) -> nat, key: C -> K, items: set<C>, some: set<C>)
    requires PicksAddLoad(pick, load, key, items) && some <= items
    ensures PicksAddLoad(pick, load, key, some)
  {}

  lemma {:induction false} CloseAfterBoth<C, S, K>(
    pick: (S, C) -> S, load: (S, K) -> nat, st: S, early: seq<C>, late: seq<C>, k: K, l: K)
    requires var final := After(pick, After(pick, st, early), late); load(final, k) <= load(final, l) + 1
    ensures var final := After(pick, st, early + late); load(final, k) <= load(final, l) + 1
  {
    AfterConcat(pick, st, early, late);
  }

  /** The fair share bound with phases: it holds between a pick and a left-out item of the same phase and group. */
  lemma {:induction false} PhasedFairShare<C(!new), S(!new), K(!new), G(!new)>(
    less: (C, C, S) -> bool, pick: (S, C) -> S, load: (S, K) -> nat, key: C -> K, group: C -> G,
    items: set<C>, first: C -> bool, st: S, limit: nat, b: C, c: C)
    requires StrictTotalOn(less, items) && PicksAddLoad(pick, load, key, items)
    requires ComeFirst(less, Chosen(items, first), items - Chosen(items, first))
    requires PrefersLowLoad(less, load, key, group, Chosen(items, first))
    requires PrefersLowLoad(less, load, key, group, items - Chosen(items, first))
    requires b in Greedy(less, pick, items, st, limit)
    requires c in items && c !in Greedy(less, pick, items, st, limit)
    requires first(b) == first(c) && group(b) == group(c)
    ensures var final := After(pick, st, Greedy(less, pick, items, st, limit));
            load(final, key(b)) <= load(final, key(c)) + 1
  {
    var early, late := PhasedPicks(less, pick, items, first, st, limit);
    InConcat(early, late);
    var ahead, behind, middle := Chosen(items, first), items - Chosen(items, first), After(pick, st, early);
    if first(b) {
      PicksAddLoadSubset(pick, load, key, items, ahead);
      FairShare(less, pick, load, key, group, ahead, st, limit, early, b, c);
    } else {
      PicksAddLoadSubset(pick, load, key, items, behind);
      FairShare(less, pick, load, key, group, behind, middle, limit - |early|, late, b, c);
    }
    CloseAfterBoth(pick, load, st, early, late, key(b), key(c));
  }
}
