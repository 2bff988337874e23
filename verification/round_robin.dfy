/** Round robin over sorted groups: one element of every group per round, until the limit. */
module RoundRobin {
  import opened Fold

  /** Round `r` of the first `g` groups. */
  function Round<E>(groups: seq<seq<E>>, r: nat, g: nat): seq<E>
    requires g <= |groups|
  {
    if g == 0 then []
    else Round(groups, r, g - 1) + if r < |groups[g - 1]| then [groups[g - 1][r]] else []
  }

  /** The first `r` rounds of all groups. */
  function Rounds<E>(groups: seq<seq<E>>, r: nat): seq<E> {
    if r == 0 then [] else Rounds(groups, r - 1) + Round(groups, r - 1, |groups|)
  }

  /** How many elements of group `p` come in `r` full rounds and the first `g` groups of the next. */
  function Taken<E>(groups: seq<seq<E>>, r: nat, g: nat, p: nat): nat
    requires p < |groups|
  {
    var turns := if p < g then r + 1 else r;
    if |groups[p]| < turns then |groups[p]| else turns
  }

  ghost predicate AllTaken<E>(groups: seq<seq<E>>, r: nat, g: nat) {
    forall p :: 0 <= p < |groups| ==> Taken(groups, r, g, p) == |groups[p]|
  }

  /** The output stops after `r` rounds and `g` groups, at the limit or at the end. */
  ghost predicate StopsAt<E>(groups: seq<seq<E>>, limit: nat, out: seq<E>, r: nat, g: nat) {
    && g <= |groups| && (r < limit || (r == limit && g == 0))
    && out == Rounds(groups, r) + Round(groups, r, g) && |out| <= limit
    && (|out| == limit || AllTaken(groups, r, g))
  }

  ghost predicate IsRoundRobin<E(!new)>(groups: seq<seq<E>>, limit: nat, out: seq<E>) {
    exists r, g :: StopsAt(groups, limit, out, r, g)
  }

  lemma {:induction false} EmptyRound<E>(groups: seq<seq<E>>, r: nat, g: nat)
    requires g <= |groups| && Round(groups, r, g) == []
    ensures forall p :: 0 <= p < g ==> |groups[p]| <= r
  {
    if g > 0 { EmptyRound(groups, r, g - 1); }
  }

  lemma {:induction false} QuietRoundEnds<E>(groups: seq<seq<E>>, r: nat)
    requires Round(groups, r, |groups|) == []
    ensures AllTaken(groups, r, |groups|)
  {
    EmptyRound(groups, r, |groups|);
  }

  function Longest<E>(groups: seq<seq<E>>): nat {
    if groups == [] then 0
    else
      var rest := Longest(groups[..|groups| - 1]);
      if rest < |groups[|groups| - 1]| then |groups[|groups| - 1]| else rest
  }

  lemma {:induction false} LongestBounds<E>(groups: seq<seq<E>>)
    ensures forall p :: 0 <= p < |groups| ==> |groups[p]| <= Longest(groups)
  {
    if groups != [] {
      var n := |groups| - 1;
      LongestBounds(groups[..n]);
      forall p | 0 <= p < n ensures |groups[p]| <= Longest(groups) { assert groups[..n][p] == groups[p]; }
    }
  }

  /** One round: an element of every group that has one left, until the limit. */
  method AddRound<E(!new)>(groups: seq<seq<E>>, round: nat, limit: nat, before: seq<E>)
    returns (out: seq<E>, added: bool, ghost stop: nat)
    requires |before| < limit
    ensures stop <= |groups| && out == before + Round(groups, round, stop) && |out| <= limit
    ensures added <==> Round(groups, round, stop) != []
    ensures |out| < limit ==> stop == |groups|
  {
    out, added := before, false;
    for g := 0 to |groups|
      invariant out == before + Round(groups, round, g) && |out| < limit
      invariant added <==> Round(groups, round, g) != []
    {
      if round < |groups[g]| {
        out := out + [groups[g][round]];
        added := true;
        if |out| == limit { return out, added, g + 1; }
      }
    }
    stop := |groups|;
  }

  lemma {:induction false} BusyRound<E(!new)>(groups: seq<seq<E>>, r: nat, g: nat)
    requires g <= |groups| && Round(groups, r, g) != []
    ensures r < Longest(groups)
  {
    LongestBounds(groups);
    if r >= |groups[g - 1]| { BusyRound(groups, r, g - 1); }
  }

  method Interleave<E(!new)>(groups: seq<seq<E>>, limit: nat) returns (out: seq<E>)
    ensures IsRoundRobin(groups, limit, out)
  {
    out := [];
    var round := 0;
    while |out| < limit
      invariant round <= |out| <= limit && out == Rounds(groups, round) && round <= Longest(groups)
      decreases Longest(groups) - round
    {
      var more, added, stop := AddRound(groups, round, limit, out);
      if |more| == limit {
        assert StopsAt(groups, limit, more, round, stop);
        return more;
      }
      if !added {
        QuietRoundEnds(groups, round);
        assert StopsAt(groups, limit, more, round, |groups|);
        return more;
      }
      BusyRound(groups, round, stop);
      out := more;
      round := round + 1;
    }
    assert StopsAt(groups, limit, out, round, 0);
  }

  // What an output holds.

  /** Every element of group `p`, and of no other, has owner `p`. */
  ghost predicate Owned<E>(groups: seq<seq<E>>, owner: E -> int) {
    forall p, i :: 0 <= p < |groups| && 0 <= i < |groups[p]| ==> owner(groups[p][i]) == p
  }

  function OwnedBy<E>(owner: E -> int, p: int): E -> bool { e => owner(e) == p }

  lemma {:induction false} FilterConcat<E>(keep: E -> bool, a: seq<E>, b: seq<E>)
    ensures Filter(keep, a + b) == Filter(keep, a) + Filter(keep, b)
  {
    if b == [] {
      assert a + b == a;
      assert Filter(keep, a) + Filter(keep, b) == Filter(keep, a);
    } else {
      var n := |b| - 1;
      assert (a + b)[..|a + b| - 1] == a + b[..n];
      FilterConcat(keep, a, b[..n]);
      var last := if keep(b[n]) then [b[n]] else [];
      assert Filter(keep, a) + (Filter(keep, b[..n]) + last) == (Filter(keep, a) + Filter(keep, b[..n])) + last;
    }
  }

  lemma FilterAppend<E>(keep: E -> bool, before: seq<E>, e: E, all: seq<E>, kept: seq<E>)
    requires all == before + [e] && kept == Filter(keep, before)
    ensures Filter(keep, all) == if keep(e) then kept + [e] else kept
  {}

  lemma {:induction false} RoundOfGroup<E>(groups: seq<seq<E>>, r: nat, g: nat, owner: E -> int, p: nat)
    requires Owned(groups, owner) && g <= |groups| && p < |groups|
    ensures Filter(OwnedBy(owner, p), Round(groups, r, g)) == if p < g && r < |groups[p]| then [groups[p][r]] else []
  {
    if g > 0 {
      RoundOfGroup(groups, r, g - 1, owner, p);
      var kept := if p < g - 1 && r < |groups[p]| then [groups[p][r]] else [];
      if r < |groups[g - 1]| {
        assert owner(groups[g - 1][r]) == g - 1;
        FilterAppend(OwnedBy(owner, p), Round(groups, r, g - 1), groups[g - 1][r], Round(groups, r, g), kept);
      } else {
        ConcatNothing(Round(groups, r, g - 1));
      }
    }
  }

  lemma ConcatNothing<E>(s: seq<E>)
    ensures s + [] == s
  {}

  function First<E>(s: seq<E>, n: nat): seq<E> {
    if n < |s| then s[..n] else s
  }

  lemma FirstOneMore<E>(s: seq<E>, n: nat)
    ensures First(s, n + 1) == First(s, n) + if n < |s| then [s[n]] else []
  {}

  lemma RoundsOneMore<E>(groups: seq<seq<E>>, r: nat, k: nat)
    requires r == k + 1
    ensures Rounds(groups, r) == Rounds(groups, k) + Round(groups, k, |groups|)
  {}

  lemma {:induction false} RoundsOfGroup<E>(groups: seq<seq<E>>, r: nat, owner: E -> int, p: nat)
    requires Owned(groups, owner) && p < |groups|
    ensures Filter(OwnedBy(owner, p), Rounds(groups, r)) == First(groups[p], r)
  {
    if r == 0 {
      assert First(groups[p], 0) == [];
    } else {
      var k := r - 1;
      RoundsOfGroup(groups, k, owner, p);
      RoundOfGroup(groups, k, |groups|, owner, p);
      FilterConcat(OwnedBy(owner, p), Rounds(groups, k), Round(groups, k, |groups|));
      FirstOneMore(groups[p], k);
      RoundsOneMore(groups, r, k);
    }
  }

  /** What the output takes from a group is a prefix of that group, as long as `Taken` says. */
  lemma {:induction false} OutputOfGroup<E(!new)>(
    groups: seq<seq<E>>, limit: nat, out: seq<E>, r: nat, g: nat, owner: E -> int, p: nat)
    requires Owned(groups, owner) && p < |groups| && StopsAt(groups, limit, out, r, g)
    ensures Filter(OwnedBy(owner, p), out) == groups[p][..Taken(groups, r, g, p)]
  {
    RoundsOfGroup(groups, r, owner, p);
    RoundOfGroup(groups, r, g, owner, p);
    FilterConcat(OwnedBy(owner, p), Rounds(groups, r), Round(groups, r, g));
    FirstOneMore(groups[p], r);
  }

  /** Each group gives a prefix of itself, and a group that is cut short gives at most one element less than any other. */
  lemma {:induction false} SharesAreBalanced<E(!new)>(
    groups: seq<seq<E>>, limit: nat, out: seq<E>, owner: E -> int, p: nat, q: nat)
    requires Owned(groups, owner) && IsRoundRobin(groups, limit, out) && p < |groups| && q < |groups|
    ensures var mine, yours := Filter(OwnedBy(owner, p), out), Filter(OwnedBy(owner, q), out);
            && mine <= groups[p]
            && (|yours| < |groups[q]| ==> |mine| <= |yours| + 1)
  {
    var r, g :| StopsAt(groups, limit, out, r, g);
    OutputOfGroup(groups, limit, out, r, g, owner, p);
    OutputOfGroup(groups, limit, out, r, g, owner, q);
  }

  function Total<E>(groups: seq<seq<E>>): nat {
    if groups == [] then 0 else Total(groups[..|groups| - 1]) + |groups[|groups| - 1]|
  }

  /** The elements taken from the first `n` groups. */
  function TakenFrom<E>(groups: seq<seq<E>>, r: nat, g: nat, n: nat): nat
    requires n <= |groups|
  {
    if n == 0 then 0 else TakenFrom(groups, r, g, n - 1) + Taken(groups, r, g, n - 1)
  }

  lemma {:induction false} TakenAtMostTotal<E>(groups: seq<seq<E>>, r: nat, g: nat, n: nat)
    requires n <= |groups|
    ensures TakenFrom(groups, r, g, n) <= Total(groups[..n])
    ensures AllTaken(groups, r, g) ==> TakenFrom(groups, r, g, n) == Total(groups[..n])
  {
    if n > 0 {
      TakenAtMostTotal(groups, r, g, n - 1);
      assert groups[..n][..n - 1] == groups[..n - 1];
    }
  }

  lemma {:induction false} TakenNextGroup<E>(groups: seq<seq<E>>, r: nat, g: nat, n: nat)
    requires n <= |groups| && g < |groups|
    ensures TakenFrom(groups, r, g + 1, n)
         == TakenFrom(groups, r, g, n) + if g < n && r < |groups[g]| then 1 else 0
  {
    if n > 0 { TakenNextGroup(groups, r, g, n - 1); }
  }

  lemma {:induction false} TakenNextRound<E>(groups: seq<seq<E>>, r: nat, n: nat)
    requires n <= |groups|
    ensures TakenFrom(groups, r + 1, 0, n) == TakenFrom(groups, r, |groups|, n)
  {
    if n > 0 { TakenNextRound(groups, r, n - 1); }
  }

  lemma {:induction false} TakenNothing<E>(groups: seq<seq<E>>, n: nat)
    requires n <= |groups|
    ensures TakenFrom(groups, 0, 0, n) == 0
  {
    if n > 0 { TakenNothing(groups, n - 1); }
  }

  lemma {:induction false} OutputSize<E>(groups: seq<seq<E>>, r: nat, g: nat)
    requires g <= |groups|
    ensures |Rounds(groups, r) + Round(groups, r, g)| == TakenFrom(groups, r, g, |groups|)
    decreases r, g
  {
    if g > 0 {
      OutputSize(groups, r, g - 1);
      TakenNextGroup(groups, r, g - 1, |groups|);
    } else if r > 0 {
      OutputSize(groups, r - 1, |groups|);
      TakenNextRound(groups, r - 1, |groups|);
    } else {
      TakenNothing(groups, |groups|);
    }
  }

  /** The output fills the limit or takes everything. */
  lemma {:induction false} OutputIsFull<E(!new)>(groups: seq<seq<E>>, limit: nat, out: seq<E>)
    requires IsRoundRobin(groups, limit, out)
    ensures |out| == if limit < Total(groups) then limit else Total(groups)
  {
    var r, g :| StopsAt(groups, limit, out, r, g);
    OutputSize(groups, r, g);
    TakenAtMostTotal(groups, r, g, |groups|);
    assert groups[..|groups|] == groups;
  }

  // Cutting the groups, and the list of groups, to the limit changes nothing.

  /** The first `limit` elements of the first `limit` groups. */
  ghost predicate Cut<E>(groups: seq<seq<E>>, cut: seq<seq<E>>, limit: nat) {
    && |cut| == (if limit < |groups| then limit else |groups|)
    && forall p :: 0 <= p < |cut| ==> cut[p] == First(groups[p], limit)
  }

  lemma {:induction false} CutRound<E>(groups: seq<seq<E>>, cut: seq<seq<E>>, limit: nat, r: nat, g: nat)
    requires Cut(groups, cut, limit) && g <= |cut| && r < limit
    ensures Round(cut, r, g) == Round(groups, r, g)
  {
    if g > 0 { CutRound(groups, cut, limit, r, g - 1); }
  }

  lemma {:induction false} CutRounds<E>(groups: seq<seq<E>>, cut: seq<seq<E>>, limit: nat, r: nat)
    requires Cut(groups, cut, limit) && |groups| <= limit && r <= limit
    ensures Rounds(cut, r) == Rounds(groups, r)
  {
    if r > 0 {
      CutRounds(groups, cut, limit, r - 1);
      CutRound(groups, cut, limit, r - 1, |groups|);
    }
  }

  lemma {:induction false} TakenIsPart<E>(groups: seq<seq<E>>, r: nat, g: nat, n: nat, p: nat)
    requires p < n <= |groups|
    ensures Taken(groups, r, g, p) <= TakenFrom(groups, r, g, n)
  {
    if p < n - 1 { TakenIsPart(groups, r, g, n - 1, p); }
  }

  /** With few groups the same rounds are taken. */
  lemma {:induction false} CutGroupsStop<E>(
    groups: seq<seq<E>>, cut: seq<seq<E>>, limit: nat, out: seq<E>, r: nat, g: nat)
    requires Cut(groups, cut, limit) && |groups| <= limit && StopsAt(cut, limit, out, r, g)
    ensures StopsAt(groups, limit, out, r, g)
  {
    CutRounds(groups, cut, limit, r);
    if r < limit { CutRound(groups, cut, limit, r, g); }
    if |out| < limit {
      forall p | 0 <= p < |groups| ensures Taken(groups, r, g, p) == |groups[p]| {
        assert Taken(cut, r, g, p) == |cut[p]|;
        OutputSize(cut, r, g);
        TakenIsPart(cut, r, g, |cut|, p);
      }
    }
  }

  lemma {:induction false} FullRound<E>(groups: seq<seq<E>>, g: nat)
    requires g <= |groups| && forall p :: 0 <= p < |groups| ==> groups[p] != []
    ensures |Round(groups, 0, g)| == g
  {
    if g > 0 { FullRound(groups, g - 1); }
  }

  lemma {:induction false} FirstRoundLeads<E>(groups: seq<seq<E>>, r: nat)
    requires r > 0
    ensures Round(groups, 0, |groups|) <= Rounds(groups, r)
  {
    if r == 1 {
      assert Rounds(groups, 0) == [];
    } else {
      FirstRoundLeads(groups, r - 1);
    }
  }

  /** With many groups the first round fills the limit. */
  lemma {:induction false} FirstRoundFills<E>(
    groups: seq<seq<E>>, cut: seq<seq<E>>, limit: nat, out: seq<E>, r: nat, g: nat)
    requires Cut(groups, cut, limit) && |groups| > limit > 0 && StopsAt(cut, limit, out, r, g)
    requires forall p :: 0 <= p < |groups| ==> groups[p] != []
    ensures StopsAt(groups, limit, out, 0, limit)
  {
    FullRound(cut, limit);
    if r == 0 {
      FullRound(cut, g);
      assert Rounds(cut, 0) == [];
    } else {
      FirstRoundLeads(cut, r);
    }
    assert out == Round(cut, 0, limit);
    CutRound(groups, cut, limit, 0, limit);
    assert Rounds(groups, 0) == [];
    assert Rounds(groups, 0) + Round(groups, 0, limit) == Round(groups, 0, limit);
  }

  /** An output over the cut groups is one over all groups. */
  lemma {:induction false} CuttingLosesNothing<E(!new)>(groups: seq<seq<E>>, cut: seq<seq<E>>, limit: nat, out: seq<E>)
    requires Cut(groups, cut, limit) && limit > 0 && IsRoundRobin(cut, limit, out)
    requires forall p :: 0 <= p < |groups| ==> groups[p] != []
    ensures IsRoundRobin(groups, limit, out)
  {
    var r, g :| StopsAt(cut, limit, out, r, g);
    if |groups| <= limit {
      CutGroupsStop(groups, cut, limit, out, r, g);
    } else {
      FirstRoundFills(groups, cut, limit, out, r, g);
    }
  }

  // No repeats.

  ghost predicate InGroups<E(!new)>(groups: seq<seq<E>>, e: E) {
    exists p, i :: 0 <= p < |groups| && 0 <= i < |groups[p]| && groups[p][i] == e
  }

  lemma {:induction false} RoundMembers<E(!new)>(groups: seq<seq<E>>, r: nat, g: nat, e: E)
    requires g <= |groups| && e in Round(groups, r, g)
    ensures InGroups(groups, e)
  {
    if e in Round(groups, r, g - 1) { RoundMembers(groups, r, g - 1, e); }
  }

  lemma {:induction false} RoundsMembers<E(!new)>(groups: seq<seq<E>>, r: nat, e: E)
    requires e in Rounds(groups, r)
    ensures InGroups(groups, e)
  {
    var k := r - 1;
    if e in Rounds(groups, k) { RoundsMembers(groups, k, e); } else { RoundMembers(groups, k, |groups|, e); }
  }

  lemma {:induction false} FilterCount<E>(keep: E -> bool, xs: seq<E>, e: E)
    requires keep(e)
    ensures multiset(Filter(keep, xs))[e] == multiset(xs)[e]
  {
    if xs != [] {
      var n := |xs| - 1;
      FilterCount(keep, xs[..n], e);
      assert xs == xs[..n] + [xs[n]];
    }
  }

  lemma RepeatCounts<E>(xs: seq<E>, i: nat, j: nat)
    requires i < j < |xs| && xs[i] == xs[j]
    ensures multiset(xs)[xs[i]] >= 2
  {
    assert xs == xs[..i] + [xs[i]] + xs[i + 1..j] + [xs[j]] + xs[j + 1..];
  }

  lemma PrefixIsDistinct<E>(xs: seq<E>, n: nat)
    requires Distinct(xs) && n <= |xs|
    ensures Distinct(xs[..n])
  {}

  lemma {:induction false} OutputMembers<E(!new)>(groups: seq<seq<E>>, limit: nat, out: seq<E>, e: E)
    requires IsRoundRobin(groups, limit, out) && e in out
    ensures InGroups(groups, e)
  {
    var r, g :| StopsAt(groups, limit, out, r, g);
    if e in Rounds(groups, r) { RoundsMembers(groups, r, e); } else { RoundMembers(groups, r, g, e); }
  }

  lemma {:induction false} GivenOnce<E(!new)>(
    groups: seq<seq<E>>, limit: nat, out: seq<E>, owner: E -> int, p: nat, e: E)
    requires Owned(groups, owner) && IsRoundRobin(groups, limit, out)
    requires p < |groups| && Distinct(groups[p]) && e in groups[p]
    ensures multiset(out)[e] <= 1
  {
    var r, g :| StopsAt(groups, limit, out, r, g);
    OutputOfGroup(groups, limit, out, r, g, owner, p);
    FilterCount(OwnedBy(owner, p), out, e);
    PrefixIsDistinct(groups[p], Taken(groups, r, g, p));
    CountOne(groups[p][..Taken(groups, r, g, p)], e);
  }

  lemma {:induction false} OutputHasNoRepeats<E(!new)>(groups: seq<seq<E>>, limit: nat, out: seq<E>, owner: E -> int)
    requires Owned(groups, owner) && IsRoundRobin(groups, limit, out)
    requires forall p :: 0 <= p < |groups| ==> Distinct(groups[p])
    ensures Distinct(out)
  {
    forall i, j | 0 <= i < j < |out| ensures out[i] != out[j] {
      if out[i] == out[j] {
        OutputMembers(groups, limit, out, out[i]);
        var p, k :| 0 <= p < |groups| && 0 <= k < |groups[p]| && groups[p][k] == out[i];
        GivenOnce(groups, limit, out, owner, p, out[i]);
        RepeatCounts(out, i, j);
        assert false;
      }
    }
  }

  // The order of an output.

  datatype Turn = Turn(round: nat, group: nat)

  predicate Earlier(a: Turn, b: Turn) {
    a.round < b.round || (a.round == b.round && a.group < b.group)
  }

  ghost predicate IsTurn<E>(groups: seq<seq<E>>, t: Turn) {
    t.group < |groups| && t.round < |groups[t.group]|
  }

  /** Everything that is earlier than a turn was taken before it. */
  ghost predicate NothingSkipped<E(!new)>(groups: seq<seq<E>>, turns: seq<Turn>, k: nat)
    requires k < |turns|
  {
    turns[k] !in turns[..k] && forall t :: IsTurn(groups, t) && Earlier(t, turns[k]) ==> t in turns[..k]
  }

  /** The elements come by rounds, and inside a round by groups, and no element is skipped. */
  ghost predicate InTurn<E(!new)>(groups: seq<seq<E>>, out: seq<E>, turns: seq<Turn>) {
    && |turns| == |out|
    && (forall k :: 0 <= k < |out| ==> IsTurn(groups, turns[k]) && out[k] == groups[turns[k].group][turns[k].round])
    && (forall k :: 0 <= k < |out| ==> NothingSkipped(groups, turns, k))
  }

  ghost predicate TurnsBefore<E(!new)>(groups: seq<seq<E>>, turns: seq<Turn>, end: Turn) {
    forall t :: t in turns <==> IsTurn(groups, t) && Earlier(t, end)
  }

  lemma {:induction false} OneMoreTurn<E(!new)>(
    groups: seq<seq<E>>, out: seq<E>, turns: seq<Turn>, end: Turn, more: seq<E>, moreTurns: seq<Turn>, next: Turn)
    requires InTurn(groups, out, turns) && TurnsBefore(groups, turns, end) && IsTurn(groups, end)
    requires moreTurns == turns + [end] && more == out + [groups[end.group][end.round]]
    requires forall t :: IsTurn(groups, t) ==> (Earlier(t, next) <==> Earlier(t, end) || t == end)
    ensures InTurn(groups, more, moreTurns) && TurnsBefore(groups, moreTurns, next)
  {
    assert moreTurns[..|turns|] == turns;
    forall k | 0 <= k < |more| ensures NothingSkipped(groups, moreTurns, k) {
      assert moreTurns[..k] == turns[..k];
      if k < |out| { assert NothingSkipped(groups, turns, k); } else { assert turns[..k] == turns; }
    }
  }

  lemma {:induction false} TurnsUpTo<E(!new)>(groups: seq<seq<E>>, r: nat, g: nat) returns (turns: seq<Turn>)
    requires g <= |groups|
    ensures InTurn(groups, Rounds(groups, r) + Round(groups, r, g), turns) && TurnsBefore(groups, turns, Turn(r, g))
    decreases r, g
  {
    if g > 0 {
      turns := TurnsUpTo(groups, r, g - 1);
      var out, end := Rounds(groups, r) + Round(groups, r, g - 1), Turn(r, g - 1);
      if IsTurn(groups, end) {
        OneMoreTurn(groups, out, turns, end, out + [groups[g - 1][r]], turns + [end], Turn(r, g));
        turns := turns + [end];
        assert out + [groups[g - 1][r]] == Rounds(groups, r) + Round(groups, r, g);
      } else {
        assert Rounds(groups, r) + Round(groups, r, g) == out;
      }
    } else if r > 0 {
      turns := TurnsUpTo(groups, r - 1, |groups|);
      assert Rounds(groups, r) + Round(groups, r, 0) == Rounds(groups, r - 1) + Round(groups, r - 1, |groups|);
    } else {
      turns := [];
    }
  }

  lemma {:induction false} OutputGoesByTurns<E(!new)>(groups: seq<seq<E>>, limit: nat, out: seq<E>) returns (turns: seq<Turn>)
    requires IsRoundRobin(groups, limit, out)
    ensures InTurn(groups, out, turns)
  {
    var r, g :| StopsAt(groups, limit, out, r, g);
    turns := TurnsUpTo(groups, r, g);
  }

  lemma OneIsEarlier(s: Turn, t: Turn)
    ensures Earlier(s, t) || s == t || Earlier(t, s)
  {}

  lemma {:induction false} SameTurn<E(!new)>(groups: seq<seq<E>>, a: seq<Turn>, b: seq<Turn>, k: nat)
    requires k < |a| && k < |b| && a[..k] == b[..k] && IsTurn(groups, a[k]) && IsTurn(groups, b[k])
    requires NothingSkipped(groups, a, k) && NothingSkipped(groups, b, k)
    ensures a[k] == b[k]
  {
    OneIsEarlier(a[k], b[k]);
  }

  lemma {:induction false} TurnsAreUnique<E(!new)>(groups: seq<seq<E>>, x: seq<E>, a: seq<Turn>, y: seq<E>, b: seq<Turn>, n: nat)
    requires InTurn(groups, x, a) && InTurn(groups, y, b) && n <= |a| && n <= |b|
    ensures a[..n] == b[..n]
  {
    if n > 0 {
      TurnsAreUnique(groups, x, a, y, b, n - 1);
      SameTurn(groups, a, b, n - 1);
      assert a[..n] == a[..n - 1] + [a[n - 1]] && b[..n] == b[..n - 1] + [b[n - 1]];
    }
  }

  /** Coming in turn is all there is to an output: any sequence of its length that does so is the output. */
  lemma {:induction false} OutputIsDetermined<E(!new)>(groups: seq<seq<E>>, limit: nat, out: seq<E>, other: seq<E>, turns: seq<Turn>)
    requires IsRoundRobin(groups, limit, out) && InTurn(groups, other, turns)
    requires |other| == if limit < Total(groups) then limit else Total(groups)
    ensures other == out
  {
    var own := OutputGoesByTurns(groups, limit, out);
    OutputIsFull(groups, limit, out);
    TurnsAreUnique(groups, out, own, other, turns, |out|);
    assert own[..|out|] == own && turns[..|out|] == turns;
  }
}
