/** In which order the ready indexes serve: told by readiness and priority of the jobs and by their principals. */
module CandidateOrder {
  import opened Text
  import opened JobModel
  import opened Fold
  import opened Sorting
  import opened RoundRobin
  import opened ReadyIndex
  import Redis = RedisReadyIndex

  type Sooner = (Entry, Entry) -> bool

  /** Of two jobs exactly one is sooner. */
  ghost predicate Decides(sooner: Sooner) {
    forall a, b :: OneIsSooner(sooner, a, b)
  }

  ghost predicate OneIsSooner(sooner: Sooner, a: Entry, b: Entry) {
    !(sooner(a, b) && sooner(b, a)) && (a.jobID != b.jobID ==> sooner(a, b) || sooner(b, a))
  }

  ghost predicate IsAhead(index: Index, ready: Readiness, sooner: Sooner, e: Entry, id: string) {
    ReadyIn(index, id, ready) && PrincipalKey(index[id].scope) == PrincipalKey(e.scope) && sooner(index[id], e)
  }

  /** The ready jobs of the same principal that are sooner. */
  ghost function Ahead(index: Index, ready: Readiness, sooner: Sooner, e: Entry): set<string> {
    set id | id in index && IsAhead(index, ready, sooner, e, id)
  }

  lemma {:induction false} GroupHolds(index: Index, ready: Readiness, group: Group, i: nat)
    requires GroupFits(index, ready, group) && i < |group.entries|
    ensures var e := group.entries[i];
            e.jobID in index && index[e.jobID] == e && ready(e) && PrincipalKey(e.scope) == group.key
  {
    assert group.entries[i] in group.entries;
  }

  lemma {:induction false} EarlierIsSooner(index: Index, ready: Readiness, sooner: Sooner, group: Group, k: nat, i: nat)
    requires GroupFits(index, ready, group) && Sorted(sooner, group.entries) && Decides(sooner)
    requires k < |group.entries| && i < |group.entries|
    ensures sooner(group.entries[k], group.entries[i]) <==> k < i
  {
    var a, b := group.entries[k], group.entries[i];
    GroupHolds(index, ready, group, k);
    GroupHolds(index, ready, group, i);
    assert OneIsSooner(sooner, a, b);
  }

  /** An entry's place among its principal's is how many are ahead of it. */
  lemma {:induction false} PlaceIsAhead(index: Index, ready: Readiness, sooner: Sooner, group: Group, i: nat)
    requires Keyed(index) && GroupFits(index, ready, group) && Sorted(sooner, group.entries) && Decides(sooner)
    requires i < |group.entries|
    ensures |Ahead(index, ready, sooner, group.entries[i])| == i
  {
    var e, before := group.entries[i], group.entries[..i];
    GroupHolds(index, ready, group, i);
    forall x | x in before ensures x.jobID in index && index[x.jobID] == x { assert x in group.entries; }
    IDsSize(index, before);
    forall id ensures id in IDsOf(before) <==> id in Ahead(index, ready, sooner, e) {
      if id in IDsOf(before) { OneAhead(index, ready, sooner, group, i, id); }
      if id in Ahead(index, ready, sooner, e) { AheadIsBefore(index, ready, sooner, group, i, id); }
    }
    assert IDsOf(before) == Ahead(index, ready, sooner, e);
  }

  lemma {:induction false} OneAhead(index: Index, ready: Readiness, sooner: Sooner, group: Group, i: nat, id: string)
    requires GroupFits(index, ready, group) && Sorted(sooner, group.entries) && Decides(sooner)
    requires i < |group.entries| && id in IDsOf(group.entries[..i])
    ensures id in Ahead(index, ready, sooner, group.entries[i])
  {
    var k :| 0 <= k < i && group.entries[k].jobID == id;
    GroupHolds(index, ready, group, k);
    GroupHolds(index, ready, group, i);
    EarlierIsSooner(index, ready, sooner, group, k, i);
  }

  lemma {:induction false} AheadIsBefore(index: Index, ready: Readiness, sooner: Sooner, group: Group, i: nat, id: string)
    requires Keyed(index) && GroupFits(index, ready, group) && Sorted(sooner, group.entries) && Decides(sooner)
    requires i < |group.entries| && id in Ahead(index, ready, sooner, group.entries[i])
    ensures id in IDsOf(group.entries[..i])
  {
    GroupHolds(index, ready, group, i);
    assert index[id] in group.entries;
    var k: nat :| k < |group.entries| && group.entries[k] == index[id];
    EarlierIsSooner(index, ready, sooner, group, k, i);
    assert group.entries[..i][k].jobID == id;
  }

  // Which candidate comes first.

  /** A job goes before another when fewer jobs of its own principal are ahead of it, and among equals by principal. */
  ghost predicate GoesBefore(
    index: Index, ready: Readiness, sooner: Sooner, principalFirst: (Entry, Entry) -> bool, x: Entry, y: Entry)
  {
    var ahead, behind := |Ahead(index, ready, sooner, x)|, |Ahead(index, ready, sooner, y)|;
    ahead < behind || (ahead == behind && principalFirst(x, y))
  }

  ghost function Taking(groups: seq<Group>, t: Turn): Entry
    requires IsTurn(EntriesOf(groups), t)
  {
    groups[t.group].entries[t.round]
  }

  ghost predicate PairInOrder(groups: seq<Group>, principalFirst: (Entry, Entry) -> bool, s: Turn, t: Turn) {
    IsTurn(EntriesOf(groups), s) && IsTurn(EntriesOf(groups), t) && principalFirst(Taking(groups, s), Taking(groups, t)) ==>
      s.group < t.group
  }

  /** The groups are in the order of their principals. */
  ghost predicate InPrincipalOrder(groups: seq<Group>, principalFirst: (Entry, Entry) -> bool) {
    forall s, t :: PairInOrder(groups, principalFirst, s, t)
  }

  lemma {:induction false} HasTurn(index: Index, ready: Readiness, groups: seq<Group>, x: Entry) returns (t: Turn)
    requires Grouping(index, ready, groups) && x.jobID in index && index[x.jobID] == x && ready(x)
    ensures IsTurn(EntriesOf(groups), t) && Taking(groups, t) == x
  {
    assert ReadyIn(index, x.jobID, ready);
    var p: nat :| p < |groups| && groups[p].key == PrincipalKey(x.scope);
    assert GroupFits(index, ready, groups[p]);
    assert x in groups[p].entries;
    var i: nat :| i < |groups[p].entries| && groups[p].entries[i] == x;
    t := Turn(i, p);
  }

  ghost predicate ServedBy(index: Index, ready: Readiness, sooner: Sooner, groups: seq<Group>, limit: nat, out: seq<Entry>) {
    && Keyed(index) && Grouping(index, ready, groups) && IsRoundRobin(EntriesOf(groups), limit, out) && Decides(sooner)
    && forall p :: 0 <= p < |groups| ==> Sorted(sooner, groups[p].entries)
  }

  lemma {:induction false} TurnIsEarlier(
    index: Index, ready: Readiness, sooner: Sooner, principalFirst: (Entry, Entry) -> bool, groups: seq<Group>, limit: nat,
    out: seq<Entry>, s: Turn, t: Turn)
    requires ServedBy(index, ready, sooner, groups, limit, out) && InPrincipalOrder(groups, principalFirst)
    requires IsTurn(EntriesOf(groups), s) && IsTurn(EntriesOf(groups), t)
    requires GoesBefore(index, ready, sooner, principalFirst, Taking(groups, s), Taking(groups, t))
    ensures Earlier(s, t)
  {
    assert GroupFits(index, ready, groups[s.group]) && GroupFits(index, ready, groups[t.group]);
    PlaceIsAhead(index, ready, sooner, groups[s.group], s.round);
    PlaceIsAhead(index, ready, sooner, groups[t.group], t.round);
    assert PairInOrder(groups, principalFirst, s, t);
  }

  lemma {:induction false} TakenBefore(lists: seq<seq<Entry>>, out: seq<Entry>, turns: seq<Turn>, s: Turn, b: nat)
    requires InTurn(lists, out, turns) && b < |out| && IsTurn(lists, s) && Earlier(s, turns[b])
    ensures lists[s.group][s.round] in out[..b]
  {
    assert NothingSkipped(lists, turns, b);
    var a: nat :| a < b && turns[..b][a] == s;
    assert out[..b][a] == lists[s.group][s.round];
  }

  /** Whoever goes before a candidate is a candidate too, and comes earlier. */
  lemma {:induction false} ServedInOrder(
    index: Index, ready: Readiness, sooner: Sooner, principalFirst: (Entry, Entry) -> bool, groups: seq<Group>, limit: nat,
    out: seq<Entry>, x: Entry, b: nat)
    requires ServedBy(index, ready, sooner, groups, limit, out) && InPrincipalOrder(groups, principalFirst)
    requires x.jobID in index && index[x.jobID] == x && ready(x) && b < |out|
    requires GoesBefore(index, ready, sooner, principalFirst, x, out[b])
    ensures x in out[..b]
  {
    var turns := OutputGoesByTurns(EntriesOf(groups), limit, out);
    var s := HasTurn(index, ready, groups, x);
    assert Taking(groups, turns[b]) == out[b];
    TurnIsEarlier(index, ready, sooner, principalFirst, groups, limit, out, s, turns[b]);
    TakenBefore(EntriesOf(groups), out, turns, s, b);
  }

  // Which principal comes first.

  /** The first moment at which a job of the principal was ready. */
  ghost predicate OpensAt(index: Index, ready: Readiness, moment: Entry -> Time, key: string, at: Time) {
    && (exists id :: ReadyIn(index, id, ready) && PrincipalKey(index[id].scope) == key && moment(index[id]) == at)
    && forall id :: ReadyIn(index, id, ready) && PrincipalKey(index[id].scope) == key ==> at <= moment(index[id])
  }

  /** The principal that was ready first, and among equals the one with the smaller name. */
  ghost predicate ReadyFirst(index: Index, ready: Readiness, moment: Entry -> Time, name: string -> string, x: Entry, y: Entry) {
    exists s, t ::
      && OpensAt(index, ready, moment, PrincipalKey(x.scope), s) && OpensAt(index, ready, moment, PrincipalKey(y.scope), t)
      && (s < t || (s == t && Less(name(PrincipalKey(x.scope)), name(PrincipalKey(y.scope)))))
  }

  ghost function ByPrincipal(index: Index, ready: Readiness, moment: Entry -> Time, name: string -> string): (Entry, Entry) -> bool {
    (x: Entry, y: Entry) => ReadyFirst(index, ready, moment, name, x, y)
  }

  ghost predicate ByMoment(sooner: Sooner, moment: Entry -> Time) {
    forall a, b :: sooner(a, b) ==> moment(a) <= moment(b)
  }

  lemma {:induction false} HeadIsFirst(
    index: Index, ready: Readiness, sooner: Sooner, moment: Entry -> Time, group: Group, id: string)
    requires Keyed(index) && GroupFits(index, ready, group) && Sorted(sooner, group.entries) && Decides(sooner)
    requires ByMoment(sooner, moment)
    requires ReadyIn(index, id, ready) && PrincipalKey(index[id].scope) == group.key
    ensures moment(group.entries[0]) <= moment(index[id])
  {
    assert index[id] in group.entries;
    var k: nat :| k < |group.entries| && group.entries[k] == index[id];
    if k > 0 { EarlierIsSooner(index, ready, sooner, group, 0, k); }
  }

  lemma {:induction false} HeadOpens(
    index: Index, ready: Readiness, sooner: Sooner, moment: Entry -> Time, group: Group, at: Time)
    requires Keyed(index) && GroupFits(index, ready, group) && Sorted(sooner, group.entries) && Decides(sooner)
    requires ByMoment(sooner, moment)
    requires OpensAt(index, ready, moment, group.key, at)
    ensures at == moment(group.entries[0])
  {
    GroupHolds(index, ready, group, 0);
    assert ReadyIn(index, group.entries[0].jobID, ready);
    var id :| ReadyIn(index, id, ready) && PrincipalKey(index[id].scope) == group.key && moment(index[id]) == at;
    HeadIsFirst(index, ready, sooner, moment, group, id);
  }

  ghost predicate HeadFirst(moment: Entry -> Time, name: string -> string, a: Group, b: Group) {
    && a.entries != [] && b.entries != []
    && (moment(a.entries[0]) < moment(b.entries[0])
        || (moment(a.entries[0]) == moment(b.entries[0]) && Less(name(a.key), name(b.key))))
  }

  lemma {:induction false} FirstPrincipalLeads(
    index: Index, ready: Readiness, sooner: Sooner, moment: Entry -> Time, name: string -> string, groups: seq<Group>,
    p: nat, q: nat, i: nat, j: nat)
    requires Keyed(index) && p < |groups| && q < |groups| && i < |groups[p].entries| && j < |groups[q].entries|
    requires GroupFits(index, ready, groups[p]) && Sorted(sooner, groups[p].entries)
    requires GroupFits(index, ready, groups[q]) && Sorted(sooner, groups[q].entries)
    requires Decides(sooner) && ByMoment(sooner, moment)
    requires ReadyFirst(index, ready, moment, name, groups[p].entries[i], groups[q].entries[j])
    ensures HeadFirst(moment, name, groups[p], groups[q])
  {
    GroupHolds(index, ready, groups[p], i);
    GroupHolds(index, ready, groups[q], j);
    var s, t :|
      && OpensAt(index, ready, moment, groups[p].key, s) && OpensAt(index, ready, moment, groups[q].key, t)
      && (s < t || (s == t && Less(name(groups[p].key), name(groups[q].key))));
    HeadOpens(index, ready, sooner, moment, groups[p], s);
    HeadOpens(index, ready, sooner, moment, groups[q], t);
  }

  /** Groups sorted by their heads are in the order of their principals. */
  lemma {:induction false} PrincipalsInOrder(
    index: Index, ready: Readiness, sooner: Sooner, moment: Entry -> Time, name: string -> string, groups: seq<Group>)
    requires Keyed(index) && Grouping(index, ready, groups) && Decides(sooner) && ByMoment(sooner, moment)
    requires forall p :: 0 <= p < |groups| ==> Sorted(sooner, groups[p].entries)
    requires forall p, q :: 0 <= p < q < |groups| ==> !HeadFirst(moment, name, groups[q], groups[p])
    ensures InPrincipalOrder(groups, ByPrincipal(index, ready, moment, name))
  {
    forall s, t ensures PairInOrder(groups, ByPrincipal(index, ready, moment, name), s, t) {
      if IsTurn(EntriesOf(groups), s) && IsTurn(EntriesOf(groups), t)
         && ReadyFirst(index, ready, moment, name, Taking(groups, s), Taking(groups, t))
      {
        assert GroupFits(index, ready, groups[s.group]) && GroupFits(index, ready, groups[t.group]);
        FirstPrincipalLeads(index, ready, sooner, moment, name, groups, s.group, t.group, s.round, t.round);
        LessIrreflexive(name(groups[s.group].key));
      }
    }
  }

  // The memory index.

  /** By readiness, then the higher priority, then the earlier creation, then the smaller id. */
  predicate SoonerReady(a: Entry, b: Entry) {
    || a.readyAt < b.readyAt
    || (a.readyAt == b.readyAt && a.priority > b.priority)
    || (a.readyAt == b.readyAt && a.priority == b.priority && a.createdAt < b.createdAt)
    || (a.readyAt == b.readyAt && a.priority == b.priority && a.createdAt == b.createdAt && Less(a.jobID, b.jobID))
  }

  function ReadyMoment(): Entry -> Time { (e: Entry) => e.readyAt }

  function Itself(): string -> string { (s: string) => s }

  lemma {:induction false} ReadinessDecides()
    ensures Decides(SoonerReady) && ByMoment(SoonerReady, ReadyMoment())
  {
    forall a, b: Entry ensures OneIsSooner(SoonerReady, a, b) {
      LessTotal(a.jobID, b.jobID);
      if Less(a.jobID, b.jobID) { LessIsWeak(a.jobID, a.jobID, b.jobID); }
    }
  }

  lemma {:induction false} MemoryGroupsAreOrdered(groups: seq<Group>)
    requires InOrder(groups)
    ensures forall p :: 0 <= p < |groups| ==> Sorted(SoonerReady, groups[p].entries)
    ensures forall p, q :: 0 <= p < q < |groups| ==> !HeadFirst(ReadyMoment(), Itself(), groups[q], groups[p])
  {
    forall p | 0 <= p < |groups| ensures Sorted(SoonerReady, groups[p].entries) {
      assert Sorted(EntryBefore, groups[p].entries);
    }
    forall p, q | 0 <= p < q < |groups| ensures !HeadFirst(ReadyMoment(), Itself(), groups[q], groups[p]) {
      assert !GroupBefore(groups[q], groups[p]);
    }
  }

  ghost predicate MemoryOrder(index: Index, at: Time, x: Entry, y: Entry) {
    GoesBefore(index, ReadyBy(at), SoonerReady, ByPrincipal(index, ReadyBy(at), ReadyMoment(), Itself()), x, y)
  }

  /** The memory index serves the first job of every principal before the second of any, the jobs of one principal by
      readiness, priority, creation and id, and the principals by who was ready first. */
  lemma {:induction false} MemoryServesInOrder(
    index: Index, at: Time, groups: seq<Group>, limit: nat, out: seq<Entry>, x: Entry, b: nat)
    requires Keyed(index) && Grouping(index, ReadyBy(at), groups) && InOrder(groups)
    requires IsRoundRobin(EntriesOf(groups), limit, out)
    requires x.jobID in index && index[x.jobID] == x && x.readyAt <= at && b < |out|
    requires MemoryOrder(index, at, x, out[b])
    ensures x in out[..b]
  {
    ReadinessDecides();
    MemoryGroupsAreOrdered(groups);
    PrincipalsInOrder(index, ReadyBy(at), SoonerReady, ReadyMoment(), Itself(), groups);
    ServedInOrder(index, ReadyBy(at), SoonerReady, ByPrincipal(index, ReadyBy(at), ReadyMoment(), Itself()), groups, limit, out, x, b);
  }

  // The Redis index.

  /** By the millisecond of readiness, then the smaller id. */
  predicate SoonerInRedis(a: Entry, b: Entry) {
    || a.readyAt / 1_000_000 < b.readyAt / 1_000_000
    || (a.readyAt / 1_000_000 == b.readyAt / 1_000_000 && Less(a.jobID, b.jobID))
  }

  function ReadyMillisecond(): Entry -> Time { (e: Entry) => e.readyAt / 1_000_000 }

  lemma {:induction false} MillisecondsDecide()
    ensures Decides(SoonerInRedis) && ByMoment(SoonerInRedis, ReadyMillisecond())
  {
    forall a, b: Entry ensures OneIsSooner(SoonerInRedis, a, b) {
      LessTotal(a.jobID, b.jobID);
      if Less(a.jobID, b.jobID) { LessIsWeak(a.jobID, a.jobID, b.jobID); }
    }
  }

  lemma ScoresDecide(scoreOf: Entry -> int, a: Entry, b: Entry)
    requires scoreOf(a) == a.readyAt / 1_000_000 && scoreOf(b) == b.readyAt / 1_000_000
    ensures Redis.BeforeBy(scoreOf)(a, b) <==> SoonerInRedis(a, b)
  {}

  lemma {:induction false} SortedForRedis(entries: seq<Entry>)
    requires Sorted(Redis.BeforeBy(Redis.Score), entries)
    ensures Sorted(SoonerInRedis, entries)
  {
    forall i, j | 0 <= i < j < |entries| ensures !SoonerInRedis(entries[j], entries[i]) {
      assert Redis.Score(entries[j]) == entries[j].readyAt / 1_000_000 && Redis.Score(entries[i]) == entries[i].readyAt / 1_000_000;
      ScoresDecide(Redis.Score, entries[j], entries[i]);
    }
  }

  lemma HeadsInRedis(hash: string -> string, a: Group, b: Group)
    ensures HeadFirst(ReadyMillisecond(), hash, a, b) ==> Redis.HeadBeforeUnder(hash)(a, b)
  {}

  lemma {:induction false} RedisGroupsAreOrdered(hash: string -> string, groups: seq<Group>)
    requires Redis.InRedisOrder(hash, groups)
    ensures forall p :: 0 <= p < |groups| ==> Sorted(SoonerInRedis, groups[p].entries)
    ensures forall p, q :: 0 <= p < q < |groups| ==> !HeadFirst(ReadyMillisecond(), hash, groups[q], groups[p])
  {
    forall p | 0 <= p < |groups| ensures Sorted(SoonerInRedis, groups[p].entries) {
      SortedForRedis(groups[p].entries);
    }
    forall p, q | 0 <= p < q < |groups| ensures !HeadFirst(ReadyMillisecond(), hash, groups[q], groups[p]) {
      HeadsInRedis(hash, groups[q], groups[p]);
    }
  }

  ghost predicate RedisOrder(hash: string -> string, index: Index, at: Time, x: Entry, y: Entry) {
    GoesBefore(index, Redis.ScoredBy(at), SoonerInRedis, ByPrincipal(index, Redis.ScoredBy(at), ReadyMillisecond(), hash), x, y)
  }

  /** The Redis index does the same with milliseconds and ids inside a principal, and with digests between principals. */
  lemma {:induction false} RedisServesInOrder(
    hash: string -> string, index: Index, at: Time, groups: seq<Group>, limit: nat, out: seq<Entry>, x: Entry, b: nat)
    requires Keyed(index) && Grouping(index, Redis.ScoredBy(at), groups) && Redis.InRedisOrder(hash, groups)
    requires IsRoundRobin(EntriesOf(groups), limit, out) && b < |out|
    requires x.jobID in index && index[x.jobID] == x && x.readyAt / 1_000_000 <= at
    requires RedisOrder(hash, index, at, x, out[b])
    ensures x in out[..b]
  {
    MillisecondsDecide();
    RedisGroupsAreOrdered(hash, groups);
    PrincipalsInOrder(index, Redis.ScoredBy(at), SoonerInRedis, ReadyMillisecond(), hash, groups);
    ServedInOrder(index, Redis.ScoredBy(at), SoonerInRedis, ByPrincipal(index, Redis.ScoredBy(at), ReadyMillisecond(), hash),
                  groups, limit, out, x, b);
  }
}
