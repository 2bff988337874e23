/** The ready index: a rebuildable cache of claimable jobs, in its simple in-memory form. */
module ReadyIndex {
  import opened Text
  import opened JobModel
  import opened Fold
  import opened Sorting
  import opened RoundRobin
  import opened Sums

  /** Scheduling metadata of one job. */
  datatype Entry = Entry(
    jobID: string, status: Status, statusVersion: int, fenceToken: int, scope: Scope, priority: int,
    readyAt: Time, createdAt: Time)

  type Index = map<string, Entry>

  function TrimScope(s: Scope): Scope {
    Scope(Trim(s.profileScope), Trim(s.tenantID), Trim(s.credentialSource), Trim(s.integrationID),
          Trim(s.principalType), Trim(s.principalID), Trim(s.externalSubject))
  }

  function Normalize(e: Entry): Entry {
    e.(jobID := Trim(e.jobID), scope := TrimScope(e.scope))
  }

  predicate ValidEntry(e: Entry) {
    && Trim(e.jobID) != "" && e.statusVersion > 0 && Trim(e.scope.tenantID) != "" && Trim(e.scope.principalID) != ""
    && e.readyAt != 0 && e.createdAt != 0 && e.status in {Queued, Dispatching}
  }

  function ReadyTime(job: AIJob): Time {
    if job.status == Dispatching && job.queueLeaseUntil.Some? then job.queueLeaseUntil.value else job.nextEligibleAt
  }

  /** The projection of a job; None when the job is not claimable or its columns are not usable. */
  function NewEntry(job: AIJob): Option<Entry> {
    if job.status == Dispatching && job.queueLeaseUntil.None? then None
    else
      var entry := Normalize(Entry(job.id, job.status, job.statusVersion, job.fenceToken, job.scope, job.priority,
                                   ReadyTime(job), job.createdAt));
      if ValidEntry(entry) then Some(entry) else None
  }

  datatype Registration = Registered | Outdated | Conflict | Invalid

  function AfterRegister(index: Index, given: Entry): (Index, Registration) {
    var entry := Normalize(given);
    if !ValidEntry(entry) then (index, Invalid)
    else if entry.jobID in index && index[entry.jobID].statusVersion > entry.statusVersion then (index, Outdated)
    else if entry.jobID in index && index[entry.jobID].statusVersion == entry.statusVersion && index[entry.jobID] != entry
    then (index, Conflict)
    else (index[entry.jobID := entry], Registered)
  }

  /** Removes an entry with exactly this version; refuses an unusable reference. */
  function AfterRemove(index: Index, jobID: string, statusVersion: int): Index {
    if Trim(jobID) == "" || statusVersion <= 0 then index
    else if jobID in index && index[jobID].statusVersion == statusVersion then index - {jobID}
    else index
  }

  // Counting.

  datatype ScopeLevel = AllScopes | ProfileScopes | TenantScopes | PrincipalScopes

  predicate ValidScope(level: ScopeLevel, scope: Scope) {
    match level
    case AllScopes => true
    case ProfileScopes => true
    case TenantScopes => Trim(scope.tenantID) != ""
    case PrincipalScopes => Trim(scope.tenantID) != "" && Trim(scope.principalID) != ""
  }

  function ScopeKey(level: ScopeLevel, scope: Scope): string {
    match level
    case AllScopes => "all"
    case ProfileScopes => ProfileKey(scope)
    case TenantScopes => TenantKey(scope)
    case PrincipalScopes => PrincipalKey(scope)
  }

  predicate InScope(index: Index, id: string, level: ScopeLevel, key: string) {
    id in index && (level == AllScopes || ScopeKey(level, index[id].scope) == key)
  }

  function ScopeTest(index: Index, level: ScopeLevel, key: string): string -> bool {
    id => InScope(index, id, level, key)
  }

  ghost function JobsInScope(index: Index, level: ScopeLevel, key: string): set<string> {
    set id | id in index && InScope(index, id, level, key)
  }

  // Candidates.

  predicate EntryBefore(a: Entry, b: Entry) {
    if a.readyAt != b.readyAt then a.readyAt < b.readyAt
    else if a.priority != b.priority then a.priority > b.priority
    else if a.createdAt != b.createdAt then a.createdAt < b.createdAt
    else Less(a.jobID, b.jobID)
  }

  datatype Group = Group(key: string, entries: seq<Entry>)

  /** When the first entry of a group is ready. No group is empty. */
  function Head(g: Group): Time {
    if g.entries == [] then 0 else g.entries[0].readyAt
  }

  predicate GroupBefore(a: Group, b: Group) {
    if Head(a) != Head(b) then Head(a) < Head(b) else Less(a.key, b.key)
  }

  lemma LessIsWeak(a: string, b: string, c: string)
    requires Less(a, c)
    ensures Less(a, b) || Less(b, c)
    ensures !Less(c, a)
  {}

  lemma {:induction false} EntriesAreOrdered()
    ensures Orders(EntryBefore)
  {
    forall a, b: Entry | EntryBefore(a, b) ensures !EntryBefore(b, a) {
      if Less(a.jobID, b.jobID) { LessIsWeak(a.jobID, a.jobID, b.jobID); }
    }
    forall a, b, c: Entry | EntryBefore(a, c) ensures EntryBefore(a, b) || EntryBefore(b, c) {
      if Less(a.jobID, c.jobID) { LessIsWeak(a.jobID, b.jobID, c.jobID); }
    }
  }

  lemma {:induction false} GroupsAreOrdered()
    ensures Orders(GroupBefore)
  {
    forall a, b: Group | GroupBefore(a, b) ensures !GroupBefore(b, a) {
      if Less(a.key, b.key) { LessIsWeak(a.key, a.key, b.key); }
    }
    forall a, b, c: Group | GroupBefore(a, c) ensures GroupBefore(a, b) || GroupBefore(b, c) {
      if Less(a.key, c.key) { LessIsWeak(a.key, b.key, c.key); }
    }
  }

  type Readiness = Entry -> bool

  function ReadyBy(at: Time): Readiness { (e: Entry) => e.readyAt <= at }

  ghost predicate ReadyIn(index: Index, id: string, ready: Readiness) {
    id in index && ready(index[id])
  }

  ghost function ReadyIDs(index: Index, ready: Readiness): set<string> {
    set id | id in index && ReadyIn(index, id, ready)
  }

  ghost predicate Keyed(index: Index) {
    forall id :: id in index ==> index[id].jobID == id
  }

  /** One group: the ready entries of one principal. */
  ghost predicate GroupFits(index: Index, ready: Readiness, group: Group) {
    && group.entries != [] && Distinct(group.entries)
    && forall e :: e in group.entries <==>
         e.jobID in index && index[e.jobID] == e && ready(e) && PrincipalKey(e.scope) == group.key
  }

  ghost predicate HasGroup(groups: seq<Group>, key: string) {
    exists p :: 0 <= p < |groups| && groups[p].key == key
  }

  /** The groups of the ready entries: one per principal, whatever counts as ready and in whatever order. */
  ghost predicate Grouping(index: Index, ready: Readiness, groups: seq<Group>) {
    && (forall p :: 0 <= p < |groups| ==> GroupFits(index, ready, groups[p]))
    && (forall p, q :: 0 <= p < q < |groups| ==> groups[p].key != groups[q].key)
    && (forall id :: ReadyIn(index, id, ready) ==> HasGroup(groups, PrincipalKey(index[id].scope)))
  }

  /** The memory order: by the comparator inside a group, and by the first entry between groups. */
  ghost predicate InOrder(groups: seq<Group>) {
    && (forall p :: 0 <= p < |groups| ==> Sorted(EntryBefore, groups[p].entries))
    && Sorted(GroupBefore, groups)
  }

  function EntriesOf(groups: seq<Group>): (lists: seq<seq<Entry>>)
    ensures |lists| == |groups| && forall p :: 0 <= p < |groups| ==> lists[p] == groups[p].entries
  {
    seq(|groups|, p requires 0 <= p < |groups| => groups[p].entries)
  }

  /** The position of a principal's group. */
  function GroupIndex(groups: seq<Group>, key: string): int {
    if groups == [] then -1
    else if groups[|groups| - 1].key == key then |groups| - 1
    else GroupIndex(groups[..|groups| - 1], key)
  }

  function OwnerIn(groups: seq<Group>): Entry -> int {
    (e: Entry) => GroupIndex(groups, PrincipalKey(e.scope))
  }

  lemma {:induction false} GroupIndexFinds(groups: seq<Group>, p: nat)
    requires p < |groups| && forall i, j :: 0 <= i < j < |groups| ==> groups[i].key != groups[j].key
    ensures GroupIndex(groups, groups[p].key) == p
  {
    var n := |groups| - 1;
    if p < n { GroupIndexFinds(groups[..n], p); }
  }

  lemma {:induction false} GroupsAreOwned(index: Index, ready: Readiness, groups: seq<Group>)
    requires Grouping(index, ready, groups)
    ensures Owned(EntriesOf(groups), OwnerIn(groups))
  {
    forall p, i | 0 <= p < |groups| && 0 <= i < |groups[p].entries|
      ensures OwnerIn(groups)(groups[p].entries[i]) == p
    {
      assert GroupFits(index, ready, groups[p]) && groups[p].entries[i] in groups[p].entries;
      GroupIndexFinds(groups, p);
    }
  }

  ghost function IDsOf(entries: seq<Entry>): set<string> {
    set i | 0 <= i < |entries| :: entries[i].jobID
  }

  lemma {:induction false} IDsSize(index: Index, entries: seq<Entry>)
    requires Distinct(entries) && forall e :: e in entries ==> e.jobID in index && index[e.jobID] == e
    ensures |IDsOf(entries)| == |entries|
  {
    if entries != [] {
      var n := |entries| - 1;
      var last := entries[n].jobID;
      forall e | e in entries[..n] ensures e.jobID in index && index[e.jobID] == e { assert e in entries; }
      IDsSize(index, entries[..n]);
      assert entries[n] in entries;
      forall i | 0 <= i < n ensures entries[..n][i].jobID != last {
        assert entries[i] in entries && entries[i] != entries[n];
      }
      IDsSplit(entries, n);
    }
  }

  lemma IDsSplit(entries: seq<Entry>, n: nat)
    requires |entries| == n + 1
    ensures IDsOf(entries) == IDsOf(entries[..n]) + {entries[n].jobID}
  {}

  ghost function GroupedIDs(index: Index, ready: Readiness, groups: seq<Group>): set<string> {
    set id | id in index && ReadyIn(index, id, ready) && HasGroup(groups, PrincipalKey(index[id].scope))
  }

  lemma {:induction false} GroupIDs(index: Index, ready: Readiness, group: Group)
    requires Keyed(index) && GroupFits(index, ready, group)
    ensures IDsOf(group.entries) == (set id | id in index && ReadyIn(index, id, ready) && PrincipalKey(index[id].scope) == group.key)
    ensures |IDsOf(group.entries)| == |group.entries|
  {
    IDsSize(index, group.entries);
    forall id | id in index && ReadyIn(index, id, ready) && PrincipalKey(index[id].scope) == group.key
      ensures id in IDsOf(group.entries)
    {
      assert index[id] in group.entries;
      var i :| 0 <= i < |group.entries| && group.entries[i] == index[id];
    }
    forall id | id in IDsOf(group.entries)
      ensures id in index && ReadyIn(index, id, ready) && PrincipalKey(index[id].scope) == group.key
    {
      var i :| 0 <= i < |group.entries| && group.entries[i].jobID == id;
      assert group.entries[i] in group.entries;
    }
  }

  lemma TotalStep(groups: seq<Group>, n: nat)
    requires |groups| == n + 1
    ensures Total(EntriesOf(groups)) == Total(EntriesOf(groups[..n])) + |groups[n].entries|
  {
    assert EntriesOf(groups)[..n] == EntriesOf(groups[..n]);
  }

  lemma DisjointSize<T>(all: set<T>, a: set<T>, b: set<T>)
    requires all == a + b && a !! b
    ensures |all| == |a| + |b|
  {}

  lemma {:induction false} TotalIsReady(index: Index, ready: Readiness, groups: seq<Group>)
    requires Keyed(index) && forall p :: 0 <= p < |groups| ==> GroupFits(index, ready, groups[p])
    requires forall p, q :: 0 <= p < q < |groups| ==> groups[p].key != groups[q].key
    ensures Total(EntriesOf(groups)) == |GroupedIDs(index, ready, groups)|
  {
    if groups == [] {
      assert GroupedIDs(index, ready, groups) == {};
    } else {
      var n := |groups| - 1;
      TotalIsReady(index, ready, groups[..n]);
      TotalStep(groups, n);
      GroupIDs(index, ready, groups[n]);
      SplitGroupedIDs(index, ready, groups, n);
      DisjointSize(GroupedIDs(index, ready, groups), GroupedIDs(index, ready, groups[..n]), IDsOf(groups[n].entries));
    }
  }

  lemma {:induction false} SplitGroupedIDs(index: Index, ready: Readiness, groups: seq<Group>, n: nat)
    requires |groups| == n + 1 && forall p, q :: 0 <= p < q < |groups| ==> groups[p].key != groups[q].key
    ensures var mine := set id | id in index && ReadyIn(index, id, ready) && PrincipalKey(index[id].scope) == groups[n].key;
            && GroupedIDs(index, ready, groups) == GroupedIDs(index, ready, groups[..n]) + mine
            && GroupedIDs(index, ready, groups[..n]) !! mine
  {}

  lemma {:induction false} CandidatesAreStored(index: Index, ready: Readiness, groups: seq<Group>, limit: nat, out: seq<Entry>, e: Entry)
    requires Grouping(index, ready, groups) && IsRoundRobin(EntriesOf(groups), limit, out) && e in out
    ensures e.jobID in index && index[e.jobID] == e && ready(e)
  {
    OutputMembers(EntriesOf(groups), limit, out, e);
    var p, i :| 0 <= p < |groups| && 0 <= i < |EntriesOf(groups)[p]| && EntriesOf(groups)[p][i] == e;
    assert GroupFits(index, ready, groups[p]);
  }

  lemma {:induction false} CandidatesAreDistinct(index: Index, ready: Readiness, groups: seq<Group>, limit: nat, out: seq<Entry>)
    requires Grouping(index, ready, groups) && IsRoundRobin(EntriesOf(groups), limit, out)
    ensures Distinct(out)
  {
    GroupsAreOwned(index, ready, groups);
    forall p | 0 <= p < |groups| ensures Distinct(EntriesOf(groups)[p]) { assert GroupFits(index, ready, groups[p]); }
    OutputHasNoRepeats(EntriesOf(groups), limit, out, OwnerIn(groups));
  }

  /** What a candidate list promises: as many ready entries as the limit and the index allow, without repeats. */
  lemma {:induction false} CandidatesAreComplete(index: Index, ready: Readiness, groups: seq<Group>, limit: nat, out: seq<Entry>)
    requires Keyed(index) && Grouping(index, ready, groups) && IsRoundRobin(EntriesOf(groups), limit, out)
    ensures Distinct(out) && |out| == if limit < |ReadyIDs(index, ready)| then limit else |ReadyIDs(index, ready)|
  {
    CandidatesAreDistinct(index, ready, groups, limit, out);
    OutputIsFull(EntriesOf(groups), limit, out);
    TotalIsReady(index, ready, groups);
    assert GroupedIDs(index, ready, groups) == ReadyIDs(index, ready);
  }

  /** The shares of two principals: each gets a prefix of its sorted entries, and one that has entries left out gets at
      most one less than the other. */
  lemma {:induction false} CandidatesAreBalanced(
    index: Index, ready: Readiness, groups: seq<Group>, limit: nat, out: seq<Entry>, p: nat, q: nat)
    requires Grouping(index, ready, groups) && IsRoundRobin(EntriesOf(groups), limit, out) && p < |groups| && q < |groups|
    ensures var mine, yours := Filter(OwnedBy(OwnerIn(groups), p), out), Filter(OwnedBy(OwnerIn(groups), q), out);
            && mine <= groups[p].entries
            && (|yours| < |groups[q].entries| ==> |mine| <= |yours| + 1)
  {
    GroupsAreOwned(index, ready, groups);
    SharesAreBalanced(EntriesOf(groups), limit, out, OwnerIn(groups), p, q);
  }

  // Building the groups.

  /** The entries that belong to a group, when the ids in `left` are still to come. */
  ghost predicate Belongs(index: Index, ready: Readiness, left: set<string>, key: string, e: Entry) {
    && e.jobID in index && index[e.jobID] == e && ready(e) && PrincipalKey(e.scope) == key && e.jobID !in left
  }

  ghost predicate PartialGroup(index: Index, ready: Readiness, left: set<string>, key: string, entries: seq<Entry>) {
    entries != [] && Distinct(entries) && forall e :: e in entries <==> Belongs(index, ready, left, key, e)
  }

  ghost predicate PartialGroups(index: Index, ready: Readiness, left: set<string>, groups: map<string, seq<Entry>>) {
    && (forall key :: key in groups ==> PartialGroup(index, ready, left, key, groups[key]))
    && (forall id :: ReadyIn(index, id, ready) && id !in left ==> PrincipalKey(index[id].scope) in groups)
  }

  function AddEntry(groups: map<string, seq<Entry>>, e: Entry): map<string, seq<Entry>> {
    var key := PrincipalKey(e.scope);
    groups[key := (if key in groups then groups[key] else []) + [e]]
  }

  lemma {:induction false} SkippedEntry(index: Index, ready: Readiness, left: set<string>, groups: map<string, seq<Entry>>, id: string)
    requires Keyed(index) && PartialGroups(index, ready, left, groups) && id in left && id in index && !ready(index[id])
    ensures PartialGroups(index, ready, left - {id}, groups)
  {}

  lemma {:induction false} GrownGroup(index: Index, ready: Readiness, left: set<string>, key: string, entries: seq<Entry>, id: string)
    requires Keyed(index) && id in left && id in index && ready(index[id]) && PrincipalKey(index[id].scope) == key
    requires entries == [] ==> forall e :: !Belongs(index, ready, left, key, e)
    requires entries != [] ==> PartialGroup(index, ready, left, key, entries)
    ensures PartialGroup(index, ready, left - {id}, key, entries + [index[id]])
  {
    var more := entries + [index[id]];
    forall e ensures e in more <==> Belongs(index, ready, left - {id}, key, e) {
      if entries != [] && e in entries { assert Belongs(index, ready, left, key, e); }
      if Belongs(index, ready, left - {id}, key, e) && e.jobID != id { assert Belongs(index, ready, left, key, e); }
    }
    assert index[id] !in entries;
  }

  lemma {:induction false} AddedEntry(index: Index, ready: Readiness, left: set<string>, groups: map<string, seq<Entry>>, id: string)
    requires Keyed(index) && PartialGroups(index, ready, left, groups) && id in left && id in index && ready(index[id])
    ensures PartialGroups(index, ready, left - {id}, AddEntry(groups, index[id]))
  {
    var mine, next := PrincipalKey(index[id].scope), AddEntry(groups, index[id]);
    forall key | key in next ensures PartialGroup(index, ready, left - {id}, key, next[key]) {
      if key == mine {
        if mine !in groups {
          forall e ensures !Belongs(index, ready, left, mine, e) {
            if Belongs(index, ready, left, mine, e) { assert ReadyIn(index, e.jobID, ready); }
          }
        }
        GrownGroup(index, ready, left, mine, if mine in groups then groups[mine] else [], id);
      } else {
        assert PartialGroup(index, ready, left, key, groups[key]);
      }
    }
  }

  lemma {:induction false} SortedGroupFits(index: Index, ready: Readiness, key: string, entries: seq<Entry>)
    requires PartialGroup(index, ready, {}, key, entries)
    ensures GroupFits(index, ready, Group(key, SortBy(EntryBefore, entries)))
    ensures Sorted(EntryBefore, SortBy(EntryBefore, entries))
  {
    EntriesAreOrdered();
    SortBySorts(EntryBefore, entries);
    PermutedDistinct(entries, SortBy(EntryBefore, entries));
    forall e ensures e in SortBy(EntryBefore, entries) <==> Belongs(index, ready, {}, key, e) {
      assert e in multiset(SortBy(EntryBefore, entries)) <==> e in multiset(entries);
    }
  }

  lemma {:induction false} PermutedDistinct<T>(xs: seq<T>, ys: seq<T>)
    requires Distinct(xs) && multiset(xs) == multiset(ys)
    ensures |ys| == |xs| && Distinct(ys)
  {
    assert |multiset(xs)| == |xs| && |multiset(ys)| == |ys|;
    forall i, j | 0 <= i < j < |ys| ensures ys[i] != ys[j] {
      if ys[i] == ys[j] {
        RepeatCounts(ys, i, j);
        CountOne(xs, ys[i]);
        assert false;
      }
    }
  }

  ghost predicate DistinctKeys(groups: seq<Group>) {
    forall p, q :: 0 <= p < q < |groups| ==> groups[p].key != groups[q].key
  }

  lemma {:induction false} SortedGrouping(index: Index, ready: Readiness, groups: seq<Group>)
    requires (forall p :: 0 <= p < |groups| ==> GroupFits(index, ready, groups[p])) && DistinctKeys(groups)
    requires forall id :: ReadyIn(index, id, ready) ==> HasGroup(groups, PrincipalKey(index[id].scope))
    requires forall p :: 0 <= p < |groups| ==> Sorted(EntryBefore, groups[p].entries)
    ensures Grouping(index, ready, SortBy(GroupBefore, groups)) && InOrder(SortBy(GroupBefore, groups))
  {
    var sorted := SortBy(GroupBefore, groups);
    GroupsAreOrdered();
    SortBySorts(GroupBefore, groups);
    PermutedDistinct(groups, sorted);
    forall p | 0 <= p < |sorted|
      ensures sorted[p] in groups && GroupFits(index, ready, sorted[p]) && Sorted(EntryBefore, sorted[p].entries)
    {
      assert sorted[p] in multiset(groups);
    }
    forall p, q | 0 <= p < q < |sorted| ensures sorted[p].key != sorted[q].key {
      assert sorted[p] in multiset(groups) && sorted[q] in multiset(groups) && sorted[p] != sorted[q];
    }
    forall id | ReadyIn(index, id, ready) ensures HasGroup(sorted, PrincipalKey(index[id].scope)) {
      var p :| 0 <= p < |groups| && groups[p].key == PrincipalKey(index[id].scope);
      assert groups[p] in multiset(sorted);
      var q :| 0 <= q < |sorted| && sorted[q] == groups[p];
    }
  }

  class MemoryReadyIndex {
    var entries: Index

    constructor ()
      ensures entries == map[] && Keyed(entries)
    {
      entries := map[];
    }

    method Register(entry: Entry) returns (result: Registration)
      requires Keyed(entries)
      modifies this
      ensures (entries, result) == AfterRegister(old(entries), entry) && Keyed(entries)
    {
      var normal := Normalize(entry);
      if !ValidEntry(normal) { return Invalid; }
      if normal.jobID in entries {
        var current := entries[normal.jobID];
        if current.statusVersion > normal.statusVersion { return Outdated; }
        if current.statusVersion == normal.statusVersion && current != normal { return Conflict; }
      }
      entries := entries[normal.jobID := normal];
      result := Registered;
    }

    method Remove(jobID: string, statusVersion: int) returns (valid: bool)
      requires Keyed(entries)
      modifies this
      ensures entries == AfterRemove(old(entries), jobID, statusVersion) && Keyed(entries)
      ensures valid <==> Trim(jobID) != "" && statusVersion > 0
    {
      if Trim(jobID) == "" || statusVersion <= 0 { return false; }
      if jobID in entries && entries[jobID].statusVersion == statusVersion { entries := entries - {jobID}; }
      valid := true;
    }

    method Count(level: ScopeLevel, scope: Scope) returns (count: Option<int>)
      ensures count == if ValidScope(level, scope) then Some(|JobsInScope(entries, level, ScopeKey(level, scope))|) else None
    {
      if !ValidScope(level, scope) { return None; }
      var test := ScopeTest(entries, level, ScopeKey(level, scope));
      var n := CountWhere(entries.Keys, test);
      assert Where(entries.Keys, test) == JobsInScope(entries, level, ScopeKey(level, scope));
      count := Some(n);
    }

    method GroupEntries(at: Time) returns (groups: map<string, seq<Entry>>)
      requires Keyed(entries)
      ensures PartialGroups(entries, ReadyBy(at), {}, groups)
    {
      groups := map[];
      var left := entries.Keys;
      while left != {}
        invariant left <= entries.Keys && PartialGroups(entries, ReadyBy(at), left, groups)
        decreases |left|
      {
        var id :| id in left;
        if entries[id].readyAt <= at {
          AddedEntry(entries, ReadyBy(at), left, groups, id);
          groups := AddEntry(groups, entries[id]);
        } else {
          SkippedEntry(entries, ReadyBy(at), left, groups, id);
        }
        left := left - {id};
      }
    }

    /** One sorted group per principal, in any order. */
    method SortGroups(byKey: map<string, seq<Entry>>, ghost ready: Readiness) returns (groups: seq<Group>)
      requires PartialGroups(entries, ready, {}, byKey)
      ensures SortedGroups(entries, ready, byKey, {}, groups)
    {
      groups := [];
      var left := byKey.Keys;
      while left != {}
        invariant left <= byKey.Keys && SortedGroups(entries, ready, byKey, left, groups)
        decreases |left|
      {
        var key :| key in left;
        OneMoreGroup(entries, ready, byKey, left, groups, key);
        groups := groups + [Group(key, SortBy(EntryBefore, byKey[key]))];
        left := left - {key};
      }
    }

    /** The ready entries, round robin over the principals. */
    method Candidates(at: Time, limit: int) returns (out: seq<Entry>)
      requires Keyed(entries)
      ensures at == 0 || limit <= 0 ==> out == []
      ensures at != 0 && limit > 0 ==>
                exists groups :: Grouping(entries, ReadyBy(at), groups) && InOrder(groups) && IsRoundRobin(EntriesOf(groups), limit, out)
    {
      if at == 0 || limit <= 0 { return []; }
      var byKey := GroupEntries(at);
      var groups := SortGroups(byKey, ReadyBy(at));
      AllGroups(entries, ReadyBy(at), byKey, groups);
      SortedGrouping(entries, ReadyBy(at), groups);
      out := Interleave(EntriesOf(SortBy(GroupBefore, groups)), limit);
    }
  }

  /** The groups of the keys that are not in `left`, each sorted. */
  ghost predicate SortedGroups(
    index: Index, ready: Readiness, byKey: map<string, seq<Entry>>, left: set<string>, groups: seq<Group>)
  {
    && DistinctKeys(groups)
    && (forall p :: 0 <= p < |groups| ==> GroupFits(index, ready, groups[p]) && Sorted(EntryBefore, groups[p].entries))
    && (forall p :: 0 <= p < |groups| ==> groups[p].key in byKey && groups[p].key !in left)
    && (forall key :: key in byKey && key !in left ==> HasGroup(groups, key))
  }

  lemma {:induction false} OneMoreGroup(
    index: Index, ready: Readiness, byKey: map<string, seq<Entry>>, left: set<string>, groups: seq<Group>, key: string)
    requires PartialGroups(index, ready, {}, byKey) && SortedGroups(index, ready, byKey, left, groups)
    requires key in left && key in byKey
    ensures SortedGroups(index, ready, byKey, left - {key}, groups + [Group(key, SortBy(EntryBefore, byKey[key]))])
  {
    assert PartialGroup(index, ready, {}, key, byKey[key]);
    SortedGroupFits(index, ready, key, byKey[key]);
    AppendedGroup(groups, Group(key, SortBy(EntryBefore, byKey[key])));
  }

  lemma {:induction false} AllGroups(index: Index, ready: Readiness, byKey: map<string, seq<Entry>>, groups: seq<Group>)
    requires PartialGroups(index, ready, {}, byKey) && SortedGroups(index, ready, byKey, {}, groups)
    ensures forall id :: ReadyIn(index, id, ready) ==> HasGroup(groups, PrincipalKey(index[id].scope))
  {}

  lemma AppendedGroup(groups: seq<Group>, group: Group)
    ensures HasGroup(groups + [group], group.key)
    ensures forall key :: HasGroup(groups, key) ==> HasGroup(groups + [group], key)
  {
    var more := groups + [group];
    assert more[|groups|].key == group.key;
    forall key | HasGroup(groups, key) ensures HasGroup(more, key) {
      var p :| 0 <= p < |groups| && groups[p].key == key;
      assert more[p].key == key;
    }
  }
}
