/** The Redis form of the ready index: entries and owners in hashes, and sorted sets derived from them. */
module RedisReadyIndex {
  import opened Text
  import opened JobModel
  import opened Fold
  import opened Sorting
  import opened RoundRobin
  import opened ReadyIndex

  // Sorted sets. A missing key is an empty set.

  type SortedSet = map<string, int>

  function At(sets: map<string, SortedSet>, key: string): SortedSet {
    if key in sets then sets[key] else map[]
  }

  function Added(sets: map<string, SortedSet>, key: string, id: string, score: int): map<string, SortedSet> {
    sets[key := At(sets, key)[id := score]]
  }

  function Dropped(sets: map<string, SortedSet>, key: string, id: string): map<string, SortedSet> {
    sets[key := At(sets, key) - {id}]
  }

  /** The score of the first member. */
  ghost predicate IsHead(set_: SortedSet, score: int) {
    (exists id :: id in set_ && set_[id] == score) && forall id :: id in set_ ==> set_[id] >= score
  }

  method FirstScore(set_: SortedSet) returns (score: int)
    requires set_ != map[]
    ensures IsHead(set_, score)
  {
    var first :| first in set_;
    score := set_[first];
    var left := set_.Keys;
    while left != {}
      invariant left <= set_.Keys && exists id :: id in set_ && set_[id] == score
      invariant forall id :: id in set_ && id !in left ==> set_[id] >= score
      decreases |left|
    {
      var id :| id in left;
      if set_[id] < score { score := set_[id]; }
      left := left - {id};
    }
  }

  // The derived sets, for any owners and scores.

  /** The digests of the three scopes of one job. */
  datatype Owner = Owner(profile: string, tenant: string, principal: string)

  predicate OwnsKey(owner: Owner, key: string) {
    key == owner.profile || key == owner.tenant || key == owner.principal
  }

  type Owners = map<string, Owner>
  type Scores = map<string, int>

  ghost predicate InSet(owners: Owners, key: string, id: string) {
    id in owners && OwnsKey(owners[id], key)
  }

  /** Each scope set holds exactly the jobs of its scope, at their scores. */
  ghost predicate ScopesFit(sets: map<string, SortedSet>, owners: Owners, scores: Scores) {
    && (forall key, id :: id in At(sets, key) <==> InSet(owners, key, id))
    && (forall key, id :: id in At(sets, key) ==> id in scores && At(sets, key)[id] == scores[id])
  }

  ghost predicate HasPrincipal(owners: Owners, principal: string) {
    exists id :: id in owners && owners[id].principal == principal
  }

  /** The principals set holds exactly the principals that have a job, scored by their earliest job. */
  ghost predicate PrincipalsFit(principals: SortedSet, sets: map<string, SortedSet>, owners: Owners) {
    && (forall d :: d in principals <==> HasPrincipal(owners, d))
    && (forall d :: d in principals ==> IsHead(At(sets, d), principals[d]))
  }

  /** No principal key is also the key of another level. */
  ghost predicate Apart(a: Owner, b: Owner) {
    a.principal != b.profile && a.principal != b.tenant
  }

  ghost predicate AllApart(owners: Owners) {
    forall a, b :: a in owners && b in owners ==> Apart(owners[a], owners[b])
  }

  function DropAll(sets: map<string, SortedSet>, owner: Owner, id: string): map<string, SortedSet> {
    Dropped(Dropped(Dropped(sets, owner.profile, id), owner.tenant, id), owner.principal, id)
  }

  function AddAll(sets: map<string, SortedSet>, owner: Owner, id: string, score: int): map<string, SortedSet> {
    Added(Added(Added(sets, owner.profile, id, score), owner.tenant, id, score), owner.principal, id, score)
  }

  lemma AddAllAt(sets: map<string, SortedSet>, owner: Owner, id: string, score: int, key: string)
    ensures At(AddAll(sets, owner, id, score), key)
         == if OwnsKey(owner, key) then At(sets, key)[id := score] else At(sets, key)
  {}

  lemma {:induction false} DroppedEverywhere(sets: map<string, SortedSet>, owners: Owners, scores: Scores, id: string, key: string)
    requires ScopesFit(sets, owners, scores) && id in owners
    ensures At(DropAll(sets, owners[id], id), key) == At(sets, key) - {id}
  {}

  lemma {:induction false} FewerFit(sets: map<string, SortedSet>, fewer: map<string, SortedSet>, owners: Owners, scores: Scores, id: string)
    requires ScopesFit(sets, owners, scores) && forall key :: At(fewer, key) == At(sets, key) - {id}
    ensures ScopesFit(fewer, owners - {id}, scores - {id})
  {}

  lemma {:induction false} DroppedFits(sets: map<string, SortedSet>, owners: Owners, scores: Scores, id: string)
    requires ScopesFit(sets, owners, scores) && id in owners
    ensures ScopesFit(DropAll(sets, owners[id], id), owners - {id}, scores - {id})
    ensures forall key :: At(DropAll(sets, owners[id], id), key) == At(sets, key) - {id}
  {
    forall key ensures At(DropAll(sets, owners[id], id), key) == At(sets, key) - {id} {
      DroppedEverywhere(sets, owners, scores, id, key);
    }
    FewerFit(sets, DropAll(sets, owners[id], id), owners, scores, id);
  }

  lemma {:induction false} AddedFits(
    sets: map<string, SortedSet>, owners: Owners, scores: Scores, id: string, owner: Owner, score: int)
    requires ScopesFit(sets, owners, scores) && id !in owners
    ensures ScopesFit(AddAll(sets, owner, id, score), owners[id := owner], scores[id := score])
  {
    var sets' := AddAll(sets, owner, id, score);
    forall key, other ensures other in At(sets', key) <==> InSet(owners[id := owner], key, other) {
      AddAllAt(sets, owner, id, score, key);
      assert other in At(sets, key) <==> InSet(owners, key, other);
    }
    forall key, other | other in At(sets', key)
      ensures other in scores[id := score] && At(sets', key)[other] == scores[id := score][other]
    {
      AddAllAt(sets, owner, id, score, key);
      if other != id { assert other in At(sets, key); }
    }
  }

  /** A refreshed principal, when only its own set changed. */
  lemma {:induction false} RefreshedFits(
    principals: SortedSet, sets: map<string, SortedSet>, owners: Owners,
    sets': map<string, SortedSet>, owners': Owners, d: string, principals': SortedSet)
    requires PrincipalsFit(principals, sets, owners)
    requires forall e :: e != d && HasPrincipal(owners, e) ==> At(sets', e) == At(sets, e)
    requires forall e :: e != d ==> (HasPrincipal(owners', e) <==> HasPrincipal(owners, e))
    requires HasPrincipal(owners', d) <==> At(sets', d) != map[]
    requires if At(sets', d) == map[] then principals' == principals - {d}
             else d in principals' && IsHead(At(sets', d), principals'[d]) && principals' == principals[d := principals'[d]]
    ensures PrincipalsFit(principals', sets', owners')
  {}

  /** The set of a principal holds that principal's jobs and no others. */
  lemma {:induction false} PrincipalSet(sets: map<string, SortedSet>, owners: Owners, scores: Scores, d: string)
    requires ScopesFit(sets, owners, scores) && AllApart(owners)
    ensures HasPrincipal(owners, d) ==> forall id :: id in At(sets, d) <==> id in owners && owners[id].principal == d
    ensures HasPrincipal(owners, d) ==> At(sets, d) != map[]
  {}

  ghost predicate DerivedFits(sets: map<string, SortedSet>, principals: SortedSet, owners: Owners, scores: Scores) {
    ScopesFit(sets, owners, scores) && PrincipalsFit(principals, sets, owners) && AllApart(owners)
  }

  /** What the script's refresh leaves in the principals set. */
  ghost predicate Refreshed(principals: SortedSet, sets: map<string, SortedSet>, d: string, principals': SortedSet) {
    if At(sets, d) == map[] then principals' == principals - {d}
    else d in principals' && IsHead(At(sets, d), principals'[d]) && principals' == principals[d := principals'[d]]
  }

  lemma {:induction false} DropKeepsOthers(sets: map<string, SortedSet>, owners: Owners, scores: Scores, id: string, e: string)
    requires ScopesFit(sets, owners, scores) && AllApart(owners) && id in owners
    ensures e != owners[id].principal && HasPrincipal(owners, e) ==> At(DropAll(sets, owners[id], id), e) == At(sets, e)
    ensures e != owners[id].principal ==> (HasPrincipal(owners - {id}, e) <==> HasPrincipal(owners, e))
  {
    DroppedFits(sets, owners, scores, id);
    PrincipalSet(sets, owners, scores, e);
    if e != owners[id].principal && HasPrincipal(owners, e) {
      var mine :| mine in owners && owners[mine].principal == e;
      assert mine in owners - {id};
    }
  }

  lemma {:induction false} DropLeavesOwn(sets: map<string, SortedSet>, owners: Owners, scores: Scores, id: string)
    requires ScopesFit(sets, owners, scores) && AllApart(owners) && id in owners
    ensures var d := owners[id].principal;
            HasPrincipal(owners - {id}, d) <==> At(DropAll(sets, owners[id], id), d) != map[]
  {
    var d := owners[id].principal;
    DroppedFits(sets, owners, scores, id);
    PrincipalSet(sets, owners, scores, d);
    assert HasPrincipal(owners, d);
    var rest := At(DropAll(sets, owners[id], id), d);
    if rest != map[] {
      var other :| other in rest;
      assert other in owners - {id} && (owners - {id})[other].principal == d;
    }
    if HasPrincipal(owners - {id}, d) {
      var other :| other in owners - {id} && (owners - {id})[other].principal == d;
      assert other in rest;
    }
  }

  lemma {:induction false} DropKeepsDerived(
    sets: map<string, SortedSet>, principals: SortedSet, owners: Owners, scores: Scores, id: string, principals': SortedSet)
    requires DerivedFits(sets, principals, owners, scores) && id in owners
    requires Refreshed(principals, DropAll(sets, owners[id], id), owners[id].principal, principals')
    ensures DerivedFits(DropAll(sets, owners[id], id), principals', owners - {id}, scores - {id})
  {
    DroppedFits(sets, owners, scores, id);
    DropLeavesOwn(sets, owners, scores, id);
    forall e | e != owners[id].principal
      ensures HasPrincipal(owners, e) ==> At(DropAll(sets, owners[id], id), e) == At(sets, e)
      ensures HasPrincipal(owners - {id}, e) <==> HasPrincipal(owners, e)
    {
      DropKeepsOthers(sets, owners, scores, id, e);
    }
    RefreshedFits(principals, sets, owners, DropAll(sets, owners[id], id), owners - {id}, owners[id].principal, principals');
  }

  lemma {:induction false} AddKeepsOthers(
    sets: map<string, SortedSet>, owners: Owners, id: string, owner: Owner, score: int, e: string)
    requires id !in owners && AllApart(owners[id := owner])
    ensures e != owner.principal && HasPrincipal(owners, e) ==> At(AddAll(sets, owner, id, score), e) == At(sets, e)
    ensures e != owner.principal ==> (HasPrincipal(owners[id := owner], e) <==> HasPrincipal(owners, e))
  {
    AddAllAt(sets, owner, id, score, e);
    var more := owners[id := owner];
    if e != owner.principal && HasPrincipal(owners, e) {
      var mine :| mine in owners && owners[mine].principal == e;
      assert Apart(more[mine], more[id]) && more[mine].principal == e;
    }
  }

  lemma {:induction false} AddKeepsDerived(
    sets: map<string, SortedSet>, principals: SortedSet, owners: Owners, scores: Scores,
    id: string, owner: Owner, score: int, principals': SortedSet)
    requires DerivedFits(sets, principals, owners, scores) && id !in owners && AllApart(owners[id := owner])
    requires Refreshed(principals, AddAll(sets, owner, id, score), owner.principal, principals')
    ensures DerivedFits(AddAll(sets, owner, id, score), principals', owners[id := owner], scores[id := score])
  {
    AddedFits(sets, owners, scores, id, owner, score);
    AddAllAt(sets, owner, id, score, owner.principal);
    assert id in owners[id := owner] && owners[id := owner][id].principal == owner.principal;
    assert id in At(AddAll(sets, owner, id, score), owner.principal);
    forall e | e != owner.principal
      ensures HasPrincipal(owners, e) ==> At(AddAll(sets, owner, id, score), e) == At(sets, e)
      ensures HasPrincipal(owners[id := owner], e) <==> HasPrincipal(owners, e)
    {
      AddKeepsOthers(sets, owners, id, owner, score, e);
    }
    RefreshedFits(principals, sets, owners, AddAll(sets, owner, id, score), owners[id := owner], owner.principal, principals');
  }

  // The index.

  const MILLISECOND: Time := 1_000_000

  /** The hash behind the digests of scope keys. */
  type Hash = string -> string

  ghost predicate Injective(hash: Hash) {
    forall a, b :: hash(a) == hash(b) ==> a == b
  }

  function OwnerOf(hash: Hash, e: Entry): Owner {
    Owner(hash(ProfileKey(e.scope)), hash(TenantKey(e.scope)), hash(PrincipalKey(e.scope)))
  }

  function OwnerBy(hash: Hash): Entry -> Owner {
    (e: Entry) => OwnerOf(hash, e)
  }

  function Score(e: Entry): int {
    e.readyAt / MILLISECOND
  }

  function Projected<T>(index: Index, f: Entry -> T): map<string, T> {
    map id | id in index :: f(index[id])
  }

  lemma ProjectionShrinks<T>(index: Index, f: Entry -> T, id: string)
    ensures Projected(index - {id}, f) == Projected(index, f) - {id}
  {}

  lemma ProjectionGrows<T>(index: Index, f: Entry -> T, id: string, e: Entry)
    ensures Projected(index[id := e], f) == Projected(index, f)[id := f(e)]
  {}

  /** No column of any entry holds the separator. */
  ghost predicate AllSeparable(index: Index) {
    forall id :: id in index ==> Separable(index[id].scope)
  }

  lemma {:induction false} LevelsDiffer(a: Scope, b: Scope)
    requires Separable(a) && Separable(b)
    ensures ProfileKey(a) != TenantKey(b) && TenantKey(a) != PrincipalKey(b) && ProfileKey(a) != PrincipalKey(b)
  {
    var tenantA, tenantB, restB := Trim(a.tenantID), Trim(b.tenantID), AfterTenant(b);
    Regroup(ProfileKey(b), tenantB, restB);
    HasSeparator(ProfileKey(b), tenantB);
    HasSeparator(ProfileKey(b), tenantB + SEPARATOR + restB);
    if TenantKey(a) == PrincipalKey(b) {
      SplitUnique(ProfileKey(a), tenantA, ProfileKey(b), tenantB + SEPARATOR + restB);
      HasSeparator(tenantB, restB);
      assert false;
    }
  }

  lemma HasSeparator(a: string, b: string)
    ensures !NulFree(a + SEPARATOR + b)
  {
    assert (a + SEPARATOR + b)[|a|] == '\0';
  }

  lemma {:induction false} SeparableIsApart(hash: Hash, index: Index)
    requires AllSeparable(index) && Injective(hash)
    ensures AllApart(Projected(index, OwnerBy(hash)))
  {
    var owners := Projected(index, OwnerBy(hash));
    forall a, b | a in owners && b in owners ensures Apart(owners[a], owners[b]) {
      LevelsDiffer(index[a].scope, index[b].scope);
      LevelsDiffer(index[b].scope, index[a].scope);
    }
  }

  /** The sets of the scopes hold the entries, for any way to find owners and scores. */
  ghost predicate ScopesReflect(
    index: Index, owners: Owners, all: SortedSet, scopes: map<string, SortedSet>, ownerOf: Entry -> Owner, scoreOf: Entry -> int)
  {
    Keyed(index) && owners == Projected(index, ownerOf) && all == Projected(index, scoreOf) && ScopesFit(scopes, owners, all)
  }

  /** All derived sets are right. */
  ghost predicate Reflects(
    index: Index, owners: Owners, all: SortedSet, scopes: map<string, SortedSet>, principals: SortedSet,
    ownerOf: Entry -> Owner, scoreOf: Entry -> int)
  {
    && ScopesReflect(index, owners, all, scopes, ownerOf, scoreOf)
    && PrincipalsFit(principals, scopes, owners) && AllApart(owners)
  }

  lemma {:induction false} OwnedAtOneLevel(hash: Hash, e: Entry, level: ScopeLevel, scope: Scope)
    requires level != AllScopes && Separable(e.scope) && Separable(scope) && Injective(hash)
    ensures OwnsKey(OwnerOf(hash, e), hash(ScopeKey(level, scope))) <==> ScopeKey(level, e.scope) == ScopeKey(level, scope)
  {
    LevelsDiffer(e.scope, scope);
    LevelsDiffer(scope, e.scope);
  }

  lemma SameMembers(set_: SortedSet, ids: set<string>)
    requires forall id :: id in set_ <==> id in ids
    ensures |set_| == |ids|
  {
    assert set_.Keys == ids;
    assert |set_| == |set_.Keys|;
  }

  /** The jobs behind a count: those that have the key at any level. */
  ghost function Counted(hash: Hash, index: Index, level: ScopeLevel, key: string): set<string> {
    set id | id in index && (level == AllScopes || OwnsKey(OwnerOf(hash, index[id]), hash(key)))
  }

  lemma {:induction false} SetsCount(
    hash: Hash, index: Index, owners: Owners, all: SortedSet, scopes: map<string, SortedSet>, level: ScopeLevel, key: string)
    requires ScopesReflect(index, owners, all, scopes, OwnerBy(hash), Score)
    ensures (if level == AllScopes then |all| else |At(scopes, hash(key))|) == |Counted(hash, index, level, key)|
  {
    if level == AllScopes {
      SameMembers(all, Counted(hash, index, level, key));
    } else {
      forall id ensures id in At(scopes, hash(key)) <==> id in Counted(hash, index, level, key) {
        assert id in At(scopes, hash(key)) <==> InSet(owners, hash(key), id);
      }
      SameMembers(At(scopes, hash(key)), Counted(hash, index, level, key));
    }
  }

  /** The Redis count is the memory count exactly when no job has the key at another level only. */
  lemma {:induction false} CountsAgree(hash: Hash, index: Index, level: ScopeLevel, scope: Scope)
    requires Injective(hash)
    ensures var key := ScopeKey(level, scope);
            |Counted(hash, index, level, key)| == |JobsInScope(index, level, key)|
            <==> forall id :: id in index && level != AllScopes && OwnsKey(OwnerOf(hash, index[id]), hash(key)) ==>
                   ScopeKey(level, index[id].scope) == key
  {
    var key := ScopeKey(level, scope);
    var some, more := JobsInScope(index, level, key), Counted(hash, index, level, key);
    forall id | id in some ensures id in more { if level != AllScopes { ScopeIsOwned(hash, index[id], level, key); } }
    SubsetSize(some, more);
    if |some| == |more| {
      forall id | id in index && level != AllScopes && OwnsKey(OwnerOf(hash, index[id]), hash(key))
        ensures ScopeKey(level, index[id].scope) == key
      {
        assert id in more;
      }
    }
    if forall id :: id in index && level != AllScopes && OwnsKey(OwnerOf(hash, index[id]), hash(key)) ==>
         ScopeKey(level, index[id].scope) == key
    {
      assert some == more;
    }
  }

  lemma ScopeIsOwned(hash: Hash, e: Entry, level: ScopeLevel, key: string)
    requires level != AllScopes && ScopeKey(level, e.scope) == key
    ensures OwnsKey(OwnerOf(hash, e), hash(key))
  {}

  lemma SubsetSize<T>(some: set<T>, more: set<T>)
    requires some <= more
    ensures |some| == |more| <==> some == more
  {
    assert more == some + (more - some);
  }

  /** So they agree for columns without the separator. */
  lemma {:induction false} SeparableCountsAgree(hash: Hash, index: Index, level: ScopeLevel, scope: Scope)
    requires Injective(hash) && AllSeparable(index) && Separable(scope)
    ensures |Counted(hash, index, level, ScopeKey(level, scope))| == |JobsInScope(index, level, ScopeKey(level, scope))|
  {
    forall id | id in index && level != AllScopes && OwnsKey(OwnerOf(hash, index[id]), hash(ScopeKey(level, scope)))
      ensures ScopeKey(level, index[id].scope) == ScopeKey(level, scope)
    {
      OwnedAtOneLevel(hash, index[id], level, scope);
    }
    CountsAgree(hash, index, level, scope);
  }

  /** A new entry with its owner and score fits the sets of the other entries. */
  lemma {:induction false} AttachedScopes(
    others: Index, entry: Entry, owners: Owners, all: SortedSet, before: map<string, SortedSet>,
    ownerOf: Entry -> Owner, scoreOf: Entry -> int)
    requires ScopesReflect(others, owners, all, before, ownerOf, scoreOf) && entry.jobID !in others
    ensures ScopesReflect(others[entry.jobID := entry], owners[entry.jobID := ownerOf(entry)], all[entry.jobID := scoreOf(entry)],
                          AddAll(before, ownerOf(entry), entry.jobID, scoreOf(entry)), ownerOf, scoreOf)
  {
    ProjectionGrows(others, ownerOf, entry.jobID, entry);
    ProjectionGrows(others, scoreOf, entry.jobID, entry);
    AddedFits(before, owners, all, entry.jobID, ownerOf(entry), scoreOf(entry));
  }

  lemma {:induction false} AttachedReflects(
    others: Index, entry: Entry, owners: Owners, all: SortedSet, before: map<string, SortedSet>, principals: SortedSet,
    principals': SortedSet, ownerOf: Entry -> Owner, scoreOf: Entry -> int)
    requires Reflects(others, owners, all, before, principals, ownerOf, scoreOf) && entry.jobID !in others
    requires AllApart(owners[entry.jobID := ownerOf(entry)])
    requires Refreshed(principals, AddAll(before, ownerOf(entry), entry.jobID, scoreOf(entry)), ownerOf(entry).principal, principals')
    ensures Reflects(others[entry.jobID := entry], owners[entry.jobID := ownerOf(entry)], all[entry.jobID := scoreOf(entry)],
                     AddAll(before, ownerOf(entry), entry.jobID, scoreOf(entry)), principals', ownerOf, scoreOf)
  {
    AttachedScopes(others, entry, owners, all, before, ownerOf, scoreOf);
    AddKeepsDerived(before, principals, owners, all, entry.jobID, ownerOf(entry), scoreOf(entry), principals');
  }

  /** Taking an entry out of the sets leaves them fit for the other entries. */
  lemma {:induction false} DetachedScopes(
    index: Index, id: string, owners: Owners, all: SortedSet, before: map<string, SortedSet>,
    ownerOf: Entry -> Owner, scoreOf: Entry -> int)
    requires ScopesReflect(index, owners, all, before, ownerOf, scoreOf) && id in index
    ensures ScopesReflect(index - {id}, owners - {id}, all - {id}, DropAll(before, owners[id], id), ownerOf, scoreOf)
  {
    ProjectionShrinks(index, ownerOf, id);
    ProjectionShrinks(index, scoreOf, id);
    DroppedFits(before, owners, all, id);
  }

  lemma {:induction false} DetachedReflects(
    index: Index, id: string, owners: Owners, all: SortedSet, before: map<string, SortedSet>, principals: SortedSet,
    principals': SortedSet, ownerOf: Entry -> Owner, scoreOf: Entry -> int)
    requires Reflects(index, owners, all, before, principals, ownerOf, scoreOf) && id in index
    requires Refreshed(principals, DropAll(before, owners[id], id), owners[id].principal, principals')
    ensures Reflects(index - {id}, owners - {id}, all - {id}, DropAll(before, owners[id], id), principals', ownerOf, scoreOf)
  {
    DetachedScopes(index, id, owners, all, before, ownerOf, scoreOf);
    DropKeepsDerived(before, principals, owners, all, id, principals');
  }

  lemma {:induction false} StaysApart(hash: Hash, index: Index, owners: Owners, entry: Entry)
    requires AllSeparable(index) && Separable(entry.scope) && owners == Projected(index, OwnerBy(hash)) && Injective(hash)
    ensures AllApart(owners[entry.jobID := OwnerOf(hash, entry)]) && AllSeparable(index[entry.jobID := entry])
  {
    ProjectionGrows(index, OwnerBy(hash), entry.jobID, entry);
    SeparableIsApart(hash, index[entry.jobID := entry]);
  }

  lemma ReplacedMaps(index: Index, owners: Owners, all: SortedSet, id: string, entry: Entry, owner: Owner, score: int)
    requires owners.Keys == index.Keys && all.Keys == index.Keys
    ensures (index - {id})[id := entry] == index[id := entry]
    ensures (owners - {id})[id := owner] == owners[id := owner] && (all - {id})[id := score] == all[id := score]
    ensures id !in index ==> index - {id} == index && owners - {id} == owners && all - {id} == all
  {}

  /** What is stored decodes to itself: no read of a candidate drops it. */
  ghost predicate AllUsable(index: Index) {
    forall id :: id in index ==> ValidEntry(index[id]) && Normalize(index[id]) == index[id]
  }

  lemma UsableOnceMore(index: Index, given: Entry)
    requires AllUsable(index) && ValidEntry(Normalize(given))
    ensures AllUsable(index[Normalize(given).jobID := Normalize(given)])
  {}

  // Candidates: ranges of sorted sets, interleaved.

  function ScoredBy(score: int): Readiness { (e: Entry) => Score(e) <= score }

  /** An entry is seen by Redis from the millisecond of its readiness on: up to one millisecond early. */
  lemma RedisSeesWholeMilliseconds(e: Entry, at: Time)
    ensures ScoredBy(at / MILLISECOND)(e) <==> ReadyBy(at)(e) || e.readyAt / MILLISECOND == at / MILLISECOND
  {}

  function ScoreIn(set_: SortedSet, member: string): int {
    if member in set_ then set_[member] else 0
  }

  predicate Precedes(score: int, other: int, member: string, another: string) {
    if score != other then score < other else Less(member, another)
  }

  /** The order of a sorted set: by score, then by member. */
  function MemberBefore(set_: SortedSet): (string, string) -> bool {
    (a: string, b: string) => Precedes(ScoreIn(set_, a), ScoreIn(set_, b), a, b)
  }

  lemma {:induction false} MembersAreOrdered(set_: SortedSet)
    ensures Orders(MemberBefore(set_))
  {
    var before := MemberBefore(set_);
    forall a, b | before(a, b) ensures !before(b, a) {
      if Less(a, b) { LessIsWeak(a, a, b); }
    }
    forall a, b, c | before(a, c) ensures before(a, b) || before(b, c) {
      if Less(a, c) { LessIsWeak(a, b, c); }
    }
  }

  ghost predicate HasMembers(set_: SortedSet, most: int, members: seq<string>) {
    Distinct(members) && forall member :: member in members <==> member in set_ && set_[member] <= most
  }

  /** All members with a score up to `most`, in order. */
  ghost predicate InRange(set_: SortedSet, most: int, members: seq<string>) {
    HasMembers(set_, most, members) && Sorted(MemberBefore(set_), members)
  }

  lemma {:induction false} SortedInRange(set_: SortedSet, most: int, members: seq<string>)
    requires HasMembers(set_, most, members)
    ensures InRange(set_, most, SortBy(MemberBefore(set_), members))
  {
    var sorted := SortBy(MemberBefore(set_), members);
    MembersAreOrdered(set_);
    SortBySorts(MemberBefore(set_), members);
    PermutedDistinct(members, sorted);
    forall member ensures member in sorted <==> member in members {
      assert member in multiset(sorted) <==> member in multiset(members);
    }
  }

  lemma {:induction false} RangeExists(set_: SortedSet, most: int) returns (members: seq<string>)
    ensures InRange(set_, most, members)
  {
    var list := ListOf(set member | member in set_ && set_[member] <= most);
    SortedInRange(set_, most, list);
    members := SortBy(MemberBefore(set_), list);
  }

  ghost function ListOf(left: set<string>): (list: seq<string>)
    ensures Distinct(list) && forall member :: member in list <==> member in left
  {
    if left == {} then [] else var one :| one in left; ListOf(left - {one}) + [one]
  }

  /** ZRANGEBYSCORE from minus infinity, with a limit. */
  method RangeByScore(set_: SortedSet, most: int, limit: nat) returns (members: seq<string>, ghost all: seq<string>)
    ensures InRange(set_, most, all) && members == First(all, limit)
  {
    var list: seq<string> := [];
    var left := set_.Keys;
    while left != {}
      invariant left <= set_.Keys && Distinct(list)
      invariant forall member :: member in list <==> member in set_ && set_[member] <= most && member !in left
      decreases |left|
    {
      var member :| member in left;
      if set_[member] <= most { list := list + [member]; }
      left := left - {member};
    }
    SortedInRange(set_, most, list);
    all := SortBy(MemberBefore(set_), list);
    members := First(SortBy(MemberBefore(set_), list), limit);
  }

  function Payloads(index: Index, ids: seq<string>): (list: seq<Entry>)
    requires forall id :: id in ids ==> id in index
    ensures |list| == |ids| && forall i :: 0 <= i < |ids| ==> list[i] == index[ids[i]]
  {
    seq(|ids|, i requires 0 <= i < |ids| => index[ids[i]])
  }

  function BeforeBy(scoreOf: Entry -> int): (Entry, Entry) -> bool {
    (a: Entry, b: Entry) => Precedes(scoreOf(a), scoreOf(b), a.jobID, b.jobID)
  }

  function HeadBeforeBy(scoreOf: Entry -> int): (Group, Group) -> bool {
    (a: Group, b: Group) =>
      a.entries != [] && b.entries != []
      && Precedes(scoreOf(a.entries[0]), scoreOf(b.entries[0]), a.key, b.key)
  }

  /** Inside a group by score and id, and between groups by first score and key. */
  ghost predicate InScoreOrder(groups: seq<Group>, scoreOf: Entry -> int) {
    && (forall p :: 0 <= p < |groups| ==> Sorted(BeforeBy(scoreOf), groups[p].entries))
    && Sorted(HeadBeforeBy(scoreOf), groups)
  }

  /** One group: the entries of one principal with a score up to `most`. */
  ghost predicate OwnerGroup(index: Index, ownerOf: Entry -> Owner, scoreOf: Entry -> int, most: int, group: Group) {
    && group.entries != [] && Distinct(group.entries)
    && forall e :: e in group.entries <==>
         e.jobID in index && index[e.jobID] == e && scoreOf(e) <= most && ownerOf(e).principal == group.key
  }

  ghost predicate OwnerGrouping(index: Index, ownerOf: Entry -> Owner, scoreOf: Entry -> int, most: int, groups: seq<Group>) {
    && (forall p :: 0 <= p < |groups| ==> OwnerGroup(index, ownerOf, scoreOf, most, groups[p]))
    && (forall p, q :: 0 <= p < q < |groups| ==> groups[p].key != groups[q].key)
    && (forall id :: id in index && scoreOf(index[id]) <= most ==> HasGroup(groups, ownerOf(index[id]).principal))
    && InScoreOrder(groups, scoreOf)
  }

  /** The groups under their principal's key instead of its digest. */
  ghost function Named(groups: seq<Group>): seq<Group>
    requires forall p :: 0 <= p < |groups| ==> groups[p].entries != []
  {
    seq(|groups|, p requires 0 <= p < |groups| => Group(PrincipalKey(groups[p].entries[0].scope), groups[p].entries))
  }

  function HeadBeforeUnder(hash: Hash): (Group, Group) -> bool {
    (a: Group, b: Group) =>
      a.entries != [] && b.entries != []
      && Precedes(Score(a.entries[0]), Score(b.entries[0]), hash(a.key), hash(b.key))
  }

  /** The order in which Redis serves: inside a group by score and id, and between groups by first score and digest. */
  ghost predicate InRedisOrder(hash: Hash, groups: seq<Group>) {
    && (forall p :: 0 <= p < |groups| ==> Sorted(BeforeBy(Score), groups[p].entries))
    && Sorted(HeadBeforeUnder(hash), groups)
  }

  lemma {:induction false} NamedGroup(hash: Hash, index: Index, most: int, group: Group)
    requires Injective(hash) && OwnerGroup(index, OwnerBy(hash), Score, most, group)
    ensures hash(PrincipalKey(group.entries[0].scope)) == group.key
    ensures GroupFits(index, ScoredBy(most), Group(PrincipalKey(group.entries[0].scope), group.entries))
  {
    assert group.entries[0] in group.entries;
  }

  lemma {:induction false} OwnerGroupingIsGrouping(hash: Hash, index: Index, most: int, groups: seq<Group>)
    requires Injective(hash) && OwnerGrouping(index, OwnerBy(hash), Score, most, groups)
    ensures Grouping(index, ScoredBy(most), Named(groups)) && InRedisOrder(hash, Named(groups))
    ensures EntriesOf(Named(groups)) == EntriesOf(groups)
  {
    forall p | 0 <= p < |groups|
      ensures hash(Named(groups)[p].key) == groups[p].key && GroupFits(index, ScoredBy(most), Named(groups)[p])
    {
      NamedGroup(hash, index, most, groups[p]);
    }
  }

  /** `set_` holds the entries of one principal, at their scores. */
  ghost predicate Mirrors(index: Index, set_: SortedSet, ownerOf: Entry -> Owner, scoreOf: Entry -> int, d: string) {
    forall id :: (id in set_ <==> id in index && ownerOf(index[id]).principal == d)
                 && (id in set_ ==> set_[id] == scoreOf(index[id]))
  }

  lemma {:induction false} PrincipalEntries(
    index: Index, owners: Owners, all: SortedSet, scopes: map<string, SortedSet>, principals: SortedSet,
    ownerOf: Entry -> Owner, scoreOf: Entry -> int, d: string)
    requires Reflects(index, owners, all, scopes, principals, ownerOf, scoreOf) && d in principals
    ensures Mirrors(index, At(scopes, d), ownerOf, scoreOf, d) && IsHead(At(scopes, d), principals[d])
  {
    PrincipalSet(scopes, owners, all, d);
  }

  lemma {:induction false} RangeEntries(
    index: Index, set_: SortedSet, ownerOf: Entry -> Owner, scoreOf: Entry -> int, d: string, most: int, ids: seq<string>)
    requires Keyed(index) && Mirrors(index, set_, ownerOf, scoreOf, d) && InRange(set_, most, ids)
    ensures forall id :: id in ids ==> id in index
    ensures var list := Payloads(index, ids);
            && Distinct(list) && Sorted(BeforeBy(scoreOf), list)
            && forall e :: e in list <==>
                 e.jobID in index && index[e.jobID] == e && scoreOf(e) <= most && ownerOf(e).principal == d
  {}

  /** The group of a principal, read from its scope set. */
  lemma {:induction false} RangeGroup(
    index: Index, set_: SortedSet, ownerOf: Entry -> Owner, scoreOf: Entry -> int, d: string, most: int, ids: seq<string>,
    head: int) returns (group: Group)
    requires Keyed(index) && Mirrors(index, set_, ownerOf, scoreOf, d) && InRange(set_, most, ids)
    requires IsHead(set_, head) && head <= most
    ensures forall id :: id in ids ==> id in index
    ensures group == Group(d, Payloads(index, ids)) && OwnerGroup(index, ownerOf, scoreOf, most, group)
    ensures Sorted(BeforeBy(scoreOf), group.entries) && scoreOf(group.entries[0]) == head
  {
    RangeEntries(index, set_, ownerOf, scoreOf, d, most, ids);
    group := Group(d, Payloads(index, ids));
    var first :| first in set_ && set_[first] == head;
    assert first in ids;
    var h :| 0 <= h < |ids| && ids[h] == first;
    assert h > 0 ==> !MemberBefore(set_)(ids[h], ids[0]);
    assert ids[0] in ids;
  }

  ghost predicate GroupOf(
    index: Index, ownerOf: Entry -> Owner, scoreOf: Entry -> int, most: int, principals: SortedSet, d: string, group: Group)
  {
    && group.key == d && d in principals && OwnerGroup(index, ownerOf, scoreOf, most, group)
    && Sorted(BeforeBy(scoreOf), group.entries) && scoreOf(group.entries[0]) == principals[d]
  }

  /** The group of a listed principal, read from its scope set. */
  lemma {:induction false} ListedGroup(
    index: Index, owners: Owners, all: SortedSet, scopes: map<string, SortedSet>, principals: SortedSet,
    ownerOf: Entry -> Owner, scoreOf: Entry -> int, d: string, most: int, ids: seq<string>) returns (group: Group)
    requires Reflects(index, owners, all, scopes, principals, ownerOf, scoreOf) && d in principals && principals[d] <= most
    requires InRange(At(scopes, d), most, ids)
    ensures forall id :: id in ids ==> id in index
    ensures group.entries == Payloads(index, ids) && GroupOf(index, ownerOf, scoreOf, most, principals, d, group)
  {
    PrincipalEntries(index, owners, all, scopes, principals, ownerOf, scoreOf, d);
    group := RangeGroup(index, At(scopes, d), ownerOf, scoreOf, d, most, ids, principals[d]);
  }

  lemma ListedPrincipal(principals: SortedSet, most: int, every: seq<string>, n: nat)
    requires InRange(principals, most, every) && n < |every|
    ensures every[n] in principals && principals[every[n]] <= most
  {}

  lemma GroupsOneMore(
    index: Index, ownerOf: Entry -> Owner, scoreOf: Entry -> int, most: int, principals: SortedSet,
    every: seq<string>, n: nat, groups: seq<Group>, group: Group)
    requires GroupsOf(index, ownerOf, scoreOf, most, principals, every, n, groups) && n < |every|
    requires GroupOf(index, ownerOf, scoreOf, most, principals, every[n], group)
    ensures GroupsOf(index, ownerOf, scoreOf, most, principals, every, n + 1, groups + [group])
  {}

  /** The groups of the first `n` principals. */
  ghost predicate GroupsOf(
    index: Index, ownerOf: Entry -> Owner, scoreOf: Entry -> int, most: int, principals: SortedSet,
    every: seq<string>, n: nat, groups: seq<Group>)
  {
    && |groups| == n <= |every|
    && forall p :: 0 <= p < n ==> GroupOf(index, ownerOf, scoreOf, most, principals, every[p], groups[p])
  }

  /** The groups past the limit, which the script never reads. */
  lemma {:induction false} OtherGroups(
    index: Index, owners: Owners, all: SortedSet, scopes: map<string, SortedSet>, principals: SortedSet,
    ownerOf: Entry -> Owner, scoreOf: Entry -> int, most: int, every: seq<string>, n: nat, groups: seq<Group>)
    returns (more: seq<Group>)
    requires Reflects(index, owners, all, scopes, principals, ownerOf, scoreOf) && InRange(principals, most, every)
    requires GroupsOf(index, ownerOf, scoreOf, most, principals, every, n, groups)
    ensures GroupsOf(index, ownerOf, scoreOf, most, principals, every, |every|, more) && groups <= more
    decreases |every| - n
  {
    if n == |every| {
      more := groups;
    } else {
      ListedPrincipal(principals, most, every, n);
      var ids := RangeExists(At(scopes, every[n]), most);
      var group := ListedGroup(index, owners, all, scopes, principals, ownerOf, scoreOf, every[n], most, ids);
      GroupsOneMore(index, ownerOf, scoreOf, most, principals, every, n, groups, group);
      more := OtherGroups(index, owners, all, scopes, principals, ownerOf, scoreOf, most, every, n + 1, groups + [group]);
    }
  }

  lemma {:induction false} GroupsAreGrouping(
    index: Index, owners: Owners, all: SortedSet, scopes: map<string, SortedSet>, principals: SortedSet,
    ownerOf: Entry -> Owner, scoreOf: Entry -> int, most: int, every: seq<string>, groups: seq<Group>)
    requires Reflects(index, owners, all, scopes, principals, ownerOf, scoreOf) && InRange(principals, most, every)
    requires GroupsOf(index, ownerOf, scoreOf, most, principals, every, |every|, groups)
    ensures OwnerGrouping(index, ownerOf, scoreOf, most, groups)
  {
    forall id | id in index && scoreOf(index[id]) <= most ensures HasGroup(groups, ownerOf(index[id]).principal) {
      var d := ownerOf(index[id]).principal;
      assert id in owners && owners[id].principal == d && HasPrincipal(owners, d);
      PrincipalEntries(index, owners, all, scopes, principals, ownerOf, scoreOf, d);
      assert id in At(scopes, d) && d in every;
      var p :| 0 <= p < |every| && every[p] == d;
      assert GroupOf(index, ownerOf, scoreOf, most, principals, every[p], groups[p]);
    }
    GroupsAreOrdered(index, ownerOf, scoreOf, most, principals, every, groups);
  }

  lemma {:induction false} GroupsAreOrdered(
    index: Index, ownerOf: Entry -> Owner, scoreOf: Entry -> int, most: int, principals: SortedSet,
    every: seq<string>, groups: seq<Group>)
    requires InRange(principals, most, every) && GroupsOf(index, ownerOf, scoreOf, most, principals, every, |every|, groups)
    ensures InScoreOrder(groups, scoreOf) && forall p, q :: 0 <= p < q < |groups| ==> groups[p].key != groups[q].key
  {}

  lemma CutPayloads(index: Index, whole: seq<string>, ids: seq<string>, limit: nat)
    requires ids == First(whole, limit) && forall id :: id in whole ==> id in index
    ensures forall id :: id in ids ==> id in index
    ensures Payloads(index, ids) == First(Payloads(index, whole), limit)
  {}

  lemma {:induction false} ListedMembers(
    index: Index, owners: Owners, all: SortedSet, scopes: map<string, SortedSet>, principals: SortedSet,
    ownerOf: Entry -> Owner, scoreOf: Entry -> int, most: int, every: seq<string>, digests: seq<string>)
    requires Reflects(index, owners, all, scopes, principals, ownerOf, scoreOf) && InRange(principals, most, every)
    requires digests <= every
    ensures forall d, id :: d in digests && id in At(scopes, d) ==> id in index
  {}

  lemma {:induction false} ReadGroup(
    index: Index, owners: Owners, all: SortedSet, scopes: map<string, SortedSet>, principals: SortedSet,
    ownerOf: Entry -> Owner, scoreOf: Entry -> int, most: int, limit: nat, d: string, whole: seq<string>, read: seq<Entry>)
    returns (group: Group)
    requires Reflects(index, owners, all, scopes, principals, ownerOf, scoreOf) && d in principals && principals[d] <= most
    requires RangeRead(index, At(scopes, d), most, limit, whole, read)
    ensures GroupOf(index, ownerOf, scoreOf, most, principals, d, group) && read == First(group.entries, limit)
  {
    group := ListedGroup(index, owners, all, scopes, principals, ownerOf, scoreOf, d, most, whole);
    CutPayloads(index, whole, First(whole, limit), limit);
  }

  /** Reading only the first principals and their first jobs loses nothing. */
  lemma {:induction false} WholeGrouping(
    index: Index, owners: Owners, all: SortedSet, scopes: map<string, SortedSet>, principals: SortedSet,
    ownerOf: Entry -> Owner, scoreOf: Entry -> int, most: int, limit: nat, every: seq<string>,
    read: seq<Group>, cut: seq<seq<Entry>>, out: seq<Entry>)
    returns (groups: seq<Group>)
    requires Reflects(index, owners, all, scopes, principals, ownerOf, scoreOf) && InRange(principals, most, every)
    requires GroupsOf(index, ownerOf, scoreOf, most, principals, every, |First(every, limit)|, read) && limit > 0
    requires |cut| == |read| && forall p :: 0 <= p < |cut| ==> cut[p] == First(read[p].entries, limit)
    requires IsRoundRobin(cut, limit, out)
    ensures OwnerGrouping(index, ownerOf, scoreOf, most, groups) && IsRoundRobin(EntriesOf(groups), limit, out)
  {
    groups := OtherGroups(index, owners, all, scopes, principals, ownerOf, scoreOf, most, every, |read|, read);
    GroupsAreGrouping(index, owners, all, scopes, principals, ownerOf, scoreOf, most, every, groups);
    CutGroups(index, ownerOf, scoreOf, most, groups, read, cut, limit);
    CuttingLosesNothing(EntriesOf(groups), cut, limit, out);
  }

  lemma {:induction false} CutGroups(
    index: Index, ownerOf: Entry -> Owner, scoreOf: Entry -> int, most: int, groups: seq<Group>,
    read: seq<Group>, cut: seq<seq<Entry>>, limit: nat)
    requires OwnerGrouping(index, ownerOf, scoreOf, most, groups) && read <= groups
    requires |read| == (if limit < |groups| then limit else |groups|)
    requires |cut| == |read| && forall p :: 0 <= p < |cut| ==> cut[p] == First(read[p].entries, limit)
    ensures Cut(EntriesOf(groups), cut, limit) && forall p :: 0 <= p < |groups| ==> EntriesOf(groups)[p] != []
  {}

  /** Refreshing a principal whose head is right changes nothing. */
  lemma RefreshIsIdle(principals: SortedSet, scopes: map<string, SortedSet>, d: string, principals': SortedSet)
    requires d in principals && IsHead(At(scopes, d), principals[d]) && Refreshed(principals, scopes, d, principals')
    ensures principals' == principals
  {}

  class RedisReadyIndex {
    var entries: Index
    var owners: Owners
    var all: SortedSet
    var scopes: map<string, SortedSet>
    var principals: SortedSet
    const hash: Hash

    /** The entries and their scope sets, whatever the columns hold. */
    ghost predicate Valid()
      reads this
    {
      AllUsable(entries) && ScopesReflect(entries, owners, all, scopes, OwnerBy(hash), Score)
    }

    /** The principals set too: as long as no column held the separator. */
    ghost predicate Ranked()
      reads this
    {
      Injective(hash) && AllSeparable(entries) && Reflects(entries, owners, all, scopes, principals, OwnerBy(hash), Score)
    }

    constructor (hash: Hash)
      ensures Valid() && entries == map[] && this.hash == hash && (Injective(hash) ==> Ranked())
    {
      this.hash := hash;
      entries, owners, all, scopes, principals := map[], map[], map[], map[], map[];
    }

    method RefreshPrincipal(d: string)
      modifies `principals
      ensures Refreshed(old(principals), scopes, d, principals)
    {
      if At(scopes, d) == map[] {
        principals := principals - {d};
      } else {
        var head := FirstScore(At(scopes, d));
        principals := principals[d := head];
      }
    }

    /** Both scripts take a job out of the sets that its owner record names. */
    method Detach(id: string)
      requires id in owners
      modifies `all, `scopes, `principals
      ensures all == old(all) - {id} && scopes == DropAll(old(scopes), owners[id], id)
      ensures Refreshed(old(principals), scopes, owners[id].principal, principals)
    {
      var owner := owners[id];
      all := all - {id};
      scopes := Dropped(scopes, owner.profile, id);
      scopes := Dropped(scopes, owner.tenant, id);
      scopes := Dropped(scopes, owner.principal, id);
      RefreshPrincipal(owner.principal);
    }

    method Attach(entry: Entry, owner: Owner, score: int)
      modifies this
      ensures entries == old(entries)[entry.jobID := entry] && owners == old(owners)[entry.jobID := owner]
      ensures all == old(all)[entry.jobID := score] && scopes == AddAll(old(scopes), owner, entry.jobID, score)
      ensures Refreshed(old(principals), scopes, owner.principal, principals)
    {
      var id := entry.jobID;
      entries := entries[id := entry];
      owners := owners[id := owner];
      all := all[id := score];
      scopes := Added(scopes, owner.profile, id, score);
      scopes := Added(scopes, owner.tenant, id, score);
      scopes := Added(scopes, owner.principal, id, score);
      RefreshPrincipal(owner.principal);
    }

    /** The register script. */
    method Register(given: Entry) returns (result: Registration)
      requires Valid()
      modifies this
      ensures Valid() && (entries, result) == AfterRegister(old(entries), given)
      ensures old(Ranked()) && Separable(Normalize(given).scope) ==> Ranked()
    {
      var entry := Normalize(given);
      if !ValidEntry(entry) { return Invalid; }
      if entry.jobID in entries {
        if entries[entry.jobID].statusVersion > entry.statusVersion { return Outdated; }
        if entries[entry.jobID].statusVersion == entry.statusVersion && entries[entry.jobID] != entry { return Conflict; }
      }
      if Ranked() && Separable(entry.scope) { StaysApart(hash, entries, owners, entry); }
      UsableOnceMore(entries, given);
      Replace(entry, OwnerBy(hash), Score);
      result := Registered;
    }

    method Replace(entry: Entry, ownerOf: Entry -> Owner, scoreOf: Entry -> int)
      requires ScopesReflect(entries, owners, all, scopes, ownerOf, scoreOf)
      modifies this
      ensures ScopesReflect(entries, owners, all, scopes, ownerOf, scoreOf)
      ensures entries == old(entries)[entry.jobID := entry]
      ensures old(Reflects(entries, owners, all, scopes, principals, ownerOf, scoreOf) && AllApart(owners[entry.jobID := ownerOf(entry)]))
              ==> Reflects(entries, owners, all, scopes, principals, ownerOf, scoreOf)
    {
      var id := entry.jobID;
      ghost var index, before, heads := entries, scopes, principals;
      ghost var whole := Reflects(entries, owners, all, scopes, principals, ownerOf, scoreOf) && AllApart(owners[id := ownerOf(entry)]);
      if id in entries {
        Detach(id);
        DetachedScopes(index, id, owners, old(all), before, ownerOf, scoreOf);
        if whole { DetachedReflects(index, id, owners, old(all), before, heads, principals, ownerOf, scoreOf); }
        before, heads := scopes, principals;
      }
      ReplacedMaps(index, owners, old(all), id, entry, ownerOf(entry), scoreOf(entry));
      ghost var left, scores := owners - {id}, all;
      Attach(entry, ownerOf(entry), scoreOf(entry));
      AttachedScopes(index - {id}, entry, left, scores, before, ownerOf, scoreOf);
      if whole { AttachedReflects(index - {id}, entry, left, scores, before, heads, principals, ownerOf, scoreOf); }
    }

    /** The remove script; it is given the trimmed id. */
    method Remove(jobID: string, statusVersion: int) returns (valid: bool)
      requires Valid()
      modifies this
      ensures Valid() && entries == AfterRemove(old(entries), Trim(jobID), statusVersion)
      ensures valid <==> Trim(jobID) != "" && statusVersion > 0
      ensures old(Ranked()) ==> Ranked()
    {
      if Trim(jobID) == "" || statusVersion <= 0 { return false; }
      valid := true;
      var id := Trim(jobID);
      if id !in entries || entries[id].statusVersion != statusVersion { return; }
      RemoveEntry(id, OwnerBy(hash), Score);
    }

    method RemoveEntry(id: string, ownerOf: Entry -> Owner, scoreOf: Entry -> int)
      requires ScopesReflect(entries, owners, all, scopes, ownerOf, scoreOf) && id in entries
      modifies this
      ensures ScopesReflect(entries, owners, all, scopes, ownerOf, scoreOf)
      ensures entries == old(entries) - {id}
      ensures old(Reflects(entries, owners, all, scopes, principals, ownerOf, scoreOf))
              ==> Reflects(entries, owners, all, scopes, principals, ownerOf, scoreOf)
    {
      ghost var index, left, scores, before, heads := entries, owners, all, scopes, principals;
      Delete(id);
      DetachedScopes(index, id, left, scores, before, ownerOf, scoreOf);
      if Reflects(index, left, scores, before, heads, ownerOf, scoreOf) {
        DetachedReflects(index, id, left, scores, before, heads, principals, ownerOf, scoreOf);
      }
    }

    method Delete(id: string)
      requires id in entries && id in owners
      modifies this
      ensures entries == old(entries) - {id} && owners == old(owners) - {id}
      ensures all == old(all) - {id} && scopes == DropAll(old(scopes), old(owners)[id], id)
      ensures Refreshed(old(principals), scopes, old(owners)[id].principal, principals)
    {
      Detach(id);
      entries := entries - {id};
      owners := owners - {id};
    }

    method Count(level: ScopeLevel, scope: Scope) returns (count: Option<int>)
      requires Valid()
      ensures count == if ValidScope(level, scope) then Some(|Counted(hash, entries, level, ScopeKey(level, scope))|) else None
      ensures Ranked() && Separable(scope) && ValidScope(level, scope) ==>
                count == Some(|JobsInScope(entries, level, ScopeKey(level, scope))|)
    {
      if !ValidScope(level, scope) { return None; }
      SetsCount(hash, entries, owners, all, scopes, level, ScopeKey(level, scope));
      count := Some(if level == AllScopes then |all| else |At(scopes, hash(ScopeKey(level, scope)))|);
      if Ranked() && Separable(scope) { SeparableCountsAgree(hash, entries, level, scope); }
    }

    /** The candidates script, given to decoding: every payload is a valid entry, so the client drops none. */
    method Candidates(at: Time, limit: int) returns (out: seq<Entry>)
      requires Valid() && Ranked()
      modifies `principals
      ensures Valid() && Ranked() && principals == old(principals)
      ensures at == 0 || limit <= 0 ==> out == []
      ensures at != 0 && limit > 0 ==>
                exists groups :: Grouping(entries, ScoredBy(at / MILLISECOND), groups) && InRedisOrder(hash, groups)
                                 && IsRoundRobin(EntriesOf(groups), limit, out)
    {
      if at == 0 || limit <= 0 { return []; }
      ghost var groups;
      out, groups := ReadCandidates(at / MILLISECOND, limit, OwnerBy(hash), Score);
      OwnerGroupingIsGrouping(hash, entries, at / MILLISECOND, groups);
    }

    /** The first principals, the first jobs of each, one of each per round; then every listed principal is refreshed.
        Every member of a scope set has a payload, so the script drops nothing on the way. */
    method ReadCandidates(most: int, limit: nat, ghost ownerOf: Entry -> Owner, ghost scoreOf: Entry -> int)
      returns (out: seq<Entry>, ghost groups: seq<Group>)
      requires Reflects(entries, owners, all, scopes, principals, ownerOf, scoreOf) && limit > 0
      modifies `principals
      ensures principals == old(principals) && OwnerGrouping(entries, ownerOf, scoreOf, most, groups)
      ensures IsRoundRobin(EntriesOf(groups), limit, out)
    {
      var digests, every := RangeByScore(principals, most, limit);
      ListedMembers(entries, owners, all, scopes, principals, ownerOf, scoreOf, most, every, digests);
      var cut, wholes := ReadGroups(entries, scopes, most, limit, digests);
      EveryIsListed(principals, most, every);
      groups := GroupsRead(entries, owners, all, scopes, principals, ownerOf, scoreOf, most, limit, every, digests, wholes, cut, |cut|);
      out := Interleave(cut, limit);
      groups := WholeGrouping(entries, owners, all, scopes, principals, ownerOf, scoreOf, most, limit, every, groups, cut, out);
      forall d | d in digests ensures d in principals { assert d in every; }
      RefreshListed(digests, ownerOf, scoreOf);
    }

    method RefreshListed(digests: seq<string>, ghost ownerOf: Entry -> Owner, ghost scoreOf: Entry -> int)
      requires Reflects(entries, owners, all, scopes, principals, ownerOf, scoreOf)
      requires forall d :: d in digests ==> d in principals
      modifies `principals
      ensures principals == old(principals)
    {
      for i := 0 to |digests|
        invariant principals == old(principals)
      {
        PrincipalEntries(entries, owners, all, scopes, principals, ownerOf, scoreOf, digests[i]);
        RefreshPrincipal(digests[i]);
        RefreshIsIdle(old(principals), scopes, digests[i], principals);
      }
    }
  }

  /** `cut` holds the payloads of the first members of every listed set; `wholes` are the whole ranges. */
  ghost predicate RangesRead(
    index: Index, scopes: map<string, SortedSet>, most: int, limit: nat, digests: seq<string>,
    wholes: seq<seq<string>>, cut: seq<seq<Entry>>)
  {
    && |wholes| == |cut| <= |digests|
    && forall p :: 0 <= p < |cut| ==> RangeRead(index, At(scopes, digests[p]), most, limit, wholes[p], cut[p])
  }

  ghost predicate RangeRead(index: Index, set_: SortedSet, most: int, limit: nat, whole: seq<string>, read: seq<Entry>) {
    && InRange(set_, most, whole) && (forall id :: id in First(whole, limit) ==> id in index)
    && read == Payloads(index, First(whole, limit))
  }

  /** The first jobs of each listed principal. */
  method ReadGroups(index: Index, scopes: map<string, SortedSet>, most: int, limit: nat, digests: seq<string>)
    returns (cut: seq<seq<Entry>>, ghost wholes: seq<seq<string>>)
    requires forall d, id :: d in digests && id in At(scopes, d) ==> id in index
    ensures |cut| == |digests| && RangesRead(index, scopes, most, limit, digests, wholes, cut)
  {
    cut, wholes := [], [];
    for i := 0 to |digests|
      invariant |cut| == i && RangesRead(index, scopes, most, limit, digests, wholes, cut)
    {
      var ids, whole := RangeByScore(At(scopes, digests[i]), most, limit);
      forall id | id in ids ensures id in index { assert id in whole && digests[i] in digests; }
      cut, wholes := cut + [Payloads(index, ids)], wholes + [whole];
    }
  }

  /** What was read are the first entries of the groups of the listed principals. */
  lemma {:induction false} GroupsRead(
    index: Index, owners: Owners, all: SortedSet, scopes: map<string, SortedSet>, principals: SortedSet,
    ownerOf: Entry -> Owner, scoreOf: Entry -> int, most: int, limit: nat, every: seq<string>, digests: seq<string>,
    wholes: seq<seq<string>>, cut: seq<seq<Entry>>, n: nat) returns (groups: seq<Group>)
    requires Reflects(index, owners, all, scopes, principals, ownerOf, scoreOf) && Listed(principals, most, every)
    requires RangesRead(index, scopes, most, limit, digests, wholes, cut) && digests <= every && n <= |cut|
    ensures ReadFirst(index, ownerOf, scoreOf, most, principals, every, n, groups, cut, limit)
    decreases n
  {
    if n == 0 {
      groups := [];
    } else {
      var before := GroupsRead(index, owners, all, scopes, principals, ownerOf, scoreOf, most, limit, every, digests, wholes, cut, n - 1);
      var group := GroupAt(index, owners, all, scopes, principals, ownerOf, scoreOf, most, limit, every, digests, wholes, cut, n - 1);
      groups := before + [group];
      ReadOneMore(index, ownerOf, scoreOf, most, principals, every, n - 1, before, group, cut, limit);
    }
  }

  lemma EveryIsListed(principals: SortedSet, most: int, every: seq<string>)
    requires InRange(principals, most, every)
    ensures Listed(principals, most, every)
  {}

  ghost predicate Listed(principals: SortedSet, most: int, every: seq<string>) {
    forall p :: 0 <= p < |every| ==> every[p] in principals && principals[every[p]] <= most
  }

  ghost predicate ReadFirst(
    index: Index, ownerOf: Entry -> Owner, scoreOf: Entry -> int, most: int, principals: SortedSet,
    every: seq<string>, n: nat, groups: seq<Group>, cut: seq<seq<Entry>>, limit: nat)
  {
    && GroupsOf(index, ownerOf, scoreOf, most, principals, every, n, groups) && n <= |cut|
    && forall p :: 0 <= p < n ==> cut[p] == First(groups[p].entries, limit)
  }

  lemma {:induction false} ReadOneMore(
    index: Index, ownerOf: Entry -> Owner, scoreOf: Entry -> int, most: int, principals: SortedSet,
    every: seq<string>, n: nat, groups: seq<Group>, group: Group, cut: seq<seq<Entry>>, limit: nat)
    requires ReadFirst(index, ownerOf, scoreOf, most, principals, every, n, groups, cut, limit) && n < |every| && n < |cut|
    requires GroupOf(index, ownerOf, scoreOf, most, principals, every[n], group) && cut[n] == First(group.entries, limit)
    ensures ReadFirst(index, ownerOf, scoreOf, most, principals, every, n + 1, groups + [group], cut, limit)
  {}

  lemma {:induction false} GroupAt(
    index: Index, owners: Owners, all: SortedSet, scopes: map<string, SortedSet>, principals: SortedSet,
    ownerOf: Entry -> Owner, scoreOf: Entry -> int, most: int, limit: nat, every: seq<string>, digests: seq<string>,
    wholes: seq<seq<string>>, cut: seq<seq<Entry>>, n: nat) returns (group: Group)
    requires Reflects(index, owners, all, scopes, principals, ownerOf, scoreOf) && Listed(principals, most, every)
    requires RangesRead(index, scopes, most, limit, digests, wholes, cut) && digests <= every && n < |cut|
    ensures GroupOf(index, ownerOf, scoreOf, most, principals, every[n], group) && cut[n] == First(group.entries, limit)
  {
    assert RangeRead(index, At(scopes, digests[n]), most, limit, wholes[n], cut[n]) && digests[n] == every[n];
    group := ReadGroup(index, owners, all, scopes, principals, ownerOf, scoreOf, most, limit, every[n], wholes[n], cut[n]);
  }

  /** The memory index looks an id up as it is given, Redis trims it first. They agree exactly when the id is trimmed,
      or the trimmed id has no entry of that version. */
  lemma {:induction false} RemovalsAgree(index: Index, jobID: string, statusVersion: int)
    requires Keyed(index) && forall id :: id in index ==> Trimmed(id)
    ensures AfterRemove(index, Trim(jobID), statusVersion) == AfterRemove(index, jobID, statusVersion)
            <==> Trim(jobID) == jobID || statusVersion <= 0 || Trim(jobID) == ""
                 || Trim(jobID) !in index || index[Trim(jobID)].statusVersion != statusVersion
  {}
}
