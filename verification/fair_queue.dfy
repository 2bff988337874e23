/** The fair scheduler: greedy selection over profile, tenant and principal loads that grow as jobs are picked. */
module FairQueue {
  import opened Text
  import opened JobModel
  import opened Fold
  import opened GreedySelection

  const MAX_PRIORITY := 9

  /** The counters of one level, by scope key; an absent key counts zero and was never dispatched. */
  datatype Level = Level(inFlight: map<string, nat>, selected: map<string, nat>, lastDispatchAt: map<string, Time>) {
    function Load(key: string): nat {
      (if key in inFlight then inFlight[key] else 0) + (if key in selected then selected[key] else 0)
    }
  }

  datatype Stats = Stats(profile: Level, tenant: Level, principal: Level)

  datatype Activity = Activity(scope: Scope, dispatchedAt: Time)

  datatype Candidate = Candidate(job: AIJob, profile: string, tenant: string, principal: string, priority: int)

  function Max(a: int, b: int): int { if a < b then b else a }
  function Min(a: int, b: int): int { if a < b then a else b }

  function WaitStartedAt(job: AIJob): Time {
    if job.nextEligibleAt == 0 || job.nextEligibleAt < job.createdAt then job.createdAt else job.nextEligibleAt
  }

  function EffectivePriority(job: AIJob, now: Time): int {
    var clamped, waitStartedAt := Min(Max(job.priority, 0), MAX_PRIORITY), WaitStartedAt(job);
    Min(if now > waitStartedAt then clamped + (now - waitStartedAt) / MINUTE else clamped, MAX_PRIORITY)
  }

  function NewCandidate(job: AIJob, now: Time): Candidate {
    Candidate(job, ProfileKey(job.scope), TenantKey(job.scope), PrincipalKey(job.scope), EffectivePriority(job, now))
  }

  predicate InFlight(status: Status) {
    status in {Dispatching, Running, Canceling, Unknown}
  }

  predicate ReadyForClaim(job: AIJob, now: Time) {
    if job.status == Queued then
      job.nextEligibleAt <= now && (job.queueLeaseUntil.None? || job.queueLeaseUntil.value <= now)
    else
      job.status == Dispatching && job.queueLeaseUntil.Some? && job.queueLeaseUntil.value <= now
  }

  function CompareLevel(level: Level, left: string, right: string): int {
    if level.Load(left) < level.Load(right) then -1
    else if level.Load(left) > level.Load(right) then 1
    else if left !in level.lastDispatchAt && right in level.lastDispatchAt then -1
    else if left in level.lastDispatchAt && right !in level.lastDispatchAt then 1
    else if left in level.lastDispatchAt && level.lastDispatchAt[left] < level.lastDispatchAt[right] then -1
    else if left in level.lastDispatchAt && level.lastDispatchAt[left] > level.lastDispatchAt[right] then 1
    else Compare(left, right)
  }

  /** The order inside one principal: no load appears in it. */
  predicate Before(left: Candidate, right: Candidate) {
    if left.priority != right.priority then left.priority > right.priority
    else if left.job.nextEligibleAt != right.job.nextEligibleAt then left.job.nextEligibleAt < right.job.nextEligibleAt
    else if left.job.createdAt != right.job.createdAt then left.job.createdAt < right.job.createdAt
    else Less(left.job.id, right.job.id)
  }

  predicate Reclaim(c: Candidate) {
    c.job.status == Dispatching
  }

  predicate CandidateLess(left: Candidate, right: Candidate, st: Stats) {
    FirstDifference(
      Reclaim(left), Reclaim(right),
      CompareLevel(st.profile, left.profile, right.profile),
      CompareLevel(st.tenant, left.tenant, right.tenant),
      CompareLevel(st.principal, left.principal, right.principal),
      Before(left, right))
  }

  predicate FirstDifference(leftReclaim: bool, rightReclaim: bool, profile: int, tenant: int, principal: int, before: bool) {
    if leftReclaim != rightReclaim then leftReclaim
    else if profile != 0 then profile < 0
    else if tenant != 0 then tenant < 0
    else if principal != 0 then principal < 0
    else before
  }

  // The comparator is a strict total order, whatever the loads.

  lemma {:induction false} CompareLevelOrder(level: Level, a: string, b: string)
    ensures CompareLevel(level, a, b) == 0 <==> a == b
    ensures CompareLevel(level, a, b) == -CompareLevel(level, b, a)
  {
    CompareOrder(a, b);
  }

  lemma {:induction false} CompareLevelTransitive(level: Level, a: string, b: string, c: string)
    requires CompareLevel(level, a, b) <= 0 && CompareLevel(level, b, c) <= 0
    ensures CompareLevel(level, a, c) <= 0
    ensures CompareLevel(level, a, c) == 0 ==> CompareLevel(level, a, b) == CompareLevel(level, b, c) == 0
  {
    if Compare(a, b) <= 0 && Compare(b, c) <= 0 { CompareTransitive(a, b, c); }
  }

  lemma {:induction false} BeforeOrder(a: Candidate, b: Candidate)
    ensures !Before(a, a)
    ensures Before(a, b) ==> !Before(b, a)
    ensures a.job.id != b.job.id ==> Before(a, b) || Before(b, a)
  {
    LessIrreflexive(a.job.id);
    LessTotal(a.job.id, b.job.id);
    if Less(a.job.id, b.job.id) && Less(b.job.id, a.job.id) { LessTransitive(a.job.id, b.job.id, a.job.id); }
  }

  lemma {:induction false} BeforeTransitive(a: Candidate, b: Candidate, c: Candidate)
    requires Before(a, b) && Before(b, c)
    ensures Before(a, c)
  {
    if Less(a.job.id, b.job.id) && Less(b.job.id, c.job.id) { LessTransitive(a.job.id, b.job.id, c.job.id); }
  }

  lemma {:induction false} CandidateLessOrder(a: Candidate, b: Candidate, st: Stats)
    ensures !CandidateLess(a, a, st)
    ensures CandidateLess(a, b, st) ==> !CandidateLess(b, a, st)
    ensures a.job.id != b.job.id ==> CandidateLess(a, b, st) || CandidateLess(b, a, st)
  {
    CompareLevelOrder(st.profile, a.profile, b.profile);
    CompareLevelOrder(st.tenant, a.tenant, b.tenant);
    CompareLevelOrder(st.principal, a.principal, b.principal);
    CompareLevelOrder(st.profile, a.profile, a.profile);
    CompareLevelOrder(st.tenant, a.tenant, a.tenant);
    CompareLevelOrder(st.principal, a.principal, a.principal);
    BeforeOrder(a, b);
  }

  lemma {:induction false} CandidateLessTransitive(a: Candidate, b: Candidate, c: Candidate, st: Stats)
    requires CandidateLess(a, b, st) && CandidateLess(b, c, st)
    ensures CandidateLess(a, c, st)
  {
    if CompareLevel(st.profile, a.profile, b.profile) <= 0 && CompareLevel(st.profile, b.profile, c.profile) <= 0 {
      CompareLevelTransitive(st.profile, a.profile, b.profile, c.profile);
    }
    if CompareLevel(st.tenant, a.tenant, b.tenant) <= 0 && CompareLevel(st.tenant, b.tenant, c.tenant) <= 0 {
      CompareLevelTransitive(st.tenant, a.tenant, b.tenant, c.tenant);
    }
    if CompareLevel(st.principal, a.principal, b.principal) <= 0 && CompareLevel(st.principal, b.principal, c.principal) <= 0 {
      CompareLevelTransitive(st.principal, a.principal, b.principal, c.principal);
    }
    if Before(a, b) && Before(b, c) { BeforeTransitive(a, b, c); }
  }

  // Loads before the first pick.

  function AddInFlight(level: Level, key: string): Level {
    level.(inFlight := level.inFlight[key := 1 + if key in level.inFlight then level.inFlight[key] else 0])
  }

  function AddDispatch(level: Level, key: string, at: Time): Level {
    if key !in level.lastDispatchAt || at > level.lastDispatchAt[key] then
      level.(lastDispatchAt := level.lastDispatchAt[key := at])
    else level
  }

  function AddSelected(level: Level, key: string): Level {
    level.(selected := level.selected[key := 1 + if key in level.selected then level.selected[key] else 0])
  }

  function AddJob(st: Stats, job: AIJob): Stats {
    if InFlight(job.status) then
      Stats(AddInFlight(st.profile, ProfileKey(job.scope)), AddInFlight(st.tenant, TenantKey(job.scope)),
            AddInFlight(st.principal, PrincipalKey(job.scope)))
    else st
  }

  function AddActivity(st: Stats, activity: Activity): Stats {
    if activity.dispatchedAt != 0 then
      Stats(AddDispatch(st.profile, ProfileKey(activity.scope), activity.dispatchedAt),
            AddDispatch(st.tenant, TenantKey(activity.scope), activity.dispatchedAt),
            AddDispatch(st.principal, PrincipalKey(activity.scope), activity.dispatchedAt))
    else st
  }

  function AddPick(st: Stats, c: Candidate): Stats {
    Stats(AddSelected(st.profile, c.profile), AddSelected(st.tenant, c.tenant), AddSelected(st.principal, c.principal))
  }

  function NoStats(): Stats {
    var none := Level(map[], map[], map[]);
    Stats(none, none, none)
  }

  function BuildStats(jobs: seq<AIJob>, activities: seq<Activity>): Stats {
    FoldLeft(AddActivity, FoldLeft(AddJob, NoStats(), jobs), activities)
  }

  lemma {:induction false} StatsCommute()
    ensures Commutes(AddJob)
    ensures Commutes(AddActivity)
  {
    forall level: Level, a: string, b: string
      ensures AddInFlight(AddInFlight(level, a), b) == AddInFlight(AddInFlight(level, b), a)
    {
      if a != b {
        assert AddInFlight(AddInFlight(level, a), b).inFlight == AddInFlight(AddInFlight(level, b), a).inFlight;
      }
    }
    forall level: Level, a: string, b: string, s: Time, t: Time
      ensures AddDispatch(AddDispatch(level, a, s), b, t) == AddDispatch(AddDispatch(level, b, t), a, s)
    {
      assert AddDispatch(AddDispatch(level, a, s), b, t).lastDispatchAt
          == AddDispatch(AddDispatch(level, b, t), a, s).lastDispatchAt;
    }
    forall st: Stats, x: AIJob, y: AIJob ensures AddJob(AddJob(st, x), y) == AddJob(AddJob(st, y), x) {}
    forall st: Stats, x: Activity, y: Activity
      ensures AddActivity(AddActivity(st, x), y) == AddActivity(AddActivity(st, y), x) {}
  }

  function Jobs(cs: seq<Candidate>): (jobs: seq<AIJob>)
    ensures |jobs| == |cs|
    ensures forall i :: 0 <= i < |cs| ==> jobs[i] == cs[i].job
  {
    seq(|cs|, i requires 0 <= i < |cs| => cs[i].job)
  }

  function NewCandidates(jobs: seq<AIJob>, now: Time): (cs: seq<Candidate>)
    ensures |cs| == |jobs|
    ensures forall i :: 0 <= i < |jobs| ==> cs[i] == NewCandidate(jobs[i], now)
  {
    seq(|jobs|, i requires 0 <= i < |jobs| => NewCandidate(jobs[i], now))
  }

  /** The selection loop as a function of its inputs: the order of `candidates` may matter to it. */
  function Ranked(candidates: seq<AIJob>, st: Stats, now: Time, limit: int): seq<AIJob> {
    if limit <= 0 then []
    else Jobs(Select(CandidateLess, AddPick, NewCandidates(candidates, now), st, limit))
  }

  method CollectStats(jobs: seq<AIJob>, activities: seq<Activity>) returns (st: Stats)
    ensures st == BuildStats(jobs, activities)
  {
    st := NoStats();
    for i := 0 to |jobs|
      invariant st == FoldLeft(AddJob, NoStats(), jobs[..i])
    {
      assert jobs[..i + 1][..i] == jobs[..i];
      st := AddJob(st, jobs[i]);
    }
    assert jobs[..|jobs|] == jobs;
    ghost var loaded := st;
    for i := 0 to |activities|
      invariant st == FoldLeft(AddActivity, loaded, activities[..i])
    {
      assert activities[..i + 1][..i] == activities[..i];
      st := AddActivity(st, activities[i]);
    }
    assert activities[..|activities|] == activities;
  }

  method Rank(candidates: seq<AIJob>, jobs: seq<AIJob>, activities: seq<Activity>, now: Time, limit: int)
    returns (out: seq<AIJob>)
    ensures out == Ranked(candidates, BuildStats(jobs, activities), now, limit)
  {
    if limit <= 0 || candidates == [] { return []; }
    var st := CollectStats(jobs, activities);
    var remaining := new Candidate[|candidates|](i requires 0 <= i < |candidates| => NewCandidate(candidates[i], now));
    assert remaining[..] == NewCandidates(candidates, now);
    var picked := SelectInPlace(CandidateLess, AddPick, remaining, st, limit);
    out := Jobs(picked);
  }

  // What ranking promises. Ids are distinct in every list the repository ranks: jobs are stored by id.

  ghost predicate DistinctIds(jobs: seq<AIJob>) {
    forall i, j :: 0 <= i < j < |jobs| ==> jobs[i].id != jobs[j].id
  }

  ghost predicate Identified(items: set<Candidate>) {
    forall a, b :: a in items && b in items && a.job.id == b.job.id ==> a == b
  }

  ghost function Pool(jobs: seq<AIJob>, now: Time): set<Candidate> {
    Elements(NewCandidates(jobs, now))
  }

  /** The comparator is a strict total order on candidates with distinct ids, for any loads. */
  lemma {:induction false} ComparatorIsTotal(items: set<Candidate>)
    requires Identified(items)
    ensures StrictTotalOn(CandidateLess, items)
  {
    forall some: set<Candidate>, st | some <= items
      ensures StrictTotalAt(CandidateLess, some, st)
    {
      forall a, b | a in some && b in some
        ensures !CandidateLess(a, a, st) && (a != b ==> CandidateLess(a, b, st) || CandidateLess(b, a, st))
      {
        CandidateLessOrder(a, b, st);
      }
      forall a, b, c | a in some && b in some && c in some && CandidateLess(a, b, st) && CandidateLess(b, c, st)
        ensures CandidateLess(a, c, st)
      {
        CandidateLessTransitive(a, b, c, st);
      }
    }
  }

  lemma {:induction false} CandidatesById(jobs: seq<AIJob>, cs: seq<Candidate>)
    requires DistinctIds(jobs) && |cs| == |jobs| && forall i :: 0 <= i < |cs| ==> cs[i].job == jobs[i]
    ensures NoDuplicates(cs) && Identified(Elements(cs))
  {}

  lemma {:induction false} PoolIsIdentified(jobs: seq<AIJob>, now: Time)
    requires DistinctIds(jobs)
    ensures Identified(Pool(jobs, now)) && NoDuplicates(NewCandidates(jobs, now))
    ensures StrictTotalOn(CandidateLess, Pool(jobs, now))
    ensures |Pool(jobs, now)| == |jobs|
  {
    CandidatesById(jobs, NewCandidates(jobs, now));
    ElementsSize(NewCandidates(jobs, now));
    ComparatorIsTotal(Pool(jobs, now));
  }

  /** The picks, free of the order of the candidate list. */
  ghost function FairPicks(candidates: seq<AIJob>, st: Stats, now: Time, limit: nat): seq<Candidate>
    requires DistinctIds(candidates)
  {
    PoolIsIdentified(candidates, now);
    Greedy(CandidateLess, AddPick, Pool(candidates, now), st, limit)
  }

  lemma {:induction false} RankedIsFair(candidates: seq<AIJob>, st: Stats, now: Time, limit: nat)
    requires DistinctIds(candidates)
    ensures Ranked(candidates, st, now, limit) == Jobs(FairPicks(candidates, st, now, limit))
  {
    PoolIsIdentified(candidates, now);
    SelectIsGreedy(CandidateLess, AddPick, NewCandidates(candidates, now), st, limit);
  }

  /** Go iterates maps in any order; neither that nor swap removal changes the ranking. */
  lemma {:induction false} RankingIgnoresInputOrder(
    candidates: seq<AIJob>, candidates': seq<AIJob>, jobs: seq<AIJob>, jobs': seq<AIJob>,
    activities: seq<Activity>, activities': seq<Activity>, now: Time, limit: int)
    requires DistinctIds(candidates) && multiset(candidates) == multiset(candidates')
    requires multiset(jobs) == multiset(jobs') && multiset(activities) == multiset(activities')
    ensures Ranked(candidates, BuildStats(jobs, activities), now, limit)
         == Ranked(candidates', BuildStats(jobs', activities'), now, limit)
  {
    StatsCommute();
    FoldPermutation(AddJob, NoStats(), jobs, jobs');
    FoldPermutation(AddActivity, FoldLeft(AddJob, NoStats(), jobs), activities, activities');
    if limit > 0 {
      PermutedIds(candidates, candidates');
      assert Pool(candidates, now) == Pool(candidates', now) by {
        PermutedPool(candidates, candidates', now);
        PermutedPool(candidates', candidates, now);
      }
      RankedIsFair(candidates, BuildStats(jobs, activities), now, limit);
      RankedIsFair(candidates', BuildStats(jobs, activities), now, limit);
    }
  }

  lemma {:induction false} PermutedIds(jobs: seq<AIJob>, jobs': seq<AIJob>)
    requires DistinctIds(jobs) && multiset(jobs) == multiset(jobs')
    ensures DistinctIds(jobs')
  {
    forall i, j | 0 <= i < j < |jobs'| ensures jobs'[i].id != jobs'[j].id {
      assert jobs'[i] in multiset(jobs) && jobs'[j] in multiset(jobs);
      if jobs'[i] == jobs'[j] {
        var x := jobs'[i];
        assert jobs' == jobs'[..i] + [x] + jobs'[i + 1..j] + [x] + jobs'[j + 1..];
        assert multiset(jobs)[x] >= 2;
        MultiplicityOne(jobs, x);
        assert false;
      }
    }
  }

  lemma {:induction false} MultiplicityOne(jobs: seq<AIJob>, x: AIJob)
    requires DistinctIds(jobs)
    ensures multiset(jobs)[x] <= 1
  {
    if x in jobs {
      var i :| 0 <= i < |jobs| && jobs[i] == x;
      assert jobs == jobs[..i] + [x] + jobs[i + 1..];
      assert x !in jobs[..i] && x !in jobs[i + 1..];
    }
  }

  lemma {:induction false} PermutedPool(jobs: seq<AIJob>, jobs': seq<AIJob>, now: Time)
    requires multiset(jobs) == multiset(jobs')
    ensures Pool(jobs, now) <= Pool(jobs', now)
  {
    forall c | c in Pool(jobs, now) ensures c in Pool(jobs', now) {
      var i :| 0 <= i < |jobs| && NewCandidates(jobs, now)[i] == c;
      assert jobs[i] in multiset(jobs');
      var j :| 0 <= j < |jobs'| && jobs'[j] == jobs[i];
      assert NewCandidates(jobs', now)[j] == c;
    }
  }

  lemma {:induction false} PickedJobs(candidates: seq<AIJob>, now: Time, picks: seq<Candidate>)
    requires DistinctIds(candidates) && forall i :: 0 <= i < |picks| ==> picks[i] in Pool(candidates, now)
    requires forall i, j :: 0 <= i < j < |picks| ==> picks[i] != picks[j]
    ensures forall i :: 0 <= i < |picks| ==> picks[i].job in candidates
    ensures DistinctIds(Jobs(picks))
  {}

  /** Ranking conserves work: it returns as many distinct candidates as the limit and the list allow. */
  lemma {:induction false} RankingConservesWork(candidates: seq<AIJob>, st: Stats, now: Time, limit: nat)
    requires DistinctIds(candidates)
    ensures var out := Ranked(candidates, st, now, limit);
            && |out| == Min(limit, |candidates|)
            && (forall i :: 0 <= i < |out| ==> out[i] in candidates)
            && DistinctIds(out)
  {
    PoolIsIdentified(candidates, now);
    RankedIsFair(candidates, st, now, limit);
    GreedyMembers(CandidateLess, AddPick, Pool(candidates, now), st, limit);
    PickedJobs(candidates, now, FairPicks(candidates, st, now, limit));
  }

  /** A smaller limit gives a prefix of a larger one. */
  lemma {:induction false} RankingPrefix(candidates: seq<AIJob>, st: Stats, now: Time, small: nat, large: nat)
    requires DistinctIds(candidates) && small <= large
    ensures Ranked(candidates, st, now, small) <= Ranked(candidates, st, now, large)
  {
    PoolIsIdentified(candidates, now);
    RankedIsFair(candidates, st, now, small);
    RankedIsFair(candidates, st, now, large);
    GreedyPrefix(CandidateLess, AddPick, Pool(candidates, now), st, small, large);
  }

  lemma {:induction false} ReclaimsCompareFirst(items: set<Candidate>)
    ensures ComeFirst(CandidateLess, Chosen(items, Reclaim), items - Chosen(items, Reclaim))
  {}

  /** Expired dispatches are taken back before any queued job, and none is passed over for one. */
  lemma {:induction false} ReclaimsComeFirst(candidates: seq<AIJob>, st: Stats, now: Time, limit: nat)
    requires DistinctIds(candidates)
    ensures var out := FairPicks(candidates, st, now, limit);
            && (forall i, j :: 0 <= i < j < |out| && Reclaim(out[j]) ==> Reclaim(out[i]))
            && (forall i, c :: 0 <= i < |out| && c in Pool(candidates, now) && c !in out && Reclaim(c) ==> Reclaim(out[i]))
  {
    PoolIsIdentified(candidates, now);
    ReclaimsCompareFirst(Pool(candidates, now));
    var early, late := PhasedPicks(CandidateLess, AddPick, Pool(candidates, now), Reclaim, st, limit);
    ReclaimsSplit(early, late);
    forall i, c | 0 <= i < |early + late| && c in Pool(candidates, now) && c !in early + late && Reclaim(c)
      ensures Reclaim((early + late)[i])
    {
      assert late == [];
      assert (early + late)[i] in early;
    }
  }

  lemma {:induction false} ReclaimsSplit(early: seq<Candidate>, late: seq<Candidate>)
    requires (forall c :: c in early ==> Reclaim(c)) && (forall c :: c in late ==> !Reclaim(c))
    ensures forall i :: 0 <= i < |early + late| ==> (Reclaim((early + late)[i]) <==> i < |early|)
  {}

  // The three fairness bounds. A load is the jobs in flight plus the picks of this round.

  function ProfileOf(c: Candidate): string { c.profile }
  function TenantOf(c: Candidate): string { c.tenant }
  function PrincipalOf(c: Candidate): string { c.principal }
  function ProfileLoad(st: Stats, key: string): nat { st.profile.Load(key) }
  function TenantLoad(st: Stats, key: string): nat { st.tenant.Load(key) }
  function PrincipalLoad(st: Stats, key: string): nat { st.principal.Load(key) }
  function WholeQueue(c: Candidate): bool { true }
  function OwnTenant(c: Candidate): (string, string) { (c.profile, c.tenant) }

  ghost predicate SeparableScopes(candidates: seq<AIJob>) {
    forall i :: 0 <= i < |candidates| ==> Separable(candidates[i].scope)
  }

  ghost function FinalStats(candidates: seq<AIJob>, st: Stats, now: Time, limit: nat): Stats
    requires DistinctIds(candidates)
  {
    After(AddPick, st, FairPicks(candidates, st, now, limit))
  }

  /** `b` was picked and `c` was left out although both were reclaims, or both were queued. */
  ghost predicate PassedOver(candidates: seq<AIJob>, st: Stats, now: Time, limit: nat, b: Candidate, c: Candidate)
    requires DistinctIds(candidates)
  {
    && b in FairPicks(candidates, st, now, limit)
    && c in Pool(candidates, now) && c !in FairPicks(candidates, st, now, limit)
    && Reclaim(b) == Reclaim(c)
  }

  lemma {:induction false} PoolKeysNest(candidates: seq<AIJob>, now: Time)
    requires SeparableScopes(candidates)
    ensures forall a, b :: a in Pool(candidates, now) && b in Pool(candidates, now) && a.tenant == b.tenant
                           ==> a.profile == b.profile
    ensures forall a, b :: a in Pool(candidates, now) && b in Pool(candidates, now) && a.principal == b.principal
                           ==> a.tenant == b.tenant
  {
    var cs := NewCandidates(candidates, now);
    forall a, b | a in Elements(cs) && b in Elements(cs)
      ensures a.tenant == b.tenant ==> a.profile == b.profile
      ensures a.principal == b.principal ==> a.tenant == b.tenant
    {
      var i :| 0 <= i < |cs| && cs[i] == a;
      var j :| 0 <= j < |cs| && cs[j] == b;
      KeysNest(candidates[i].scope, candidates[j].scope);
    }
  }

  ghost predicate SamePhase(items: set<Candidate>) {
    forall a, b :: a in items && b in items ==> Reclaim(a) == Reclaim(b)
  }

  lemma {:induction false} LowLoadsPreferred(items: set<Candidate>)
    requires SamePhase(items)
    requires forall a, b :: a in items && b in items && a.tenant == b.tenant ==> a.profile == b.profile
    requires forall a, b :: a in items && b in items && a.principal == b.principal ==> a.tenant == b.tenant
    ensures PrefersLowLoad(CandidateLess, TenantLoad, TenantOf, ProfileOf, items)
    ensures PrefersLowLoad(CandidateLess, PrincipalLoad, PrincipalOf, OwnTenant, items)
  {}

  lemma {:induction false} PicksAddOne(items: set<Candidate>)
    ensures PicksAddLoad(AddPick, ProfileLoad, ProfileOf, items)
    ensures PicksAddLoad(AddPick, TenantLoad, TenantOf, items)
    ensures PicksAddLoad(AddPick, PrincipalLoad, PrincipalOf, items)
  {}

  lemma {:induction false} PhasesPreferLowLoads(candidates: seq<AIJob>, now: Time)
    requires DistinctIds(candidates) && SeparableScopes(candidates)
    ensures var items, first := Pool(candidates, now), Chosen(Pool(candidates, now), Reclaim);
            && LowLoadsOn(first) && LowLoadsOn(items - first)
  {
    PoolKeysNest(candidates, now);
    var items, first := Pool(candidates, now), Chosen(Pool(candidates, now), Reclaim);
    LowLoadsPreferred(first);
    LowLoadsPreferred(items - first);
  }

  ghost predicate LowLoadsOn(items: set<Candidate>) {
    && PrefersLowLoad(CandidateLess, TenantLoad, TenantOf, ProfileOf, items)
    && PrefersLowLoad(CandidateLess, PrincipalLoad, PrincipalOf, OwnTenant, items)
  }

  lemma {:induction false} ProfilesPreferLowLoads(items: set<Candidate>)
    requires SamePhase(items)
    ensures PrefersLowLoad(CandidateLess, ProfileLoad, ProfileOf, WholeQueue, items)
  {}

  /** No profile that was served ends more than one above a profile that still waits. */
  lemma {:induction false} ProfilesShareFairly(
    candidates: seq<AIJob>, st: Stats, now: Time, limit: nat, b: Candidate, c: Candidate)
    requires DistinctIds(candidates) && PassedOver(candidates, st, now, limit, b, c)
    ensures var final := FinalStats(candidates, st, now, limit);
            ProfileLoad(final, b.profile) <= ProfileLoad(final, c.profile) + 1
  {
    var items := Pool(candidates, now);
    PoolIsIdentified(candidates, now);
    ReclaimsCompareFirst(items);
    ProfilesPreferLowLoads(Chosen(items, Reclaim));
    ProfilesPreferLowLoads(items - Chosen(items, Reclaim));
    PicksAddOne(items);
    PhasedFairShare(CandidateLess, AddPick, ProfileLoad, ProfileOf, WholeQueue, items, Reclaim, st, limit, b, c);
  }

  /** The same among the tenants of one profile. */
  lemma {:induction false} TenantsShareFairly(
    candidates: seq<AIJob>, st: Stats, now: Time, limit: nat, b: Candidate, c: Candidate)
    requires DistinctIds(candidates) && SeparableScopes(candidates) && PassedOver(candidates, st, now, limit, b, c)
    requires b.profile == c.profile
    ensures var final := FinalStats(candidates, st, now, limit);
            TenantLoad(final, b.tenant) <= TenantLoad(final, c.tenant) + 1
  {
    PoolIsIdentified(candidates, now);
    ReclaimsCompareFirst(Pool(candidates, now));
    PhasesPreferLowLoads(candidates, now);
    PicksAddOne(Pool(candidates, now));
    PhasedFairShare(CandidateLess, AddPick, TenantLoad, TenantOf, ProfileOf, Pool(candidates, now), Reclaim,
                    st, limit, b, c);
  }

  /** The same among the principals of one tenant. */
  lemma {:induction false} PrincipalsShareFairly(
    candidates: seq<AIJob>, st: Stats, now: Time, limit: nat, b: Candidate, c: Candidate)
    requires DistinctIds(candidates) && SeparableScopes(candidates) && PassedOver(candidates, st, now, limit, b, c)
    requires b.profile == c.profile && b.tenant == c.tenant
    ensures var final := FinalStats(candidates, st, now, limit);
            PrincipalLoad(final, b.principal) <= PrincipalLoad(final, c.principal) + 1
  {
    PoolIsIdentified(candidates, now);
    ReclaimsCompareFirst(Pool(candidates, now));
    PhasesPreferLowLoads(candidates, now);
    PicksAddOne(Pool(candidates, now));
    PhasedFairShare(CandidateLess, AddPick, PrincipalLoad, PrincipalOf, OwnTenant, Pool(candidates, now), Reclaim,
                    st, limit, b, c);
  }

  // What the loads count.

  /** The jobs in flight under a key. */
  function InFlightCount(jobs: seq<AIJob>, keyOf: Scope -> string, key: string): nat {
    if jobs == [] then 0
    else
      var last := jobs[|jobs| - 1];
      InFlightCount(jobs[..|jobs| - 1], keyOf, key) + if InFlight(last.status) && keyOf(last.scope) == key then 1 else 0
  }

  ghost predicate LoadsCount(st: Stats, jobs: seq<AIJob>, key: string) {
    && ProfileLoad(st, key) == InFlightCount(jobs, ProfileKey, key)
    && TenantLoad(st, key) == InFlightCount(jobs, TenantKey, key)
    && PrincipalLoad(st, key) == InFlightCount(jobs, PrincipalKey, key)
  }

  lemma InFlightAddsOne(level: Level, added: string, key: string)
    ensures AddInFlight(level, added).Load(key) == level.Load(key) + if added == key then 1 else 0
  {}

  lemma JobAddsToLoads(st: Stats, job: AIJob, key: string)
    ensures ProfileLoad(AddJob(st, job), key) == ProfileLoad(st, key) + if InFlight(job.status) && ProfileKey(job.scope) == key then 1 else 0
    ensures TenantLoad(AddJob(st, job), key) == TenantLoad(st, key) + if InFlight(job.status) && TenantKey(job.scope) == key then 1 else 0
    ensures PrincipalLoad(AddJob(st, job), key) == PrincipalLoad(st, key) + if InFlight(job.status) && PrincipalKey(job.scope) == key then 1 else 0
  {
    InFlightAddsOne(st.profile, ProfileKey(job.scope), key);
    InFlightAddsOne(st.tenant, TenantKey(job.scope), key);
    InFlightAddsOne(st.principal, PrincipalKey(job.scope), key);
  }

  lemma {:induction false} JobsMakeLoads(jobs: seq<AIJob>, key: string)
    ensures LoadsCount(FoldLeft(AddJob, NoStats(), jobs), jobs, key)
  {
    if jobs != [] {
      var n := |jobs| - 1;
      JobsMakeLoads(jobs[..n], key);
      JobAddsToLoads(FoldLeft(AddJob, NoStats(), jobs[..n]), jobs[n], key);
    }
  }

  lemma {:induction false} ActivitiesKeepLoads(st: Stats, activities: seq<Activity>, key: string)
    ensures var after := FoldLeft(AddActivity, st, activities);
            && ProfileLoad(after, key) == ProfileLoad(st, key) && TenantLoad(after, key) == TenantLoad(st, key)
            && PrincipalLoad(after, key) == PrincipalLoad(st, key)
  {
    if activities != [] { ActivitiesKeepLoads(st, activities[..|activities| - 1], key); }
  }

  /** Before the first pick the load of a profile, tenant or principal is the number of its jobs in flight. */
  lemma {:induction false} LoadsCountJobsInFlight(jobs: seq<AIJob>, activities: seq<Activity>, key: string)
    ensures LoadsCount(BuildStats(jobs, activities), jobs, key)
  {
    JobsMakeLoads(jobs, key);
    ActivitiesKeepLoads(FoldLeft(AddJob, NoStats(), jobs), activities, key);
  }

  lemma {:induction false} PicksComeFromPool(candidates: seq<AIJob>, st: Stats, now: Time, limit: nat)
    requires DistinctIds(candidates)
    ensures forall i :: 0 <= i < |FairPicks(candidates, st, now, limit)| ==> FairPicks(candidates, st, now, limit)[i] in Pool(candidates, now)
  {
    PoolIsIdentified(candidates, now);
    GreedyMembers(CandidateLess, AddPick, Pool(candidates, now), st, limit);
  }

  /** After the last pick it is that number and the picks of this round. */
  lemma {:induction false} FinalLoadsCountPicks(candidates: seq<AIJob>, st: Stats, now: Time, limit: nat, key: string)
    requires DistinctIds(candidates)
    ensures var final, picks := FinalStats(candidates, st, now, limit), FairPicks(candidates, st, now, limit);
            && ProfileLoad(final, key) == ProfileLoad(st, key) + PickCount(ProfileOf, picks, key)
            && TenantLoad(final, key) == TenantLoad(st, key) + PickCount(TenantOf, picks, key)
            && PrincipalLoad(final, key) == PrincipalLoad(st, key) + PickCount(PrincipalOf, picks, key)
  {
    var pool, picks := Pool(candidates, now), FairPicks(candidates, st, now, limit);
    PicksComeFromPool(candidates, st, now, limit);
    PicksAddOne(pool);
    LoadCountsPicks(AddPick, ProfileLoad, ProfileOf, pool, st, picks, key);
    LoadCountsPicks(AddPick, TenantLoad, TenantOf, pool, st, picks, key);
    LoadCountsPicks(AddPick, PrincipalLoad, PrincipalOf, pool, st, picks, key);
  }

  /** Why the bounds compare jobs of one phase only: expired dispatches of one profile that fill the limit are all picked,
      whatever waits in another profile. */
  lemma {:induction false} ReclaimsMayCrowdOut(
    candidates: seq<AIJob>, st: Stats, now: Time, limit: nat, crowded: string, waiting: string)
    requires DistinctIds(candidates) && crowded != waiting
    requires |Chosen(Pool(candidates, now), Reclaim)| >= limit
    requires forall c :: c in Chosen(Pool(candidates, now), Reclaim) ==> c.profile == crowded
    ensures var final := FinalStats(candidates, st, now, limit);
            && ProfileLoad(final, crowded) == ProfileLoad(st, crowded) + limit
            && ProfileLoad(final, waiting) == ProfileLoad(st, waiting)
  {
    OnlyReclaimsArePicked(candidates, st, now, limit);
    var picks := FairPicks(candidates, st, now, limit);
    AllOneKey(ProfileOf, picks, crowded, waiting);
    FinalLoadsCountPicks(candidates, st, now, limit, crowded);
    FinalLoadsCountPicks(candidates, st, now, limit, waiting);
  }

  lemma {:induction false} OnlyReclaimsArePicked(candidates: seq<AIJob>, st: Stats, now: Time, limit: nat)
    requires DistinctIds(candidates) && |Chosen(Pool(candidates, now), Reclaim)| >= limit
    ensures var picks := FairPicks(candidates, st, now, limit);
            |picks| == limit && forall i :: 0 <= i < |picks| ==> picks[i] in Chosen(Pool(candidates, now), Reclaim)
  {
    var pool := Pool(candidates, now);
    PoolIsIdentified(candidates, now);
    ReclaimsCompareFirst(pool);
    var early, late := PhasedPicks(CandidateLess, AddPick, pool, Reclaim, st, limit);
    GreedyMembers(CandidateLess, AddPick, Chosen(pool, Reclaim), st, limit);
    GreedyMembers(CandidateLess, AddPick, pool - Chosen(pool, Reclaim), After(AddPick, st, early), limit - |early|);
    assert early + late == early;
  }
}
