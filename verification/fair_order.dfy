/** Who comes first: every pick of a ranking compared with every candidate that is still waiting, told from the jobs, the
    dispatch activities and the earlier picks alone. */
module FairOrder {
  import opened Text
  import opened JobModel
  import opened Fold
  import opened GreedySelection
  import opened FairQueue

  type KeyOf = Scope -> string

  /** What a pick can depend on: the jobs, the dispatches so far, and the picks made before it. */
  datatype Past = Past(jobs: seq<AIJob>, activities: seq<Activity>, picked: seq<AIJob>)

  function Has(keyOf: KeyOf, key: string): AIJob -> bool {
    (job: AIJob) => keyOf(job.scope) == key
  }

  /** Jobs that have left the queue and have not ended. */
  function Underway(keyOf: KeyOf, key: string): AIJob -> bool {
    (job: AIJob) => job.status !in {Accepted, Queued, Succeeded, Failed, Canceled, Expired} && keyOf(job.scope) == key
  }

  /** The jobs in flight under a key and the earlier picks under it. */
  function Load(past: Past, keyOf: KeyOf, key: string): nat {
    |Filter(Underway(keyOf, key), past.jobs)| + |Filter(Has(keyOf, key), past.picked)|
  }

  predicate Dispatched(a: Activity, keyOf: KeyOf, key: string) {
    a.dispatchedAt != 0 && keyOf(a.scope) == key
  }

  ghost predicate Never(past: Past, keyOf: KeyOf, key: string) {
    forall a :: a in past.activities ==> !Dispatched(a, keyOf, key)
  }

  /** The latest dispatch under a key. */
  ghost predicate Latest(past: Past, keyOf: KeyOf, key: string, t: Time) {
    && (exists a :: a in past.activities && Dispatched(a, keyOf, key) && a.dispatchedAt == t)
    && forall a :: a in past.activities && Dispatched(a, keyOf, key) ==> a.dispatchedAt <= t
  }

  ghost predicate LongerAgo(past: Past, keyOf: KeyOf, a: string, b: string) {
    || (Never(past, keyOf, a) && !Never(past, keyOf, b))
    || exists s, t :: Latest(past, keyOf, a, s) && Latest(past, keyOf, b, t) && s < t
  }

  ghost predicate AsLongAgo(past: Past, keyOf: KeyOf, a: string, b: string) {
    || (Never(past, keyOf, a) && Never(past, keyOf, b))
    || exists t :: Latest(past, keyOf, a, t) && Latest(past, keyOf, b, t)
  }

  /** The lower load goes first; at equal load the one that was never dispatched, or dispatched longest ago; and the key
      decides when nothing else does. */
  ghost predicate GoesFirst(past: Past, keyOf: KeyOf, a: string, b: string) {
    || Load(past, keyOf, a) < Load(past, keyOf, b)
    || (Load(past, keyOf, a) == Load(past, keyOf, b) && LongerAgo(past, keyOf, a, b))
    || (Load(past, keyOf, a) == Load(past, keyOf, b) && AsLongAgo(past, keyOf, a, b) && Less(a, b))
  }

  /** Among the jobs of one principal. */
  predicate GoesFirstAmongOwn(a: AIJob, b: AIJob, now: Time) {
    || EffectivePriority(a, now) > EffectivePriority(b, now)
    || (EffectivePriority(a, now) == EffectivePriority(b, now)
        && (|| a.nextEligibleAt < b.nextEligibleAt
            || (a.nextEligibleAt == b.nextEligibleAt
                && (a.createdAt < b.createdAt || (a.createdAt == b.createdAt && Less(a.id, b.id))))))
  }

  ghost predicate Fairest(past: Past, a: AIJob, b: AIJob, now: Time) {
    if a.status == Dispatching && b.status != Dispatching then true
    else if a.status != Dispatching && b.status == Dispatching then false
    else if ProfileKey(a.scope) != ProfileKey(b.scope) then GoesFirst(past, ProfileKey, ProfileKey(a.scope), ProfileKey(b.scope))
    else if TenantKey(a.scope) != TenantKey(b.scope) then GoesFirst(past, TenantKey, TenantKey(a.scope), TenantKey(b.scope))
    else if PrincipalKey(a.scope) != PrincipalKey(b.scope) then
      GoesFirst(past, PrincipalKey, PrincipalKey(a.scope), PrincipalKey(b.scope))
    else GoesFirstAmongOwn(a, b, now)
  }

  // The dispatches that a level remembers.

  ghost predicate Remembers(level: Level, past: Past, keyOf: KeyOf) {
    forall key :: if key in level.lastDispatchAt then Latest(past, keyOf, key, level.lastDispatchAt[key]) else Never(past, keyOf, key)
  }

  ghost predicate RemembersAll(st: Stats, past: Past) {
    Remembers(st.profile, past, ProfileKey) && Remembers(st.tenant, past, TenantKey) && Remembers(st.principal, past, PrincipalKey)
  }

  lemma {:induction false} JobsLeaveDispatches(jobs: seq<AIJob>)
    ensures var st := FoldLeft(AddJob, NoStats(), jobs);
            st.profile.lastDispatchAt == st.tenant.lastDispatchAt == st.principal.lastDispatchAt == map[]
  {
    if jobs != [] { JobsLeaveDispatches(jobs[..|jobs| - 1]); }
  }

  lemma {:induction false} OneMoreDispatch(level: Level, past: Past, more: Past, keyOf: KeyOf, a: Activity)
    requires Remembers(level, past, keyOf) && more.activities == past.activities + [a]
    ensures Remembers(if a.dispatchedAt != 0 then AddDispatch(level, keyOf(a.scope), a.dispatchedAt) else level, more, keyOf)
  {
    var next := if a.dispatchedAt != 0 then AddDispatch(level, keyOf(a.scope), a.dispatchedAt) else level;
    assert a in more.activities && forall b :: b in more.activities <==> b in past.activities || b == a;
    forall key
      ensures if key in next.lastDispatchAt then Latest(more, keyOf, key, next.lastDispatchAt[key]) else Never(more, keyOf, key)
    {
      if key in level.lastDispatchAt { assert Latest(past, keyOf, key, level.lastDispatchAt[key]); }
    }
  }

  lemma {:induction false} ActivitiesAreRemembered(st: Stats, past: Past)
    requires st.profile.lastDispatchAt == st.tenant.lastDispatchAt == st.principal.lastDispatchAt == map[]
    ensures RemembersAll(FoldLeft(AddActivity, st, past.activities), past)
    decreases |past.activities|
  {
    if past.activities != [] {
      var n := |past.activities| - 1;
      var before, a := past.(activities := past.activities[..n]), past.activities[n];
      ActivitiesAreRemembered(st, before);
      var level := FoldLeft(AddActivity, st, before.activities);
      assert past.activities == before.activities + [a];
      OneMoreDispatch(level.profile, before, past, ProfileKey, a);
      OneMoreDispatch(level.tenant, before, past, TenantKey, a);
      OneMoreDispatch(level.principal, before, past, PrincipalKey, a);
    }
  }

  // The loads.

  ghost predicate Counts(st: Stats, past: Past, key: string) {
    && st.profile.Load(key) == Load(past, ProfileKey, key) && st.tenant.Load(key) == Load(past, TenantKey, key)
    && st.principal.Load(key) == Load(past, PrincipalKey, key)
  }

  lemma {:induction false} UnderwayIsInFlight(jobs: seq<AIJob>, keyOf: KeyOf, key: string)
    ensures |Filter(Underway(keyOf, key), jobs)| == InFlightCount(jobs, keyOf, key)
  {
    if jobs != [] {
      var n := |jobs| - 1;
      UnderwayIsInFlight(jobs[..n], keyOf, key);
      BetweenQueueAndEnd(jobs[n].status);
    }
  }

  lemma BetweenQueueAndEnd(status: Status)
    ensures InFlight(status) <==> status !in {Accepted, Queued, Succeeded, Failed, Canceled, Expired}
  {}

  lemma {:induction false} StartCounts(past: Past, key: string)
    requires past.picked == []
    ensures Counts(BuildStats(past.jobs, past.activities), past, key)
  {
    LoadsCountJobsInFlight(past.jobs, past.activities, key);
    UnderwayIsInFlight(past.jobs, ProfileKey, key);
    UnderwayIsInFlight(past.jobs, TenantKey, key);
    UnderwayIsInFlight(past.jobs, PrincipalKey, key);
  }

  /** The state that the picks so far have led to tells the loads and the dispatches. */
  ghost predicate Tells(st: Stats, past: Past) {
    RemembersAll(st, past) && forall key :: Counts(st, past, key)
  }

  lemma {:induction false} StartTells(past: Past)
    requires past.picked == []
    ensures Tells(BuildStats(past.jobs, past.activities), past)
  {
    JobsLeaveDispatches(past.jobs);
    ActivitiesAreRemembered(FoldLeft(AddJob, NoStats(), past.jobs), past);
    forall key ensures Counts(BuildStats(past.jobs, past.activities), past, key) { StartCounts(past, key); }
  }

  lemma SelectedAddsOne(level: Level, added: string, key: string)
    ensures AddSelected(level, added).Load(key) == level.Load(key) + if added == key then 1 else 0
    ensures AddSelected(level, added).lastDispatchAt == level.lastDispatchAt
  {}

  lemma OneMoreUnder(past: Past, more: Past, keyOf: KeyOf, key: string, job: AIJob)
    requires more == past.(picked := past.picked + [job])
    ensures Load(more, keyOf, key) == Load(past, keyOf, key) + if keyOf(job.scope) == key then 1 else 0
  {
    assert more.picked[..|more.picked| - 1] == past.picked;
  }

  lemma {:induction false} PickTells(st: Stats, past: Past, more: Past, c: Candidate, now: Time)
    requires Tells(st, past) && c == NewCandidate(c.job, now) && more == past.(picked := past.picked + [c.job])
    ensures Tells(AddPick(st, c), more)
  {
    forall key ensures Counts(AddPick(st, c), more, key) {
      assert Counts(st, past, key);
      SelectedAddsOne(st.profile, c.profile, key);
      SelectedAddsOne(st.tenant, c.tenant, key);
      SelectedAddsOne(st.principal, c.principal, key);
      OneMoreUnder(past, more, ProfileKey, key, c.job);
      OneMoreUnder(past, more, TenantKey, key, c.job);
      OneMoreUnder(past, more, PrincipalKey, key, c.job);
    }
    PickKeepsDispatches(st, past, more, c);
  }

  lemma {:induction false} PickKeepsDispatches(st: Stats, past: Past, more: Past, c: Candidate)
    requires RemembersAll(st, past) && more.activities == past.activities
    ensures RemembersAll(AddPick(st, c), more)
  {
    SameDispatches(st.profile, AddPick(st, c).profile, past, more, ProfileKey);
    SameDispatches(st.tenant, AddPick(st, c).tenant, past, more, TenantKey);
    SameDispatches(st.principal, AddPick(st, c).principal, past, more, PrincipalKey);
  }

  lemma {:induction false} SameDispatches(level: Level, next: Level, past: Past, more: Past, keyOf: KeyOf)
    requires Remembers(level, past, keyOf) && more.activities == past.activities
    requires next.lastDispatchAt == level.lastDispatchAt
    ensures Remembers(next, more, keyOf)
  {
    forall key
      ensures if key in next.lastDispatchAt then Latest(more, keyOf, key, next.lastDispatchAt[key]) else Never(more, keyOf, key)
    {
      assert if key in level.lastDispatchAt then Latest(past, keyOf, key, level.lastDispatchAt[key]) else Never(past, keyOf, key);
    }
  }

  // The comparison of one level.

  lemma {:induction false} LevelGoesFirst(level: Level, past: Past, keyOf: KeyOf, a: string, b: string)
    requires Remembers(level, past, keyOf) && level.Load(a) == Load(past, keyOf, a)
    requires level.Load(b) == Load(past, keyOf, b)
    requires a != b && CompareLevel(level, a, b) <= 0
    ensures GoesFirst(past, keyOf, a, b)
  {
    assert if a in level.lastDispatchAt then Latest(past, keyOf, a, level.lastDispatchAt[a]) else Never(past, keyOf, a);
    assert if b in level.lastDispatchAt then Latest(past, keyOf, b, level.lastDispatchAt[b]) else Never(past, keyOf, b);
  }

  lemma {:induction false} LessIsFairest(st: Stats, past: Past, a: AIJob, b: AIJob, now: Time)
    requires Tells(st, past) && CandidateLess(NewCandidate(a, now), NewCandidate(b, now), st)
    ensures Fairest(past, a, b, now)
  {
    CompareLevelOrder(st.profile, ProfileKey(a.scope), ProfileKey(b.scope));
    CompareLevelOrder(st.tenant, TenantKey(a.scope), TenantKey(b.scope));
    CompareLevelOrder(st.principal, PrincipalKey(a.scope), PrincipalKey(b.scope));
    assert Counts(st, past, ProfileKey(a.scope)) && Counts(st, past, ProfileKey(b.scope));
    assert Counts(st, past, TenantKey(a.scope)) && Counts(st, past, TenantKey(b.scope));
    assert Counts(st, past, PrincipalKey(a.scope)) && Counts(st, past, PrincipalKey(b.scope));
    if Reclaim(NewCandidate(a, now)) == Reclaim(NewCandidate(b, now)) {
      if ProfileKey(a.scope) != ProfileKey(b.scope) {
        LevelGoesFirst(st.profile, past, ProfileKey, ProfileKey(a.scope), ProfileKey(b.scope));
      } else if TenantKey(a.scope) != TenantKey(b.scope) {
        LevelGoesFirst(st.tenant, past, TenantKey, TenantKey(a.scope), TenantKey(b.scope));
      } else if PrincipalKey(a.scope) != PrincipalKey(b.scope) {
        LevelGoesFirst(st.principal, past, PrincipalKey, PrincipalKey(a.scope), PrincipalKey(b.scope));
      }
    }
  }

  // The picks.

  lemma {:induction false} PicksTell(st: Stats, past: Past, picks: seq<Candidate>, now: Time, all: Past)
    requires Tells(st, past) && forall k :: 0 <= k < |picks| ==> picks[k] == NewCandidate(picks[k].job, now)
    requires all == Past(past.jobs, past.activities, past.picked + Jobs(picks))
    ensures Tells(After(AddPick, st, picks), all)
    decreases |picks|
  {
    if picks == [] {
      assert all == past;
    } else {
      var more := Past(past.jobs, past.activities, past.picked + [picks[0].job]);
      PickTells(st, past, more, picks[0], now);
      FirstJobSplits(past.picked, picks);
      PicksTell(AddPick(st, picks[0]), more, picks[1..], now, all);
    }
  }

  lemma FirstJobSplits(picked: seq<AIJob>, picks: seq<Candidate>)
    requires picks != []
    ensures picked + [picks[0].job] + Jobs(picks[1..]) == picked + Jobs(picks)
  {}

  lemma {:induction false} EarlierPicksTell(
    candidates: seq<AIJob>, st: Stats, start: Past, picks: seq<Candidate>, now: Time, past: Past)
    requires Tells(st, start) && start.picked == [] && past == Past(start.jobs, start.activities, Jobs(picks))
    requires forall k :: 0 <= k < |picks| ==> picks[k] in Pool(candidates, now)
    ensures Tells(After(AddPick, st, picks), past)
  {
    PoolIsMade(candidates, now);
    assert start.picked + Jobs(picks) == Jobs(picks);
    PicksTell(st, start, picks, now, past);
  }

  lemma {:induction false} FairPickIsLeast(
    candidates: seq<AIJob>, st: Stats, picks: seq<Candidate>, now: Time, limit: nat, i: nat)
    requires DistinctIds(candidates) && picks == FairPicks(candidates, st, now, limit) && i < |picks|
    ensures Least(CandidateLess, Pool(candidates, now) - Elements(picks[..i]), After(AddPick, st, picks[..i]), picks[i])
    ensures forall k :: 0 <= k < |picks| ==> picks[k] in Pool(candidates, now)
  {
    PoolIsIdentified(candidates, now);
    GreedyPickIsLeast(CandidateLess, AddPick, Pool(candidates, now), st, limit, i);
    GreedyMembers(CandidateLess, AddPick, Pool(candidates, now), st, limit);
  }

  /** Every pick of a ranking goes before every candidate that is not picked by then, whatever the loads have become. */
  lemma {:induction false} PicksAreFairest(
    candidates: seq<AIJob>, jobs: seq<AIJob>, activities: seq<Activity>, now: Time, limit: nat, i: nat, c: AIJob)
    requires DistinctIds(candidates) && i < |Ranked(candidates, BuildStats(jobs, activities), now, limit)|
    requires c in candidates && c !in Ranked(candidates, BuildStats(jobs, activities), now, limit)[..i + 1]
    ensures var out := Ranked(candidates, BuildStats(jobs, activities), now, limit);
            Fairest(Past(jobs, activities, out[..i]), out[i], c, now)
  {
    var st := BuildStats(jobs, activities);
    RankedIsFair(candidates, st, now, limit);
    StartTells(Past(jobs, activities, []));
    FairPickIsFairest(candidates, st, Past(jobs, activities, []), FairPicks(candidates, st, now, limit), now, limit, i, c);
  }

  lemma {:induction false} FairPickIsFairest(
    candidates: seq<AIJob>, st: Stats, start: Past, picks: seq<Candidate>, now: Time, limit: nat, i: nat, c: AIJob)
    requires DistinctIds(candidates) && picks == FairPicks(candidates, st, now, limit) && i < |picks|
    requires Tells(st, start) && start.picked == [] && c in candidates && c !in Jobs(picks)[..i + 1]
    ensures Fairest(Past(start.jobs, start.activities, Jobs(picks)[..i]), picks[i].job, c, now)
  {
    FairPickIsLeast(candidates, st, picks, now, limit, i);
    EarlierJobs(picks, i);
    var past := Past(start.jobs, start.activities, Jobs(picks[..i]));
    EarlierPicksTell(candidates, st, start, picks[..i], now, past);
    PickIsFairer(candidates, now, picks, i, c, After(AddPick, st, picks[..i]), past);
  }

  lemma EarlierJobs(picks: seq<Candidate>, i: nat)
    requires i <= |picks|
    ensures Jobs(picks)[..i] == Jobs(picks[..i])
  {}

  lemma {:induction false} PickIsFairer(
    candidates: seq<AIJob>, now: Time, picks: seq<Candidate>, i: nat, c: AIJob, state: Stats, past: Past)
    requires i < |picks| && c in candidates && c !in Jobs(picks)[..i + 1] && picks[i] in Pool(candidates, now)
    requires Least(CandidateLess, Pool(candidates, now) - Elements(picks[..i]), state, picks[i]) && Tells(state, past)
    ensures Fairest(past, picks[i].job, c, now)
  {
    StillLeft(candidates, now, picks, i, c);
    PoolIsMade(candidates, now);
    LessIsFairest(state, past, picks[i].job, c, now);
  }

  lemma {:induction false} PoolIsMade(candidates: seq<AIJob>, now: Time)
    ensures forall c :: c in Pool(candidates, now) ==> c == NewCandidate(c.job, now)
    ensures forall job :: job in candidates ==> NewCandidate(job, now) in Pool(candidates, now)
  {
    forall job | job in candidates ensures NewCandidate(job, now) in Pool(candidates, now) {
      var k :| 0 <= k < |candidates| && candidates[k] == job;
      assert NewCandidates(candidates, now)[k] == NewCandidate(job, now);
    }
  }

  lemma {:induction false} StillLeft(candidates: seq<AIJob>, now: Time, picks: seq<Candidate>, i: nat, c: AIJob)
    requires i < |picks| && c in candidates && c !in Jobs(picks)[..i + 1]
    ensures NewCandidate(c, now) in Pool(candidates, now) - Elements(picks[..i]) && NewCandidate(c, now) != picks[i]
  {
    PoolIsMade(candidates, now);
    assert Jobs(picks)[i] in Jobs(picks)[..i + 1];
    forall k | 0 <= k < i ensures picks[k].job != c { assert Jobs(picks)[..i + 1][k] == picks[k].job; }
  }

  // Waiting raises the priority.

  /** A job has at least priority `q` from the moment on when it has waited one minute for each step up from its own
      priority, and nine is the most. */
  lemma {:induction false} WaitingRaisesPriority(job: AIJob, q: int, now: Time)
    requires 0 <= q
    ensures var waits := job.nextEligibleAt != 0 && job.nextEligibleAt > job.createdAt;
            var start := if waits then job.nextEligibleAt else job.createdAt;
            EffectivePriority(job, now) >= q
            <==> q <= 9 && (q <= job.priority || q == 0 || now >= start + (q - Max(job.priority, 0)) * MINUTE)
  {}
}
