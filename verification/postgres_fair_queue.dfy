/** The PostgreSQL form of the fair queue: a window query prunes candidates before ranking,
    and the in-flight and dispatch-activity queries shrink the other two inputs. */
module PostgresFairQueue {
  import opened Text
  import opened JobModel
  import opened Fold
  import opened GreedySelection
  import opened FairQueue

  /** The ORDER BY priority term: LEAST(9, GREATEST(0, priority) + whole minutes waited). */
  function SqlPriority(job: AIJob, now: Time): int {
    Min(MAX_PRIORITY, Max(0, job.priority) + Max(0, (now - job.nextEligibleAt) / MINUTE))
  }

  function StatusRank(job: AIJob): int {
    if job.status == Dispatching then 0 else 1
  }

  predicate SqlBefore(a: AIJob, b: AIJob, now: Time) {
    if StatusRank(a) != StatusRank(b) then StatusRank(a) < StatusRank(b)
    else if SqlPriority(a, now) != SqlPriority(b, now) then SqlPriority(a, now) > SqlPriority(b, now)
    else if a.nextEligibleAt != b.nextEligibleAt then a.nextEligibleAt < b.nextEligibleAt
    else if a.createdAt != b.createdAt then a.createdAt < b.createdAt
    else Less(a.id, b.id)
  }

  /** The rows ahead of one row in its partition: same seven columns, earlier in the window order. */
  ghost function RowsAhead(ready: set<AIJob>, row: AIJob, now: Time): set<AIJob> {
    set other | other in ready && other.scope == row.scope && SqlBefore(other, row, now)
  }

  ghost function OwnerPosition(ready: set<AIJob>, row: AIJob, now: Time): nat {
    1 + |RowsAhead(ready, row, now)|
  }

  /** What the candidate query may return: every row whose owner position is within the limit, once, in any order. */
  ghost predicate CandidateRows(rows: seq<AIJob>, ready: seq<AIJob>, now: Time, perPrincipal: nat) {
    && DistinctIds(rows)
    && forall row :: row in rows <==> row in ready && OwnerPosition(Elements(ready), row, now) <= perPrincipal
  }

  /** The store keeps this of every job: eligibility never precedes creation. */
  ghost predicate WaitsFromEligibility(jobs: seq<AIJob>) {
    forall job :: job in jobs ==> job.nextEligibleAt != 0 && job.nextEligibleAt >= job.createdAt
  }

  ghost predicate SqlPriorityMatches(job: AIJob, now: Time) {
    SqlPriority(job, now) == EffectivePriority(job, now)
  }

  /** The window query counts the wait from eligibility. That is the comparator's priority at every moment exactly when
      the wait starts there, or the priority is already at the top. */
  lemma {:induction false} SqlPriorityAgrees(job: AIJob)
    ensures (forall now :: SqlPriorityMatches(job, now))
       <==> (job.nextEligibleAt == WaitStartedAt(job) || job.priority >= MAX_PRIORITY)
  {
    if job.nextEligibleAt != WaitStartedAt(job) && job.priority < MAX_PRIORITY {
      assert !SqlPriorityMatches(job, Min(job.nextEligibleAt, WaitStartedAt(job)) + MINUTE);
    }
  }

  /** A job made eligible five minutes before its creation: the query already counts them. */
  lemma {:induction false} SqlPriorityDiffersBeforeCreation(job: AIJob, now: Time)
    requires job.priority == 0 && job.nextEligibleAt == 5 * MINUTE && job.createdAt == now == 10 * MINUTE
    ensures SqlPriority(job, now) == 5 && EffectivePriority(job, now) == 0
  {}

  lemma {:induction false} SqlBeforeTransitive(a: AIJob, b: AIJob, c: AIJob, now: Time)
    requires SqlBefore(a, b, now) && SqlBefore(b, c, now)
    ensures SqlBefore(a, c, now)
  {
    if Less(a.id, b.id) && Less(b.id, c.id) { LessTransitive(a.id, b.id, c.id); }
  }

  lemma {:induction false} RowsAheadShrink(ready: set<AIJob>, y: AIJob, x: AIJob, now: Time)
    requires y in RowsAhead(ready, x, now)
    ensures RowsAhead(ready, y, now) < RowsAhead(ready, x, now)
    ensures |RowsAhead(ready, y, now)| < |RowsAhead(ready, x, now)|
  {
    LessIrreflexive(y.id);
    forall z | z in RowsAhead(ready, y, now) ensures z in RowsAhead(ready, x, now) {
      SqlBeforeTransitive(z, y, x, now);
    }
    assert y !in RowsAhead(ready, y, now);
    SubsetSize(RowsAhead(ready, y, now), RowsAhead(ready, x, now) - {y});
  }

  /** A row past the limit has `limit` rows of its own partition ahead of it that are within the limit. */
  lemma {:induction false} KeptRowsAhead(ready: set<AIJob>, x: AIJob, limit: nat, now: Time) returns (ahead: set<AIJob>)
    requires |RowsAhead(ready, x, now)| >= limit
    ensures ahead <= RowsAhead(ready, x, now) && |ahead| >= limit
    ensures forall y :: y in ahead ==> OwnerPosition(ready, y, now) <= limit
    decreases |RowsAhead(ready, x, now)|
  {
    if y :| y in RowsAhead(ready, x, now) && OwnerPosition(ready, y, now) > limit {
      RowsAheadShrink(ready, y, x, now);
      ahead := KeptRowsAhead(ready, y, limit, now);
    } else {
      ahead := RowsAhead(ready, x, now);
    }
  }

  /** Inside one partition the window order is the comparator, whatever the loads. */
  lemma {:induction false} WindowOrderIsComparator(a: AIJob, b: AIJob, now: Time)
    requires a.scope == b.scope && SqlBefore(a, b, now)
    requires SqlPriorityMatches(a, now) && SqlPriorityMatches(b, now)
    requires a.status in {Queued, Dispatching} && b.status in {Queued, Dispatching}
    ensures AlwaysLess(CandidateLess, NewCandidate(a, now), NewCandidate(b, now))
  {}

  ghost predicate ReadyRows(ready: seq<AIJob>, now: Time) {
    forall job :: job in ready ==> job.status in {Queued, Dispatching} && SqlPriorityMatches(job, now)
  }

  lemma InPool(jobs: seq<AIJob>, job: AIJob, now: Time)
    ensures job in jobs <==> NewCandidate(job, now) in Pool(jobs, now)
  {}

  ghost function CandidatesOf(jobs: set<AIJob>, now: Time): set<Candidate> {
    set job | job in jobs :: NewCandidate(job, now)
  }

  lemma {:induction false} CandidatesOfSize(jobs: set<AIJob>, now: Time)
    ensures |CandidatesOf(jobs, now)| == |jobs|
  {
    if jobs != {} {
      var job :| job in jobs;
      CandidatesOfSize(jobs - {job}, now);
      var c := NewCandidate(job, now);
      assert c !in CandidatesOf(jobs - {job}, now);
      assert CandidatesOf(jobs, now) == CandidatesOf(jobs - {job}, now) + {c};
    }
  }

  lemma {:induction false} PrunedRowIsBehind(
    rows: seq<AIJob>, ready: seq<AIJob>, now: Time, perPrincipal: nat, job: AIJob)
    requires CandidateRows(rows, ready, now, perPrincipal) && ReadyRows(ready, now)
    requires job in ready && job !in rows
    ensures exists ahead :: Behind(CandidateLess, Pool(rows, now), perPrincipal, NewCandidate(job, now), ahead)
  {
    var ahead := KeptRowsAhead(Elements(ready), job, perPrincipal, now);
    CandidatesOfSize(ahead, now);
    var cs := CandidatesOf(ahead, now);
    forall c | c in cs ensures c in Pool(rows, now) && AlwaysLess(CandidateLess, c, NewCandidate(job, now)) {
      var other :| other in ahead && c == NewCandidate(other, now);
      assert other in ready;
      InPool(rows, other, now);
      WindowOrderIsComparator(other, job, now);
    }
    assert Behind(CandidateLess, Pool(rows, now), perPrincipal, NewCandidate(job, now), cs);
  }

  lemma {:induction false} PrunedRowsCover(rows: seq<AIJob>, ready: seq<AIJob>, now: Time, perPrincipal: nat)
    requires CandidateRows(rows, ready, now, perPrincipal) && ReadyRows(ready, now)
    ensures Covers(CandidateLess, Pool(ready, now), Pool(rows, now), perPrincipal)
  {
    forall c | c in Pool(rows, now) ensures c in Pool(ready, now) {
      var i :| 0 <= i < |rows| && NewCandidates(rows, now)[i] == c;
      InPool(ready, rows[i], now);
    }
    forall c | c in Pool(ready, now) && c !in Pool(rows, now)
      ensures exists ahead :: Behind(CandidateLess, Pool(rows, now), perPrincipal, c, ahead)
    {
      var i :| 0 <= i < |ready| && NewCandidates(ready, now)[i] == c;
      InPool(rows, ready[i], now);
      PrunedRowIsBehind(rows, ready, now, perPrincipal, ready[i]);
    }
  }

  /** Ranking the pruned rows gives the first picks of ranking every ready job, whatever the loads. */
  lemma {:induction false} PrunedRankingLosesNothing(
    rows: seq<AIJob>, ready: seq<AIJob>, st: Stats, now: Time, limit: nat)
    requires DistinctIds(ready) && ReadyRows(ready, now) && CandidateRows(rows, ready, now, limit)
    ensures Ranked(rows, st, now, limit) == Ranked(ready, st, now, limit)
  {
    PoolIsIdentified(ready, now);
    PoolIsIdentified(rows, now);
    PrunedRowsCover(rows, ready, now, limit);
    PruningLosesNothing(CandidateLess, AddPick, Pool(ready, now), Pool(rows, now), st, limit);
    RankedIsFair(rows, st, now, limit);
    RankedIsFair(ready, st, now, limit);
  }

  // The other two queries.

  function InFlightJob(job: AIJob): bool {
    InFlight(job.status)
  }

  lemma {:induction false} InFlightRowsSuffice(jobs: seq<AIJob>)
    ensures FoldLeft(AddJob, NoStats(), Filter(InFlightJob, jobs)) == FoldLeft(AddJob, NoStats(), jobs)
  {
    FoldFilter(AddJob, NoStats(), InFlightJob, jobs);
  }

  /** What the activity query may return: one row per owner that was ever dispatched, with its latest dispatch. */
  ghost predicate ActivityRows(rows: seq<Activity>, activities: seq<Activity>) {
    && Elements(rows) <= Elements(activities)
    && (forall a :: a in activities ==>
          exists row :: row in rows && row.scope == a.scope && row.dispatchedAt >= a.dispatchedAt)
  }

  /** `level` holds exactly the latest dispatch of every key. */
  ghost predicate Latest(last: map<string, Time>, activities: seq<Activity>, keyOf: Scope -> string) {
    && (forall a :: a in activities && a.dispatchedAt != 0 ==>
          keyOf(a.scope) in last && last[keyOf(a.scope)] >= a.dispatchedAt)
    && (forall k :: k in last ==>
          exists a :: a in activities && a.dispatchedAt != 0 && keyOf(a.scope) == k && last[k] == a.dispatchedAt)
  }

  ghost predicate LatestLevels(st: Stats, activities: seq<Activity>) {
    && Latest(st.profile.lastDispatchAt, activities, ProfileKey)
    && Latest(st.tenant.lastDispatchAt, activities, TenantKey)
    && Latest(st.principal.lastDispatchAt, activities, PrincipalKey)
  }

  ghost predicate NeverDispatched(st: Stats) {
    st.profile.lastDispatchAt == st.tenant.lastDispatchAt == st.principal.lastDispatchAt == map[]
  }

  ghost predicate SameCounts(a: Stats, b: Stats) {
    && a.profile.inFlight == b.profile.inFlight && a.profile.selected == b.profile.selected
    && a.tenant.inFlight == b.tenant.inFlight && a.tenant.selected == b.tenant.selected
    && a.principal.inFlight == b.principal.inFlight && a.principal.selected == b.principal.selected
  }

  lemma {:induction false} LatestStep(level: Level, activities: seq<Activity>, keyOf: Scope -> string, a: Activity)
    requires Latest(level.lastDispatchAt, activities, keyOf)
    ensures var next := if a.dispatchedAt != 0 then AddDispatch(level, keyOf(a.scope), a.dispatchedAt) else level;
            && Latest(next.lastDispatchAt, activities + [a], keyOf)
            && next.inFlight == level.inFlight && next.selected == level.selected
  {}

  lemma {:induction false} LatestLevelsStep(st: Stats, before: seq<Activity>, a: Activity)
    requires LatestLevels(st, before)
    ensures LatestLevels(AddActivity(st, a), before + [a])
    ensures SameCounts(AddActivity(st, a), st)
  {
    LatestStep(st.profile, before, ProfileKey, a);
    LatestStep(st.tenant, before, TenantKey, a);
    LatestStep(st.principal, before, PrincipalKey, a);
  }

  /** Folding activities records the latest dispatch of every key at every level. */
  lemma {:induction false} FoldRecordsLatest(initial: Stats, activities: seq<Activity>)
    requires NeverDispatched(initial)
    ensures LatestLevels(FoldLeft(AddActivity, initial, activities), activities)
    ensures SameCounts(FoldLeft(AddActivity, initial, activities), initial)
  {
    if activities != [] {
      var n := |activities| - 1;
      FoldRecordsLatest(initial, activities[..n]);
      LatestLevelsStep(FoldLeft(AddActivity, initial, activities[..n]), activities[..n], activities[n]);
      assert activities[..n] + [activities[n]] == activities;
    }
  }

  lemma {:induction false} LatestIsDetermined(
    fewer: map<string, Time>, rows: seq<Activity>, all: map<string, Time>, activities: seq<Activity>, keyOf: Scope -> string)
    requires Latest(fewer, rows, keyOf) && Latest(all, activities, keyOf) && ActivityRows(rows, activities)
    requires forall a :: a in activities ==> a.dispatchedAt >= 0
    ensures fewer == all
  {
    forall k | k in fewer ensures k in all && fewer[k] <= all[k] {
      var a :| a in rows && a.dispatchedAt != 0 && keyOf(a.scope) == k && fewer[k] == a.dispatchedAt;
      assert a in Elements(rows);
    }
    forall k | k in all ensures k in fewer && all[k] <= fewer[k] {
      var a :| a in activities && a.dispatchedAt != 0 && keyOf(a.scope) == k && all[k] == a.dispatchedAt;
      var row :| row in rows && row.scope == a.scope && row.dispatchedAt >= a.dispatchedAt;
    }
  }

  /** The in-flight and activity queries lose nothing: they lead to the same loads. */
  lemma {:induction false} SmallQueriesGiveSameStats(
    jobs: seq<AIJob>, rows: seq<Activity>, activities: seq<Activity>)
    requires ActivityRows(rows, activities) && forall a :: a in activities ==> a.dispatchedAt >= 0
    ensures BuildStats(Filter(InFlightJob, jobs), rows) == BuildStats(jobs, activities)
  {
    InFlightRowsSuffice(jobs);
    var initial := FoldLeft(AddJob, NoStats(), jobs);
    JobsNeverDispatch(jobs);
    FoldRecordsLatest(initial, rows);
    FoldRecordsLatest(initial, activities);
    var fewer, all := FoldLeft(AddActivity, initial, rows), FoldLeft(AddActivity, initial, activities);
    LatestIsDetermined(fewer.profile.lastDispatchAt, rows, all.profile.lastDispatchAt, activities, ProfileKey);
    LatestIsDetermined(fewer.tenant.lastDispatchAt, rows, all.tenant.lastDispatchAt, activities, TenantKey);
    LatestIsDetermined(fewer.principal.lastDispatchAt, rows, all.principal.lastDispatchAt, activities, PrincipalKey);
  }

  lemma {:induction false} JobsNeverDispatch(jobs: seq<AIJob>)
    ensures NeverDispatched(FoldLeft(AddJob, NoStats(), jobs))
  {
    if jobs != [] { JobsNeverDispatch(jobs[..|jobs| - 1]); }
  }

  /** What the three queries and the ranking of all returned rows give, cut to the limit, is what ranking
      the whole store gives. */
  lemma {:induction false} PostgresRanksLikeMemory(
    rows: seq<AIJob>, ready: seq<AIJob>, jobs: seq<AIJob>, activityRows: seq<Activity>, activities: seq<Activity>,
    now: Time, limit: nat)
    requires DistinctIds(ready) && (forall job :: job in ready ==> ReadyForClaim(job, now)) && WaitsFromEligibility(ready)
    requires CandidateRows(rows, ready, now, limit)
    requires ActivityRows(activityRows, activities) && forall a :: a in activities ==> a.dispatchedAt >= 0
    ensures var sql := Ranked(rows, BuildStats(Filter(InFlightJob, jobs), activityRows), now, |rows|);
            var memory := Ranked(ready, BuildStats(jobs, activities), now, limit);
            |memory| <= |sql| && memory == sql[..|memory|]
            && (|memory| == limit || |memory| == |sql|)
  {
    forall job | job in ready ensures SqlPriorityMatches(job, now) {
      SqlPriorityAgrees(job);
    }
    var st := BuildStats(jobs, activities);
    SmallQueriesGiveSameStats(jobs, activityRows, activities);
    PrunedRankingLosesNothing(rows, ready, st, now, limit);
    RankingConservesWork(rows, st, now, limit);
    RankingConservesWork(rows, st, now, |rows|);
    if limit <= |rows| {
      RankingPrefix(rows, st, now, limit, |rows|);
    } else {
      RankingPrefix(rows, st, now, |rows|, limit);
    }
  }
}
