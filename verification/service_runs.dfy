/** Runs of the service: store and ready index stay in step, and claims lose no work. */
module ServiceRuns {
  import opened Text
  import opened JobModel
  import opened FairQueue
  import opened JobStore
  import opened JobHistory
  import opened JobRuns
  import opened Admission
  import opened JobClaims
  import opened ReadyIndex
  import opened JobService
  import Runs = StoreRuns
  import Listings = MemoryRepository

  datatype Call =
    | Begin(id: string, operationID: string, scope: Scope, submission: Submission)
    | ClientCancel(id: string, owner: Scope)
    | AdminCancel(id: string)
    | Perform(id: string, step: Step)
    | ClaimReady(indexed: seq<Entry>, picks: seq<AIJob>, more: seq<AIJob>, lease: Lease)

  datatype System = System(store: Store, cache: Cache)

  /** One call of the service, store and index together. */
  ghost function Serve(s: System, call: Call, at: Time, limits: Limits): System {
    match call
    case Begin(id, operationID, scope, submission) =>
      var job := NewJob(id, operationID, scope, submission, at);
      var reply := Create(s.store, job, limits);
      System(reply.store, FollowCreate(s.cache, job, reply.outcome))
    case ClientCancel(id, owner) =>
      if id in s.store.jobs && !OwnerMatches(s.store.jobs[id].scope, owner) then s
      else
        var reply := Act(s.store, id, Step.Canceling(CLIENT_REASON), at);
        System(reply.store, FollowCancel(s.cache, reply.outcome))
    case AdminCancel(id) => System(Act(s.store, id, Step.Canceling(ADMIN_REASON), at).store, s.cache)
    case Perform(id, step) =>
      var reply := Act(s.store, id, step, at);
      if step.Transitioning? || step.Requeuing? || step.Extending? then
        System(reply.store, Follow(s.cache, id, step.version, reply.outcome))
      else s
    case ClaimReady(indexed, picks, more, lease) =>
      var first := ClaimFirst(s.store, picks, lease, at);
      var second := ClaimAll(first.store, more, lease, at);
      System(second.store, ClaimCache(s.cache, first, indexed, second, at))
  }

  ghost predicate ProperCall(s: System, call: Call, at: Time) {
    && at > 0
    && match call
       case Begin(id, operationID, scope, submission) => Projectable(NewJob(id, operationID, scope, submission, at))
       case Perform(id, step) => ProperAt(s.store, id, step, at)
       case ClaimReady(_, picks, more, lease) => TwoRounds(s.store, picks, more, lease, at)
       case _ => true
  }

  datatype Timed = Timed(call: Call, at: Time)

  ghost function Run(calls: seq<Timed>, limits: Limits): System {
    if calls == [] then System(Store(map[], map[], map[], map[]), Cache(map[], 0))
    else Serve(Run(calls[..|calls| - 1], limits), calls[|calls| - 1].call, calls[|calls| - 1].at, limits)
  }

  ghost predicate Orderly(calls: seq<Timed>, limits: Limits) {
    && (forall i, j :: 0 <= i < j < |calls| ==> calls[i].at <= calls[j].at)
    && (forall i :: 0 <= i < |calls| ==> ProperCall(Run(calls[..i], limits), calls[i].call, calls[i].at))
  }

  ghost predicate Healthy(s: System, at: Time) {
    Ground(s.store, at) && Synced(s.store.jobs, s.cache)
  }

  lemma {:induction false} ActKeepsGround(store: Store, id: string, step: Step, at: Time)
    requires Ground(store, at) && ProperAt(store, id, step, at)
    ensures Ground(Act(store, id, step, at).store, at)
  {
    ActKeepsValid(store, id, step, at);
    ActKeepsProjectable(store, id, step, at);
    ActEvolves(store, id, step, at);
    ActKeepsKeys(store, id, step, at);
    StillCreatedBy(store, Act(store, id, step, at).store, at);
  }

  lemma {:induction false} CreatedStaysProjectable(store: Store, job: AIJob, limits: Limits)
    requires AllProjectable(store.jobs) && Projectable(job) && forall id :: id in store.jobs ==> store.jobs[id].id == id
    ensures AllProjectable(Create(store, job, limits).store.jobs)
  {}

  lemma {:induction false} BeginKeepsHealthy(s: System, call: Call, at: Time, limits: Limits)
    requires Healthy(s, at) && ProperCall(s, call, at) && call.Begin?
    ensures Healthy(Serve(s, call, at, limits), at)
  {
    var turn := Runs.Turn(Runs.Creating(call.id, call.operationID, call.scope, call.submission), at);
    Runs.StartsFit(turn);
    Runs.CreateKeeps(s.store, turn, limits);
    CreatedStaysProjectable(s.store, Runs.JobOf(turn), limits);
    CreateIsFollowed(s.store, s.cache, Runs.JobOf(turn), limits);
  }

  lemma {:induction false} ServeKeepsHealthy(s: System, call: Call, at: Time, limits: Limits)
    requires Healthy(s, at) && ProperCall(s, call, at)
    ensures Healthy(Serve(s, call, at, limits), at)
  {
    match call
    case Begin(_, _, _, _) => BeginKeepsHealthy(s, call, at, limits);
    case ClientCancel(id, _) =>
      ActKeepsGround(s.store, id, Step.Canceling(CLIENT_REASON), at);
      ClientCancelIsFollowed(s.store, s.cache, id, at);
    case AdminCancel(id) =>
      ActKeepsGround(s.store, id, Step.Canceling(ADMIN_REASON), at);
      AdminCancelKeepsStep(s.store, s.cache, id, at);
    case Perform(id, step) =>
      if step.Transitioning? || step.Requeuing? || step.Extending? {
        ActKeepsGround(s.store, id, step, at);
        StepIsFollowed(s.store, s.cache, id, step, at);
      }
    case ClaimReady(indexed, picks, more, lease) =>
      ClaimKeepsStep(s.store, s.cache, indexed, picks, more, lease, at);
  }

  lemma HealthyLater(s: System, at: Time, later: Time)
    requires Healthy(s, at) && at <= later
    ensures Healthy(s, later)
  {}

  lemma {:induction false} OrderlyPrefix(calls: seq<Timed>, limits: Limits, n: nat)
    requires Orderly(calls, limits) && n <= |calls|
    ensures Orderly(calls[..n], limits)
  {
    forall i | 0 <= i < n ensures ProperCall(Run(calls[..n][..i], limits), calls[..n][i].call, calls[..n][i].at) {
      assert calls[..n][..i] == calls[..i];
      assert ProperCall(Run(calls[..i], limits), calls[i].call, calls[i].at);
    }
  }

  lemma StartIsHealthy(at: Time)
    ensures Healthy(System(Store(map[], map[], map[], map[]), Cache(map[], 0)), at)
  {}

  /** After every run of calls each waiting job has its current projection in the index, no entry is ahead of the store,
      and no registration was ever refused. */
  lemma {:induction false} CacheIsComplete(calls: seq<Timed>, limits: Limits, now: Time)
    requires Orderly(calls, limits) && (calls != [] ==> calls[|calls| - 1].at <= now)
    ensures Healthy(Run(calls, limits), now)
  {
    if calls == [] {
      StartIsHealthy(now);
    } else {
      var n := |calls| - 1;
      OrderlyPrefix(calls, limits, n);
      CacheIsComplete(calls[..n], limits, calls[n].at);
      assert calls[..|calls|] == calls && ProperCall(Run(calls[..n], limits), calls[n].call, calls[n].at);
      ServeKeepsHealthy(Run(calls[..n], limits), calls[n].call, calls[n].at, limits);
      HealthyLater(Run(calls, limits), calls[n].at, now);
    }
  }

  // Claims lose no work, whatever the index says.

  lemma {:induction false} DistinctAcross(a: seq<AIJob>, b: seq<AIJob>)
    requires DistinctIds(a) && DistinctIds(b)
    requires forall i, j :: 0 <= i < |a| && 0 <= j < |b| ==> a[i].id != b[j].id
    ensures DistinctIds(a + b)
  {}

  lemma {:induction false} IDsSize(list: seq<AIJob>)
    requires DistinctIds(list)
    ensures |IDs(list)| == |list|
  {
    if list != [] {
      var n := |list| - 1;
      IDsSize(list[..n]);
      IDsOneMore(list, n);
      forall i | 0 <= i < n ensures list[..n][i].id != list[n].id {}
    }
  }

  lemma {:induction false} ReadyAfterBatch(store: Store, batch: Batch, picks: seq<AIJob>, lease: Lease, now: Time)
    requires ClaimedExactly(store, batch, picks, lease) && Candidates(store, picks, now) && lease.until > now
    ensures JobClaims.ReadyIDs(batch.store, now) == JobClaims.ReadyIDs(store, now) - IDs(picks)
    ensures IDs(picks) <= JobClaims.ReadyIDs(store, now)
  {}

  lemma SizeWithout<T>(all: set<T>, some: set<T>)
    requires some <= all
    ensures |all - some| == |all| - |some|
  {}

  ghost predicate ClaimedTwice(store: Store, first: Batch, second: Batch, picks: seq<AIJob>, more: seq<AIJob>, lease: Lease, now: Time) {
    && ClaimedExactly(store, first, picks, lease) && ClaimedExactly(first.store, second, more, lease)
    && Candidates(store, picks, now) && Candidates(first.store, more, now) && lease.until > now
  }

  lemma {:induction false} RoundsAddUp(ready: set<string>, taken: set<string>, n: nat, m: nat, limit: nat)
    requires taken <= ready && |taken| == n <= limit && m == Min(limit - n, |ready - taken|)
    ensures n + m == Min(limit, |ready|)
  {
    SizeWithout(ready, taken);
  }

  /** The ids of a claim: distinct, ready before, and as many as the limit and the store allow. */
  lemma {:induction false} ClaimedIDs(
    store: Store, first: Batch, second: Batch, picks: seq<AIJob>, more: seq<AIJob>, lease: Lease, now: Time, limit: nat)
    requires ClaimedTwice(store, first, second, picks, more, lease, now) && |picks| <= limit
    requires |more| == Min(limit - |picks|, |JobClaims.ReadyIDs(first.store, now)|)
    ensures |picks| + |more| == Min(limit, |JobClaims.ReadyIDs(store, now)|)
    ensures IDs(first.claimed + second.claimed) <= JobClaims.ReadyIDs(store, now)
  {
    ReadyAfterBatch(store, first, picks, lease, now);
    IDsSize(picks);
    RoundsAddUp(JobClaims.ReadyIDs(store, now), IDs(picks), |picks|, |more|, limit);
    ClaimedWereReady(store, first, second, picks, more, lease, now);
  }

  lemma {:induction false} ClaimedWereReady(
    store: Store, first: Batch, second: Batch, picks: seq<AIJob>, more: seq<AIJob>, lease: Lease, now: Time)
    requires ClaimedTwice(store, first, second, picks, more, lease, now)
    ensures IDs(first.claimed + second.claimed) <= JobClaims.ReadyIDs(store, now)
  {
    ReadyAfterBatch(store, first, picks, lease, now);
    ReadyAfterBatch(first.store, second, more, lease, now);
    SameIDs(first.claimed, picks);
    SameIDs(second.claimed, more);
    IDsConcat(first.claimed, second.claimed);
  }

  /** The jobs of a claim were stored and are now leased; every other job is as it was. */
  ghost predicate AllLeased(before: Store, after: Store, jobs: seq<AIJob>, lease: Lease) {
    && after.jobs.Keys == before.jobs.Keys && AllStored(after.jobs, jobs)
    && (forall i :: 0 <= i < |jobs| ==> jobs[i].id in before.jobs && Holds(before.jobs[jobs[i].id], jobs[i], lease))
    && (forall id :: id in before.jobs && id !in IDs(jobs) ==> after.jobs[id] == before.jobs[id])
  }

  lemma {:induction false} BothRoundsLease(
    store: Store, first: Batch, second: Batch, picks: seq<AIJob>, more: seq<AIJob>, lease: Lease, now: Time)
    requires ClaimedTwice(store, first, second, picks, more, lease, now) && AllStored(second.store.jobs, first.claimed + second.claimed)
    requires forall i, j :: 0 <= i < |picks| && 0 <= j < |more| ==> picks[i].id != more[j].id
    ensures AllLeased(store, second.store, first.claimed + second.claimed, lease)
  {
    var jobs := first.claimed + second.claimed;
    forall i | 0 <= i < |jobs| ensures jobs[i].id in store.jobs && Holds(store.jobs[jobs[i].id], jobs[i], lease) {
      EachIsLeased(store, first, second, picks, more, lease, now, i);
    }
    OthersStay(store, first, second, picks, more, lease);
  }

  lemma {:induction false} EachIsLeased(
    store: Store, first: Batch, second: Batch, picks: seq<AIJob>, more: seq<AIJob>, lease: Lease, now: Time, i: nat)
    requires ClaimedTwice(store, first, second, picks, more, lease, now) && i < |picks| + |more|
    requires forall i, j :: 0 <= i < |picks| && 0 <= j < |more| ==> picks[i].id != more[j].id
    ensures var job := (first.claimed + second.claimed)[i]; job.id in store.jobs && Holds(store.jobs[job.id], job, lease)
  {
    var jobs := first.claimed + second.claimed;
    JobService.CandidatesAreStored(store, picks, now);
    JobService.CandidatesAreStored(first.store, more, now);
    if i < |picks| {
      assert jobs[i] == first.claimed[i];
    } else {
      assert jobs[i] == second.claimed[i - |picks|] && jobs[i].id == more[i - |picks|].id;
    }
  }

  lemma {:induction false} OthersStay(
    store: Store, first: Batch, second: Batch, picks: seq<AIJob>, more: seq<AIJob>, lease: Lease)
    requires ClaimedExactly(store, first, picks, lease) && ClaimedExactly(first.store, second, more, lease)
    ensures forall id :: id in store.jobs && id !in IDs(first.claimed + second.claimed) ==>
              id in second.store.jobs && second.store.jobs[id] == store.jobs[id]
  {
    var jobs := first.claimed + second.claimed;
    forall id | id in store.jobs && id !in IDs(jobs) ensures id in second.store.jobs && second.store.jobs[id] == store.jobs[id] {
      forall i | 0 <= i < |picks| ensures picks[i].id != id { assert jobs[i].id in IDs(jobs); }
      forall j | 0 <= j < |more| ensures more[j].id != id { assert jobs[|picks| + j].id in IDs(jobs); }
    }
  }

  /** Two rounds take as many distinct ready jobs as the limit and the store allow when the second alone takes all it can. */
  lemma {:induction false} TwoRoundsConserveWork(
    store: Store, picks: seq<AIJob>, more: seq<AIJob>, lease: Lease, now: Time, limit: nat)
    requires Ground(store, now) && TwoRounds(store, picks, more, lease, now) && |picks| <= limit
    requires var first := ClaimFirst(store, picks, lease, now);
             |more| == Min(limit - |picks|, |JobClaims.ReadyIDs(first.store, now)|)
    ensures var first := ClaimFirst(store, picks, lease, now);
            var second := ClaimAll(first.store, more, lease, now);
            && ClaimedTwice(store, first, second, picks, more, lease, now)
            && |first.claimed + second.claimed| == Min(limit, |JobClaims.ReadyIDs(store, now)|)
            && DistinctIds(picks + more) && IDs(first.claimed + second.claimed) <= JobClaims.ReadyIDs(store, now)
            && AllLeased(store, second.store, first.claimed + second.claimed, lease)
  {
    var first := ClaimFirst(store, picks, lease, now);
    BatchIsUsable(store, picks, lease, now);
    BatchIsUsable(first.store, more, lease, now);
    var second := ClaimAll(first.store, more, lease, now);
    SecondRoundIsNew(store, first, picks, more, lease, now);
    ClaimedStay(store, first, second, picks, more, lease);
    DistinctAcross(picks, more);
    ClaimedIDs(store, first, second, picks, more, lease, now, limit);
    BothRoundsLease(store, first, second, picks, more, lease, now);
  }

  /** Whatever jobs the index makes the first round look at, ranking them and then all that are ready takes as many distinct
      ready jobs as the limit and the store allow, leaves each leased, and changes no other. */
  lemma {:induction false} ClaimsConserveWork(
    store: Store, looked: AIJob -> bool, one: Listings.Lists, picks: seq<AIJob>, first: Batch,
    two: Listings.Lists, more: seq<AIJob>, second: Batch, lease: Lease, now: Time, limit: nat, room: int)
    requires Ground(store, now) && RealLease(lease, now) && forall job :: looked(job) ==> ReadyForClaim(job, now)
    requires Listings.Listing(one, store, looked) && picks == Listings.RankLists(one, now, limit)
    requires first == ClaimFirst(store, picks, lease, now) && Listings.Listing(two, first.store, Listings.ReadyAt(now))
    requires room == limit - |picks| && more == Listings.RankLists(two, now, room)
    requires second == ClaimAll(first.store, more, lease, now)
    ensures !first.failed && !second.failed && |first.claimed + second.claimed| == Min(limit, |JobClaims.ReadyIDs(store, now)|)
    ensures DistinctIds(first.claimed + second.claimed) && IDs(first.claimed + second.claimed) <= JobClaims.ReadyIDs(store, now)
    ensures AllLeased(store, second.store, first.claimed + second.claimed, lease)
  {
    FirstRoundSize(store, looked, one, picks, now, limit);
    RankedRounds(store, picks, first.store, two, more, lease, now, room);
    TwoRoundsConserveWork(store, picks, more, lease, now, limit);
    ClaimedApart(store, first, second, picks, more, lease, now);
  }

  lemma {:induction false} RankedRounds(
    store: Store, picks: seq<AIJob>, middle: Store, lists: Listings.Lists, more: seq<AIJob>, lease: Lease, now: Time, room: nat)
    requires Ground(store, now) && RealLease(lease, now) && Candidates(store, picks, now)
    requires middle == ClaimFirst(store, picks, lease, now).store && Listings.Listing(lists, middle, Listings.ReadyAt(now))
    requires more == Listings.RankLists(lists, now, room)
    ensures TwoRounds(store, picks, more, lease, now) && |more| == Min(room, |JobClaims.ReadyIDs(middle, now)|)
  {
    FirstRoundIsGround(store, picks, lease, now, middle);
    SecondRoundSize(middle, lists, now, room, more);
    RoundsFollow(store, picks, middle, more, lease, now);
  }

  lemma RoundsFollow(store: Store, picks: seq<AIJob>, middle: Store, more: seq<AIJob>, lease: Lease, now: Time)
    requires RealLease(lease, now) && Candidates(store, picks, now) && Candidates(middle, more, now)
    requires middle == ClaimFirst(store, picks, lease, now).store
    ensures TwoRounds(store, picks, more, lease, now)
  {}

  lemma {:induction false} FirstRoundSize(
    store: Store, looked: AIJob -> bool, lists: Listings.Lists, picks: seq<AIJob>, now: Time, limit: nat)
    requires Listings.Listing(lists, store, looked) && picks == Listings.RankLists(lists, now, limit)
    requires forall job :: looked(job) ==> ReadyForClaim(job, now)
    ensures Candidates(store, picks, now) && |picks| <= limit
  {
    Listings.PicksAreCandidates(lists, store, looked, now, limit);
  }

  lemma {:induction false} FirstRoundIsGround(store: Store, picks: seq<AIJob>, lease: Lease, now: Time, middle: Store)
    requires Ground(store, now) && RealLease(lease, now) && Candidates(store, picks, now)
    requires middle == ClaimFirst(store, picks, lease, now).store
    ensures Ground(middle, now)
  {
    BatchIsUsable(store, picks, lease, now);
  }

  lemma {:induction false} ClaimedApart(
    store: Store, first: Batch, second: Batch, picks: seq<AIJob>, more: seq<AIJob>, lease: Lease, now: Time)
    requires ClaimedTwice(store, first, second, picks, more, lease, now) && DistinctIds(picks + more)
    ensures !first.failed && !second.failed && DistinctIds(first.claimed + second.claimed)
  {
    SameAcross(first.claimed, picks, second.claimed, more);
  }

  lemma {:induction false} SecondRoundSize(store: Store, lists: Listings.Lists, now: Time, room: nat, more: seq<AIJob>)
    requires Ground(store, now) && Listings.Listing(lists, store, Listings.ReadyAt(now))
    requires more == Listings.RankLists(lists, now, room)
    ensures Candidates(store, more, now) && |more| == Min(room, |JobClaims.ReadyIDs(store, now)|)
  {
    ValidIsUsable(store);
    Listings.PicksAreCandidates(lists, store, Listings.ReadyAt(now), now, room);
    Listings.ListSize(lists.candidates, store, Listings.ReadyAt(now));
    ReadyAreChosen(store, now);
  }

  lemma ReadyAreChosen(store: Store, now: Time)
    ensures Listings.ChosenIDs(store, Listings.ReadyAt(now)) == JobClaims.ReadyIDs(store, now)
  {}

  lemma SameAcross(a: seq<AIJob>, b: seq<AIJob>, c: seq<AIJob>, d: seq<AIJob>)
    requires |a| == |b| && |c| == |d| && DistinctIds(b + d)
    requires (forall i :: 0 <= i < |a| ==> a[i].id == b[i].id) && forall i :: 0 <= i < |c| ==> c[i].id == d[i].id
    ensures DistinctIds(a + c)
  {
    forall i | 0 <= i < |a + c| ensures (a + c)[i].id == (b + d)[i].id {
      if i >= |a| { assert (a + c)[i] == c[i - |a|] && (b + d)[i] == d[i - |a|]; }
    }
  }

  lemma SameIDs(a: seq<AIJob>, b: seq<AIJob>)
    requires |a| == |b| && forall i :: 0 <= i < |a| ==> a[i].id == b[i].id
    ensures IDs(a) == IDs(b)
  {}

  /** No job is ever stranded: in a healthy system every job that waits can be claimed at some moment. */
  lemma {:induction false} WaitingJobsBecomeReady(s: System, id: string, at: Time)
    requires Healthy(s, at) && id in s.store.jobs && Waits(s.store.jobs[id])
    ensures ReadyForClaim(s.store.jobs[id], ReadyTime(s.store.jobs[id]))
    ensures forall now :: ReadyForClaim(s.store.jobs[id], now) <==> ReadyTime(s.store.jobs[id]) <= now
  {
    assert Fit(s.store.jobs[id]);
  }
}
