/** Claiming a batch of ranked candidates under one lock. */
module JobClaims {
  import opened Text
  import opened JobModel
  import opened FairQueue
  import opened JobStore
  import opened JobHistory
  import opened JobRuns

  datatype Batch = Batch(store: Store, claimed: seq<AIJob>, failed: bool)

  /** The candidates one after another; a failure ends the batch and keeps what was done. */
  function ClaimAll(store: Store, picks: seq<AIJob>, lease: Lease, now: Time): Batch
    decreases |picks|
  {
    if picks == [] then Batch(store, [], false)
    else
      var reply := AfterClaim(store, picks[0], lease, now);
      if !reply.outcome.Changed? then Batch(reply.store, [], true)
      else
        var rest := ClaimAll(reply.store, picks[1..], lease, now);
        Batch(rest.store, [reply.outcome.job] + rest.claimed, rest.failed)
  }

  /** The batch from candidate `i` on, when `claimed` were claimed before it. */
  function ClaimRest(store: Store, claimed: seq<AIJob>, picks: seq<AIJob>, i: nat, lease: Lease, now: Time): Batch
    requires i <= |picks|
  {
    var rest := ClaimAll(store, picks[i..], lease, now);
    Batch(rest.store, claimed + rest.claimed, rest.failed)
  }

  lemma {:induction false} ClaimRestStep(
    store: Store, claimed: seq<AIJob>, picks: seq<AIJob>, i: nat, lease: Lease, now: Time)
    requires i <= |picks|
    ensures ClaimRest(store, claimed, picks, i, lease, now) ==
            if i == |picks| then Batch(store, claimed, false)
            else
              var reply := AfterClaim(store, picks[i], lease, now);
              if reply.outcome.Changed? then ClaimRest(reply.store, claimed + [reply.outcome.job], picks, i + 1, lease, now)
              else Batch(reply.store, claimed, true)
  {}

  lemma ClaimRestAll(store: Store, picks: seq<AIJob>, lease: Lease, now: Time)
    ensures ClaimRest(store, [], picks, 0, lease, now) == ClaimAll(store, picks, lease, now)
  {}

  predicate RealLease(lease: Lease, now: Time) {
    Trim(lease.token) != "" && lease.until > now
  }

  ghost predicate Ready(store: Store, id: string, now: Time) {
    id in store.jobs && ReadyForClaim(store.jobs[id], now)
  }

  ghost function ReadyIDs(store: Store, now: Time): set<string> {
    set id | id in store.jobs && Ready(store, id, now)
  }

  /** Candidates as they are stored, each ready. */
  ghost predicate Candidates(store: Store, picks: seq<AIJob>, now: Time) {
    && DistinctIds(picks)
    && forall i :: 0 <= i < |picks| ==> Ready(store, picks[i].id, now) && store.jobs[picks[i].id] == picks[i]
  }

  /** How a claim leaves a job. */
  ghost predicate Holds(before: AIJob, after: AIJob, lease: Lease) {
    && after.status == Dispatching && after.queueLeaseUntil == Some(lease.until)
    && after.queueLeaseToken == lease.token && after.queueWorkerID == lease.workerID
    && after.statusVersion == before.statusVersion + 1 && after.fenceToken == before.fenceToken + 1
    && after == before.(status := after.status, statusVersion := after.statusVersion, fenceToken := after.fenceToken,
                        queueLeaseUntil := after.queueLeaseUntil, queueLeaseToken := after.queueLeaseToken,
                        queueWorkerID := after.queueWorkerID, updatedAt := after.updatedAt, errorType := after.errorType)
  }

  lemma ClaimHolds(job: AIJob, lease: Lease, now: Time)
    requires DecideClaim(job, lease, now).Record?
    ensures Holds(job, DecideClaim(job, lease, now).job, lease)
  {}

  /** The store after the first candidate. */
  function AfterClaim(store: Store, job: AIJob, lease: Lease, now: Time): Reply {
    CarryOut(store, job, DecideClaim(job, lease, now))
  }

  ghost predicate Claimable(store: Store, job: AIJob, lease: Lease, now: Time) {
    && Valid(store) && CreatedBy(store, now) && RealLease(lease, now)
    && Ready(store, job.id, now) && store.jobs[job.id] == job
  }

  lemma ClaimIsAct(store: Store, job: AIJob, lease: Lease, now: Time)
    requires job.id in store.jobs && store.jobs[job.id] == job
    ensures Act(store, job.id, Claiming(lease), now) == AfterClaim(store, job, lease, now)
  {}

  lemma {:induction false} ClaimKeeps(store: Store, job: AIJob, lease: Lease, now: Time)
    requires Claimable(store, job, lease, now)
    ensures Valid(AfterClaim(store, job, lease, now).store)
    ensures StoreEvolved(store, AfterClaim(store, job, lease, now).store, now)
  {
    ClaimIsAct(store, job, lease, now);
    ActKeepsValid(store, job.id, Claiming(lease), now);
    ActEvolves(store, job.id, Claiming(lease), now);
  }

  /** One candidate of a batch. */
  lemma {:induction false} ClaimsCandidate(store: Store, job: AIJob, lease: Lease, now: Time)
    requires Claimable(store, job, lease, now)
    ensures var reply := AfterClaim(store, job, lease, now);
            && reply.outcome.Changed? && Holds(job, reply.outcome.job, lease)
            && reply.store.jobs == store.jobs[job.id := reply.outcome.job]
  {
    ActIsAllowed(store, job.id, Claiming(lease), now);
    CarryOutTouchesOneJob(store, job, Decide(job, Claiming(lease), now), now);
    CarryOutSucceeds(store, job, Decide(job, Claiming(lease), now), Legal, Fit);
    ReadyIsClaimable(job, lease, now);
    ClaimHolds(job, lease, now);
  }

  lemma ReadyIsClaimable(job: AIJob, lease: Lease, now: Time)
    requires ReadyForClaim(job, now)
    ensures DecideClaim(job, lease, now).Record?
  {}

  ghost predicate ClaimedExactly(store: Store, batch: Batch, picks: seq<AIJob>, lease: Lease) {
    && !batch.failed && |batch.claimed| == |picks| && batch.store.jobs.Keys == store.jobs.Keys
    && (forall i :: 0 <= i < |picks| ==> Holds(picks[i], batch.claimed[i], lease) && batch.claimed[i].id == picks[i].id)
    && (forall i :: 0 <= i < |picks| ==> picks[i].id in batch.store.jobs && batch.store.jobs[picks[i].id] == batch.claimed[i])
    && (forall id :: id in store.jobs && (forall i :: 0 <= i < |picks| ==> picks[i].id != id) ==>
          batch.store.jobs[id] == store.jobs[id])
  }

  lemma {:induction false} ClaimsOneMore(store: Store, first: AIJob, claimed: AIJob, middle: Store, rest: Batch, picks: seq<AIJob>, lease: Lease)
    requires picks != [] && picks[0] == first && DistinctIds(picks) && first.id in store.jobs
    requires Holds(first, claimed, lease) && middle.jobs == store.jobs[first.id := claimed]
    requires ClaimedExactly(middle, rest, picks[1..], lease)
    ensures ClaimedExactly(store, Batch(rest.store, [claimed] + rest.claimed, rest.failed), picks, lease)
  {}

  lemma EmptyClaim(store: Store, lease: Lease)
    ensures ClaimedExactly(store, Batch(store, [], false), [], lease)
  {}

  lemma EvolvedThrough(store: Store, middle: Store, next: Store, at: Time)
    requires StoreEvolved(store, middle, at) && StoreEvolved(middle, next, at)
    ensures StoreEvolved(store, next, at)
  {}

  /** A batch of ready candidates is claimed completely, and nothing else changes. */
  lemma {:induction false} BatchClaimsAll(store: Store, picks: seq<AIJob>, lease: Lease, now: Time)
    requires Valid(store) && CreatedBy(store, now) && RealLease(lease, now) && Candidates(store, picks, now)
    ensures ClaimedExactly(store, ClaimAll(store, picks, lease, now), picks, lease)
    decreases |picks|
  {
    if picks == [] {
      EmptyClaim(store, lease);
    } else {
      var reply := FirstClaim(store, picks, lease, now);
      BatchClaimsAll(reply.store, picks[1..], lease, now);
      ClaimsOneMore(store, picks[0], reply.outcome.job, reply.store, ClaimAll(reply.store, picks[1..], lease, now), picks, lease);
    }
  }

  lemma FirstIsClaimable(store: Store, picks: seq<AIJob>, lease: Lease, now: Time)
    requires Valid(store) && CreatedBy(store, now) && RealLease(lease, now) && Candidates(store, picks, now) && picks != []
    ensures Claimable(store, picks[0], lease, now)
  {}

  lemma SameKeysAfterClaim(jobs: map<string, AIJob>, id: string, job: AIJob)
    requires id in jobs
    ensures jobs[id := job].Keys == jobs.Keys
  {}

  lemma {:induction false} FirstClaim(store: Store, picks: seq<AIJob>, lease: Lease, now: Time) returns (reply: Reply)
    requires Valid(store) && CreatedBy(store, now) && RealLease(lease, now) && Candidates(store, picks, now) && picks != []
    ensures reply == AfterClaim(store, picks[0], lease, now)
    ensures reply.outcome.Changed? && Holds(picks[0], reply.outcome.job, lease)
    ensures picks[0].id in store.jobs && reply.store.jobs == store.jobs[picks[0].id := reply.outcome.job]
    ensures Valid(reply.store) && CreatedBy(reply.store, now) && StoreEvolved(store, reply.store, now)
    ensures Candidates(reply.store, picks[1..], now)
  {
    reply := AfterClaim(store, picks[0], lease, now);
    FirstIsClaimable(store, picks, lease, now);
    ClaimsCandidate(store, picks[0], lease, now);
    ClaimKeeps(store, picks[0], lease, now);
    SameKeysAfterClaim(store.jobs, picks[0].id, reply.outcome.job);
    ClaimLeavesRest(store, reply.store, picks, now);
  }

  lemma {:induction false} ClaimLeavesRest(store: Store, next: Store, picks: seq<AIJob>, now: Time)
    requires picks != [] && Candidates(store, picks, now) && CreatedBy(store, now) && StoreEvolved(store, next, now)
    requires picks[0].id in next.jobs && next.jobs == store.jobs[picks[0].id := next.jobs[picks[0].id]]
    requires next.jobs.Keys == store.jobs.Keys
    ensures Candidates(next, picks[1..], now) && CreatedBy(next, now)
  {}

  lemma {:induction false} BatchKeeps(store: Store, picks: seq<AIJob>, lease: Lease, now: Time)
    requires Valid(store) && CreatedBy(store, now) && RealLease(lease, now) && Candidates(store, picks, now)
    ensures var next := ClaimAll(store, picks, lease, now).store;
            Valid(next) && CreatedBy(next, now) && StoreEvolved(store, next, now)
    decreases |picks|
  {
    if picks == [] {
      forall id | id in store.jobs ensures Evolved(store.jobs[id], store.jobs[id], now) { EvolvedSelf(store.jobs[id], now); }
    } else {
      var reply := FirstClaim(store, picks, lease, now);
      BatchKeeps(reply.store, picks[1..], lease, now);
      EvolvedThrough(store, reply.store, ClaimAll(reply.store, picks[1..], lease, now).store, now);
    }
  }

  lemma StillCreatedBy(store: Store, next: Store, now: Time)
    requires CreatedBy(store, now) && StoreEvolved(store, next, now) && next.jobs.Keys == store.jobs.Keys
    ensures CreatedBy(next, now)
  {}
}
