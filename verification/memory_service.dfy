/** The service as code over the in-memory repository and the in-memory index. */
module MemoryService {
  import opened Text
  import opened JobModel
  import opened FairQueue
  import opened JobStore
  import opened JobRuns
  import opened JobHistory
  import opened Admission
  import opened JobClaims
  import opened ReadyIndex
  import opened JobService
  import opened MemoryRepository
  import opened ServiceRuns
  import opened ServiceAnswers
  import Billing = BillingHolds
  import Delivery = DeliveryQueue

  function References(entries: seq<Entry>): (references: seq<Reference>)
    ensures |references| == |entries|
  {
    seq(|entries|, i requires 0 <= i < |entries| => Reference(entries[i].jobID, entries[i].statusVersion))
  }

  /** What a claim gives: as many ready jobs as the limit and the store allow, each with the lease, the next version and the
      next fence, every other job as it was, and store and cache still in step. */
  ghost predicate ClaimedWork(
    before: Store, after: Store, cache: Cache, jobs: seq<AIJob>, lease: Lease, now: Time, limit: nat)
  {
    && |jobs| == Min(limit, |JobClaims.ReadyIDs(before, now)|) && DistinctIds(jobs)
    && IDs(jobs) <= JobClaims.ReadyIDs(before, now) && AllLeased(before, after, jobs, lease)
    && Ground(after, now) && Synced(after.jobs, cache)
  }

  /** What the two rounds claim: picks within the limit, and then all that the limit still allows. */
  ghost predicate InRounds(
    before: Store, first: Batch, second: Batch, picks: seq<AIJob>, more: seq<AIJob>, lease: Lease, now: Time, limit: nat)
  {
    && ClaimsPicks(before, picks, lease, now, first) && ClaimsPicks(first.store, more, lease, now, second)
    && |picks| <= limit && |more| == Min(limit - |picks|, |JobClaims.ReadyIDs(first.store, now)|)
  }

  lemma RoundsFit(
    before: Store, first: Batch, second: Batch, picks: seq<AIJob>, more: seq<AIJob>, lease: Lease, now: Time, limit: nat, room: nat)
    requires ClaimsPicks(before, picks, lease, now, first) && ClaimsPicks(first.store, more, lease, now, second)
    requires room == limit - |picks| && |more| == Min(room, |JobClaims.ReadyIDs(first.store, now)|)
    ensures InRounds(before, first, second, picks, more, lease, now, limit)
  {}

  lemma {:induction false} TwoRoundsWork(
    before: Store, cache: Cache, indexed: seq<Entry>, first: Batch, second: Batch, picks: seq<AIJob>, more: seq<AIJob>,
    lease: Lease, now: Time, limit: nat)
    requires Ground(before, now) && Synced(before.jobs, cache) && RealLease(lease, now)
    requires InRounds(before, first, second, picks, more, lease, now, limit)
    ensures ClaimedWork(before, second.store, ClaimCache(cache, first, indexed, second, now), first.claimed + second.claimed,
                        lease, now, limit)
    ensures !first.failed && !second.failed
  {
    TwoRoundsConserveWork(before, picks, more, lease, now, limit);
    ClaimKeepsStep(before, cache, indexed, picks, more, lease, now);
    SameAcross(first.claimed, picks, second.claimed, more);
  }

  /** A lease with a worker, a token and a future. */
  predicate Usual(lease: Lease, now: Time) {
    Trim(lease.workerID) != "" && RealLease(lease, now)
  }

  /** The store's extension with the envelope's credentials, followed in the cache. */
  ghost predicate Renewed(
    e: Delivery.Envelope, until: Time, now: Time, before: Store, cache: Cache, after: Store, cache': Cache, outcome: Outcome)
  {
    && Reply(after, outcome) == Act(before, e.jobID, Extending(e.statusVersion, e.fenceToken, e.queueLeaseToken, until), now)
    && cache' == Follow(cache, e.jobID, e.statusVersion, outcome)
  }

  class Service {
    const repository: Repository
    const index: MemoryReadyIndex
    /** Registrations that the index did not accept. */
    ghost var refused: nat

    constructor (repository: Repository, index: MemoryReadyIndex)
      ensures this.repository == repository && this.index == index && refused == 0
    {
      this.repository, this.index, refused := repository, index, 0;
    }

    ghost function CacheState(): Cache
      reads this, index
    {
      Cache(index.entries, refused)
    }

    method RegisterReadyState(job: AIJob)
      requires Keyed(index.entries)
      modifies index, `refused
      ensures Keyed(index.entries) && CacheState() == old(RegisterState(CacheState(), job))
    {
      if job.status != Queued && job.status != Dispatching { return; }
      var entry := NewEntry(job);
      if entry.Some? { OfferEntry(entry.value); }
    }

    method OfferEntry(entry: Entry)
      requires Keyed(index.entries)
      modifies index, `refused
      ensures Keyed(index.entries) && CacheState() == old(Offer(CacheState(), entry))
    {
      var result := index.Register(entry);
      refused := if result == Registered then refused else refused + 1;
    }

    method RemoveReadyReference(jobID: string, version: int)
      requires Keyed(index.entries)
      modifies index
      ensures Keyed(index.entries) && CacheState() == old(RemoveReference(CacheState(), jobID, version))
    {
      if Trim(jobID) != "" && version > 0 { var _ := index.Remove(jobID, version); }
    }

    method FollowOutcome(id: string, version: int, outcome: Outcome)
      requires Keyed(index.entries)
      modifies index, `refused
      ensures Keyed(index.entries) && CacheState() == old(Follow(CacheState(), id, version, outcome))
    {
      if outcome.Changed? {
        RemoveReadyReference(id, version);
        RegisterReadyState(outcome.job);
      }
    }

    /** A new durable job, or the job that an earlier request with the same key created. */
    method Begin(job: AIJob, limits: Limits, admission: Billing.Admission) returns (outcome: Outcome)
      requires Keyed(index.entries) && OnceEach(repository.jobs) && Billing.WellFormed(repository.billing.Model())
      requires job.operationID == admission.hold.operationID
      modifies repository, repository.billing, index, `refused
      ensures Keyed(index.entries) && Billing.WellFormed(repository.billing.Model())
      ensures CacheState() == FollowCreate(old(CacheState()), job, outcome)
      ensures outcome == if old(Create(repository.Model(), job, limits)).outcome.Changed?
                            && !old(Billing.Admits(repository.billing.Model(), admission))
                         then Failure else old(Create(repository.Model(), job, limits)).outcome
      ensures repository.Model() == if outcome.Changed? then old(Create(repository.Model(), job, limits)).store else old(repository.Model())
      ensures repository.billing.Model() == if outcome.Changed? then old(Billing.Admitted(repository.billing.Model(), admission))
                                            else old(repository.billing.Model())
    {
      outcome := repository.CreateJob(job, limits, admission);
      if outcome.Changed? {
        RegisterReadyState(outcome.job);
      } else if outcome.Unchanged? && outcome.job.submission.requestFingerprint == job.submission.requestFingerprint {
        RegisterReadyState(outcome.job);
      }
    }

    method CancelForAuth(id: string, owner: Scope, at: Time) returns (outcome: Outcome)
      requires Keyed(index.entries) && Billing.WellFormed(repository.billing.Model())
      modifies repository, repository.billing, index, `refused
      ensures Keyed(index.entries) && Billing.WellFormed(repository.billing.Model())
      ensures CacheState() == FollowCancel(old(CacheState()), outcome)
      ensures repository.billing.Model() == AfterCancel(old(repository.billing.Model()), outcome, at)
      ensures Reply(repository.Model(), outcome) ==
              if Trim(id) in old(repository.jobs) && !OwnerMatches(old(repository.jobs)[Trim(id)].scope, owner)
              then old(Reply(repository.Model(), Missing))
              else old(Act(repository.Model(), Trim(id), Step.Canceling(CLIENT_REASON), at))
    {
      outcome := repository.ClientCancel(Trim(id), owner, at);
      if (outcome.Changed? || outcome.Unchanged?) && outcome.job.statusVersion > 1 {
        RemoveReadyReference(outcome.job.id, outcome.job.statusVersion - 1);
        RegisterReadyState(outcome.job);
      }
    }

    /** The administrator's cancellation leaves the index alone. */
    method CancelAdmin(id: string, at: Time) returns (outcome: Outcome)
      requires Billing.WellFormed(repository.billing.Model())
      modifies repository, repository.billing
      ensures Reply(repository.Model(), outcome) == old(Act(repository.Model(), Trim(id), Step.Canceling(ADMIN_REASON), at))
      ensures Billing.WellFormed(repository.billing.Model()) && CacheState() == old(CacheState())
      ensures repository.billing.Model() == AfterCancel(old(repository.billing.Model()), outcome, at)
    {
      outcome := repository.Cancel(Trim(id), ADMIN_REASON, at);
    }

    method Transition(id: string, version: int, fence: int, to: Status, reason: string, at: Time) returns (outcome: Outcome)
      requires Keyed(index.entries)
      modifies repository, index, `refused
      ensures Keyed(index.entries)
      ensures var step := Transitioning(version, fence, to, Trim(reason));
              && Reply(repository.Model(), outcome) == old(Act(repository.Model(), Trim(id), step, at))
              && CacheState() == Follow(old(CacheState()), Trim(id), version, outcome)
    {
      outcome := repository.Transition(Trim(id), version, fence, to, Trim(reason), at);
      FollowOutcome(Trim(id), version, outcome);
    }

    method Requeue(id: string, version: int, fence: int, reason: string, delay: int, now: Time) returns (outcome: Outcome)
      requires Keyed(index.entries)
      modifies repository, index, `refused
      ensures Keyed(index.entries)
      ensures if delay < 0 then outcome == Failure && repository.Model() == old(repository.Model()) && CacheState() == old(CacheState())
              else
                var step := Requeuing(version, fence, Trim(reason), now + delay);
                && Reply(repository.Model(), outcome) == old(Act(repository.Model(), Trim(id), step, now))
                && CacheState() == Follow(old(CacheState()), Trim(id), version, outcome)
    {
      if delay < 0 { return Failure; }
      outcome := repository.Requeue(Trim(id), version, fence, Trim(reason), now + delay, now);
      FollowOutcome(Trim(id), version, outcome);
    }

    /** A worker renews the lease that its envelope names. */
    method ExtendLease(digest: Delivery.Digest, envelope: Delivery.Envelope, duration: int, now: Time) returns (outcome: Outcome)
      requires Keyed(index.entries)
      modifies repository, index, `refused
      ensures Keyed(index.entries)
      ensures !Delivery.ValidEnvelope(digest, envelope) || duration <= 0 ==>
                outcome == Failure && repository.Model() == old(repository.Model()) && CacheState() == old(CacheState())
      ensures Delivery.ValidEnvelope(digest, envelope) && duration > 0 ==> Renewed(envelope, now + duration, now,
                old(repository.Model()), old(CacheState()), repository.Model(), CacheState(), outcome)
    {
      if !Delivery.ValidEnvelope(digest, envelope) || duration <= 0 { return Failure; }
      outcome := Renew(envelope, now + duration, now);
    }

    method Renew(envelope: Delivery.Envelope, until: Time, now: Time) returns (outcome: Outcome)
      requires Keyed(index.entries)
      modifies repository, index, `refused
      ensures Keyed(index.entries)
      ensures Renewed(envelope, until, now, old(repository.Model()), old(CacheState()), repository.Model(), CacheState(), outcome)
    {
      outcome := repository.ExtendLease(envelope.jobID, envelope.statusVersion, envelope.fenceToken, envelope.queueLeaseToken, until, now);
      FollowOutcome(envelope.jobID, envelope.statusVersion, outcome);
    }

    method Reconcile(candidates: seq<Entry>, claimed: seq<AIJob>, now: Time)
      requires Keyed(index.entries)
      modifies index, `refused
      ensures Keyed(index.entries)
      ensures CacheState() == old(JobService.Reconcile(CacheState(), repository.Model(), candidates, IDs(claimed), now))
    {
      var claimedIDs := IDs(claimed);
      for i := 0 to |candidates|
        invariant Keyed(index.entries)
        invariant CacheState() == old(JobService.Reconcile(CacheState(), repository.Model(), candidates[..i], claimedIDs, now))
      {
        assert candidates[..i + 1][..i] == candidates[..i];
        ReconcileCandidate(candidates[i], claimedIDs, now);
      }
      assert candidates[..|candidates|] == candidates;
    }

    method ReconcileCandidate(candidate: Entry, claimedIDs: set<string>, now: Time)
      requires Keyed(index.entries)
      modifies index, `refused
      ensures Keyed(index.entries)
      ensures CacheState() == old(ReconcileOne(CacheState(), repository.Model(), candidate, claimedIDs, now))
    {
      if candidate.jobID in claimedIDs || candidate.jobID !in repository.jobs {
        RemoveReadyReference(candidate.jobID, candidate.statusVersion);
        return;
      }
      var job := repository.jobs[candidate.jobID];
      if job.statusVersion != candidate.statusVersion || !Waits(job) || !ReadyForClaim(job, now)
         || ReadyTime(job) != candidate.readyAt
      {
        RemoveReadyReference(candidate.jobID, candidate.statusVersion);
        RegisterReadyState(job);
      }
    }

    method RegisterJobs(jobs: seq<AIJob>)
      requires Keyed(index.entries)
      modifies index, `refused
      ensures Keyed(index.entries) && CacheState() == old(RegisterAll(CacheState(), jobs))
    {
      for i := 0 to |jobs|
        invariant Keyed(index.entries) && CacheState() == old(RegisterAll(CacheState(), jobs[..i]))
      {
        assert jobs[..i + 1][..i] == jobs[..i];
        RegisterReadyState(jobs[i]);
      }
      assert jobs[..|jobs|] == jobs;
    }

    /** Claims the candidates that the index returned, then whatever else the limit allows. Nothing is assumed of
        `indexed`. */
    method ClaimWith(indexed: seq<Entry>, lease: Lease, now: Time, limit: nat) returns (jobs: seq<AIJob>, failed: bool)
      requires Keyed(index.entries) && limit > 0 && Usual(lease, now)
      requires Ground(repository.Model(), now) && Synced(repository.jobs, CacheState())
      modifies repository, index, `refused
      ensures Keyed(index.entries) && !failed
      ensures ClaimedWork(old(repository.Model()), repository.Model(), CacheState(), jobs, lease, now, limit)
      ensures NoneStale(repository.jobs, index.entries, indexed)
    {
      ghost var before, cache := repository.Model(), CacheState();
      ghost var first, second, picks, more;
      jobs, failed, first, second, picks, more := ClaimRounds(indexed, lease, now, limit, before);
      TwoRoundsWork(before, cache, indexed, first, second, picks, more, lease, now, limit);
      RoundsDropStale(before, cache, indexed, picks, more, lease, now);
      RegisterClaimed(jobs, before, second.store, ClaimCache(cache, first, indexed, second, now), lease, now, limit);
    }

    method RegisterClaimed(
      jobs: seq<AIJob>, ghost before: Store, ghost after: Store, ghost cache: Cache, ghost lease: Lease, ghost now: Time, ghost limit: nat)
      requires Keyed(index.entries) && repository.Model() == after && cache == RegisterAll(CacheState(), jobs)
      requires ClaimedWork(before, after, cache, jobs, lease, now, limit)
      modifies index, `refused
      ensures Keyed(index.entries) && ClaimedWork(before, repository.Model(), CacheState(), jobs, lease, now, limit)
      ensures CacheState() == cache && repository.Model() == after
    {
      RegisterJobs(jobs);
      assert CacheState() == cache && repository.Model() == after;
    }

    /** Both rounds; the index is reconciled between them. */
    method ClaimRounds(indexed: seq<Entry>, lease: Lease, now: Time, limit: nat, ghost before: Store)
      returns (jobs: seq<AIJob>, failed: bool, ghost first: Batch, ghost second: Batch, ghost picks: seq<AIJob>, ghost more: seq<AIJob>)
      requires Keyed(index.entries) && limit > 0 && Usual(lease, now) && before == repository.Model() && Ground(before, now)
      modifies repository, index, `refused
      ensures Keyed(index.entries) && repository.Model() == second.store
      ensures jobs == first.claimed + second.claimed && failed == second.failed
      ensures InRounds(before, first, second, picks, more, lease, now, limit)
      ensures CacheState() == JobService.Reconcile(old(CacheState()), first.store, indexed, IDs(first.claimed), now)
    {
      var claimed, broken, rest;
      claimed, broken, picks, first := ClaimIndexed(indexed, lease, now, limit, before);
      var room := limit - |claimed|;
      rest, failed, more, second := ClaimStore(lease, now, room, first.store);
      jobs := claimed + rest;
      RoundsFit(before, first, second, picks, more, lease, now, limit, room);
    }

    /** The first round. */
    method ClaimIndexed(indexed: seq<Entry>, lease: Lease, now: Time, limit: nat, ghost before: Store)
      returns (jobs: seq<AIJob>, failed: bool, ghost picks: seq<AIJob>, ghost batch: Batch)
      requires Keyed(index.entries) && limit > 0 && Usual(lease, now) && before == repository.Model() && Ground(before, now)
      modifies repository, index, `refused
      ensures Keyed(index.entries) && batch == Batch(repository.Model(), jobs, failed)
      ensures Ground(batch.store, now) && |picks| == |jobs| <= limit && ClaimsPicks(before, picks, lease, now, batch)
      ensures CacheState() == JobService.Reconcile(old(CacheState()), batch.store, indexed, IDs(jobs), now)
    {
      jobs, failed, picks, batch := [], false, [], Batch(before, [], false);
      if |indexed| > 0 {
        jobs, failed, picks, batch := ClaimReferences(indexed, lease, now, limit, before);
        Reconcile(indexed, jobs, now);
      }
    }

    method ClaimReferences(indexed: seq<Entry>, lease: Lease, now: Time, limit: nat, ghost before: Store)
      returns (jobs: seq<AIJob>, failed: bool, ghost picks: seq<AIJob>, ghost batch: Batch)
      requires |indexed| > 0 && limit > 0 && Usual(lease, now) && before == repository.Model() && Ground(before, now)
      modifies repository
      ensures batch == Batch(repository.Model(), jobs, failed)
      ensures Ground(batch.store, now) && |picks| == |jobs| <= limit && ClaimsPicks(before, picks, lease, now, batch)
    {
      jobs, failed := repository.ClaimByReferences(References(indexed), lease, now, limit);
      batch := Batch(repository.Model(), jobs, failed);
      picks :| ClaimsPicks(before, picks, lease, now, batch);
      BatchIsUsable(before, picks, lease, now);
    }

    /** The second round. */
    method ClaimStore(lease: Lease, now: Time, limit: nat, ghost before: Store)
      returns (jobs: seq<AIJob>, failed: bool, ghost picks: seq<AIJob>, ghost batch: Batch)
      requires Usual(lease, now) && before == repository.Model() && Ground(before, now)
      modifies repository
      ensures batch == Batch(repository.Model(), jobs, failed) && ClaimsPicks(before, picks, lease, now, batch)
      ensures |picks| == |jobs| == Min(limit, |JobClaims.ReadyIDs(before, now)|)
    {
      jobs, failed, picks, batch := [], false, [], Batch(before, [], false);
      if limit > 0 {
        jobs, failed := repository.ClaimQueued(lease, now, limit);
        batch := Batch(repository.Model(), jobs, failed);
        picks :| ClaimsPicks(before, picks, lease, now, batch);
        ReadyAreChosen(before, now);
      }
    }

    /** A worker without a name gets nothing, but its visit still reconciles the index. */
    method ClaimNothing(indexed: seq<Entry>, lease: Lease, now: Time, limit: nat) returns (jobs: seq<AIJob>, failed: bool)
      requires Keyed(index.entries) && limit > 0 && Trim(lease.workerID) == ""
      requires Ground(repository.Model(), now) && Synced(repository.jobs, CacheState())
      modifies repository, index, `refused
      ensures Keyed(index.entries) && jobs == [] && !failed && repository.Model() == old(repository.Model())
      ensures Synced(repository.jobs, CacheState())
    {
      jobs, failed := [], false;
      if |indexed| > 0 {
        jobs, failed := repository.ClaimByReferences(References(indexed), lease, now, limit);
        ReconcileKeeps(CacheState(), repository.Model(), indexed, IDs(jobs), now);
        Reconcile(indexed, jobs, now);
      }
      var rest;
      rest, failed := repository.ClaimQueued(lease, now, limit - |jobs|);
      jobs := jobs + rest;
      RegisterJobs(jobs);
    }

    method ClaimReady(workerID: string, token: string, duration: int, now: Time, limit: int)
      returns (jobs: seq<AIJob>, failed: bool)
      requires Keyed(index.entries) && Trim(token) != ""
      requires Ground(repository.Model(), now) && Synced(repository.jobs, CacheState())
      modifies repository, index, `refused
      ensures Keyed(index.entries)
      ensures duration <= 0 || limit <= 0 || Trim(workerID) == "" ==> jobs == [] && repository.Model() == old(repository.Model())
      ensures duration <= 0 || limit <= 0 ==> CacheState() == old(CacheState())
      ensures Synced(repository.jobs, CacheState()) && (failed <==> duration <= 0)
      ensures duration > 0 && limit > 0 && Trim(workerID) != "" ==>
                ClaimedWork(old(repository.Model()), repository.Model(), CacheState(), jobs,
                            Lease(now + duration, token, Trim(workerID)), now, limit)
      ensures duration > 0 && limit > 0 && Trim(workerID) != "" && now != 0 ==>
                exists indexed :: LooksAt(old(index.entries), now, if limit < 64 then 16 * limit else 1024, indexed)
                                  && NoneStale(repository.jobs, index.entries, indexed)
    {
      if duration <= 0 { return [], true; }
      if limit <= 0 { return [], false; }
      var indexed := index.Candidates(now, CandidateLimit(limit));
      var lease := Lease(now + duration, token, Trim(workerID));
      if Trim(workerID) == "" {
        jobs, failed := ClaimNothing(indexed, lease, now, limit);
      } else {
        jobs, failed := ClaimWith(indexed, lease, now, limit);
      }
    }
  }
}
