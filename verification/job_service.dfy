/** The service over store and ready index: every operation changes the store first and then brings the index up to
    date. The index is a cache; claims re-read the store. */
module JobService {
  import opened Text
  import opened JobModel
  import opened FairQueue
  import opened JobStore
  import opened JobHistory
  import opened JobRuns
  import opened Admission
  import opened JobClaims
  import opened ReadyIndex

  /** `refused` counts the registrations that the index did not accept. */
  datatype Cache = Cache(index: Index, refused: nat)

  function Offer(cache: Cache, entry: Entry): Cache {
    var (index, result) := AfterRegister(cache.index, entry);
    Cache(index, if result == Registered then cache.refused else cache.refused + 1)
  }

  function RegisterState(cache: Cache, job: AIJob): Cache {
    if !Waits(job) || NewEntry(job).None? then cache else Offer(cache, NewEntry(job).value)
  }

  function RemoveReference(cache: Cache, jobID: string, version: int): Cache {
    cache.(index := AfterRemove(cache.index, jobID, version))
  }

  /** The cache after a store change that a caller with `version` made. */
  function Follow(cache: Cache, id: string, version: int, outcome: Outcome): Cache {
    if outcome.Changed? then RegisterState(RemoveReference(cache, id, version), outcome.job) else cache
  }

  /** A cancelled job is followed whether this call or an earlier one cancelled it. */
  function FollowCancel(cache: Cache, outcome: Outcome): Cache {
    if (outcome.Changed? || outcome.Unchanged?) && outcome.job.statusVersion > 1 then
      RegisterState(RemoveReference(cache, outcome.job.id, outcome.job.statusVersion - 1), outcome.job)
    else cache
  }

  // Reconciling the candidates that the index returned.

  function IDs(claimed: seq<AIJob>): set<string> {
    set i | 0 <= i < |claimed| :: claimed[i].id
  }

  function ReconcileOne(cache: Cache, store: Store, candidate: Entry, claimed: set<string>, now: Time): Cache {
    if candidate.jobID in claimed || candidate.jobID !in store.jobs then
      RemoveReference(cache, candidate.jobID, candidate.statusVersion)
    else
      var job := store.jobs[candidate.jobID];
      if job.statusVersion != candidate.statusVersion || !Waits(job) || !ReadyForClaim(job, now)
         || ReadyTime(job) != candidate.readyAt
      then RegisterState(RemoveReference(cache, candidate.jobID, candidate.statusVersion), job)
      else cache
  }

  function Reconcile(cache: Cache, store: Store, candidates: seq<Entry>, claimed: set<string>, now: Time): Cache {
    if candidates == [] then cache
    else
      ReconcileOne(Reconcile(cache, store, candidates[..|candidates| - 1], claimed, now), store,
                   candidates[|candidates| - 1], claimed, now)
  }

  function RegisterAll(cache: Cache, jobs: seq<AIJob>): Cache {
    if jobs == [] then cache else RegisterState(RegisterAll(cache, jobs[..|jobs| - 1]), jobs[|jobs| - 1])
  }

  function CandidateLimit(limit: int): int {
    if limit <= 0 then 0 else if limit > 64 then 1024 else limit * 16
  }

  // The cache stays complete.

  /** A job whose columns the index accepts. Accepted requests name a tenant and a principal. */
  ghost predicate Projectable(job: AIJob) {
    Trimmed(job.id) && job.id != "" && Trim(job.scope.tenantID) != "" && Trim(job.scope.principalID) != ""
  }

  /** Every waiting job outside `pending` has its current projection in the index; no entry is ahead of the store, and
      one at the store's version is the current projection. */
  ghost predicate EntryFits(jobs: map<string, AIJob>, id: string, e: Entry) {
    && id in jobs && e.jobID == id && e.statusVersion <= jobs[id].statusVersion
    && (e.statusVersion == jobs[id].statusVersion ==> Waits(jobs[id]) && NewEntry(jobs[id]) == Some(e))
  }

  ghost predicate Present(index: Index, job: AIJob) {
    job.id in index && NewEntry(job) == Some(index[job.id])
  }

  ghost predicate Complete(jobs: map<string, AIJob>, index: Index, pending: set<string>) {
    && (forall id :: id in index ==> EntryFits(jobs, id, index[id]))
    && (forall id :: id in jobs && id !in pending && Waits(jobs[id]) ==> Present(index, jobs[id]))
  }

  ghost predicate Usable(jobs: map<string, AIJob>) {
    forall id :: id in jobs ==> jobs[id].id == id && Projectable(jobs[id]) && Fit(jobs[id])
  }

  lemma {:induction false} WaitingJobsProject(job: AIJob)
    requires Projectable(job) && Fit(job) && Waits(job)
    ensures NewEntry(job).Some?
    ensures var e := NewEntry(job).value;
            e.jobID == job.id && e.statusVersion == job.statusVersion && Normalize(e) == e && ValidEntry(e)
  {
    TrimScopeTwice(job.scope);
  }

  lemma TrimScopeTwice(s: Scope)
    ensures TrimScope(TrimScope(s)) == TrimScope(s)
  {}

  /** Registering a stored job is never refused, and the job is no longer pending. */
  lemma {:induction false} RegisterCompletes(jobs: map<string, AIJob>, cache: Cache, pending: set<string>, id: string)
    requires Usable(jobs) && Complete(jobs, cache.index, pending) && id in jobs
    ensures Complete(jobs, RegisterState(cache, jobs[id]).index, pending - {id})
    ensures RegisterState(cache, jobs[id]).refused == cache.refused
  {
    var job := jobs[id];
    if Waits(job) {
      WaitingJobsProject(job);
      RegisteredEntry(jobs, cache.index, pending, job, NewEntry(job).value);
    }
  }

  lemma {:induction false} RegisteredEntry(jobs: map<string, AIJob>, index: Index, pending: set<string>, job: AIJob, e: Entry)
    requires Complete(jobs, index, pending) && job.id in jobs && jobs[job.id] == job && Waits(job)
    requires NewEntry(job) == Some(e) && e.jobID == job.id && e.statusVersion == job.statusVersion
    requires Normalize(e) == e && ValidEntry(e)
    requires forall id :: id in jobs ==> jobs[id].id == id
    ensures AfterRegister(index, e) == (index[job.id := e], Registered)
    ensures Complete(jobs, index[job.id := e], pending - {job.id})
  {
    if job.id in index { assert EntryFits(jobs, job.id, index[job.id]); }
    var next := index[job.id := e];
    forall id | id in next ensures EntryFits(jobs, id, next[id]) {
      if id != job.id { assert EntryFits(jobs, id, index[id]); }
    }
    forall id | id in jobs && id !in pending - {job.id} && Waits(jobs[id]) ensures Present(next, jobs[id]) {
      if id != job.id { assert Present(index, jobs[id]); }
    }
  }

  lemma {:induction false} RemoveLeavesPending(
    jobs: map<string, AIJob>, cache: Cache, pending: set<string>, id: string, version: int)
    requires Complete(jobs, cache.index, pending) && forall other :: other in jobs ==> jobs[other].id == other
    ensures Complete(jobs, RemoveReference(cache, id, version).index, pending + {id})
  {}

  /** Jobs that moved to a later version, and new jobs, are pending until they are registered. */
  ghost predicate MovedOn(jobs: map<string, AIJob>, next: map<string, AIJob>, changed: set<string>) {
    && jobs.Keys <= next.Keys
    && (forall id :: id in next && id !in changed ==> id in jobs && next[id] == jobs[id])
    && (forall id :: id in jobs && id in changed ==> next[id].statusVersion > jobs[id].statusVersion)
  }

  lemma {:induction false} LaterVersionsPend(
    jobs: map<string, AIJob>, next: map<string, AIJob>, index: Index, pending: set<string>, changed: set<string>)
    requires Complete(jobs, index, pending) && MovedOn(jobs, next, changed)
    ensures Complete(next, index, pending + changed)
  {}

  /** A renewed lease is pending once the entry of its version is removed. */
  lemma {:induction false} RenewalPends(jobs: map<string, AIJob>, cache: Cache, id: string, job: AIJob)
    requires Complete(jobs, cache.index, {}) && id in jobs && job.id == id && id != ""
    requires job.statusVersion == jobs[id].statusVersion && job.statusVersion > 0 && Trimmed(id)
    requires forall other :: other in jobs ==> jobs[other].id == other
    ensures Complete(jobs[id := job], RemoveReference(cache, id, job.statusVersion).index, {id})
  {}

  lemma PendingShrinks(jobs: map<string, AIJob>, index: Index, pending: set<string>, fewer: set<string>)
    requires Complete(jobs, index, pending)
    requires forall id :: id in pending && id !in fewer ==> id !in jobs || !Waits(jobs[id])
    ensures Complete(jobs, index, fewer)
  {}

  // One operation on one job.

  ghost predicate AllProjectable(jobs: map<string, AIJob>) {
    forall id :: id in jobs ==> Projectable(jobs[id])
  }

  lemma {:induction false} ValidIsUsable(store: Store)
    requires Valid(store) && AllProjectable(store.jobs)
    ensures Usable(store.jobs)
  {}

  lemma {:induction false} EvolvedStaysProjectable(store: Store, next: Store, at: Time)
    requires AllProjectable(store.jobs) && StoreEvolved(store, next, at) && next.jobs.Keys == store.jobs.Keys
    ensures AllProjectable(next.jobs)
  {}

  // The index over a changing map of jobs.

  /** Store and cache are in step. */
  ghost predicate Synced(jobs: map<string, AIJob>, cache: Cache) {
    Usable(jobs) && Complete(jobs, cache.index, {}) && cache.refused == 0
  }

  lemma {:induction false} RegisterSyncs(jobs: map<string, AIJob>, cache: Cache, id: string)
    requires Usable(jobs) && id in jobs && cache.refused == 0 && Complete(jobs, cache.index, {id})
    ensures Synced(jobs, RegisterState(cache, jobs[id]))
  {
    RegisterCompletes(jobs, cache, {id}, id);
    assert {id} - {id} == {};
  }

  lemma {:induction false} MovePends(jobs: map<string, AIJob>, index: Index, job: AIJob)
    requires Complete(jobs, index, {}) && (job.id in jobs ==> job.statusVersion > jobs[job.id].statusVersion)
    ensures Complete(jobs[job.id := job], index, {job.id})
  {}

  lemma {:induction false} RemovePends(jobs: map<string, AIJob>, cache: Cache, pending: set<string>, id: string, version: int)
    requires Usable(jobs) && Complete(jobs, cache.index, pending) && pending <= {id}
    ensures Complete(jobs, RemoveReference(cache, id, version).index, {id})
  {
    RemoveLeavesPending(jobs, cache, pending, id, version);
    assert pending + {id} == {id};
  }

  /** A job that moved on, a removal with any reference to it, and a registration. */
  lemma {:induction false} MoveIsFollowed(jobs: map<string, AIJob>, cache: Cache, job: AIJob, version: int)
    requires Synced(jobs, cache) && Usable(jobs[job.id := job])
    requires job.id in jobs ==> job.statusVersion > jobs[job.id].statusVersion
    ensures Synced(jobs[job.id := job], RegisterState(RemoveReference(cache, job.id, version), job))
  {
    MovePends(jobs, cache.index, job);
    RemovePends(jobs[job.id := job], cache, {job.id}, job.id, version);
    RegisterSyncs(jobs[job.id := job], RemoveReference(cache, job.id, version), job.id);
  }

  lemma {:induction false} NewJobIsFollowed(jobs: map<string, AIJob>, cache: Cache, job: AIJob)
    requires Synced(jobs, cache) && Usable(jobs[job.id := job]) && job.id !in jobs
    ensures Synced(jobs[job.id := job], RegisterState(cache, job))
  {
    MovePends(jobs, cache.index, job);
    RegisterSyncs(jobs[job.id := job], cache, job.id);
  }

  lemma {:induction false} RenewalIsFollowed(jobs: map<string, AIJob>, cache: Cache, job: AIJob)
    requires Synced(jobs, cache) && Usable(jobs[job.id := job]) && job.id in jobs
    requires job.statusVersion == jobs[job.id].statusVersion
    ensures Synced(jobs[job.id := job], RegisterState(RemoveReference(cache, job.id, job.statusVersion), job))
  {
    assert jobs[job.id := job][job.id] == job;
    RenewalPends(jobs, cache, job.id, job);
    RegisterSyncs(jobs[job.id := job], RemoveReference(cache, job.id, job.statusVersion), job.id);
  }

  /** Removing any reference to a stored job and registering it again changes nothing that matters. */
  lemma {:induction false} ResyncKeeps(jobs: map<string, AIJob>, cache: Cache, id: string, version: int)
    requires Synced(jobs, cache) && id in jobs
    ensures Synced(jobs, RegisterState(RemoveReference(cache, id, version), jobs[id]))
  {
    RemovePends(jobs, cache, {}, id, version);
    RegisterSyncs(jobs, RemoveReference(cache, id, version), id);
  }

  lemma {:induction false} RepeatKeeps(jobs: map<string, AIJob>, cache: Cache, id: string)
    requires Synced(jobs, cache) && id in jobs
    ensures Synced(jobs, RegisterState(cache, jobs[id]))
  {
    RegisterCompletes(jobs, cache, {}, id);
    assert {} - {id} == {};
  }

  /** A job that moved on and no longer waits may keep its stale entry. */
  lemma {:induction false} StaleEntryIsHarmless(jobs: map<string, AIJob>, cache: Cache, job: AIJob)
    requires Synced(jobs, cache) && Usable(jobs[job.id := job]) && !Waits(job)
    requires job.id in jobs && job.statusVersion > jobs[job.id].statusVersion
    ensures Synced(jobs[job.id := job], cache)
  {
    MovePends(jobs, cache.index, job);
    PendingShrinks(jobs[job.id := job], cache.index, {job.id}, {});
  }

  // The operations of the service.

  lemma {:induction false} DecisionVersions(job: AIJob, step: Step, at: Time)
    ensures match Decide(job, step, at)
            case Record(to, _) =>
              && !step.Extending? && to.id == job.id && to.statusVersion == job.statusVersion + 1
              && (step.Transitioning? || step.Requeuing? ==> step.version == job.statusVersion)
            case Renew(to) => step.Extending? && to.id == job.id && to.statusVersion == job.statusVersion == step.version
            case _ => true
  {}

  /** What a changed outcome says about the decision. */
  lemma CarriedOut(store: Store, job: AIJob, decision: Decision)
    requires CarryOut(store, job, decision).outcome.Changed?
    ensures (decision.Record? || decision.Renew?) && CarryOut(store, job, decision).outcome.job == decision.job
    ensures CarryOut(store, job, decision).store.jobs == store.jobs[decision.job.id := decision.job]
  {}

  /** A decision that was carried out: the job is renewed in its version, or it moved on by one. */
  lemma {:induction false} OutcomeOfAct(store: Store, id: string, step: Step, at: Time)
    requires Valid(store) && CreatedBy(store, at) && ProperAt(store, id, step, at) && Act(store, id, step, at).outcome.Changed?
    ensures var reply := Act(store, id, step, at);
            && id in store.jobs && reply.outcome.job.id == id && reply.store.jobs == store.jobs[id := reply.outcome.job]
            && (step.Extending? ==> reply.outcome.job.statusVersion == store.jobs[id].statusVersion == step.version)
            && (!step.Extending? ==> reply.outcome.job.statusVersion == store.jobs[id].statusVersion + 1)
            && (step.Transitioning? || step.Requeuing? ==> store.jobs[id].statusVersion == step.version)
  {
    StoredFits(store, id);
    CarriedOut(store, store.jobs[id], Decide(store.jobs[id], step, at));
    DecisionVersions(store.jobs[id], step, at);
  }

  lemma {:induction false} UnchangedStore(store: Store, id: string, step: Step, at: Time)
    requires Valid(store) && CreatedBy(store, at) && ProperAt(store, id, step, at)
    requires !Act(store, id, step, at).outcome.Changed?
    ensures Act(store, id, step, at).store == store
  {
    if id in store.jobs {
      ActIsAllowed(store, id, step, at);
      CarryOutTouchesOneJob(store, store.jobs[id], Decide(store.jobs[id], step, at), at);
    }
  }

  lemma {:induction false} ActKeepsKeys(store: Store, id: string, step: Step, at: Time)
    requires Valid(store) && CreatedBy(store, at) && ProperAt(store, id, step, at)
    ensures Act(store, id, step, at).store.jobs.Keys == store.jobs.Keys
  {
    if Act(store, id, step, at).outcome.Changed? {
      OutcomeOfAct(store, id, step, at);
    } else {
      UnchangedStore(store, id, step, at);
    }
  }

  lemma {:induction false} ActKeepsProjectable(store: Store, id: string, step: Step, at: Time)
    requires Valid(store) && CreatedBy(store, at) && ProperAt(store, id, step, at) && AllProjectable(store.jobs)
    ensures AllProjectable(Act(store, id, step, at).store.jobs)
  {
    ActKeepsKeys(store, id, step, at);
    ActEvolves(store, id, step, at);
    EvolvedStaysProjectable(store, Act(store, id, step, at).store, at);
  }

  lemma {:induction false} ActKeepsUsable(store: Store, id: string, step: Step, at: Time)
    requires Valid(store) && CreatedBy(store, at) && ProperAt(store, id, step, at) && AllProjectable(store.jobs)
    ensures Usable(Act(store, id, step, at).store.jobs)
  {
    ActKeepsValid(store, id, step, at);
    ActKeepsProjectable(store, id, step, at);
    ValidIsUsable(Act(store, id, step, at).store);
  }

  /** What the service relies on: a valid store whose jobs the index can hold. */
  ghost predicate Ground(store: Store, at: Time) {
    Valid(store) && AllProjectable(store.jobs) && CreatedBy(store, at)
  }

  /** Transition, requeue and extend keep store and cache in step. */
  lemma {:induction false} StepIsFollowed(store: Store, cache: Cache, id: string, step: Step, at: Time)
    requires Ground(store, at) && ProperAt(store, id, step, at) && Synced(store.jobs, cache)
    requires step.Transitioning? || step.Requeuing? || step.Extending?
    ensures Synced(Act(store, id, step, at).store.jobs, Follow(cache, id, step.version, Act(store, id, step, at).outcome))
  {
    var reply := Act(store, id, step, at);
    ActKeepsUsable(store, id, step, at);
    if reply.outcome.Changed? {
      OutcomeOfAct(store, id, step, at);
      if step.Extending? {
        RenewalIsFollowed(store.jobs, cache, reply.outcome.job);
      } else {
        MoveIsFollowed(store.jobs, cache, reply.outcome.job, step.version);
      }
    } else {
      UnchangedStore(store, id, step, at);
    }
  }

  lemma {:induction false} CancelOutcome(store: Store, id: string, reason: string, at: Time)
    requires id in store.jobs ==> store.jobs[id].id == id
    ensures var outcome := Act(store, id, Step.Canceling(reason), at).outcome;
            && (outcome.Changed? ==> !Waits(outcome.job))
            && (outcome.Unchanged? ==> id in store.jobs && outcome.job == store.jobs[id] && outcome.job.id == id)
  {}

  lemma VersionsArePositive(jobs: map<string, AIJob>, id: string)
    requires Usable(jobs) && id in jobs
    ensures jobs[id].statusVersion >= 1
  {}

  lemma {:induction false} CanceledIsFollowed(jobs: map<string, AIJob>, cache: Cache, job: AIJob, outcome: Outcome)
    requires Synced(jobs, cache) && Usable(jobs) && Usable(jobs[job.id := job]) && outcome == Changed(job)
    requires job.id in jobs && job.statusVersion == jobs[job.id].statusVersion + 1
    ensures Synced(jobs[job.id := job], FollowCancel(cache, outcome))
  {
    VersionsArePositive(jobs, job.id);
    MoveIsFollowed(jobs, cache, job, job.statusVersion - 1);
  }

  lemma {:induction false} KeptIsFollowed(jobs: map<string, AIJob>, cache: Cache, id: string, outcome: Outcome)
    requires Synced(jobs, cache) && !outcome.Changed?
    requires outcome.Unchanged? ==> id in jobs && outcome.job == jobs[id] && outcome.job.id == id
    ensures Synced(jobs, FollowCancel(cache, outcome))
  {
    if outcome.Unchanged? { ResyncKeeps(jobs, cache, id, outcome.job.statusVersion - 1); }
  }

  lemma {:induction false} ClientCancelIsFollowed(store: Store, cache: Cache, id: string, at: Time)
    requires Ground(store, at) && Synced(store.jobs, cache)
    ensures var reply := Act(store, id, Step.Canceling(CLIENT_REASON), at);
            Synced(reply.store.jobs, FollowCancel(cache, reply.outcome))
  {
    var step := Step.Canceling(CLIENT_REASON);
    var reply := Act(store, id, step, at);
    if reply.outcome.Changed? {
      ActKeepsUsable(store, id, step, at);
      ValidIsUsable(store);
      OutcomeOfAct(store, id, step, at);
      CanceledIsFollowed(store.jobs, cache, reply.outcome.job, reply.outcome);
    } else {
      CancelOutcome(store, id, CLIENT_REASON, at);
      UnchangedStore(store, id, step, at);
      KeptIsFollowed(store.jobs, cache, id, reply.outcome);
    }
  }

  /** The administrator's cancellation does not touch the index: a stale entry stays behind. */
  lemma {:induction false} AdminCancelKeepsStep(store: Store, cache: Cache, id: string, at: Time)
    requires Ground(store, at) && Synced(store.jobs, cache)
    ensures Synced(Act(store, id, Step.Canceling(ADMIN_REASON), at).store.jobs, cache)
  {
    var step := Step.Canceling(ADMIN_REASON);
    ActKeepsUsable(store, id, step, at);
    CancelOutcome(store, id, ADMIN_REASON, at);
    if Act(store, id, step, at).outcome.Changed? {
      OutcomeOfAct(store, id, step, at);
      StaleEntryIsHarmless(store.jobs, cache, Act(store, id, step, at).outcome.job);
    } else {
      UnchangedStore(store, id, step, at);
    }
  }

  /** A repeated request must have the fingerprint of the first. */
  function FollowCreate(cache: Cache, job: AIJob, outcome: Outcome): Cache {
    if outcome.Changed? then RegisterState(cache, outcome.job)
    else if outcome.Unchanged? && outcome.job.submission.requestFingerprint == job.submission.requestFingerprint then
      RegisterState(cache, outcome.job)
    else cache
  }

  ghost predicate CreatedAs(jobs: map<string, AIJob>, next: map<string, AIJob>, job: AIJob, outcome: Outcome) {
    if outcome.Changed? then outcome.job == job && job.id !in jobs && next == jobs[job.id := job]
    else next == jobs && (outcome.Unchanged? ==> outcome.job.id in jobs && jobs[outcome.job.id] == outcome.job)
  }

  lemma {:induction false} CreateOutcome(store: Store, job: AIJob, limits: Limits)
    requires forall id :: id in store.jobs ==> store.jobs[id].id == id
    ensures var reply := Create(store, job, limits); CreatedAs(store.jobs, reply.store.jobs, job, reply.outcome)
  {}

  lemma AddedIsUsable(jobs: map<string, AIJob>, job: AIJob)
    requires Usable(jobs) && Projectable(job) && Fit(job)
    ensures Usable(jobs[job.id := job])
  {}

  lemma {:induction false} CreationIsFollowed(
    jobs: map<string, AIJob>, next: map<string, AIJob>, cache: Cache, job: AIJob, outcome: Outcome)
    requires Synced(jobs, cache) && Usable(jobs[job.id := job]) && CreatedAs(jobs, next, job, outcome)
    ensures Synced(next, FollowCreate(cache, job, outcome))
  {
    if outcome.Changed? {
      NewJobIsFollowed(jobs, cache, job);
    } else if outcome.Unchanged? {
      RepeatKeeps(jobs, cache, outcome.job.id);
    }
  }

  lemma {:induction false} CreateIsFollowed(store: Store, cache: Cache, job: AIJob, limits: Limits)
    requires Synced(store.jobs, cache) && Projectable(job) && Fit(job)
    ensures Synced(Create(store, job, limits).store.jobs, FollowCreate(cache, job, Create(store, job, limits).outcome))
  {
    var reply := Create(store, job, limits);
    CreateOutcome(store, job, limits);
    AddedIsUsable(store.jobs, job);
    CreationIsFollowed(store.jobs, reply.store.jobs, cache, job, reply.outcome);
  }

  // Claims.

  /** The two rounds of one claim: candidates of the index first, then the store itself; at the end every claimed job is
      registered. */
  function ClaimFirst(store: Store, picks: seq<AIJob>, lease: Lease, now: Time): Batch {
    ClaimAll(store, picks, lease, now)
  }

  function ClaimCache(
    cache: Cache, first: Batch, indexed: seq<Entry>, second: Batch, now: Time): Cache
  {
    RegisterAll(Reconcile(cache, first.store, indexed, IDs(first.claimed), now), first.claimed + second.claimed)
  }

  lemma {:induction false} BatchMovesOn(store: Store, batch: Batch, picks: seq<AIJob>, lease: Lease)
    requires ClaimedExactly(store, batch, picks, lease)
    requires forall i :: 0 <= i < |picks| ==> picks[i].id in store.jobs && store.jobs[picks[i].id] == picks[i]
    ensures MovedOn(store.jobs, batch.store.jobs, IDs(batch.claimed))
  {
    forall id | id in batch.store.jobs && id !in IDs(batch.claimed) ensures batch.store.jobs[id] == store.jobs[id] {
      forall i | 0 <= i < |picks| ensures picks[i].id != id { assert batch.claimed[i].id in IDs(batch.claimed); }
    }
    forall id | id in store.jobs && id in IDs(batch.claimed)
      ensures batch.store.jobs[id].statusVersion > store.jobs[id].statusVersion
    {
      var i :| 0 <= i < |batch.claimed| && batch.claimed[i].id == id;
      assert picks[i].id == id && Holds(picks[i], batch.claimed[i], lease);
    }
  }

  lemma {:induction false} ReconcileOneKeeps(
    jobs: map<string, AIJob>, cache: Cache, store: Store, candidate: Entry, claimed: set<string>, now: Time)
    requires jobs == store.jobs && Usable(jobs) && Complete(jobs, cache.index, claimed) && cache.refused == 0
    ensures Complete(jobs, ReconcileOne(cache, store, candidate, claimed, now).index, claimed)
    ensures ReconcileOne(cache, store, candidate, claimed, now).refused == 0
  {
    var id := candidate.jobID;
    var removed := RemoveReference(cache, id, candidate.statusVersion);
    RemoveLeavesPending(jobs, cache, claimed, id, candidate.statusVersion);
    if id in claimed || id !in jobs {
      PendingShrinks(jobs, removed.index, claimed + {id}, claimed);
    } else {
      RegisterCompletes(jobs, removed, claimed + {id}, id);
      assert claimed + {id} - {id} == claimed;
    }
  }

  /** Whatever the index returned, reconciling keeps every unclaimed waiting job in the index. */
  lemma {:induction false} ReconcileKeeps(
    cache: Cache, store: Store, candidates: seq<Entry>, claimed: set<string>, now: Time)
    requires Usable(store.jobs) && Complete(store.jobs, cache.index, claimed) && cache.refused == 0
    ensures Complete(store.jobs, Reconcile(cache, store, candidates, claimed, now).index, claimed)
    ensures Reconcile(cache, store, candidates, claimed, now).refused == 0
  {
    if candidates != [] {
      var n := |candidates| - 1;
      ReconcileKeeps(cache, store, candidates[..n], claimed, now);
      ReconcileOneKeeps(store.jobs, Reconcile(cache, store, candidates[..n], claimed, now), store, candidates[n], claimed, now);
    }
  }

  ghost predicate AllStored(jobs: map<string, AIJob>, list: seq<AIJob>) {
    forall i :: 0 <= i < |list| ==> list[i].id in jobs && jobs[list[i].id] == list[i]
  }

  lemma IDsOneMore(list: seq<AIJob>, n: nat)
    requires |list| == n + 1
    ensures IDs(list) == IDs(list[..n]) + {list[n].id}
  {}

  lemma {:induction false} RegisterAllCompletes(jobs: map<string, AIJob>, cache: Cache, pending: set<string>, list: seq<AIJob>)
    requires Usable(jobs) && Complete(jobs, cache.index, pending) && cache.refused == 0 && AllStored(jobs, list)
    ensures Complete(jobs, RegisterAll(cache, list).index, pending - IDs(list)) && RegisterAll(cache, list).refused == 0
  {
    if list != [] {
      var n := |list| - 1;
      RegisterAllCompletes(jobs, cache, pending, list[..n]);
      RegisterCompletes(jobs, RegisterAll(cache, list[..n]), pending - IDs(list[..n]), list[n].id);
      IDsOneMore(list, n);
      assert pending - IDs(list) == pending - IDs(list[..n]) - {list[n].id};
    } else {
      assert pending - IDs(list) == pending;
    }
  }

  lemma IDsConcat(a: seq<AIJob>, b: seq<AIJob>)
    ensures IDs(a + b) == IDs(a) + IDs(b)
  {
    forall id | id in IDs(a) + IDs(b) ensures id in IDs(a + b) {
      if id in IDs(a) {
        var i :| 0 <= i < |a| && a[i].id == id;
        assert (a + b)[i].id == id;
      } else {
        var i :| 0 <= i < |b| && b[i].id == id;
        assert (a + b)[|a| + i].id == id;
      }
    }
  }

  /** The cache work of one claim, over the jobs before, between and after its two rounds. */
  lemma {:induction false} ClaimIsFollowed(
    before: Store, first: Batch, second: Batch, cache: Cache, indexed: seq<Entry>, now: Time)
    requires Synced(before.jobs, cache) && Usable(first.store.jobs) && Usable(second.store.jobs)
    requires MovedOn(before.jobs, first.store.jobs, IDs(first.claimed))
    requires MovedOn(first.store.jobs, second.store.jobs, IDs(second.claimed))
    requires AllStored(second.store.jobs, first.claimed + second.claimed)
    ensures Synced(second.store.jobs, ClaimCache(cache, first, indexed, second, now))
  {
    var one, two := IDs(first.claimed), IDs(second.claimed);
    LaterVersionsPend(before.jobs, first.store.jobs, cache.index, {}, one);
    assert {} + one == one;
    ReconcileKeeps(cache, first.store, indexed, one, now);
    var reconciled := Reconcile(cache, first.store, indexed, one, now);
    LaterVersionsPend(first.store.jobs, second.store.jobs, reconciled.index, one, two);
    RegisterAllCompletes(second.store.jobs, reconciled, one + two, first.claimed + second.claimed);
    IDsConcat(first.claimed, second.claimed);
    assert one + two - IDs(first.claimed + second.claimed) == {};
  }

  /** What a claim rests on: both rounds pick ready candidates. */
  ghost predicate TwoRounds(store: Store, picks: seq<AIJob>, more: seq<AIJob>, lease: Lease, now: Time) {
    && RealLease(lease, now) && Candidates(store, picks, now)
    && Candidates(ClaimFirst(store, picks, lease, now).store, more, now)
  }

  lemma {:induction false} SecondRoundIsNew(store: Store, first: Batch, picks: seq<AIJob>, more: seq<AIJob>, lease: Lease, now: Time)
    requires ClaimedExactly(store, first, picks, lease) && Candidates(first.store, more, now) && lease.until > now
    ensures forall i, j :: 0 <= i < |picks| && 0 <= j < |more| ==> picks[i].id != more[j].id
  {}

  lemma {:induction false} ClaimedStay(store: Store, first: Batch, second: Batch, picks: seq<AIJob>, more: seq<AIJob>, lease: Lease)
    requires ClaimedExactly(store, first, picks, lease) && ClaimedExactly(first.store, second, more, lease)
    requires forall i, j :: 0 <= i < |picks| && 0 <= j < |more| ==> picks[i].id != more[j].id
    ensures AllStored(second.store.jobs, first.claimed + second.claimed)
  {}

  lemma {:induction false} BatchIsUsable(store: Store, picks: seq<AIJob>, lease: Lease, now: Time)
    requires Ground(store, now) && RealLease(lease, now) && Candidates(store, picks, now)
    ensures Ground(ClaimAll(store, picks, lease, now).store, now) && Usable(ClaimAll(store, picks, lease, now).store.jobs)
    ensures ClaimedExactly(store, ClaimAll(store, picks, lease, now), picks, lease)
    ensures MovedOn(store.jobs, ClaimAll(store, picks, lease, now).store.jobs, IDs(ClaimAll(store, picks, lease, now).claimed))
  {
    BatchKeeps(store, picks, lease, now);
    BatchClaimsAll(store, picks, lease, now);
    var next := ClaimAll(store, picks, lease, now).store;
    EvolvedStaysProjectable(store, next, now);
    ValidIsUsable(next);
    CandidatesAreStored(store, picks, now);
    BatchMovesOn(store, ClaimAll(store, picks, lease, now), picks, lease);
  }

  lemma CandidatesAreStored(store: Store, picks: seq<AIJob>, now: Time)
    requires Candidates(store, picks, now)
    ensures forall i :: 0 <= i < |picks| ==> picks[i].id in store.jobs && store.jobs[picks[i].id] == picks[i]
  {}

  /** A claim, whatever the index returned, keeps store and cache in step. */
  lemma {:induction false} ClaimKeepsStep(
    store: Store, cache: Cache, indexed: seq<Entry>, picks: seq<AIJob>, more: seq<AIJob>, lease: Lease, now: Time)
    requires Ground(store, now) && Synced(store.jobs, cache) && TwoRounds(store, picks, more, lease, now)
    ensures var first := ClaimFirst(store, picks, lease, now);
            var second := ClaimAll(first.store, more, lease, now);
            Ground(second.store, now) && Synced(second.store.jobs, ClaimCache(cache, first, indexed, second, now))
  {
    var first := ClaimFirst(store, picks, lease, now);
    BatchIsUsable(store, picks, lease, now);
    BatchIsUsable(first.store, more, lease, now);
    var second := ClaimAll(first.store, more, lease, now);
    SecondRoundIsNew(store, first, picks, more, lease, now);
    ClaimedStay(store, first, second, picks, more, lease);
    ClaimIsFollowed(store, first, second, cache, indexed, now);
  }
}
