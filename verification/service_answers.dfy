/** What the ready index holds over runs of the service: nothing stale but what an administrator cancelled, and only until a
    claim looks at it. */
module ServiceAnswers {
  import opened Text
  import opened JobModel
  import opened FairQueue
  import opened JobStore
  import opened JobHistory
  import opened JobRuns
  import opened Admission
  import opened JobClaims
  import opened RoundRobin
  import opened ReadyIndex
  import opened JobService
  import opened ServiceRuns

  /** Every entry is the current projection of its job, but for those in `allowed`. */
  ghost predicate StaleOnly(jobs: map<string, AIJob>, index: Index, allowed: set<string>) {
    forall id :: id in index && id !in allowed ==> id in jobs && Present(index, jobs[id])
  }

  lemma StaleAmongMore(jobs: map<string, AIJob>, index: Index, few: set<string>, many: set<string>)
    requires StaleOnly(jobs, index, few) && few <= many
    ensures StaleOnly(jobs, index, many)
  {}

  lemma {:induction false} RemovingAddsNoStale(
    jobs: map<string, AIJob>, cache: Cache, id: string, version: int, allowed: set<string>)
    requires StaleOnly(jobs, cache.index, allowed) && Usable(jobs)
    ensures StaleOnly(jobs, RemoveReference(cache, id, version).index, allowed)
  {
    var next := RemoveReference(cache, id, version).index;
    forall other | other in next && other !in allowed ensures other in jobs && Present(next, jobs[other]) {
      assert Present(cache.index, jobs[other]) && jobs[other].id == other;
    }
  }

  ghost predicate IdsFit(jobs: map<string, AIJob>) {
    forall id :: id in jobs ==> jobs[id].id == id
  }

  /** What registering does to the index. */
  ghost predicate PutsAtMost(index: Index, next: Index, job: AIJob) {
    next == index || (NewEntry(job).Some? && next == index[job.id := NewEntry(job).value])
  }

  lemma {:induction false} RegisteringPuts(cache: Cache, job: AIJob)
    requires Projectable(job) && Fit(job)
    ensures PutsAtMost(cache.index, RegisterState(cache, job).index, job)
  {
    if Waits(job) {
      WaitingJobsProject(job);
      NormalIsPut(cache.index, NewEntry(job).value);
    }
  }

  lemma {:induction false} NormalIsPut(index: Index, e: Entry)
    requires Normalize(e) == e
    ensures AfterRegister(index, e).0 in {index, index[e.jobID := e]}
  {}

  lemma {:induction false} PuttingAddsNoStale(
    jobs: map<string, AIJob>, index: Index, next: Index, id: string, allowed: set<string>)
    requires IdsFit(jobs) && id in jobs && StaleOnly(jobs, index, allowed) && PutsAtMost(index, next, jobs[id])
    ensures StaleOnly(jobs, next, allowed)
  {
    forall other | other in next && other !in allowed ensures other in jobs && Present(next, jobs[other]) {
      if next != index && other == id {
        assert next[id] == NewEntry(jobs[id]).value;
      } else {
        assert Present(index, jobs[other]);
      }
    }
  }

  lemma {:induction false} RegisteringAddsNoStale(
    jobs: map<string, AIJob>, cache: Cache, id: string, allowed: set<string>)
    requires Usable(jobs) && id in jobs && StaleOnly(jobs, cache.index, allowed)
    ensures StaleOnly(jobs, RegisterState(cache, jobs[id]).index, allowed)
  {
    RegisteringPuts(cache, jobs[id]);
    PuttingAddsNoStale(jobs, cache.index, RegisterState(cache, jobs[id]).index, id, allowed);
  }

  lemma {:induction false} CompleteIsCurrent(
    jobs: map<string, AIJob>, index: Index, pending: set<string>, id: string, allowed: set<string>)
    requires IdsFit(jobs) && Complete(jobs, index, pending) && StaleOnly(jobs, index, allowed)
    requires id in jobs && id !in pending && Waits(jobs[id])
    ensures StaleOnly(jobs, index, allowed - {id})
  {}

  /** Registering a waiting job makes its entry current. */
  lemma {:induction false} RegisteringMakesCurrent(
    jobs: map<string, AIJob>, cache: Cache, id: string, pending: set<string>, allowed: set<string>)
    requires Usable(jobs) && Complete(jobs, cache.index, pending) && id in jobs && Waits(jobs[id])
    requires StaleOnly(jobs, cache.index, allowed)
    ensures StaleOnly(jobs, RegisterState(cache, jobs[id]).index, allowed - {id})
  {
    RegisterCompletes(jobs, cache, pending, id);
    RegisteringAddsNoStale(jobs, cache, id, allowed);
    CompleteIsCurrent(jobs, RegisterState(cache, jobs[id]).index, pending - {id}, id, allowed);
  }

  lemma {:induction false} RemovalIsExact(cache: Cache, id: string, version: int)
    requires Trim(id) != "" && version > 0
    ensures var next := RemoveReference(cache, id, version).index;
            next == (if id in cache.index && cache.index[id].statusVersion == version then cache.index - {id} else cache.index)
  {}

  lemma PresentVersion(index: Index, job: AIJob)
    requires Present(index, job)
    ensures index[job.id].statusVersion == job.statusVersion
  {}

  lemma {:induction false} ChangedEntryIsRemoved(
    jobs: map<string, AIJob>, index: Index, next: Index, job: AIJob, allowed: set<string>)
    requires IdsFit(jobs) && StaleOnly(jobs, index, allowed) && job.id in jobs
    requires next == (if job.id in index && index[job.id].statusVersion == jobs[job.id].statusVersion then index - {job.id} else index)
    ensures StaleOnly(jobs[job.id := job], next, allowed)
  {
    forall other | other in next && other !in allowed
      ensures other in jobs[job.id := job] && Present(next, jobs[job.id := job][other])
    {
      PresentVersion(index, jobs[other]);
    }
  }

  /** A job that changed: once the entry of its version is removed, its entry is stale only if it was before. */
  lemma {:induction false} ChangeAddsNoStale(
    jobs: map<string, AIJob>, cache: Cache, job: AIJob, version: int, allowed: set<string>)
    requires Usable(jobs) && StaleOnly(jobs, cache.index, allowed) && job.id in jobs
    requires version == jobs[job.id].statusVersion
    ensures StaleOnly(jobs[job.id := job], RemoveReference(cache, job.id, version).index, allowed)
  {
    assert Projectable(jobs[job.id]) && Fit(jobs[job.id]) && jobs[job.id].id == job.id;
    RemovalIsExact(cache, job.id, version);
    ChangedEntryIsRemoved(jobs, cache.index, RemoveReference(cache, job.id, version).index, job, allowed);
  }

  lemma {:induction false} FollowedAddsNoStale(
    jobs: map<string, AIJob>, cache: Cache, job: AIJob, version: int, allowed: set<string>)
    requires Usable(jobs) && Usable(jobs[job.id := job]) && StaleOnly(jobs, cache.index, allowed)
    requires job.id in jobs && version == jobs[job.id].statusVersion
    ensures StaleOnly(jobs[job.id := job], RegisterState(RemoveReference(cache, job.id, version), job).index, allowed)
  {
    var next := jobs[job.id := job];
    ChangeAddsNoStale(jobs, cache, job, version, allowed);
    RegisteringAddsNoStale(next, RemoveReference(cache, job.id, version), job.id, allowed);
    assert next[job.id] == job;
  }

  // The calls of the service.

  lemma {:induction false} ActAddsNoStale(
    store: Store, cache: Cache, id: string, step: Step, at: Time, allowed: set<string>)
    requires Ground(store, at) && ProperAt(store, id, step, at) && Synced(store.jobs, cache)
    requires StaleOnly(store.jobs, cache.index, allowed)
    requires Act(store, id, step, at).outcome.Changed?
    ensures var reply := Act(store, id, step, at);
            && id in store.jobs
            && var removed := RemoveReference(cache, id, store.jobs[id].statusVersion);
               StaleOnly(reply.store.jobs, RegisterState(removed, reply.outcome.job).index, allowed)
  {
    var reply := Act(store, id, step, at);
    ActKeepsUsable(store, id, step, at);
    OutcomeOfAct(store, id, step, at);
    ValidIsUsable(store);
    FollowedAddsNoStale(store.jobs, cache, reply.outcome.job, store.jobs[id].statusVersion, allowed);
  }

  lemma {:induction false} StepAddsNoStale(
    store: Store, cache: Cache, id: string, step: Step, at: Time, allowed: set<string>)
    requires Ground(store, at) && ProperAt(store, id, step, at) && Synced(store.jobs, cache)
    requires StaleOnly(store.jobs, cache.index, allowed)
    requires step.Transitioning? || step.Requeuing? || step.Extending?
    ensures var reply := Act(store, id, step, at);
            StaleOnly(reply.store.jobs, Follow(cache, id, step.version, reply.outcome).index, allowed)
  {
    if Act(store, id, step, at).outcome.Changed? {
      OutcomeOfAct(store, id, step, at);
      ActAddsNoStale(store, cache, id, step, at, allowed);
    } else {
      UnchangedStore(store, id, step, at);
    }
  }

  lemma {:induction false} ClientCancelAddsNoStale(store: Store, cache: Cache, id: string, at: Time, allowed: set<string>)
    requires Ground(store, at) && Synced(store.jobs, cache) && StaleOnly(store.jobs, cache.index, allowed)
    ensures var reply := Act(store, id, Step.Canceling(CLIENT_REASON), at);
            StaleOnly(reply.store.jobs, FollowCancel(cache, reply.outcome).index, allowed)
  {
    var step := Step.Canceling(CLIENT_REASON);
    var reply := Act(store, id, step, at);
    CancelOutcome(store, id, CLIENT_REASON, at);
    ValidIsUsable(store);
    if reply.outcome.Changed? {
      OutcomeOfAct(store, id, step, at);
      VersionsArePositive(store.jobs, id);
      ActAddsNoStale(store, cache, id, step, at, allowed);
    } else {
      UnchangedStore(store, id, step, at);
      if reply.outcome.Unchanged? { RepeatedCancelAddsNoStale(store.jobs, cache, id, allowed); }
    }
  }

  lemma {:induction false} RepeatedCancelAddsNoStale(
    jobs: map<string, AIJob>, cache: Cache, id: string, allowed: set<string>)
    requires Synced(jobs, cache) && StaleOnly(jobs, cache.index, allowed) && id in jobs
    ensures StaleOnly(jobs, FollowCancel(cache, Unchanged(jobs[id])).index, allowed)
  {
    var version := jobs[id].statusVersion - 1;
    assert jobs[id].id == id;
    RemovingAddsNoStale(jobs, cache, id, version, allowed);
    RegisteringAddsNoStale(jobs, RemoveReference(cache, id, version), id, allowed);
  }

  /** An administrator's cancellation may leave the entry of its job behind, and nothing else. */
  lemma {:induction false} AdminCancelLeavesOne(store: Store, cache: Cache, id: string, at: Time, allowed: set<string>)
    requires Ground(store, at) && Synced(store.jobs, cache) && StaleOnly(store.jobs, cache.index, allowed)
    ensures StaleOnly(Act(store, id, Step.Canceling(ADMIN_REASON), at).store.jobs, cache.index, allowed + {id})
  {
    var step := Step.Canceling(ADMIN_REASON);
    if Act(store, id, step, at).outcome.Changed? {
      OutcomeOfAct(store, id, step, at);
    } else {
      UnchangedStore(store, id, step, at);
    }
  }

  lemma {:induction false} NewJobAddsNoStale(jobs: map<string, AIJob>, cache: Cache, job: AIJob, allowed: set<string>)
    requires Usable(jobs[job.id := job]) && StaleOnly(jobs, cache.index, allowed) && job.id !in jobs
    ensures StaleOnly(jobs[job.id := job], RegisterState(cache, job).index, allowed)
  {
    var next := jobs[job.id := job];
    assert StaleOnly(next, cache.index, allowed);
    assert next[job.id] == job;
    RegisteringAddsNoStale(next, cache, job.id, allowed);
  }

  lemma {:induction false} CreationAddsNoStale(
    jobs: map<string, AIJob>, next: map<string, AIJob>, cache: Cache, job: AIJob, outcome: Outcome, allowed: set<string>)
    requires Usable(jobs) && Usable(jobs[job.id := job]) && CreatedAs(jobs, next, job, outcome)
    requires StaleOnly(jobs, cache.index, allowed)
    ensures StaleOnly(next, FollowCreate(cache, job, outcome).index, allowed)
  {
    if outcome.Changed? {
      NewJobAddsNoStale(jobs, cache, job, allowed);
    } else if outcome.Unchanged? {
      RegisteringAddsNoStale(jobs, cache, outcome.job.id, allowed);
    }
  }

  lemma {:induction false} BeginAddsNoStale(store: Store, cache: Cache, job: AIJob, limits: Limits, allowed: set<string>)
    requires Synced(store.jobs, cache) && StaleOnly(store.jobs, cache.index, allowed) && Projectable(job) && Fit(job)
    ensures var reply := Create(store, job, limits);
            StaleOnly(reply.store.jobs, FollowCreate(cache, job, reply.outcome).index, allowed)
  {
    var reply := Create(store, job, limits);
    CreateOutcome(store, job, limits);
    AddedIsUsable(store.jobs, job);
    CreationAddsNoStale(store.jobs, reply.store.jobs, cache, job, reply.outcome, allowed);
  }

  // Claims.

  lemma {:induction false} ClaimedAreStale(
    jobs: map<string, AIJob>, next: map<string, AIJob>, index: Index, allowed: set<string>, claimed: set<string>)
    requires StaleOnly(jobs, index, allowed) && MovedOn(jobs, next, claimed)
    ensures StaleOnly(next, index, allowed + claimed)
  {}

  lemma {:induction false} ReconcileOneAddsNoStale(
    cache: Cache, store: Store, candidate: Entry, claimed: set<string>, now: Time, allowed: set<string>)
    requires Usable(store.jobs) && StaleOnly(store.jobs, cache.index, allowed)
    ensures StaleOnly(store.jobs, ReconcileOne(cache, store, candidate, claimed, now).index, allowed)
  {
    var id := candidate.jobID;
    RemovingAddsNoStale(store.jobs, cache, id, candidate.statusVersion, allowed);
    if id !in claimed && id in store.jobs {
      RegisteringAddsNoStale(store.jobs, RemoveReference(cache, id, candidate.statusVersion), id, allowed);
    }
  }

  lemma {:induction false} ReconcileAddsNoStale(
    cache: Cache, store: Store, candidates: seq<Entry>, claimed: set<string>, now: Time, allowed: set<string>)
    requires Usable(store.jobs) && StaleOnly(store.jobs, cache.index, allowed)
    ensures StaleOnly(store.jobs, Reconcile(cache, store, candidates, claimed, now).index, allowed)
  {
    if candidates != [] {
      var n := |candidates| - 1;
      ReconcileAddsNoStale(cache, store, candidates[..n], claimed, now, allowed);
      ReconcileOneAddsNoStale(Reconcile(cache, store, candidates[..n], claimed, now), store, candidates[n], claimed, now, allowed);
    }
  }

  ghost predicate AllWait(list: seq<AIJob>) {
    forall i :: 0 <= i < |list| ==> Waits(list[i])
  }

  lemma {:induction false} RegisteredAreCurrent(
    jobs: map<string, AIJob>, cache: Cache, pending: set<string>, list: seq<AIJob>, allowed: set<string>)
    requires Usable(jobs) && Complete(jobs, cache.index, pending) && cache.refused == 0 && AllStored(jobs, list)
    requires AllWait(list)
    requires StaleOnly(jobs, cache.index, allowed)
    ensures StaleOnly(jobs, RegisterAll(cache, list).index, allowed - IDs(list))
  {
    if list != [] {
      var n := |list| - 1;
      var before, left, still := RegisterAll(cache, list[..n]), pending - IDs(list[..n]), allowed - IDs(list[..n]);
      RegisteredAreCurrent(jobs, cache, pending, list[..n], allowed);
      RegisterAllCompletes(jobs, cache, pending, list[..n]);
      RegisteringMakesCurrent(jobs, before, list[n].id, left, still);
      IDsOneMore(list, n);
      assert allowed - IDs(list) == still - {list[n].id};
    } else {
      assert allowed - IDs(list) == allowed;
    }
  }

  lemma {:induction false} ClaimAddsNoStale(
    before: Store, first: Batch, second: Batch, cache: Cache, indexed: seq<Entry>, now: Time, allowed: set<string>)
    requires Synced(before.jobs, cache) && Usable(first.store.jobs) && Usable(second.store.jobs)
    requires MovedOn(before.jobs, first.store.jobs, IDs(first.claimed))
    requires MovedOn(first.store.jobs, second.store.jobs, IDs(second.claimed))
    requires AllStored(second.store.jobs, first.claimed + second.claimed) && AllWait(first.claimed + second.claimed)
    requires StaleOnly(before.jobs, cache.index, allowed)
    ensures StaleOnly(second.store.jobs, ClaimCache(cache, first, indexed, second, now).index, allowed)
  {
    var one, two, all := IDs(first.claimed), IDs(second.claimed), first.claimed + second.claimed;
    LaterVersionsPend(before.jobs, first.store.jobs, cache.index, {}, one);
    assert {} + one == one;
    ClaimedAreStale(before.jobs, first.store.jobs, cache.index, allowed, one);
    ReconcileKeeps(cache, first.store, indexed, one, now);
    ReconcileAddsNoStale(cache, first.store, indexed, one, now, allowed + one);
    var reconciled := Reconcile(cache, first.store, indexed, one, now);
    LaterVersionsPend(first.store.jobs, second.store.jobs, reconciled.index, one, two);
    ClaimedAreStale(first.store.jobs, second.store.jobs, reconciled.index, allowed + one, two);
    RegisteredAreCurrent(second.store.jobs, reconciled, one + two, all, allowed + one + two);
    IDsConcat(first.claimed, second.claimed);
    StaleAmongMore(second.store.jobs, ClaimCache(cache, first, indexed, second, now).index, allowed + one + two - IDs(all), allowed);
  }

  lemma {:induction false} RoundsAddNoStale(
    store: Store, cache: Cache, indexed: seq<Entry>, picks: seq<AIJob>, more: seq<AIJob>, lease: Lease, now: Time,
    allowed: set<string>)
    requires Ground(store, now) && Synced(store.jobs, cache) && TwoRounds(store, picks, more, lease, now)
    requires StaleOnly(store.jobs, cache.index, allowed)
    ensures var first := ClaimFirst(store, picks, lease, now);
            var second := ClaimAll(first.store, more, lease, now);
            StaleOnly(second.store.jobs, ClaimCache(cache, first, indexed, second, now).index, allowed)
  {
    var first := ClaimFirst(store, picks, lease, now);
    BatchIsUsable(store, picks, lease, now);
    BatchIsUsable(first.store, more, lease, now);
    var second := ClaimAll(first.store, more, lease, now);
    SecondRoundIsNew(store, first, picks, more, lease, now);
    ClaimedStay(store, first, second, picks, more, lease);
    ClaimedWait(store, first, second, picks, more, lease);
    ClaimAddsNoStale(store, first, second, cache, indexed, now, allowed);
  }

  lemma {:induction false} ClaimedWait(
    store: Store, first: Batch, second: Batch, picks: seq<AIJob>, more: seq<AIJob>, lease: Lease)
    requires ClaimedExactly(store, first, picks, lease) && ClaimedExactly(first.store, second, more, lease)
    ensures AllWait(first.claimed + second.claimed)
  {}

  // Runs.

  /** The jobs that an administrator asked to cancel. */
  ghost function Administered(calls: seq<Timed>): set<string> {
    set i | 0 <= i < |calls| && calls[i].call.AdminCancel? :: calls[i].call.id
  }

  lemma {:induction false} ServeAddsNoStale(s: System, call: Call, at: Time, limits: Limits, allowed: set<string>)
    requires Healthy(s, at) && ProperCall(s, call, at) && StaleOnly(s.store.jobs, s.cache.index, allowed)
    ensures var next := Serve(s, call, at, limits);
            StaleOnly(next.store.jobs, next.cache.index, if call.AdminCancel? then allowed + {call.id} else allowed)
  {
    match call
    case Begin(id, operationID, scope, submission) =>
      BeginAddsNoStale(s.store, s.cache, NewJob(id, operationID, scope, submission, at), limits, allowed);
    case ClientCancel(id, _) => ClientCancelAddsNoStale(s.store, s.cache, id, at, allowed);
    case AdminCancel(id) => AdminCancelLeavesOne(s.store, s.cache, id, at, allowed);
    case Perform(id, step) =>
      if step.Transitioning? || step.Requeuing? || step.Extending? {
        StepAddsNoStale(s.store, s.cache, id, step, at, allowed);
      }
    case ClaimReady(indexed, picks, more, lease) =>
      RoundsAddNoStale(s.store, s.cache, indexed, picks, more, lease, at, allowed);
  }

  lemma AdministeredOneMore(calls: seq<Timed>, n: nat)
    requires |calls| == n + 1
    ensures Administered(calls) == Administered(calls[..n]) + if calls[n].call.AdminCancel? then {calls[n].call.id} else {}
  {}

  /** After every run the entries of the index are the current projections of waiting jobs, but for jobs that an
      administrator cancelled. */
  lemma {:induction false} OnlyAdministratorsLeaveStale(calls: seq<Timed>, limits: Limits)
    requires Orderly(calls, limits)
    ensures var s := Run(calls, limits); StaleOnly(s.store.jobs, s.cache.index, Administered(calls))
  {
    if calls != [] {
      var n := |calls| - 1;
      OrderlyPrefix(calls, limits, n);
      OnlyAdministratorsLeaveStale(calls[..n], limits);
      CacheIsComplete(calls[..n], limits, calls[n].at);
      assert calls[..|calls|] == calls && ProperCall(Run(calls[..n], limits), calls[n].call, calls[n].at);
      ServeAddsNoStale(Run(calls[..n], limits), calls[n].call, calls[n].at, limits, Administered(calls[..n]));
      AdministeredOneMore(calls, n);
    }
  }

  lemma {:induction false} ExactAt(jobs: map<string, AIJob>, index: Index, id: string)
    requires IdsFit(jobs) && Complete(jobs, index, {}) && StaleOnly(jobs, index, {})
    ensures id in index <==> id in jobs && Waits(jobs[id])
    ensures id in index ==> Some(index[id]) == NewEntry(jobs[id])
  {
    if id in index {
      assert Present(index, jobs[id]) && EntryFits(jobs, id, index[id]);
    }
  }

  ghost predicate Projects(jobs: map<string, AIJob>, index: Index, id: string) {
    && (id in index <==> id in jobs && jobs[id].status in {Queued, Dispatching})
    && (id in index ==> Some(index[id]) == NewEntry(jobs[id]))
  }

  /** So without administrators the index is exactly the projection of the waiting jobs. */
  lemma {:induction false} IndexIsExact(calls: seq<Timed>, limits: Limits, now: Time)
    requires Orderly(calls, limits) && (calls != [] ==> calls[|calls| - 1].at <= now) && Administered(calls) == {}
    ensures forall id :: Projects(Run(calls, limits).store.jobs, Run(calls, limits).cache.index, id)
  {
    var s := Run(calls, limits);
    OnlyAdministratorsLeaveStale(calls, limits);
    CacheIsComplete(calls, limits, now);
    forall id ensures Projects(s.store.jobs, s.cache.index, id) { ExactAt(s.store.jobs, s.cache.index, id); }
  }

  // A claim drops the stale entries that it looks at.

  ghost predicate Gone(jobs: map<string, AIJob>, index: Index, claimed: set<string>, e: Entry) {
    e.jobID in index && index[e.jobID] == e ==> e.jobID !in claimed && e.jobID in jobs && NewEntry(jobs[e.jobID]) == Some(e)
  }

  lemma {:induction false} GoneAfterPut(
    jobs: map<string, AIJob>, index: Index, next: Index, claimed: set<string>, e: Entry)
    requires IdsFit(jobs) && e.jobID in jobs && e.jobID !in claimed && PutsAtMost(index, next, jobs[e.jobID])
    requires e.jobID in index ==> index[e.jobID] != e
    ensures Gone(jobs, next, claimed, e)
  {}

  /** An entry at the version of its job is current. */
  lemma {:induction false} CurrentIsKept(jobs: map<string, AIJob>, index: Index, claimed: set<string>, e: Entry)
    requires Complete(jobs, index, claimed) && e.jobID in jobs && e.jobID !in claimed
    requires e.statusVersion == jobs[e.jobID].statusVersion
    ensures Gone(jobs, index, claimed, e)
  {
    if e.jobID in index { assert EntryFits(jobs, e.jobID, index[e.jobID]); }
  }

  lemma {:induction false} RejoinedIsGone(jobs: map<string, AIJob>, removed: Cache, e: Entry, claimed: set<string>)
    requires Usable(jobs) && e.jobID in jobs && e.jobID !in claimed && (e.jobID in removed.index ==> removed.index[e.jobID] != e)
    ensures Gone(jobs, RegisterState(removed, jobs[e.jobID]).index, claimed, e)
  {
    var job := jobs[e.jobID];
    assert Projectable(job) && Fit(job) && job.id == e.jobID;
    RegisteringPuts(removed, job);
    GoneAfterPut(jobs, removed.index, RegisterState(removed, job).index, claimed, e);
  }

  lemma ReconcileOneCases(cache: Cache, store: Store, e: Entry, claimed: set<string>, now: Time, removed: Cache)
    requires removed == RemoveReference(cache, e.jobID, e.statusVersion)
    ensures var next := ReconcileOne(cache, store, e, claimed, now);
            if e.jobID in claimed || e.jobID !in store.jobs then next == removed
            else
              || next == RegisterState(removed, store.jobs[e.jobID])
              || (next == cache && e.statusVersion == store.jobs[e.jobID].statusVersion)
  {}

  lemma {:induction false} ReconcileOneDrops(
    cache: Cache, store: Store, e: Entry, claimed: set<string>, now: Time, next: Cache)
    requires Usable(store.jobs) && Complete(store.jobs, cache.index, claimed) && Trim(e.jobID) != ""
    requires e.statusVersion > 0
    requires next == ReconcileOne(cache, store, e, claimed, now)
    ensures Gone(store.jobs, next.index, claimed, e)
  {
    var removed := RemoveReference(cache, e.jobID, e.statusVersion);
    RemovalIsExact(cache, e.jobID, e.statusVersion);
    ReconcileOneCases(cache, store, e, claimed, now, removed);
    if e.jobID in claimed || e.jobID !in store.jobs {
      assert e.jobID in removed.index ==> removed.index[e.jobID] != e;
    } else if e.statusVersion == store.jobs[e.jobID].statusVersion && next == cache {
      CurrentIsKept(store.jobs, cache.index, claimed, e);
    } else {
      RejoinedIsGone(store.jobs, removed, e, claimed);
    }
  }

  lemma {:induction false} RemovingKeepsGone(
    jobs: map<string, AIJob>, cache: Cache, id: string, version: int, claimed: set<string>, e: Entry)
    requires Gone(jobs, cache.index, claimed, e)
    ensures Gone(jobs, RemoveReference(cache, id, version).index, claimed, e)
  {}

  lemma {:induction false} PuttingKeepsGone(
    jobs: map<string, AIJob>, index: Index, next: Index, claimed: set<string>, id: string, e: Entry)
    requires IdsFit(jobs) && id in jobs && id !in claimed && PutsAtMost(index, next, jobs[id])
    requires Gone(jobs, index, claimed, e)
    ensures Gone(jobs, next, claimed, e)
  {}

  lemma {:induction false} RejoiningKeepsGone(
    jobs: map<string, AIJob>, removed: Cache, id: string, claimed: set<string>, e: Entry)
    requires Usable(jobs) && id in jobs && id !in claimed && Gone(jobs, removed.index, claimed, e)
    ensures Gone(jobs, RegisterState(removed, jobs[id]).index, claimed, e)
  {
    var job := jobs[id];
    assert Projectable(job) && Fit(job) && job.id == id;
    RegisteringPuts(removed, job);
    PuttingKeepsGone(jobs, removed.index, RegisterState(removed, job).index, claimed, id, e);
  }

  lemma {:induction false} ReconcileOneKeepsGone(
    cache: Cache, store: Store, candidate: Entry, claimed: set<string>, now: Time, e: Entry)
    requires Usable(store.jobs) && Gone(store.jobs, cache.index, claimed, e)
    ensures Gone(store.jobs, ReconcileOne(cache, store, candidate, claimed, now).index, claimed, e)
  {
    var id := candidate.jobID;
    var removed := RemoveReference(cache, id, candidate.statusVersion);
    RemovingKeepsGone(store.jobs, cache, id, candidate.statusVersion, claimed, e);
    ReconcileOneCases(cache, store, candidate, claimed, now, removed);
    if id !in claimed && id in store.jobs { RejoiningKeepsGone(store.jobs, removed, id, claimed, e); }
  }

  /** Of the entries that were looked at only current ones of unclaimed jobs are left. */
  lemma {:induction false} ReconcileDropsStale(
    cache: Cache, store: Store, candidates: seq<Entry>, claimed: set<string>, now: Time, e: Entry)
    requires Usable(store.jobs) && Complete(store.jobs, cache.index, claimed) && cache.refused == 0
    requires e in candidates && Trim(e.jobID) != "" && e.statusVersion > 0
    ensures Gone(store.jobs, Reconcile(cache, store, candidates, claimed, now).index, claimed, e)
  {
    var n := |candidates| - 1;
    ReconcileKeeps(cache, store, candidates[..n], claimed, now);
    var before := Reconcile(cache, store, candidates[..n], claimed, now);
    if e in candidates[..n] {
      ReconcileDropsStale(cache, store, candidates[..n], claimed, now, e);
      ReconcileOneKeepsGone(before, store, candidates[n], claimed, now, e);
    } else {
      ReconcileOneDrops(before, store, candidates[n], claimed, now, Reconcile(cache, store, candidates, claimed, now));
    }
  }

  lemma PutsElsewhere(index: Index, next: Index, job: AIJob, id: string)
    requires PutsAtMost(index, next, job) && job.id != id
    ensures id in next <==> id in index
    ensures id in index ==> next[id] == index[id]
  {}

  lemma {:induction false} RegisterAllLeavesOthers(jobs: map<string, AIJob>, cache: Cache, list: seq<AIJob>, id: string)
    requires Usable(jobs) && AllStored(jobs, list) && id !in IDs(list)
    ensures id in RegisterAll(cache, list).index <==> id in cache.index
    ensures id in cache.index ==> RegisterAll(cache, list).index[id] == cache.index[id]
  {
    if list != [] {
      var n := |list| - 1;
      IDsOneMore(list, n);
      RegisterAllLeavesOthers(jobs, cache, list[..n], id);
      assert Projectable(list[n]) && Fit(list[n]) by { assert jobs[list[n].id] == list[n]; }
      RegisteringPuts(RegisterAll(cache, list[..n]), list[n]);
      PutsElsewhere(RegisterAll(cache, list[..n]).index, RegisterAll(cache, list).index, list[n], id);
    }
  }

  /** An entry that was looked at is still there only if it is the current projection of its job. */
  ghost predicate Current(jobs: map<string, AIJob>, index: Index, e: Entry) {
    e.jobID in index && index[e.jobID] == e ==> e.jobID in jobs && NewEntry(jobs[e.jobID]) == Some(e)
  }

  ghost predicate NoneStale(jobs: map<string, AIJob>, index: Index, indexed: seq<Entry>) {
    forall e :: e in indexed && Trim(e.jobID) != "" && e.statusVersion > 0 ==> Current(jobs, index, e)
  }

  lemma {:induction false} RegisteredIsCurrent(
    jobs: map<string, AIJob>, cache: Cache, pending: set<string>, list: seq<AIJob>, e: Entry)
    requires Usable(jobs) && Complete(jobs, cache.index, pending) && cache.refused == 0 && AllStored(jobs, list)
    requires AllWait(list)
    requires e.jobID in IDs(list)
    ensures Current(jobs, RegisterAll(cache, list).index, e)
  {
    RegisteredAreCurrent(jobs, cache, pending, list, cache.index.Keys + {e.jobID});
    var i: nat :| i < |list| && list[i].id == e.jobID;
    assert jobs[list[i].id].id == list[i].id;
  }

  /** The cache work of a claim leaves no stale entry of those that it looked at. */
  lemma {:induction false} ClaimDropsStale(
    before: Store, first: Batch, second: Batch, cache: Cache, indexed: seq<Entry>, now: Time, e: Entry)
    requires Synced(before.jobs, cache) && Usable(first.store.jobs) && Usable(second.store.jobs)
    requires MovedOn(before.jobs, first.store.jobs, IDs(first.claimed))
    requires MovedOn(first.store.jobs, second.store.jobs, IDs(second.claimed))
    requires AllStored(second.store.jobs, first.claimed + second.claimed) && AllWait(first.claimed + second.claimed)
    requires e in indexed && Trim(e.jobID) != "" && e.statusVersion > 0
    ensures Current(second.store.jobs, ClaimCache(cache, first, indexed, second, now).index, e)
  {
    var one, two, all := IDs(first.claimed), IDs(second.claimed), first.claimed + second.claimed;
    LaterVersionsPend(before.jobs, first.store.jobs, cache.index, {}, one);
    assert {} + one == one;
    ReconcileKeeps(cache, first.store, indexed, one, now);
    ReconcileDropsStale(cache, first.store, indexed, one, now, e);
    var reconciled := Reconcile(cache, first.store, indexed, one, now);
    LaterVersionsPend(first.store.jobs, second.store.jobs, reconciled.index, one, two);
    IDsConcat(first.claimed, second.claimed);
    if e.jobID in IDs(all) {
      RegisteredIsCurrent(second.store.jobs, reconciled, one + two, all, e);
    } else {
      RegisterAllLeavesOthers(second.store.jobs, reconciled, all, e.jobID);
    }
  }

  lemma {:induction false} RoundsDropStale(
    store: Store, cache: Cache, indexed: seq<Entry>, picks: seq<AIJob>, more: seq<AIJob>, lease: Lease, now: Time)
    requires Ground(store, now) && Synced(store.jobs, cache) && TwoRounds(store, picks, more, lease, now)
    ensures var first := ClaimFirst(store, picks, lease, now);
            var second := ClaimAll(first.store, more, lease, now);
            NoneStale(second.store.jobs, ClaimCache(cache, first, indexed, second, now).index, indexed)
  {
    var first := ClaimFirst(store, picks, lease, now);
    BatchIsUsable(store, picks, lease, now);
    BatchIsUsable(first.store, more, lease, now);
    var second := ClaimAll(first.store, more, lease, now);
    SecondRoundIsNew(store, first, picks, more, lease, now);
    ClaimedStay(store, first, second, picks, more, lease);
    ClaimedWait(store, first, second, picks, more, lease);
    forall e | e in indexed && Trim(e.jobID) != "" && e.statusVersion > 0
      ensures Current(second.store.jobs, ClaimCache(cache, first, indexed, second, now).index, e)
    {
      ClaimDropsStale(store, first, second, cache, indexed, now, e);
    }
  }

  /** The entries that a claim looks at: the first of the index's candidates. */
  ghost predicate LooksAt(index: Index, at: Time, limit: nat, indexed: seq<Entry>) {
    exists groups :: Grouping(index, ReadyBy(at), groups) && InOrder(groups) && IsRoundRobin(EntriesOf(groups), limit, indexed)
  }

  // Repeated requests repair the index.

  /** Repeating a request with the same fingerprint registers its job again, should the first registration have been lost;
      another fingerprint changes nothing. */
  lemma {:induction false} RepeatsRegisterAgain(jobs: map<string, AIJob>, cache: Cache, id: string, job: AIJob)
    requires Usable(jobs) && id in jobs && Complete(jobs, cache.index, {id})
    ensures var next := FollowCreate(cache, job, Unchanged(jobs[id]));
            if job.submission.requestFingerprint == jobs[id].submission.requestFingerprint
            then Complete(jobs, next.index, {}) && next.refused == cache.refused
            else next == cache
  {
    RegisterCompletes(jobs, cache, {id}, id);
    assert {id} - {id} == {};
  }

  /** Cancelling a cancelled job again removes the entry of the version that was cancelled, should it have been left. */
  lemma {:induction false} RepeatedCancelsRemove(cache: Cache, job: AIJob)
    requires Projectable(job) && job.statusVersion > 1 && !Waits(job)
    ensures var next := FollowCancel(cache, Unchanged(job)).index;
            && (job.id in next ==> next[job.id].statusVersion != job.statusVersion - 1)
            && next.Keys >= cache.index.Keys - {job.id}
  {
    RemovalIsExact(cache, job.id, job.statusVersion - 1);
  }
}
