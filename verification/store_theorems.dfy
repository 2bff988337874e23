/** What the store promises over whole runs. */
module StoreTheorems {
  import opened Text
  import opened JobModel
  import opened FairQueue
  import opened JobStore
  import opened JobHistory
  import opened JobRuns
  import opened Admission
  import opened StoreRuns

  // The operation reflects the job.

  /** Where an operation stands when its job has a status. */
  predicate Reflects(operation: OperationStatus, status: Status) {
    match status
    case Accepted => operation == OpAccepted
    case Queued => operation in {OpAccepted, OpRunning}
    case Dispatching => operation == OpRunning
    case Running => operation == OpRunning
    case Canceling => operation == OpRunning
    case Unknown => operation == OpRunning
    case Succeeded => operation == OpSucceeded
    case Failed => operation == OpFailed
    case Canceled => operation == OpCanceled
    case Expired => operation in {OpSucceeded, OpFailed, OpCanceled}
  }

  lemma ReflectsNext(operation: OperationStatus, event: Event)
    requires Legal(event) && Reflects(operation, event.fromStatus)
    ensures Reflects(OperationNext(operation, event.toStatus), event.toStatus)
  {}

  lemma {:induction false} HistoryReflects(store: Store, job: AIJob, v: nat)
    requires HistoryFits(store, job, Legal) && v <= job.statusVersion
    ensures Reflects(OperationAfter(store.events, job.id, v), StatusAfter(store.events, job.id, v))
  {
    if v > 0 {
      HistoryReflects(store, job, v - 1);
      assert EventFits(store, job.id, v, Legal);
      ReflectsNext(OperationAfter(store.events, job.id, v - 1), store.events[EventKey(job.id, v)]);
    }
  }

  /** In a valid store an operation is finished exactly when its job is, with the same result. */
  lemma {:induction false} OperationReflectsJob(store: Store, id: string)
    requires Valid(store) && id in store.jobs
    ensures var job := store.jobs[id];
            job.operationID in store.operations && Reflects(store.operations[job.operationID].status, job.status)
  {
    StoredFits(store, id);
    var job := store.jobs[id];
    assert HistoryFits(store, job, Legal);
    HistoryReflects(store, job, job.statusVersion);
  }

  // Nothing but the transition table refuses.

  /** In a valid store a step fails only because the table refuses it: no duplicate guard fires and no operation is
      missing. */
  lemma {:induction false} OnlyTheTableRefuses(store: Store, id: string, step: Step, at: Time)
    requires Valid(store) && CreatedBy(store, at) && ProperAt(store, id, step, at) && id in store.jobs
    ensures Act(store, id, step, at).outcome.Failure? <==> Decide(store.jobs[id], step, at).Refuse?
  {
    ActIsAllowed(store, id, step, at);
    CarryOutSucceeds(store, store.jobs[id], Decide(store.jobs[id], step, at), Legal, Fit);
  }

  /** A queued job is always claimed, and an expired dispatch always reassigned. */
  lemma {:induction false} ReadyJobsAreClaimed(store: Store, id: string, lease: Lease, at: Time)
    requires Valid(store) && CreatedBy(store, at) && ProperAt(store, id, Claiming(lease), at) && id in store.jobs
    ensures var reply := Act(store, id, Claiming(lease), at);
            && reply.outcome.Changed? && id in reply.store.jobs && reply.store.jobs[id] == reply.outcome.job
            && reply.outcome.job.status == Dispatching && reply.outcome.job.queueLeaseUntil == Some(lease.until)
            && reply.outcome.job.queueLeaseToken == lease.token && reply.outcome.job.queueWorkerID == lease.workerID
            && reply.outcome.job.fenceToken == store.jobs[id].fenceToken + 1
            && reply.outcome.job.statusVersion == store.jobs[id].statusVersion + 1
  {
    ActIsAllowed(store, id, Claiming(lease), at);
    OnlyTheTableRefuses(store, id, Claiming(lease), at);
    CarryOutTouchesOneJob(store, store.jobs[id], Decide(store.jobs[id], Claiming(lease), at), at);
  }

  // Stale holders stay out.

  predicate Presents(step: Step, version: int) {
    match step
    case Transitioning(v, _, _, _) => v == version
    case Requeuing(v, _, _, _) => v == version
    case Extending(v, _, _, _) => v == version
    case _ => false
  }

  predicate Consumes(step: Step, version: int) {
    Presents(step, version) && !step.Extending?
  }

  /** A step with another version, another fence, or another lease token leaves the store as it is. */
  lemma {:induction false} SupersededStepsDoNothing(store: Store, id: string, step: Step, version: int, at: Time)
    requires id in store.jobs && Presents(step, version)
    requires || store.jobs[id].statusVersion != version
             || (store.jobs[id].fenceToken > 0 && step.fence != store.jobs[id].fenceToken)
             || (step.Extending? && step.token != store.jobs[id].queueLeaseToken)
    ensures Act(store, id, step, at) == Reply(store, Unchanged(store.jobs[id]))
  {}

  lemma {:induction false} ConsumingAdvances(store: Store, id: string, step: Step, version: int, at: Time)
    requires Consumes(step, version) && Act(store, id, step, at).outcome.Changed?
    requires id in store.jobs && store.jobs[id].id == id
    ensures id in Act(store, id, step, at).store.jobs && Act(store, id, step, at).store.jobs[id].statusVersion == version + 1
  {}

  lemma {:induction false} PlayOneMore(turns: seq<Turn>, limits: Limits, i: nat)
    requires i < |turns|
    ensures Play(turns[..i + 1], limits) == Answer(Play(turns[..i], limits), turns[i], limits).store
  {
    assert turns[..i + 1][..i] == turns[..i];
  }

  lemma {:induction false} LaterVersions(turns: seq<Turn>, limits: Limits, i: nat, j: nat, id: string)
    requires Orderly(turns, limits) && i < j < |turns| && id in Play(turns[..i + 1], limits).jobs
    ensures id in Play(turns[..j], limits).jobs
    ensures Evolved(Play(turns[..i + 1], limits).jobs[id], Play(turns[..j], limits).jobs[id], turns[i].at)
  {
    OrderlyPrefix(turns, limits, j);
    assert turns[..j][..i + 1] == turns[..i + 1];
    RunsEvolve(turns[..j], limits, i + 1, turns[i].at);
  }

  /** Each version of a job is consumed by at most one transition or requeue. */
  lemma {:induction false} VersionsAreConsumedOnce(
    turns: seq<Turn>, limits: Limits, i: nat, j: nat, id: string, version: int)
    requires Orderly(turns, limits) && i < j < |turns|
    requires turns[i].move.Acting? && turns[i].move.id == id && Consumes(turns[i].move.step, version)
    requires turns[j].move.Acting? && turns[j].move.id == id && Presents(turns[j].move.step, version)
    requires Answer(Play(turns[..i], limits), turns[i], limits).outcome.Changed?
    ensures !Answer(Play(turns[..j], limits), turns[j], limits).outcome.Changed?
    ensures Play(turns[..j + 1], limits) == Play(turns[..j], limits)
  {
    OrderlyPrefix(turns, limits, i);
    EveryRunIsValid(turns[..i], limits, turns[i].at);
    StoredFits(Play(turns[..i], limits), id);
    ConsumingAdvances(Play(turns[..i], limits), id, turns[i].move.step, version, turns[i].at);
    PlayOneMore(turns, limits, i);
    LaterVersions(turns, limits, i, j, id);
    SupersededStepsDoNothing(Play(turns[..j], limits), id, turns[j].move.step, version, turns[j].at);
    PlayOneMore(turns, limits, j);
  }

  /** Over a run the lease token, the fence and the status are a function of the job and its version. */
  lemma {:induction false} VersionFixesLease(turns: seq<Turn>, limits: Limits, n: nat, id: string)
    requires Orderly(turns, limits) && n <= |turns|
    requires id in Play(turns[..n], limits).jobs && id in Play(turns, limits).jobs
    requires Play(turns[..n], limits).jobs[id].statusVersion == Play(turns, limits).jobs[id].statusVersion
    ensures var early, late := Play(turns[..n], limits).jobs[id], Play(turns, limits).jobs[id];
            early.status == late.status && early.fenceToken == late.fenceToken && early.queueLeaseToken == late.queueLeaseToken
  {
    RunsEvolve(turns, limits, n, if n < |turns| then turns[n].at else 0);
  }

  // What a change means for later claims.

  /** A requeued job can be claimed from its eligibility on, and never before the requeue itself. */
  lemma {:induction false} RequeuedJobsWait(
    store: Store, id: string, version: int, fence: int, reason: string, eligibleAt: Time, at: Time, now: Time)
    requires id in store.jobs && Act(store, id, Requeuing(version, fence, reason, eligibleAt), at).outcome.Changed?
    ensures var job := Act(store, id, Requeuing(version, fence, reason, eligibleAt), at).outcome.job;
            job.status == Queued && (ReadyForClaim(job, now) <==> now >= at && now >= eligibleAt)
  {}

  predicate LiveHolder(job: AIJob, version: int, fence: int, token: string, at: Time) {
    && job.status == Dispatching && job.statusVersion == version && job.fenceToken == fence
    && job.queueLeaseToken == token && job.queueLeaseUntil.Some? && at < job.queueLeaseUntil.value
  }

  /** Exactly the live holder of a dispatch renews it, and a renewal never shortens the time others are kept out. */
  lemma {:induction false} HoldersRenew(
    store: Store, id: string, version: int, fence: int, token: string, leaseUntil: Time, at: Time, now: Time)
    requires Valid(store) && id in store.jobs && leaseUntil > at
    ensures var outcome := Act(store, id, Extending(version, fence, token, leaseUntil), at).outcome;
            && (outcome.Changed? <==> LiveHolder(store.jobs[id], version, fence, token, at))
            && (outcome.Changed? ==>
                  (ReadyForClaim(outcome.job, now) <==> ReadyForClaim(store.jobs[id], now) && now >= leaseUntil))
  {
    StoredFits(store, id);
  }

  /** Every cancellation is answered: finished and unknown jobs cannot be cancelled, a waiting job ends at once, any other
      winds down, and the holder of a dispatch loses its fence. */
  lemma {:induction false} CancellationsAreAnswered(store: Store, id: string, reason: string, at: Time)
    requires Valid(store) && CreatedBy(store, at) && id in store.jobs
    ensures var job, outcome := store.jobs[id], Act(store, id, Step.Canceling(reason), at).outcome;
            && (outcome.CannotCancel? <==> job.status in {Succeeded, Failed, Unknown, Expired})
            && (outcome.Unchanged? <==> job.status in {Status.Canceling, Canceled})
            && (outcome.Changed? <==> job.status in {Queued, Dispatching, Running})
            && (outcome.Changed? ==>
                  && outcome.job.status == (if job.status == Queued then Canceled else Status.Canceling)
                  && outcome.job.fenceToken == job.fenceToken + if job.status == Dispatching then 1 else 0)
  {
    ActIsAllowed(store, id, Step.Canceling(reason), at);
    OnlyTheTableRefuses(store, id, Step.Canceling(reason), at);
  }

  // Why no caller may ask for the dispatching status.

  /** A transition to dispatching sets no lease, so the job can never be claimed again. */
  lemma {:induction false} DispatchingWithoutLeaseStrands(job: AIJob, fence: int, at: Time, now: Time)
    requires job.status == Queued && job.queueLeaseUntil.None? && (job.fenceToken > 0 ==> fence == job.fenceToken)
    ensures var decision := DecideTransition(job, job.statusVersion, fence, Dispatching, "", at);
            decision.Record? && decision.job.status == Dispatching && !ReadyForClaim(decision.job, now)
  {}

  // The admission bound.

  ghost predicate Revives(store: Store, key: EventKey, scope: Scope, same: (Scope, Scope) -> bool) {
    && key in store.events && store.events[key].fromStatus == Unknown && store.events[key].toStatus == Queued
    && key.jobID in store.jobs && same(store.jobs[key.jobID].scope, scope)
  }

  /** The unknown-to-queued transitions of one owner's jobs. */
  ghost function Revived(store: Store, scope: Scope, same: (Scope, Scope) -> bool): set<EventKey> {
    set key | key in store.events && Revives(store, key, scope, same)
  }

  ghost predicate Equivalence(same: (Scope, Scope) -> bool) {
    && (forall a, b :: same(a, b) ==> same(b, a))
    && (forall a, b, c :: same(a, b) && same(b, c) ==> same(a, c))
  }

  lemma {:induction false} ScopesAreEquivalences()
    ensures Equivalence(SameProfile) && Equivalence(SameTenant) && Equivalence(SamePrincipal)
  {}

  /** The three counts are nested. */
  lemma {:induction false} CountsNest(jobs: map<string, AIJob>, scope: Scope)
    ensures var counts := CountsFor(jobs, scope); counts.principal <= counts.tenant <= counts.profile
  {
    Smaller(Waiting(jobs, scope, SamePrincipal), Waiting(jobs, scope, SameTenant));
    Smaller(Waiting(jobs, scope, SameTenant), Waiting(jobs, scope, SameProfile));
  }

  lemma {:induction false} Smaller<T>(a: set<T>, b: set<T>)
    requires a <= b
    ensures |a| <= |b|
  {
    if a != {} {
      var x :| x in a;
      Smaller(a - {x}, b - {x});
    }
  }

  ghost predicate Bounded(store: Store, scope: Scope, same: (Scope, Scope) -> bool, limit: int) {
    |Waiting(store.jobs, scope, same)| <= limit + |Revived(store, scope, same)|
  }

  lemma {:induction false} WaitingAgrees(jobs: map<string, AIJob>, a: Scope, b: Scope, same: (Scope, Scope) -> bool)
    requires Equivalence(same) && same(a, b)
    ensures Waiting(jobs, a, same) == Waiting(jobs, b, same)
  {}

  ghost predicate BelowLimit(store: Store, scope: Scope, same: (Scope, Scope) -> bool, limit: int) {
    |Waiting(store.jobs, scope, same)| < limit
  }

  lemma {:induction false} InsertKeepsRevived(store: Store, job: AIJob, scope: Scope, same: (Scope, Scope) -> bool)
    requires Insert(store, job).outcome.Changed?
    ensures Revived(store, scope, same) <= Revived(Insert(store, job).store, scope, same)
  {}

  lemma {:induction false} InsertAddsOne(store: Store, job: AIJob, scope: Scope, same: (Scope, Scope) -> bool)
    requires Insert(store, job).outcome.Changed?
    ensures var next := Insert(store, job).store;
            && Waiting(next.jobs, scope, same) <= Waiting(store.jobs, scope, same) + {job.id}
            && (!same(job.scope, scope) ==> Waiting(next.jobs, scope, same) <= Waiting(store.jobs, scope, same))
  {}

  lemma {:induction false} InsertStaysBounded(
    store: Store, job: AIJob, scope: Scope, same: (Scope, Scope) -> bool, limit: int)
    requires Equivalence(same) && Bounded(store, scope, same, limit)
    requires Insert(store, job).outcome.Changed? && BelowLimit(store, job.scope, same, limit)
    ensures Bounded(Insert(store, job).store, scope, same, limit)
  {
    var next := Insert(store, job).store;
    InsertAddsOne(store, job, scope, same);
    InsertKeepsRevived(store, job, scope, same);
    Smaller(Revived(store, scope, same), Revived(next, scope, same));
    if same(job.scope, scope) {
      WaitingAgrees(store.jobs, job.scope, scope, same);
      Smaller(Waiting(next.jobs, scope, same), Waiting(store.jobs, scope, same) + {job.id});
    } else {
      Smaller(Waiting(next.jobs, scope, same), Waiting(store.jobs, scope, same));
    }
  }

  ghost predicate StoredAs(store: Store, job: AIJob) {
    job.id in store.jobs && store.jobs[job.id] == job
  }

  lemma {:induction false} ReplacedWaiting(
    jobs: map<string, AIJob>, to: AIJob, scope: Scope, same: (Scope, Scope) -> bool)
    requires to.id in jobs && jobs[to.id].scope == to.scope
    ensures Waiting(jobs[to.id := to], scope, same) <= Waiting(jobs, scope, same) + {to.id}
    ensures !Waits(to) || Waits(jobs[to.id]) || !same(to.scope, scope) ==>
              Waiting(jobs[to.id := to], scope, same) <= Waiting(jobs, scope, same)
  {}

  lemma {:induction false} RecordedRevived(
    store: Store, to: AIJob, event: Event, scope: Scope, same: (Scope, Scope) -> bool)
    requires to.id in store.jobs && store.jobs[to.id].scope == to.scope && Recorded(store, to, event).Some?
    ensures var next, key := Recorded(store, to, event).value, EventKey(to.id, to.statusVersion);
            && Revived(store, scope, same) <= Revived(next, scope, same) && key !in Revived(store, scope, same)
            && (event.fromStatus == Unknown && event.toStatus == Queued && same(to.scope, scope) ==>
                  Revived(store, scope, same) + {key} <= Revived(next, scope, same))
  {}

  lemma {:induction false} RecordStaysBounded(
    store: Store, to: AIJob, event: Event, scope: Scope, same: (Scope, Scope) -> bool, limit: int)
    requires to.id in store.jobs && store.jobs[to.id].scope == to.scope && Recorded(store, to, event).Some?
    requires Waits(to) && !Waits(store.jobs[to.id]) ==> event.fromStatus == Unknown && event.toStatus == Queued
    requires Bounded(store, scope, same, limit)
    ensures Bounded(Recorded(store, to, event).value, scope, same, limit)
  {
    var next, key := Recorded(store, to, event).value, EventKey(to.id, to.statusVersion);
    var waiting, revived := Waiting(store.jobs, scope, same), Revived(store, scope, same);
    ReplacedWaiting(store.jobs, to, scope, same);
    RecordedRevived(store, to, event, scope, same);
    if Waits(to) && !Waits(store.jobs[to.id]) && same(to.scope, scope) {
      Smaller(Waiting(next.jobs, scope, same), waiting + {to.id});
      Smaller(revived + {key}, Revived(next, scope, same));
    } else {
      Smaller(Waiting(next.jobs, scope, same), waiting);
      Smaller(revived, Revived(next, scope, same));
    }
  }

  lemma OnlyRevivalAddsWaiting(job: AIJob, to: AIJob, event: Event)
    requires Fit(job) && Legal(event) && event.fromStatus == job.status && event.toStatus == to.status
    requires Waits(to) && !Waits(job)
    ensures event.fromStatus == Unknown && event.toStatus == Queued
  {}

  lemma {:induction false} RenewStaysBounded(
    store: Store, to: AIJob, scope: Scope, same: (Scope, Scope) -> bool, limit: int)
    requires to.id in store.jobs && store.jobs[to.id].scope == to.scope && store.jobs[to.id].status == to.status
    requires Bounded(store, scope, same, limit)
    ensures Bounded(store.(jobs := store.jobs[to.id := to]), scope, same, limit)
  {
    var next := store.(jobs := store.jobs[to.id := to]);
    ReplacedWaiting(store.jobs, to, scope, same);
    Smaller(Waiting(next.jobs, scope, same), Waiting(store.jobs, scope, same));
    assert Revived(next, scope, same) == Revived(store, scope, same);
  }

  lemma {:induction false} DecisionStaysBounded(
    store: Store, job: AIJob, decision: Decision, at: Time, scope: Scope, same: (Scope, Scope) -> bool, limit: int)
    requires StoredAs(store, job) && Fit(job) && Sound(job, decision, at) && Bounded(store, scope, same, limit)
    ensures Bounded(CarryOut(store, job, decision).store, scope, same, limit)
  {
    match decision
    case Record(to, event) =>
      if Waits(to) && !Waits(job) { OnlyRevivalAddsWaiting(job, to, event); }
      if Recorded(store, to, event).Some? { RecordStaysBounded(store, to, event, scope, same, limit); }
    case Renew(to) => RenewStaysBounded(store, to, scope, same, limit);
    case _ =>
  }

  datatype Level = ProfileLevel | TenantLevel | PrincipalLevel

  function SameAt(level: Level): (Scope, Scope) -> bool {
    match level
    case ProfileLevel => SameProfile
    case TenantLevel => SameTenant
    case PrincipalLevel => SamePrincipal
  }

  function LimitAt(level: Level, limits: Limits): int {
    match level
    case ProfileLevel => limits.profile
    case TenantLevel => limits.tenant
    case PrincipalLevel => limits.principal
  }

  lemma {:induction false} CreateInserts(store: Store, job: AIJob, limits: Limits)
    requires Create(store, job, limits).store != store
    ensures Insert(store, job).outcome.Changed? && Create(store, job, limits) == Insert(store, job)
    ensures !Exceeded(limits, CountsFor(store.jobs, job.scope))
  {}

  lemma {:induction false} CreateChecksLimit(store: Store, job: AIJob, limits: Limits, level: Level)
    requires LimitAt(level, limits) > 0 && !Exceeded(limits, CountsFor(store.jobs, job.scope))
    ensures BelowLimit(store, job.scope, SameAt(level), LimitAt(level, limits))
  {}

  /** At every level the jobs of one owner that wait or are being dispatched never outnumber a positive limit by more
      than the owner's unknown-to-queued transitions. */
  lemma {:induction false} AdmissionIsBounded(turns: seq<Turn>, limits: Limits, level: Level, scope: Scope)
    requires Orderly(turns, limits) && LimitAt(level, limits) > 0
    ensures Bounded(Play(turns, limits), scope, SameAt(level), LimitAt(level, limits))
  {
    if turns != [] {
      var n := |turns| - 1;
      OrderlyPrefix(turns, limits, n);
      AdmissionIsBounded(turns[..n], limits, level, scope);
      EveryRunIsValid(turns[..n], limits, turns[n].at);
      assert ProperTurn(Play(turns[..n], limits), turns[n]);
      TurnStaysBounded(Play(turns[..n], limits), turns[n], limits, level, scope);
    }
  }

  lemma {:induction false} TurnStaysBounded(store: Store, turn: Turn, limits: Limits, level: Level, scope: Scope)
    requires Valid(store) && CreatedBy(store, turn.at) && ProperTurn(store, turn) && LimitAt(level, limits) > 0
    requires Bounded(store, scope, SameAt(level), LimitAt(level, limits))
    ensures Bounded(Answer(store, turn, limits).store, scope, SameAt(level), LimitAt(level, limits))
  {
    if turn.move.Creating? {
      if Answer(store, turn, limits).store != store {
        ScopesAreEquivalences();
        CreateInserts(store, JobOf(turn), limits);
        CreateChecksLimit(store, JobOf(turn), limits, level);
        InsertStaysBounded(store, JobOf(turn), scope, SameAt(level), LimitAt(level, limits));
      }
    } else if turn.move.id in store.jobs {
      var job, decision := store.jobs[turn.move.id], Decide(store.jobs[turn.move.id], turn.move.step, turn.at);
      ActIsAllowed(store, turn.move.id, turn.move.step, turn.at);
      StoredFits(store, turn.move.id);
      DecisionStaysBounded(store, job, decision, turn.at, scope, SameAt(level), LimitAt(level, limits));
    }
  }

  lemma {:induction false} TurnKeepsOnceEach(store: Store, turn: Turn, limits: Limits)
    requires Valid(store) && CreatedBy(store, turn.at) && ProperTurn(store, turn) && OnceEach(store.jobs)
    ensures OnceEach(Answer(store, turn, limits).store.jobs)
  {
    if turn.move.Creating? {
      CreateKeepsOnceEach(store, JobOf(turn), limits);
    } else if turn.move.id in store.jobs {
      var job := store.jobs[turn.move.id];
      ActIsAllowed(store, turn.move.id, turn.move.step, turn.at);
      CarryOutTouchesOneJob(store, job, Decide(job, turn.move.step, turn.at), turn.at);
      ChangeKeepsOnceEach(store.jobs, job.id, Answer(store, turn, limits).store.jobs[job.id]);
    }
  }

  /** However often a client repeats a request, over a whole run it is stored at most once. */
  lemma {:induction false} RequestsAreStoredOnce(turns: seq<Turn>, limits: Limits)
    requires Orderly(turns, limits)
    ensures OnceEach(Play(turns, limits).jobs)
  {
    if turns != [] {
      var n := |turns| - 1;
      OrderlyPrefix(turns, limits, n);
      RequestsAreStoredOnce(turns[..n], limits);
      EveryRunIsValid(turns[..n], limits, turns[n].at);
      assert ProperTurn(Play(turns[..n], limits), turns[n]);
      TurnKeepsOnceEach(Play(turns[..n], limits), turns[n], limits);
    }
  }
}
