/** What each operation of the store answers for every status of the job, what it leaves behind, and which ends can be
    reached. */
module StoreAnswers {
  import opened Text
  import opened JobModel
  import opened FairQueue
  import opened JobStore
  import opened JobHistory
  import opened JobRuns
  import opened Admission
  import opened StoreRuns
  import opened StoreTheorems

  // The life of a job, status by status.

  /** The statuses that lead to a status; work that may exist comes back only with the proof that it does not. */
  predicate LeadsTo(from: Status, to: Status, reason: string) {
    match to
    case Accepted => false
    case Queued => from == Dispatching || (from == Unknown && Trim(reason) == "proven_not_created")
    case Dispatching => from == Queued
    case Running => from in {Dispatching, Unknown}
    case Canceling => from in {Dispatching, Running}
    case Unknown => from in {Dispatching, Running}
    case Succeeded => from in {Running, Status.Canceling, Unknown}
    case Failed => from in {Running, Status.Canceling, Unknown}
    case Canceled => from in {Queued, Status.Canceling}
    case Expired => from in {Succeeded, Failed, Canceled}
  }

  /** The type under which a change to a status is published. */
  predicate PublishedAs(eventType: EventType, to: Status) {
    match eventType
    case EventQueued => to == Queued
    case EventScheduled => to == Dispatching
    case EventLeaseReassigned => to == Dispatching
    case EventRunning => to == Running
    case EventCancelling => to == Status.Canceling
    case EventCancelled => to == Canceled
    case EventCompleted => to == Succeeded
    case EventFailed => to == Failed
    case EventUnknown => to == Unknown
    case EventExpired => to == Expired
  }

  /** Who asked for what never changes. */
  predicate SameRequest(a: AIJob, b: AIJob) {
    && a.id == b.id && a.operationID == b.operationID && a.scope == b.scope && a.submission == b.submission
    && a.priority == b.priority && a.createdAt == b.createdAt
  }

  predicate Unleased(job: AIJob) {
    job.queueLeaseUntil.None? && job.queueLeaseToken == "" && job.queueWorkerID == ""
  }

  /** The job in its next status: one version on, without a lease, with an error only when it failed or is unknown, and with
      its completion time from the moment on when it ended. */
  predicate MovedTo(old_: AIJob, job: AIJob, to: Status, reason: string, at: Time) {
    && SameRequest(old_, job) && Unleased(job) && job.status == to
    && job.statusVersion == old_.statusVersion + 1 && job.updatedAt == at
    && job.errorType == (if to == Failed || to == Unknown then Trim(reason) else "")
    && job.completedAt == (if to in {Succeeded, Failed, Canceled} then Some(at) else old_.completedAt)
    && (to != Queued ==> job.nextEligibleAt == old_.nextEligibleAt)
  }

  /** The operation after its job moved: running from the dispatch on, and finished with the job. */
  predicate OperationFollows(old_: Operation, operation: Operation, to: Status, errorType: string, at: Time) {
    if to in {Succeeded, Failed, Canceled} then
      operation == Operation(
        if to == Succeeded then OpSucceeded else if to == Canceled then OpCanceled else OpFailed, errorType, at, Some(at))
    else if to in {Dispatching, Running, Status.Canceling, Unknown} && old_.status == OpAccepted then
      operation == old_.(status := OpRunning, updatedAt := at)
    else operation == old_
  }

  /** A change is stored with one event and one message, nothing else of the store changes, and the operation follows. */
  ghost predicate Stored(store: Store, next: Store, old_: AIJob, job: AIJob, reason: string, at: Time) {
    var key := EventKey(job.id, job.statusVersion);
    && key !in store.events && key in next.events && job.operationID in store.operations && job.operationID in next.operations
    && next.jobs == store.jobs[job.id := job]
    && next.events == store.events[key := next.events[key]]
    && next.events[key].fromStatus == old_.status && next.events[key].toStatus == job.status
    && next.events[key].reason == Trim(reason) && next.events[key].createdAt == at
    && PublishedAs(next.events[key].eventType, job.status)
    && next.outbox == store.outbox[key := OutboxRecord(next.events[key].eventType, job.operationID, job.status, at)]
    && next.operations == store.operations[job.operationID := next.operations[job.operationID]]
    && OperationFollows(store.operations[job.operationID], next.operations[job.operationID], job.status, job.errorType, at)
  }

  predicate HasCredentials(job: AIJob, version: int, fence: int) {
    version == job.statusVersion && (job.fenceToken > 0 ==> fence == job.fenceToken)
  }

  lemma {:induction false} FinishedOperations(store: Store, id: string)
    requires Valid(store) && id in store.jobs
    ensures store.jobs[id].operationID in store.operations
    ensures store.jobs[id].status !in {Succeeded, Failed, Canceled, Expired} ==>
              store.operations[store.jobs[id].operationID].status in {OpAccepted, OpRunning}
    ensures store.jobs[id].status == Expired ==> store.operations[store.jobs[id].operationID].status !in {OpAccepted, OpRunning}
  {
    OperationReflectsJob(store, id);
  }

  lemma {:induction false} RecordedIsStored(store: Store, old_: AIJob, job: AIJob, event: Event, reason: string, at: Time)
    requires Recorded(store, job, event).Some? && old_.id == job.id
    requires event.fromStatus == old_.status && event.toStatus == job.status && event.reason == Trim(reason)
    requires event.createdAt == at
    requires PublishedAs(event.eventType, job.status)
    requires job.status in {Succeeded, Failed, Canceled} ==> store.operations[job.operationID].status in {OpAccepted, OpRunning}
    ensures Stored(store, Recorded(store, job, event).value, old_, job, reason, at)
  {}

  // Transitions.

  lemma {:induction false} TransitionDecided(job: AIJob, version: int, fence: int, to: Status, reason: string, at: Time)
    requires Fit(job) && HasCredentials(job, version, fence) && to != Dispatching
    ensures var decision := DecideTransition(job, version, fence, to, reason, at);
            if !LeadsTo(job.status, to, reason) then decision == Refuse
            else
              && decision.Record? && MovedTo(job, decision.job, to, reason, at) && decision.job.fenceToken == job.fenceToken
              && (to == Queued ==> decision.job.nextEligibleAt == at)
              && decision.event.fromStatus == job.status && decision.event.toStatus == to
              && decision.event.reason == Trim(reason) && decision.event.createdAt == at && PublishedAs(decision.event.eventType, to)
  {}

  /** A decision to record is carried out in a valid store. */
  lemma {:induction false} RecordIsStored(store: Store, id: string, step: Step, reason: string, at: Time)
    requires Valid(store) && CreatedBy(store, at) && ProperAt(store, id, step, at) && id in store.jobs
    requires Decide(store.jobs[id], step, at).Record?
    requires var event := Decide(store.jobs[id], step, at).event;
             && event.reason == Trim(reason) && event.createdAt == at
             && PublishedAs(event.eventType, Decide(store.jobs[id], step, at).job.status)
    requires store.jobs[id].status !in {Succeeded, Failed, Canceled} || Decide(store.jobs[id], step, at).job.status == Expired
    ensures var reply := Act(store, id, step, at);
            && reply.outcome == Changed(Decide(store.jobs[id], step, at).job)
            && Stored(store, reply.store, store.jobs[id], reply.outcome.job, reason, at)
  {
    var decision := Decide(store.jobs[id], step, at);
    ActIsAllowed(store, id, step, at);
    OnlyTheTableRefuses(store, id, step, at);
    FinishedOperations(store, id);
    RecordedIsStored(store, store.jobs[id], decision.job, decision.event, reason, at);
  }

  /** For every status of the job, which transitions its current holder gets, and what each leaves behind. */
  lemma {:induction false} TransitionsAreAnswered(
    store: Store, id: string, version: int, fence: int, to: Status, reason: string, at: Time)
    requires Valid(store) && CreatedBy(store, at) && id in store.jobs && HasCredentials(store.jobs[id], version, fence)
    requires to != Dispatching
    ensures var old_, reply := store.jobs[id], Act(store, id, Transitioning(version, fence, to, reason), at);
            if !LeadsTo(old_.status, to, reason) then reply == Reply(store, Failure)
            else
              && reply.outcome.Changed? && MovedTo(old_, reply.outcome.job, to, reason, at)
              && reply.outcome.job.fenceToken == old_.fenceToken && (to == Queued ==> reply.outcome.job.nextEligibleAt == at)
              && Stored(store, reply.store, old_, reply.outcome.job, reason, at)
  {
    StoredFits(store, id);
    TransitionDecided(store.jobs[id], version, fence, to, reason, at);
    if LeadsTo(store.jobs[id].status, to, reason) {
      RecordIsStored(store, id, Transitioning(version, fence, to, reason), reason, at);
    }
  }

  /** A requeue is a transition to queued that waits until it is eligible. */
  lemma {:induction false} RequeuesAreAnswered(
    store: Store, id: string, version: int, fence: int, reason: string, eligibleAt: Time, at: Time)
    requires Valid(store) && CreatedBy(store, at) && id in store.jobs && HasCredentials(store.jobs[id], version, fence)
    ensures var old_, reply := store.jobs[id], Act(store, id, Requeuing(version, fence, reason, eligibleAt), at);
            if !LeadsTo(old_.status, Queued, reason) then reply == Reply(store, Failure)
            else
              && reply.outcome.Changed? && MovedTo(old_, reply.outcome.job, Queued, reason, at)
              && reply.outcome.job.fenceToken == old_.fenceToken && reply.outcome.job.nextEligibleAt == Max(eligibleAt, at)
              && Stored(store, reply.store, old_, reply.outcome.job, reason, at)
  {
    StoredFits(store, id);
    TransitionDecided(store.jobs[id], version, fence, Queued, reason, at);
    if LeadsTo(store.jobs[id].status, Queued, reason) {
      RecordIsStored(store, id, Requeuing(version, fence, reason, eligibleAt), reason, at);
    }
  }

  lemma {:induction false} CancellationDecided(job: AIJob, reason: string, at: Time)
    requires Fit(job) && job.status in {Queued, Dispatching, Running}
    ensures var decision, to := DecideCancel(job, reason, at), if job.status == Queued then Canceled else Status.Canceling;
            && decision.Record? && MovedTo(job, decision.job, to, reason, at)
            && decision.job.fenceToken == job.fenceToken + (if job.status == Dispatching then 1 else 0)
            && decision.event.reason == Trim(reason) && decision.event.createdAt == at && PublishedAs(decision.event.eventType, to)
  {
    TransitionDecided(job, job.statusVersion, job.fenceToken, if job.status == Queued then Canceled else Status.Canceling, reason, at);
  }

  /** What a cancellation leaves behind: a waiting job is canceled, any other that still goes on is canceling, and the holder
      of a dispatch loses its fence. */
  lemma {:induction false} CancellationsAreStored(store: Store, id: string, reason: string, at: Time)
    requires Valid(store) && CreatedBy(store, at) && id in store.jobs
    requires store.jobs[id].status in {Queued, Dispatching, Running}
    ensures var old_, reply := store.jobs[id], Act(store, id, Step.Canceling(reason), at);
            && reply.outcome.Changed?
            && MovedTo(old_, reply.outcome.job, if old_.status == Queued then Canceled else Status.Canceling, reason, at)
            && reply.outcome.job.fenceToken == old_.fenceToken + (if old_.status == Dispatching then 1 else 0)
            && Stored(store, reply.store, old_, reply.outcome.job, reason, at)
  {
    StoredFits(store, id);
    CancellationDecided(store.jobs[id], reason, at);
    RecordIsStored(store, id, Step.Canceling(reason), reason, at);
  }

  predicate LeasedTo(job: AIJob, lease: Lease) {
    job.queueLeaseUntil == Some(lease.until) && job.queueLeaseToken == lease.token && job.queueWorkerID == lease.workerID
  }

  /** What a claim leaves behind: a dispatch under the new lease and the next fence, recorded as scheduled when the job was
      queued and as reassigned when an earlier lease ran out. */
  lemma {:induction false} ClaimsAreStored(store: Store, id: string, lease: Lease, at: Time)
    requires Valid(store) && CreatedBy(store, at) && ProperAt(store, id, Claiming(lease), at) && id in store.jobs
    ensures var old_, reply := store.jobs[id], Act(store, id, Claiming(lease), at);
            && reply.outcome.Changed? && SameRequest(old_, reply.outcome.job) && LeasedTo(reply.outcome.job, lease)
            && reply.outcome.job.status == Dispatching && reply.outcome.job.statusVersion == old_.statusVersion + 1
            && reply.outcome.job.fenceToken == old_.fenceToken + 1 && reply.outcome.job.updatedAt == at
            && reply.outcome.job.nextEligibleAt == old_.nextEligibleAt && reply.outcome.job.completedAt.None?
            && Stored(store, reply.store, old_, reply.outcome.job, if old_.status == Dispatching then "lease_expired" else "", at)
            && reply.store.events[EventKey(id, old_.statusVersion + 1)].eventType
               == (if old_.status == Dispatching then EventLeaseReassigned else EventScheduled)
  {
    StoredFits(store, id);
    ReadyJobsAreClaimed(store, id, lease, at);
    RecordIsStored(store, id, Claiming(lease), if store.jobs[id].status == Dispatching then "lease_expired" else "", at);
  }

  /** A renewal changes the end of the lease to the later one, and nothing else but the time of the last change. */
  lemma {:induction false} RenewalsAreStored(
    store: Store, id: string, version: int, fence: int, token: string, until: Time, at: Time)
    requires Valid(store) && id in store.jobs && until > at && LiveHolder(store.jobs[id], version, fence, token, at)
    ensures var old_, reply := store.jobs[id], Act(store, id, Extending(version, fence, token, until), at);
            && reply.outcome == Changed(old_.(
                 queueLeaseUntil := Some(Max(until, old_.queueLeaseUntil.value)),
                 updatedAt := if until > old_.queueLeaseUntil.value then Max(at, old_.updatedAt) else old_.updatedAt))
            && reply.store == store.(jobs := store.jobs[id := reply.outcome.job])
  {
    StoredFits(store, id);
  }

  // Creation.

  /** The same client asks for the same operation under the same key. */
  predicate Repeats(a: AIJob, b: AIJob) {
    && b.submission.idempotencyKey != "" && a.submission.idempotencyKey == b.submission.idempotencyKey && a.scope == b.scope
    && a.submission.credentialID == b.submission.credentialID && a.submission.operation == b.submission.operation
  }

  predicate WaitsUnder(job: AIJob, scope: Scope, columns: nat) {
    job.status in {Queued, Dispatching} && columns <= 7 && Columns(job.scope)[..columns] == Columns(scope)[..columns]
  }

  /** How many jobs of the same first columns wait or are being dispatched. */
  ghost function WaitingUnder(jobs: map<string, AIJob>, scope: Scope, columns: nat): set<string> {
    set id | id in jobs && WaitsUnder(jobs[id], scope, columns)
  }

  ghost predicate AtLimit(jobs: map<string, AIJob>, scope: Scope, columns: nat, limit: int) {
    limit > 0 && |WaitingUnder(jobs, scope, columns)| >= limit
  }

  ghost predicate SeparableJobs(jobs: map<string, AIJob>) {
    forall id :: id in jobs ==> Separable(jobs[id].scope)
  }

  lemma {:induction false} WaitingByColumns(
    jobs: map<string, AIJob>, scope: Scope, same: (Scope, Scope) -> bool, columns: nat)
    requires columns <= 7
    requires forall id :: id in jobs ==>
               (same(jobs[id].scope, scope) <==> Columns(jobs[id].scope)[..columns] == Columns(scope)[..columns])
    ensures Waiting(jobs, scope, same) == WaitingUnder(jobs, scope, columns)
  {
    forall id ensures id in Waiting(jobs, scope, same) <==> id in WaitingUnder(jobs, scope, columns) {
      if id in jobs { assert same(jobs[id].scope, scope) <==> Columns(jobs[id].scope)[..columns] == Columns(scope)[..columns]; }
    }
  }

  lemma {:induction false} SameByColumns(a: Scope, b: Scope)
    requires Separable(a) && Separable(b)
    ensures SameProfile(a, b) <==> Columns(a)[..1] == Columns(b)[..1]
    ensures SameTenant(a, b) <==> Columns(a)[..2] == Columns(b)[..2]
    ensures SamePrincipal(a, b) <==> Columns(a)[..7] == Columns(b)[..7]
  {
    KeysNameColumns(a, b);
    assert Columns(a)[..7] == Columns(a) && Columns(b)[..7] == Columns(b);
    assert Columns(a)[..1] == [Trim(a.profileScope)] && Columns(b)[..1] == [Trim(b.profileScope)];
    assert Columns(a)[..2] == [Trim(a.profileScope), Trim(a.tenantID)] && Columns(b)[..2] == [Trim(b.profileScope), Trim(b.tenantID)];
    assert Columns(a) == Columns(b) ==> Columns(a)[0] == Columns(b)[0] && Columns(a)[1] == Columns(b)[1];
  }

  ghost predicate Full(jobs: map<string, AIJob>, scope: Scope, limits: Limits) {
    AtLimit(jobs, scope, 1, limits.profile) || AtLimit(jobs, scope, 2, limits.tenant) || AtLimit(jobs, scope, 7, limits.principal)
  }

  lemma {:induction false} ExceededMeansFull(jobs: map<string, AIJob>, scope: Scope, limits: Limits)
    requires SeparableJobs(jobs) && Separable(scope)
    ensures Exceeded(limits, CountsFor(jobs, scope)) <==> Full(jobs, scope, limits)
  {
    forall id | id in jobs
      ensures SameProfile(jobs[id].scope, scope) <==> Columns(jobs[id].scope)[..1] == Columns(scope)[..1]
      ensures SameTenant(jobs[id].scope, scope) <==> Columns(jobs[id].scope)[..2] == Columns(scope)[..2]
      ensures SamePrincipal(jobs[id].scope, scope) <==> Columns(jobs[id].scope)[..7] == Columns(scope)[..7]
    {
      SameByColumns(jobs[id].scope, scope);
    }
    WaitingByColumns(jobs, scope, SameProfile, 1);
    WaitingByColumns(jobs, scope, SameTenant, 2);
    WaitingByColumns(jobs, scope, SamePrincipal, 7);
  }

  ghost predicate RepeatsOne(jobs: map<string, AIJob>, job: AIJob) {
    exists id :: id in jobs && Repeats(jobs[id], job)
  }

  /** A repeated request gets the job it created before; a new one is refused when its profile, tenant or principal has as many
      jobs waiting as its limit allows, and otherwise stored: queued in its first version, ready at once. */
  lemma {:induction false} CreationsAreAnswered(
    store: Store, id: string, operationID: string, scope: Scope, submission: Submission, at: Time, limits: Limits)
    requires Valid(store) && at > 0 && SeparableJobs(store.jobs) && Separable(scope)
    requires limits.profile >= 0 && limits.tenant >= 0 && limits.principal >= 0
    requires id !in store.jobs && operationID !in store.operations
    ensures var job := NewJob(id, operationID, scope, submission, at);
            var reply := Create(store, job, limits);
            && job.id == id && job.operationID == operationID && job.scope == scope && job.submission == submission
            && (reply.outcome.Unchanged? <==> RepeatsOne(store.jobs, job))
            && (reply.outcome.Unchanged? ==> reply.store == store && Repeats(reply.outcome.job, job))
            && (reply.outcome.Full? <==> !RepeatsOne(store.jobs, job) && Full(store.jobs, scope, limits))
            && (reply.outcome.Full? ==> reply.store == store)
            && (reply.outcome.Changed? <==> !RepeatsOne(store.jobs, job) && !Full(store.jobs, scope, limits))
            && (reply.outcome.Changed? ==> reply.outcome.job == job && Born(store, reply.store, job, at))
  {
    var job := NewJob(id, operationID, scope, submission, at);
    forall other ensures Replays(store.jobs, job, other) <==> other in store.jobs && Repeats(store.jobs[other], job) {}
    ExceededMeansFull(store.jobs, scope, limits);
    NewIDsAreFree(store, id);
  }

  lemma {:induction false} NewIDsAreFree(store: Store, id: string)
    requires Valid(store) && id !in store.jobs
    ensures EventKey(id, 1) !in store.events && EventKey(id, 1) !in store.outbox
  {
    assert EventKey(id, 1) in store.events ==> Known(store, EventKey(id, 1));
  }

  ghost predicate Born(store: Store, next: Store, job: AIJob, at: Time) {
    && job.status == Queued && job.statusVersion == 1 && job.fenceToken == 0 && Unleased(job) && job.priority == 0
    && job.errorType == "" && job.completedAt.None? && job.createdAt == job.updatedAt == at
    && (forall now :: ReadyForClaim(job, now) <==> now >= at)
    && next.jobs == store.jobs[job.id := job]
    && next.events == store.events[EventKey(job.id, 1) := Event(EventQueued, Accepted, Queued, Trim(""), at)]
    && next.outbox == store.outbox[EventKey(job.id, 1) := OutboxRecord(EventQueued, job.operationID, Queued, at)]
    && next.operations == store.operations[job.operationID := Operation(OpAccepted, "", at, None)]
  }

  /** Only an owner with the same columns, up to the credential's source, may cancel. */
  lemma OwnersAreNamed(scope: Scope, owner: Scope)
    ensures OwnerMatches(scope, owner) <==> scope == owner.(credentialSource := scope.credentialSource)
  {}

  /** A job waits exactly when it can be claimed at some moment. */
  lemma {:induction false} WaitingMeansClaimable(job: AIJob)
    requires Fit(job)
    ensures Waits(job) <==> exists now :: ReadyForClaim(job, now)
  {
    if job.status == Queued {
      assert ReadyForClaim(job, job.nextEligibleAt);
    } else if job.status == Dispatching {
      assert ReadyForClaim(job, job.queueLeaseUntil.value);
    }
  }

  // Every end can be reached.

  ghost predicate Reaches(turns: seq<Turn>, limits: Limits, id: string, status: Status, at: Time) {
    && Orderly(turns, limits) && turns != [] && turns[|turns| - 1].at == at
    && id in Play(turns, limits).jobs && Play(turns, limits).jobs[id].status == status
  }

  lemma {:induction false} OneMoreInOrder(turns: seq<Turn>, more: seq<Turn>, at: Time)
    requires |more| == |turns| + 1 && more[..|turns|] == turns && more[|turns|].at == at
    requires forall i, j :: 0 <= i < j < |turns| ==> turns[i].at <= turns[j].at
    requires turns != [] ==> turns[|turns| - 1].at <= at
    ensures forall i, j :: 0 <= i < j < |more| ==> more[i].at <= more[j].at
  {
    forall i, j | 0 <= i < j < |more| ensures more[i].at <= more[j].at {
      var last := |turns| - 1;
      assert more[i] == more[..|turns|][i] == turns[i];
      if j <= last { assert more[j] == more[..|turns|][j] == turns[j]; } else { assert i < last ==> turns[i].at <= turns[last].at; }
    }
  }

  lemma {:induction false} OneMoreTurn(turns: seq<Turn>, more: seq<Turn>, limits: Limits, turn: Turn)
    requires Orderly(turns, limits) && ProperTurn(Play(turns, limits), turn) && more == turns + [turn]
    requires turns != [] ==> turns[|turns| - 1].at <= turn.at
    ensures Orderly(more, limits) && Play(more, limits) == Answer(Play(turns, limits), turn, limits).store
  {
    assert more[..|turns|] == turns;
    OneMoreInOrder(turns, more, turn.at);
    forall i | 0 <= i < |more| ensures ProperTurn(Play(more[..i], limits), more[i]) {
      assert more[..i] == turns[..i];
      if i == |turns| { assert turns[..i] == turns; } else { assert ProperTurn(Play(turns[..i], limits), turns[i]); }
    }
  }

  function Moving(job: AIJob, to: Status, at: Time): Turn {
    Turn.Turn(Acting(job.id, Transitioning(job.statusVersion, job.fenceToken, to, "")), at)
  }

  lemma {:induction false} MovingWorks(store: Store, id: string, to: Status, limits: Limits, at: Time)
    requires Valid(store) && CreatedBy(store, at) && id in store.jobs && at > 0
    requires LeadsTo(store.jobs[id].status, to, "") && to != Dispatching
    ensures var next := Answer(store, Moving(store.jobs[id], to, at), limits).store;
            ProperTurn(store, Moving(store.jobs[id], to, at)) && id in next.jobs && next.jobs[id].status == to
  {
    StoredFits(store, id);
    var job := store.jobs[id];
    TransitionsAreAnswered(store, id, job.statusVersion, job.fenceToken, to, "", at);
  }

  /** From any reachable status the job goes on to any status that it leads to. */
  lemma {:induction false} GoesOn(
    turns: seq<Turn>, limits: Limits, id: string, from: Status, to: Status, at: Time) returns (more: seq<Turn>)
    requires Reaches(turns, limits, id, from, at) && LeadsTo(from, to, "") && to != Dispatching
    ensures Reaches(more, limits, id, to, at)
  {
    var store := Play(turns, limits);
    EveryRunIsValid(turns, limits, at);
    assert ProperTurn(Play(turns[..|turns| - 1], limits), turns[|turns| - 1]);
    MovingWorks(store, id, to, limits, at);
    more := turns + [Moving(store.jobs[id], to, at)];
    OneMoreTurn(turns, more, limits, Moving(store.jobs[id], to, at));
  }

  /** A request is stored and claimed. */
  lemma {:induction false} DispatchIsReached(
    id: string, operationID: string, scope: Scope, submission: Submission, lease: Lease, limits: Limits, at: Time)
    returns (turns: seq<Turn>)
    requires at > 0 && lease.until > at && Trim(lease.token) != "" && limits == Limits(0, 0, 0)
    ensures Reaches(turns, limits, id, Dispatching, at)
  {
    var empty := Store(map[], map[], map[], map[]);
    var first := Turn.Turn(Creating(id, operationID, scope, submission), at);
    assert Play([], limits) == empty;
    assert [] + [first] == [first];
    OneMoreTurn([], [first], limits, first);
    var stored := Play([first], limits);
    assert id in stored.jobs && stored.jobs[id] == NewJob(id, operationID, scope, submission, at);
    EveryRunIsValid([first], limits, at);
    var second := Turn.Turn(Acting(id, Claiming(lease)), at);
    turns := [first] + [second];
    OneMoreTurn([first], turns, limits, second);
    ReadyJobsAreClaimed(stored, id, lease, at);
  }

  /** From the empty store every end can be reached: success, failure, cancellation, and expiry after it. */
  lemma {:induction false} EveryEndIsReached(
    id: string, operationID: string, scope: Scope, submission: Submission, lease: Lease, limits: Limits, at: Time)
    returns (succeeded: seq<Turn>, failed: seq<Turn>, canceled: seq<Turn>, expired: seq<Turn>)
    requires at > 0 && lease.until > at && Trim(lease.token) != "" && limits == Limits(0, 0, 0)
    ensures Reaches(succeeded, limits, id, Succeeded, at) && Reaches(failed, limits, id, Failed, at)
    ensures Reaches(canceled, limits, id, Canceled, at) && Reaches(expired, limits, id, Expired, at)
  {
    var dispatched := DispatchIsReached(id, operationID, scope, submission, lease, limits, at);
    var running := GoesOn(dispatched, limits, id, Dispatching, Running, at);
    succeeded := GoesOn(running, limits, id, Running, Succeeded, at);
    failed := GoesOn(running, limits, id, Running, Failed, at);
    var canceling := GoesOn(running, limits, id, Running, Status.Canceling, at);
    canceled := GoesOn(canceling, limits, id, Status.Canceling, Canceled, at);
    expired := GoesOn(succeeded, limits, id, Succeeded, Expired, at);
  }
}
