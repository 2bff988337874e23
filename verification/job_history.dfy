/** The event log is the history of each job. What an event or a job may look like is a parameter here. */
module JobHistory {
  import opened JobModel
  import opened JobStore

  type Legality = Event -> bool
  type Fitness = AIJob -> bool

  /** The status that the events up to version `v` lead to. */
  ghost function StatusAfter(events: map<EventKey, Event>, id: string, v: int): Status {
    if v >= 1 && EventKey(id, v) in events then events[EventKey(id, v)].toStatus else Accepted
  }

  function OperationNext(operation: OperationStatus, status: Status): OperationStatus {
    if status in {Dispatching, Running, Canceling, Unknown} then
      if operation == OpAccepted then OpRunning else operation
    else if status in {Succeeded, Failed, Canceled} && operation in {OpAccepted, OpRunning} then MapStatus(status)
    else operation
  }

  lemma OperationFollowsJob(operation: Operation, status: Status, errorType: string, at: Time)
    ensures WithJobStatus(operation, status, errorType, at).status == OperationNext(operation.status, status)
  {}

  /** The operation status that the events up to version `v` lead to. */
  ghost function OperationAfter(events: map<EventKey, Event>, id: string, v: int): OperationStatus
    decreases if v > 0 then v else 0
  {
    if v <= 0 then OpAccepted else OperationNext(OperationAfter(events, id, v - 1), StatusAfter(events, id, v))
  }

  ghost predicate EventFits(store: Store, id: string, v: int, legal: Legality) {
    var key := EventKey(id, v);
    && key in store.events && key in store.outbox
    && legal(store.events[key]) && store.events[key].fromStatus == StatusAfter(store.events, id, v - 1)
    && store.outbox[key].eventType == store.events[key].eventType
    && store.outbox[key].status == store.events[key].toStatus
  }

  /** Versions 1 to the current one each have one event and one outbox record, chained from accepted to the current
      status, and the operation is where they lead. */
  ghost predicate HistoryFits(store: Store, job: AIJob, legal: Legality) {
    && job.statusVersion >= 1
    && (forall v :: 1 <= v <= job.statusVersion ==> EventFits(store, job.id, v, legal))
    && StatusAfter(store.events, job.id, job.statusVersion) == job.status
    && job.operationID in store.operations
    && store.operations[job.operationID].status == OperationAfter(store.events, job.id, job.statusVersion)
  }

  ghost predicate RunsFor(store: Store, operationID: string, id: string) {
    id in store.jobs && store.jobs[id].operationID == operationID
  }

  ghost predicate Known(store: Store, key: EventKey) {
    key.jobID in store.jobs && 1 <= key.version <= store.jobs[key.jobID].statusVersion
  }

  ghost predicate JobFits(id: string, job: AIJob, fits: Fitness) {
    job.id == id && fits(job)
  }

  ghost predicate Consistent(store: Store, legal: Legality, fits: Fitness) {
    && (forall id :: id in store.jobs ==> JobFits(id, store.jobs[id], fits))
    && (forall id :: id in store.jobs ==> HistoryFits(store, store.jobs[id], legal))
    && (forall key :: key in store.events ==> Known(store, key))
    && store.outbox.Keys == store.events.Keys
    && (forall operationID, a, b :: RunsFor(store, operationID, a) && RunsFor(store, operationID, b) ==> a == b)
  }

  // Histories carry over to stores that keep a job's records.

  ghost predicate Carried(store: Store, next: Store, key: EventKey) {
    && (key in store.events ==> key in next.events && next.events[key] == store.events[key])
    && (key in store.outbox ==> key in next.outbox && next.outbox[key] == store.outbox[key])
  }

  lemma {:induction false} OperationAfterFrame(
    events: map<EventKey, Event>, events': map<EventKey, Event>, id: string, v: int)
    requires forall u :: 1 <= u <= v ==> StatusAfter(events', id, u) == StatusAfter(events, id, u)
    ensures OperationAfter(events', id, v) == OperationAfter(events, id, v)
    decreases if v > 0 then v else 0
  {
    if v > 0 { OperationAfterFrame(events, events', id, v - 1); }
  }

  lemma {:induction false} EventCarried(store: Store, next: Store, id: string, v: int, legal: Legality)
    requires EventFits(store, id, v, legal) && Carried(store, next, EventKey(id, v))
    requires v > 1 ==> EventKey(id, v - 1) in store.events && Carried(store, next, EventKey(id, v - 1))
    ensures StatusAfter(next.events, id, v) == StatusAfter(store.events, id, v)
    ensures v >= 1 ==> EventFits(next, id, v, legal)
  {}

  lemma {:induction false} EventsCarried(store: Store, next: Store, job: AIJob, legal: Legality)
    requires HistoryFits(store, job, legal)
    requires forall v :: 1 <= v <= job.statusVersion ==> Carried(store, next, EventKey(job.id, v))
    ensures forall v :: 1 <= v <= job.statusVersion ==> EventFits(next, job.id, v, legal)
    ensures forall v :: 1 <= v <= job.statusVersion ==> StatusAfter(next.events, job.id, v) == StatusAfter(store.events, job.id, v)
    ensures OperationAfter(next.events, job.id, job.statusVersion) == OperationAfter(store.events, job.id, job.statusVersion)
  {
    forall v | 1 <= v <= job.statusVersion
      ensures EventFits(next, job.id, v, legal) && StatusAfter(next.events, job.id, v) == StatusAfter(store.events, job.id, v)
    {
      assert EventFits(store, job.id, v, legal) && Carried(store, next, EventKey(job.id, v));
      if v > 1 { assert EventFits(store, job.id, v - 1, legal) && Carried(store, next, EventKey(job.id, v - 1)); }
      EventCarried(store, next, job.id, v, legal);
    }
    OperationAfterFrame(store.events, next.events, job.id, job.statusVersion);
  }

  lemma {:induction false} HistoryCarried(store: Store, next: Store, job: AIJob, legal: Legality)
    requires HistoryFits(store, job, legal)
    requires forall v :: 1 <= v <= job.statusVersion ==> Carried(store, next, EventKey(job.id, v))
    requires job.operationID in next.operations
    requires next.operations[job.operationID].status == store.operations[job.operationID].status
    ensures HistoryFits(next, job, legal)
  {
    EventsCarried(store, next, job, legal);
  }

  // Recording one change.

  /** The next version of a stored job, with a legal event. */
  ghost predicate Follows(store: Store, from: AIJob, job: AIJob, event: Event, legal: Legality, fits: Fitness) {
    && from.id in store.jobs && store.jobs[from.id] == from
    && job.id == from.id && job.operationID == from.operationID && job.statusVersion == from.statusVersion + 1
    && fits(job) && legal(event) && event.fromStatus == from.status && event.toStatus == job.status
  }

  ghost predicate Recordable(store: Store, from: AIJob, job: AIJob, event: Event, legal: Legality, fits: Fitness) {
    Consistent(store, legal, fits) && Follows(store, from, job, event, legal, fits)
  }

  ghost function Next(store: Store, job: AIJob, event: Event): Store {
    match Recorded(store, job, event)
    case None => store
    case Some(next) => next
  }

  lemma {:induction false} GuardsNeverFire(
    store: Store, from: AIJob, job: AIJob, event: Event, legal: Legality, fits: Fitness)
    requires Recordable(store, from, job, event, legal, fits)
    ensures Recorded(store, job, event).Some?
  {}

  lemma {:induction false} OthersKeepHistory(
    store: Store, from: AIJob, job: AIJob, event: Event, legal: Legality, fits: Fitness, id: string)
    requires Recordable(store, from, job, event, legal, fits) && id in store.jobs && id != from.id
    ensures HistoryFits(Next(store, job, event), store.jobs[id], legal)
  {
    GuardsNeverFire(store, from, job, event, legal, fits);
    var other := store.jobs[id];
    assert JobFits(id, other, fits) && HistoryFits(store, other, legal);
    if other.operationID == job.operationID {
      assert RunsFor(store, job.operationID, id) && RunsFor(store, job.operationID, from.id);
      assert false;
    }
    HistoryCarried(store, Next(store, job, event), other, legal);
  }

  lemma {:induction false} OwnHistoryGrows(
    store: Store, from: AIJob, job: AIJob, event: Event, legal: Legality, fits: Fitness)
    requires Recordable(store, from, job, event, legal, fits)
    ensures HistoryFits(Next(store, job, event), job, legal)
  {
    var next := Next(store, job, event);
    GuardsNeverFire(store, from, job, event, legal, fits);
    assert JobFits(from.id, from, fits) && HistoryFits(store, from, legal);
    EventsCarried(store, next, from, legal);
    OperationFollowsJob(store.operations[job.operationID], job.status, job.errorType, event.createdAt);
    assert EventFits(next, job.id, job.statusVersion, legal);
  }

  lemma {:induction false} RecordedKeepsConsistent(
    store: Store, from: AIJob, job: AIJob, event: Event, legal: Legality, fits: Fitness)
    requires Recordable(store, from, job, event, legal, fits)
    ensures Consistent(Next(store, job, event), legal, fits)
  {
    var next := Next(store, job, event);
    GuardsNeverFire(store, from, job, event, legal, fits);
    assert JobFits(from.id, from, fits);
    forall id | id in next.jobs ensures JobFits(id, next.jobs[id], fits) {
      if id != job.id { assert JobFits(id, store.jobs[id], fits); }
    }
    forall id | id in next.jobs ensures HistoryFits(next, next.jobs[id], legal) {
      if id == job.id {
        OwnHistoryGrows(store, from, job, event, legal, fits);
      } else {
        OthersKeepHistory(store, from, job, event, legal, fits, id);
      }
    }
    forall key | key in next.events ensures Known(next, key) {
      if key != EventKey(job.id, job.statusVersion) { assert Known(store, key); }
    }
    forall operationID, a, b | RunsFor(next, operationID, a) && RunsFor(next, operationID, b) ensures a == b {
      assert RunsFor(store, operationID, a) && RunsFor(store, operationID, b);
    }
  }

  // Writing a new job.

  ghost predicate Fresh(store: Store, job: AIJob, legal: Legality, fits: Fitness) {
    && Consistent(store, legal, fits) && job.id !in store.jobs && job.operationID !in store.operations
    && job.statusVersion == 1 && job.status == Queued && fits(job)
    && legal(NewEvent(Accepted, job, EventQueued, "", job.createdAt))
  }

  lemma {:induction false} InsertGuardsNeverFire(store: Store, job: AIJob, legal: Legality, fits: Fitness)
    requires Fresh(store, job, legal, fits)
    ensures Insert(store, job).outcome == Changed(job)
  {}

  lemma {:induction false} InsertKeepsOthers(store: Store, job: AIJob, legal: Legality, fits: Fitness, id: string)
    requires Fresh(store, job, legal, fits) && id in store.jobs
    ensures HistoryFits(Insert(store, job).store, store.jobs[id], legal)
  {
    InsertGuardsNeverFire(store, job, legal, fits);
    assert JobFits(id, store.jobs[id], fits) && HistoryFits(store, store.jobs[id], legal);
    HistoryCarried(store, Insert(store, job).store, store.jobs[id], legal);
  }

  lemma {:induction false} InsertStartsHistory(store: Store, job: AIJob, legal: Legality, fits: Fitness)
    requires Fresh(store, job, legal, fits)
    ensures HistoryFits(Insert(store, job).store, job, legal)
  {}

  lemma {:induction false} InsertKeepsConsistent(store: Store, job: AIJob, legal: Legality, fits: Fitness)
    requires Fresh(store, job, legal, fits)
    ensures Consistent(Insert(store, job).store, legal, fits)
  {
    var next := Insert(store, job).store;
    InsertGuardsNeverFire(store, job, legal, fits);
    forall id | id in next.jobs ensures JobFits(id, next.jobs[id], fits) {
      if id != job.id { assert JobFits(id, store.jobs[id], fits); }
    }
    forall id | id in next.jobs ensures HistoryFits(next, next.jobs[id], legal) {
      if id == job.id {
        InsertStartsHistory(store, job, legal, fits);
      } else {
        InsertKeepsOthers(store, job, legal, fits, id);
      }
    }
    forall key | key in next.events ensures Known(next, key) {
      if key != EventKey(job.id, job.statusVersion) { assert Known(store, key); }
    }
    forall operationID, a, b | RunsFor(next, operationID, a) && RunsFor(next, operationID, b) ensures a == b {
      InsertOperationIsNew(store, job, legal, fits, operationID, a, b);
    }
  }

  lemma {:induction false} InsertOperationIsNew(
    store: Store, job: AIJob, legal: Legality, fits: Fitness, operationID: string, a: string, b: string)
    requires Fresh(store, job, legal, fits)
    requires RunsFor(Insert(store, job).store, operationID, a) && RunsFor(Insert(store, job).store, operationID, b)
    ensures a == b
  {
    InsertGuardsNeverFire(store, job, legal, fits);
    if a != job.id { assert RunsFor(store, operationID, a) && HistoryFits(store, store.jobs[a], legal); }
    if b != job.id { assert RunsFor(store, operationID, b) && HistoryFits(store, store.jobs[b], legal); }
  }

  /** Renewing a lease touches no history. */
  lemma {:induction false} RenewalKeepsConsistent(store: Store, job: AIJob, legal: Legality, fits: Fitness)
    requires Consistent(store, legal, fits) && job.id in store.jobs && fits(job)
    requires job == store.jobs[job.id].(queueLeaseUntil := job.queueLeaseUntil, updatedAt := job.updatedAt)
    ensures Consistent(store.(jobs := store.jobs[job.id := job]), legal, fits)
  {
    var next := store.(jobs := store.jobs[job.id := job]);
    forall id | id in next.jobs
      ensures JobFits(id, next.jobs[id], fits) && HistoryFits(next, next.jobs[id], legal)
    {
      assert JobFits(id, store.jobs[id], fits) && HistoryFits(store, store.jobs[id], legal);
      HistoryCarried(store, next, next.jobs[id], legal);
    }
    forall key | key in next.events ensures Known(next, key) { assert Known(store, key); }
    forall operationID, a, b | RunsFor(next, operationID, a) && RunsFor(next, operationID, b) ensures a == b {
      assert RunsFor(store, operationID, a) && RunsFor(store, operationID, b);
    }
  }

  // Any decision that records a legal event or renews a lease.

  ghost predicate Allowed(store: Store, job: AIJob, decision: Decision, legal: Legality, fits: Fitness) {
    match decision
    case Record(to, event) => Follows(store, job, to, event, legal, fits)
    case Renew(to) =>
      job.id in store.jobs && store.jobs[job.id] == job && fits(to)
      && to == job.(queueLeaseUntil := to.queueLeaseUntil, updatedAt := to.updatedAt)
    case _ => true
  }

  lemma {:induction false} CarryOutKeepsConsistent(
    store: Store, job: AIJob, decision: Decision, legal: Legality, fits: Fitness)
    requires Consistent(store, legal, fits) && Allowed(store, job, decision, legal, fits)
    ensures Consistent(CarryOut(store, job, decision).store, legal, fits)
  {
    match decision
    case Record(to, event) => RecordedKeepsConsistent(store, job, to, event, legal, fits);
    case Renew(to) => RenewalKeepsConsistent(store, to, legal, fits);
    case _ =>
  }

  /** The duplicate guards and the operation lookup never fail. */
  lemma {:induction false} CarryOutSucceeds(store: Store, job: AIJob, decision: Decision, legal: Legality, fits: Fitness)
    requires Consistent(store, legal, fits) && Allowed(store, job, decision, legal, fits)
    ensures CarryOut(store, job, decision).outcome.Failure? <==> decision.Refuse?
  {}
}
