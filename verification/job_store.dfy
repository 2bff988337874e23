/** The durable job store: jobs with their event log, outbox and operations, changed by atomic steps that check
    status versions, fence tokens and queue leases. */
module JobStore {
  import opened Text
  import opened JobModel

  /** Event and outbox ids are digests of the job id and the status version; the pair stands for the digest. */
  datatype EventKey = EventKey(jobID: string, version: int)

  datatype Event = Event(eventType: EventType, fromStatus: Status, toStatus: Status, reason: string, createdAt: Time)

  datatype OutboxRecord = OutboxRecord(eventType: EventType, operationID: string, status: Status, createdAt: Time)

  datatype OperationStatus = OpAccepted | OpRunning | OpSucceeded | OpCanceled | OpFailed

  datatype Operation = Operation(
    status: OperationStatus, errorType: string, updatedAt: Time, completedAt: Option<Time>)

  datatype Store = Store(
    jobs: map<string, AIJob>, events: map<EventKey, Event>, outbox: map<EventKey, OutboxRecord>,
    operations: map<string, Operation>)

  // One status change.

  /** The job after a transition; None when the table refuses it. */
  function Transitioned(job: AIJob, to: Status, reason: string, at: Time): Option<AIJob> {
    if !TransitionAllowed(job.status, to, reason) then None
    else
      Some(job.(
        status := to,
        statusVersion := job.statusVersion + 1,
        updatedAt := at,
        queueLeaseUntil := if to == Dispatching then job.queueLeaseUntil else None,
        queueLeaseToken := if to == Dispatching then job.queueLeaseToken else "",
        queueWorkerID := if to == Dispatching then job.queueWorkerID else "",
        nextEligibleAt := if to == Queued then at else job.nextEligibleAt,
        errorType := if to in {Failed, Unknown} then Trim(reason) else "",
        completedAt := if Terminal(to) && to != Expired then Some(at) else job.completedAt))
  }

  /** The job after its expired dispatch lease is taken over; None while the lease holds. */
  function Reassigned(job: AIJob, at: Time): Option<AIJob> {
    if job.status != Dispatching || job.queueLeaseUntil.None? || job.queueLeaseUntil.value > at then None
    else Some(job.(statusVersion := job.statusVersion + 1, updatedAt := at))
  }

  function MapStatus(status: Status): OperationStatus {
    match status
    case Succeeded => OpSucceeded
    case Canceled => OpCanceled
    case _ => OpFailed
  }

  function WithJobStatus(operation: Operation, status: Status, errorType: string, at: Time): Operation {
    if status in {Dispatching, Running, Canceling, Unknown} then
      if operation.status == OpAccepted then operation.(status := OpRunning, updatedAt := at) else operation
    else if status in {Succeeded, Failed, Canceled} then
      if operation.status in {OpAccepted, OpRunning} then
        Operation(MapStatus(status), errorType, at, Some(at))
      else operation
    else operation
  }

  function NewEvent(from: Status, job: AIJob, eventType: EventType, reason: string, at: Time): Event {
    Event(eventType, from, job.status, Trim(reason), at)
  }

  function NewOutboxRecord(job: AIJob, event: Event): OutboxRecord {
    OutboxRecord(event.eventType, job.operationID, job.status, event.createdAt)
  }

  /** Writes a changed job with its event, its outbox record and its operation; None when a guard fires. */
  function Recorded(store: Store, job: AIJob, event: Event): Option<Store> {
    var key := EventKey(job.id, job.statusVersion);
    if key in store.events || key in store.outbox || job.operationID !in store.operations then None
    else
      Some(Store(
        store.jobs[job.id := job],
        store.events[key := event],
        store.outbox[key := NewOutboxRecord(job, event)],
        store.operations[job.operationID :=
          WithJobStatus(store.operations[job.operationID], job.status, job.errorType, event.createdAt)]))
  }

  // What an operation decides about the job it finds.

  datatype Decision =
    | Leave
    | Refuse
    | NotCancelable
    | Renew(job: AIJob)
    | Record(job: AIJob, event: Event)

  predicate Current(job: AIJob, expectedVersion: int, fenceToken: int) {
    job.statusVersion == expectedVersion && (job.fenceToken > 0 ==> job.fenceToken == fenceToken)
  }

  function DecideTransition(
    job: AIJob, expectedVersion: int, fenceToken: int, to: Status, reason: string, at: Time): Decision
  {
    if !Current(job, expectedVersion, fenceToken) then Leave
    else if Transitioned(job, to, reason, at).None? || EventTypeFor(to).None? then Refuse
    else
      var updated := Transitioned(job, to, reason, at).value;
      Record(updated, NewEvent(job.status, updated, EventTypeFor(to).value, reason, at))
  }

  function DecideRequeue(
    job: AIJob, expectedVersion: int, fenceToken: int, reason: string, eligibleAt: Time, at: Time): Decision
  {
    match DecideTransition(job, expectedVersion, fenceToken, Queued, reason, at)
    case Record(updated, event) => Record(updated.(nextEligibleAt := if eligibleAt > at then eligibleAt else at), event)
    case other => other
  }

  function CancelTarget(status: Status): Status {
    if status in {Accepted, Queued} then Canceled else Canceling
  }

  const CLIENT_REASON := "client_requested"
  const ADMIN_REASON := "admin_requested"

  /** A cancelled dispatch takes a new fence token, so the worker that holds the old one is shut out. */
  function DecideCancel(job: AIJob, reason: string, at: Time): Decision {
    if job.status in {Canceling, Canceled} then Leave
    else if job.status in {Succeeded, Failed, Unknown, Expired} then NotCancelable
    else
      match DecideTransition(job, job.statusVersion, job.fenceToken, CancelTarget(job.status), reason, at)
      case Record(updated, event) =>
        Record(if job.status == Dispatching then updated.(fenceToken := job.fenceToken + 1) else updated, event)
      case other => other
  }

  function DecideExtend(
    job: AIJob, expectedVersion: int, fenceToken: int, token: string, leaseUntil: Time, at: Time): Decision
  {
    if leaseUntil <= at || Trim(token) == "" || job.status != Dispatching || job.statusVersion != expectedVersion
       || job.fenceToken != fenceToken || job.queueLeaseUntil.None? || job.queueLeaseUntil.value <= at
       || job.queueLeaseToken != token
    then Leave
    else if leaseUntil <= job.queueLeaseUntil.value then Renew(job)
    else
      Renew(job.(queueLeaseUntil := Some(leaseUntil), updatedAt := if at > job.updatedAt then at else job.updatedAt))
  }

  datatype Lease = Lease(until: Time, token: string, workerID: string)

  function Leased(job: AIJob, lease: Lease): AIJob {
    job.(fenceToken := job.fenceToken + 1, queueLeaseUntil := Some(lease.until),
         queueLeaseToken := lease.token, queueWorkerID := lease.workerID)
  }

  /** Claims a candidate: a queued job is dispatched, an expired dispatch is reassigned. */
  function DecideClaim(job: AIJob, lease: Lease, now: Time): Decision {
    var claimed := if job.status == Dispatching then Reassigned(job, now) else Transitioned(job, Dispatching, "", now);
    if claimed.None? then Refuse
    else
      var updated := Leased(claimed.value, lease);
      Record(updated,
             if job.status == Dispatching then
               NewEvent(Dispatching, updated, EventLeaseReassigned, "lease_expired", now)
             else NewEvent(job.status, updated, EventScheduled, "", now))
  }

  // Carrying decisions out.

  datatype Outcome = Missing | Unchanged(job: AIJob) | Changed(job: AIJob) | CannotCancel | Full | Failure

  datatype Reply = Reply(store: Store, outcome: Outcome)

  function CarryOut(store: Store, job: AIJob, decision: Decision): Reply {
    match decision
    case Leave => Reply(store, Unchanged(job))
    case Refuse => Reply(store, Failure)
    case NotCancelable => Reply(store, CannotCancel)
    case Renew(renewed) => Reply(store.(jobs := store.jobs[renewed.id := renewed]), Changed(renewed))
    case Record(updated, event) =>
      (match Recorded(store, updated, event)
       case None => Reply(store, Failure)
       case Some(next) => Reply(next, Changed(updated)))
  }

  predicate OwnerMatches(scope: Scope, owner: Scope) {
    && scope.profileScope == owner.profileScope && scope.tenantID == owner.tenantID
    && scope.integrationID == owner.integrationID && scope.principalType == owner.principalType
    && scope.principalID == owner.principalID && scope.externalSubject == owner.externalSubject
  }

  function NewJob(id: string, operationID: string, scope: Scope, submission: Submission, at: Time): AIJob {
    AIJob(id, operationID, scope, submission, Queued, 1, 0, at, None, "", "", 0, "", at, at, None)
  }

  predicate SameIdempotencyScope(left: AIJob, right: AIJob) {
    && left.submission.idempotencyKey != "" && left.scope == right.scope
    && left.submission.credentialID == right.submission.credentialID
    && left.submission.operation == right.submission.operation
    && left.submission.idempotencyKey == right.submission.idempotencyKey
  }

  /** Writes a new job. The admission limits and the billing hold are checked before. */
  function Insert(store: Store, job: AIJob): Reply {
    var key := EventKey(job.id, job.statusVersion);
    var event := NewEvent(Accepted, job, EventQueued, "", job.createdAt);
    if job.operationID in store.operations || job.id in store.jobs || key in store.events || key in store.outbox then
      Reply(store, Failure)
    else
      Reply(
        Store(
          store.jobs[job.id := job],
          store.events[key := event],
          store.outbox[key := NewOutboxRecord(job, event)],
          store.operations[job.operationID := Operation(OpAccepted, "", job.createdAt, None)]),
        Changed(job))
  }
}
