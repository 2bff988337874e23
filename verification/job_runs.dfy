/** Runs of the job store: what every step keeps, and how jobs may evolve. */
module JobRuns {
  import opened Text
  import opened JobModel
  import opened FairQueue
  import opened JobStore
  import opened JobHistory

  ghost predicate Legal(e: Event) {
    if e.eventType == EventLeaseReassigned then e.fromStatus == e.toStatus == Dispatching
    else TransitionAllowed(e.fromStatus, e.toStatus, e.reason) && EventTypeFor(e.toStatus) == Some(e.eventType)
  }

  /** Exactly the dispatching jobs carry a lease, exactly the finished ones a completion time, only failed and unknown
      ones an error, and eligibility never precedes creation. */
  ghost predicate Fit(job: AIJob) {
    && job.statusVersion >= 1 && job.fenceToken >= 0 && job.status != Accepted
    && 0 < job.createdAt <= job.nextEligibleAt && job.createdAt <= job.updatedAt
    && (job.completedAt.Some? <==> Terminal(job.status))
    && (job.errorType != "" ==> job.status in {Failed, Unknown})
    && if job.status == Dispatching then
         && job.queueLeaseUntil.Some? && job.queueLeaseUntil.value > job.createdAt
         && Trim(job.queueLeaseToken) != "" && job.fenceToken > 0
       else job.queueLeaseUntil.None? && job.queueLeaseToken == "" && job.queueWorkerID == ""
  }

  // What the operations do to the job they find.

  datatype Step =
    | Transitioning(version: int, fence: int, to: Status, reason: string)
    | Requeuing(version: int, fence: int, reason: string, eligibleAt: Time)
    | Canceling(reason: string)
    | Extending(version: int, fence: int, token: string, leaseUntil: Time)
    | Claiming(lease: Lease)

  /** No caller asks for the dispatching status, and claims take ready candidates and a real lease. */
  predicate Proper(job: AIJob, step: Step, at: Time) {
    && (step.Transitioning? ==> step.to != Dispatching)
    && (step.Claiming? ==> ReadyForClaim(job, at) && Trim(step.lease.token) != "" && step.lease.until > at)
  }

  function Decide(job: AIJob, step: Step, at: Time): Decision {
    match step
    case Transitioning(version, fence, to, reason) => DecideTransition(job, version, fence, to, reason, at)
    case Requeuing(version, fence, reason, eligibleAt) => DecideRequeue(job, version, fence, reason, eligibleAt, at)
    case Canceling(reason) => DecideCancel(job, reason, at)
    case Extending(version, fence, token, leaseUntil) => DecideExtend(job, version, fence, token, leaseUntil, at)
    case Claiming(lease) => DecideClaim(job, lease, at)
  }

  /** How one job may change from one moment on: versions and fences never go back, a version fixes the status, the
      fence and the lease holder, and a lease that has expired is never renewed. */
  ghost predicate Evolved(from: AIJob, to: AIJob, at: Time) {
    && to.id == from.id && to.operationID == from.operationID && to.createdAt == from.createdAt
    && to.scope == from.scope && to.submission == from.submission && to.priority == from.priority
    && from.statusVersion <= to.statusVersion && from.fenceToken <= to.fenceToken
    && (from.statusVersion == to.statusVersion ==> SameClaim(from, to, at))
  }

  ghost predicate SameClaim(from: AIJob, to: AIJob, at: Time) {
    && to.status == from.status && to.fenceToken == from.fenceToken && to.queueLeaseToken == from.queueLeaseToken
    && to.nextEligibleAt == from.nextEligibleAt && to.queueLeaseUntil.Some? == from.queueLeaseUntil.Some?
    && (from.queueLeaseUntil.Some? && from.queueLeaseUntil.value <= at ==> to.queueLeaseUntil == from.queueLeaseUntil)
  }

  ghost predicate Sound(job: AIJob, decision: Decision, at: Time) {
    match decision
    case Record(to, event) =>
      && Fit(to) && Legal(event) && event.fromStatus == job.status && event.toStatus == to.status
      && to.statusVersion == job.statusVersion + 1 && Evolved(job, to, at)
    case Renew(to) =>
      && Fit(to) && Evolved(job, to, at) && to == job.(queueLeaseUntil := to.queueLeaseUntil, updatedAt := to.updatedAt)
    case _ => true
  }

  lemma {:induction false} TransitionsAreSound(
    job: AIJob, version: int, fence: int, to: Status, reason: string, at: Time)
    requires Fit(job) && at >= job.createdAt && to != Dispatching
    ensures Sound(job, DecideTransition(job, version, fence, to, reason, at), at)
  {}

  /** Every decision a proper step can lead to is sound. */
  lemma {:induction false} DecisionsAreSound(job: AIJob, step: Step, at: Time)
    requires Fit(job) && at >= job.createdAt && Proper(job, step, at)
    ensures Sound(job, Decide(job, step, at), at)
  {
    match step
    case Transitioning(version, fence, to, reason) => TransitionsAreSound(job, version, fence, to, reason, at);
    case Requeuing(version, fence, reason, _) => TransitionsAreSound(job, version, fence, Queued, reason, at);
    case Canceling(reason) =>
      TransitionsAreSound(job, job.statusVersion, job.fenceToken, CancelTarget(job.status), reason, at);
    case Extending(_, _, _, _) =>
    case Claiming(_) =>
  }

  // The store.

  ghost predicate Valid(store: Store) {
    Consistent(store, Legal, Fit)
  }

  ghost predicate CreatedBy(store: Store, at: Time) {
    forall id :: id in store.jobs ==> store.jobs[id].createdAt <= at
  }

  ghost predicate StoreEvolved(store: Store, next: Store, at: Time) {
    forall id :: id in store.jobs ==> id in next.jobs && Evolved(store.jobs[id], next.jobs[id], at)
  }

  lemma StoredFits(store: Store, id: string)
    requires Valid(store) && id in store.jobs
    ensures store.jobs[id].id == id && Fit(store.jobs[id])
  {}

  lemma EvolvedSelf(job: AIJob, at: Time)
    ensures Evolved(job, job, at)
  {}

  lemma {:induction false} OneEvolved(store: Store, next: Store, id: string, at: Time)
    requires id in store.jobs && id in next.jobs && next.jobs == store.jobs[id := next.jobs[id]]
    requires Evolved(store.jobs[id], next.jobs[id], at)
    ensures StoreEvolved(store, next, at)
  {}

  /** Only the job itself changes. */
  lemma {:induction false} CarryOutTouchesOneJob(store: Store, job: AIJob, decision: Decision, at: Time)
    requires job.id in store.jobs && store.jobs[job.id] == job && Sound(job, decision, at)
    ensures var reply := CarryOut(store, job, decision);
            && job.id in reply.store.jobs && reply.store.jobs == store.jobs[job.id := reply.store.jobs[job.id]]
            && Evolved(job, reply.store.jobs[job.id], at)
            && (reply.outcome.Changed? ==> reply.outcome.job == reply.store.jobs[job.id])
            && (!reply.outcome.Changed? ==> reply.store == store)
  {}

  /** One step of one job, under the store's lock. */
  function Act(store: Store, id: string, step: Step, at: Time): Reply {
    if id !in store.jobs then Reply(store, Missing)
    else CarryOut(store, store.jobs[id], Decide(store.jobs[id], step, at))
  }

  ghost predicate ProperAt(store: Store, id: string, step: Step, at: Time) {
    id in store.jobs ==> Proper(store.jobs[id], step, at)
  }

  lemma {:induction false} SoundIsAllowed(store: Store, job: AIJob, decision: Decision, at: Time)
    requires job.id in store.jobs && store.jobs[job.id] == job && Sound(job, decision, at)
    ensures Allowed(store, job, decision, Legal, Fit)
  {}

  lemma {:induction false} ActIsAllowed(store: Store, id: string, step: Step, at: Time)
    requires Valid(store) && CreatedBy(store, at) && ProperAt(store, id, step, at) && id in store.jobs
    ensures store.jobs[id].id == id && Sound(store.jobs[id], Decide(store.jobs[id], step, at), at)
    ensures Allowed(store, store.jobs[id], Decide(store.jobs[id], step, at), Legal, Fit)
  {
    StoredFits(store, id);
    DecisionsAreSound(store.jobs[id], step, at);
    SoundIsAllowed(store, store.jobs[id], Decide(store.jobs[id], step, at), at);
  }

  lemma {:induction false} ActKeepsValid(store: Store, id: string, step: Step, at: Time)
    requires Valid(store) && CreatedBy(store, at) && ProperAt(store, id, step, at)
    ensures Valid(Act(store, id, step, at).store)
  {
    if id in store.jobs {
      ActIsAllowed(store, id, step, at);
      CarryOutKeepsConsistent(store, store.jobs[id], Decide(store.jobs[id], step, at), Legal, Fit);
    }
  }

  lemma {:induction false} ActEvolves(store: Store, id: string, step: Step, at: Time)
    requires Valid(store) && CreatedBy(store, at) && ProperAt(store, id, step, at)
    ensures StoreEvolved(store, Act(store, id, step, at).store, at)
  {
    if id in store.jobs {
      ActIsAllowed(store, id, step, at);
      CarryOutTouchesOneJob(store, store.jobs[id], Decide(store.jobs[id], step, at), at);
      OneEvolved(store, Act(store, id, step, at).store, id, at);
    } else {
      forall other | other in store.jobs ensures Evolved(store.jobs[other], store.jobs[other], at) {
        EvolvedSelf(store.jobs[other], at);
      }
    }
  }
}
