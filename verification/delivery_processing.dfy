/** Processing one delivery: when a worker acknowledges it, and what the acknowledgement is worth. */
module DeliveryProcessing {
  import opened Text
  import opened JobModel
  import opened JobStore
  import opened JobHistory
  import opened JobRuns
  import opened DeliveryQueue
  import opened DeliveryWorker
  import opened DispatchLoop

  datatype Verdict = AckIt | NackIt

  /** What a worker meets on its way: whether and how it finds the job, what became of decryption and heartbeat, how the
      dispatch ended and the store it ended on, other errors of the dispatch, and whether and how it finds the job again. */
  datatype Visit = Visit(
    looksUp: bool, first: Store, readAt: Time, prepared: bool,
    finish: Finish, middle: Store, retryAt: Time, finishedAt: Time, otherErrors: bool,
    looksAgain: bool, latest: Store)

  predicate IsCurrent(store: Store, e: Envelope, now: Time) {
    e.jobID in store.jobs && Matches(store.jobs[e.jobID], e, now)
  }

  /** The store step that the dispatch ends with, on the store that it ends on. */
  function LastStep(v: Visit, claimed: AIJob): Option<Step> {
    if claimed.id !in v.middle.jobs then None
    else FinishStep(v.finish, claimed, v.middle.jobs[claimed.id], v.retryAt)
  }

  function Ended(v: Visit, claimed: AIJob): Reply {
    if LastStep(v, claimed).None? then Reply(v.middle, Missing)
    else Act(v.middle, claimed.id, LastStep(v, claimed).value, v.finishedAt)
  }

  /** The dispatch reports an error: it was given up, its task may exist, the job is gone, its last store step failed or
      came too late, or something else went wrong. */
  predicate Fails(v: Visit, claimed: AIJob) {
    || v.finish == GaveUp || v.finish == TaskUnknown || v.otherErrors || claimed.id !in v.middle.jobs
    || (LastStep(v, claimed).Some? && !Ended(v, claimed).outcome.Changed?)
  }

  function Settlement(digest: Digest, e: Envelope, v: Visit): Verdict {
    if !ValidEnvelope(digest, e) then AckIt
    else if !v.looksUp then NackIt
    else if !IsCurrent(v.first, e, v.readAt) then AckIt
    else if !v.prepared || !v.looksAgain then NackIt
    else if e.jobID !in v.latest.jobs || v.latest.jobs[e.jobID].status != Dispatching then AckIt
    else if !Fails(v, v.first.jobs[e.jobID]) then AckIt
    else NackIt
  }

  /** The stores of a visit follow one another, and the dispatch ended at its own time. */
  ghost predicate Plausible(v: Visit, e: Envelope) {
    && JobRuns.Valid(v.first) && JobRuns.Valid(v.middle) && CreatedBy(v.middle, v.finishedAt) && v.readAt <= v.finishedAt
    && StoreEvolved(v.first, v.middle, v.readAt)
    && (e.jobID in v.first.jobs ==> StoreEvolved(Ended(v, v.first.jobs[e.jobID]).store, v.latest, v.finishedAt))
    && StoreEvolved(v.first, v.latest, v.readAt)
  }

  /** A dispatch that ends without an error leaves its claim behind. */
  lemma {:induction false} EndedClaimMovesOn(v: Visit, claimed: AIJob)
    requires JobRuns.Valid(v.middle) && CreatedBy(v.middle, v.finishedAt)
    requires claimed.id in v.middle.jobs && Evolved(claimed, v.middle.jobs[claimed.id], v.readAt)
    requires claimed.status == Dispatching && !Fails(v, claimed)
    ensures claimed.id in Ended(v, claimed).store.jobs
    ensures Ended(v, claimed).store.jobs[claimed.id].statusVersion > claimed.statusVersion
  {
    var current := v.middle.jobs[claimed.id];
    StoredFits(v.middle, claimed.id);
    if current.statusVersion == claimed.statusVersion {
      var step := FinishStep(v.finish, claimed, current, v.retryAt);
      assert step.Some? && JobRuns.Proper(current, step.value, v.finishedAt);
      ActIsAllowed(v.middle, claimed.id, step.value, v.finishedAt);
      StandingClaimMoves(v, claimed, current);
      CarryOutTouchesOneJob(v.middle, current, Decide(current, step.value, v.finishedAt), v.finishedAt);
    } else {
      EndingNeverGoesBack(v, claimed);
    }
  }

  lemma {:induction false} StandingClaimMoves(v: Visit, claimed: AIJob, current: AIJob)
    requires Fit(current) && current.status == Dispatching && current.statusVersion == claimed.statusVersion
    requires current.fenceToken == claimed.fenceToken && v.finish != GaveUp
    ensures var step := FinishStep(v.finish, claimed, current, v.retryAt);
            && step.Some? && Decide(current, step.value, v.finishedAt).Record?
            && Decide(current, step.value, v.finishedAt).job.statusVersion == current.statusVersion + 1
            && Decide(current, step.value, v.finishedAt).job.id == current.id
  {}

  lemma {:induction false} EndingNeverGoesBack(v: Visit, claimed: AIJob)
    requires JobRuns.Valid(v.middle) && CreatedBy(v.middle, v.finishedAt) && claimed.id in v.middle.jobs
    ensures claimed.id in Ended(v, claimed).store.jobs
    ensures Ended(v, claimed).store.jobs[claimed.id].statusVersion >= v.middle.jobs[claimed.id].statusVersion
  {
    var current, step := v.middle.jobs[claimed.id], LastStep(v, claimed);
    if step.Some? {
      assert JobRuns.Proper(current, step.value, v.finishedAt);
      ActIsAllowed(v.middle, claimed.id, step.value, v.finishedAt);
      CarryOutTouchesOneJob(v.middle, current, Decide(current, step.value, v.finishedAt), v.finishedAt);
    }
  }

  lemma LaterVersionsDoNotMatch(job: AIJob, e: Envelope)
    requires job.statusVersion > e.statusVersion || job.status != Dispatching
    ensures forall now :: !Matches(job, e, now)
  {}

  /** At the last look the envelope is stale. */
  lemma {:induction false} AcknowledgedIsStale(digest: Digest, e: Envelope, v: Visit, now: Time)
    requires Agrees(digest, v.first.jobs, e) && Plausible(v, e) && now >= v.finishedAt
    requires Settlement(digest, e, v) == AckIt
    ensures !IsCurrent(v.latest, e, now)
  {
    var claimed := v.first.jobs[e.jobID];
    if !IsCurrent(v.first, e, v.readAt) {
      StaleEnvelopesStayOut(digest, v.first, v.latest, e, v.readAt, now);
    } else if v.latest.jobs[e.jobID].status != Dispatching {
      LaterVersionsDoNotMatch(v.latest.jobs[e.jobID], e);
    } else {
      StoredFits(v.first, e.jobID);
      assert Evolved(claimed, v.middle.jobs[claimed.id], v.readAt);
      EndedClaimMovesOn(v, claimed);
      var ended := Ended(v, claimed).store;
      assert Evolved(ended.jobs[e.jobID], v.latest.jobs[e.jobID], v.finishedAt);
      LaterVersionsDoNotMatch(v.latest.jobs[e.jobID], e);
    }
  }

  /** An acknowledged delivery is not needed any more: in no store that the last one evolves into, and at no later moment, is
      its envelope its job's current claim. Nothing that a job still waits for is ever acknowledged away. */
  lemma {:induction false} AcknowledgedMeansDone(
    digest: Digest, e: Envelope, v: Visit, lookedAt: Time, next: Store, later: Time)
    requires Agrees(digest, v.first.jobs, e) && Plausible(v, e) && Settlement(digest, e, v) == AckIt
    requires v.finishedAt <= lookedAt <= later && StoreEvolved(v.latest, next, lookedAt)
    ensures !IsCurrent(v.latest, e, lookedAt) && !IsCurrent(next, e, later)
  {
    AcknowledgedIsStale(digest, e, v, lookedAt);
    AgreementLasts(digest, v.first, v.latest, e, v.readAt);
    StaleEnvelopesStayOut(digest, v.latest, next, e, lookedAt, later);
  }

  /** A delivery comes back when a look at the job or its preparation failed, and when the dispatch was given up while the
      job is still being dispatched. */
  lemma {:induction false} FailedRunsComeBack(digest: Digest, e: Envelope, v: Visit)
    requires ValidEnvelope(digest, e) && (v.looksUp ==> IsCurrent(v.first, e, v.readAt))
    requires || !v.looksUp || !v.prepared || !v.looksAgain
             || (v.finish == GaveUp && e.jobID in v.latest.jobs && v.latest.jobs[e.jobID].status == Dispatching)
    ensures Settlement(digest, e, v) == NackIt
  {}

  lemma {:induction false} FinishIsCarriedOut(
    store: Store, job: AIJob, finish: Finish, step: Step, retryAt: Time, at: Time)
    requires JobRuns.Valid(store) && CreatedBy(store, at) && job.id in store.jobs && store.jobs[job.id] == job
    requires job.status == Dispatching && finish != GaveUp && FinishStep(finish, job, job, retryAt) == Some(step)
    ensures Act(store, job.id, step, at).outcome.Changed?
  {
    StoredFits(store, job.id);
    FinishIsAllowed(finish, job, retryAt, at);
    ActIsAllowed(store, job.id, step, at);
    CarryOutSucceeds(store, job, Decide(job, step, at), Legal, Fit);
  }

  lemma {:induction false} StandingRunsSucceed(v: Visit, job: AIJob)
    requires JobRuns.Valid(v.middle) && CreatedBy(v.middle, v.finishedAt) && !v.otherErrors
    requires job.id in v.middle.jobs && v.middle.jobs[job.id] == job && job.status == Dispatching
    requires v.finish == TaskAccepted || v.finish.Requeue?
    ensures !Fails(v, job)
  {
    var step := FinishStep(v.finish, job, job, v.retryAt);
    if step.Some? { FinishIsCarriedOut(v.middle, job, v.finish, step.value, v.retryAt, v.finishedAt); }
  }

  /** A dispatch whose claim still stands when it takes its last store step is acknowledged, unless something else went
      wrong or its outcome is unknown. */
  lemma {:induction false} CleanRunsAreAcknowledged(digest: Digest, e: Envelope, v: Visit)
    requires v.looksUp && v.prepared && v.looksAgain && IsCurrent(v.first, e, v.readAt) && !v.otherErrors
    requires JobRuns.Valid(v.middle) && CreatedBy(v.middle, v.finishedAt) && v.first.jobs[e.jobID].id == e.jobID
    requires e.jobID in v.middle.jobs && v.middle.jobs[e.jobID] == v.first.jobs[e.jobID]
    requires v.finish == TaskAccepted || v.finish.Requeue?
    ensures Settlement(digest, e, v) == AckIt
  {
    if v.first.jobs[e.jobID].status == Dispatching { StandingRunsSucceed(v, v.first.jobs[e.jobID]); }
  }

  /** However the dispatch went, the delivery is done when the job is gone or not being dispatched any more. */
  lemma {:induction false} FinishedDispatchesAreAcknowledged(digest: Digest, e: Envelope, v: Visit)
    requires v.looksUp && v.prepared && v.looksAgain
    requires e.jobID !in v.latest.jobs || v.latest.jobs[e.jobID].status != Dispatching
    ensures Settlement(digest, e, v) == AckIt
  {}

  /** An envelope that is no use is acknowledged: an invalid one, and one that is stale when the job is looked up. */
  lemma {:induction false} UselessEnvelopesAreAcknowledged(digest: Digest, e: Envelope, v: Visit)
    requires !ValidEnvelope(digest, e) || (v.looksUp && !IsCurrent(v.first, e, v.readAt))
    ensures Settlement(digest, e, v) == AckIt
  {}
}
