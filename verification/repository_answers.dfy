/** What the repository's claims look at, which dispatches they count, and what a cancellation does to the hold. */
module RepositoryAnswers {
  import opened Text
  import opened JobModel
  import opened FairQueue
  import opened JobStore
  import opened JobHistory
  import opened JobRuns
  import opened JobClaims
  import opened MemoryRepository
  import Billing = BillingHolds
  import Holds = BillingAnswers
  import StoreAnswered = StoreAnswers

  // References.

  predicate Names(references: seq<Reference>, k: nat, id: string) {
    k < |references| && references[k].jobID == id && Trim(id) != "" && references[k].statusVersion > 0
  }

  /** The last usable reference to the job. */
  ghost predicate NamesLast(references: seq<Reference>, k: nat, id: string) {
    Names(references, k, id) && forall j: nat :: j > k ==> !Names(references, j, id)
  }

  lemma {:induction false} NamedBefore(references: seq<Reference>, n: nat, k: nat, id: string)
    requires |references| == n + 1
    ensures Names(references, k, id) <==> Names(references[..n], k, id) || (k == n && Names(references, n, id))
  {}

  /** Of several references to a job the last one counts. */
  lemma {:induction false} LastReferenceCounts(references: seq<Reference>, id: string)
    ensures if id in Wanted(references)
            then exists k: nat :: NamesLast(references, k, id) && Wanted(references)[id] == references[k].statusVersion
            else forall k: nat :: !Names(references, k, id)
  {
    if references != [] {
      var n := |references| - 1;
      LastReferenceCounts(references[..n], id);
      forall k: nat ensures Names(references, k, id) <==> Names(references[..n], k, id) || (k == n && Names(references, n, id)) {
        NamedBefore(references, n, k, id);
      }
      if Names(references, n, id) {
        assert NamesLast(references, n, id);
      } else if id in Wanted(references) {
        var k: nat :| NamesLast(references[..n], k, id) && Wanted(references[..n])[id] == references[..n][k].statusVersion;
        assert NamesLast(references, k, id);
      }
    }
  }

  ghost predicate Referenced(references: seq<Reference>, job: AIJob) {
    exists k: nat :: NamesLast(references, k, job.id) && references[k].statusVersion == job.statusVersion
  }

  /** A claim by references looks at the ready jobs whose current version is the one last referred to. */
  lemma {:induction false} ReferencedJobsAreChosen(references: seq<Reference>, now: Time, job: AIJob)
    ensures ReferencedAt(Wanted(references), now)(job) <==> Referenced(references, job) && ReadyForClaim(job, now)
  {
    LastReferenceCounts(references, job.id);
    if k: nat :| NamesLast(references, k, job.id) && references[k].statusVersion == job.statusVersion {
      assert Names(references, k, job.id);
      var j: nat :| NamesLast(references, j, job.id) && Wanted(references)[job.id] == references[j].statusVersion;
      assert Names(references, j, job.id);
    }
  }

  // Dispatches.

  lemma {:induction false} EventsAreLegal(store: Store, key: EventKey)
    requires Valid(store) && key in store.events
    ensures key.jobID in store.jobs && Legal(store.events[key])
  {
    assert Known(store, key);
    StoredFits(store, key.jobID);
    assert HistoryFits(store, store.jobs[key.jobID], Legal);
    assert EventFits(store, key.jobID, key.version, Legal) && key == EventKey(key.jobID, key.version);
  }

  lemma LegalDispatches(e: Event)
    requires Legal(e)
    ensures e.eventType == EventScheduled <==> e.fromStatus == Queued && e.toStatus == Dispatching
  {}

  /** The dispatches that a claim counts are the events that took a queued job from the queue, each at its own time and for
      its own job's owner. */
  lemma {:induction false} DispatchesLeaveTheQueue(store: Store, key: EventKey)
    requires Valid(store)
    ensures IsDispatch(store, key)
       <==> key in store.events && store.events[key].fromStatus == Queued && store.events[key].toStatus == Dispatching
    ensures IsDispatch(store, key) ==>
              ActivityOf(store)(key) == Activity(store.jobs[key.jobID].scope, store.events[key].createdAt)
  {
    if key in store.events {
      EventsAreLegal(store, key);
      LegalDispatches(store.events[key]);
    }
  }

  // Cancellations.

  /** A cancellation of a waiting job gives back what its operation has reserved or in dispute; the hold of a job that was
      dispatched is left for settlement. */
  lemma {:induction false} CancellationsReleaseHolds(
    store: Store, ledger: Billing.Ledger, id: string, holdID: string, reason: string, at: Time)
    requires Valid(store) && CreatedBy(store, at) && id in store.jobs && Billing.WellFormed(ledger)
    requires Billing.IsHoldOf(ledger, store.jobs[id].operationID, holdID)
    ensures var outcome := Act(store, id, Step.Canceling(reason), at).outcome;
            var next := AfterCancel(ledger, outcome, at);
            if store.jobs[id].status == Queued && ledger.holds[holdID].status in {Billing.Reserved, Billing.Disputed}
            then Holds.HoldMoves(ledger, next, holdID, Billing.Released, 0, CANCELED_BEFORE_DISPATCH, at)
            else next == ledger
  {
    StoredFits(store, id);
    Holds.ReleasesAreAnswered(ledger, store.jobs[id].operationID, holdID, CANCELED_BEFORE_DISPATCH, at);
    CanceledOnlyFromQueue(store, id, reason, at);
  }

  lemma {:induction false} CanceledOnlyFromQueue(store: Store, id: string, reason: string, at: Time)
    requires Valid(store) && CreatedBy(store, at) && id in store.jobs
    ensures var outcome := Act(store, id, Step.Canceling(reason), at).outcome;
            && (outcome.Changed? && outcome.job.status == Canceled <==> store.jobs[id].status == Queued)
            && (outcome.Changed? ==> outcome.job.operationID == store.jobs[id].operationID)
  {
    StoredFits(store, id);
    if store.jobs[id].status in {Queued, Dispatching, Running} {
      StoreAnswered.CancellationsAreStored(store, id, reason, at);
    }
  }
}
