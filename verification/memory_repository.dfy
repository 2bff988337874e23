/** The in-memory repository: the maps of the store, changed in place under one lock. */
module MemoryRepository {
  import opened Text
  import opened JobModel
  import opened Fold
  import opened FairQueue
  import opened JobStore
  import opened JobHistory
  import opened JobRuns
  import opened Admission
  import opened JobClaims
  import Billing = BillingHolds

  // A claim reads its three lists from maps, in any order.

  ghost predicate ListsJobs(list: seq<AIJob>, store: Store, chosen: AIJob -> bool) {
    && DistinctIds(list)
    && forall job :: job in list <==> job.id in store.jobs && store.jobs[job.id] == job && chosen(job)
  }

  predicate IsDispatch(store: Store, key: EventKey) {
    key in store.events && store.events[key].eventType == EventScheduled && key.jobID in store.jobs
  }

  function ActivityOf(store: Store): EventKey -> Activity {
    key =>
      if key in store.events && key.jobID in store.jobs then
        Activity(store.jobs[key.jobID].scope, store.events[key].createdAt)
      else Activity(Scope("", "", "", "", "", "", ""), 0)
  }

  ghost predicate ListsKeys(keys: seq<EventKey>, store: Store) {
    Distinct(keys) && forall key :: key in keys <==> IsDispatch(store, key)
  }

  ghost predicate ListsActivities(activities: seq<Activity>, store: Store) {
    exists keys :: ListsKeys(keys, store) && activities == Map(ActivityOf(store), keys)
  }

  /** The inputs of one ranking. */
  datatype Lists = Lists(candidates: seq<AIJob>, jobs: seq<AIJob>, activities: seq<Activity>)

  function Anything(): AIJob -> bool { job => true }

  ghost predicate Listing(lists: Lists, store: Store, chosen: AIJob -> bool) {
    && ListsJobs(lists.candidates, store, chosen) && ListsJobs(lists.jobs, store, Anything())
    && ListsActivities(lists.activities, store)
  }

  function RankLists(lists: Lists, now: Time, limit: int): seq<AIJob> {
    Ranked(lists.candidates, BuildStats(lists.jobs, lists.activities), now, limit)
  }

  lemma {:induction false} JobListsAgree(a: seq<AIJob>, b: seq<AIJob>, store: Store, chosen: AIJob -> bool)
    requires ListsJobs(a, store, chosen) && ListsJobs(b, store, chosen)
    ensures multiset(a) == multiset(b)
  {
    DistinctPermutation(a, b);
  }

  lemma {:induction false} ActivityListsAgree(a: seq<Activity>, b: seq<Activity>, store: Store)
    requires ListsActivities(a, store) && ListsActivities(b, store)
    ensures multiset(a) == multiset(b)
  {
    var ka :| ListsKeys(ka, store) && a == Map(ActivityOf(store), ka);
    var kb :| ListsKeys(kb, store) && b == Map(ActivityOf(store), kb);
    DistinctPermutation(ka, kb);
    MapPermutation(ActivityOf(store), ka, kb);
  }

  /** Whatever order the maps are read in, the ranking is the same. */
  lemma {:induction false} RankingIsDetermined(a: Lists, b: Lists, store: Store, chosen: AIJob -> bool, now: Time, limit: int)
    requires Listing(a, store, chosen) && Listing(b, store, chosen)
    ensures RankLists(a, now, limit) == RankLists(b, now, limit)
  {
    JobListsAgree(a.candidates, b.candidates, store, chosen);
    JobListsAgree(a.jobs, b.jobs, store, Anything());
    ActivityListsAgree(a.activities, b.activities, store);
    RankingIgnoresInputOrder(a.candidates, b.candidates, a.jobs, b.jobs, a.activities, b.activities, now, limit);
  }

  ghost function ChosenIDs(store: Store, chosen: AIJob -> bool): set<string> {
    set id | id in store.jobs && chosen(store.jobs[id])
  }

  lemma {:induction false} ListSize(list: seq<AIJob>, store: Store, chosen: AIJob -> bool)
    requires ListsJobs(list, store, chosen) && forall id :: id in store.jobs ==> store.jobs[id].id == id
    ensures |list| == |ChosenIDs(store, chosen)|
  {
    ListIDs(list);
    assert ChosenIDs(store, chosen) == set i | 0 <= i < |list| :: list[i].id by {
      forall id | id in ChosenIDs(store, chosen) ensures exists i :: 0 <= i < |list| && list[i].id == id {
        assert store.jobs[id] in list;
      }
      forall i | 0 <= i < |list| ensures list[i].id in ChosenIDs(store, chosen) {
        assert list[i] in list;
      }
    }
  }

  lemma {:induction false} ListIDs(list: seq<AIJob>)
    requires DistinctIds(list)
    ensures |set i | 0 <= i < |list| :: list[i].id| == |list|
  {
    if list != [] {
      var n := |list| - 1;
      ListIDs(list[..n]);
      var fewer := set i | 0 <= i < |list[..n]| :: list[..n][i].id;
      assert (set i | 0 <= i < |list| :: list[i].id) == fewer + {list[n].id} by {
        forall i | 0 <= i < n ensures list[..n][i] == list[i] {}
      }
    }
  }

  /** What one claim does: it claims the ranked picks, all of them, and as many as the limit and the store allow. */
  ghost predicate Claims(store: Store, chosen: AIJob -> bool, lease: Lease, now: Time, limit: int, batch: Batch) {
    && (forall lists :: Listing(lists, store, chosen) ==> batch == ClaimAll(store, RankLists(lists, now, limit), lease, now))
    && |batch.claimed| == Min(limit, |ChosenIDs(store, chosen)|)
    && exists picks :: ClaimsPicks(store, picks, lease, now, batch)
  }

  ghost predicate ClaimsPicks(store: Store, picks: seq<AIJob>, lease: Lease, now: Time, batch: Batch) {
    && Candidates(store, picks, now) && batch == ClaimAll(store, picks, lease, now) && |picks| == |batch.claimed|
  }

  lemma {:induction false} PicksAreCandidates(lists: Lists, store: Store, chosen: AIJob -> bool, now: Time, limit: nat)
    requires Listing(lists, store, chosen) && forall job :: chosen(job) ==> ReadyForClaim(job, now)
    ensures Candidates(store, RankLists(lists, now, limit), now)
    ensures |RankLists(lists, now, limit)| == Min(limit, |lists.candidates|)
  {
    var picks := RankLists(lists, now, limit);
    RankingConservesWork(lists.candidates, BuildStats(lists.jobs, lists.activities), now, limit);
    forall i | 0 <= i < |picks| ensures Ready(store, picks[i].id, now) && store.jobs[picks[i].id] == picks[i] {
      assert picks[i] in lists.candidates;
    }
  }

  /** Claiming the ranked picks of any listing conserves work and keeps the store valid. */
  lemma {:induction false} ClaimsRankedPicks(
    lists: Lists, store: Store, chosen: AIJob -> bool, lease: Lease, now: Time, limit: nat)
    requires Valid(store) && CreatedBy(store, now) && RealLease(lease, now)
    requires Listing(lists, store, chosen) && forall job :: chosen(job) ==> ReadyForClaim(job, now)
    ensures Claims(store, chosen, lease, now, limit, ClaimAll(store, RankLists(lists, now, limit), lease, now))
  {
    var picks := RankLists(lists, now, limit);
    PicksAreCandidates(lists, store, chosen, now, limit);
    BatchClaimsAll(store, picks, lease, now);
    assert ClaimsPicks(store, picks, lease, now, ClaimAll(store, picks, lease, now));
    forall id | id in store.jobs ensures store.jobs[id].id == id { StoredFits(store, id); }
    ListSize(lists.candidates, store, chosen);
    forall other | Listing(other, store, chosen)
      ensures ClaimAll(store, picks, lease, now) == ClaimAll(store, RankLists(other, now, limit), lease, now)
    {
      RankingIsDetermined(lists, other, store, chosen, now, limit);
    }
  }

  datatype Reference = Reference(jobID: string, statusVersion: int)

  /** The expected version of every referenced job; the last reference to a job wins. */
  function Wanted(references: seq<Reference>): map<string, int> {
    if references == [] then map[]
    else
      var last, before := references[|references| - 1], Wanted(references[..|references| - 1]);
      if Trim(last.jobID) != "" && last.statusVersion > 0 then before[last.jobID := last.statusVersion] else before
  }

  function ReadyAt(now: Time): AIJob -> bool { job => ReadyForClaim(job, now) }

  function ReferencedAt(wanted: map<string, int>, now: Time): AIJob -> bool {
    (job: AIJob) => job.id in wanted && wanted[job.id] == job.statusVersion && ReadyForClaim(job, now)
  }

  /** A cancellation that ends the job before dispatch also releases the hold of its operation. */
  ghost function AfterCancel(ledger: Billing.Ledger, outcome: Outcome, at: Time): Billing.Ledger {
    if outcome.Changed? && outcome.job.status == Canceled then
      Billing.ReleasedFor(ledger, outcome.job.operationID, CANCELED_BEFORE_DISPATCH, at)
    else ledger
  }

  class Repository {
    var jobs: map<string, AIJob>
    var events: map<EventKey, Event>
    var outbox: map<EventKey, OutboxRecord>
    var operations: map<string, Operation>
    const billing: Billing.MemoryBilling

    function Model(): Store
      reads this
    {
      Store(jobs, events, outbox, operations)
    }

    constructor ()
      ensures Model() == Store(map[], map[], map[], map[]) && fresh(billing)
      ensures billing.Model() == Billing.Ledger(map[], map[], map[])
    {
      jobs, events, outbox, operations := map[], map[], map[], map[];
      billing := new Billing.MemoryBilling();
    }

    /** Stores a changed job, its event, its outbox record and its operation, unless a guard fires. An outbox record
        has the id of its event, so the scan for a record of the same job, version and type is the same guard. */
    method Save(job: AIJob, event: Event) returns (ok: bool)
      modifies this
      ensures ok == old(Recorded(Model(), job, event)).Some?
      ensures Model() == if ok then old(Recorded(Model(), job, event)).value else old(Model())
    {
      var key := EventKey(job.id, job.statusVersion);
      if key in events || key in outbox || job.operationID !in operations { return false; }
      operations := operations[job.operationID :=
        WithJobStatus(operations[job.operationID], job.status, job.errorType, event.createdAt)];
      jobs := jobs[job.id := job];
      events := events[key := event];
      outbox := outbox[key := NewOutboxRecord(job, event)];
      ok := true;
    }

    method Perform(job: AIJob, decision: Decision) returns (outcome: Outcome)
      modifies this
      ensures Reply(Model(), outcome) == old(CarryOut(Model(), job, decision))
    {
      match decision
      case Leave => outcome := Unchanged(job);
      case Refuse => outcome := Failure;
      case NotCancelable => outcome := CannotCancel;
      case Renew(renewed) =>
        jobs := jobs[renewed.id := renewed];
        outcome := Changed(renewed);
      case Record(updated, event) =>
        var ok := Save(updated, event);
        outcome := if ok then Changed(updated) else Failure;
    }

    method Transition(id: string, expectedVersion: int, fenceToken: int, to: Status, reason: string, at: Time)
      returns (outcome: Outcome)
      modifies this
      ensures Reply(Model(), outcome) == old(Act(Model(), id, Transitioning(expectedVersion, fenceToken, to, reason), at))
    {
      if id !in jobs { return Missing; }
      outcome := Perform(jobs[id], DecideTransition(jobs[id], expectedVersion, fenceToken, to, reason, at));
    }

    method Requeue(id: string, expectedVersion: int, fenceToken: int, reason: string, eligibleAt: Time, at: Time)
      returns (outcome: Outcome)
      modifies this
      ensures Reply(Model(), outcome) == old(Act(Model(), id, Requeuing(expectedVersion, fenceToken, reason, eligibleAt), at))
    {
      if id !in jobs { return Missing; }
      outcome := Perform(jobs[id], DecideRequeue(jobs[id], expectedVersion, fenceToken, reason, eligibleAt, at));
    }

    method ExtendLease(id: string, expectedVersion: int, fenceToken: int, token: string, leaseUntil: Time, at: Time)
      returns (outcome: Outcome)
      modifies this
      ensures Reply(Model(), outcome) == old(Act(Model(), id, Extending(expectedVersion, fenceToken, token, leaseUntil), at))
    {
      if id !in jobs { return Missing; }
      outcome := Perform(jobs[id], DecideExtend(jobs[id], expectedVersion, fenceToken, token, leaseUntil, at));
    }

    method Cancel(id: string, reason: string, at: Time) returns (outcome: Outcome)
      requires Billing.WellFormed(billing.Model())
      modifies this, billing
      ensures Billing.WellFormed(billing.Model())
      ensures Reply(Model(), outcome) == old(Act(Model(), id, Step.Canceling(reason), at))
      ensures billing.Model() == AfterCancel(old(billing.Model()), outcome, at)
    {
      if id !in jobs { return Missing; }
      outcome := Perform(jobs[id], DecideCancel(jobs[id], reason, at));
      if outcome.Changed? && outcome.job.status == Canceled {
        billing.ReleaseForOperation(outcome.job.operationID, CANCELED_BEFORE_DISPATCH, at);
      }
    }

    method ClientCancel(id: string, owner: Scope, at: Time) returns (outcome: Outcome)
      requires Billing.WellFormed(billing.Model())
      modifies this, billing
      ensures Billing.WellFormed(billing.Model())
      ensures Reply(Model(), outcome) ==
              if id in old(jobs) && !OwnerMatches(old(jobs)[id].scope, owner) then old(Reply(Model(), Missing))
              else old(Act(Model(), id, Step.Canceling(CLIENT_REASON), at))
      ensures billing.Model() == AfterCancel(old(billing.Model()), outcome, at)
    {
      if id in jobs && !OwnerMatches(jobs[id].scope, owner) { return Missing; }
      outcome := Cancel(id, CLIENT_REASON, at);
    }

    method FindReplay(job: AIJob) returns (id: Option<string>)
      ensures id.Some? ==> Replays(jobs, job, id.value)
      ensures id.None? ==> forall other :: !Replays(jobs, job, other)
    {
      var left := jobs.Keys;
      while left != {}
        invariant left <= jobs.Keys && forall other :: Replays(jobs, job, other) ==> other in left
        decreases |left|
      {
        var other :| other in left;
        if SameIdempotencyScope(jobs[other], job) { return Some(other); }
        left := left - {other};
      }
      id := None;
    }

    /** Creates a job with its operation and its billing hold, or nothing at all. */
    method CreateJob(job: AIJob, limits: Limits, admission: Billing.Admission) returns (outcome: Outcome)
      requires OnceEach(jobs) && Billing.WellFormed(billing.Model())
      requires job.operationID == admission.hold.operationID
      modifies this, billing
      ensures Billing.WellFormed(billing.Model())
      ensures outcome == if old(Create(Model(), job, limits)).outcome.Changed? && !old(Billing.Admits(billing.Model(), admission))
                         then Failure else old(Create(Model(), job, limits)).outcome
      ensures Model() == if outcome.Changed? then old(Create(Model(), job, limits)).store else old(Model())
      ensures billing.Model() == if outcome.Changed? then old(Billing.Admitted(billing.Model(), admission)) else old(billing.Model())
    {
      if limits.profile < 0 || limits.tenant < 0 || limits.principal < 0 { return Failure; }
      var replay := FindReplay(job);
      if replay.Some? {
        forall id | Replays(jobs, job, id) ensures id == replay.value { ReplayIsUnique(jobs, job, id, replay.value); }
        return Unchanged(jobs[replay.value]);
      }
      var counts := CountJobs(jobs, job.scope);
      if Exceeded(limits, counts) { return Full; }
      var created := Insert(Model(), job);
      if !created.outcome.Changed? { return Failure; }
      var admitted := billing.Admit(admission);
      if !admitted { return Failure; }
      jobs, events, outbox, operations :=
        created.store.jobs, created.store.events, created.store.outbox, created.store.operations;
      outcome := created.outcome;
    }

    method ListJobs(chosen: AIJob -> bool) returns (list: seq<AIJob>)
      requires forall id :: id in jobs ==> jobs[id].id == id
      ensures ListsJobs(list, Model(), chosen)
    {
      list := [];
      var left := jobs.Keys;
      while left != {}
        invariant left <= jobs.Keys && DistinctIds(list)
        invariant forall job :: job in list <==> job.id in jobs && jobs[job.id] == job && chosen(job) && job.id !in left
        decreases |left|
      {
        var id :| id in left;
        if chosen(jobs[id]) { list := list + [jobs[id]]; }
        left := left - {id};
      }
    }

    method ListActivities() returns (activities: seq<Activity>)
      ensures ListsActivities(activities, Model())
    {
      var keys: seq<EventKey> := [];
      var left := events.Keys;
      while left != {}
        invariant left <= events.Keys && Distinct(keys)
        invariant forall key :: key in keys <==> IsDispatch(Model(), key) && key !in left
        decreases |left|
      {
        var key :| key in left;
        if IsDispatch(Model(), key) { keys := keys + [key]; }
        left := left - {key};
      }
      assert ListsKeys(keys, Model());
      activities := Map(ActivityOf(Model()), keys);
    }

    /** Claims the picks in order, and no more than the limit. */
    method ClaimLocked(picks: seq<AIJob>, lease: Lease, now: Time, limit: int) returns (claimed: seq<AIJob>, failed: bool)
      modifies this
      ensures Batch(Model(), claimed, failed) == old(ClaimAll(Model(), UpTo(picks, limit), lease, now))
    {
      claimed, failed := ClaimFirst(picks, lease, now, limit, UpTo(picks, limit));
    }

    method ClaimFirst(picks: seq<AIJob>, lease: Lease, now: Time, limit: int, ghost kept: seq<AIJob>)
      returns (claimed: seq<AIJob>, failed: bool)
      requires kept <= picks && |kept| <= Max(limit, 0) && (kept == picks || |kept| >= limit)
      modifies this
      ensures Batch(Model(), claimed, failed) == old(ClaimAll(Model(), kept, lease, now))
    {
      claimed, failed := [], false;
      var i := 0;
      ClaimRestAll(Model(), kept, lease, now);
      ghost var whole := ClaimAll(Model(), kept, lease, now);
      while i < |picks| && |claimed| < limit
        invariant 0 <= i <= |kept| && |claimed| == i && !failed
        invariant ClaimRest(Model(), claimed, kept, i, lease, now) == whole
      {
        assert i < |kept| && picks[i] == kept[i];
        ClaimRestStep(Model(), claimed, kept, i, lease, now);
        var outcome := PerformClaim(picks[i], lease, now);
        if !outcome.Changed? { return claimed, true; }
        claimed := claimed + [outcome.job];
        i := i + 1;
      }
      ClaimRestStep(Model(), claimed, kept, i, lease, now);
    }

    method PerformClaim(pick: AIJob, lease: Lease, now: Time) returns (outcome: Outcome)
      modifies this
      ensures Reply(Model(), outcome) == old(AfterClaim(Model(), pick, lease, now))
    {
      outcome := Perform(pick, DecideClaim(pick, lease, now));
    }

    method ClaimChosen(chosen: AIJob -> bool, lease: Lease, now: Time, limit: nat) returns (claimed: seq<AIJob>, failed: bool)
      requires Valid(Model()) && CreatedBy(Model(), now) && RealLease(lease, now)
      requires forall job :: chosen(job) ==> ReadyForClaim(job, now)
      modifies this
      ensures Claims(old(Model()), chosen, lease, now, limit, Batch(Model(), claimed, failed))
    {
      forall id | id in jobs ensures jobs[id].id == id { StoredFits(Model(), id); }
      var candidates := ListJobs(chosen);
      var all := ListJobs(Anything());
      var activities := ListActivities();
      ghost var lists := Lists(candidates, all, activities);
      ClaimsRankedPicks(lists, Model(), chosen, lease, now, limit);
      PicksAreCandidates(lists, Model(), chosen, now, limit);
      var picks := Rank(candidates, all, activities, now, limit);
      claimed, failed := ClaimLocked(picks, lease, now, limit);
    }

    method ClaimQueued(lease: Lease, now: Time, limit: int) returns (claimed: seq<AIJob>, failed: bool)
      requires Valid(Model()) && CreatedBy(Model(), now)
      modifies this
      ensures if limit <= 0 || Trim(lease.workerID) == "" || !RealLease(lease, now)
              then Model() == old(Model()) && claimed == [] && !failed
              else Claims(old(Model()), ReadyAt(now), lease, now, limit, Batch(Model(), claimed, failed))
    {
      if limit <= 0 || Trim(lease.workerID) == "" || Trim(lease.token) == "" || lease.until <= now { return [], false; }
      claimed, failed := ClaimChosen(ReadyAt(now), lease, now, limit);
    }

    method ClaimByReferences(references: seq<Reference>, lease: Lease, now: Time, limit: int)
      returns (claimed: seq<AIJob>, failed: bool)
      requires Valid(Model()) && CreatedBy(Model(), now)
      modifies this
      ensures if limit <= 0 || references == [] || Trim(lease.workerID) == "" || !RealLease(lease, now)
              then Model() == old(Model()) && claimed == [] && !failed
              else Claims(old(Model()), ReferencedAt(Wanted(references), now), lease, now, limit, Batch(Model(), claimed, failed))
    {
      if limit <= 0 || references == [] || Trim(lease.workerID) == "" || Trim(lease.token) == "" || lease.until <= now {
        return [], false;
      }
      var wanted: map<string, int> := map[];
      for i := 0 to |references|
        invariant wanted == Wanted(references[..i])
      {
        assert references[..i + 1][..i] == references[..i];
        if Trim(references[i].jobID) != "" && references[i].statusVersion > 0 {
          wanted := wanted[references[i].jobID := references[i].statusVersion];
        }
      }
      assert references[..|references|] == references;
      claimed, failed := ClaimChosen(ReferencedAt(wanted, now), lease, now, limit);
    }
  }

  const CANCELED_BEFORE_DISPATCH := "job_canceled_before_dispatch"
}
