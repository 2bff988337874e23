/** Admission of new jobs: idempotent replays, and limits on how many jobs of one owner may wait. */
module Admission {
  import opened Text
  import opened JobModel
  import opened JobStore

  datatype Limits = Limits(profile: int, tenant: int, principal: int)

  datatype Counts = Counts(profile: int, tenant: int, principal: int)

  predicate Waits(job: AIJob) {
    job.status == Queued || job.status == Dispatching
  }

  predicate SameProfile(a: Scope, b: Scope) {
    Trim(a.profileScope) == Trim(b.profileScope)
  }

  predicate SameTenant(a: Scope, b: Scope) {
    SameProfile(a, b) && Trim(a.tenantID) == Trim(b.tenantID)
  }

  predicate SamePrincipal(a: Scope, b: Scope) {
    SameTenant(a, b) && PrincipalKey(a) == PrincipalKey(b)
  }

  predicate Exceeded(limits: Limits, counts: Counts) {
    || (limits.profile > 0 && counts.profile >= limits.profile)
    || (limits.tenant > 0 && counts.tenant >= limits.tenant)
    || (limits.principal > 0 && counts.principal >= limits.principal)
  }

  predicate WaitsWith(jobs: map<string, AIJob>, id: string, scope: Scope, same: (Scope, Scope) -> bool) {
    id in jobs && Waits(jobs[id]) && same(jobs[id].scope, scope)
  }

  /** The waiting jobs of one owner. */
  ghost function Waiting(jobs: map<string, AIJob>, scope: Scope, same: (Scope, Scope) -> bool): set<string> {
    set id | id in jobs && WaitsWith(jobs, id, scope, same)
  }

  ghost function CountsFor(jobs: map<string, AIJob>, scope: Scope): Counts {
    Counts(|Waiting(jobs, scope, SameProfile)|, |Waiting(jobs, scope, SameTenant)|, |Waiting(jobs, scope, SamePrincipal)|)
  }

  ghost function WaitingIn(
    ids: set<string>, jobs: map<string, AIJob>, scope: Scope, same: (Scope, Scope) -> bool): set<string>
  {
    set id | id in ids && WaitsWith(jobs, id, scope, same)
  }

  lemma {:induction false} CountOneMore(
    ids: set<string>, jobs: map<string, AIJob>, scope: Scope, same: (Scope, Scope) -> bool, id: string)
    requires id in ids
    ensures |WaitingIn(ids, jobs, scope, same)|
         == |WaitingIn(ids - {id}, jobs, scope, same)| + if WaitsWith(jobs, id, scope, same) then 1 else 0
  {
    var rest := WaitingIn(ids - {id}, jobs, scope, same);
    if WaitsWith(jobs, id, scope, same) {
      assert WaitingIn(ids, jobs, scope, same) == rest + {id};
    } else {
      assert WaitingIn(ids, jobs, scope, same) == rest;
    }
  }

  lemma {:induction false} CountAll(jobs: map<string, AIJob>, scope: Scope, same: (Scope, Scope) -> bool)
    ensures |WaitingIn({}, jobs, scope, same)| == 0
    ensures WaitingIn(jobs.Keys, jobs, scope, same) == Waiting(jobs, scope, same)
  {}

  /** One pass over the jobs, each compared level by level. */
  method CountJobs(jobs: map<string, AIJob>, candidate: Scope) returns (counts: Counts)
    ensures counts == CountsFor(jobs, candidate)
  {
    var profile, tenant, principal := 0, 0, 0;
    var left := jobs.Keys;
    CountAll(jobs, candidate, SameProfile);
    CountAll(jobs, candidate, SameTenant);
    CountAll(jobs, candidate, SamePrincipal);
    while left != {}
      invariant left <= jobs.Keys
      invariant profile + |WaitingIn(left, jobs, candidate, SameProfile)| == |Waiting(jobs, candidate, SameProfile)|
      invariant tenant + |WaitingIn(left, jobs, candidate, SameTenant)| == |Waiting(jobs, candidate, SameTenant)|
      invariant principal + |WaitingIn(left, jobs, candidate, SamePrincipal)| == |Waiting(jobs, candidate, SamePrincipal)|
      decreases |left|
    {
      var id :| id in left;
      CountOneMore(left, jobs, candidate, SameProfile, id);
      CountOneMore(left, jobs, candidate, SameTenant, id);
      CountOneMore(left, jobs, candidate, SamePrincipal, id);
      left := left - {id};
      var job := jobs[id];
      if !Waits(job) || Trim(job.scope.profileScope) != Trim(candidate.profileScope) { continue; }
      profile := profile + 1;
      if Trim(job.scope.tenantID) != Trim(candidate.tenantID) { continue; }
      tenant := tenant + 1;
      if PrincipalKey(job.scope) == PrincipalKey(candidate) { principal := principal + 1; }
    }
    counts := Counts(profile, tenant, principal);
  }

  ghost predicate Replays(jobs: map<string, AIJob>, job: AIJob, id: string) {
    id in jobs && SameIdempotencyScope(jobs[id], job)
  }

  /** Creates a job, unless the client repeats a request or an owner has too many jobs waiting. */
  ghost function Create(store: Store, job: AIJob, limits: Limits): Reply {
    if limits.profile < 0 || limits.tenant < 0 || limits.principal < 0 then Reply(store, Failure)
    else if id :| Replays(store.jobs, job, id) then Reply(store, Unchanged(store.jobs[id]))
    else if Exceeded(limits, CountsFor(store.jobs, job.scope)) then Reply(store, Full)
    else Insert(store, job)
  }

  /** A client request is stored at most once. */
  ghost predicate OnceEach(jobs: map<string, AIJob>) {
    forall a, b :: a in jobs && b in jobs && a != b ==> !SameIdempotencyScope(jobs[a], jobs[b])
  }

  lemma ReplayIsUnique(jobs: map<string, AIJob>, job: AIJob, a: string, b: string)
    requires OnceEach(jobs) && Replays(jobs, job, a) && Replays(jobs, job, b)
    ensures a == b
  {}

  lemma SameScopeIsSymmetric(a: AIJob, b: AIJob)
    ensures SameIdempotencyScope(a, b) <==> SameIdempotencyScope(b, a)
  {}

  lemma {:induction false} CreateKeepsOnceEach(store: Store, job: AIJob, limits: Limits)
    requires OnceEach(store.jobs)
    ensures OnceEach(Create(store, job, limits).store.jobs)
  {
    var next := Create(store, job, limits).store;
    if next != store {
      forall id | id in store.jobs ensures !SameIdempotencyScope(store.jobs[id], job) && !SameIdempotencyScope(job, store.jobs[id]) {
        assert !Replays(store.jobs, job, id);
        SameScopeIsSymmetric(store.jobs[id], job);
      }
    }
  }

  /** Replacing a job by one with the same scope and submission. */
  lemma {:induction false} ChangeKeepsOnceEach(jobs: map<string, AIJob>, id: string, job: AIJob)
    requires OnceEach(jobs) && id in jobs && job.scope == jobs[id].scope && job.submission == jobs[id].submission
    ensures OnceEach(jobs[id := job])
  {}
}
