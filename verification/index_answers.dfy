/** What the ready index holds after any registrations, what an entry says of its job, and what is counted. */
module IndexAnswers {
  import opened Text
  import opened JobModel
  import opened FairQueue
  import opened JobStore
  import opened JobRuns
  import opened Admission
  import opened ReadyIndex
  import opened StoreAnswers

  // Registrations.

  /** The registrations one after another. */
  function Registers(entries: seq<Entry>): Index {
    if entries == [] then map[] else AfterRegister(Registers(entries[..|entries| - 1]), entries[|entries| - 1]).0
  }

  /** An entry that can be stored names its job, tenant and principal, a version, and the two times of a waiting job. */
  predicate Storable(e: Entry) {
    && Trim(e.jobID) != "" && Trim(e.scope.tenantID) != "" && Trim(e.scope.principalID) != ""
    && e.statusVersion >= 1 && e.readyAt != 0 && e.createdAt != 0 && (e.status == Queued || e.status == Dispatching)
  }

  /** The entry with all its text trimmed. */
  function Tidy(e: Entry): Entry {
    var columns := Columns(e.scope);
    Entry(Trim(e.jobID), e.status, e.statusVersion, e.fenceToken,
          Scope(columns[0], columns[1], columns[2], columns[3], columns[4], columns[5], columns[6]),
          e.priority, e.readyAt, e.createdAt)
  }

  predicate Offered(entries: seq<Entry>, k: nat, id: string) {
    k < |entries| && Storable(entries[k]) && Trim(entries[k].jobID) == id
  }

  /** Entry `k` has the highest version of its job, and is the first with it. */
  ghost predicate Newest(entries: seq<Entry>, k: nat, id: string) {
    && Offered(entries, k, id)
    && (forall j: nat :: Offered(entries, j, id) ==> entries[j].statusVersion <= entries[k].statusVersion)
    && (forall j: nat :: j < k && Offered(entries, j, id) ==> entries[j].statusVersion < entries[k].statusVersion)
  }

  lemma TidyIsNormal(e: Entry)
    ensures Normalize(e) == Tidy(e) && (ValidEntry(Tidy(e)) <==> Storable(e))
  {}

  /** An entry replaces an older one of its job and nothing else. */
  ghost predicate Replaces(index: Index, e: Entry, id: string) {
    Storable(e) && Trim(e.jobID) == id && (id in index ==> index[id].statusVersion < e.statusVersion)
  }

  ghost predicate TakesIn(index: Index, e: Entry, next: Index, id: string) {
    if Replaces(index, e, id) then id in next && next[id] == Tidy(e)
    else (id in next <==> id in index) && (id in index ==> next[id] == index[id])
  }

  lemma {:induction false} EachRegistration(index: Index, e: Entry)
    ensures var (next, answer) := AfterRegister(index, e);
            var id := Trim(e.jobID);
            && (answer == Invalid <==> !Storable(e))
            && (Storable(e) ==>
                  && (answer == Outdated <==> id in index && index[id].statusVersion > e.statusVersion)
                  && (answer == Conflict <==> id in index && index[id].statusVersion == e.statusVersion && index[id] != Tidy(e)))
            && next == (if answer == Registered then index[id := Tidy(e)] else index)
            && forall other :: TakesIn(index, e, next, other)
  {
    TidyIsNormal(e);
  }

  ghost predicate HoldsNewest(entries: seq<Entry>, index: Index, id: string) {
    if id in index then exists k: nat :: Newest(entries, k, id) && index[id] == Tidy(entries[k])
    else forall k: nat :: !Offered(entries, k, id)
  }

  /** Whatever order the registrations come in, the index holds the newest version of every job, and of several entries with
      that version the first. */
  lemma {:induction false} RegistrationsKeepTheNewest(entries: seq<Entry>, id: string)
    ensures HoldsNewest(entries, Registers(entries), id)
  {
    if entries != [] {
      var n := |entries| - 1;
      RegistrationsKeepTheNewest(entries[..n], id);
      EachRegistration(Registers(entries[..n]), entries[n]);
      OneMoreRegistration(entries, n, Registers(entries[..n]), Registers(entries), id);
    }
  }

  lemma OfferedBefore(entries: seq<Entry>, n: nat, k: nat, id: string)
    requires |entries| == n + 1
    ensures Offered(entries, k, id) <==> Offered(entries[..n], k, id) || (k == n && Offered(entries, n, id))
  {}

  lemma {:induction false} NewestStays(entries: seq<Entry>, n: nat, k: nat, id: string)
    requires |entries| == n + 1 && Newest(entries[..n], k, id)
    requires Offered(entries, n, id) ==> entries[n].statusVersion <= entries[k].statusVersion
    ensures Newest(entries, k, id)
  {
    forall j: nat ensures Offered(entries, j, id) <==> Offered(entries[..n], j, id) || (j == n && Offered(entries, n, id)) {
      OfferedBefore(entries, n, j, id);
    }
  }

  lemma {:induction false} LastIsNewest(entries: seq<Entry>, n: nat, id: string)
    requires |entries| == n + 1 && Offered(entries, n, id)
    requires forall j: nat :: Offered(entries[..n], j, id) ==> entries[j].statusVersion < entries[n].statusVersion
    ensures Newest(entries, n, id)
  {
    forall j: nat ensures Offered(entries, j, id) <==> Offered(entries[..n], j, id) || (j == n && Offered(entries, n, id)) {
      OfferedBefore(entries, n, j, id);
    }
  }

  lemma {:induction false} OneMoreRegistration(entries: seq<Entry>, n: nat, index: Index, next: Index, id: string)
    requires |entries| == n + 1 && HoldsNewest(entries[..n], index, id) && TakesIn(index, entries[n], next, id)
    ensures HoldsNewest(entries, next, id)
  {
    if id in index {
      var k: nat :| Newest(entries[..n], k, id) && index[id] == Tidy(entries[..n][k]);
      if Offered(entries, n, id) && entries[n].statusVersion > entries[k].statusVersion {
        LastIsNewest(entries, n, id);
      } else {
        NewestStays(entries, n, k, id);
      }
    } else if Offered(entries, n, id) {
      LastIsNewest(entries, n, id);
    } else {
      forall k: nat ensures !Offered(entries, k, id) { OfferedBefore(entries, n, k, id); }
    }
  }

  // Entries and their jobs.

  lemma TrimmedColumns(s: Scope)
    ensures Columns(TrimScope(s)) == Columns(s) && forall i :: 0 <= i < 7 ==> Trimmed(Columns(s)[i])
  {}

  lemma {:induction false} EntryIsReadyWithItsJob(job: AIJob)
    requires Fit(job) && job.status in {Queued, Dispatching}
    ensures forall now :: ReadyForClaim(job, now) <==> ReadyTime(job) <= now
    ensures ReadyTime(job) > 0
  {}

  /** Exactly the waiting jobs with an id, a tenant and a principal have an entry; it says what the job says, and is ready
      exactly when the job can be claimed. */
  lemma {:induction false} EntriesTellTheirJob(job: AIJob)
    requires Fit(job)
    ensures NewEntry(job).Some?
       <==> job.status in {Queued, Dispatching} && Trim(job.id) != "" && Trim(job.scope.tenantID) != "" && Trim(job.scope.principalID) != ""
    ensures NewEntry(job).Some? ==>
              var e := NewEntry(job).value;
              && e.jobID == Trim(job.id) && e.status == job.status && e.statusVersion == job.statusVersion
              && e.fenceToken == job.fenceToken && e.priority == job.priority && e.createdAt == job.createdAt
              && Columns(e.scope) == Columns(job.scope) && (forall now :: ReadyForClaim(job, now) <==> e.readyAt <= now)
  {
    TrimmedColumns(job.scope);
    if job.status in {Queued, Dispatching} { EntryIsReadyWithItsJob(job); }
  }

  // Counting.

  function ColumnsOf(level: ScopeLevel): nat {
    match level
    case AllScopes => 0
    case ProfileScopes => 1
    case TenantScopes => 2
    case PrincipalScopes => 7
  }

  lemma {:induction false} ColumnsByLevel(a: Scope, b: Scope, level: ScopeLevel)
    requires Separable(a) && Separable(b)
    ensures level == AllScopes || ScopeKey(level, a) == ScopeKey(level, b)
       <==> Columns(a)[..ColumnsOf(level)] == Columns(b)[..ColumnsOf(level)]
  {
    KeysNameColumns(a, b);
    assert Columns(a)[..7] == Columns(a) && Columns(b)[..7] == Columns(b);
    assert Columns(a)[..0] == [] && Columns(b)[..0] == [];
  }

  /** A count is of the entries that agree in the columns of its level. */
  lemma {:induction false} CountsGoByColumns(index: Index, level: ScopeLevel, scope: Scope)
    requires Separable(scope) && forall id :: id in index ==> Separable(index[id].scope)
    ensures JobsInScope(index, level, ScopeKey(level, scope))
         == set id | id in index && Columns(index[id].scope)[..ColumnsOf(level)] == Columns(scope)[..ColumnsOf(level)]
  {
    forall id | id in index
      ensures InScope(index, id, level, ScopeKey(level, scope))
         <==> Columns(index[id].scope)[..ColumnsOf(level)] == Columns(scope)[..ColumnsOf(level)]
    {
      ColumnsByLevel(index[id].scope, scope, level);
    }
  }
}
