/** Concurrent service calls. A call changes or reads the store in one step, then removes a reference from the index, then
    registers the job it saw; other calls may run between any two of these steps. */
module ServiceInterleavings {
  import opened Text
  import opened JobModel
  import opened JobStore
  import opened JobHistory
  import opened JobRuns
  import opened Admission
  import opened ReadyIndex
  import opened JobService
  import ServiceRuns
  import Runs = StoreRuns
  import opened StoreTheorems

  /** `inFlight` maps every unfinished call to the job it will register. */
  datatype World = World(store: Store, index: Index, inFlight: map<nat, AIJob>)

  datatype Micro =
    | Changing(call: nat, turn: Runs.Turn)
    | Reading(call: nat, id: string)
    | Dropping(call: nat, version: int)
    | Registering(call: nat)

  ghost function Stepped(w: World, micro: Micro, limits: Limits): World {
    match micro
    case Changing(call, turn) =>
      var reply := Runs.Answer(w.store, turn, limits);
      World(reply.store, w.index, if reply.outcome.Changed? then w.inFlight[call := reply.outcome.job] else w.inFlight)
    case Reading(call, id) =>
      if id in w.store.jobs then w.(inFlight := w.inFlight[call := w.store.jobs[id]]) else w
    case Dropping(call, version) =>
      if call in w.inFlight then w.(index := AfterRemove(w.index, w.inFlight[call].id, version)) else w
    case Registering(call) =>
      if call in w.inFlight then
        World(w.store, RegisterState(Cache(w.index, 0), w.inFlight[call]).index, w.inFlight - {call})
      else w
  }

  /** A call changes or reads the store once, and removes only references up to the version it will register. */
  ghost predicate ProperMicro(w: World, micro: Micro) {
    match micro
    case Changing(call, turn) =>
      && call !in w.inFlight && Runs.ProperTurn(w.store, turn)
      && (turn.move.Creating? ==> Projectable(Runs.JobOf(turn)))
    case Reading(call, id) => call !in w.inFlight
    case Dropping(call, version) => call in w.inFlight ==> version <= w.inFlight[call].statusVersion
    case Registering(_) => true
  }

  /** An earlier record of a job. */
  ghost predicate Earlier(from: AIJob, to: AIJob) {
    && from.id == to.id && from.scope == to.scope && from.priority == to.priority && from.createdAt == to.createdAt
    && from.statusVersion <= to.statusVersion
    && (from.statusVersion == to.statusVersion ==>
          from.status == to.status && from.fenceToken == to.fenceToken && from.nextEligibleAt == to.nextEligibleAt)
  }

  /** The projection of an earlier record: at the current version it may be wrong only about when a lease ends. */
  ghost predicate Tracks(e: Entry, job: AIJob) {
    && e.jobID == job.id && e.statusVersion <= job.statusVersion
    && (e.statusVersion == job.statusVersion ==>
          && Waits(job) && NewEntry(job).Some? && e.(readyAt := NewEntry(job).value.readyAt) == NewEntry(job).value
          && (job.status == Queued ==> e == NewEntry(job).value))
  }

  ghost predicate EntryTracks(jobs: map<string, AIJob>, id: string, e: Entry) {
    id in jobs && e.jobID == id && Tracks(e, jobs[id])
  }

  ghost predicate Seen(jobs: map<string, AIJob>, job: AIJob) {
    job.id in jobs && Earlier(job, jobs[job.id]) && Projectable(job) && Fit(job)
  }

  ghost predicate Owed(inFlight: map<nat, AIJob>, job: AIJob) {
    exists call :: call in inFlight && inFlight[call].id == job.id && inFlight[call].statusVersion == job.statusVersion
  }

  ghost predicate Indexed(index: Index, job: AIJob) {
    job.id in index && index[job.id].statusVersion == job.statusVersion
  }

  ghost predicate EntriesTrack(jobs: map<string, AIJob>, index: Index) {
    forall id :: id in index ==> EntryTracks(jobs, id, index[id])
  }

  ghost predicate CallsSaw(jobs: map<string, AIJob>, inFlight: map<nat, AIJob>) {
    forall call :: call in inFlight ==> Seen(jobs, inFlight[call])
  }

  ghost predicate Provided(index: Index, inFlight: map<nat, AIJob>, job: AIJob) {
    Waits(job) ==> Indexed(index, job) || Owed(inFlight, job)
  }

  ghost predicate AllProvided(jobs: map<string, AIJob>, index: Index, inFlight: map<nat, AIJob>) {
    forall id :: id in jobs ==> Provided(index, inFlight, jobs[id])
  }

  /** Entries and unfinished calls track the store, and every waiting job has an entry or a call that owes it one. */
  ghost predicate InStep(jobs: map<string, AIJob>, index: Index, inFlight: map<nat, AIJob>) {
    EntriesTrack(jobs, index) && CallsSaw(jobs, inFlight) && AllProvided(jobs, index, inFlight)
  }

  ghost predicate Sane(w: World, at: Time) {
    Ground(w.store, at) && InStep(w.store.jobs, w.index, w.inFlight)
  }

  lemma EvolvedIsEarlier(from: AIJob, to: AIJob, at: Time)
    requires Evolved(from, to, at)
    ensures Earlier(from, to)
  {}

  lemma {:induction false} TracksLater(e: Entry, from: AIJob, to: AIJob)
    requires Tracks(e, from) && Earlier(from, to) && Projectable(to) && Fit(to)
    ensures Tracks(e, to)
  {}

  lemma {:induction false} ProjectionTracks(from: AIJob, to: AIJob)
    requires Earlier(from, to) && Projectable(from) && Fit(from) && Projectable(to) && Fit(to) && Waits(from)
    ensures NewEntry(from).Some? && Tracks(NewEntry(from).value, to)
  {
    WaitingJobsProject(from);
    if from.statusVersion == to.statusVersion { WaitingJobsProject(to); }
  }

  // Changing the store.

  lemma {:induction false} ChangeKeepsEntries(jobs: map<string, AIJob>, index: Index, job: AIJob)
    requires EntriesTrack(jobs, index) && Projectable(job) && Fit(job) && (job.id in jobs ==> Earlier(jobs[job.id], job))
    ensures EntriesTrack(jobs[job.id := job], index)
  {
    forall id | id in index ensures EntryTracks(jobs[job.id := job], id, index[id]) {
      assert EntryTracks(jobs, id, index[id]);
      if id == job.id { TracksLater(index[id], jobs[id], job); }
    }
  }

  lemma {:induction false} ChangeKeepsCalls(jobs: map<string, AIJob>, inFlight: map<nat, AIJob>, job: AIJob, call: nat)
    requires CallsSaw(jobs, inFlight) && Projectable(job) && Fit(job) && (job.id in jobs ==> Earlier(jobs[job.id], job))
    ensures CallsSaw(jobs[job.id := job], inFlight[call := job])
  {}

  lemma OwedStays(inFlight: map<nat, AIJob>, call: nat, added: AIJob, job: AIJob)
    requires Owed(inFlight, job) && call !in inFlight
    ensures Owed(inFlight[call := added], job)
  {
    var c :| c in inFlight && inFlight[c].id == job.id && inFlight[c].statusVersion == job.statusVersion;
    assert inFlight[call := added][c] == inFlight[c];
  }

  lemma OwedByCall(inFlight: map<nat, AIJob>, call: nat, job: AIJob)
    ensures Owed(inFlight[call := job], job)
  {
    assert inFlight[call := job][call] == job;
  }

  /** A job that moved on or was renewed or created: entries and unfinished calls still track it, and the call owes it. */
  lemma {:induction false} ChangeStaysInStep(
    jobs: map<string, AIJob>, index: Index, inFlight: map<nat, AIJob>, job: AIJob, call: nat)
    requires InStep(jobs, index, inFlight) && call !in inFlight && Projectable(job) && Fit(job)
    requires job.id in jobs ==> Earlier(jobs[job.id], job)
    ensures InStep(jobs[job.id := job], index, inFlight[call := job])
  {
    ChangeKeepsEntries(jobs, index, job);
    ChangeKeepsCalls(jobs, inFlight, job, call);
    OwedByCall(inFlight, call, job);
    forall id | id in jobs && id != job.id ensures Provided(index, inFlight[call := job], jobs[id]) {
      assert Provided(index, inFlight, jobs[id]);
      if Owed(inFlight, jobs[id]) { OwedStays(inFlight, call, job, jobs[id]); }
    }
  }

  /** What one store change does to the jobs. */
  ghost predicate OneChange(jobs: map<string, AIJob>, next: map<string, AIJob>, outcome: Outcome) {
    if outcome.Changed? then
      && next == jobs[outcome.job.id := outcome.job]
      && (outcome.job.id in jobs ==> Earlier(jobs[outcome.job.id], outcome.job))
    else next == jobs
  }

  lemma {:induction false} ActIsOneChange(store: Store, id: string, step: Step, at: Time)
    requires Ground(store, at) && ProperAt(store, id, step, at)
    ensures OneChange(store.jobs, Act(store, id, step, at).store.jobs, Act(store, id, step, at).outcome)
  {
    if Act(store, id, step, at).outcome.Changed? {
      OutcomeOfAct(store, id, step, at);
      ActEvolves(store, id, step, at);
      EvolvedIsEarlier(store.jobs[id], Act(store, id, step, at).outcome.job, at);
    } else {
      UnchangedStore(store, id, step, at);
    }
  }

  lemma {:induction false} TurnIsOneChange(store: Store, turn: Runs.Turn, limits: Limits)
    requires Ground(store, turn.at) && Runs.ProperTurn(store, turn)
    requires turn.move.Creating? ==> Projectable(Runs.JobOf(turn))
    ensures var reply := Runs.Answer(store, turn, limits);
            OneChange(store.jobs, reply.store.jobs, reply.outcome) && Ground(reply.store, turn.at)
  {
    if turn.move.Acting? {
      ActIsOneChange(store, turn.move.id, turn.move.step, turn.at);
      ServiceRuns.ActKeepsGround(store, turn.move.id, turn.move.step, turn.at);
    } else {
      CreationIsOneChange(store, turn, limits);
    }
  }

  lemma {:induction false} CreationIsOneChange(store: Store, turn: Runs.Turn, limits: Limits)
    requires Ground(store, turn.at) && Runs.ProperTurn(store, turn)
    requires turn.move.Creating? && Projectable(Runs.JobOf(turn))
    ensures var reply := Runs.Answer(store, turn, limits);
            OneChange(store.jobs, reply.store.jobs, reply.outcome) && Ground(reply.store, turn.at)
  {
    ValidIsUsable(store);
    CreateOutcome(store, Runs.JobOf(turn), limits);
    Runs.CreateKeeps(store, turn, limits);
    ServiceRuns.CreatedStaysProjectable(store, Runs.JobOf(turn), limits);
  }

  lemma {:induction false} ChangingKeepsSane(w: World, micro: Micro, limits: Limits)
    requires micro.Changing? && Sane(w, micro.turn.at) && ProperMicro(w, micro)
    ensures Sane(Stepped(w, micro, limits), micro.turn.at)
  {
    var reply := Runs.Answer(w.store, micro.turn, limits);
    TurnIsOneChange(w.store, micro.turn, limits);
    if reply.outcome.Changed? {
      StoredIsUsable(reply.store, reply.outcome.job.id, micro.turn.at);
      ChangeStaysInStep(w.store.jobs, w.index, w.inFlight, reply.outcome.job, micro.call);
    }
  }

  lemma {:induction false} StoredIsUsable(store: Store, id: string, at: Time)
    requires Ground(store, at) && id in store.jobs
    ensures store.jobs[id].id == id && Projectable(store.jobs[id]) && Fit(store.jobs[id])
  {
    ValidIsUsable(store);
  }

  // The other steps.

  lemma {:induction false} ReadingStaysInStep(
    jobs: map<string, AIJob>, index: Index, inFlight: map<nat, AIJob>, call: nat, job: AIJob)
    requires InStep(jobs, index, inFlight) && call !in inFlight && Projectable(job) && Fit(job)
    requires job.id in jobs && jobs[job.id] == job
    ensures InStep(jobs, index, inFlight[call := job])
  {
    ChangeStaysInStep(jobs, index, inFlight, job, call);
    assert jobs[job.id := job] == jobs;
  }

  lemma {:induction false} DroppingKeepsEntries(jobs: map<string, AIJob>, index: Index, id: string, version: int)
    requires EntriesTrack(jobs, index)
    ensures EntriesTrack(jobs, AfterRemove(index, id, version))
  {
    forall other | other in AfterRemove(index, id, version)
      ensures EntryTracks(jobs, other, AfterRemove(index, id, version)[other])
    {
      assert EntryTracks(jobs, other, index[other]);
    }
  }

  /** What a call removes it owes, if it is still the current version. */
  lemma {:induction false} DroppedIsOwed(index: Index, inFlight: map<nat, AIJob>, call: nat, version: int, job: AIJob)
    requires Provided(index, inFlight, job) && call in inFlight && version <= inFlight[call].statusVersion
    requires inFlight[call].id == job.id ==> inFlight[call].statusVersion <= job.statusVersion
    ensures Provided(AfterRemove(index, inFlight[call].id, version), inFlight, job)
  {}

  lemma {:induction false} DroppingStaysInStep(
    jobs: map<string, AIJob>, index: Index, inFlight: map<nat, AIJob>, call: nat, version: int)
    requires InStep(jobs, index, inFlight) && call in inFlight && version <= inFlight[call].statusVersion
    requires forall id :: id in jobs ==> jobs[id].id == id
    ensures InStep(jobs, AfterRemove(index, inFlight[call].id, version), inFlight)
  {
    DroppingKeepsEntries(jobs, index, inFlight[call].id, version);
    assert Seen(jobs, inFlight[call]);
    forall id | id in jobs ensures Provided(AfterRemove(index, inFlight[call].id, version), inFlight, jobs[id]) {
      assert Provided(index, inFlight, jobs[id]);
      DroppedIsOwed(index, inFlight, call, version, jobs[id]);
    }
  }

  /** Registering leaves an entry of at least the registered version, and of at least the version that was there. */
  lemma {:induction false} RegistrationTracks(index: Index, job: AIJob, jobs: map<string, AIJob>)
    requires Seen(jobs, job) && Waits(job) && EntriesTrack(jobs, index)
    requires Projectable(jobs[job.id]) && Fit(jobs[job.id])
    ensures var next := RegisterState(Cache(index, 0), job).index;
            && job.id in next && next[job.id].statusVersion >= job.statusVersion && next == index[job.id := next[job.id]]
            && (job.id in index ==> next[job.id].statusVersion >= index[job.id].statusVersion)
            && EntryTracks(jobs, job.id, next[job.id])
  {
    WaitingJobsProject(job);
    ProjectionTracks(job, jobs[job.id]);
    if job.id in index { assert EntryTracks(jobs, job.id, index[job.id]); }
  }

  /** What registering a waiting job does to the index. */
  ghost predicate Registers(jobs: map<string, AIJob>, index: Index, next: Index, job: AIJob) {
    && job.id in next && next == index[job.id := next[job.id]] && next[job.id].statusVersion >= job.statusVersion
    && (job.id in index ==> next[job.id].statusVersion >= index[job.id].statusVersion)
    && EntryTracks(jobs, job.id, next[job.id])
  }

  lemma {:induction false} RegisteredStaysInStep(
    jobs: map<string, AIJob>, index: Index, next: Index, inFlight: map<nat, AIJob>, call: nat)
    requires InStep(jobs, index, inFlight) && call in inFlight && Registers(jobs, index, next, inFlight[call])
    requires forall id :: id in jobs ==> jobs[id].id == id
    ensures InStep(jobs, next, inFlight - {call})
  {
    forall id | id in next ensures EntryTracks(jobs, id, next[id]) {
      if id != inFlight[call].id { assert EntryTracks(jobs, id, index[id]); }
    }
    forall id | id in jobs ensures Provided(next, inFlight - {call}, jobs[id]) {
      assert Provided(index, inFlight, jobs[id]);
      if Owed(inFlight, jobs[id]) { OwedOrCall(inFlight, call, jobs[id]); }
    }
  }

  lemma OwedOrCall(inFlight: map<nat, AIJob>, call: nat, job: AIJob)
    requires Owed(inFlight, job) && call in inFlight
    ensures Owed(inFlight - {call}, job) || (inFlight[call].id == job.id && inFlight[call].statusVersion == job.statusVersion)
  {
    var c :| c in inFlight && inFlight[c].id == job.id && inFlight[c].statusVersion == job.statusVersion;
    if c != call { assert (inFlight - {call})[c] == inFlight[c]; }
  }

  /** A call whose job no longer waits registers nothing. */
  lemma {:induction false} FinishedStaysInStep(jobs: map<string, AIJob>, index: Index, inFlight: map<nat, AIJob>, call: nat)
    requires InStep(jobs, index, inFlight) && call in inFlight && !Waits(inFlight[call])
    requires forall id :: id in jobs ==> jobs[id].id == id
    ensures InStep(jobs, index, inFlight - {call})
  {
    assert Seen(jobs, inFlight[call]);
    forall id | id in jobs ensures Provided(index, inFlight - {call}, jobs[id]) {
      assert Provided(index, inFlight, jobs[id]);
      if Owed(inFlight, jobs[id]) { OwedOrCall(inFlight, call, jobs[id]); }
    }
  }

  lemma {:induction false} RegisteringStaysInStep(jobs: map<string, AIJob>, index: Index, inFlight: map<nat, AIJob>, call: nat)
    requires InStep(jobs, index, inFlight) && call in inFlight && Usable(jobs)
    ensures InStep(jobs, RegisterState(Cache(index, 0), inFlight[call]).index, inFlight - {call})
  {
    assert Seen(jobs, inFlight[call]);
    if Waits(inFlight[call]) {
      RegistrationTracks(index, inFlight[call], jobs);
      RegisteredStaysInStep(jobs, index, RegisterState(Cache(index, 0), inFlight[call]).index, inFlight, call);
    } else {
      FinishedStaysInStep(jobs, index, inFlight, call);
    }
  }

  lemma {:induction false} StepKeepsSane(w: World, micro: Micro, limits: Limits, at: Time)
    requires Sane(w, at) && ProperMicro(w, micro) && (micro.Changing? ==> at == micro.turn.at)
    ensures Sane(Stepped(w, micro, limits), at)
  {
    ValidIsUsable(w.store);
    match micro
    case Changing(_, _) => ChangingKeepsSane(w, micro, limits);
    case Reading(call, id) =>
      if id in w.store.jobs { ReadingStaysInStep(w.store.jobs, w.index, w.inFlight, call, w.store.jobs[id]); }
    case Dropping(call, version) =>
      if call in w.inFlight { DroppingStaysInStep(w.store.jobs, w.index, w.inFlight, call, version); }
    case Registering(call) =>
      if call in w.inFlight { RegisteringStaysInStep(w.store.jobs, w.index, w.inFlight, call); }
  }

  // All interleavings.

  datatype Timed = Timed(micro: Micro, at: Time)

  ghost function Interleaved(steps: seq<Timed>, limits: Limits): World {
    if steps == [] then World(Store(map[], map[], map[], map[]), map[], map[])
    else Stepped(Interleaved(steps[..|steps| - 1], limits), steps[|steps| - 1].micro, limits)
  }

  /** The clock never goes back, store changes happen at its time, and every step is one that some call can take. */
  ghost predicate Possible(steps: seq<Timed>, limits: Limits) {
    steps == [] || (Possible(steps[..|steps| - 1], limits) && CanFollow(steps[..|steps| - 1], steps[|steps| - 1], limits))
  }

  ghost predicate CanFollow(steps: seq<Timed>, next: Timed, limits: Limits) {
    && (steps != [] ==> steps[|steps| - 1].at <= next.at) && (next.micro.Changing? ==> next.micro.turn.at == next.at)
    && ProperMicro(Interleaved(steps, limits), next.micro)
  }

  lemma SaneLater(w: World, at: Time, later: Time)
    requires Sane(w, at) && at <= later
    ensures Sane(w, later)
  {}

  lemma StartIsSane(at: Time)
    ensures Sane(World(Store(map[], map[], map[], map[]), map[], map[]), at)
  {}

  lemma {:induction false} EveryInterleavingIsSane(steps: seq<Timed>, limits: Limits, now: Time)
    requires Possible(steps, limits) && (steps != [] ==> steps[|steps| - 1].at <= now)
    ensures Sane(Interleaved(steps, limits), now)
  {
    if steps == [] {
      StartIsSane(now);
    } else {
      var n := |steps| - 1;
      EveryInterleavingIsSane(steps[..n], limits, steps[n].at);
      StepKeepsSane(Interleaved(steps[..n], limits), steps[n].micro, limits, steps[n].at);
      SaneLater(Interleaved(steps, limits), steps[n].at, now);
    }
  }

  /** However calls interleave, no entry is ahead of the store, and an entry at the store's version is right about
      everything but the end of a renewed lease. */
  lemma {:induction false} EntriesNeverLead(steps: seq<Timed>, limits: Limits, now: Time, id: string)
    requires Possible(steps, limits) && (steps != [] ==> steps[|steps| - 1].at <= now)
    requires id in Interleaved(steps, limits).index
    ensures var w := Interleaved(steps, limits); id in w.store.jobs && Tracks(w.index[id], w.store.jobs[id])
  {
    EveryInterleavingIsSane(steps, limits, now);
    var w := Interleaved(steps, limits);
    assert EntryTracks(w.store.jobs, id, w.index[id]);
  }

  /** Once no call is unfinished, every waiting job has an entry of its current version. */
  lemma {:induction false} QuietIndexIsComplete(steps: seq<Timed>, limits: Limits, now: Time, id: string)
    requires Possible(steps, limits) && (steps != [] ==> steps[|steps| - 1].at <= now)
    requires Interleaved(steps, limits).inFlight == map[]
    requires id in Interleaved(steps, limits).store.jobs && Waits(Interleaved(steps, limits).store.jobs[id])
    ensures var w := Interleaved(steps, limits);
            id in w.index && w.index[id].statusVersion == w.store.jobs[id].statusVersion && Tracks(w.index[id], w.store.jobs[id])
  {
    EveryInterleavingIsSane(steps, limits, now);
    var w := Interleaved(steps, limits);
    StoredIsUsable(w.store, id, now);
    assert Provided(w.index, w.inFlight, w.store.jobs[id]);
    assert EntryTracks(w.store.jobs, id, w.index[id]);
  }

  /** The registration of a job that has not moved on conflicts if and only if another call renewed its lease in between. */
  lemma {:induction false} OnlyRenewalsConflict(w: World, at: Time, call: nat)
    requires Sane(w, at) && call in w.inFlight && Waits(w.inFlight[call]) && w.inFlight[call].id in w.store.jobs
    requires w.store.jobs[w.inFlight[call].id].statusVersion == w.inFlight[call].statusVersion
    ensures NewEntry(w.inFlight[call]).Some?
    ensures AfterRegister(w.index, NewEntry(w.inFlight[call]).value).1 == Conflict
       <==> RenewedApart(w.index, w.inFlight[call], NewEntry(w.inFlight[call]).value)
  {
    var job := w.inFlight[call];
    assert Seen(w.store.jobs, job);
    StoredIsUsable(w.store, job.id, at);
    WaitingJobsProject(job);
    ProjectionTracks(job, w.store.jobs[job.id]);
    if job.id in w.index {
      assert EntryTracks(w.store.jobs, job.id, w.index[job.id]);
      ConflictIsRenewal(w.index, job, w.store.jobs[job.id], NewEntry(job).value);
    }
  }

  /** The entry of a dispatch and a projection of it that differ only in the end of the lease. */
  ghost predicate RenewedApart(index: Index, job: AIJob, e: Entry) {
    && job.status == Dispatching && job.id in index && index[job.id].readyAt != e.readyAt
    && index[job.id].(readyAt := e.readyAt) == e
  }

  lemma {:induction false} ConflictIsRenewal(index: Index, job: AIJob, stored: AIJob, e: Entry)
    requires job.id in index && Tracks(index[job.id], stored) && Tracks(e, stored) && Earlier(job, stored) && Waits(job)
    requires job.statusVersion == stored.statusVersion
    requires e.jobID == job.id && e.statusVersion == job.statusVersion && Normalize(e) == e && ValidEntry(e)
    ensures AfterRegister(index, e).1 == Conflict <==> RenewedApart(index, job, e)
  {}

  // Two renewals that do collide.

  /** A run that ends in a world, no later than a moment. */
  ghost predicate Reaches(steps: seq<Timed>, limits: Limits, now: Time, w: World) {
    Possible(steps, limits) && (steps != [] ==> steps[|steps| - 1].at <= now) && Interleaved(steps, limits) == w
  }

  lemma {:induction false} OneMoreStep(steps: seq<Timed>, limits: Limits, now: Time, w: World, next: Timed, w': World)
    requires Reaches(steps, limits, now, w) && now <= next.at && ProperMicro(w, next.micro)
    requires next.micro.Changing? ==> next.micro.turn.at == next.at
    requires w' == Stepped(w, next.micro, limits)
    ensures Reaches(steps + [next], limits, next.at, w')
  {
    assert (steps + [next])[..|steps|] == steps;
  }

  function Extended(job: AIJob, until: Time, at: Time): AIJob {
    job.(queueLeaseUntil := Some(until), updatedAt := if at > job.updatedAt then at else job.updatedAt)
  }

  function Renewal(job: AIJob, until: Time): Step {
    Extending(job.statusVersion, job.fenceToken, job.queueLeaseToken, until)
  }

  lemma {:induction false} RenewalExtends(store: Store, id: string, job: AIJob, until: Time, at: Time)
    requires id in store.jobs && store.jobs[id] == job && job.id == id && Fit(job) && job.status == Dispatching
    requires at < job.queueLeaseUntil.value < until
    ensures Act(store, id, Renewal(job, until), at)
         == Reply(store.(jobs := store.jobs[id := Extended(job, until, at)]), Changed(Extended(job, until, at)))
    ensures Fit(Extended(job, until, at))
  {}

  function Asking(call: nat, job: AIJob, until: Time, at: Time): Timed {
    Timed(Changing(call, Runs.Turn(Runs.Acting(job.id, Renewal(job, until)), at)), at)
  }

  /** One call that renews the lease of a job, as its first step in a run. */
  lemma {:induction false} RenewalStep(
    steps: seq<Timed>, limits: Limits, w: World, job: AIJob, call: nat, until: Time, at: Time, w': World)
    requires Reaches(steps, limits, at, w) && at > 0 && job.id in w.store.jobs && w.store.jobs[job.id] == job
    requires job.status == Dispatching && Fit(job) && at < job.queueLeaseUntil.value < until && call !in w.inFlight
    requires w' == World(w.store.(jobs := w.store.jobs[job.id := Extended(job, until, at)]), w.index,
                         w.inFlight[call := Extended(job, until, at)])
    ensures Reaches(steps + [Asking(call, job, until, at)], limits, at, w')
  {
    RenewalExtends(w.store, job.id, job, until, at);
    OneMoreStep(steps, limits, at, w, Asking(call, job, until, at), w');
  }

  /** The steps after both renewals: both calls remove the entry, and the second registers. */
  function Race(version: int, a: nat, b: nat, at: Time): seq<Timed> {
    [Timed(Dropping(a, version), at)] + [Timed(Dropping(b, version), at)] + [Timed(Registering(b), at)]
  }

  lemma {:induction false} DropStep(steps: seq<Timed>, limits: Limits, w: World, call: nat, job: AIJob, at: Time)
    requires Reaches(steps, limits, at, w) && call in w.inFlight && w.inFlight[call].id == job.id
    requires w.inFlight[call].statusVersion == job.statusVersion
    ensures Reaches(steps + [Timed(Dropping(call, job.statusVersion), at)], limits, at,
                    World(w.store, AfterRemove(w.index, job.id, job.statusVersion), w.inFlight))
  {
    OneMoreStep(steps, limits, at, w, Timed(Dropping(call, job.statusVersion), at),
                World(w.store, AfterRemove(w.index, job.id, job.statusVersion), w.inFlight));
  }

  lemma {:induction false} RaceSteps(
    steps: seq<Timed>, limits: Limits, w: World, job: AIJob, a: nat, b: nat, at: Time, index: Index, w': World)
    requires Reaches(steps, limits, at, w) && a in w.inFlight && b in w.inFlight
    requires w.inFlight[a].id == w.inFlight[b].id == job.id
    requires w.inFlight[a].statusVersion == w.inFlight[b].statusVersion == job.statusVersion
    requires index == AfterRemove(AfterRemove(w.index, job.id, job.statusVersion), job.id, job.statusVersion)
    requires w' == World(w.store, RegisterState(Cache(index, 0), w.inFlight[b]).index, w.inFlight - {b})
    ensures Reaches(steps + Race(job.statusVersion, a, b, at), limits, at, w')
  {
    var race := Race(job.statusVersion, a, b, at);
    var one := World(w.store, AfterRemove(w.index, job.id, job.statusVersion), w.inFlight);
    DropStep(steps, limits, w, a, job, at);
    DropStep(steps + [race[0]], limits, one, b, job, at);
    OneMoreStep(steps + [race[0]] + [race[1]], limits, at, World(w.store, index, w.inFlight), race[2], w');
    assert steps + [race[0]] + [race[1]] + [race[2]] == steps + race;
  }

  /** Projections of two renewals of one dispatch collide when nothing else of that version is in the index. */
  lemma {:induction false} ProjectionsCollide(index: Index, first: AIJob, second: AIJob)
    requires Projectable(first) && Fit(first) && first.status == Dispatching
    requires second == first.(queueLeaseUntil := second.queueLeaseUntil, updatedAt := second.updatedAt) && Fit(second)
    requires second.queueLeaseUntil != first.queueLeaseUntil
    requires first.id in index ==> index[first.id].statusVersion < first.statusVersion
    ensures Collides(RegisterState(Cache(index, 0), second).index, first)
  {
    WaitingJobsProject(first);
    WaitingJobsProject(second);
  }

  lemma {:induction false} DroppedTwice(w: World, at: Time, id: string, version: int)
    requires Sane(w, at) && id in w.store.jobs && w.store.jobs[id].statusVersion == version
    ensures var index := AfterRemove(AfterRemove(w.index, id, version), id, version);
            id in index ==> index[id].statusVersion < version
  {
    StoredIsUsable(w.store, id, at);
    if id in w.index { assert EntryTracks(w.store.jobs, id, w.index[id]); }
  }

  function Collision(job: AIJob, a: nat, b: nat, first: Time, second: Time, at: Time): seq<Timed> {
    [Asking(a, job, first, at)] + [Asking(b, Extended(job, first, at), second, at)] + Race(job.statusVersion, a, b, at)
  }

  lemma {:induction false} BothRenew(
    steps: seq<Timed>, limits: Limits, w: World, job: AIJob, a: nat, b: nat, first: Time, second: Time, at: Time, both: World)
    requires Reaches(steps, limits, at, w) && at > 0 && job.id in w.store.jobs && w.store.jobs[job.id] == job && Fit(job)
    requires job.status == Dispatching && at < job.queueLeaseUntil.value < first < second
    requires a != b && a !in w.inFlight && b !in w.inFlight
    requires var one := Extended(job, first, at); var two := Extended(one, second, at);
             both == World(w.store.(jobs := w.store.jobs[job.id := two]), w.index, w.inFlight[a := one][b := two])
    ensures Reaches(steps + [Asking(a, job, first, at)] + [Asking(b, Extended(job, first, at), second, at)], limits, at, both)
  {
    var one := Extended(job, first, at);
    var middle := World(w.store.(jobs := w.store.jobs[job.id := one]), w.index, w.inFlight[a := one]);
    RenewalExtends(w.store, job.id, job, first, at);
    RenewalStep(steps, limits, w, job, a, first, at, middle);
    assert middle.store.jobs[job.id := Extended(one, second, at)] == w.store.jobs[job.id := Extended(one, second, at)];
    RenewalStep(steps + [Asking(a, job, first, at)], limits, middle, one, b, second, at, both);
  }

  lemma ExtendedTwice(job: AIJob, first: Time, second: Time, at: Time)
    requires Fit(job) && Projectable(job) && job.status == Dispatching && at < job.queueLeaseUntil.value < first < second
    ensures var one := Extended(job, first, at); var two := Extended(one, second, at);
            && Fit(one) && Fit(two) && Projectable(one) && one.id == two.id == job.id && one.status == Dispatching
            && one.statusVersion == two.statusVersion == job.statusVersion && one.queueLeaseUntil != two.queueLeaseUntil
            && two == one.(queueLeaseUntil := two.queueLeaseUntil, updatedAt := two.updatedAt)
  {}

  /** From any reachable world with a live dispatch, two calls that renew it can interleave so that the first one's
      registration conflicts. */
  lemma {:induction false} RenewalsCollide(
    steps: seq<Timed>, limits: Limits, w: World, job: AIJob, a: nat, b: nat, first: Time, second: Time, at: Time)
    returns (last: World)
    requires Reaches(steps, limits, at, w) && at > 0 && job.id in w.store.jobs && w.store.jobs[job.id] == job
    requires job.status == Dispatching && job.queueLeaseUntil.Some? && at < job.queueLeaseUntil.value < first < second
    requires a != b && a !in w.inFlight && b !in w.inFlight
    ensures Reaches(steps + Collision(job, a, b, first, second, at), limits, at, last)
    ensures a in last.inFlight && Collides(last.index, last.inFlight[a])
  {
    IsSaneHere(steps, limits, at, w, job);
    var one, two := Extended(job, first, at), Extended(Extended(job, first, at), second, at);
    ExtendedTwice(job, first, second, at);
    var both := World(w.store.(jobs := w.store.jobs[job.id := two]), w.index, w.inFlight[a := one][b := two]);
    BothRenew(steps, limits, w, job, a, b, first, second, at, both);
    CollisionParts(steps, job, a, b, first, second, at);
    var index := AfterRemove(AfterRemove(w.index, job.id, job.statusVersion), job.id, job.statusVersion);
    ProjectionsCollide(index, one, two);
    last := RaceCollides(steps + [Asking(a, job, first, at)] + [Asking(b, one, second, at)], limits, both, job, one, two, a, b, at,
                         index, RegisterState(Cache(index, 0), two).index);
  }

  lemma CollisionParts(steps: seq<Timed>, job: AIJob, a: nat, b: nat, first: Time, second: Time, at: Time)
    ensures steps + [Asking(a, job, first, at)] + [Asking(b, Extended(job, first, at), second, at)] + Race(job.statusVersion, a, b, at)
         == steps + Collision(job, a, b, first, second, at)
  {}

  ghost predicate Collides(index: Index, job: AIJob) {
    NewEntry(job).Some? && AfterRegister(index, NewEntry(job).value).1 == Conflict
  }

  lemma {:induction false} RaceCollides(
    steps: seq<Timed>, limits: Limits, w: World, job: AIJob, one: AIJob, two: AIJob, a: nat, b: nat, at: Time, index: Index, next: Index)
    returns (last: World)
    requires Reaches(steps, limits, at, w) && a != b && a in w.inFlight && w.inFlight[a] == one && b in w.inFlight && w.inFlight[b] == two
    requires one.id == two.id == job.id && one.statusVersion == two.statusVersion == job.statusVersion
    requires index == AfterRemove(AfterRemove(w.index, job.id, job.statusVersion), job.id, job.statusVersion)
    requires next == RegisterState(Cache(index, 0), two).index
    ensures Reaches(steps + Race(job.statusVersion, a, b, at), limits, at, last)
    ensures a in last.inFlight && last.inFlight[a] == one && last.index == next
  {
    last := World(w.store, next, w.inFlight - {b});
    RaceSteps(steps, limits, w, job, a, b, at, index, last);
  }

  lemma {:induction false} IsSaneHere(steps: seq<Timed>, limits: Limits, at: Time, w: World, job: AIJob)
    requires Reaches(steps, limits, at, w) && job.id in w.store.jobs && w.store.jobs[job.id] == job
    ensures Fit(job) && Projectable(job)
    ensures var index := AfterRemove(AfterRemove(w.index, job.id, job.statusVersion), job.id, job.statusVersion);
            job.id in index ==> index[job.id].statusVersion < job.statusVersion
  {
    EveryInterleavingIsSane(steps, limits, at);
    StoredIsUsable(w.store, job.id, at);
    DroppedTwice(w, at, job.id, job.statusVersion);
  }

  const UNLIMITED := Limits(0, 0, 0)

  function Asked(job: AIJob): Timed {
    Timed(Changing(0, Runs.Turn(Runs.Creating(job.id, job.operationID, job.scope, job.submission), job.createdAt)), job.createdAt)
  }

  function Claimed(id: string, lease: Lease, at: Time): Timed {
    Timed(Changing(1, Runs.Turn(Runs.Acting(id, Claiming(lease)), at)), at)
  }

  /** The claim of a request that was just stored. */
  lemma {:induction false} ClaimIsReachable(job: AIJob, created: World, lease: Lease, at: Time) returns (claimed: AIJob, w: World)
    requires Reaches([Asked(job)], UNLIMITED, job.createdAt, created) && job.id in created.store.jobs && created.store.jobs[job.id] == job
    requires job.status == Queued && job.queueLeaseUntil.None? && job.nextEligibleAt <= at && 1 !in created.inFlight
    requires 0 < job.createdAt <= at < lease.until && Trim(lease.token) != ""
    ensures Reaches([Asked(job)] + [Claimed(job.id, lease, at)], UNLIMITED, at, w)
    ensures claimed.id == job.id && job.id in w.store.jobs && w.store.jobs[job.id] == claimed
    ensures claimed.status == Dispatching && claimed.queueLeaseUntil == Some(lease.until)
    ensures w.inFlight.Keys == created.inFlight.Keys + {1}
  {
    IsGroundHere([Asked(job)], UNLIMITED, job.createdAt, created, at);
    var reply := FirstClaim(created.store, job, lease, at);
    claimed := reply.outcome.job;
    w := ClaimStep([Asked(job)], job.createdAt, created, job.id, lease, at, reply);
  }

  lemma {:induction false} ClaimStep(
    steps: seq<Timed>, now: Time, w: World, id: string, lease: Lease, at: Time, reply: Reply) returns (w': World)
    requires Reaches(steps, UNLIMITED, now, w) && 0 < now <= at && 1 !in w.inFlight && ProperAt(w.store, id, Claiming(lease), at)
    requires reply == Act(w.store, id, Claiming(lease), at) && reply.outcome.Changed?
    ensures w' == World(reply.store, w.index, w.inFlight[1 := reply.outcome.job])
    ensures Reaches(steps + [Claimed(id, lease, at)], UNLIMITED, at, w')
  {
    w' := World(reply.store, w.index, w.inFlight[1 := reply.outcome.job]);
    OneMoreStep(steps, UNLIMITED, now, w, Claimed(id, lease, at), w');
  }

  lemma {:induction false} IsGroundHere(steps: seq<Timed>, limits: Limits, now: Time, w: World, at: Time)
    requires Reaches(steps, limits, now, w) && now <= at
    ensures Ground(w.store, at)
  {
    EveryInterleavingIsSane(steps, limits, at);
  }

  lemma {:induction false} FirstClaim(store: Store, job: AIJob, lease: Lease, at: Time) returns (reply: Reply)
    requires Ground(store, at) && job.id in store.jobs && store.jobs[job.id] == job
    requires job.status == Queued && job.nextEligibleAt <= at < lease.until && job.queueLeaseUntil.None? && Trim(lease.token) != ""
    ensures reply == Act(store, job.id, Claiming(lease), at) && ProperAt(store, job.id, Claiming(lease), at)
    ensures reply.outcome.Changed? && reply.outcome.job.id == job.id && reply.store.jobs == store.jobs[job.id := reply.outcome.job]
    ensures reply.outcome.job.status == Dispatching && reply.outcome.job.queueLeaseUntil == Some(lease.until)
  {
    reply := Act(store, job.id, Claiming(lease), at);
    ReadyJobsAreClaimed(store, job.id, lease, at);
    OutcomeOfAct(store, job.id, Claiming(lease), at);
  }

  lemma {:induction false} CreationIsReachable(job: AIJob) returns (w: World)
    requires job == NewJob(job.id, job.operationID, job.scope, job.submission, job.createdAt) && Projectable(job)
    requires 0 < job.createdAt
    ensures Reaches([Asked(job)], UNLIMITED, job.createdAt, w)
    ensures job.id in w.store.jobs && w.store.jobs[job.id] == job && w.inFlight.Keys == {0}
    ensures job.status == Queued && job.queueLeaseUntil.None? && job.nextEligibleAt == job.createdAt
  {
    var empty := World(Store(map[], map[], map[], map[]), map[], map[]);
    FirstCreation(job);
    w := World(Insert(empty.store, job).store, map[], map[0 := job]);
    OneMoreStep([], UNLIMITED, job.createdAt, empty, Asked(job), w);
    assert [] + [Asked(job)] == [Asked(job)];
  }

  lemma {:induction false} FirstCreation(job: AIJob)
    ensures var empty := Store(map[], map[], map[], map[]);
            Create(empty, job, UNLIMITED) == Insert(empty, job) && Insert(empty, job).outcome == Changed(job)
            && Insert(empty, job).store.jobs == map[job.id := job]
  {}

  /** From the empty world: a request is stored and claimed, two calls renew the lease, both remove the entry, the second
      registers, and the first one's registration conflicts. */
  lemma {:induction false} ConcurrentRenewalsConflict(job: AIJob, lease: Lease, at: Time, first: Time, second: Time)
    returns (steps: seq<Timed>, w: World)
    requires job == NewJob(job.id, job.operationID, job.scope, job.submission, job.createdAt) && Projectable(job)
    requires 0 < job.createdAt <= at < lease.until < first < second && Trim(lease.token) != ""
    ensures |steps| == 7 && Reaches(steps, UNLIMITED, at, w)
    ensures 2 in w.inFlight && Collides(w.index, w.inFlight[2])
  {
    var created := CreationIsReachable(job);
    var claimed, middle := ClaimIsReachable(job, created, lease, at);
    var before := [Asked(job)] + [Claimed(job.id, lease, at)];
    w := RenewalsCollide(before, UNLIMITED, middle, claimed, 2, 3, first, second, at);
    steps := before + Collision(claimed, 2, 3, first, second, at);
  }
}
