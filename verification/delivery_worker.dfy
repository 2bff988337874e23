/** Store and delivery queue together: envelopes are built from stored jobs, and the store stays authoritative. */
module DeliveryWorker {
  import opened Text
  import opened JobModel
  import opened JobStore
  import opened JobRuns
  import opened DeliveryQueue
  import Admission
  import Runs = StoreRuns

  /** Delivery ids are trimmed, not empty, and different for different arguments. */
  ghost predicate GoodDigest(digest: Digest) {
    && (forall a, b, v, f :: digest(a, b, v, f) != "" && Trim(digest(a, b, v, f)) == digest(a, b, v, f))
    && (forall a, b, v, f, a', b', v', f' :: digest(a, b, v, f) == digest(a', b', v', f') ==> (a, b, v, f) == (a', b', v', f'))
  }

  function EnvelopeFor(digest: Digest, job: AIJob): Envelope {
    Envelope(SCHEMA_VERSION, ExpectedID(digest, job.id, job.operationID, job.statusVersion, job.fenceToken),
             Trim(job.id), Trim(job.operationID), job.statusVersion, job.fenceToken, Trim(job.queueLeaseToken))
  }

  function NewEnvelope(digest: Digest, job: AIJob): Option<Envelope> {
    if ValidEnvelope(digest, EnvelopeFor(digest, job)) then Some(EnvelopeFor(digest, job)) else None
  }

  /** The worker's test: is this envelope still the job's current claim? */
  predicate Matches(job: AIJob, e: Envelope, now: Time) {
    && job.operationID == e.operationID && job.status == Dispatching && job.statusVersion == e.statusVersion
    && job.fenceToken == e.fenceToken && Trim(job.queueLeaseToken) == Trim(e.queueLeaseToken)
    && job.queueLeaseUntil.Some? && job.queueLeaseUntil.value > now
  }

  // Envelopes and the store.

  /** The envelope is of an earlier version of its job, or exactly what the job would give now. */
  ghost predicate Agrees(digest: Digest, jobs: map<string, AIJob>, e: Envelope) {
    && ValidEnvelope(digest, e) && e.jobID in jobs && e.statusVersion <= jobs[e.jobID].statusVersion
    && (e.statusVersion == jobs[e.jobID].statusVersion ==> e == EnvelopeFor(digest, jobs[e.jobID]))
  }

  lemma {:induction false} EnvelopeNamesItsJob(digest: Digest, job: AIJob)
    requires GoodDigest(digest) && NewEnvelope(digest, job).Some?
    ensures var e := NewEnvelope(digest, job).value; e.jobID == job.id && e.operationID == job.operationID
  {}

  lemma {:induction false} AgreementLasts(digest: Digest, store: Store, next: Store, e: Envelope, at: Time)
    requires Agrees(digest, store.jobs, e) && StoreEvolved(store, next, at)
    ensures Agrees(digest, next.jobs, e)
  {}

  /** An envelope that no longer matches its job never matches again. */
  lemma {:induction false} StaleEnvelopesStayOut(
    digest: Digest, store: Store, next: Store, e: Envelope, now: Time, later: Time)
    requires Agrees(digest, store.jobs, e) && StoreEvolved(store, next, now) && now <= later
    requires !Matches(store.jobs[e.jobID], e, now)
    ensures e.jobID in next.jobs && !Matches(next.jobs[e.jobID], e, later)
  {}

  // The job values that callers have read, and what they have in common.

  /** What a claim is known by. */
  ghost predicate SameClaimant(a: AIJob, b: AIJob) {
    && a.id == b.id && a.operationID == b.operationID && a.status == b.status && a.fenceToken == b.fenceToken
    && a.queueLeaseToken == b.queueLeaseToken
  }

  /** One value of a job comes before another, or both show the same claim. */
  ghost predicate Precedes(a: AIJob, b: AIJob) {
    && a.id == b.id && a.operationID == b.operationID && a.statusVersion <= b.statusVersion
    && (a.statusVersion == b.statusVersion ==> SameClaimant(a, b))
  }

  /** The store has moved on from every value that was ever read, and two values of one version show the same claim. */
  ghost predicate Remembers(seen: set<AIJob>, jobs: map<string, AIJob>) {
    && (forall job :: job in seen ==> job.id in jobs && Precedes(job, jobs[job.id]))
    && OneClaimPerVersion(seen)
  }

  ghost predicate OneClaimPerVersion(seen: set<AIJob>) {
    forall a, b :: a in seen && b in seen && a.id == b.id && a.statusVersion == b.statusVersion ==> SameClaimant(a, b)
  }

  ghost predicate MovesOn(jobs: map<string, AIJob>, next: map<string, AIJob>) {
    forall id :: id in jobs ==> id in next && Precedes(jobs[id], next[id])
  }

  /** The values read so far and those stored now. */
  ghost predicate Grows(seen: set<AIJob>, more: set<AIJob>, jobs: map<string, AIJob>) {
    && seen <= more
    && forall job :: job in more ==> job in seen || (job.id in jobs && jobs[job.id] == job)
  }

  lemma {:induction false} MovingOnIsRemembered(
    seen: set<AIJob>, more: set<AIJob>, jobs: map<string, AIJob>, next: map<string, AIJob>)
    requires Remembers(seen, jobs) && MovesOn(jobs, next) && Grows(seen, more, next)
    ensures Remembers(more, next)
  {
    forall job | job in more ensures job.id in next && Precedes(job, next[job.id]) {
      if job in seen { assert Precedes(job, jobs[job.id]) && Precedes(jobs[job.id], next[job.id]); }
    }
    forall a, b | a in more && b in more && a.id == b.id && a.statusVersion == b.statusVersion ensures SameClaimant(a, b) {
      if a !in seen || b !in seen { assert Precedes(a, next[a.id]) && Precedes(b, next[b.id]); }
    }
  }

  lemma {:induction false} StoreGrows(seen: set<AIJob>, store: Store, next: Store, at: Time)
    requires StoreEvolved(store, next, at) && JobRuns.Valid(next)
    ensures MovesOn(store.jobs, next.jobs) && Grows(seen, seen + next.jobs.Values, next.jobs)
  {
    forall job | job in next.jobs.Values ensures job.id in next.jobs && next.jobs[job.id] == job {
      var id :| id in next.jobs && next.jobs[id] == job;
      StoredFits(next, id);
    }
    forall id | id in store.jobs ensures id in next.jobs && Precedes(store.jobs[id], next.jobs[id]) {
      assert Evolved(store.jobs[id], next.jobs[id], at);
    }
  }

  // Publishing.

  /** The envelope of a job value that was read at some time. */
  ghost predicate EnvelopeOf(digest: Digest, seen: set<AIJob>, e: Envelope) {
    exists job :: job in seen && NewEnvelope(digest, job) == Some(e)
  }

  ghost predicate QueueKnown(digest: Digest, seen: set<AIJob>, q: Queue) {
    && OwnKeys(q)
    && forall id :: id in q.entries ==> EnvelopeOf(digest, seen, q.entries[id].envelope)
  }

  ghost predicate OwnKeys(q: Queue) {
    forall id :: id in q.entries ==> q.entries[id].dedupeKey == id
  }

  /** Queue and readers fit together. */
  ghost predicate Known(digest: Digest, seen: set<AIJob>, q: Queue) {
    && GoodDigest(digest) && OneClaimPerVersion(seen) && DeliveryQueue.Valid(q) && QueueKnown(digest, seen, q)
  }

  /** The service publishes under the envelope's own key. */
  function PublishOp(e: Envelope, now: Time): Op {
    Publish(e, e.deliveryID, now)
  }

  lemma OwnKey(digest: Digest, e: Envelope)
    requires GoodDigest(digest) && ValidEnvelope(digest, e)
    ensures KeyOf(e, e.deliveryID) == e.deliveryID != ""
  {}

  lemma {:induction false} IDNamesClaim(digest: Digest, a: AIJob, b: AIJob)
    requires GoodDigest(digest) && NewEnvelope(digest, a).Some? && NewEnvelope(digest, b).Some?
    requires NewEnvelope(digest, a).value.deliveryID == NewEnvelope(digest, b).value.deliveryID
    ensures a.id == b.id && a.statusVersion == b.statusVersion
  {
    assert digest(a.id, a.operationID, a.statusVersion, a.fenceToken)
        == digest(b.id, b.operationID, b.statusVersion, b.fenceToken);
  }

  lemma {:induction false} SameClaimSameEnvelope(digest: Digest, a: AIJob, b: AIJob)
    requires SameClaimant(a, b) && a.statusVersion == b.statusVersion
    ensures NewEnvelope(digest, a) == NewEnvelope(digest, b)
  {}

  /** One delivery id, one envelope: whoever read the job, and however long ago. */
  lemma {:induction false} SameIDSameEnvelope(digest: Digest, seen: set<AIJob>, e: Envelope, other: Envelope)
    requires GoodDigest(digest) && OneClaimPerVersion(seen) && EnvelopeOf(digest, seen, e) && EnvelopeOf(digest, seen, other)
    requires e.deliveryID == other.deliveryID
    ensures e == other
  {
    var a :| a in seen && NewEnvelope(digest, a) == Some(e);
    var b :| b in seen && NewEnvelope(digest, b) == Some(other);
    IDNamesClaim(digest, a, b);
    SameClaimSameEnvelope(digest, a, b);
  }

  /** An envelope of a job value that was read agrees with the job as it is now. */
  lemma {:induction false} ReadEnvelopeAgrees(digest: Digest, seen: set<AIJob>, jobs: map<string, AIJob>, e: Envelope)
    requires GoodDigest(digest) && Remembers(seen, jobs) && EnvelopeOf(digest, seen, e)
    ensures Agrees(digest, jobs, e)
  {
    var job :| job in seen && NewEnvelope(digest, job) == Some(e);
    EnvelopeNamesItsJob(digest, job);
    assert Precedes(job, jobs[job.id]);
  }

  /** What publishing an envelope must do: nothing when the queue has it already, in whatever state, and else add it. */
  ghost predicate PublishesOnce(q: Queue, e: Envelope, now: Time) {
    && PublishVerdict(q, e, KeyOf(e, e.deliveryID)) == (if e.deliveryID in q.entries then Duplicate else Published)
    && (e.deliveryID in q.entries ==> Do(q, PublishOp(e, now), now) == q)
    && Holds(Do(q, PublishOp(e, now), now), e) && Keeps(q, Do(q, PublishOp(e, now), now))
  }

  ghost predicate Holds(q: Queue, e: Envelope) {
    e.deliveryID in q.entries && q.entries[e.deliveryID].envelope == e
  }

  ghost predicate Keeps(q: Queue, next: Queue) {
    forall id :: id in q.entries ==> id in next.entries && next.entries[id] == q.entries[id]
  }

  /** Publishing the envelope of a job value that was read at any earlier time never conflicts, also when the job has moved
      on since. */
  lemma {:induction false} RebuildIsSafe(digest: Digest, seen: set<AIJob>, q: Queue, job: AIJob, now: Time)
    requires Known(digest, seen, q) && job in seen && NewEnvelope(digest, job).Some?
    ensures PublishesOnce(q, NewEnvelope(digest, job).value, now)
  {
    var e := NewEnvelope(digest, job).value;
    OwnKey(digest, e);
    if e.deliveryID in q.entries {
      assert EnvelopeOf(digest, seen, e) && EntryFits(q, e.deliveryID, q.entries[e.deliveryID]);
      SameIDSameEnvelope(digest, seen, e, q.entries[e.deliveryID].envelope);
    }
    PublishingUnderOwnKey(q, e, now);
  }

  lemma {:induction false} PublishingUnderOwnKey(q: Queue, e: Envelope, now: Time)
    requires DeliveryQueue.Valid(q) && OwnKeys(q) && KeyOf(e, e.deliveryID) == e.deliveryID != ""
    requires e.deliveryID in q.entries ==> q.entries[e.deliveryID].envelope == e
    ensures PublishesOnce(q, e, now)
  {
    if e.deliveryID in q.entries { assert EntryFits(q, e.deliveryID, q.entries[e.deliveryID]); }
  }

  lemma {:induction false} PublishAddsOne(q: Queue, e: Envelope, now: Time)
    requires KeyOf(e, e.deliveryID) == e.deliveryID
    ensures var next := Do(q, PublishOp(e, now), now).entries;
            next == q.entries || next == q.entries[e.deliveryID := DeliveryQueue.NewEntry(q, e, e.deliveryID, now, now)]
  {}

  lemma {:induction false} PublishKeepsKnown(digest: Digest, seen: set<AIJob>, q: Queue, e: Envelope, now: Time)
    requires Known(digest, seen, q) && EnvelopeOf(digest, seen, e)
    ensures Known(digest, seen, Do(q, PublishOp(e, now), now))
  {
    OwnKey(digest, e);
    PublishAddsOne(q, e, now);
    PublishKeepsValid(q, PublishOp(e, now), now);
    var added := DeliveryQueue.NewEntry(q, e, e.deliveryID, now, now);
    assert added.envelope == e && added.dedupeKey == e.deliveryID;
    AddedIsKnown(digest, seen, q, Do(q, PublishOp(e, now), now), e.deliveryID, added);
  }

  lemma {:induction false} AddedIsKnown(digest: Digest, seen: set<AIJob>, q: Queue, next: Queue, id: string, added: QueueEntry)
    requires QueueKnown(digest, seen, q) && EnvelopeOf(digest, seen, added.envelope) && added.dedupeKey == id
    requires next.entries in {q.entries, q.entries[id := added]}
    ensures QueueKnown(digest, seen, next)
  {}

  lemma {:induction false} OpsKeepKnown(digest: Digest, seen: set<AIJob>, q: Queue, op: Op, now: Time, issued: set<string>)
    requires Known(digest, seen, q) && DeliveryQueue.Proper(q, op, now, issued) && !op.Publish?
    ensures Known(digest, seen, Do(q, op, now))
  {
    DoKeepsValid(q, op, now, issued);
    forall id | id in q.entries
      ensures After(op, id, q.entries[id], now).envelope == q.entries[id].envelope
      ensures After(op, id, q.entries[id], now).dedupeKey == id
    {
      assert EntryFits(q, id, q.entries[id]);
      AfterFits(op, id, q.entries[id], now);
    }
  }

  lemma MoreIsKnown(digest: Digest, seen: set<AIJob>, more: set<AIJob>, q: Queue)
    requires Known(digest, seen, q) && seen <= more && OneClaimPerVersion(more)
    ensures Known(digest, more, q)
  {
    forall id | id in q.entries ensures EnvelopeOf(digest, more, q.entries[id].envelope) {
      var job :| job in seen && NewEnvelope(digest, job) == Some(q.entries[id].envelope);
      assert job in more;
    }
  }

  // Scheduling and rebuilding: publishing listed jobs one after another.

  /** A dispatched job with usable ids always gives an envelope. */
  lemma {:induction false} DispatchesHaveEnvelopes(digest: Digest, job: AIJob)
    requires GoodDigest(digest) && Fit(job) && job.status == Dispatching
    requires Trimmed(job.id) && job.id != "" && Trimmed(job.operationID) && job.operationID != ""
    ensures NewEnvelope(digest, job).Some?
  {}

  function Usable(digest: Digest, list: seq<AIJob>): (n: nat)
    ensures n <= |list| && (n == |list| <==> forall job :: job in list ==> NewEnvelope(digest, job).Some?)
  {
    if list == [] then 0
    else Usable(digest, list[..|list| - 1]) + if NewEnvelope(digest, list[|list| - 1]).Some? then 1 else 0
  }

  /** What publishing listed jobs must keep, and what it must have reached after `n` of them. */
  ghost predicate Progress(digest: Digest, seen: set<AIJob>, before: Queue, q: Queue, list: seq<AIJob>, n: nat) {
    && Known(digest, seen, q) && Keeps(before, q) && n <= |list|
    && forall k :: 0 <= k < n ==> Queued(digest, q, list[k])
  }

  ghost predicate Queued(digest: Digest, q: Queue, job: AIJob) {
    NewEnvelope(digest, job).Some? ==> Holds(q, NewEnvelope(digest, job).value)
  }

  predicate Publishes(digest: Digest, q: Queue, job: AIJob) {
    && NewEnvelope(digest, job).Some?
    && PublishVerdict(q, NewEnvelope(digest, job).value, KeyOf(NewEnvelope(digest, job).value, NewEnvelope(digest, job).value.deliveryID))
       in {Published, Duplicate}
  }

  function WithEnvelope(digest: Digest, q: Queue, job: AIJob, now: Time): Queue {
    if NewEnvelope(digest, job).None? then q else Do(q, PublishOp(NewEnvelope(digest, job).value, now), now)
  }

  lemma {:induction false} ReadJobIsPublished(digest: Digest, seen: set<AIJob>, q: Queue, job: AIJob, now: Time)
    requires Known(digest, seen, q) && job in seen
    ensures var next := WithEnvelope(digest, q, job, now);
            && (Publishes(digest, q, job) <==> NewEnvelope(digest, job).Some?)
            && Keeps(q, next) && Queued(digest, next, job) && Known(digest, seen, next)
  {
    if NewEnvelope(digest, job).Some? {
      RebuildIsSafe(digest, seen, q, job, now);
      PublishKeepsKnown(digest, seen, q, NewEnvelope(digest, job).value, now);
    }
  }

  lemma {:induction false} OneMorePublished(
    digest: Digest, seen: set<AIJob>, before: Queue, q: Queue, next: Queue, list: seq<AIJob>, n: nat)
    requires Progress(digest, seen, before, q, list, n) && n < |list| && Keeps(q, next)
    requires Known(digest, seen, next) && Queued(digest, next, list[n])
    ensures Progress(digest, seen, before, next, list, n + 1)
  {
    KeepsBoth(before, q, next);
    forall k | 0 <= k < n ensures Queued(digest, next, list[k]) { StaysQueued(digest, q, next, list[k]); }
  }

  method PublishJob(queue: MemoryDeliveryQueue, job: AIJob, now: Time) returns (ok: bool)
    modifies queue
    ensures ok <==> old(Publishes(queue.digest, queue.Model(), job))
    ensures queue.Model() == old(WithEnvelope(queue.digest, queue.Model(), job, now))
  {
    var envelope := NewEnvelope(queue.digest, job);
    if envelope.None? { return false; }
    var result := queue.PublishEnvelope(envelope.value, envelope.value.deliveryID, now, now);
    ok := result == Published || result == Duplicate;
  }

  lemma KeepsBoth(a: Queue, b: Queue, c: Queue)
    requires Keeps(a, b) && Keeps(b, c)
    ensures Keeps(a, c)
  {}

  lemma StaysQueued(digest: Digest, q: Queue, next: Queue, job: AIJob)
    requires Queued(digest, q, job) && Keeps(q, next)
    ensures Queued(digest, next, job)
  {}

  /** Publishes jobs that were claimed or listed earlier; one that gives no envelope is counted and passed over. From a
      queue in any state, also an empty one, and however far the jobs have moved on, every job with an envelope ends up
      queued, nothing that was queued changes, and nothing is refused. */
  method PublishJobs(queue: MemoryDeliveryQueue, list: seq<AIJob>, now: Time, ghost seen: set<AIJob>)
    returns (published: int, errors: int)
    requires Known(queue.digest, seen, queue.Model()) && forall job :: job in list ==> job in seen
    modifies queue
    ensures published == Usable(queue.digest, list) && errors == |list| - published
    ensures Progress(queue.digest, seen, old(queue.Model()), queue.Model(), list, |list|)
  {
    published, errors := 0, 0;
    for i := 0 to |list|
      invariant published == Usable(queue.digest, list[..i]) && errors == i - published
      invariant Progress(queue.digest, seen, old(queue.Model()), queue.Model(), list, i)
    {
      assert list[i] in list && list[..i + 1][..i] == list[..i];
      ghost var before := queue.Model();
      ReadJobIsPublished(queue.digest, seen, before, list[i], now);
      var ok := PublishJob(queue, list[i], now);
      OneMorePublished(queue.digest, seen, old(queue.Model()), before, queue.Model(), list, i);
      published, errors := published + (if ok then 1 else 0), errors + if ok then 0 else 1;
    }
    assert list[..|list|] == list;
  }

  // Runs of store and queue together.

  datatype Turn =
    | StoreTurn(turn: Runs.Turn)
    | QueueTurn(op: Op, now: Time)
    | PublishTurn(job: AIJob, now: Time)

  /** The store, the queue, the delivery tokens issued, and every job value that the store ever held: what a scheduler or
      a rebuild may have read before it publishes. */
  datatype World = World(store: Store, queue: Queue, issued: set<string>, seen: set<AIJob>)

  const START := World(Store(map[], map[], map[], map[]), Queue(map[], map[], 0), {}, {})

  ghost function Next(digest: Digest, w: World, turn: Turn, limits: Admission.Limits): World {
    match turn
    case StoreTurn(t) =>
      var store := Runs.Answer(w.store, t, limits).store;
      w.(store := store, seen := w.seen + store.jobs.Values)
    case QueueTurn(op, now) => w.(queue := Do(w.queue, op, now), issued := Issue(w.issued, op))
    case PublishTurn(job, now) => w.(queue := WithEnvelope(digest, w.queue, job, now))
  }

  function TimeOf(turn: Turn): Time {
    match turn
    case StoreTurn(t) => t.at
    case QueueTurn(_, now) => now
    case PublishTurn(_, now) => now
  }

  /** A scheduler publishes jobs that it claimed, and a rebuild jobs that it listed, at any time afterwards. */
  ghost predicate ProperTurn(w: World, turn: Turn) {
    && TimeOf(turn) > 0
    && match turn
       case StoreTurn(t) => Runs.ProperTurn(w.store, t)
       case QueueTurn(op, now) => !op.Publish? && DeliveryQueue.Proper(w.queue, op, now, w.issued)
       case PublishTurn(job, now) => job in w.seen
  }

  ghost function Play(digest: Digest, turns: seq<Turn>, limits: Admission.Limits): World {
    if turns == [] then START
    else Next(digest, Play(digest, turns[..|turns| - 1], limits), turns[|turns| - 1], limits)
  }

  ghost predicate Orderly(digest: Digest, turns: seq<Turn>, limits: Admission.Limits) {
    && (forall i, j :: 0 <= i < j < |turns| ==> TimeOf(turns[i]) <= TimeOf(turns[j]))
    && (forall i :: 0 <= i < |turns| ==> ProperTurn(Play(digest, turns[..i], limits), turns[i]))
  }

  ghost predicate StoredAfter(digest: Digest, turns: seq<Turn>, limits: Admission.Limits, k: nat, job: AIJob) {
    k <= |turns| && job in Play(digest, turns[..k], limits).store.jobs.Values
  }

  /** What the store ever held during a run was seen. */
  lemma {:induction false} StoredIsSeen(digest: Digest, turns: seq<Turn>, limits: Admission.Limits, k: nat, job: AIJob)
    requires StoredAfter(digest, turns, limits, k, job)
    ensures job in Play(digest, turns, limits).seen
    decreases |turns|
  {
    var n := |turns| - 1;
    if k == |turns| {
      assert turns[..k] == turns;
      EverythingStoredIsSeen(digest, turns, limits);
    } else {
      assert turns[..n][..k] == turns[..k];
      StoredIsSeen(digest, turns[..n], limits, k, job);
      SeenGrows(digest, Play(digest, turns[..n], limits), turns[n], limits);
    }
  }

  lemma SeenGrows(digest: Digest, w: World, turn: Turn, limits: Admission.Limits)
    ensures w.seen <= Next(digest, w, turn, limits).seen
    ensures w.store.jobs.Values <= w.seen ==> Next(digest, w, turn, limits).store.jobs.Values <= Next(digest, w, turn, limits).seen
  {}

  lemma {:induction false} EverythingStoredIsSeen(digest: Digest, turns: seq<Turn>, limits: Admission.Limits)
    ensures Play(digest, turns, limits).store.jobs.Values <= Play(digest, turns, limits).seen
  {
    if turns != [] {
      var n := |turns| - 1;
      EverythingStoredIsSeen(digest, turns[..n], limits);
      SeenGrows(digest, Play(digest, turns[..n], limits), turns[n], limits);
    }
  }

  /** What was seen during a run was held by the store after some part of it. */
  lemma {:induction false} SeenWasStored(digest: Digest, turns: seq<Turn>, limits: Admission.Limits, job: AIJob) returns (k: nat)
    requires job in Play(digest, turns, limits).seen
    ensures StoredAfter(digest, turns, limits, k, job)
  {
    var n := |turns| - 1;
    assert turns != [] && turns[..|turns|] == turns;
    if job in Play(digest, turns[..n], limits).seen {
      k := SeenWasStored(digest, turns[..n], limits, job);
      assert turns[..n][..k] == turns[..k];
    } else {
      k := |turns|;
    }
  }

  /** The values seen are exactly those that the store held after some part of the run. */
  lemma {:induction false} SeenMeansStored(digest: Digest, turns: seq<Turn>, limits: Admission.Limits, job: AIJob)
    ensures job in Play(digest, turns, limits).seen <==> exists k :: StoredAfter(digest, turns, limits, k, job)
  {
    if job in Play(digest, turns, limits).seen {
      var k := SeenWasStored(digest, turns, limits, job);
    } else {
      forall k: nat ensures !StoredAfter(digest, turns, limits, k, job) {
        if StoredAfter(digest, turns, limits, k, job) { StoredIsSeen(digest, turns, limits, k, job); }
      }
    }
  }

  ghost predicate Consistent(digest: Digest, w: World, now: Time) {
    && JobRuns.Valid(w.store) && CreatedBy(w.store, now) && Remembers(w.seen, w.store.jobs)
    && Known(digest, w.seen, w.queue)
  }

  lemma {:induction false} StoreTurnKeeps(digest: Digest, w: World, turn: Turn, limits: Admission.Limits)
    requires Consistent(digest, w, TimeOf(turn)) && ProperTurn(w, turn) && turn.StoreTurn?
    ensures Consistent(digest, Next(digest, w, turn, limits), TimeOf(turn))
  {
    Runs.TurnKeeps(w.store, turn.turn, limits);
    var next := Runs.Answer(w.store, turn.turn, limits).store;
    StoreGrows(w.seen, w.store, next, turn.turn.at);
    MovingOnIsRemembered(w.seen, w.seen + next.jobs.Values, w.store.jobs, next.jobs);
    MoreIsKnown(digest, w.seen, w.seen + next.jobs.Values, w.queue);
  }

  lemma {:induction false} QueueTurnKeeps(digest: Digest, w: World, turn: Turn, limits: Admission.Limits)
    requires Consistent(digest, w, TimeOf(turn)) && ProperTurn(w, turn) && !turn.StoreTurn?
    ensures Consistent(digest, Next(digest, w, turn, limits), TimeOf(turn))
  {
    match turn
    case QueueTurn(op, now) => OpsKeepKnown(digest, w.seen, w.queue, op, now, w.issued);
    case PublishTurn(job, now) => ReadJobIsPublished(digest, w.seen, w.queue, job, now);
  }

  lemma {:induction false} OrderlyPrefix(digest: Digest, turns: seq<Turn>, limits: Admission.Limits, n: nat)
    requires Orderly(digest, turns, limits) && n <= |turns|
    ensures Orderly(digest, turns[..n], limits)
  {
    forall i | 0 <= i < n ensures ProperTurn(Play(digest, turns[..n][..i], limits), turns[..n][i]) {
      assert turns[..n][..i] == turns[..i];
      assert ProperTurn(Play(digest, turns[..i], limits), turns[i]);
    }
  }

  lemma ConsistentLater(digest: Digest, w: World, now: Time, later: Time)
    requires Consistent(digest, w, now) && now <= later
    ensures Consistent(digest, w, later)
  {}

  lemma StartIsConsistent(digest: Digest, now: Time)
    requires GoodDigest(digest)
    ensures Consistent(digest, START, now)
  {}

  lemma {:induction false} EveryWorldIsConsistent(digest: Digest, turns: seq<Turn>, limits: Admission.Limits, now: Time)
    requires GoodDigest(digest) && Orderly(digest, turns, limits)
    requires turns != [] ==> TimeOf(turns[|turns| - 1]) <= now
    ensures Consistent(digest, Play(digest, turns, limits), now)
  {
    if turns == [] {
      StartIsConsistent(digest, now);
    } else {
      var n := |turns| - 1;
      OrderlyPrefix(digest, turns, limits, n);
      EveryWorldIsConsistent(digest, turns[..n], limits, TimeOf(turns[n]));
      assert turns[..|turns|] == turns && ProperTurn(Play(digest, turns[..n], limits), turns[n]);
      if turns[n].StoreTurn? {
        StoreTurnKeeps(digest, Play(digest, turns[..n], limits), turns[n], limits);
      } else {
        QueueTurnKeeps(digest, Play(digest, turns[..n], limits), turns[n], limits);
      }
      ConsistentLater(digest, Play(digest, turns, limits), TimeOf(turns[n]), now);
    }
  }

  /** After every run of store and queue together each queued envelope is behind its job, or equal to what the job gives. */
  lemma {:induction false} QueueAgreesOverRuns(digest: Digest, turns: seq<Turn>, limits: Admission.Limits, id: string)
    requires GoodDigest(digest) && Orderly(digest, turns, limits) && id in Play(digest, turns, limits).queue.entries
    ensures var w := Play(digest, turns, limits); Agrees(digest, w.store.jobs, w.queue.entries[id].envelope)
  {
    var w := Play(digest, turns, limits);
    EveryWorldIsConsistent(digest, turns, limits, if turns == [] then 0 else TimeOf(turns[|turns| - 1]));
    ReadEnvelopeAgrees(digest, w.seen, w.store.jobs, w.queue.entries[id].envelope);
  }

  /** Over every run, publishing a job that the store held at any moment before is never refused, however far the job has
      moved on, and changes nothing when its envelope is queued already, also as acknowledged or dead. */
  lemma {:induction false} PublishingNeverConflicts(
    digest: Digest, turns: seq<Turn>, limits: Admission.Limits, k: nat, job: AIJob, now: Time)
    requires GoodDigest(digest) && Orderly(digest, turns, limits)
    requires StoredAfter(digest, turns, limits, k, job) && NewEnvelope(digest, job).Some?
    ensures PublishesOnce(Play(digest, turns, limits).queue, NewEnvelope(digest, job).value, now)
  {
    var w := Play(digest, turns, limits);
    StoredIsSeen(digest, turns, limits, k, job);
    EveryWorldIsConsistent(digest, turns, limits, if turns == [] then 0 else TimeOf(turns[|turns| - 1]));
    RebuildIsSafe(digest, w.seen, w.queue, job, now);
  }

  /** So no publication in any run conflicts: neither one right after a claim nor a late one of a rebuild. */
  lemma {:induction false} NoPublicationConflicts(digest: Digest, turns: seq<Turn>, limits: Admission.Limits, i: nat)
    requires GoodDigest(digest) && Orderly(digest, turns, limits) && i < |turns|
    requires turns[i].PublishTurn? && NewEnvelope(digest, turns[i].job).Some?
    ensures PublishesOnce(Play(digest, turns[..i], limits).queue, NewEnvelope(digest, turns[i].job).value, turns[i].now)
  {
    OrderlyPrefix(digest, turns, limits, i);
    assert ProperTurn(Play(digest, turns[..i], limits), turns[i]);
    var k := SeenWasStored(digest, turns[..i], limits, turns[i].job);
    PublishingNeverConflicts(digest, turns[..i], limits, k, turns[i].job, turns[i].now);
  }
}
