/** What each operation of the delivery queue means for the next delivery: when an entry can be received again, and by whom
    it can be settled until then. */
module DeliveryAnswers {
  import opened Text
  import opened JobModel
  import opened DeliveryQueue
  import opened DeliveryWorker

  /** A receive at time `t` may hand the entry out. */
  ghost predicate CanBeReceived(q: Queue, id: string, t: Time) {
    id in q.entries && ReceivableAfterReclaim(q.entries[id], t)
  }

  /** What never changes: the envelope, its key and its place in line. */
  ghost predicate SameEntry(q: Queue, next: Queue, id: string) {
    && id in q.entries && id in next.entries && next.entries[id].envelope == q.entries[id].envelope
    && next.entries[id].dedupeKey == q.entries[id].dedupeKey && next.entries[id].sequence == q.entries[id].sequence
  }

  ghost predicate OthersStay(q: Queue, next: Queue, id: string) {
    && next.byDedupe == q.byDedupe && next.nextSequence == q.nextSequence && next.entries.Keys == q.entries.Keys
    && forall other :: other in q.entries && other != id ==> next.entries[other] == q.entries[other]
  }

  /** Nobody holds the entry. */
  ghost predicate Free(q: Queue, id: string) {
    forall token, t :: !Works(q, id, token, t)
  }

  /** A new entry can be received from the time on that its publisher asked for, at once when that is unset or past. */
  lemma {:induction false} PublishedEntriesWait(q: Queue, e: Envelope, key: string, availableAt: Time, now: Time, t: Time)
    requires PublishVerdict(q, e, KeyOf(e, key)) == Published && t >= now
    ensures var next := Do(q, Publish(e, key, availableAt), now);
            && (CanBeReceived(next, e.deliveryID, t) <==> availableAt == 0 || t >= availableAt)
            && Free(next, e.deliveryID) && next.entries[e.deliveryID].envelope == e && next.entries[e.deliveryID].attempt == 0
  {}

  /** Entries stand in line in the order of their publication. */
  lemma {:induction false} NewEntriesComeLast(
    q: Queue, e: Envelope, key: string, availableAt: Time, now: Time, id: string)
    requires Valid(q) && PublishVerdict(q, e, KeyOf(e, key)) == Published && id in q.entries
    ensures var next := Do(q, Publish(e, key, availableAt), now).entries;
            id in next && next[id] == q.entries[id] && next[id].sequence < next[e.deliveryID].sequence
  {
    assert EntryFits(q, id, q.entries[id]);
  }

  /** What is available earlier is handed out earlier, and among equals what was published earlier. */
  lemma {:induction false} DeliveriesGoInOrder(q: Queue, now: Time, limit: nat, ids: seq<string>, id: string, b: nat)
    requires FirstReady(q.entries, now, limit, ids) && b < |ids|
    requires id in q.entries && q.entries[id].status == Pending && q.entries[id].availableAt <= now
    requires ids[b] in q.entries
    requires var x, y := q.entries[id], q.entries[ids[b]];
             x.availableAt < y.availableAt || (x.availableAt == y.availableAt && x.sequence < y.sequence)
    ensures id in ids[..b]
  {
    assert id in ReadyIDs(q.entries, now);
    assert id in ids;
    var a: nat :| a < |ids| && ids[a] == id;
    if a < b { assert ids[..b][a] == id; }
  }

  /** After a nack the entry can be received from the retry time on, and at once when that is unset or past. */
  lemma {:induction false} NackedEntriesWait(
    q: Queue, id: string, token: string, retryAt: Time, reason: string, now: Time, t: Time)
    requires Works(q, Trim(id), token, now) && t >= now
    ensures var next := Do(q, Nack(id, token, retryAt, reason), now);
            && (CanBeReceived(next, Trim(id), t) <==> retryAt == 0 || t >= retryAt)
            && Free(next, Trim(id)) && SameEntry(q, next, Trim(id)) && OthersStay(q, next, Trim(id))
            && next.entries[Trim(id)].attempt == q.entries[Trim(id)].attempt && next.entries[Trim(id)].lastError == Trim(reason)
  {
    OneEntry(q, Nack(id, token, retryAt, reason), now);
  }

  /** An acknowledged entry is never received again. */
  lemma {:induction false} AckedEntriesAreGone(q: Queue, id: string, token: string, now: Time, t: Time)
    requires Works(q, Trim(id), token, now)
    ensures var next := Do(q, Ack(id, token), now);
            && !CanBeReceived(next, Trim(id), t) && Free(next, Trim(id))
            && SameEntry(q, next, Trim(id)) && OthersStay(q, next, Trim(id))
            && next.entries[Trim(id)].status == Acked && next.entries[Trim(id)].attempt == q.entries[Trim(id)].attempt
  {
    OneEntry(q, Ack(id, token), now);
  }

  /** Nor is one that was buried, and its reason is kept. */
  lemma {:induction false} BuriedEntriesAreGone(q: Queue, id: string, token: string, reason: string, now: Time, t: Time)
    requires Works(q, Trim(id), token, now)
    ensures var next := Do(q, DeadLetter(id, token, reason), now);
            && !CanBeReceived(next, Trim(id), t) && Free(next, Trim(id))
            && SameEntry(q, next, Trim(id)) && OthersStay(q, next, Trim(id))
            && next.entries[Trim(id)].status == Dead && next.entries[Trim(id)].lastError == Trim(reason)
  {
    OneEntry(q, DeadLetter(id, token, reason), now);
  }

  /** An extended lease keeps the entry from others until its new end, and its holder keeps it until then. */
  lemma {:induction false} ExtendedEntriesAreKept(q: Queue, id: string, token: string, until: Time, now: Time, t: Time)
    requires Works(q, Trim(id), token, now) && until > now
    ensures var next := Do(q, Extend(id, token, until), now);
            && (CanBeReceived(next, Trim(id), t) <==> t >= until)
            && (Works(next, Trim(id), token, t) <==> t < until)
            && SameEntry(q, next, Trim(id)) && OthersStay(q, next, Trim(id))
            && next.entries[Trim(id)].attempt == q.entries[Trim(id)].attempt
  {
    OneEntry(q, Extend(id, token, until), now);
  }

  /** Without a lease that works nothing can be done to any entry, and no lease is extended into the past. */
  lemma {:induction false} RefusalsChangeNothing(q: Queue, op: Op, now: Time)
    requires !op.Publish? && !op.Receive?
    requires !Works(q, Trim(op.id), op.token, now) || (op.Extend? && op.leaseUntil <= now)
    ensures Do(q, op, now) == q
  {
    assert forall id :: id in q.entries ==> After(op, id, q.entries[id], now) == q.entries[id];
  }

  /** A delivery keeps its entry from others until the lease ends, and only the token that it carries works until then. */
  lemma {:induction false} DeliveredEntriesAreKept(
    q: Queue, consumer: string, tokens: map<string, string>, until: Time, now: Time, issued: set<string>, id: string, token: string, t: Time)
    requires Valid(q) && Proper(q, Receive(consumer, tokens, until), now, issued) && id in tokens
    ensures var next := Do(q, Receive(consumer, tokens, until), now);
            && (CanBeReceived(next, id, t) <==> t >= until)
            && (Works(next, id, token, t) <==> token == tokens[id] && t < until)
            && SameEntry(q, next, id) && next.entries[id].attempt == q.entries[id].attempt + 1 && next.entries[id].consumer == consumer
            && CanBeReceived(q, id, now)
  {}

  /** A receive leaves an entry that it does not hand out as it was, unless its lease ran out: then it is free at once. */
  lemma {:induction false} OtherEntriesAreReclaimed(
    q: Queue, consumer: string, tokens: map<string, string>, until: Time, now: Time, id: string, t: Time)
    requires id in q.entries && id !in tokens && t >= now
    ensures var next := Do(q, Receive(consumer, tokens, until), now);
            if q.entries[id].status == InFlight && q.entries[id].leaseUntil <= now
            then CanBeReceived(next, id, t) && Free(next, id) && SameEntry(q, next, id)
            else next.entries[id] == q.entries[id]
  {}

  /** What is handed out: the entry's envelope and attempt, and the credentials that settle it. */
  lemma {:induction false} DeliveriesCarryTheirLease(
    q: Queue, entries: map<string, QueueEntry>, ids: seq<string>, supply: seq<string>, tokens: map<string, string>, out: seq<Delivery>,
    consumer: string, until: Time, now: Time, issued: set<string>, i: nat, t: Time)
    requires Valid(q) && Proper(q, Receive(consumer, tokens, until), now, issued)
    requires entries == Do(q, Receive(consumer, tokens, until), now).entries
    requires HandsOut(entries, ids, supply, tokens, out) && i < |out|
    ensures out[i].id == ids[i] && ids[i] in q.entries && out[i].envelope == q.entries[ids[i]].envelope
    ensures out[i].attempt == q.entries[ids[i]].attempt + 1 && out[i].consumer == consumer && out[i].leaseUntil == until
    ensures Works(Do(q, Receive(consumer, tokens, until), now), out[i].id, out[i].leaseToken, t) <==> t < until
  {
    assert ids[i] in tokens && ids[i] in q.entries && EntryFits(q, ids[i], q.entries[ids[i]]);
    DeliveredEntriesAreKept(q, consumer, tokens, until, now, issued, ids[i], tokens[ids[i]], t);
  }

  /** A settlement is accepted from the live holder only, and a refusal says what is wrong. */
  lemma {:induction false} SettlementsAreAnswered(q: Queue, id: string, token: string, now: Time)
    requires Valid(q)
    ensures var answer := LeaseVerdict(q, id, token, now);
            && (answer == LeaseOk <==> Works(q, Trim(id), token, now))
            && (answer == NotFound <==> Trim(id) !in q.entries)
            && (answer == LeaseExpired <==> !Works(q, Trim(id), token, now) && exists t :: t <= now && Works(q, Trim(id), token, t))
  {
    if Trim(id) in q.entries {
      var e := q.entries[Trim(id)];
      assert EntryFits(q, Trim(id), e);
      if LeaseVerdict(q, id, token, now) == LeaseExpired { assert Works(q, Trim(id), token, e.leaseUntil - 1); }
    }
  }

  /** A publication is new when neither its key nor its delivery id is known, a repetition when the same envelope is known
      under the same key, and otherwise a conflict. */
  lemma {:induction false} PublicationsAreAnswered(q: Queue, e: Envelope, key: string)
    requires Valid(q) && key != ""
    ensures var answer := PublishVerdict(q, e, key);
            && (answer == Published <==> e.deliveryID !in q.entries && forall id :: id in q.entries ==> q.entries[id].dedupeKey != key)
            && (answer == Duplicate <==> exists id :: id in q.entries && q.entries[id].dedupeKey == key && q.entries[id].envelope == e)
            && answer in {Published, Duplicate, DedupeConflict}
  {
    forall id | id in q.entries ensures EntryFits(q, id, q.entries[id]) {}
    if key in q.byDedupe {
      var known := q.byDedupe[key];
      assert known in q.entries && q.entries[known].dedupeKey == key;
    }
  }

  /** An empty key stands for the delivery id; spaces around a key do not matter. */
  lemma KeysAreTrimmed(e: Envelope, key: string)
    ensures KeyOf(e, key) == Trim(KeyOf(e, key)) && KeyOf(e, Trim(key)) == KeyOf(e, key)
    ensures Trim(key) == "" ==> KeyOf(e, key) == KeyOf(e, e.deliveryID)
    ensures Trim(key) != "" ==> KeyOf(e, key) == Trim(key)
  {}

  // Envelopes and jobs.

  /** A job gives an envelope exactly when it has trimmed ids, a version, a fence and a lease token. */
  lemma {:induction false} EnvelopesAreAnswered(digest: Digest, job: AIJob)
    requires GoodDigest(digest)
    ensures NewEnvelope(digest, job).Some?
            <==> && Trimmed(job.id) && job.id != "" && Trimmed(job.operationID) && job.operationID != ""
                 && job.statusVersion > 0 && job.fenceToken > 0 && Trim(job.queueLeaseToken) != ""
  {
    if NewEnvelope(digest, job).Some? { EnvelopeNamesItsJob(digest, job); }
  }

  /** A worker takes an envelope for current exactly when its job would give it now and the lease is in force. */
  lemma {:induction false} CurrentEnvelopesMatch(digest: Digest, job: AIJob, e: Envelope, now: Time)
    requires GoodDigest(digest) && ValidEnvelope(digest, e) && e.jobID == job.id && Trimmed(job.id)
    requires Trimmed(e.operationID)
    ensures Matches(job, e, now)
            <==> && job.status == Dispatching && job.queueLeaseUntil.Some? && now < job.queueLeaseUntil.value
                 && NewEnvelope(digest, job) == Some(e.(queueLeaseToken := Trim(e.queueLeaseToken)))
  {
    if NewEnvelope(digest, job).Some? { EnvelopeNamesItsJob(digest, job); }
  }
}
