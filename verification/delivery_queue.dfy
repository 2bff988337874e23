/** The delivery queue in its single-process form: at-least-once delivery with visibility leases and deduplication. */
module DeliveryQueue {
  import opened Text
  import opened JobModel
  import opened Fold
  import opened Sorting

  /** The digest behind delivery ids. */
  type Digest = (string, string, int, int) -> string

  const SCHEMA_VERSION := 1

  datatype Envelope = Envelope(
    schemaVersion: int, deliveryID: string, jobID: string, operationID: string, statusVersion: int, fenceToken: int,
    queueLeaseToken: string)

  function ExpectedID(digest: Digest, jobID: string, operationID: string, statusVersion: int, fenceToken: int): string {
    if Trim(jobID) == "" || Trim(operationID) == "" || statusVersion <= 0 || fenceToken <= 0 then ""
    else digest(jobID, operationID, statusVersion, fenceToken)
  }

  predicate ValidEnvelope(digest: Digest, e: Envelope) {
    && e.schemaVersion == SCHEMA_VERSION && Trim(e.deliveryID) != "" && Trim(e.jobID) != "" && Trim(e.operationID) != ""
    && e.statusVersion > 0 && e.fenceToken > 0 && Trim(e.queueLeaseToken) != ""
    && e.deliveryID == ExpectedID(digest, e.jobID, e.operationID, e.statusVersion, e.fenceToken)
  }

  datatype DeliveryStatus = Pending | InFlight | Acked | Dead

  datatype QueueEntry = QueueEntry(
    envelope: Envelope, dedupeKey: string, status: DeliveryStatus, availableAt: Time, leaseUntil: Time,
    leaseToken: string, consumer: string, attempt: nat, sequence: nat, lastError: string)

  datatype Queue = Queue(entries: map<string, QueueEntry>, byDedupe: map<string, string>, nextSequence: nat)

  // What each operation does to one entry.

  predicate Expired(e: QueueEntry, now: Time) {
    e.status == InFlight && e.leaseUntil <= now
  }

  function Unleased(e: QueueEntry, status: DeliveryStatus): QueueEntry {
    e.(status := status, leaseUntil := 0, leaseToken := "", consumer := "")
  }

  function Reclaimed(e: QueueEntry, now: Time): QueueEntry {
    if Expired(e, now) then Unleased(e, Pending).(availableAt := now) else e
  }

  predicate Receivable(e: QueueEntry, now: Time) {
    e.status == Pending && e.availableAt <= now
  }

  function LeasedTo(e: QueueEntry, consumer: string, token: string, until: Time): QueueEntry {
    e.(status := InFlight, attempt := e.attempt + 1, consumer := consumer, leaseToken := token, leaseUntil := until)
  }

  predicate HoldsLease(e: QueueEntry, token: string, now: Time) {
    e.status == InFlight && e.leaseToken != "" && e.leaseToken == token && e.leaseUntil > now
  }

  datatype Op =
    | Publish(envelope: Envelope, dedupeKey: string, availableAt: Time)
    | Receive(consumer: string, tokens: map<string, string>, until: Time)
    | Extend(id: string, token: string, leaseUntil: Time)
    | Ack(id: string, token: string)
    | Nack(id: string, token: string, retryAt: Time, reason: string)
    | DeadLetter(id: string, token: string, reason: string)

  predicate Addresses(op: Op, id: string, e: QueueEntry, now: Time) {
    !op.Publish? && !op.Receive? && Trim(op.id) == id && HoldsLease(e, op.token, now)
  }

  function After(op: Op, id: string, e: QueueEntry, now: Time): QueueEntry {
    match op
    case Publish(_, _, _) => e
    case Receive(consumer, tokens, until) =>
      if id in tokens then LeasedTo(Reclaimed(e, now), consumer, tokens[id], until) else Reclaimed(e, now)
    case Extend(_, _, until) => if Addresses(op, id, e, now) && until > now then e.(leaseUntil := until) else e
    case Ack(_, _) => if Addresses(op, id, e, now) then Unleased(e, Acked) else e
    case Nack(_, _, retryAt, reason) =>
      if Addresses(op, id, e, now) then
        Unleased(e, Pending).(availableAt := if retryAt == 0 || retryAt < now then now else retryAt, lastError := Trim(reason))
      else e
    case DeadLetter(_, _, reason) =>
      if Addresses(op, id, e, now) then Unleased(e, Dead).(lastError := Trim(reason)) else e
  }

  datatype PublishResult = Published | Duplicate | DedupeConflict | InvalidEnvelope

  /** The key that an empty dedupe key stands for. */
  function KeyOf(envelope: Envelope, dedupeKey: string): string {
    if Trim(dedupeKey) == "" then Trim(envelope.deliveryID) else Trim(dedupeKey)
  }

  function PublishVerdict(q: Queue, envelope: Envelope, key: string): PublishResult {
    if key == "" then InvalidEnvelope
    else if key in q.byDedupe then
      if q.byDedupe[key] in q.entries && q.entries[q.byDedupe[key]].envelope != envelope then DedupeConflict else Duplicate
    else if envelope.deliveryID in q.entries then
      if q.entries[envelope.deliveryID].envelope != envelope || q.entries[envelope.deliveryID].dedupeKey != key
      then DedupeConflict else Duplicate
    else Published
  }

  function NewEntry(q: Queue, envelope: Envelope, key: string, availableAt: Time, now: Time): QueueEntry {
    QueueEntry(envelope, key, Pending, if availableAt == 0 then now else availableAt, 0, "", "", 0, q.nextSequence + 1, "")
  }

  function Do(q: Queue, op: Op, now: Time): Queue {
    match op
    case Publish(envelope, dedupeKey, availableAt) =>
      var key := KeyOf(envelope, dedupeKey);
      if PublishVerdict(q, envelope, key) != Published then q
      else
        Queue(q.entries[envelope.deliveryID := NewEntry(q, envelope, key, availableAt, now)],
              q.byDedupe[key := envelope.deliveryID], q.nextSequence + 1)
    case _ => q.(entries := map id | id in q.entries :: After(op, id, q.entries[id], now))
  }

  // What the queue keeps.

  ghost predicate EntryFits(q: Queue, id: string, e: QueueEntry) {
    && e.envelope.deliveryID == id && e.dedupeKey in q.byDedupe && q.byDedupe[e.dedupeKey] == id
    && e.sequence <= q.nextSequence && (e.status == InFlight <==> e.leaseToken != "")
  }

  /** Dedupe keys and entries are in bijection, and sequence numbers are distinct. */
  ghost predicate Valid(q: Queue) {
    && (forall id :: id in q.entries ==> EntryFits(q, id, q.entries[id]))
    && (forall key :: key in q.byDedupe ==> q.byDedupe[key] in q.entries && q.entries[q.byDedupe[key]].dedupeKey == key)
    && (forall a, b :: a in q.entries && b in q.entries && a != b ==> q.entries[a].sequence != q.entries[b].sequence)
  }

  /** Tokens are random: no new one was ever issued before, and no two entries get the same. */
  ghost predicate FreshTokens(op: Op, issued: set<string>) {
    op.Receive? ==>
      && (forall id :: id in op.tokens ==> op.tokens[id] != "" && op.tokens[id] !in issued)
      && (forall a, b :: a in op.tokens && b in op.tokens && a != b ==> op.tokens[a] != op.tokens[b])
  }

  ghost predicate Proper(q: Queue, op: Op, now: Time, issued: set<string>) {
    && now > 0 && FreshTokens(op, issued)
    && (op.Receive? ==> op.until > now && forall id :: id in op.tokens ==>
                          id in q.entries && Receivable(Reclaimed(q.entries[id], now), now))
  }

  /** One operation never changes what an entry is, closes it for good, and counts deliveries. */
  lemma {:induction false} AfterFits(op: Op, id: string, e: QueueEntry, now: Time)
    requires e.status == InFlight <==> e.leaseToken != ""
    requires op.Receive? && id in op.tokens ==> op.tokens[id] != "" && Receivable(Reclaimed(e, now), now)
    ensures var next := After(op, id, e, now);
            && next.envelope == e.envelope && next.dedupeKey == e.dedupeKey && next.sequence == e.sequence
            && (next.status == InFlight <==> next.leaseToken != "")
            && (e.status in {Acked, Dead} ==> next == e)
  {}

  lemma {:induction false} DoKeepsValid(q: Queue, op: Op, now: Time, issued: set<string>)
    requires Valid(q) && Proper(q, op, now, issued)
    ensures Valid(Do(q, op, now))
    ensures q.entries.Keys <= Do(q, op, now).entries.Keys
  {
    var next := Do(q, op, now);
    if op.Publish? {
      PublishKeepsValid(q, op, now);
    } else {
      forall id | id in q.entries
        ensures EntryFits(next, id, next.entries[id]) && next.entries[id].sequence == q.entries[id].sequence
        ensures next.entries[id].dedupeKey == q.entries[id].dedupeKey
      {
        assert EntryFits(q, id, q.entries[id]);
        AfterFits(op, id, q.entries[id], now);
      }
    }
  }

  lemma {:induction false} PublishKeepsValid(q: Queue, op: Op, now: Time)
    requires Valid(q) && op.Publish?
    ensures Valid(Do(q, op, now)) && q.entries.Keys <= Do(q, op, now).entries.Keys
  {
    var next := Do(q, op, now);
    if next != q {
      forall id | id in next.entries ensures EntryFits(next, id, next.entries[id]) {
        if id != op.envelope.deliveryID { assert EntryFits(q, id, q.entries[id]); }
      }
      forall a, b | a in next.entries && b in next.entries && a != b
        ensures next.entries[a].sequence != next.entries[b].sequence
      {
        if a in q.entries { assert EntryFits(q, a, q.entries[a]); }
        if b in q.entries { assert EntryFits(q, b, q.entries[b]); }
      }
    }
  }

  /** Acknowledged and dead entries never change again. */
  lemma {:induction false} ClosedEntriesStay(q: Queue, op: Op, now: Time, issued: set<string>, id: string)
    requires Valid(q) && Proper(q, op, now, issued) && id in q.entries && q.entries[id].status in {Acked, Dead}
    ensures id in Do(q, op, now).entries && Do(q, op, now).entries[id] == q.entries[id]
  {
    assert EntryFits(q, id, q.entries[id]);
    AfterFits(op, id, q.entries[id], now);
  }

  /** Publishing an envelope again changes nothing and is no conflict, whatever happened to it meanwhile. */
  lemma {:induction false} RepublishChangesNothing(q: Queue, envelope: Envelope, dedupeKey: string, availableAt: Time, now: Time)
    requires Valid(q) && envelope.deliveryID in q.entries
    requires q.entries[envelope.deliveryID].envelope == envelope
    requires q.entries[envelope.deliveryID].dedupeKey == KeyOf(envelope, dedupeKey) != ""
    ensures PublishVerdict(q, envelope, KeyOf(envelope, dedupeKey)) == Duplicate
    ensures Do(q, Publish(envelope, dedupeKey, availableAt), now) == q
  {}

  // Leases.

  ghost predicate Tracks(q: Queue, issued: set<string>) {
    forall id :: id in q.entries && q.entries[id].status == InFlight ==> q.entries[id].leaseToken in issued
  }

  ghost function Issue(issued: set<string>, op: Op): set<string> {
    if op.Receive? then issued + set id | id in op.tokens :: op.tokens[id] else issued
  }

  ghost predicate Works(q: Queue, id: string, token: string, now: Time) {
    id in q.entries && HoldsLease(q.entries[id], token, now)
  }

  lemma {:induction false} IssuedTokensGrow(q: Queue, op: Op, now: Time, issued: set<string>)
    requires Valid(q) && Proper(q, op, now, issued) && Tracks(q, issued)
    ensures Tracks(Do(q, op, now), Issue(issued, op))
  {
    var next := Do(q, op, now);
    forall id | id in next.entries && next.entries[id].status == InFlight
      ensures next.entries[id].leaseToken in Issue(issued, op)
    {
      if op.Receive? && id in op.tokens { assert op.tokens[id] in Issue(issued, op); }
    }
  }

  /** A token that was issued and does not work any more never works again: not for its entry, and not for another. */
  lemma {:induction false} SupersededTokensStayDead(
    q: Queue, op: Op, now: Time, later: Time, issued: set<string>, id: string, token: string)
    requires Valid(q) && Proper(q, op, now, issued) && now <= later
    requires token in issued && !Works(q, id, token, now)
    ensures !Works(Do(q, op, now), id, token, later)
  {}

  /** A token works for at most one entry. */
  ghost predicate TokensApart(q: Queue) {
    forall a, b :: a in q.entries && b in q.entries && a != b && q.entries[a].status == q.entries[b].status == InFlight ==>
      q.entries[a].leaseToken != q.entries[b].leaseToken
  }

  /** A leased entry got its token now or had it before. */
  lemma {:induction false} TokenOrigin(op: Op, id: string, e: QueueEntry, now: Time)
    requires After(op, id, e, now).status == InFlight
    ensures if op.Receive? && id in op.tokens then After(op, id, e, now).leaseToken == op.tokens[id]
            else e.status == InFlight && After(op, id, e, now).leaseToken == e.leaseToken
  {}

  lemma {:induction false} TokensStayApart(q: Queue, op: Op, now: Time, issued: set<string>)
    requires Proper(q, op, now, issued) && Tracks(q, issued) && TokensApart(q)
    ensures TokensApart(Do(q, op, now))
  {
    var next := Do(q, op, now);
    if !op.Publish? {
      forall a, b | a in next.entries && b in next.entries && a != b && next.entries[a].status == next.entries[b].status == InFlight
        ensures next.entries[a].leaseToken != next.entries[b].leaseToken
      {
        TokenOrigin(op, a, q.entries[a], now);
        TokenOrigin(op, b, q.entries[b], now);
      }
    }
  }

  // Attempts.

  /** How often each entry was given back and how often its lease ran out. */
  datatype Tally = Tally(nacks: map<string, nat>, expiries: map<string, nat>)

  function Of(counts: map<string, nat>, id: string): nat {
    if id in counts then counts[id] else 0
  }

  /** The tally after an operation. */
  ghost function Tallied(q: Queue, tally: Tally, op: Op, now: Time): Tally {
    Tally(
      map id | id in q.entries :: Of(tally.nacks, id) + if op.Nack? && Addresses(op, id, q.entries[id], now) then 1 else 0,
      map id | id in q.entries :: Of(tally.expiries, id) + if op.Receive? && Expired(q.entries[id], now) then 1 else 0)
  }

  ghost predicate Counted(e: QueueEntry, nacks: nat, expiries: nat) {
    e.attempt == nacks + expiries + if e.status == Pending then 0 else 1
  }

  ghost predicate AttemptsFit(q: Queue, tally: Tally) {
    && tally.nacks.Keys <= q.entries.Keys && tally.expiries.Keys <= q.entries.Keys
    && forall id :: id in q.entries ==> Counted(q.entries[id], Of(tally.nacks, id), Of(tally.expiries, id))
  }

  lemma {:induction false} AfterCounted(op: Op, id: string, e: QueueEntry, now: Time, nacks: nat, expiries: nat)
    requires Counted(e, nacks, expiries) && !op.Publish?
    requires op.Receive? && id in op.tokens ==> Receivable(Reclaimed(e, now), now)
    ensures Counted(After(op, id, e, now), nacks + (if op.Nack? && Addresses(op, id, e, now) then 1 else 0),
                    expiries + if op.Receive? && Expired(e, now) then 1 else 0)
  {}

  /** Every delivery attempt is accounted for: it was given back, its lease ran out, or it is the current or last one. */
  lemma {:induction false} AttemptsAddUp(q: Queue, tally: Tally, op: Op, now: Time, issued: set<string>)
    requires Proper(q, op, now, issued) && AttemptsFit(q, tally)
    ensures AttemptsFit(Do(q, op, now), Tallied(q, tally, op, now))
  {
    var next, tallied := Do(q, op, now), Tallied(q, tally, op, now);
    forall id | id in next.entries
      ensures Counted(next.entries[id], Of(tallied.nacks, id), Of(tallied.expiries, id))
    {
      if id in q.entries {
        assert Counted(q.entries[id], Of(tally.nacks, id), Of(tally.expiries, id));
        if !op.Publish? { AfterCounted(op, id, q.entries[id], now, Of(tally.nacks, id), Of(tally.expiries, id)); }
      }
    }
  }

  // Order.

  predicate Earlier(a: QueueEntry, b: QueueEntry) {
    a.availableAt < b.availableAt || (a.availableAt == b.availableAt && a.sequence < b.sequence)
  }

  ghost function ReadyIDs(entries: map<string, QueueEntry>, now: Time): set<string> {
    set id | id in entries && Receivable(entries[id], now)
  }

  /** The first ready entries: sorted, and every ready entry left out comes after them. */
  ghost predicate FirstReady(entries: map<string, QueueEntry>, now: Time, limit: nat, ids: seq<string>) {
    && Distinct(ids) && (forall id :: id in ids ==> id in entries && Receivable(entries[id], now))
    && (forall i, j :: 0 <= i < j < |ids| ==> Earlier(entries[ids[i]], entries[ids[j]]))
    && (forall i, id :: 0 <= i < |ids| && id in ReadyIDs(entries, now) && id !in ids ==> Earlier(entries[ids[i]], entries[id]))
    && |ids| <= limit && (|ids| < limit ==> forall id :: id in ReadyIDs(entries, now) ==> id in ids)
  }

  // Waking up.

  /** When an entry can next be received if nothing else happens; zero for never. */
  function WakeTime(e: QueueEntry): Time {
    match e.status
    case Pending => e.availableAt
    case InFlight => e.leaseUntil
    case _ => 0
  }

  predicate ReceivableAfterReclaim(e: QueueEntry, t: Time) {
    Receivable(Reclaimed(e, t), t)
  }

  /** The earliest wake time after `now`; zero when there is none. */
  ghost predicate IsNextWake(entries: map<string, QueueEntry>, now: Time, next: Time) {
    if next == 0 then forall id :: id in entries ==> WakeTime(entries[id]) <= now
    else
      && next > now && (exists id :: id in entries && WakeTime(entries[id]) == next)
      && forall id :: id in entries && WakeTime(entries[id]) > now ==> WakeTime(entries[id]) >= next
  }

  /** When nothing can be received now, something can be received at a later moment exactly from the wake time on. */
  lemma {:induction false} WakesInTime(entries: map<string, QueueEntry>, now: Time, next: Time, t: Time)
    requires now > 0 && t >= now && IsNextWake(entries, now, next)
    requires forall id :: id in entries ==> !ReceivableAfterReclaim(entries[id], now)
    ensures (exists id :: id in entries && ReceivableAfterReclaim(entries[id], t)) <==> next != 0 && next <= t
  {}

  // Runs.

  datatype Turn = Turn(op: Op, at: Time)

  /** The queue with every token issued so far and the tally of returned and expired deliveries. */
  datatype Tracked = Tracked(queue: Queue, issued: set<string>, tally: Tally)

  ghost function Run(turns: seq<Turn>): Tracked {
    if turns == [] then Tracked(Queue(map[], map[], 0), {}, Tally(map[], map[]))
    else
      var before, turn := Run(turns[..|turns| - 1]), turns[|turns| - 1];
      Tracked(Do(before.queue, turn.op, turn.at), Issue(before.issued, turn.op),
              Tallied(before.queue, before.tally, turn.op, turn.at))
  }

  ghost predicate Orderly(turns: seq<Turn>) {
    && (forall i, j :: 0 <= i < j < |turns| ==> turns[i].at <= turns[j].at)
    && (forall i :: 0 <= i < |turns| ==> Proper(Run(turns[..i]).queue, turns[i].op, turns[i].at, Run(turns[..i]).issued))
  }

  ghost predicate Sound(t: Tracked) {
    Valid(t.queue) && Tracks(t.queue, t.issued) && TokensApart(t.queue) && AttemptsFit(t.queue, t.tally)
  }

  lemma {:induction false} OrderlyPrefix(turns: seq<Turn>, n: nat)
    requires Orderly(turns) && n <= |turns|
    ensures Orderly(turns[..n])
  {
    forall i | 0 <= i < n
      ensures Proper(Run(turns[..n][..i]).queue, turns[..n][i].op, turns[..n][i].at, Run(turns[..n][..i]).issued)
    {
      assert turns[..n][..i] == turns[..i];
    }
  }

  lemma StartIsSound()
    ensures Sound(Tracked(Queue(map[], map[], 0), {}, Tally(map[], map[])))
  {}

  /** After every run: dedupe keys and entries are in bijection, current tokens were issued and are all different, and
      every attempt is accounted for. */
  lemma {:induction false} EveryRunIsSound(turns: seq<Turn>)
    requires Orderly(turns)
    ensures Sound(Run(turns))
  {
    if turns == [] {
      StartIsSound();
    } else {
      var n := |turns| - 1;
      OrderlyPrefix(turns, n);
      EveryRunIsSound(turns[..n]);
      var before := Run(turns[..n]);
      DoKeepsValid(before.queue, turns[n].op, turns[n].at, before.issued);
      IssuedTokensGrow(before.queue, turns[n].op, turns[n].at, before.issued);
      TokensStayApart(before.queue, turns[n].op, turns[n].at, before.issued);
      AttemptsAddUp(before.queue, before.tally, turns[n].op, turns[n].at, before.issued);
    }
  }

  /** Once a token stops working it never works again, whatever happens. */
  lemma {:induction false} TokensDieOnce(turns: seq<Turn>, n: nat, id: string, token: string, now: Time)
    requires Orderly(turns) && n <= |turns| && token in Run(turns[..n]).issued
    requires n < |turns| ==> now <= turns[n].at
    requires !Works(Run(turns[..n]).queue, id, token, now)
    ensures forall later :: now <= later && (turns != [] ==> turns[|turns| - 1].at <= later) ==>
              !Works(Run(turns).queue, id, token, later)
    decreases |turns| - n
  {
    if n == |turns| {
      assert turns[..n] == turns;
    } else {
      var before, at := Run(turns[..n]), turns[n].at;
      OrderlyPrefix(turns, n);
      EveryRunIsSound(turns[..n]);
      LaterWorksLess(before.queue, id, token, now, at);
      SupersededTokensStayDead(before.queue, turns[n].op, at, at, before.issued, id, token);
      assert turns[..n + 1][..n] == turns[..n];
      TokensDieOnce(turns, n + 1, id, token, at);
    }
  }

  lemma LaterWorksLess(q: Queue, id: string, token: string, now: Time, later: Time)
    requires !Works(q, id, token, now) && now <= later
    ensures !Works(q, id, token, later)
  {}

  // The queue as code.

  datatype Delivery = Delivery(
    id: string, envelope: Envelope, consumer: string, attempt: nat, leaseUntil: Time, leaseToken: string)

  datatype LeaseResult = LeaseOk | NotFound | LeaseConflict | LeaseExpired

  function LeaseVerdict(q: Queue, id: string, token: string, now: Time): LeaseResult {
    if Trim(id) !in q.entries then NotFound
    else
      var e := q.entries[Trim(id)];
      if e.status != InFlight || e.leaseToken == "" || e.leaseToken != token then LeaseConflict
      else if e.leaseUntil <= now then LeaseExpired
      else LeaseOk
  }

  function ReclaimAll(entries: map<string, QueueEntry>, now: Time): map<string, QueueEntry> {
    map id | id in entries :: Reclaimed(entries[id], now)
  }

  function LeaseAll(entries: map<string, QueueEntry>, consumer: string, tokens: map<string, string>, until: Time): map<string, QueueEntry> {
    map id | id in entries :: if id in tokens then LeasedTo(entries[id], consumer, tokens[id], until) else entries[id]
  }

  lemma ReceiveIsReclaimAndLease(q: Queue, consumer: string, tokens: map<string, string>, until: Time, now: Time)
    ensures Do(q, Receive(consumer, tokens, until), now)
         == q.(entries := LeaseAll(ReclaimAll(q.entries, now), consumer, tokens, until))
  {}

  function AvailableOf(entries: map<string, QueueEntry>, id: string): int {
    if id in entries then entries[id].availableAt else 0
  }

  function SequenceOf(entries: map<string, QueueEntry>, id: string): int {
    if id in entries then entries[id].sequence else -1
  }

  /** The order of the ids of one queue, extended to all strings. */
  predicate Before(entries: map<string, QueueEntry>, a: string, b: string) {
    || AvailableOf(entries, a) < AvailableOf(entries, b)
    || (AvailableOf(entries, a) == AvailableOf(entries, b) && SequenceOf(entries, a) < SequenceOf(entries, b))
  }

  function InOrder(entries: map<string, QueueEntry>): (string, string) -> bool {
    (a, b) => Before(entries, a, b)
  }

  lemma InOrderIsOrder(entries: map<string, QueueEntry>)
    ensures Orders(InOrder(entries))
  {}

  lemma {:induction false} PermutedDistinct<T>(xs: seq<T>, ys: seq<T>)
    requires Distinct(xs) && multiset(xs) == multiset(ys)
    ensures Distinct(ys) && |ys| == |xs| && forall x :: x in xs <==> x in ys
  {
    assert |multiset(xs)| == |xs| && |multiset(ys)| == |ys|;
    forall x ensures x in xs <==> x in ys { assert x in multiset(xs) <==> x in multiset(ys); }
    forall i, j | 0 <= i < j < |ys| ensures ys[i] != ys[j] {
      if ys[i] == ys[j] {
        assert ys == ys[..i] + [ys[i]] + ys[i + 1..j] + [ys[j]] + ys[j + 1..];
        CountOne(xs, ys[i]);
        assert false;
      }
    }
  }

  ghost predicate SequencesApart(entries: map<string, QueueEntry>) {
    forall a, b :: a in entries && b in entries && a != b ==> entries[a].sequence != entries[b].sequence
  }

  lemma {:induction false} SortedReady(entries: map<string, QueueEntry>, now: Time, ids: seq<string>)
    requires Distinct(ids) && SequencesApart(entries) && forall id :: id in ids <==> id in ReadyIDs(entries, now)
    ensures FirstReady(entries, now, |ids|, SortBy(InOrder(entries), ids))
  {
    var sorted := SortBy(InOrder(entries), ids);
    InOrderIsOrder(entries);
    SortBySorts(InOrder(entries), ids);
    PermutedDistinct(ids, sorted);
    forall k | 0 <= k < |sorted| ensures sorted[k] in ReadyIDs(entries, now) { assert sorted[k] in sorted; }
    forall i, j | 0 <= i < j < |sorted| ensures Earlier(entries[sorted[i]], entries[sorted[j]]) {
      assert !InOrder(entries)(sorted[j], sorted[i]) && sorted[i] != sorted[j];
    }
  }

  lemma {:induction false} CutStaysFirst(entries: map<string, QueueEntry>, now: Time, limit: nat, all: seq<string>)
    requires FirstReady(entries, now, |all|, all) && forall id :: id in ReadyIDs(entries, now) ==> id in all
    requires limit < |all|
    ensures FirstReady(entries, now, limit, all[..limit])
  {}

  /** Sorting the ready ids and cutting the list gives the first ready entries. */
  lemma {:induction false} SortedIsFirst(entries: map<string, QueueEntry>, now: Time, limit: nat, ids: seq<string>)
    requires Distinct(ids) && SequencesApart(entries) && forall id :: id in ids <==> id in ReadyIDs(entries, now)
    ensures var sorted := SortBy(InOrder(entries), ids);
            FirstReady(entries, now, limit, if |sorted| > limit then sorted[..limit] else sorted)
  {
    SortedReady(entries, now, ids);
    InOrderIsOrder(entries);
    SortBySorts(InOrder(entries), ids);
    PermutedDistinct(ids, SortBy(InOrder(entries), ids));
    if |ids| > limit { CutStaysFirst(entries, now, limit, SortBy(InOrder(entries), ids)); }
  }

  function DeliveryFor(e: QueueEntry): Delivery {
    Delivery(e.envelope.deliveryID, e.envelope, e.consumer, e.attempt, e.leaseUntil, e.leaseToken)
  }

  /** The deliveries of the leased entries, in order, each with its own token. */
  ghost predicate HandsOut(
    entries: map<string, QueueEntry>, ids: seq<string>, supply: seq<string>, tokens: map<string, string>, out: seq<Delivery>)
  {
    && |out| == |ids| <= |supply| && (forall id :: id in tokens <==> id in ids)
    && (forall i :: 0 <= i < |ids| ==> ids[i] in tokens && tokens[ids[i]] == supply[i])
    && (forall i :: 0 <= i < |ids| ==> ids[i] in entries && out[i] == DeliveryFor(entries[ids[i]]))
  }

  class MemoryDeliveryQueue {
    var entries: map<string, QueueEntry>
    var byDedupe: map<string, string>
    var nextSequence: nat
    const digest: Digest
    const deliveryLease: Time

    function Model(): Queue
      reads this
    {
      Queue(entries, byDedupe, nextSequence)
    }

    constructor (digest: Digest, deliveryLease: Time)
      requires deliveryLease > 0
      ensures Model() == Queue(map[], map[], 0) && Valid(Model())
      ensures this.digest == digest && this.deliveryLease == deliveryLease
    {
      entries, byDedupe, nextSequence := map[], map[], 0;
      this.digest, this.deliveryLease := digest, deliveryLease;
    }

    method PublishEnvelope(envelope: Envelope, dedupeKey: string, availableAt: Time, now: Time) returns (result: PublishResult)
      modifies this
      ensures if !ValidEnvelope(digest, envelope) then result == InvalidEnvelope && Model() == old(Model())
              else
                && result == old(PublishVerdict(Model(), envelope, KeyOf(envelope, dedupeKey)))
                && Model() == old(Do(Model(), Publish(envelope, dedupeKey, availableAt), now))
    {
      if !ValidEnvelope(digest, envelope) { return InvalidEnvelope; }
      var key := Trim(dedupeKey);
      if key == "" { key := Trim(envelope.deliveryID); }
      if key == "" { return InvalidEnvelope; }
      if key in byDedupe {
        if byDedupe[key] in entries && entries[byDedupe[key]].envelope != envelope { return DedupeConflict; }
        return Duplicate;
      }
      if envelope.deliveryID in entries {
        var existing := entries[envelope.deliveryID];
        if existing.envelope != envelope || existing.dedupeKey != key { return DedupeConflict; }
        return Duplicate;
      }
      entries := entries[envelope.deliveryID := NewEntry(Model(), envelope, key, availableAt, now)];
      byDedupe := byDedupe[key := envelope.deliveryID];
      nextSequence := nextSequence + 1;
      result := Published;
    }

    method ReclaimExpired(now: Time)
      modifies `entries
      ensures entries == ReclaimAll(old(entries), now)
    {
      var left, before := entries.Keys, entries;
      while left != {}
        invariant left <= before.Keys
        invariant entries == map id | id in before :: if id in left then before[id] else Reclaimed(before[id], now)
        decreases |left|
      {
        var id :| id in left;
        left := left - {id};
        if entries[id].status == InFlight && entries[id].leaseUntil <= now {
          entries := entries[id := Unleased(entries[id], Pending).(availableAt := now)];
        }
      }
    }

    method ReadyEntries(now: Time, limit: nat) returns (ids: seq<string>)
      requires SequencesApart(entries)
      ensures FirstReady(entries, now, limit, ids)
    {
      var ready: seq<string> := [];
      var left := entries.Keys;
      while left != {}
        invariant left <= entries.Keys && Distinct(ready)
        invariant forall id :: id in ready <==> id in ReadyIDs(entries, now) && id !in left
        decreases |left|
      {
        var id :| id in left;
        left := left - {id};
        if Receivable(entries[id], now) { ready := ready + [id]; }
      }
      SortedIsFirst(entries, now, limit, ready);
      ids := SortBy(InOrder(entries), ready);
      if |ids| > limit { ids := ids[..limit]; }
    }

    /** One pass of the receive loop. `supply` holds the random tokens. */
    method ReceiveOnce(consumer: string, limit: nat, supply: seq<string>, now: Time)
      returns (out: seq<Delivery>, ghost ids: seq<string>, ghost tokens: map<string, string>)
      requires SequencesApart(entries) && limit <= |supply| && Distinct(supply)
      modifies `entries
      ensures Model() == old(Do(Model(), Receive(consumer, tokens, now + deliveryLease), now))
      ensures FirstReady(ReclaimAll(old(entries), now), now, limit, ids) && HandsOut(entries, ids, supply, tokens, out)
    {
      out, ids, tokens := LeaseReady(consumer, limit, supply, now);
      ReceiveIsReclaimAndLease(old(Model()), consumer, tokens, now + deliveryLease, now);
    }

    method LeaseReady(consumer: string, limit: nat, supply: seq<string>, now: Time)
      returns (out: seq<Delivery>, ghost ids: seq<string>, ghost tokens: map<string, string>)
      requires SequencesApart(entries) && limit <= |supply|
      modifies `entries
      ensures entries == LeaseAll(ReclaimAll(old(entries), now), consumer, tokens, now + deliveryLease)
      ensures FirstReady(ReclaimAll(old(entries), now), now, limit, ids) && HandsOut(entries, ids, supply, tokens, out)
    {
      ReclaimExpired(now);
      ReclaimKeepsIDs(old(entries), now);
      var ready := ReadyEntries(now, limit);
      ids := ready;
      out, tokens := LeaseEntries(consumer, ready, supply, now);
    }

    method LeaseEntries(consumer: string, ids: seq<string>, supply: seq<string>, now: Time)
      returns (out: seq<Delivery>, ghost tokens: map<string, string>)
      requires Distinct(ids) && |ids| <= |supply| && forall id :: id in ids ==> id in entries
      modifies `entries
      ensures entries == LeaseAll(old(entries), consumer, tokens, now + deliveryLease)
      ensures HandsOut(entries, ids, supply, tokens, out)
    {
      out, tokens := [], map[];
      for i := 0 to |ids|
        invariant HandsOut(entries, ids[..i], supply, tokens, out)
        invariant entries == LeaseAll(old(entries), consumer, tokens, now + deliveryLease)
      {
        var id := ids[i];
        assert id in ids && id !in ids[..i];
        assert id !in tokens && entries[id] == old(entries)[id];
        entries := entries[id := LeasedTo(entries[id], consumer, supply[i], now + deliveryLease)];
        tokens := tokens[id := supply[i]];
        out := out + [DeliveryFor(entries[id])];
        assert ids[..i + 1] == ids[..i] + [id];
      }
      assert ids[..|ids|] == ids;
    }

    method ExtendLease(id: string, token: string, leaseUntil: Time, now: Time) returns (result: LeaseResult)
      modifies `entries
      ensures result == (if leaseUntil <= now then LeaseExpired else old(LeaseVerdict(Model(), id, token, now)))
      ensures Model() == old(Do(Model(), Extend(id, token, leaseUntil), now))
    {
      if leaseUntil <= now {
        SameEntries(Model(), Extend(id, token, leaseUntil), now);
        return LeaseExpired;
      }
      result := LeaseVerdict(Model(), id, token, now);
      if result != LeaseOk {
        SameEntries(Model(), Extend(id, token, leaseUntil), now);
        return;
      }
      OneEntry(Model(), Extend(id, token, leaseUntil), now);
      entries := entries[Trim(id) := entries[Trim(id)].(leaseUntil := leaseUntil)];
    }

    /** Acknowledges, returns or buries a delivery. */
    method Settle(op: Op, now: Time) returns (result: LeaseResult)
      requires op.Ack? || op.Nack? || op.DeadLetter?
      modifies `entries
      ensures result == old(LeaseVerdict(Model(), op.id, op.token, now))
      ensures Model() == old(Do(Model(), op, now))
    {
      result := LeaseVerdict(Model(), op.id, op.token, now);
      if result != LeaseOk {
        SameEntries(Model(), op, now);
        return;
      }
      OneEntry(Model(), op, now);
      var id := Trim(op.id);
      var e := entries[id];
      match op
      case Ack(_, _) => entries := entries[id := Unleased(e, Acked)];
      case Nack(_, _, retryAt, reason) =>
        var at := if retryAt == 0 || retryAt < now then now else retryAt;
        entries := entries[id := Unleased(e, Pending).(availableAt := at, lastError := Trim(reason))];
      case DeadLetter(_, _, reason) => entries := entries[id := Unleased(e, Dead).(lastError := Trim(reason))];
    }

    method NextWake(now: Time) returns (next: Time)
      requires now > 0
      ensures IsNextWake(entries, now, next)
    {
      next := 0;
      var left := entries.Keys;
      while left != {}
        invariant left <= entries.Keys && (next == 0 || next > now)
        invariant next != 0 ==> exists id :: id in entries && WakeTime(entries[id]) == next
        invariant forall id :: id in entries && id !in left && WakeTime(entries[id]) > now ==> next != 0 && WakeTime(entries[id]) >= next
        decreases |left|
      {
        var id :| id in left;
        left := left - {id};
        var candidate := WakeTime(entries[id]);
        if candidate > now && (next == 0 || candidate < next) { next := candidate; }
      }
    }
  }

  /** A receive with fresh random tokens is a proper operation of a run. */
  lemma {:induction false} ReceivesAreProper(
    q: Queue, consumer: string, limit: nat, supply: seq<string>, ids: seq<string>, tokens: map<string, string>,
    entries: map<string, QueueEntry>, out: seq<Delivery>, until: Time, now: Time, issued: set<string>)
    requires FirstReady(ReclaimAll(q.entries, now), now, limit, ids) && HandsOut(entries, ids, supply, tokens, out)
    requires Distinct(supply) && (forall token :: token in supply ==> token != "" && token !in issued)
    requires until > now > 0
    ensures Proper(q, Receive(consumer, tokens, until), now, issued)
  {
    forall id | id in tokens ensures exists i :: 0 <= i < |ids| && ids[i] == id && tokens[id] == supply[i] && supply[i] in supply {
      var i :| 0 <= i < |ids| && ids[i] == id;
      assert supply[i] in supply;
    }
  }

  lemma ReclaimKeepsIDs(entries: map<string, QueueEntry>, now: Time)
    requires SequencesApart(entries)
    ensures SequencesApart(ReclaimAll(entries, now))
  {}

  /** A refused settlement changes nothing. */
  lemma {:induction false} SameEntries(q: Queue, op: Op, now: Time)
    requires op.Extend? || op.Ack? || op.Nack? || op.DeadLetter?
    requires LeaseVerdict(q, op.id, op.token, now) != LeaseOk || (op.Extend? && op.leaseUntil <= now)
    ensures Do(q, op, now) == q
  {}

  /** An accepted one changes the addressed entry only. */
  lemma {:induction false} OneEntry(q: Queue, op: Op, now: Time)
    requires op.Extend? || op.Ack? || op.Nack? || op.DeadLetter?
    requires LeaseVerdict(q, op.id, op.token, now) == LeaseOk
    ensures Do(q, op, now).entries == q.entries[Trim(op.id) := After(op, Trim(op.id), q.entries[Trim(op.id)], now)]
    ensures Addresses(op, Trim(op.id), q.entries[Trim(op.id)], now)
  {}
}
