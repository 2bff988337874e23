/** What each script of the Redis queue does to the next delivery: what is published when, who may settle it, and what the
    replies mean. */
module RedisAnswers {
  import opened Text
  import opened JobModel
  import Delivery = DeliveryQueue
  import opened Fold
  import opened RedisDelivery

  /** A promotion at time `t` may take the message. */
  predicate Promotable(r: Redis, m: Message, t: Time) {
    m in r.delayed && r.delayed[m] <= t
  }

  /** A message is added at once, or when its delay is over and not before. */
  ghost predicate AddedAfter(r: Redis, s: Redis, m: Message, delay: int, now: Time, t: Time) {
    if delay <= 0 then s.stream == r.stream[r.nextID := m] && s.nextID == r.nextID + 1 && s.delayed == r.delayed
    else
      && s.stream == r.stream && s.nextID == r.nextID && s.delayed.Keys == r.delayed.Keys + {m}
      && (Promotable(s, m, t) <==> t >= now + delay)
  }

  /** A key is taken when it holds another envelope. */
  predicate Taken(r: Redis, key: string, e: Delivery.Envelope) {
    key in r.dedupe && r.dedupe[key] != e
  }

  /** A publication conflicts exactly when one of its keys is taken, is a repetition when one of them holds the envelope
      already, and otherwise writes: its message is there at once or after the delay. A failed write leaves nothing. */
  lemma {:induction false} PublicationsAreAnswered(
    r: Redis, e: Delivery.Envelope, key: string, delay: int, now: Time, fails: bool, t: Time)
    ensures var (s, answer) := PublishScript(r, e, key, delay, now, fails);
            && (answer == Conflicting <==> Taken(r, key, e) || Taken(r, e.deliveryID, e))
            && (answer == Nothing <==> answer != Conflicting && (key in r.dedupe || e.deliveryID in r.dedupe))
            && (answer == Broken <==> key !in r.dedupe && e.deliveryID !in r.dedupe && fails)
            && (answer in {Conflicting, Broken} ==> s == r)
            && (answer in {Nothing, Done} ==> s.dedupe == r.dedupe[key := e][e.deliveryID := e])
            && (answer == Nothing ==> s == r.(dedupe := s.dedupe))
            && (answer == Done ==>
                  && AddedAfter(r, s, Message(e, 0, ""), delay, now, t)
                  && s == r.(dedupe := s.dedupe, stream := s.stream, nextID := s.nextID, delayed := s.delayed))
  {}

  /** Over every run exactly the leased messages have a token. */
  lemma {:induction false} LeasesHaveTokens(turns: seq<Turn>)
    ensures Run(turns).tokens.Keys == Run(turns).leases.Keys
  {
    if turns != [] {
      var n := |turns| - 1;
      LeasesHaveTokens(turns[..n]);
      StepKeepsTokens(Run(turns[..n]), turns[n].step, turns[n].at);
    }
  }

  lemma {:induction false} StepKeepsTokens(r: Redis, step: Step, now: Time)
    requires r.tokens.Keys == r.leases.Keys
    ensures After(r, step, now).tokens.Keys == After(r, step, now).leases.Keys
  {
    match step
    case Acking(id, _) => ForgetKeepsTokens(r, id);
    case Burying(id, _, _) => ForgetKeepsTokens(r, id);
    case Nacking(id, _, _, _) => ForgetKeepsTokens(r, id);
    case Establishing(id, token, until) => ClaimKeepsTokens(r, id, token, until, now);
    case Reclaiming(id, token, until) => ClaimKeepsTokens(r, id, token, until, now);
    case Extending(id, token, duration) =>
      ForgetKeepsTokens(r, id);
      ExtendingKeepsTokens(r, id, token, duration, now);
    case _ =>
  }

  lemma ExtendingKeepsTokens(r: Redis, id: nat, token: string, duration: int, now: Time)
    requires r.tokens.Keys == r.leases.Keys && Forget(r, id).tokens.Keys == Forget(r, id).leases.Keys
    ensures Extended(r, id, token, duration, now).0.tokens.Keys == Extended(r, id, token, duration, now).0.leases.Keys
  {}

  lemma ForgetKeepsTokens(r: Redis, id: nat)
    requires r.tokens.Keys == r.leases.Keys
    ensures Forget(r, id).tokens.Keys == Forget(r, id).leases.Keys
    ensures Deleted(r, id).tokens.Keys == Deleted(r, id).leases.Keys
  {}

  lemma ClaimKeepsTokens(r: Redis, id: nat, token: string, until: Time, now: Time)
    requires r.tokens.Keys == r.leases.Keys
    ensures ClaimOne(r, id, token, until, now).tokens.Keys == ClaimOne(r, id, token, until, now).leases.Keys
  {}

  /** Whoever presents a token is told whether there is none, another one, one that ran out, or that it is good. */
  lemma {:induction false} TokensAreAnswered(turns: seq<Turn>, id: nat, token: string, now: Time)
    ensures var r := Run(turns);
            && (Check(r, id, token, now) == Held <==> id in r.leases && id in r.tokens && r.tokens[id] == token && now < r.leases[id])
            && (Check(r, id, token, now) == Vanished <==> id !in r.leases)
            && (Check(r, id, token, now) == Mismatched <==> id in r.leases && id in r.tokens && r.tokens[id] != token)
  {
    LeasesHaveTokens(turns);
  }

  ghost predicate Gone(r: Redis, s: Redis, id: nat) {
    && s.pending == r.pending - {id} && s.tokens == r.tokens - {id} && s.leases == r.leases - {id}
    && s.dedupe == r.dedupe
  }

  /** A settlement by the holder takes the message out; any other leaves the queue as it is and says why. */
  lemma {:induction false} AcksAreAnswered(r: Redis, id: nat, token: string, now: Time)
    requires Formed(r)
    ensures var (s, answer) := AckScript(r, id, token, now);
            && answer == Check(r, id, token, now)
            && if answer == Held
               then Gone(r, s, id) && s.stream == r.stream - {id} && s.nextID == r.nextID && s.delayed == r.delayed
                    && s.deadLetters == r.deadLetters
               else s == r
  {}

  /** A nack puts the given message back, at once or when the delay is over. */
  lemma {:induction false} NacksAreAnswered(r: Redis, id: nat, token: string, m: Message, delay: int, now: Time, t: Time)
    requires Formed(r)
    ensures var (s, answer) := NackScript(r, id, token, m, delay, now);
            && answer == Check(r, id, token, now)
            && if answer == Held
               then Gone(r, s, id) && AddedAfter(r.(stream := r.stream - {id}), s, m, delay, now, t) && s.deadLetters == r.deadLetters
               else s == r
  {}

  lemma {:induction false} BurialsAreAnswered(r: Redis, id: nat, token: string, payload: Delivery.Envelope, now: Time)
    requires Formed(r)
    ensures var (s, answer) := DeadLetterScript(r, id, token, payload, now);
            && answer == Check(r, id, token, now)
            && if answer == Held
               then Gone(r, s, id) && s.stream == r.stream - {id} && s.nextID == r.nextID && s.delayed == r.delayed
                    && s.deadLetters == r.deadLetters + [payload]
               else s == r
  {}

  /** An extension by the holder keeps the message until the later of the old and the new end. */
  lemma {:induction false} ExtensionsAreAnswered(r: Redis, id: nat, token: string, duration: int, now: Time, t: Time)
    requires Formed(r)
    ensures var (s, answer) := Extended(r, id, token, duration, now);
            && answer == Check(r, id, token, now)
            && if answer == Held
               then && (Check(s, id, token, t) == Held <==> t < r.leases[id] || t < now + duration)
                    && s == r.(leases := s.leases, pending := r.pending[id := now]) && s.leases.Keys == r.leases.Keys
                    && forall other :: other in r.leases && other != id ==> s.leases[other] == r.leases[other]
               else s == r
  {}

  /** A read makes new messages pending. One that gets no lease may be reclaimed once it has been idle long enough. */
  lemma {:induction false} ReadsAreAnswered(r: Redis, ids: set<nat>, now: Time, id: nat, minIdle: int, t: Time)
    requires Formed(r)
    ensures var s := After(r, Reading(ids), now);
            && s == r.(pending := s.pending)
            && (id in s.pending <==> id in r.pending || (id in ids && id in r.stream))
            && (id in r.pending ==> s.pending[id] == r.pending[id])
            && (id in s.pending && id !in r.pending ==> (Reclaimable(s, id, t, minIdle) <==> t >= now + minIdle))
  {}

  /** A lease is put on a pending message only; its token works until its end, and from then on the message may be
      reclaimed. */
  lemma {:induction false} LeasesAreAnswered(
    r: Redis, id: nat, token: string, until: Time, now: Time, other: string, minIdle: int, t: Time)
    requires Formed(r)
    ensures var s := After(r, Establishing(id, token, until), now);
            && s == After(r, Reclaiming(id, token, until), now)
            && if id in r.pending
               then && s == r.(tokens := s.tokens, leases := s.leases, pending := r.pending[id := now])
                    && (Check(s, id, other, t) == Held <==> other == token && t < until)
                    && (Reclaimable(s, id, t, minIdle) <==> t >= until)
                    && s.tokens - {id} == r.tokens - {id} && s.leases - {id} == r.leases - {id}
               else s == r
  {}

  /** A promotion moves a delayed message to the end of the stream. */
  lemma {:induction false} PromotionsAreAnswered(r: Redis, m: Message, now: Time)
    ensures var s := After(r, Promoting(m), now);
            if m in r.delayed
            then s == r.(stream := r.stream[r.nextID := m], nextID := r.nextID + 1, delayed := s.delayed)
                 && s.delayed == r.delayed - {m}
            else s == r
  {}

  // Which idle messages a reclaim takes.

  ghost predicate Ascending(ids: seq<nat>) {
    forall i, j :: 0 <= i < j < |ids| ==> ids[i] < ids[j]
  }

  lemma AppendAscends(ids: seq<nat>, last: nat, more: seq<nat>)
    requires Ascending(ids) && (forall id :: id in ids ==> id < last) && more == ids + [last]
    ensures Ascending(more)
  {
    forall i | 0 <= i < |ids| ensures ids[i] < last { assert ids[i] in ids; }
  }

  lemma {:induction false} IdleIDsAscend(r: Redis, now: Time, minIdle: int, n: nat)
    ensures Ascending(IdleIDs(r, now, minIdle, n))
  {
    if n > 0 {
      var m := n - 1;
      IdleIDsAscend(r, now, minIdle, m);
      var before := IdleIDs(r, now, minIdle, m);
      AppendAscends(before, m, before + [m]);
      assert before + [] == before;
    }
  }

  lemma {:induction false} FilterAscends(keep: nat -> bool, ids: seq<nat>)
    requires Ascending(ids)
    ensures Ascending(Filter(keep, ids))
  {
    if ids != [] {
      var n := |ids| - 1;
      FilterAscends(keep, ids[..n]);
      FilterMeans(keep, ids[..n]);
      var kept := Filter(keep, ids[..n]);
      forall id | id in kept ensures id < ids[n] { assert id in ids[..n]; }
      AppendAscends(kept, ids[n], kept + [ids[n]]);
      assert kept + [] == kept;
    }
  }

  lemma {:induction false} SmallerComesEarlier(ids: seq<nat>, id: nat, b: nat)
    requires Ascending(ids) && b < |ids| && id in ids && id < ids[b]
    ensures id in ids[..b]
  {
    var a: nat :| a < |ids| && ids[a] == id;
    assert a < b;
    assert ids[..b][a] == id;
  }

  /** Idle messages are taken in the order of their ids: the older one without a lease before the younger. */
  lemma {:induction false} IdleMessagesGoByID(
    r: Redis, now: Time, minIdle: int, scan: nat, room: int, orphans: seq<nat>, id: nat, b: nat)
    requires Formed(r) && orphans == UpTo(Leaseless(r.leases, IdlePending(r, now, minIdle, scan)), room) && b < |orphans|
    requires id in r.pending && id !in r.leases && r.pending[id] + minIdle <= now && id < orphans[b]
    ensures id in orphans[..b]
  {
    var all, idle := IdleIDs(r, now, minIdle, r.nextID), IdlePending(r, now, minIdle, scan);
    IdleIDsAscend(r, now, minIdle, r.nextID);
    assert id in all;
    FilterAscends(Lacks(r.leases), idle);
    KeptInOrder(all, idle, r.leases, scan, room, orphans, id, b);
  }

  lemma {:induction false} KeptInOrder(
    all: seq<nat>, idle: seq<nat>, leases: map<nat, Time>, scan: nat, room: int, orphans: seq<nat>, id: nat, b: nat)
    requires Ascending(all) && idle == UpTo(all, scan) && Ascending(Leaseless(leases, idle))
    requires orphans == UpTo(Leaseless(leases, idle), room) && b < |orphans| && id in all && id !in leases
    requires id < orphans[b]
    ensures id in orphans[..b]
  {
    var kept := Leaseless(leases, idle);
    assert orphans[b] == kept[b] && orphans[b] in kept && orphans[b] in idle;
    var j: nat :| j < |idle| && idle[j] == orphans[b];
    SmallerComesEarlier(all, id, j);
    assert all[..j] == idle[..j] && id in idle;
    SmallerComesEarlier(kept, id, b);
    assert kept[..b] == orphans[..b];
  }

  // Delays over runs.

  /** Each promotion takes a message that is due. */
  ghost predicate PromotesDue(turns: seq<Turn>) {
    forall i :: 0 <= i < |turns| && turns[i].step.Promoting? ==> Promotable(Run(turns[..i]), turns[i].step.message, turns[i].at)
  }

  ghost predicate Waiting(r: Redis, m: Message, due: Time) {
    InStream(r, m.envelope) == {} && m in r.delayed && r.delayed[m] == due
  }

  lemma {:induction false} StepKeepsWaiting(r: Redis, step: Step, now: Time, m: Message, due: Time)
    requires Formed(r) && At(r, m.envelope, Live) && Waiting(r, m, due) && Honest(r, step) && step != Promoting(m)
    ensures Waiting(After(r, step, now), m, due)
  {
    var e := m.envelope;
    OnlyWaiting(r, m, due);
    if step.Publishing? {
      var p := Message(step.envelope, 0, "");
      var keyed := WithKeys(r, step.envelope, step.callerKey);
      assert SameCopies(r, keyed, e);
      AppendCopies(keyed, p, e);
      DelayCopies(keyed, p, now + step.delay, e);
    } else if step.Nacking? {
      NackKeepsWaiting(r, step, now, m, due);
    } else if step.Promoting? {
      AppendCopies(r, step.message, e);
      if step.message in r.delayed { assert step.message.envelope != e by { assert step.message !in InDelayed(r, e); } }
    } else if step.Acking? || step.Burying? {
      assert InStream(After(r, step, now), e) <= InStream(r, e);
    } else {
      OthersMoveNothing(r, step, now);
    }
  }

  lemma {:induction false} OnlyWaiting(r: Redis, m: Message, due: Time)
    requires At(r, m.envelope, Live) && Waiting(r, m, due)
    ensures InDelayed(r, m.envelope) == {m}
  {
    assert m in InDelayed(r, m.envelope);
  }

  lemma {:induction false} NackKeepsWaiting(r: Redis, step: Step, now: Time, m: Message, due: Time)
    requires Formed(r) && Waiting(r, m, due) && step.Nacking? && Honest(r, step)
    ensures Waiting(After(r, step, now), m, due)
  {
    var gone := Deleted(r, step.id);
    if Check(r, step.id, step.token, now) == Held && step.id in r.pending {
      assert r.stream[step.id].envelope != m.envelope by { assert step.id !in InStream(r, m.envelope); }
      assert InStream(gone, m.envelope) == {} by { assert InStream(gone, m.envelope) <= InStream(r, m.envelope); }
      AppendCopies(gone, step.message, m.envelope);
    }
  }

  /** Over every run a delayed message stays out of the stream until it is due. */
  lemma {:induction false} DelayedMessagesWait(turns: seq<Turn>, n: nat, m: Message, due: Time)
    requires KeepsKey(turns, m.envelope) && PromotesDue(turns) && n <= |turns|
    requires Waiting(Run(turns[..n]), m, due) && At(Run(turns[..n]), m.envelope, Live)
    requires forall j :: n <= j < |turns| ==> turns[j].at < due
    ensures Waiting(Run(turns), m, due)
    decreases |turns| - n
  {
    if n == |turns| {
      assert turns[..n] == turns;
    } else {
      var r := Run(turns[..n]);
      EveryRunIsFormed(turns[..n]);
      assert turns[..n + 1][..n] == turns[..n];
      StepKeepsWaiting(r, turns[n].step, turns[n].at, m, due);
      StepMoves(r, turns[n].step, turns[n].at, m.envelope, Live);
      StaysLive(r, turns[n].step, turns[n].at, m, due);
      DelayedMessagesWait(turns, n + 1, m, due);
    }
  }

  /** Nothing settles an envelope that is not in the stream. */
  lemma {:induction false} StaysLive(r: Redis, step: Step, now: Time, m: Message, due: Time)
    requires Waiting(r, m, due)
    ensures Moved(r, step, now, m.envelope, Live) == Live
  {
    if (step.Acking? || step.Burying?) && step.id in r.stream { NotThere(r, m.envelope, step.id); }
  }

  lemma NotThere(r: Redis, e: Delivery.Envelope, id: nat)
    requires InStream(r, e) == {} && id in r.stream
    ensures r.stream[id].envelope != e
  {
    assert id !in InStream(r, e);
  }
}
