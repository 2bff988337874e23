/** The Redis form of the delivery queue: scripts move messages between a stream with its pending list, a delayed set
    and dead letters. Each script is one atomic step. */
module RedisDelivery {
  import opened Text
  import opened JobModel
  import opened DeliveryQueue
  import opened Fold

  /** What a stream message and a member of the delayed set carry. */
  datatype Message = Message(envelope: Envelope, attemptBase: nat, lastError: string)

  datatype Redis = Redis(
    stream: map<nat, Message>, nextID: nat, pending: map<nat, Time>, tokens: map<nat, string>, leases: map<nat, Time>,
    delayed: map<Message, Time>, dedupe: map<string, Envelope>, deadLetters: seq<Envelope>)

  function EmptyRedis(): Redis {
    Redis(map[], 0, map[], map[], map[], map[], map[], [])
  }

  // The scripts.

  function Append(r: Redis, m: Message): Redis {
    r.(stream := r.stream[r.nextID := m], nextID := r.nextID + 1)
  }

  function Delay(r: Redis, m: Message, at: Time): Redis {
    r.(delayed := r.delayed[m := at])
  }

  /** Puts a message in the stream at once, or in the delayed set until it is due. */
  function Enqueue(r: Redis, m: Message, delay: int, now: Time): Redis {
    if delay <= 0 then Append(r, m) else Delay(r, m, now + delay)
  }

  function Existing(r: Redis, key: string): Option<Envelope> {
    if key in r.dedupe then Some(r.dedupe[key]) else None
  }

  function WithKeys(r: Redis, e: Envelope, callerKey: string): Redis {
    r.(dedupe := r.dedupe[callerKey := e][e.deliveryID := e])
  }

  datatype ScriptResult = Done | Nothing | Conflicting | Broken

  /** Publish. When the write itself fails, the keys it set are taken back. */
  function PublishScript(r: Redis, e: Envelope, callerKey: string, delay: int, now: Time, fails: bool): (Redis, ScriptResult) {
    var caller, canonical := Existing(r, callerKey), Existing(r, e.deliveryID);
    if (caller.Some? && caller.value != e) || (canonical.Some? && canonical.value != e) then (r, Conflicting)
    else if caller.Some? || canonical.Some? then (WithKeys(r, e, callerKey), Nothing)
    else if fails then (r, Broken)
    else (Enqueue(WithKeys(r, e, callerKey), Message(e, 0, ""), delay, now), Done)
  }

  function PromoteOne(r: Redis, m: Message): Redis {
    if m in r.delayed then Append(r, m).(delayed := r.delayed - {m}) else r
  }

  /** A read marks new messages as pending. For each pending message it is known when it was last delivered. */
  function Read(r: Redis, ids: set<nat>, now: Time): Redis {
    r.(pending := r.pending + map id | id in ids && id in r.stream && id !in r.pending :: now)
  }

  function Forget(r: Redis, id: nat): Redis {
    r.(tokens := r.tokens - {id}, leases := r.leases - {id})
  }

  /** Establishing a lease after a read, and reclaiming one that ran out, both claim a pending message. */
  function ClaimOne(r: Redis, id: nat, token: string, until: Time, now: Time): Redis {
    if id in r.pending then
      r.(tokens := r.tokens[id := token], leases := r.leases[id := until], pending := r.pending[id := now])
    else Forget(r, id)
  }

  function EstablishOne(r: Redis, id: nat, token: string, until: Time, now: Time): Redis {
    if id in r.pending then ClaimOne(r, id, token, until, now) else r
  }

  datatype LeaseReply = Held | Mismatched | Lapsed | Vanished

  function Check(r: Redis, id: nat, token: string, now: Time): LeaseReply {
    if id !in r.tokens then Vanished
    else if r.tokens[id] != token then Mismatched
    else if id !in r.leases || r.leases[id] <= now then Lapsed
    else Held
  }

  function Extended(r: Redis, id: nat, token: string, duration: int, now: Time): (Redis, LeaseReply) {
    if Check(r, id, token, now) != Held then (r, Check(r, id, token, now))
    else if id !in r.pending then (Forget(r, id), Vanished)
    else
      var touched := r.(pending := r.pending[id := now]);
      (if now + duration > r.leases[id] then touched.(leases := r.leases[id := now + duration]) else touched, Held)
  }

  function Deleted(r: Redis, id: nat): Redis {
    Forget(r, id).(pending := r.pending - {id}, stream := r.stream - {id})
  }

  function AckScript(r: Redis, id: nat, token: string, now: Time): (Redis, LeaseReply) {
    if Check(r, id, token, now) != Held then (r, Check(r, id, token, now))
    else if id !in r.pending then (Forget(r, id), Vanished)
    else (Deleted(r, id), Held)
  }

  /** Nack puts the delivery's own envelope back, at once or later. */
  function NackScript(r: Redis, id: nat, token: string, m: Message, delay: int, now: Time): (Redis, LeaseReply) {
    if Check(r, id, token, now) != Held then (r, Check(r, id, token, now))
    else if id !in r.pending then (r, Vanished)
    else (Enqueue(Deleted(r, id), m, delay, now), Held)
  }

  function DeadLetterScript(r: Redis, id: nat, token: string, payload: Envelope, now: Time): (Redis, LeaseReply) {
    if Check(r, id, token, now) != Held then (r, Check(r, id, token, now))
    else if id !in r.pending then (r, Vanished)
    else (Deleted(r, id).(deadLetters := r.deadLetters + [payload]), Held)
  }

  // Copies of one envelope.

  ghost function InStream(r: Redis, e: Envelope): set<nat> {
    set id | id in r.stream && r.stream[id].envelope == e
  }

  ghost function InDelayed(r: Redis, e: Envelope): set<Message> {
    set m | m in r.delayed && m.envelope == e
  }

  ghost predicate OneCopy(r: Redis, e: Envelope) {
    || (InDelayed(r, e) == {} && exists id :: InStream(r, e) == {id})
    || (InStream(r, e) == {} && exists m :: InDelayed(r, e) == {m})
  }

  ghost predicate NoCopy(r: Redis, e: Envelope) {
    InStream(r, e) == {} && InDelayed(r, e) == {}
  }

  /** Leased messages are pending, pending messages are in the stream, and ids are never used twice. */
  ghost predicate Formed(r: Redis) {
    && r.tokens.Keys <= r.pending.Keys && r.leases.Keys <= r.pending.Keys && r.pending.Keys <= r.stream.Keys
    && forall id :: id in r.stream ==> id < r.nextID
  }

  datatype Step =
    | Publishing(envelope: Envelope, callerKey: string, delay: int, fails: bool)
    | Promoting(message: Message)
    | Reading(ids: set<nat>)
    | Establishing(id: nat, token: string, until: Time)
    | Reclaiming(id: nat, token: string, until: Time)
    | Extending(id: nat, token: string, duration: int)
    | Acking(id: nat, token: string)
    | Nacking(id: nat, token: string, message: Message, delay: int)
    | Burying(id: nat, token: string, payload: Envelope)
    | Expiring(key: string)

  function After(r: Redis, step: Step, now: Time): Redis {
    match step
    case Publishing(e, callerKey, delay, fails) => PublishScript(r, e, callerKey, delay, now, fails).0
    case Promoting(m) => PromoteOne(r, m)
    case Reading(ids) => Read(r, ids, now)
    case Establishing(id, token, until) => EstablishOne(r, id, token, until, now)
    case Reclaiming(id, token, until) => ClaimOne(r, id, token, until, now)
    case Extending(id, token, duration) => Extended(r, id, token, duration, now).0
    case Acking(id, token) => AckScript(r, id, token, now).0
    case Nacking(id, token, m, delay) => NackScript(r, id, token, m, delay, now).0
    case Burying(id, token, payload) => DeadLetterScript(r, id, token, payload, now).0
    case Expiring(key) => r.(dedupe := r.dedupe - {key})
  }

  /** A worker returns the envelope it was given. */
  predicate Honest(r: Redis, step: Step) {
    match step
    case Nacking(id, _, m, _) => id in r.stream ==> m.envelope == r.stream[id].envelope
    case _ => true
  }

  /** Whether a step settles an envelope for good. */
  predicate Settles(r: Redis, step: Step, now: Time, e: Envelope) {
    && (step.Acking? || step.Burying?) && step.id in r.stream && r.stream[step.id].envelope == e
    && Check(r, step.id, step.token, now) == Held && step.id in r.pending
  }

  predicate Publishes(r: Redis, step: Step, now: Time, e: Envelope) {
    step.Publishing? && step.envelope == e && PublishScript(r, e, step.callerKey, step.delay, now, step.fails).1 == Done
  }

  ghost predicate FormedAfter(r: Redis, s: Redis) {
    Formed(s) && r.nextID <= s.nextID
  }

  lemma EnqueueKeepsFormed(r: Redis, m: Message, delay: int, now: Time)
    requires Formed(r)
    ensures FormedAfter(r, Enqueue(r, m, delay, now))
  {}

  lemma DeleteKeepsFormed(r: Redis, id: nat)
    requires Formed(r)
    ensures FormedAfter(r, Deleted(r, id))
  {}

  lemma {:induction false} StepsKeepFormed(r: Redis, step: Step, now: Time)
    requires Formed(r)
    ensures FormedAfter(r, After(r, step, now))
  {
    match step
    case Publishing(e, callerKey, delay, _) => EnqueueKeepsFormed(WithKeys(r, e, callerKey), Message(e, 0, ""), delay, now);
    case Acking(id, _) => DeleteKeepsFormed(r, id);
    case Burying(id, _, _) => DeleteKeepsFormed(r, id);
    case Nacking(id, _, m, delay) =>
      DeleteKeepsFormed(r, id);
      EnqueueKeepsFormed(Deleted(r, id), m, delay, now);
    case Establishing(id, token, until) => ClaimKeepsFormed(r, id, token, until, now);
    case Reclaiming(id, token, until) => ClaimKeepsFormed(r, id, token, until, now);
    case _ =>
  }

  lemma ClaimKeepsFormed(r: Redis, id: nat, token: string, until: Time, now: Time)
    requires Formed(r)
    ensures FormedAfter(r, ClaimOne(r, id, token, until, now))
  {}

  /** A stream id that was used and is gone never comes back, and nothing can be done with it. */
  lemma {:induction false} SettledIDsStayOut(r: Redis, step: Step, now: Time, id: nat, token: string, later: Time)
    requires Formed(r) && id < r.nextID && id !in r.stream
    ensures id !in After(r, step, now).stream && Check(After(r, step, now), id, token, later) == Vanished
  {
    StepsKeepFormed(r, step, now);
  }

  // Leases.

  /** A message that a reclaim may take: its lease ran out, or it was delivered long ago and never got one. */
  predicate Reclaimable(r: Redis, id: nat, now: Time, minIdle: int) {
    || (id in r.leases && r.leases[id] <= now)
    || (id in r.pending && id !in r.leases && r.pending[id] + minIdle <= now)
  }

  /** Leases are given for some time, and a reclaim takes what it may. */
  predicate Proper(r: Redis, step: Step, now: Time, minIdle: int) {
    match step
    case Establishing(_, _, until) => until > now
    case Reclaiming(id, _, until) => until > now && Reclaimable(r, id, now, minIdle)
    case _ => true
  }

  predicate GivesUp(step: Step, id: nat, token: string) {
    (step.Acking? || step.Nacking? || step.Burying?) && step.id == id && step.token == token
  }

  predicate Issues(step: Step, token: string) {
    (step.Establishing? || step.Reclaiming?) && step.token == token
  }

  /** A lease is lost before its end exactly when its holder settles the message, or when another reader of the same
      message establishes its own lease late: that script does not look for a lease. */
  lemma {:induction false} LeaseIsKept(r: Redis, step: Step, now: Time, id: nat, token: string, minIdle: int, later: Time)
    requires Formed(r) && Proper(r, step, now, minIdle) && !Issues(step, token)
    requires Check(r, id, token, later) == Held && now <= later
    ensures Check(After(r, step, now), id, token, later) == Held
            <==> !GivesUp(step, id, token) && !(step.Establishing? && step.id == id)
  {
    if step.Acking? || step.Nacking? || step.Burying? { SettlingEndsLease(r, step, now, id, token, later); }
  }

  lemma {:induction false} SettlingEndsLease(r: Redis, step: Step, now: Time, id: nat, token: string, later: Time)
    requires Formed(r) && (step.Acking? || step.Nacking? || step.Burying?)
    requires Check(r, id, token, later) == Held && now <= later
    ensures Check(After(r, step, now), id, token, later) == Held <==> step.id != id || step.token != token
  {}

  lemma {:induction false} DeadTokensStay(r: Redis, step: Step, now: Time, id: nat, token: string, later: Time)
    requires Check(r, id, token, now) != Held && now <= later && !Issues(step, token)
    ensures Check(After(r, step, now), id, token, later) != Held
  {
    if step.Acking? || step.Nacking? || step.Burying? { SettlingRevivesNothing(r, step, now, id, token, later); }
  }

  lemma {:induction false} SettlingRevivesNothing(r: Redis, step: Step, now: Time, id: nat, token: string, later: Time)
    requires (step.Acking? || step.Nacking? || step.Burying?) && Check(r, id, token, later) != Held
    ensures Check(After(r, step, now), id, token, later) != Held
  {}

  // Where an envelope is, step by step.

  datatype Place = Unpublished | Live | Settled

  /** The place of an envelope while its canonical dedupe key lives. */
  ghost predicate At(r: Redis, e: Envelope, place: Place) {
    match place
    case Unpublished => NoCopy(r, e) && forall key :: key in r.dedupe ==> r.dedupe[key] != e
    case Live => OneCopy(r, e) && e.deliveryID in r.dedupe && r.dedupe[e.deliveryID] == e
    case Settled => NoCopy(r, e) && e.deliveryID in r.dedupe && r.dedupe[e.deliveryID] == e
  }

  ghost function Moved(r: Redis, step: Step, now: Time, e: Envelope, place: Place): Place {
    if Publishes(r, step, now, e) then Live else if Settles(r, step, now, e) then Settled else place
  }

  lemma {:induction false} AppendCopies(r: Redis, m: Message, e: Envelope)
    requires Formed(r)
    ensures InStream(Append(r, m), e) == InStream(r, e) + (if m.envelope == e then {r.nextID} else {})
    ensures InDelayed(Append(r, m), e) == InDelayed(r, e) && r.nextID !in InStream(r, e)
  {}

  lemma {:induction false} DelayCopies(r: Redis, m: Message, at: Time, e: Envelope)
    ensures InStream(Delay(r, m, at), e) == InStream(r, e)
    ensures InDelayed(Delay(r, m, at), e) == InDelayed(r, e) + (if m.envelope == e then {m} else {})
  {}

  lemma {:induction false} EnqueueCopies(r: Redis, m: Message, delay: int, now: Time, e: Envelope)
    requires Formed(r)
    ensures m.envelope != e ==> SameCopies(r, Enqueue(r, m, delay, now), e)
    ensures m.envelope == e && NoCopy(r, e) ==> OneCopy(Enqueue(r, m, delay, now), e)
  {
    AppendCopies(r, m, e);
    DelayCopies(r, m, now + delay, e);
    if m.envelope == e && NoCopy(r, e) {
      if delay <= 0 {
        assert InStream(Enqueue(r, m, delay, now), e) == {r.nextID};
      } else {
        assert InDelayed(Enqueue(r, m, delay, now), e) == {m};
      }
    }
  }

  ghost predicate SameCopies(r: Redis, s: Redis, e: Envelope) {
    InStream(s, e) == InStream(r, e) && InDelayed(s, e) == InDelayed(r, e)
  }

  lemma {:induction false} DeleteCopies(r: Redis, id: nat, e: Envelope)
    requires id in r.stream
    ensures InDelayed(Deleted(r, id), e) == InDelayed(r, e)
    ensures r.stream[id].envelope != e ==> SameCopies(r, Deleted(r, id), e)
    ensures r.stream[id].envelope == e && OneCopy(r, e) ==> NoCopy(Deleted(r, id), e)
  {
    assert InStream(Deleted(r, id), e) == InStream(r, e) - {id};
    if r.stream[id].envelope == e && OneCopy(r, e) {
      assert id in InStream(r, e);
      var only :| InStream(r, e) == {only};
    }
  }

  lemma {:induction false} PromoteCopies(r: Redis, m: Message, e: Envelope)
    requires Formed(r)
    ensures OneCopy(r, e) ==> OneCopy(PromoteOne(r, m), e)
    ensures NoCopy(r, e) ==> NoCopy(PromoteOne(r, m), e)
  {
    var s := PromoteOne(r, m);
    if m in r.delayed {
      AppendCopies(r, m, e);
      assert InDelayed(s, e) == InDelayed(r, e) - {m};
      assert InStream(s, e) == InStream(r, e) + if m.envelope == e then {r.nextID} else {};
      if OneCopy(r, e) && m.envelope == e {
        assert m in InDelayed(r, e);
        var only :| InDelayed(r, e) == {only};
        assert InStream(s, e) == {r.nextID} && InDelayed(s, e) == {};
      }
    }
  }

  lemma {:induction false} KeysKeepCopies(r: Redis, m: Message, callerKey: string, delay: int, now: Time, e: Envelope)
    requires Formed(r)
    ensures SameCopies(r, WithKeys(r, m.envelope, callerKey), e)
    ensures m.envelope != e ==> SameCopies(r, Enqueue(WithKeys(r, m.envelope, callerKey), m, delay, now), e)
    ensures m.envelope == e && NoCopy(r, e) ==> OneCopy(Enqueue(WithKeys(r, m.envelope, callerKey), m, delay, now), e)
  {
    var keyed := WithKeys(r, m.envelope, callerKey);
    assert SameCopies(r, keyed, e) && Formed(keyed);
    EnqueueCopies(keyed, m, delay, now, e);
  }

  /** A publication that writes nothing to stream or delayed set leaves every envelope in its place. */
  lemma {:induction false} IdlePublishing(
    r: Redis, p: Envelope, callerKey: string, delay: int, now: Time, fails: bool, e: Envelope, place: Place)
    requires At(r, e, place) && PublishScript(r, p, callerKey, delay, now, fails).1 != Done
    requires SameCopies(r, WithKeys(r, p, callerKey), e)
    ensures At(PublishScript(r, p, callerKey, delay, now, fails).0, e, place)
  {}

  /** A publication that writes finds its envelope unpublished, and others keep their place. */
  lemma {:induction false} RealPublishing(
    r: Redis, p: Envelope, callerKey: string, delay: int, now: Time, e: Envelope, place: Place)
    requires Formed(r) && At(r, e, place) && callerKey !in r.dedupe && p.deliveryID !in r.dedupe
    ensures At(Enqueue(WithKeys(r, p, callerKey), Message(p, 0, ""), delay, now), e, if p == e then Live else place)
  {
    KeysKeepCopies(r, Message(p, 0, ""), callerKey, delay, now, e);
  }

  lemma {:induction false} PublishingMoves(r: Redis, step: Step, now: Time, e: Envelope, place: Place)
    requires Formed(r) && At(r, e, place) && step.Publishing?
    ensures At(After(r, step, now), e, Moved(r, step, now, e, place))
  {
    var (s, result) := PublishScript(r, step.envelope, step.callerKey, step.delay, now, step.fails);
    if result == Done {
      RealPublishing(r, step.envelope, step.callerKey, step.delay, now, e, place);
    } else {
      KeysKeepCopies(r, Message(step.envelope, 0, ""), step.callerKey, step.delay, now, e);
      IdlePublishing(r, step.envelope, step.callerKey, step.delay, now, step.fails, e, place);
    }
  }

  lemma {:induction false} SettlingMoves(r: Redis, step: Step, now: Time, e: Envelope, place: Place)
    requires Formed(r) && At(r, e, place) && (step.Acking? || step.Burying?)
    ensures At(After(r, step, now), e, Moved(r, step, now, e, place))
  {
    if Check(r, step.id, step.token, now) == Held && step.id in r.pending {
      DeleteCopies(r, step.id, e);
      assert SameCopies(Deleted(r, step.id), After(r, step, now), e);
      if r.stream[step.id].envelope == e { assert step.id in InStream(r, e); }
    } else {
      assert SameCopies(r, After(r, step, now), e);
    }
  }

  lemma {:induction false} NackingMoves(r: Redis, step: Step, now: Time, e: Envelope, place: Place)
    requires Formed(r) && At(r, e, place) && step.Nacking? && Honest(r, step)
    ensures At(After(r, step, now), e, place)
  {
    if Check(r, step.id, step.token, now) == Held && step.id in r.pending {
      var gone := Deleted(r, step.id);
      DeleteCopies(r, step.id, e);
      assert Formed(gone);
      EnqueueCopies(gone, step.message, step.delay, now, e);
      if r.stream[step.id].envelope == e { assert step.id in InStream(r, e); }
    }
  }

  /** Each step moves an envelope from unpublished to live when it is published, and to settled when it is acknowledged or
      buried; every other step leaves it where it is. */
  lemma {:induction false} StepMoves(r: Redis, step: Step, now: Time, e: Envelope, place: Place)
    requires Formed(r) && At(r, e, place) && Honest(r, step) && step != Expiring(e.deliveryID)
    ensures At(After(r, step, now), e, Moved(r, step, now, e, place))
  {
    if step.Publishing? {
      PublishingMoves(r, step, now, e, place);
    } else if step.Acking? || step.Burying? {
      SettlingMoves(r, step, now, e, place);
    } else if step.Nacking? {
      NackingMoves(r, step, now, e, place);
    } else if step.Promoting? {
      PromoteCopies(r, step.message, e);
    } else {
      OthersMoveNothing(r, step, now);
      assert SameCopies(r, After(r, step, now), e);
    }
  }

  lemma {:induction false} OthersMoveNothing(r: Redis, step: Step, now: Time)
    requires step.Reading? || step.Establishing? || step.Reclaiming? || step.Extending? || step.Expiring?
    ensures var s := After(r, step, now);
            && s.stream == r.stream && s.delayed == r.delayed
            && s.dedupe == if step.Expiring? then r.dedupe - {step.key} else r.dedupe
  {}

  // Runs.

  datatype Turn = Turn(step: Step, at: Time)

  ghost function Run(turns: seq<Turn>): Redis {
    if turns == [] then EmptyRedis() else After(Run(turns[..|turns| - 1]), turns[|turns| - 1].step, turns[|turns| - 1].at)
  }

  /** Tokens are random: none is issued twice. */
  ghost predicate FreshTokens(turns: seq<Turn>) {
    forall i, j :: 0 <= i < j < |turns| ==> !SameToken(turns[i].step, turns[j].step)
  }

  predicate SameToken(a: Step, b: Step) {
    (a.Establishing? || a.Reclaiming?) && Issues(b, a.token)
  }

  /** The server's clock never goes back. */
  ghost predicate InTime(turns: seq<Turn>) {
    forall i, j :: 0 <= i < j < |turns| ==> turns[i].at <= turns[j].at
  }

  /** A token that does not hold its message, and is not issued later, does not hold it later. */
  lemma {:induction false} DeadOverRun(turns: seq<Turn>, n: nat, id: nat, token: string, now: Time, later: Time)
    requires InTime(turns) && n <= |turns| && Check(Run(turns[..n]), id, token, now) != Held && now <= later
    requires n < |turns| ==> now <= turns[n].at && turns[|turns| - 1].at <= later
    requires forall j :: n <= j < |turns| ==> !Issues(turns[j].step, token)
    ensures Check(Run(turns), id, token, later) != Held
    decreases |turns| - n
  {
    if n == |turns| {
      assert turns[..n] == turns;
    } else {
      DeadTokensStay(Run(turns[..n]), turns[n].step, turns[n].at, id, token, turns[n].at);
      assert turns[..n + 1][..n] == turns[..n];
      DeadOverRun(turns, n + 1, id, token, turns[n].at, later);
    }
  }

  /** Over every run, a token that was issued and does not hold its message at some moment never holds it again. */
  lemma {:induction false} RedisTokensDieOnce(
    turns: seq<Turn>, issuing: nat, n: nat, id: nat, token: string, now: Time, later: Time)
    requires FreshTokens(turns) && InTime(turns) && issuing < n <= |turns| && Issues(turns[issuing].step, token)
    requires Check(Run(turns[..n]), id, token, now) != Held && now <= later
    requires n < |turns| ==> now <= turns[n].at && turns[|turns| - 1].at <= later
    ensures Check(Run(turns), id, token, later) != Held
  {
    forall j | n <= j < |turns| ensures !Issues(turns[j].step, token) {
      assert !SameToken(turns[issuing].step, turns[j].step);
    }
    DeadOverRun(turns, n, id, token, now, later);
  }

  ghost predicate ProperRun(turns: seq<Turn>, minIdle: int) {
    forall i :: 0 <= i < |turns| ==> Proper(Run(turns[..i]), turns[i].step, turns[i].at, minIdle)
  }

  lemma {:induction false} EveryRunIsFormed(turns: seq<Turn>)
    ensures Formed(Run(turns))
  {
    if turns != [] {
      var n := |turns| - 1;
      EveryRunIsFormed(turns[..n]);
      StepsKeepFormed(Run(turns[..n]), turns[n].step, turns[n].at);
    }
  }

  /** Over every run, whoever holds a lease that lasts keeps it while it does not settle the message itself and nobody
      establishes a lease of the same message. */
  lemma {:induction false} LeasesExcludeOthers(turns: seq<Turn>, minIdle: int, n: nat, id: nat, token: string, later: Time)
    requires ProperRun(turns, minIdle) && n <= |turns| && Check(Run(turns[..n]), id, token, later) == Held
    requires forall j :: n <= j < |turns| ==>
               && turns[j].at <= later && !Issues(turns[j].step, token) && !GivesUp(turns[j].step, id, token)
               && !(turns[j].step.Establishing? && turns[j].step.id == id)
    ensures Check(Run(turns), id, token, later) == Held
    decreases |turns| - n
  {
    if n == |turns| {
      assert turns[..n] == turns;
    } else {
      EveryRunIsFormed(turns[..n]);
      LeaseIsKept(Run(turns[..n]), turns[n].step, turns[n].at, id, token, minIdle, later);
      assert turns[..n + 1][..n] == turns[..n];
      LeasesExcludeOthers(turns, minIdle, n + 1, id, token, later);
    }
  }

  ghost function LateRun(e: Envelope, minIdle: nat, lease: nat): seq<Turn> {
    [ Turn.Turn(Publishing(e, e.deliveryID, 0, false), 0), Turn.Turn(Reading({0}), 0),
      Turn.Turn(Reclaiming(0, "second", minIdle + lease), minIdle),
      Turn.Turn(Establishing(0, "first", minIdle + lease), minIdle)]
  }

  ghost function LateStart(e: Envelope): Redis {
    WithKeys(EmptyRedis(), e, e.deliveryID).(stream := map[0 := Message(e, 0, "")], nextID := 1, pending := map[0 := 0])
  }

  lemma {:induction false} LateRunSteps(e: Envelope, minIdle: nat, lease: nat)
    ensures var turns := LateRun(e, minIdle, lease);
            && Run(turns[..2]) == LateStart(e)
            && Run(turns[..3]) == ClaimOne(LateStart(e), 0, "second", minIdle + lease, minIdle)
            && Run(turns) == EstablishOne(Run(turns[..3]), 0, "first", minIdle + lease, minIdle)
  {
    var turns := LateRun(e, minIdle, lease);
    assert turns[..4] == turns && turns[..4][..3] == turns[..3] && turns[..3][..2] == turns[..2];
    assert turns[..2][..1] == turns[..1] && turns[..1][..0] == [];
    assert Run([]) == EmptyRedis();
    assert Run(turns[..1]) == After(Run([]), turns[0].step, 0);
    assert Run(turns[..2]) == After(Run(turns[..1]), turns[1].step, 0) == LateStart(e);
  }

  /** A reader that is slow to establish its lease takes the message from the consumer that reclaimed it in the meantime. */
  lemma {:induction false} LateLeaseTakesOver(e: Envelope, minIdle: nat, lease: nat)
    requires lease > 0
    ensures var turns := LateRun(e, minIdle, lease);
            && ProperRun(turns, minIdle) && FreshTokens(turns) && InTime(turns)
            && Check(Run(turns[..3]), 0, "second", minIdle) == Held
            && Check(Run(turns), 0, "second", minIdle) == Mismatched && Check(Run(turns), 0, "first", minIdle) == Held
  {
    LateRunSteps(e, minIdle, lease);
  }

  /** Where a run has left an envelope: live since its publication, settled since it was acknowledged or buried. */
  ghost function PlaceAfter(turns: seq<Turn>, e: Envelope): Place {
    if turns == [] then Unpublished
    else
      var n := |turns| - 1;
      Moved(Run(turns[..n]), turns[n].step, turns[n].at, e, PlaceAfter(turns[..n], e))
  }

  /** Workers are honest, and the canonical key of the envelope does not run out. */
  ghost predicate KeepsKey(turns: seq<Turn>, e: Envelope) {
    forall i :: 0 <= i < |turns| ==> Honest(Run(turns[..i]), turns[i].step) && turns[i].step != Expiring(e.deliveryID)
  }

  /** Over every interleaving of the scripts a published envelope has exactly one copy, in the stream or in the delayed
      set, until it is acknowledged or buried, and none before and after. */
  lemma {:induction false} SingleLiveCopy(turns: seq<Turn>, e: Envelope)
    requires KeepsKey(turns, e)
    ensures Formed(Run(turns)) && At(Run(turns), e, PlaceAfter(turns, e))
  {
    if turns == [] {
      assert NoCopy(EmptyRedis(), e);
    } else {
      var n := |turns| - 1;
      forall i | 0 <= i < n
        ensures Honest(Run(turns[..n][..i]), turns[..n][i].step) && turns[..n][i].step != Expiring(e.deliveryID)
      {
        assert turns[..n][..i] == turns[..i];
      }
      SingleLiveCopy(turns[..n], e);
      StepsKeepFormed(Run(turns[..n]), turns[n].step, turns[n].at);
      StepMoves(Run(turns[..n]), turns[n].step, turns[n].at, e, PlaceAfter(turns[..n], e));
    }
  }

  /** The key matters: once both keys of a live envelope have run out, publishing it again makes a second copy. */
  lemma {:induction false} ExpiredKeysDuplicate(r: Redis, e: Envelope, callerKey: string, id: nat, now: Time)
    requires Formed(r) && InStream(r, e) == {id} && callerKey !in r.dedupe && e.deliveryID !in r.dedupe
    ensures var s := PublishScript(r, e, callerKey, 0, now, false).0;
            InStream(s, e) == {id, r.nextID} && id != r.nextID && !OneCopy(s, e)
  {}

  // What the promote and the reclaim script list.

  /** The reply of a range query by score: the members that are due, earliest first, up to a limit. */
  ghost predicate Listed<K>(scores: map<K, Time>, now: Time, limit: nat, list: seq<K>) {
    && Distinct(list) && |list| <= limit
    && (forall k :: k in list ==> k in scores && scores[k] <= now)
    && (forall i, j :: 0 <= i < j < |list| ==> scores[list[i]] <= scores[list[j]])
    && (forall k, m :: k in scores && scores[k] <= now && k !in list && m in list ==> scores[m] <= scores[k])
    && (|list| < limit ==> forall k :: k in scores && scores[k] <= now ==> k in list)
  }

  method Least<K(==)>(scores: map<K, Time>, among: set<K>) returns (least: K)
    requires among != {} && among <= scores.Keys
    ensures least in among && forall k :: k in among ==> scores[least] <= scores[k]
  {
    least :| least in among;
    var rest := among - {least};
    while rest != {}
      invariant least in among && rest <= among
      invariant forall k :: k in among - rest ==> scores[least] <= scores[k]
    {
      var k :| k in rest;
      if scores[k] < scores[least] { least := k; }
      rest := rest - {k};
    }
  }

  method ListDue<K(==)>(scores: map<K, Time>, now: Time, limit: nat) returns (list: seq<K>)
    ensures Listed(scores, now, limit, list)
  {
    list := [];
    var rest := set k | k in scores && scores[k] <= now;
    while |list| < limit && rest != {}
      invariant Distinct(list) && |list| <= limit
      invariant forall k :: k in rest <==> k in scores && scores[k] <= now && k !in list
      invariant forall k :: k in list ==> k in scores && scores[k] <= now
      invariant forall i, j :: 0 <= i < j < |list| ==> scores[list[i]] <= scores[list[j]]
      invariant forall k, m :: k in rest && m in list ==> scores[m] <= scores[k]
      decreases rest
    {
      var least := Least(scores, rest);
      list, rest := list + [least], rest - {least};
    }
  }

  /** The promote script on the members that it listed. */
  function PromoteAll(r: Redis, due: seq<Message>): Redis {
    if due == [] then r else PromoteOne(PromoteAll(r, due[..|due| - 1]), due[|due| - 1])
  }

  ghost function Members(list: seq<Message>): set<Message> {
    set m | m in list
  }

  ghost function Appended(stream: map<nat, Message>, from: nat, list: seq<Message>): map<nat, Message> {
    if list == [] then stream
    else Appended(stream, from, list[..|list| - 1])[from + |list| - 1 := list[|list| - 1]]
  }

  lemma {:induction false} AppendedAt(stream: map<nat, Message>, from: nat, list: seq<Message>, id: nat)
    ensures var s := Appended(stream, from, list);
            if from <= id < from + |list| then id in s && s[id] == list[id - from]
            else (id in s <==> id in stream) && (id in s ==> s[id] == stream[id])
  {
    if list != [] { AppendedAt(stream, from, list[..|list| - 1], id); }
  }

  lemma {:induction false} OneMoreMember(list: seq<Message>)
    requires list != []
    ensures Members(list) == Members(list[..|list| - 1]) + {list[|list| - 1]}
  {}

  /** The list appended in its order under new ids, and exactly its members taken out of the delayed set. */
  ghost function Promoted(r: Redis, list: seq<Message>): Redis {
    r.(stream := Appended(r.stream, r.nextID, list), nextID := r.nextID + |list|, delayed := r.delayed - Members(list))
  }

  lemma {:induction false} PromoteNext(r: Redis, list: seq<Message>)
    requires list != [] && list[|list| - 1] in r.delayed && list[|list| - 1] !in list[..|list| - 1]
    ensures PromoteOne(Promoted(r, list[..|list| - 1]), list[|list| - 1]) == Promoted(r, list)
  {
    OneMoreMember(list);
  }

  lemma NotBefore(list: seq<Message>)
    requires list != [] && Distinct(list)
    ensures list[|list| - 1] !in list[..|list| - 1]
  {}

  lemma {:induction false} PromotionMovesDue(r: Redis, due: seq<Message>)
    requires Distinct(due) && forall m :: m in due ==> m in r.delayed
    ensures PromoteAll(r, due) == Promoted(r, due)
  {
    if due != [] {
      PromotionMovesDue(r, due[..|due| - 1]);
      NotBefore(due);
      PromoteNext(r, due);
    }
  }

  /** The pending messages that were last delivered long enough ago, by id. */
  function IdleIDs(r: Redis, now: Time, minIdle: int, n: nat): (ids: seq<nat>)
    ensures Distinct(ids) && forall id :: id in ids <==> id < n && id in r.pending && r.pending[id] + minIdle <= now
  {
    if n == 0 then []
    else IdleIDs(r, now, minIdle, n - 1) + if n - 1 in r.pending && r.pending[n - 1] + minIdle <= now then [n - 1] else []
  }

  ghost predicate ListedOnce(ids: seq<nat>, k: nat)
    requires k < |ids|
  {
    ids[k] !in ids[..k]
  }

  /** The reply of the pending list for idle messages, up to `scan` of them. */
  function IdlePending(r: Redis, now: Time, minIdle: int, scan: nat): (ids: seq<nat>)
    ensures forall k :: 0 <= k < |ids| ==> ListedOnce(ids, k) && ids[k] in r.pending
  {
    UpTo(IdleIDs(r, now, minIdle, r.nextID), scan)
  }

  function ClaimAll(r: Redis, ids: seq<nat>, token: nat -> string, until: Time, now: Time): Redis {
    if ids == [] then r
    else ClaimOne(ClaimAll(r, ids[..|ids| - 1], token, until, now), ids[|ids| - 1], token(ids[|ids| - 1]), until, now)
  }

  function StillPending(r: Redis, ids: seq<nat>): seq<nat> {
    Filter((id: nat) => id in r.pending, ids)
  }

  function Lacks(leases: map<nat, Time>): nat -> bool {
    (id: nat) => id !in leases
  }

  function Leaseless(leases: map<nat, Time>, ids: seq<nat>): (kept: seq<nat>)
    ensures forall id :: id in kept <==> id in ids && id !in leases
  {
    FilterMeans(Lacks(leases), ids);
    Filter(Lacks(leases), ids)
  }

  lemma {:induction false} LeaselessUpTo(leases: map<nat, Time>, idle: seq<nat>, i: nat, room: nat)
    requires i <= |idle| && |Leaseless(leases, idle[..i])| <= room
    requires i == |idle| || |Leaseless(leases, idle[..i])| == room
    ensures Leaseless(leases, idle[..i]) == UpTo(Leaseless(leases, idle), room)
  {
    assert idle[..|idle|] == idle;
    FilterPrefix(Lacks(leases), idle, i);
  }

  /** The first `i` idle messages are dealt with: those without a lease are claimed. */
  ghost predicate ClaimedIdle(
    before: Redis, r: Redis, idle: seq<nat>, i: nat, orphans: seq<nat>, token: nat -> string, until: Time, now: Time) {
    && i <= |idle| && orphans == Leaseless(before.leases, idle[..i]) && r == ClaimAll(before, orphans, token, until, now)
    && r.pending.Keys == before.pending.Keys
    && forall id :: id in r.leases <==> id in before.leases || id in orphans
  }

  lemma LeaselessMore(leases: map<nat, Time>, ids: seq<nat>, i: nat)
    requires i < |ids|
    ensures Leaseless(leases, ids[..i + 1]) == Leaseless(leases, ids[..i]) + if ids[i] in leases then [] else [ids[i]]
  {
    assert ids[..i + 1][..i] == ids[..i];
  }

  lemma ClaimOneMore(r: Redis, ids: seq<nat>, id: nat, token: nat -> string, until: Time, now: Time)
    ensures ClaimAll(r, ids + [id], token, until, now) == ClaimOne(ClaimAll(r, ids, token, until, now), id, token(id), until, now)
  {
    assert (ids + [id])[..|ids|] == ids;
  }

  lemma {:induction false} NextIdle(
    before: Redis, r: Redis, idle: seq<nat>, i: nat, orphans: seq<nat>, token: nat -> string, until: Time, now: Time)
    requires ClaimedIdle(before, r, idle, i, orphans, token, until, now) && i < |idle| && ListedOnce(idle, i)
    requires idle[i] in before.pending
    ensures if idle[i] in r.leases then ClaimedIdle(before, r, idle, i + 1, orphans, token, until, now)
            else ClaimedIdle(before, ClaimOne(r, idle[i], token(idle[i]), until, now), idle, i + 1, orphans + [idle[i]], token, until, now)
  {
    LeaselessMore(before.leases, idle, i);
    ClaimOneMore(before, orphans, idle[i], token, until, now);
  }

  /** What a reclaim claims: messages whose lease ran out, and while there is room, idle ones without a lease. */
  ghost predicate ReclaimReply(
    r: Redis, lapsed: seq<nat>, orphans: seq<nat>, token: nat -> string, until: Time, now: Time, limit: nat, minIdle: int, scan: nat) {
    var s := ClaimAll(r, lapsed, token, until, now);
    && Listed(r.leases, now, limit, lapsed)
    && orphans == UpTo(Leaseless(s.leases, IdlePending(s, now, minIdle, scan)), limit - |StillPending(r, lapsed)|)
  }

  /** Claiming gives the claimed messages a lease and leaves the others as they are. */
  lemma {:induction false} ClaimsTouch(r: Redis, ids: seq<nat>, token: nat -> string, until: Time, now: Time, id: nat)
    requires forall k :: k in ids ==> k in r.pending
    ensures var s := ClaimAll(r, ids, token, until, now);
            && s.pending.Keys == r.pending.Keys
            && (id in ids ==> id in s.leases && s.leases[id] == until && id in s.tokens && s.tokens[id] == token(id))
            && (id !in ids ==>
                  && (id in r.pending ==> s.pending[id] == r.pending[id])
                  && (id in s.leases <==> id in r.leases) && (id in r.leases ==> s.leases[id] == r.leases[id])
                  && (id in s.tokens <==> id in r.tokens) && (id in r.tokens ==> s.tokens[id] == r.tokens[id]))
  {
    if ids != [] { ClaimsTouch(r, ids[..|ids| - 1], token, until, now, id); }
  }

  /** Claiming the ids one after another is a run of proper steps. */
  ghost predicate ClaimsProperly(r: Redis, ids: seq<nat>, token: nat -> string, until: Time, now: Time, minIdle: int) {
    forall k :: 0 <= k < |ids| ==>
      Proper(ClaimAll(r, ids[..k], token, until, now), Reclaiming(ids[k], token(ids[k]), until), now, minIdle)
  }

  lemma {:induction false} ReclaimablesAreClaimed(
    r: Redis, ids: seq<nat>, token: nat -> string, until: Time, now: Time, minIdle: int)
    requires forall id :: id in ids ==> id in r.pending && Reclaimable(r, id, now, minIdle)
    requires until > now && forall k :: 0 <= k < |ids| ==> ListedOnce(ids, k)
    ensures ClaimsProperly(r, ids, token, until, now, minIdle)
  {
    forall k | 0 <= k < |ids|
      ensures Proper(ClaimAll(r, ids[..k], token, until, now), Reclaiming(ids[k], token(ids[k]), until), now, minIdle)
    {
      assert ListedOnce(ids, k) && ids[k] in ids;
      ClaimsTouch(r, ids[..k], token, until, now, ids[k]);
    }
  }

  lemma {:induction false} FilteredOnce(keep: nat -> bool, ids: seq<nat>, k: nat)
    requires k < |Filter(keep, ids)| && forall i :: 0 <= i < |ids| ==> ListedOnce(ids, i)
    ensures ListedOnce(Filter(keep, ids), k)
  {
    var n := |ids| - 1;
    var shorter := Filter(keep, ids[..n]);
    FilterMeans(keep, ids[..n]);
    assert ListedOnce(ids, n);
    forall i | 0 <= i < n ensures ListedOnce(ids[..n], i) { assert ListedOnce(ids, i) && ids[..n][..i] == ids[..i]; }
    if k < |shorter| {
      FilteredOnce(keep, ids[..n], k);
      assert Filter(keep, ids)[..k] == shorter[..k];
    } else {
      assert Filter(keep, ids)[..k] == shorter;
    }
  }

  lemma {:induction false} OrphansAreReclaimable(
    s: Redis, now: Time, minIdle: int, scan: nat, room: int, orphans: seq<nat>)
    requires orphans == UpTo(Leaseless(s.leases, IdlePending(s, now, minIdle, scan)), room)
    ensures forall id :: id in orphans ==> id in s.pending && Reclaimable(s, id, now, minIdle)
    ensures forall k :: 0 <= k < |orphans| ==> ListedOnce(orphans, k)
  {
    var idle := IdlePending(s, now, minIdle, scan);
    var all := Leaseless(s.leases, idle);
    forall id | id in orphans ensures id in s.pending && Reclaimable(s, id, now, minIdle) {
      assert id in all && id in IdleIDs(s, now, minIdle, s.nextID);
    }
    forall k | 0 <= k < |orphans| ensures ListedOnce(orphans, k) {
      FilteredOnce(Lacks(s.leases), idle, k);
      assert orphans[..k] == all[..k];
    }
  }

  lemma {:induction false} LapsedAreReclaimable(r: Redis, now: Time, minIdle: int, limit: nat, lapsed: seq<nat>)
    requires Formed(r) && Listed(r.leases, now, limit, lapsed)
    ensures forall id :: id in lapsed ==> id in r.pending && Reclaimable(r, id, now, minIdle)
    ensures forall k :: 0 <= k < |lapsed| ==> ListedOnce(lapsed, k)
    ensures StillPending(r, lapsed) == lapsed
  {
    AllKept((id: nat) => id in r.pending, lapsed);
  }

  lemma {:induction false} AllKept(keep: nat -> bool, ids: seq<nat>)
    requires forall id :: id in ids ==> keep(id)
    ensures Filter(keep, ids) == ids
  {
    if ids != [] {
      AllKept(keep, ids[..|ids| - 1]);
      assert ids == ids[..|ids| - 1] + [ids[|ids| - 1]];
    }
  }

  lemma {:induction false} LapsedAreClaimed(
    r: Redis, lapsed: seq<nat>, token: nat -> string, until: Time, now: Time, limit: nat, minIdle: int)
    requires Formed(r) && Listed(r.leases, now, limit, lapsed) && until > now
    ensures ClaimsProperly(r, lapsed, token, until, now, minIdle) && |StillPending(r, lapsed)| == |lapsed| <= limit
  {
    LapsedAreReclaimable(r, now, minIdle, limit, lapsed);
    ReclaimablesAreClaimed(r, lapsed, token, until, now, minIdle);
  }

  lemma {:induction false} OrphansAreClaimed(
    s: Redis, orphans: seq<nat>, token: nat -> string, until: Time, now: Time, room: nat, minIdle: int, scan: nat)
    requires orphans == UpTo(Leaseless(s.leases, IdlePending(s, now, minIdle, scan)), room) && until > now
    ensures ClaimsProperly(s, orphans, token, until, now, minIdle) && |orphans| <= room
  {
    OrphansAreReclaimable(s, now, minIdle, scan, room, orphans);
    ReclaimablesAreClaimed(s, orphans, token, until, now, minIdle);
  }

  /** A reclaim stays within its limit and takes only what it may, no lease in force: all its claims are proper steps. */
  lemma {:induction false} ReclaimIsProper(
    r: Redis, lapsed: seq<nat>, orphans: seq<nat>, token: nat -> string, until: Time, now: Time, limit: nat, minIdle: int, scan: nat)
    requires Formed(r) && ReclaimReply(r, lapsed, orphans, token, until, now, limit, minIdle, scan) && until > now
    ensures |lapsed| + |orphans| <= limit
    ensures ClaimsProperly(r, lapsed, token, until, now, minIdle)
    ensures ClaimsProperly(ClaimAll(r, lapsed, token, until, now), orphans, token, until, now, minIdle)
  {
    LapsedAreClaimed(r, lapsed, token, until, now, limit, minIdle);
    OrphansAreClaimed(ClaimAll(r, lapsed, token, until, now), orphans, token, until, now, limit - |lapsed|, minIdle, scan);
  }

  /** While there is room, a reclaim leaves nothing behind that it may take. */
  lemma {:induction false} ReclaimMissesNothing(
    r: Redis, lapsed: seq<nat>, orphans: seq<nat>, token: nat -> string, until: Time, now: Time, limit: nat, minIdle: int, scan: nat, id: nat)
    requires Formed(r) && ReclaimReply(r, lapsed, orphans, token, until, now, limit, minIdle, scan)
    requires |lapsed| + |orphans| < limit && Reclaimable(r, id, now, minIdle)
    requires |IdlePending(ClaimAll(r, lapsed, token, until, now), now, minIdle, scan)| < scan
    ensures id in lapsed + orphans
  {
    LapsedAreReclaimable(r, now, minIdle, limit, lapsed);
    if id !in r.leases {
      var s := ClaimAll(r, lapsed, token, until, now);
      ClaimsTouch(r, lapsed, token, until, now, id);
      SameIDs(r, lapsed, token, until, now);
      assert id in IdleIDs(s, now, minIdle, s.nextID);
      assert id in Leaseless(s.leases, IdlePending(s, now, minIdle, scan));
    }
  }

  lemma {:induction false} SameIDs(r: Redis, ids: seq<nat>, token: nat -> string, until: Time, now: Time)
    ensures ClaimAll(r, ids, token, until, now).nextID == r.nextID
  {
    if ids != [] { SameIDs(r, ids[..|ids| - 1], token, until, now); }
  }

  // The scripts as code.

  class RedisDeliveryQueue {
    var stream: map<nat, Message>
    var nextID: nat
    var pending: map<nat, Time>
    var tokens: map<nat, string>
    var leases: map<nat, Time>
    var delayed: map<Message, Time>
    var dedupe: map<string, Envelope>
    var deadLetters: seq<Envelope>

    function Model(): Redis
      reads this
    {
      Redis(stream, nextID, pending, tokens, leases, delayed, dedupe, deadLetters)
    }

    constructor ()
      ensures Model() == EmptyRedis()
    {
      stream, nextID, pending, tokens, leases := map[], 0, map[], map[], map[];
      delayed, dedupe, deadLetters := map[], map[], [];
    }

    method Publish(e: Envelope, callerKey: string, delay: int, now: Time, fails: bool) returns (result: ScriptResult)
      modifies this
      ensures (Model(), result) == old(PublishScript(Model(), e, callerKey, delay, now, fails))
    {
      if callerKey in dedupe && dedupe[callerKey] != e { return Conflicting; }
      if e.deliveryID in dedupe && dedupe[e.deliveryID] != e { return Conflicting; }
      if callerKey in dedupe || e.deliveryID in dedupe {
        dedupe := dedupe[callerKey := e];
        dedupe := dedupe[e.deliveryID := e];
        return Nothing;
      }
      ghost var before := dedupe;
      dedupe := dedupe[callerKey := e];
      if callerKey != e.deliveryID { dedupe := dedupe[e.deliveryID := e]; }
      if fails {
        dedupe := dedupe - {callerKey};
        if callerKey != e.deliveryID { dedupe := dedupe - {e.deliveryID}; }
        assert dedupe == before;
        return Broken;
      }
      assert dedupe == before[callerKey := e][e.deliveryID := e];
      if delay <= 0 {
        stream, nextID := stream[nextID := Message(e, 0, "")], nextID + 1;
      } else {
        delayed := delayed[Message(e, 0, "") := now + delay];
      }
      result := Done;
    }

    /** Moves the due members of the delayed set to the stream, up to a batch. */
    method Promote(batch: nat, now: Time) returns (count: nat, ghost due: seq<Message>)
      modifies this
      ensures Listed(old(delayed), now, batch, due) && count == |due|
      ensures Model() == old(PromoteAll(Model(), due))
    {
      var members := ListDue(delayed, now, batch);
      for i := 0 to |members|
        invariant Model() == old(PromoteAll(Model(), members[..i]))
      {
        assert members[..i + 1][..i] == members[..i];
        if members[i] in delayed {
          stream, nextID := stream[nextID := members[i]], nextID + 1;
          delayed := delayed - {members[i]};
        }
      }
      assert members[..|members|] == members;
      count, due := |members|, members;
    }

    method ClaimMessage(id: nat, token: string, until: Time, now: Time) returns (claimed: bool)
      modifies this
      ensures Model() == old(ClaimOne(Model(), id, token, until, now)) && claimed == old(id in pending)
    {
      claimed := id in pending;
      if claimed {
        tokens, leases, pending := tokens[id := token], leases[id := until], pending[id := now];
      } else {
        tokens, leases := tokens - {id}, leases - {id};
      }
    }

    method ReclaimLapsed(limit: nat, lease: int, token: nat -> string, now: Time) returns (claimed: nat, ghost lapsed: seq<nat>)
      modifies this
      ensures Listed(old(leases), now, limit, lapsed) && claimed == |StillPending(old(Model()), lapsed)| <= limit
      ensures Model() == old(ClaimAll(Model(), lapsed, token, now + lease, now))
    {
      var due := ListDue(leases, now, limit);
      claimed, lapsed := 0, due;
      for i := 0 to |due|
        invariant Model() == old(ClaimAll(Model(), due[..i], token, now + lease, now))
        invariant claimed == |StillPending(old(Model()), due[..i])| && pending.Keys == old(pending.Keys)
      {
        assert due[..i + 1][..i] == due[..i];
        var ok := ClaimMessage(due[i], token(due[i]), now + lease, now);
        if ok { claimed := claimed + 1; }
      }
      assert due[..|due|] == due;
      FilterMeans((id: nat) => id in old(pending), due);
    }

    method ReclaimIdle(idle: seq<nat>, room: nat, lease: int, token: nat -> string, now: Time) returns (claimed: nat, ghost orphans: seq<nat>)
      requires forall k :: 0 <= k < |idle| ==> ListedOnce(idle, k) && idle[k] in pending
      modifies this
      ensures orphans == UpTo(Leaseless(old(leases), idle), room) && claimed == |orphans|
      ensures Model() == old(ClaimAll(Model(), orphans, token, now + lease, now))
    {
      claimed, orphans := 0, [];
      ghost var before := Model();
      var i := 0;
      while i < |idle| && claimed < room
        invariant claimed == |orphans| <= room && ClaimedIdle(before, Model(), idle, i, orphans, token, now + lease, now)
      {
        assert ListedOnce(idle, i);
        NextIdle(before, Model(), idle, i, orphans, token, now + lease, now);
        if idle[i] !in leases {
          var ok := ClaimMessage(idle[i], token(idle[i]), now + lease, now);
          claimed, orphans := claimed + 1, orphans + [idle[i]];
        }
        i := i + 1;
      }
      LeaselessUpTo(before.leases, idle, i, room);
    }

    /** Claims the messages whose lease ran out, and then pending ones that have long had none. */
    method Reclaim(limit: nat, lease: int, minIdle: int, scan: nat, token: nat -> string, now: Time)
      returns (claimed: nat, ghost lapsed: seq<nat>, ghost orphans: seq<nat>)
      modifies this
      ensures ReclaimReply(old(Model()), lapsed, orphans, token, now + lease, now, limit, minIdle, scan)
      ensures claimed == |StillPending(old(Model()), lapsed)| + |orphans|
      ensures Model() == ClaimAll(ClaimAll(old(Model()), lapsed, token, now + lease, now), orphans, token, now + lease, now)
    {
      claimed, lapsed := ReclaimLapsed(limit, lease, token, now);
      var more;
      more, orphans := ReclaimIdle(IdlePending(Model(), now, minIdle, scan), limit - claimed, lease, token, now);
      claimed := claimed + more;
    }

    method Ack(id: nat, token: string, now: Time) returns (reply: LeaseReply)
      modifies this
      ensures (Model(), reply) == old(AckScript(Model(), id, token, now))
    {
      reply := Check(Model(), id, token, now);
      if reply != Held { return; }
      var acknowledged := id in pending;
      pending := pending - {id};
      tokens, leases := tokens - {id}, leases - {id};
      if !acknowledged {
        assert pending == old(pending);
        return Vanished;
      }
      stream := stream - {id};
    }

    method Nack(id: nat, token: string, m: Message, delay: int, now: Time) returns (reply: LeaseReply)
      modifies this
      ensures (Model(), reply) == old(NackScript(Model(), id, token, m, delay, now))
    {
      reply := Check(Model(), id, token, now);
      if reply != Held { return; }
      if id !in pending { return Vanished; }
      pending, stream := pending - {id}, stream - {id};
      tokens, leases := tokens - {id}, leases - {id};
      if delay <= 0 {
        stream, nextID := stream[nextID := m], nextID + 1;
      } else {
        delayed := delayed[m := now + delay];
      }
    }

    method DeadLetter(id: nat, token: string, payload: Envelope, now: Time) returns (reply: LeaseReply)
      modifies this
      ensures (Model(), reply) == old(DeadLetterScript(Model(), id, token, payload, now))
    {
      reply := Check(Model(), id, token, now);
      if reply != Held { return; }
      if id !in pending { return Vanished; }
      pending, stream := pending - {id}, stream - {id};
      tokens, leases := tokens - {id}, leases - {id};
      deadLetters := deadLetters + [payload];
    }
  }
}
