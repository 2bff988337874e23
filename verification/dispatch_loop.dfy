/** Dispatching one claimed job: providers are tried one after another, each under a capacity permit, until one may have
    taken the work on. What providers, adapters and the capacity store answer is a parameter. */
module DispatchLoop {
  import opened Text
  import opened JobModel
  import opened JobStore
  import opened JobRuns

  datatype Provider = Provider(routeID: string, accountID: string)

  /** What makes a candidate count as the same one. */
  datatype ProviderKey = ProviderKey(route: string, account: string)

  function KeyOf(p: Provider): ProviderKey {
    ProviderKey(Trim(p.routeID), Trim(p.accountID))
  }

  datatype Selection = SelectionError | Unsupported | Supported
  datatype Capacity = CapacityError | Denied | Granted
  datatype DispatchState = TaskCreated | ProvenNotCreated | UnknownState | Submitted | Unexpected

  /** The answers of the world outside, by attempt number. */
  datatype Oracles = Oracles(
    candidates: nat -> Option<seq<Provider>>, selection: nat -> Selection, capacity: nat -> Capacity,
    begins: nat -> bool, state: nat -> DispatchState)

  /** What the loop does to the world, in order. */
  datatype Effect =
    | Acquire(attempt: nat)
    | Release(attempt: nat)
    | Retain(attempt: nat)
    | Submit(attempt: nat, key: ProviderKey)

  datatype Finish =
    | GaveUp
    | Requeue(reason: string)
    | TaskAccepted
    | TaskUnknown

  const CAPACITY_UNAVAILABLE := "capacity_unavailable"
  const ADAPTER_UNAVAILABLE := "adapter_unavailable"

  /** A provider may be working on it. */
  predicate MayExist(state: DispatchState) {
    state == TaskCreated || state == UnknownState || state == Submitted
  }

  function NotExcluded(candidates: seq<Provider>, excluded: set<ProviderKey>): seq<Provider> {
    if candidates == [] then []
    else
      NotExcluded(candidates[..|candidates| - 1], excluded)
      + if KeyOf(candidates[|candidates| - 1]) in excluded then [] else [candidates[|candidates| - 1]]
  }

  lemma {:induction false} NotExcludedMembers(candidates: seq<Provider>, excluded: set<ProviderKey>)
    ensures forall p :: p in NotExcluded(candidates, excluded) <==> p in candidates && KeyOf(p) !in excluded
  {
    if candidates != [] {
      var n := |candidates| - 1;
      NotExcludedMembers(candidates[..n], excluded);
      assert candidates == candidates[..n] + [candidates[n]];
    }
  }

  method Candidates(candidates: seq<Provider>, excluded: set<ProviderKey>) returns (filtered: seq<Provider>)
    ensures filtered == NotExcluded(candidates, excluded)
  {
    filtered := [];
    for i := 0 to |candidates|
      invariant filtered == NotExcluded(candidates[..i], excluded)
    {
      assert candidates[..i + 1][..i] == candidates[..i];
      if KeyOf(candidates[i]) !in excluded { filtered := filtered + [candidates[i]]; }
    }
    assert candidates[..|candidates|] == candidates;
  }

  // One round per attempt number, and the effects it leaves.

  datatype Round =
    | Unselected(key: ProviderKey)
    | NoCapacity(key: ProviderKey)
    | Abandoned(key: ProviderKey)
    | Tried(key: ProviderKey, state: DispatchState)

  function EffectsOf(n: nat, round: Round): seq<Effect> {
    match round
    case Unselected(_) => []
    case NoCapacity(_) => []
    case Abandoned(_) => [Acquire(n), Release(n)]
    case Tried(key, state) => [Acquire(n), Submit(n, key), if MayExist(state) then Retain(n) else Release(n)]
  }

  /** The effects of rounds 1, 2, and so on. */
  function Log(rounds: seq<Round>): seq<Effect> {
    if rounds == [] then [] else Log(rounds[..|rounds| - 1]) + EffectsOf(|rounds|, rounds[|rounds| - 1])
  }

  /** The round left no task and no abandoned attempt behind. */
  predicate Passed(round: Round) {
    !round.Abandoned? && (round.Tried? ==> round.state == ProvenNotCreated)
  }

  ghost function Keys(rounds: seq<Round>): set<ProviderKey> {
    set i | 0 <= i < |rounds| :: rounds[i].key
  }

  /** The first candidate that is not excluded; None when the lookup fails or nobody is left. */
  function FirstLeft(oracles: Oracles, n: nat, excluded: set<ProviderKey>): Option<ProviderKey> {
    if oracles.candidates(n).None? || NotExcluded(oracles.candidates(n).value, excluded) == [] then None
    else Some(KeyOf(NotExcluded(oracles.candidates(n).value, excluded)[0]))
  }

  /** How attempt `n` goes with a provider; None when the adapter lookup or the capacity store fails. */
  function RoundFor(oracles: Oracles, n: nat, key: ProviderKey): Option<Round> {
    if oracles.selection(n) == SelectionError then None
    else if oracles.selection(n) == Unsupported then Some(Unselected(key))
    else if oracles.capacity(n) == CapacityError then None
    else if oracles.capacity(n) == Denied then Some(NoCapacity(key))
    else if !oracles.begins(n) then Some(Abandoned(key))
    else Some(Tried(key, oracles.state(n)))
  }

  ghost predicate RoundFits(rounds: seq<Round>, i: nat, oracles: Oracles)
    requires i < |rounds|
  {
    && FirstLeft(oracles, i + 1, Keys(rounds[..i])) == Some(rounds[i].key)
    && RoundFor(oracles, i + 1, rounds[i].key) == Some(rounds[i])
  }

  /** Each round is with the first provider left, no provider comes twice, and only the last round may leave a task
      behind. */
  ghost predicate RoundsFit(rounds: seq<Round>, oracles: Oracles) {
    && (forall i :: 0 <= i < |rounds| ==> RoundFits(rounds, i, oracles))
    && (forall i, j :: 0 <= i < j < |rounds| ==> rounds[i].key != rounds[j].key)
    && (forall i :: 0 <= i < |rounds| && i + 1 < |rounds| ==> Passed(rounds[i]))
  }

  ghost function Times(log: seq<Effect>, e: Effect): nat {
    multiset(log)[e]
  }

  predicate Acquires(round: Round) {
    round.Abandoned? || round.Tried?
  }

  predicate Retains(round: Round) {
    round.Tried? && MayExist(round.state)
  }

  predicate Owns(round: Round, n: nat, e: Effect) {
    match e
    case Acquire(m) => m == n && Acquires(round)
    case Release(m) => m == n && Acquires(round) && !Retains(round)
    case Retain(m) => m == n && Retains(round)
    case Submit(m, key) => m == n && round.Tried? && round.key == key
  }

  function OwnedTimes(rounds: seq<Round>, e: Effect): nat {
    if 1 <= e.attempt <= |rounds| && Owns(rounds[e.attempt - 1], e.attempt, e) then 1 else 0
  }

  lemma RoundCounts(n: nat, round: Round, e: Effect)
    ensures Times(EffectsOf(n, round), e) == if Owns(round, n, e) then 1 else 0
  {}

  lemma TimesConcat(a: seq<Effect>, b: seq<Effect>, e: Effect)
    ensures Times(a + b, e) == Times(a, e) + Times(b, e)
  {}

  lemma OwnedOneMore(rounds: seq<Round>, n: nat, e: Effect)
    requires |rounds| == n + 1
    ensures OwnedTimes(rounds, e) == OwnedTimes(rounds[..n], e) + if Owns(rounds[n], n + 1, e) then 1 else 0
  {}

  /** An effect is in the log once if its round causes it, and otherwise not at all. */
  lemma {:induction false} LogCounts(rounds: seq<Round>, e: Effect)
    ensures Times(Log(rounds), e) == OwnedTimes(rounds, e)
  {
    if rounds != [] {
      var n := |rounds| - 1;
      LogCounts(rounds[..n], e);
      RoundCounts(n + 1, rounds[n], e);
      OwnedOneMore(rounds, n, e);
      TimesConcat(Log(rounds[..n]), EffectsOf(n + 1, rounds[n]), e);
    }
  }

  lemma SettledOnce(rounds: seq<Round>, n: nat)
    ensures OwnedTimes(rounds, Acquire(n)) == OwnedTimes(rounds, Release(n)) + OwnedTimes(rounds, Retain(n))
  {}

  /** Every permit that is acquired is settled exactly once, released or retained. */
  lemma {:induction false} PermitsAreSettledOnce(rounds: seq<Round>, n: nat)
    ensures var log := Log(rounds);
            Times(log, Acquire(n)) <= 1 && Times(log, Acquire(n)) == Times(log, Release(n)) + Times(log, Retain(n))
  {
    LogCounts(rounds, Acquire(n));
    LogCounts(rounds, Release(n));
    LogCounts(rounds, Retain(n));
    SettledOnce(rounds, n);
  }

  lemma {:induction false} SubmittedRound(rounds: seq<Round>, n: nat, key: ProviderKey)
    ensures Submit(n, key) in Log(rounds)
            <==> 1 <= n <= |rounds| && rounds[n - 1].Tried? && rounds[n - 1].key == key
  {
    LogCounts(rounds, Submit(n, key));
  }

  lemma TriedState(rounds: seq<Round>, oracles: Oracles, n: nat)
    requires RoundsFit(rounds, oracles) && 1 <= n <= |rounds| && rounds[n - 1].Tried?
    ensures rounds[n - 1].state == oracles.state(n)
  {
    assert RoundFits(rounds, n - 1, oracles);
  }

  /** A permit is retained exactly when its attempt was submitted and a provider may be working on it. */
  lemma {:induction false} RetainedWhenNeeded(rounds: seq<Round>, oracles: Oracles, n: nat)
    requires RoundsFit(rounds, oracles)
    ensures Retain(n) in Log(rounds) <==> WasSubmitted(Log(rounds), n) && MayExist(oracles.state(n))
  {
    LogCounts(rounds, Retain(n));
    SubmittedOnce(rounds, n);
    if 1 <= n <= |rounds| && rounds[n - 1].Tried? { TriedState(rounds, oracles, n); }
  }

  ghost predicate WasSubmitted(log: seq<Effect>, n: nat) {
    exists key :: Submit(n, key) in log
  }

  lemma {:induction false} SubmittedOnce(rounds: seq<Round>, n: nat)
    ensures WasSubmitted(Log(rounds), n) <==> 1 <= n <= |rounds| && rounds[n - 1].Tried?
  {
    if key :| Submit(n, key) in Log(rounds) {
      SubmittedRound(rounds, n, key);
    } else if 1 <= n <= |rounds| && rounds[n - 1].Tried? {
      SubmittedRound(rounds, n, rounds[n - 1].key);
    }
  }

  /** A later submission needs proof that every earlier one created nothing, and goes to another provider. */
  lemma {:induction false} SubmitsSafely(
    rounds: seq<Round>, oracles: Oracles, n: nat, m: nat, key: ProviderKey, other: ProviderKey)
    requires RoundsFit(rounds, oracles) && n < m && Submit(n, key) in Log(rounds) && Submit(m, other) in Log(rounds)
    ensures oracles.state(n) == ProvenNotCreated && key != other
  {
    SubmittedRound(rounds, n, key);
    SubmittedRound(rounds, m, other);
    TriedState(rounds, oracles, n);
    assert Passed(rounds[n - 1]);
  }

  // The loop.

  ghost predicate Known(oracles: Oracles, universe: set<ProviderKey>) {
    forall n, p :: oracles.candidates(n).Some? && p in oracles.candidates(n).value ==> KeyOf(p) in universe
  }

  lemma KeysOneMore(rounds: seq<Round>, round: Round)
    ensures Keys(rounds + [round]) == Keys(rounds) + {round.key}
  {
    forall i | 0 <= i < |rounds| ensures (rounds + [round])[i] == rounds[i] {}
    assert (rounds + [round])[|rounds|] == round;
  }

  lemma {:induction false} RoundsGrow(rounds: seq<Round>, round: Round, oracles: Oracles)
    requires RoundsFit(rounds, oracles) && round.key !in Keys(rounds) && AllPassed(rounds)
    requires FirstLeft(oracles, |rounds| + 1, Keys(rounds)) == Some(round.key)
    requires RoundFor(oracles, |rounds| + 1, round.key) == Some(round)
    ensures RoundsFit(rounds + [round], oracles)
    ensures Log(rounds + [round]) == Log(rounds) + EffectsOf(|rounds| + 1, round)
  {
    var more := rounds + [round];
    assert more[..|rounds|] == rounds;
    forall i | 0 <= i < |rounds| ensures more[i].key != round.key { assert rounds[i].key in Keys(rounds); }
    forall i | 0 <= i < |more| ensures RoundFits(more, i, oracles) {
      assert more[..i] == rounds[..i];
      if i < |rounds| { assert RoundFits(rounds, i, oracles); } else { assert rounds[..i] == rounds; }
    }
  }

  ghost predicate AllPassed(rounds: seq<Round>) {
    forall i :: 0 <= i < |rounds| ==> Passed(rounds[i])
  }

  /** How a dispatch ends: as its last round says, if that round stops it; otherwise it is given up when the next lookup
      fails, and given back when nobody is left. */
  ghost predicate EndsAs(finish: Finish, rounds: seq<Round>, oracles: Oracles) {
    if !AllPassed(rounds) then rounds != [] && finish == FinishOf(rounds[|rounds| - 1])
    else
      var n, key := |rounds| + 1, FirstLeft(oracles, |rounds| + 1, Keys(rounds));
      if oracles.candidates(n).None? then finish == GaveUp
      else if key.None? then
        finish == Requeue(if HasUnselected(rounds) then ADAPTER_UNAVAILABLE else CAPACITY_UNAVAILABLE)
      else finish == GaveUp && RoundFor(oracles, n, key.value).None?
  }

  /** A task was accepted, or may exist, exactly when the last submission says so. */
  lemma {:induction false} FinishReportsTheTask(finish: Finish, rounds: seq<Round>, oracles: Oracles)
    requires RoundsFit(rounds, oracles) && EndsAs(finish, rounds, oracles)
    ensures finish == TaskAccepted <==> exists n, key :: Submit(n, key) in Log(rounds) && oracles.state(n) == TaskCreated
    ensures finish == TaskUnknown
            <==> exists n, key :: Submit(n, key) in Log(rounds) && oracles.state(n) in {UnknownState, Submitted}
  {
    forall n: nat, key: ProviderKey | Submit(n, key) in Log(rounds)
      ensures n >= 1 && n <= |rounds| && rounds[n - 1] == Tried(key, oracles.state(n))
      ensures MayExist(oracles.state(n)) ==> n == |rounds| && finish == FinishOf(rounds[n - 1])
    {
      SubmittedRound(rounds, n, key);
      TriedState(rounds, oracles, n);
      assert n < |rounds| ==> Passed(rounds[n - 1]);
    }
    if finish in {TaskAccepted, TaskUnknown} {
      var last := rounds[|rounds| - 1];
      TriedState(rounds, oracles, |rounds|);
      SubmittedRound(rounds, |rounds|, last.key);
    }
  }

  /** One attempt under an acquired permit. */
  method TryUnderPermit(oracles: Oracles, attempt: nat, key: ProviderKey) returns (effects: seq<Effect>, round: Round)
    ensures round == (if oracles.begins(attempt) then Tried(key, oracles.state(attempt)) else Abandoned(key))
    ensures effects == EffectsOf(attempt, round)
  {
    effects := [Acquire(attempt)];
    if !oracles.begins(attempt) { return effects + [Release(attempt)], Abandoned(key); }
    var state := oracles.state(attempt);
    effects := effects + [Submit(attempt, key)];
    match state {
      case TaskCreated => effects := effects + [Retain(attempt)];
      case ProvenNotCreated => effects := effects + [Release(attempt)];
      case UnknownState => effects := effects + [Retain(attempt)];
      case Submitted => effects := effects + [Retain(attempt)];
      case Unexpected => effects := effects + [Release(attempt)];
    }
    round := Tried(key, state);
  }

  /** One round with the first candidate; None when the adapter or the capacity store fails. */
  method TryCandidate(oracles: Oracles, attempt: nat, key: ProviderKey) returns (effects: seq<Effect>, round: Option<Round>)
    ensures round == RoundFor(oracles, attempt, key)
    ensures effects == if round.Some? then EffectsOf(attempt, round.value) else []
  {
    effects := [];
    var selection := oracles.selection(attempt);
    if selection == SelectionError { return [], None; }
    if selection == Unsupported { return [], Some(Unselected(key)); }
    var capacity := oracles.capacity(attempt);
    if capacity == CapacityError { return [], None; }
    if capacity == Denied { return [], Some(NoCapacity(key)); }
    var tried;
    effects, tried := TryUnderPermit(oracles, attempt, key);
    round := Some(tried);
  }

  function FinishOf(round: Round): Finish {
    if round.Tried? && round.state == TaskCreated then TaskAccepted
    else if round.Tried? && MayExist(round.state) then TaskUnknown
    else GaveUp
  }

  ghost predicate HasUnselected(rounds: seq<Round>) {
    exists i :: 0 <= i < |rounds| && rounds[i].Unselected?
  }

  lemma {:induction false} NextRound(rounds: seq<Round>, round: Round, oracles: Oracles)
    requires RoundsFit(rounds, oracles) && AllPassed(rounds) && round.key !in Keys(rounds)
    requires FirstLeft(oracles, |rounds| + 1, Keys(rounds)) == Some(round.key)
    requires RoundFor(oracles, |rounds| + 1, round.key) == Some(round)
    ensures RoundsFit(rounds + [round], oracles) && Keys(rounds + [round]) == Keys(rounds) + {round.key}
    ensures Log(rounds + [round]) == Log(rounds) + EffectsOf(|rounds| + 1, round)
    ensures AllPassed(rounds + [round]) <==> Passed(round)
    ensures HasUnselected(rounds + [round]) <==> HasUnselected(rounds) || round.Unselected?
    ensures !Passed(round) ==> EndsAs(FinishOf(round), rounds + [round], oracles)
  {
    RoundsGrow(rounds, round, oracles);
    KeysOneMore(rounds, round);
    var more := rounds + [round];
    assert more[|rounds|] == round && forall i :: 0 <= i < |rounds| ==> more[i] == rounds[i];
    if HasUnselected(rounds) {
      var i :| 0 <= i < |rounds| && rounds[i].Unselected?;
      assert more[i].Unselected?;
    }
  }

  lemma {:induction false} CandidateIsNew(
    oracles: Oracles, universe: set<ProviderKey>, excluded: set<ProviderKey>, attempt: nat, key: ProviderKey)
    requires Known(oracles, universe) && excluded <= universe && FirstLeft(oracles, attempt, excluded) == Some(key)
    ensures key in universe && key !in excluded && |excluded| < |universe|
  {
    var offered := oracles.candidates(attempt).value;
    NotExcludedMembers(offered, excluded);
    var provider := NotExcluded(offered, excluded)[0];
    assert provider in NotExcluded(offered, excluded);
    SmallerSet(excluded + {KeyOf(provider)}, universe);
  }

  /** A whole dispatch: its rounds, the effects they left, and how it ended. */
  ghost predicate Dispatches(oracles: Oracles, rounds: seq<Round>, finish: Finish, log: seq<Effect>) {
    RoundsFit(rounds, oracles) && log == Log(rounds) && EndsAs(finish, rounds, oracles)
  }

  /** The loop stops before a round: nobody is left, or a lookup failed. */
  lemma {:induction false} StopsBefore(
    finish: Finish, rounds: seq<Round>, oracles: Oracles, n: nat, key: Option<ProviderKey>, log: seq<Effect>)
    requires RoundsFit(rounds, oracles) && log == Log(rounds) && AllPassed(rounds) && n == |rounds| + 1
    requires key == FirstLeft(oracles, n, Keys(rounds))
    requires if oracles.candidates(n).None? then finish == GaveUp
             else if key.None? then
               finish == Requeue(if HasUnselected(rounds) then ADAPTER_UNAVAILABLE else CAPACITY_UNAVAILABLE)
             else finish == GaveUp && RoundFor(oracles, n, key.value).None?
    ensures Dispatches(oracles, rounds, finish, log)
  {}

  method NextProvider(oracles: Oracles, attempt: nat, excluded: set<ProviderKey>) returns (failed: bool, key: Option<ProviderKey>)
    ensures failed <==> oracles.candidates(attempt).None?
    ensures key == FirstLeft(oracles, attempt, excluded)
  {
    var offered := oracles.candidates(attempt);
    if offered.None? { return true, None; }
    var candidates := Candidates(offered.value, excluded);
    if candidates == [] { return false, None; }
    failed, key := false, Some(KeyOf(candidates[0]));
  }

  /** Tries the candidates until one may have taken the work on, or none is left. It ends because every round excludes one
      more of the known providers. */
  method RunRounds(oracles: Oracles, ghost universe: set<ProviderKey>)
    returns (finish: Finish, log: seq<Effect>, ghost rounds: seq<Round>)
    requires Known(oracles, universe)
    ensures Dispatches(oracles, rounds, finish, log) && |rounds| <= |universe|
  {
    var excluded: set<ProviderKey> := {};
    var adapterUnavailable := false;
    var attempt: nat := 1;
    log, rounds := [], [];
    while true
      invariant attempt == |rounds| + 1 && excluded == Keys(rounds) && excluded <= universe && |excluded| == |rounds| <= |universe|
      invariant RoundsFit(rounds, oracles) && AllPassed(rounds) && log == Log(rounds)
      invariant adapterUnavailable <==> HasUnselected(rounds)
      decreases |universe| - |rounds|
    {
      var failed, next := NextProvider(oracles, attempt, excluded);
      if failed {
        StopsBefore(GaveUp, rounds, oracles, attempt, next, log);
        return GaveUp, log, rounds;
      }
      if next.None? {
        finish := Requeue(if adapterUnavailable then ADAPTER_UNAVAILABLE else CAPACITY_UNAVAILABLE);
        StopsBefore(finish, rounds, oracles, attempt, next, log);
        return;
      }
      var key := next.value;
      CandidateIsNew(oracles, universe, excluded, attempt, key);
      var effects, round := TryCandidate(oracles, attempt, key);
      if round.None? {
        StopsBefore(GaveUp, rounds, oracles, attempt, next, log);
        return GaveUp, log, rounds;
      }
      RoundHasKey(oracles, attempt, key, round.value);
      NextRound(rounds, round.value, oracles);
      log, rounds := log + effects, rounds + [round.value];
      if !Passed(round.value) {
        assert Dispatches(oracles, rounds, FinishOf(round.value), log);
        return FinishOf(round.value), log, rounds;
      }
      adapterUnavailable := adapterUnavailable || round.value.Unselected?;
      excluded := excluded + {key};
      attempt := attempt + 1;
    }
  }

  // What a dispatch does, told from the answers of the world outside.

  predicate SameProvider(p: Provider, q: Provider) {
    Trim(p.routeID) == Trim(q.routeID) && Trim(p.accountID) == Trim(q.accountID)
  }

  ghost predicate TriedBefore(tried: seq<Provider>, p: Provider) {
    exists i :: 0 <= i < |tried| && SameProvider(tried[i], p)
  }

  ghost predicate FirstAt(offered: seq<Provider>, tried: seq<Provider>, p: Provider, k: nat) {
    k < |offered| && offered[k] == p && !TriedBefore(tried, p) && forall j :: 0 <= j < k ==> TriedBefore(tried, offered[j])
  }

  /** The first provider of lookup `n` that was not tried before. */
  ghost predicate FirstOffered(oracles: Oracles, n: nat, tried: seq<Provider>, p: Provider) {
    oracles.candidates(n).Some? && exists k: nat :: FirstAt(oracles.candidates(n).value, tried, p, k)
  }

  ghost predicate NobodyLeft(oracles: Oracles, n: nat, tried: seq<Provider>) {
    oracles.candidates(n).Some? && forall p :: p in oracles.candidates(n).value ==> TriedBefore(tried, p)
  }

  /** Attempt `n` got a permit. */
  predicate GetsPermit(oracles: Oracles, n: nat) {
    oracles.selection(n) == Supported && oracles.capacity(n) == Granted
  }

  predicate Submits(oracles: Oracles, n: nat) {
    GetsPermit(oracles, n) && oracles.begins(n)
  }

  /** Attempt `n` rules its provider out, and the loop goes on. */
  predicate RulesOut(oracles: Oracles, n: nat) {
    || oracles.selection(n) == Unsupported
    || (oracles.selection(n) == Supported && oracles.capacity(n) == Denied)
    || (Submits(oracles, n) && oracles.state(n) == ProvenNotCreated)
  }

  /** Attempt `n` goes wrong before anything may have been created, or in a way that nobody expects. */
  predicate Breaks(oracles: Oracles, n: nat) {
    || oracles.selection(n) == SelectionError
    || (oracles.selection(n) == Supported && oracles.capacity(n) == CapacityError)
    || (GetsPermit(oracles, n) && !oracles.begins(n))
    || (Submits(oracles, n) && oracles.state(n) == Unexpected)
  }

  /** Each attempt is with the first provider not tried before, and only the last one may not be ruled out. */
  ghost predicate Attempts(oracles: Oracles, tried: seq<Provider>) {
    forall i :: 0 <= i < |tried| ==>
      FirstOffered(oracles, i + 1, tried[..i], tried[i]) && (i + 1 < |tried| ==> RulesOut(oracles, i + 1))
  }

  ghost predicate AllRuledOut(oracles: Oracles, tried: seq<Provider>) {
    tried == [] || RulesOut(oracles, |tried|)
  }

  ghost predicate PermitsMatch(oracles: Oracles, tried: seq<Provider>, log: seq<Effect>, n: nat) {
    && (Acquire(n) in log <==> 1 <= n <= |tried| && GetsPermit(oracles, n))
    && (Retain(n) in log <==> 1 <= n <= |tried| && Submits(oracles, n) && oracles.state(n) in {TaskCreated, UnknownState, Submitted})
    && (Release(n) in log <==> Acquire(n) in log && Retain(n) !in log)
  }

  ghost predicate SubmissionsMatch(oracles: Oracles, tried: seq<Provider>, log: seq<Effect>, n: nat) {
    forall key :: Submit(n, key) in log <==>
      1 <= n <= |tried| && Submits(oracles, n) && key == ProviderKey(Trim(tried[n - 1].routeID), Trim(tried[n - 1].accountID))
  }

  /** The permits taken, kept and given back, and the work submitted. */
  ghost predicate EffectsMatch(oracles: Oracles, tried: seq<Provider>, log: seq<Effect>) {
    forall n: nat :: PermitsMatch(oracles, tried, log, n) && SubmissionsMatch(oracles, tried, log, n)
  }

  /** A dispatch gives up exactly when its last attempt breaks or its last lookup fails, and it gives the job back exactly
      when every provider of the last lookup was ruled out. */
  ghost predicate FinishMatches(oracles: Oracles, tried: seq<Provider>, finish: Finish) {
    var n := |tried|;
    && (finish == GaveUp <==>
          if AllRuledOut(oracles, tried) then oracles.candidates(n + 1).None? else Breaks(oracles, n))
    && (finish.Requeue? <==> AllRuledOut(oracles, tried) && NobodyLeft(oracles, n + 1, tried))
    && (finish == TaskAccepted <==> n > 0 && Submits(oracles, n) && oracles.state(n) == TaskCreated)
    && (finish == TaskUnknown <==> n > 0 && Submits(oracles, n) && oracles.state(n) in {UnknownState, Submitted})
  }

  ghost predicate LackedAdapter(oracles: Oracles, n: nat) {
    exists i :: 1 <= i <= n && oracles.selection(i) == Unsupported
  }

  /** A job that is given back waits for an adapter if some provider had none, and else for capacity. */
  ghost predicate ReasonMatches(oracles: Oracles, tried: seq<Provider>, finish: Finish) {
    finish.Requeue? ==> finish.reason == (if LackedAdapter(oracles, |tried|) then "adapter_unavailable" else "capacity_unavailable")
  }

  function AttemptOf(e: Effect): nat { e.attempt }

  /** Attempt by attempt: the permit is taken, then the work submitted, then the permit kept or given back. */
  function Place(e: Effect): nat {
    3 * AttemptOf(e) + (if e.Acquire? then 0 else if e.Submit? then 1 else 2)
  }

  ghost predicate InSequence(log: seq<Effect>) {
    forall a, b :: 0 <= a < b < |log| ==> Place(log[a]) < Place(log[b])
  }

  ghost predicate Explains(oracles: Oracles, tried: seq<Provider>, finish: Finish, log: seq<Effect>) {
    && Attempts(oracles, tried) && FinishMatches(oracles, tried, finish) && ReasonMatches(oracles, tried, finish)
    && EffectsMatch(oracles, tried, log) && InSequence(log)
  }

  // The rounds of the loop are such attempts.

  lemma {:induction false} FirstNotExcluded(candidates: seq<Provider>, excluded: set<ProviderKey>) returns (k: nat)
    requires NotExcluded(candidates, excluded) != []
    ensures k < |candidates| && candidates[k] == NotExcluded(candidates, excluded)[0] && KeyOf(candidates[k]) !in excluded
    ensures forall j :: 0 <= j < k ==> KeyOf(candidates[j]) in excluded
  {
    var n := |candidates| - 1;
    var fewer := NotExcluded(candidates[..n], excluded);
    if fewer != [] {
      k := FirstNotExcluded(candidates[..n], excluded);
      assert NotExcluded(candidates, excluded)[0] == fewer[0];
      forall j | 0 <= j < k ensures KeyOf(candidates[j]) in excluded { assert KeyOf(candidates[..n][j]) in excluded; }
    } else {
      k := n;
      AllExcluded(candidates[..n], excluded);
      forall j | 0 <= j < n ensures KeyOf(candidates[j]) in excluded { assert KeyOf(candidates[..n][j]) in excluded; }
    }
  }

  lemma {:induction false} AllExcluded(candidates: seq<Provider>, excluded: set<ProviderKey>)
    requires NotExcluded(candidates, excluded) == []
    ensures forall j :: 0 <= j < |candidates| ==> KeyOf(candidates[j]) in excluded
  {
    NotExcludedMembers(candidates, excluded);
    forall j | 0 <= j < |candidates| ensures KeyOf(candidates[j]) in excluded { assert candidates[j] in candidates; }
  }

  /** The providers tried are those whose keys are excluded. */
  ghost predicate KeysOfTried(tried: seq<Provider>, excluded: set<ProviderKey>) {
    forall p :: TriedBefore(tried, p) <==> KeyOf(p) in excluded
  }

  lemma {:induction false} FirstLeftIsOffered(oracles: Oracles, n: nat, tried: seq<Provider>, excluded: set<ProviderKey>)
    returns (p: Provider)
    requires KeysOfTried(tried, excluded) && FirstLeft(oracles, n, excluded).Some?
    ensures FirstOffered(oracles, n, tried, p) && FirstLeft(oracles, n, excluded) == Some(KeyOf(p))
  {
    var offered := oracles.candidates(n).value;
    var k := FirstNotExcluded(offered, excluded);
    p := offered[k];
    assert FirstAt(offered, tried, p, k);
  }

  lemma {:induction false} NobodyLeftMeansNone(oracles: Oracles, n: nat, tried: seq<Provider>, excluded: set<ProviderKey>)
    requires KeysOfTried(tried, excluded) && oracles.candidates(n).Some?
    ensures FirstLeft(oracles, n, excluded).None? <==> NobodyLeft(oracles, n, tried)
  {
    var offered := oracles.candidates(n).value;
    NotExcludedMembers(offered, excluded);
    if NotExcluded(offered, excluded) != [] { assert NotExcluded(offered, excluded)[0] in NotExcluded(offered, excluded); }
  }

  lemma {:induction false} TriedOneMore(tried: seq<Provider>, excluded: set<ProviderKey>, p: Provider)
    requires KeysOfTried(tried, excluded)
    ensures KeysOfTried(tried + [p], excluded + {KeyOf(p)})
  {
    forall q ensures TriedBefore(tried + [p], q) <==> KeyOf(q) in excluded + {KeyOf(p)} {
      assert TriedBefore(tried, q) <==> KeyOf(q) in excluded;
      if i :| 0 <= i < |tried| && SameProvider(tried[i], q) { assert SameProvider((tried + [p])[i], q); }
      if KeyOf(q) == KeyOf(p) { assert SameProvider((tried + [p])[|tried|], q); }
    }
  }

  /** One provider per round, with the round's key. */
  ghost predicate TriedInRounds(rounds: seq<Round>, tried: seq<Provider>) {
    |tried| == |rounds| && KeysOfTried(tried, Keys(rounds)) && forall i :: 0 <= i < |rounds| ==> rounds[i].key == KeyOf(tried[i])
  }

  lemma {:induction false} RoundsAreAttempts(rounds: seq<Round>, oracles: Oracles) returns (tried: seq<Provider>)
    requires RoundsFit(rounds, oracles)
    ensures TriedInRounds(rounds, tried) && Attempts(oracles, tried)
  {
    if rounds == [] {
      tried := [];
    } else {
      var n := |rounds| - 1;
      RoundsPrefix(rounds, oracles, n);
      var before := RoundsAreAttempts(rounds[..n], oracles);
      tried := NextAttempt(rounds, n, oracles, before);
    }
  }

  lemma {:induction false} NextAttempt(
    rounds: seq<Round>, n: nat, oracles: Oracles, before: seq<Provider>) returns (tried: seq<Provider>)
    requires RoundsFit(rounds, oracles) && |rounds| == n + 1
    requires TriedInRounds(rounds[..n], before) && Attempts(oracles, before)
    ensures TriedInRounds(rounds, tried) && Attempts(oracles, tried)
  {
    assert RoundFits(rounds, n, oracles);
    var p := FirstLeftIsOffered(oracles, n + 1, before, Keys(rounds[..n]));
    tried := before + [p];
    RoundsTryOneMore(rounds, n, before, p, tried);
    EarlierRoundsRuleOut(rounds, n, oracles, before);
    AttemptsGrow(oracles, before, p);
  }

  lemma {:induction false} EarlierRoundsRuleOut(rounds: seq<Round>, n: nat, oracles: Oracles, before: seq<Provider>)
    requires RoundsFit(rounds, oracles) && |rounds| == n + 1 && |before| == n
    ensures AllRuledOut(oracles, before)
  {
    if n > 0 { PassedRulesOut(rounds, oracles, n - 1); }
  }

  lemma KeysSplit(rounds: seq<Round>, n: nat)
    requires |rounds| == n + 1
    ensures Keys(rounds) == Keys(rounds[..n]) + {rounds[n].key}
  {
    assert rounds[..n] + [rounds[n]] == rounds;
    KeysOneMore(rounds[..n], rounds[n]);
  }

  lemma {:induction false} RoundsTryOneMore(
    rounds: seq<Round>, n: nat, before: seq<Provider>, p: Provider, tried: seq<Provider>)
    requires |rounds| == n + 1 && TriedInRounds(rounds[..n], before) && rounds[n].key == KeyOf(p) && tried == before + [p]
    ensures TriedInRounds(rounds, tried)
  {
    TriedOneMore(before, Keys(rounds[..n]), p);
    KeysSplit(rounds, n);
    forall i | 0 <= i < |rounds| ensures rounds[i].key == KeyOf(tried[i]) {
      if i < n { assert rounds[..n][i].key == KeyOf(before[i]); }
    }
  }

  lemma {:induction false} RoundsPrefix(rounds: seq<Round>, oracles: Oracles, n: nat)
    requires RoundsFit(rounds, oracles) && n <= |rounds|
    ensures RoundsFit(rounds[..n], oracles)
  {
    forall i | 0 <= i < n ensures RoundFits(rounds[..n], i, oracles) {
      assert RoundFits(rounds, i, oracles) && rounds[..n][..i] == rounds[..i];
    }
  }

  lemma {:induction false} AttemptsGrow(oracles: Oracles, tried: seq<Provider>, p: Provider)
    requires Attempts(oracles, tried) && AllRuledOut(oracles, tried) && FirstOffered(oracles, |tried| + 1, tried, p)
    ensures Attempts(oracles, tried + [p])
  {
    var more := tried + [p];
    forall i | 0 <= i < |more|
      ensures FirstOffered(oracles, i + 1, more[..i], more[i]) && (i + 1 < |more| ==> RulesOut(oracles, i + 1))
    {
      assert more[..i] == tried[..i];
      if i == |tried| {
        assert tried[..i] == tried;
      } else {
        assert FirstOffered(oracles, i + 1, tried[..i], tried[i]);
      }
    }
  }

  /** What a round says about the answers of its attempt. */
  lemma {:induction false} PassedRulesOut(rounds: seq<Round>, oracles: Oracles, i: nat)
    requires RoundsFit(rounds, oracles) && i < |rounds|
    ensures Passed(rounds[i]) <==> RulesOut(oracles, i + 1)
    ensures rounds[i].Unselected? <==> oracles.selection(i + 1) == Unsupported
    ensures Acquires(rounds[i]) <==> GetsPermit(oracles, i + 1)
    ensures rounds[i].Tried? <==> Submits(oracles, i + 1)
    ensures rounds[i].Tried? ==> rounds[i].state == oracles.state(i + 1)
    ensures !Passed(rounds[i]) ==> (FinishOf(rounds[i]) == GaveUp <==> Breaks(oracles, i + 1))
    ensures oracles.selection(i + 1) != SelectionError && (oracles.selection(i + 1) == Supported ==> oracles.capacity(i + 1) != CapacityError)
  {
    assert RoundFits(rounds, i, oracles);
  }

  lemma {:induction false} RoundOwns(rounds: seq<Round>, oracles: Oracles, n: nat, key: ProviderKey)
    requires RoundsFit(rounds, oracles) && 1 <= n <= |rounds|
    ensures Owns(rounds[n - 1], n, Acquire(n)) <==> GetsPermit(oracles, n)
    ensures Owns(rounds[n - 1], n, Retain(n)) <==> Submits(oracles, n) && oracles.state(n) in {TaskCreated, UnknownState, Submitted}
    ensures Owns(rounds[n - 1], n, Release(n)) <==> Owns(rounds[n - 1], n, Acquire(n)) && !Owns(rounds[n - 1], n, Retain(n))
    ensures Owns(rounds[n - 1], n, Submit(n, key)) <==> Submits(oracles, n) && rounds[n - 1].key == key
  {
    PassedRulesOut(rounds, oracles, n - 1);
  }

  lemma {:induction false} LoggedIfOwned(rounds: seq<Round>, e: Effect)
    ensures e in Log(rounds) <==> 1 <= e.attempt <= |rounds| && Owns(rounds[e.attempt - 1], e.attempt, e)
  {
    LogCounts(rounds, e);
  }

  lemma {:induction false} LogIsExplained(rounds: seq<Round>, oracles: Oracles, tried: seq<Provider>)
    requires RoundsFit(rounds, oracles) && TriedInRounds(rounds, tried)
    ensures EffectsMatch(oracles, tried, Log(rounds))
  {
    forall n: nat ensures PermitsMatch(oracles, tried, Log(rounds), n) && SubmissionsMatch(oracles, tried, Log(rounds), n) {
      PermitsAreExplained(rounds, oracles, tried, n);
      SubmissionsAreExplained(rounds, oracles, tried, n);
    }
  }

  lemma {:induction false} LaterInSequence(a: seq<Effect>, b: seq<Effect>, from: nat)
    requires InSequence(a) && InSequence(b)
    requires (forall i :: 0 <= i < |a| ==> Place(a[i]) < from) && forall i :: 0 <= i < |b| ==> from <= Place(b[i])
    ensures InSequence(a + b)
  {}

  lemma {:induction false} LogIsInSequence(rounds: seq<Round>, n: nat)
    requires n == |rounds|
    ensures InSequence(Log(rounds)) && forall i :: 0 <= i < |Log(rounds)| ==> Place(Log(rounds)[i]) < 3 * n + 3
  {
    if n > 0 {
      var before, last := Log(rounds[..n - 1]), EffectsOf(n, rounds[n - 1]);
      LogIsInSequence(rounds[..n - 1], n - 1);
      LaterInSequence(before, last, 3 * n);
      assert Log(rounds) == before + last;
    }
  }

  lemma {:induction false} PermitsAreExplained(rounds: seq<Round>, oracles: Oracles, tried: seq<Provider>, n: nat)
    requires RoundsFit(rounds, oracles) && |tried| == |rounds|
    ensures PermitsMatch(oracles, tried, Log(rounds), n)
  {
    LoggedIfOwned(rounds, Acquire(n));
    LoggedIfOwned(rounds, Retain(n));
    LoggedIfOwned(rounds, Release(n));
    if 1 <= n <= |rounds| { RoundOwns(rounds, oracles, n, rounds[n - 1].key); }
  }

  lemma {:induction false} SubmissionsAreExplained(rounds: seq<Round>, oracles: Oracles, tried: seq<Provider>, n: nat)
    requires RoundsFit(rounds, oracles) && |tried| == |rounds| && forall i :: 0 <= i < |rounds| ==> rounds[i].key == KeyOf(tried[i])
    ensures SubmissionsMatch(oracles, tried, Log(rounds), n)
  {
    forall key ensures Submit(n, key) in Log(rounds) <==> 1 <= n <= |tried| && Submits(oracles, n) && key == KeyOf(tried[n - 1]) {
      LoggedIfOwned(rounds, Submit(n, key));
      if 1 <= n <= |rounds| { RoundOwns(rounds, oracles, n, key); }
    }
  }

  /** An attempt that fails before its round is recorded leaves no effect. */
  lemma {:induction false} EffectsWithLast(oracles: Oracles, tried: seq<Provider>, last: Provider, log: seq<Effect>)
    requires EffectsMatch(oracles, tried, log) && !GetsPermit(oracles, |tried| + 1)
    ensures EffectsMatch(oracles, tried + [last], log)
  {
    forall n: nat ensures PermitsMatch(oracles, tried + [last], log, n) && SubmissionsMatch(oracles, tried + [last], log, n) {
      assert PermitsMatch(oracles, tried, log, n) && SubmissionsMatch(oracles, tried, log, n);
    }
  }

  lemma {:induction false} UnselectedMeansUnsupported(rounds: seq<Round>, oracles: Oracles)
    requires RoundsFit(rounds, oracles)
    ensures HasUnselected(rounds) <==> LackedAdapter(oracles, |rounds|)
  {
    forall i | 0 <= i < |rounds| ensures rounds[i].Unselected? <==> oracles.selection(i + 1) == Unsupported {
      PassedRulesOut(rounds, oracles, i);
    }
    if i :| 1 <= i <= |rounds| && oracles.selection(i) == Unsupported { assert rounds[i - 1].Unselected?; }
  }

  lemma AllPassedByLast(rounds: seq<Round>, oracles: Oracles)
    requires RoundsFit(rounds, oracles)
    ensures AllPassed(rounds) <==> rounds == [] || Passed(rounds[|rounds| - 1])
  {}

  lemma {:induction false} LastRoundRulesOut(rounds: seq<Round>, oracles: Oracles, tried: seq<Provider>)
    requires RoundsFit(rounds, oracles) && |tried| == |rounds|
    ensures AllPassed(rounds) <==> AllRuledOut(oracles, tried)
  {
    AllPassedByLast(rounds, oracles);
    if rounds != [] { PassedRulesOut(rounds, oracles, |rounds| - 1); }
  }

  /** The loop stopped at its last round. */
  lemma {:induction false} StoppedByRound(rounds: seq<Round>, oracles: Oracles, tried: seq<Provider>, finish: Finish)
    requires RoundsFit(rounds, oracles) && |tried| == |rounds| && EndsAs(finish, rounds, oracles) && !AllPassed(rounds)
    ensures FinishMatches(oracles, tried, finish) && ReasonMatches(oracles, tried, finish)
  {
    LastRoundRulesOut(rounds, oracles, tried);
    PassedRulesOut(rounds, oracles, |rounds| - 1);
  }

  /** The loop found nobody, or could not look anybody up. */
  lemma {:induction false} StoppedByLookup(rounds: seq<Round>, oracles: Oracles, tried: seq<Provider>, finish: Finish)
    requires RoundsFit(rounds, oracles) && TriedInRounds(rounds, tried) && EndsAs(finish, rounds, oracles)
    requires AllPassed(rounds)
    requires FirstLeft(oracles, |rounds| + 1, Keys(rounds)).None?
    ensures FinishMatches(oracles, tried, finish) && ReasonMatches(oracles, tried, finish)
  {
    LastRoundRulesOut(rounds, oracles, tried);
    UnselectedMeansUnsupported(rounds, oracles);
    if oracles.candidates(|rounds| + 1).Some? { NobodyLeftMeansNone(oracles, |rounds| + 1, tried, Keys(rounds)); }
  }

  /** The loop stopped at an attempt that left no round. */
  lemma {:induction false} StoppedByFailure(
    rounds: seq<Round>, oracles: Oracles, tried: seq<Provider>, finish: Finish, last: Provider)
    requires RoundsFit(rounds, oracles) && |tried| == |rounds| && EndsAs(finish, rounds, oracles) && AllPassed(rounds)
    requires FirstLeft(oracles, |rounds| + 1, Keys(rounds)) == Some(KeyOf(last))
    ensures FinishMatches(oracles, tried + [last], finish) && ReasonMatches(oracles, tried + [last], finish)
    ensures !GetsPermit(oracles, |tried| + 1) && AllRuledOut(oracles, tried)
  {
    LastRoundRulesOut(rounds, oracles, tried);
    assert RoundFor(oracles, |rounds| + 1, KeyOf(last)).None?;
  }

  /** Every end of the loop is explained by the answers it got. */
  lemma {:induction false} DispatchIsExplained(oracles: Oracles, rounds: seq<Round>, finish: Finish, log: seq<Effect>)
    returns (tried: seq<Provider>)
    requires Dispatches(oracles, rounds, finish, log)
    ensures Explains(oracles, tried, finish, log)
  {
    tried := RoundsAreAttempts(rounds, oracles);
    LogIsExplained(rounds, oracles, tried);
    LogIsInSequence(rounds, |rounds|);
    if !AllPassed(rounds) {
      StoppedByRound(rounds, oracles, tried, finish);
    } else if FirstLeft(oracles, |rounds| + 1, Keys(rounds)).None? {
      StoppedByLookup(rounds, oracles, tried, finish);
    } else {
      var last := FirstLeftIsOffered(oracles, |rounds| + 1, tried, Keys(rounds));
      StoppedByFailure(rounds, oracles, tried, finish, last);
      EffectsWithLast(oracles, tried, last, log);
      AttemptsGrow(oracles, tried, last);
      tried := tried + [last];
    }
  }

  lemma {:induction false} FirstOfferedIsUnique(oracles: Oracles, n: nat, tried: seq<Provider>, p: Provider, q: Provider)
    requires FirstOffered(oracles, n, tried, p) && FirstOffered(oracles, n, tried, q)
    ensures p == q && !NobodyLeft(oracles, n, tried)
  {
    var offered := oracles.candidates(n).value;
    var k: nat :| FirstAt(offered, tried, p, k);
    var l: nat :| FirstAt(offered, tried, q, l);
    assert offered[k] in offered;
  }

  lemma {:induction false} AttemptsAgree(oracles: Oracles, a: seq<Provider>, b: seq<Provider>, n: nat)
    requires Attempts(oracles, a) && Attempts(oracles, b) && n <= |a| && n <= |b|
    ensures a[..n] == b[..n]
  {
    if n > 0 {
      var m := n - 1;
      AttemptsAgree(oracles, a, b, m);
      AttemptAt(oracles, a, m, a[..m]);
      AttemptAt(oracles, b, m, a[..m]);
      FirstOfferedIsUnique(oracles, m + 1, a[..m], a[m], b[m]);
      OneMoreAgrees(a, b, m);
    }
  }

  lemma OneMoreAgrees<T>(a: seq<T>, b: seq<T>, m: nat)
    requires m < |a| && m < |b| && a[..m] == b[..m] && a[m] == b[m]
    ensures a[..m + 1] == b[..m + 1]
  {
    assert a[..m + 1] == a[..m] + [a[m]] && b[..m + 1] == b[..m] + [b[m]];
  }

  lemma AttemptAt(oracles: Oracles, tried: seq<Provider>, i: nat, before: seq<Provider>)
    requires Attempts(oracles, tried) && i < |tried| && before == tried[..i]
    ensures FirstOffered(oracles, i + 1, before, tried[i])
  {
  }

  lemma {:induction false} LongerGoesOn(oracles: Oracles, a: seq<Provider>, b: seq<Provider>)
    requires Attempts(oracles, a) && Attempts(oracles, b) && |a| < |b|
    ensures AllRuledOut(oracles, a) && FirstOffered(oracles, |a| + 1, a, b[|a|])
  {
    AttemptsAgree(oracles, a, b, |a|);
    assert a[..|a|] == a == b[..|a|];
    if a != [] { RuledOutBefore(oracles, b, |a|); }
  }

  lemma {:induction false} GoingOnIsNoEnd(oracles: Oracles, tried: seq<Provider>, p: Provider, finish: Finish)
    requires AllRuledOut(oracles, tried) && FirstOffered(oracles, |tried| + 1, tried, p)
    ensures !FinishMatches(oracles, tried, finish)
  {
    FirstOfferedIsUnique(oracles, |tried| + 1, tried, p, p);
  }

  lemma {:induction false} NoLongerAttempts(oracles: Oracles, a: seq<Provider>, b: seq<Provider>, finish: Finish)
    requires Attempts(oracles, a) && Attempts(oracles, b) && FinishMatches(oracles, a, finish)
    ensures |b| <= |a|
  {
    if |a| < |b| {
      LongerGoesOn(oracles, a, b);
      GoingOnIsNoEnd(oracles, a, b[|a|], finish);
    }
  }

  lemma RuledOutBefore(oracles: Oracles, tried: seq<Provider>, n: nat)
    requires Attempts(oracles, tried) && 1 <= n < |tried|
    ensures RulesOut(oracles, n)
  {
    var last := tried[n - 1];
  }

  lemma {:induction false} SameEffects(
    oracles: Oracles, tried: seq<Provider>, log: seq<Effect>, other: seq<Effect>, e: Effect)
    requires EffectsMatch(oracles, tried, log) && EffectsMatch(oracles, tried, other)
    ensures e in log <==> e in other
  {
    var n := e.attempt;
    assert PermitsMatch(oracles, tried, log, n) && SubmissionsMatch(oracles, tried, log, n);
    assert PermitsMatch(oracles, tried, other, n) && SubmissionsMatch(oracles, tried, other, n);
  }

  lemma {:induction false} AllButLast(log: seq<Effect>, n: nat, e: Effect)
    requires InSequence(log) && |log| == n + 1
    ensures e in log[..n] <==> e in log && e != log[n]
    ensures e in log ==> Place(e) <= Place(log[n])
    ensures InSequence(log[..n])
  {}

  lemma EmptyTogether(a: seq<Effect>, b: seq<Effect>)
    requires forall e :: e in a <==> e in b
    ensures a == [] <==> b == []
  {
    if a != [] { assert a[0] in b; }
    if b != [] { assert b[0] in a; }
  }

  lemma {:induction false} SameSequence(a: seq<Effect>, b: seq<Effect>)
    requires InSequence(a) && InSequence(b) && forall e :: e in a <==> e in b
    ensures a == b
  {
    EmptyTogether(a, b);
    if a != [] {
      var n, m := |a| - 1, |b| - 1;
      SameLast(a, b, n, m);
      forall e ensures e in a[..n] <==> e in b[..m] {
        AllButLast(a, n, e);
        AllButLast(b, m, e);
      }
      AllButLast(a, n, a[n]);
      AllButLast(b, m, b[m]);
      SameSequence(a[..n], b[..m]);
      assert a == a[..n] + [a[n]] && b == b[..m] + [b[m]];
    }
  }

  lemma {:induction false} SameLast(a: seq<Effect>, b: seq<Effect>, n: nat, m: nat)
    requires InSequence(a) && InSequence(b) && |a| == n + 1 && |b| == m + 1 && forall e :: e in a <==> e in b
    ensures a[n] == b[m]
  {
    assert a[n] in b && b[m] in a;
    AllButLast(a, n, b[m]);
    AllButLast(b, m, a[n]);
    var j: nat :| j <= m && b[j] == a[n];
  }

  /** And the answers leave no choice: there is one explanation, one end and one log. */
  lemma {:induction false} DispatchIsDetermined(
    oracles: Oracles, a: seq<Provider>, b: seq<Provider>, one: Finish, other: Finish, log: seq<Effect>, log': seq<Effect>)
    requires Explains(oracles, a, one, log) && Explains(oracles, b, other, log')
    ensures a == b && one == other && log == log'
  {
    NoLongerAttempts(oracles, a, b, one);
    NoLongerAttempts(oracles, b, a, other);
    AttemptsAgree(oracles, a, b, |a|);
    assert a[..|a|] == a && b[..|b|] == b;
    forall e ensures e in log <==> e in log' { SameEffects(oracles, a, log, log', e); }
    SameSequence(log, log');
  }

  /** Dispatches one job. The answers it gets, for no more attempts than there are known providers, explain its effects and
      its end. */
  method Dispatch(oracles: Oracles, ghost universe: set<ProviderKey>) returns (finish: Finish, log: seq<Effect>)
    requires Known(oracles, universe)
    ensures exists rounds :: Dispatches(oracles, rounds, finish, log) && |rounds| <= |universe|
    ensures exists tried :: Explains(oracles, tried, finish, log)
  {
    ghost var rounds;
    finish, log, rounds := RunRounds(oracles, universe);
    ghost var tried := DispatchIsExplained(oracles, rounds, finish, log);
  }

  lemma RoundHasKey(oracles: Oracles, n: nat, key: ProviderKey, round: Round)
    requires RoundFor(oracles, n, key) == Some(round)
    ensures round.key == key
  {}

  lemma {:induction false} SmallerSet<T>(a: set<T>, b: set<T>)
    requires a <= b
    ensures |a| <= |b|
  {
    if a != {} {
      var x :| x in a;
      SmallerSet(a - {x}, b - {x});
    }
  }

  /** The store step that a dispatch ends with; None when the job is left as it is. Acceptance re-reads the job, and leaves
      a cancellation that came meanwhile alone; the other two present the claim they started from. */
  function FinishStep(finish: Finish, claimed: AIJob, current: AIJob, retryAt: Time): Option<Step> {
    match finish
    case GaveUp => None
    case Requeue(reason) => Some(Requeuing(claimed.statusVersion, claimed.fenceToken, reason, retryAt))
    case TaskAccepted =>
      if current.status == Status.Canceling then None
      else Some(Transitioning(current.statusVersion, current.fenceToken, Running, ""))
    case TaskUnknown =>
      Some(Transitioning(claimed.statusVersion, claimed.fenceToken, Status.Unknown, "provider_status_unknown"))
  }

  /** A worker whose claim still stands can always take that step, and it takes the job out of dispatching: back to the
      queue until the retry time with the reason recorded, on to running, or to unknown. */
  lemma {:induction false} FinishIsAllowed(finish: Finish, job: AIJob, retryAt: Time, at: Time)
    requires Fit(job) && job.status == Dispatching && finish != GaveUp
    ensures var step := FinishStep(finish, job, job, retryAt);
            && step.Some? && Proper(job, step.value, at) && Decide(job, step.value, at).Record?
            && var (to, event) := (Decide(job, step.value, at).job, Decide(job, step.value, at).event);
            match finish
            case Requeue(reason) =>
              to.status == Queued && to.nextEligibleAt == (if retryAt > at then retryAt else at) && event.reason == Trim(reason)
            case TaskAccepted => to.status == Running && to.errorType == ""
            case TaskUnknown => to.status == Status.Unknown && to.errorType == Trim("provider_status_unknown")
            case GaveUp => false
  {}

  /** A job that is given up is left alone, and so is one whose cancellation came before the acceptance. */
  lemma FinishMayLeaveAlone(finish: Finish, claimed: AIJob, current: AIJob, retryAt: Time)
    ensures FinishStep(finish, claimed, current, retryAt).None?
            <==> finish == GaveUp || (finish == TaskAccepted && current.status == Status.Canceling)
  {}

  /** Acceptance presents the job as it is by then, so it takes effect under whatever claim there is, and only the table
      can refuse it. */
  lemma {:induction false} AcceptanceFollowsTheCurrentJob(claimed: AIJob, current: AIJob, retryAt: Time, at: Time)
    requires Fit(current) && current.status != Status.Canceling
    ensures Decide(current, FinishStep(TaskAccepted, claimed, current, retryAt).value, at).Record?
            <==> current.status in {Dispatching, Status.Unknown}
  {}

  /** When the claim was superseded, giving the job back or marking it unknown does nothing. */
  lemma {:induction false} SupersededFinishDoesNothing(
    finish: Finish, claimed: AIJob, current: AIJob, retryAt: Time, at: Time)
    requires finish.Requeue? || finish.TaskUnknown?
    requires current.statusVersion != claimed.statusVersion
    ensures Decide(current, FinishStep(finish, claimed, current, retryAt).value, at) == Leave
  {}
}
