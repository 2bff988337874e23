/** Runs of the store from the empty store, and the theorems about them. */
module StoreRuns {
  import opened Text
  import opened JobModel
  import opened JobStore
  import opened JobHistory
  import opened JobRuns
  import opened Admission

  datatype Move =
    | Creating(id: string, operationID: string, scope: Scope, submission: Submission)
    | Acting(id: string, step: Step)

  datatype Turn = Turn(move: Move, at: Time)

  ghost function Answer(store: Store, turn: Turn, limits: Limits): Reply {
    match turn.move
    case Creating(id, operationID, scope, submission) =>
      Create(store, NewJob(id, operationID, scope, submission, turn.at), limits)
    case Acting(id, step) => Act(store, id, step, turn.at)
  }

  ghost function Play(turns: seq<Turn>, limits: Limits): Store {
    if turns == [] then Store(map[], map[], map[], map[])
    else Answer(Play(turns[..|turns| - 1], limits), turns[|turns| - 1], limits).store
  }

  ghost predicate ProperTurn(store: Store, turn: Turn) {
    turn.at > 0 && (turn.move.Acting? ==> ProperAt(store, turn.move.id, turn.move.step, turn.at))
  }

  /** The clock never goes back, and every turn is one that the service's callers can take. */
  ghost predicate Orderly(turns: seq<Turn>, limits: Limits) {
    && (forall i, j :: 0 <= i < j < |turns| ==> turns[i].at <= turns[j].at)
    && (forall i :: 0 <= i < |turns| ==> ProperTurn(Play(turns[..i], limits), turns[i]))
  }

  lemma {:induction false} OrderlyPrefix(turns: seq<Turn>, limits: Limits, n: nat)
    requires Orderly(turns, limits) && n <= |turns|
    ensures Orderly(turns[..n], limits)
  {
    forall i | 0 <= i < n ensures ProperTurn(Play(turns[..n][..i], limits), turns[..n][i]) {
      assert turns[..n][..i] == turns[..i];
      assert ProperTurn(Play(turns[..i], limits), turns[i]);
    }
  }

  // One turn.

  function JobOf(turn: Turn): AIJob
    requires turn.move.Creating?
  {
    NewJob(turn.move.id, turn.move.operationID, turn.move.scope, turn.move.submission, turn.at)
  }

  lemma StoreEvolvedSelf(store: Store, at: Time)
    ensures StoreEvolved(store, store, at)
  {}

  lemma {:induction false} InsertKeepsJobs(store: Store, job: AIJob, at: Time)
    requires CreatedBy(store, at) && job.createdAt <= at
    ensures CreatedBy(Insert(store, job).store, at) && StoreEvolved(store, Insert(store, job).store, at)
  {}

  lemma {:induction false} InsertKeepsValid(store: Store, turn: Turn)
    requires Valid(store) && turn.at > 0 && turn.move.Creating?
    ensures Valid(Insert(store, JobOf(turn)).store)
  {
    StartsFit(turn);
    if Insert(store, JobOf(turn)).outcome.Changed? { InsertKeepsConsistent(store, JobOf(turn), Legal, Fit); }
  }

  lemma CreateInsertsOrLeaves(store: Store, job: AIJob, limits: Limits)
    ensures Create(store, job, limits).store in {store, Insert(store, job).store}
  {}

  lemma {:induction false} CreateKeeps(store: Store, turn: Turn, limits: Limits)
    requires Valid(store) && CreatedBy(store, turn.at) && turn.at > 0 && turn.move.Creating?
    ensures Valid(Answer(store, turn, limits).store) && CreatedBy(Answer(store, turn, limits).store, turn.at)
    ensures StoreEvolved(store, Answer(store, turn, limits).store, turn.at)
  {
    CreateInsertsOrLeaves(store, JobOf(turn), limits);
    if Answer(store, turn, limits).store == store {
      StoreEvolvedSelf(store, turn.at);
    } else {
      InsertKeepsJobs(store, JobOf(turn), turn.at);
      InsertKeepsValid(store, turn);
    }
  }

  lemma StartsFit(turn: Turn)
    requires turn.move.Creating? && turn.at > 0
    ensures Fit(JobOf(turn)) && Legal(NewEvent(Accepted, JobOf(turn), EventQueued, "", turn.at))
  {}

  lemma {:induction false} ActKeepsCreation(store: Store, id: string, step: Step, at: Time)
    requires Valid(store) && CreatedBy(store, at) && ProperAt(store, id, step, at)
    ensures CreatedBy(Act(store, id, step, at).store, at)
  {
    if id in store.jobs {
      ActIsAllowed(store, id, step, at);
      CarryOutTouchesOneJob(store, store.jobs[id], Decide(store.jobs[id], step, at), at);
    }
  }

  lemma {:induction false} TurnKeeps(store: Store, turn: Turn, limits: Limits)
    requires Valid(store) && CreatedBy(store, turn.at) && ProperTurn(store, turn)
    ensures Valid(Answer(store, turn, limits).store) && CreatedBy(Answer(store, turn, limits).store, turn.at)
    ensures StoreEvolved(store, Answer(store, turn, limits).store, turn.at)
  {
    if turn.move.Acting? {
      ActKeepsValid(store, turn.move.id, turn.move.step, turn.at);
      ActEvolves(store, turn.move.id, turn.move.step, turn.at);
      ActKeepsCreation(store, turn.move.id, turn.move.step, turn.at);
    } else {
      CreateKeeps(store, turn, limits);
    }
  }

  lemma CreatedByLater(store: Store, s: Time, t: Time)
    requires CreatedBy(store, s) && s <= t
    ensures CreatedBy(store, t)
  {}

  /** In every reachable store the event log is the history of each job, the operation is where that history leads,
      exactly the dispatching jobs carry a lease, and eligibility never precedes creation. */
  lemma {:induction false} EveryRunIsValid(turns: seq<Turn>, limits: Limits, now: Time)
    requires Orderly(turns, limits) && (turns != [] ==> turns[|turns| - 1].at <= now)
    ensures Valid(Play(turns, limits)) && CreatedBy(Play(turns, limits), now)
  {
    if turns == [] {
      EmptyIsValid();
    } else {
      var n := |turns| - 1;
      OrderlyPrefix(turns, limits, n);
      EveryRunIsValid(turns[..n], limits, turns[n].at);
      assert turns[..|turns|] == turns && ProperTurn(Play(turns[..n], limits), turns[n]);
      TurnKeeps(Play(turns[..n], limits), turns[n], limits);
      CreatedByLater(Play(turns, limits), turns[n].at, now);
    }
  }

  lemma EmptyIsValid()
    ensures Valid(Store(map[], map[], map[], map[]))
  {}

  lemma {:induction false} OneTurnEvolves(turns: seq<Turn>, limits: Limits, n: nat)
    requires n < |turns| && Orderly(turns, limits)
    ensures StoreEvolved(Play(turns[..n], limits), Play(turns[..n + 1], limits), turns[n].at)
  {
    OrderlyPrefix(turns, limits, n);
    EveryRunIsValid(turns[..n], limits, turns[n].at);
    assert ProperTurn(Play(turns[..n], limits), turns[n]);
    TurnKeeps(Play(turns[..n], limits), turns[n], limits);
    assert turns[..n + 1][..n] == turns[..n];
  }

  lemma WholeRun(turns: seq<Turn>, limits: Limits, now: Time)
    ensures StoreEvolved(Play(turns[..|turns|], limits), Play(turns, limits), now)
  {
    assert turns[..|turns|] == turns;
    StoreEvolvedSelf(Play(turns, limits), now);
  }

  /** Whatever happens after a moment, every job of that moment evolves. */
  lemma {:induction false} RunsEvolve(turns: seq<Turn>, limits: Limits, n: nat, now: Time)
    requires Orderly(turns, limits) && n <= |turns| && (n < |turns| ==> now <= turns[n].at)
    ensures StoreEvolved(Play(turns[..n], limits), Play(turns, limits), now)
    decreases |turns| - n
  {
    if n == |turns| {
      WholeRun(turns, limits, now);
    } else {
      RunsEvolve(turns, limits, n + 1, turns[n].at);
      OneTurnEvolves(turns, limits, n);
      EarlierEvolved(Play(turns[..n], limits), Play(turns[..n + 1], limits), Play(turns, limits), now, turns[n].at);
    }
  }

  lemma EarlierEvolved(store: Store, middle: Store, next: Store, now: Time, at: Time)
    requires StoreEvolved(store, middle, at) && StoreEvolved(middle, next, at) && now <= at
    ensures StoreEvolved(store, next, now)
  {}
}
