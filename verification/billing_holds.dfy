/** Billing holds: reservations against a monthly budget, their life cycle, and the usage ledger that closes them. */
module BillingHolds {
  import opened Text
  import opened JobModel
  import opened Sums

  const MAX_INT64 := 0x7FFF_FFFF_FFFF_FFFF

  /** Two's complement wrap-around of 64-bit sums. */
  function Wrap64(x: int): int {
    (x + 0x8000_0000_0000_0000) % 0x1_0000_0000_0000_0000 - 0x8000_0000_0000_0000
  }

  function Max(a: int, b: int): int { if a < b then b else a }

  datatype HoldStatus = Reserved | Committed | Settled | Released | Disputed

  datatype Credential = Credential(profileScope: string, tenantID: string, credentialID: string)

  datatype Hold = Hold(
    id: string, operationID: string, credential: Credential, status: HoldStatus, version: int,
    reserved: int, settled: int, periodStart: Time, reason: string, updatedAt: Time,
    settledAt: Option<Time>, releasedAt: Option<Time>)

  /** One usage ledger entry; `counts` says that its purpose is usage cost and its status applied. */
  datatype Entry = Entry(operationID: string, amount: int, counts: bool, createdAt: Time)

  datatype Admission = Admission(hold: Hold, end: Time, budget: int)

  /** The holds by id, the ledger entries by id, and the credential of every operation. */
  datatype Ledger = Ledger(holds: map<string, Hold>, entries: map<string, Entry>, operations: map<string, Credential>)

  /** The budget of one credential in one calendar month. */
  datatype Account = Account(credential: Credential, start: Time, end: Time, budget: int)

  predicate Closed(status: HoldStatus) {
    status == Settled || status == Released
  }

  predicate CountsAgainstBudget(status: HoldStatus) {
    status in {Reserved, Committed, Disputed}
  }

  predicate HoldTransitionAllowed(from: HoldStatus, to: HoldStatus) {
    match from
    case Reserved => to in {Committed, Settled, Released, Disputed}
    case Committed => to in {Settled, Disputed}
    case Disputed => to in {Settled, Released}
    case Settled => false
    case Released => false
  }

  /** The moved hold; the same hold when it is there already; None when the move is refused. */
  function PrepareHold(hold: Hold, to: HoldStatus, amount: int, reason: string, at: Time): Option<Hold> {
    if hold.status == to then Some(hold)
    else if !HoldTransitionAllowed(hold.status, to) || amount < 0 then None
    else
      var moved := hold.(status := to, version := hold.version + 1, reason := Trim(reason), updatedAt := at);
      if to == Settled then Some(moved.(settled := amount, settledAt := Some(at)))
      else if to == Released then Some(moved.(releasedAt := Some(at)))
      else Some(moved)
  }

  ghost predicate IsHoldOf(ledger: Ledger, operationID: string, id: string) {
    id in ledger.holds && ledger.holds[id].operationID == operationID
  }

  ghost predicate HasHold(ledger: Ledger, operationID: string) {
    exists id :: IsHoldOf(ledger, operationID, id)
  }

  ghost function HoldOf(ledger: Ledger, operationID: string): (hold: Hold)
    requires HasHold(ledger, operationID)
  {
    var id :| IsHoldOf(ledger, operationID, id);
    ledger.holds[id]
  }

  ghost predicate HoldFits(ledger: Ledger, id: string, hold: Hold) {
    && hold.id == id && hold.reserved >= 0
    && hold.operationID in ledger.operations && ledger.operations[hold.operationID] == hold.credential
  }

  /** What every admission and settlement keeps. */
  ghost predicate WellFormed(ledger: Ledger) {
    && (forall id :: id in ledger.holds ==> HoldFits(ledger, id, ledger.holds[id]))
    && (forall op, a, b :: IsHoldOf(ledger, op, a) && IsHoldOf(ledger, op, b) ==> a == b)
    && (forall id :: id in ledger.entries ==>
          ledger.entries[id].amount >= 0 && ledger.entries[id].operationID in ledger.operations)
  }

  lemma HoldIsUnique(ledger: Ledger, id: string)
    requires WellFormed(ledger) && id in ledger.holds
    ensures HasHold(ledger, ledger.holds[id].operationID)
    ensures HoldOf(ledger, ledger.holds[id].operationID) == ledger.holds[id]
  {
    assert IsHoldOf(ledger, ledger.holds[id].operationID, id);
  }

  // The exposure of an account.

  /** What an entry adds to the exposure. */
  function EntryShare(ledger: Ledger, account: Account, id: string): int {
    if id !in ledger.entries then 0
    else
      var entry := ledger.entries[id];
      if entry.counts && account.start <= entry.createdAt < account.end && entry.amount > 0
         && entry.operationID in ledger.operations && ledger.operations[entry.operationID] == account.credential
      then entry.amount else 0
  }

  predicate InAccount(hold: Hold, account: Account) {
    hold.credential == account.credential && hold.periodStart == account.start
  }

  /** What a hold adds to the exposure. */
  function LiveShare(ledger: Ledger, account: Account, id: string): int {
    if id in ledger.holds && InAccount(ledger.holds[id], account) && CountsAgainstBudget(ledger.holds[id].status)
    then Max(ledger.holds[id].reserved, 0) else 0
  }

  function EntryShares(ledger: Ledger, account: Account): string -> int { id => EntryShare(ledger, account, id) }

  function LiveShares(ledger: Ledger, account: Account): string -> int { id => LiveShare(ledger, account, id) }

  ghost function Exposure(ledger: Ledger, account: Account): int {
    Sum(ledger.entries.Keys, EntryShares(ledger, account)) + Sum(ledger.holds.Keys, LiveShares(ledger, account))
  }

  ghost predicate OverBudget(ledger: Ledger, account: Account, reserved: int) {
    account.budget > 0 && Wrap64(Exposure(ledger, account) + reserved) > account.budget
  }

  lemma WrapOnce(a: int, b: int)
    ensures Wrap64(Wrap64(a) + b) == Wrap64(a + b)
  {}

  lemma WrapsAway(a: int, b: int, charged: int, exposure: int, reserved: int)
    requires charged == Wrap64(a) && exposure == Wrap64(charged + b)
    ensures Wrap64(exposure + reserved) == Wrap64(a + b + reserved)
  {
    WrapOnce(a, b);
    WrapOnce(a + b, reserved);
  }

  lemma Wraps64()
    ensures Wraps(Wrap64)
  {}

  /** The sum stays in 64 bits, or it wraps all the way round to a value above the budget. */
  predicate Comparable(total: int, budget: int) {
    total <= MAX_INT64 || total > 0x1_0000_0000_0000_0000 + budget
  }

  lemma WrappedComparison(total: int, budget: int)
    requires 0 < budget <= MAX_INT64 && 0 <= total <= 3 * MAX_INT64
    ensures (Wrap64(total) > budget <==> total > budget) <==> Comparable(total, budget)
    ensures Wrap64(total) > budget ==> total > budget
  {}

  // The operations.

  /** Amounts are 64-bit. */
  predicate ValidAdmission(a: Admission) {
    && Trim(a.hold.id) != "" && a.hold.status == Reserved && a.hold.version == 1 && a.hold.settled == 0
    && 0 <= a.hold.reserved <= MAX_INT64 && a.hold.periodStart != 0 && 0 <= a.budget <= MAX_INT64
  }

  function AccountOf(a: Admission): Account {
    Account(a.hold.credential, a.hold.periodStart, a.end, a.budget)
  }

  ghost predicate Admits(ledger: Ledger, a: Admission) {
    && ValidAdmission(a) && a.hold.operationID !in ledger.operations && a.hold.id !in ledger.holds
    && !HasHold(ledger, a.hold.operationID) && !OverBudget(ledger, AccountOf(a), a.hold.reserved)
  }

  function WithHold(ledger: Ledger, hold: Hold): Ledger {
    ledger.(holds := ledger.holds[hold.id := hold])
  }

  ghost function Admitted(ledger: Ledger, a: Admission): Ledger {
    if Admits(ledger, a) then
      WithHold(ledger, a.hold).(operations := ledger.operations[a.hold.operationID := a.hold.credential])
    else ledger
  }

  /** Moves the hold of an operation when the caller has its version and the table allows the move. */
  ghost function Moved(
    ledger: Ledger, operationID: string, expectedVersion: int, to: HoldStatus, amount: int, reason: string, at: Time): Ledger
  {
    if !HasHold(ledger, operationID) || HoldOf(ledger, operationID).version != expectedVersion then ledger
    else match PrepareHold(HoldOf(ledger, operationID), to, amount, reason, at)
      case None => ledger
      case Some(hold) => WithHold(ledger, hold)
  }

  /** The operation has no hold, or one that is there already, closed, or not to be moved that way. */
  ghost predicate NothingToMove(ledger: Ledger, operationID: string, to: HoldStatus) {
    HasHold(ledger, operationID) ==>
      var status := HoldOf(ledger, operationID).status; status == to || Closed(status) || (status == Disputed && to == Committed)
  }

  /** Commit, dispute and release as the service asks for them. */
  ghost function ServiceMoved(ledger: Ledger, operationID: string, to: HoldStatus, reason: string, at: Time): Ledger {
    if NothingToMove(ledger, operationID, to) then ledger
    else Moved(ledger, operationID, HoldOf(ledger, operationID).version, to, 0, Trim(reason), at)
  }

  /** Cancelling a job that was never dispatched. A committed hold is left for settlement. */
  ghost function ReleasedFor(ledger: Ledger, operationID: string, reason: string, at: Time): Ledger {
    if !HasHold(ledger, operationID) || HoldOf(ledger, operationID).status in {Settled, Released, Committed} then ledger
    else Moved(ledger, operationID, HoldOf(ledger, operationID).version, Released, 0, reason, at)
  }

  function Applied(ledger: Ledger, operationID: string): string -> int {
    id => if id in ledger.entries && ledger.entries[id].operationID == operationID && ledger.entries[id].counts
          then ledger.entries[id].amount else 0
  }

  ghost function Cumulative(ledger: Ledger, operationID: string, amount: int): int {
    amount + Sum(ledger.entries.Keys, Applied(ledger, operationID))
  }

  /** A usage settlement: at most one usage-cost entry, and what the pricing said. */
  datatype Usage = Usage(
    operationID: string, entryID: string, entry: Option<Entry>, final: bool, disputed: bool, unpriced: bool, at: Time)

  ghost predicate Applies(ledger: Ledger, u: Usage) {
    && u.operationID in ledger.operations
    && (u.entry.Some? ==>
          && u.entryID !in ledger.entries && u.entry.value.operationID == u.operationID
          && 0 <= u.entry.value.amount <= MAX_INT64
          && u.entry.value.counts
          && (u.final && HasHold(ledger, u.operationID) && !Closed(HoldOf(ledger, u.operationID).status) ==>
                Cumulative(ledger, u.operationID, u.entry.value.amount) <= MAX_INT64))
  }

  ghost function Closing(ledger: Ledger, operationID: string, to: HoldStatus, amount: int, reason: string, at: Time): Ledger {
    if HasHold(ledger, operationID) && !Closed(HoldOf(ledger, operationID).status) then
      Moved(ledger, operationID, HoldOf(ledger, operationID).version, to, amount, reason, at)
    else ledger
  }

  ghost function UsageHolds(ledger: Ledger, u: Usage): Ledger {
    var settled :=
      if u.final && u.entry.Some? then
        Closing(ledger, u.operationID, Settled, Cumulative(ledger, u.operationID, u.entry.value.amount),
                "usage_ledger_applied", u.at)
      else ledger;
    var disputed :=
      if u.final && u.disputed then Closing(settled, u.operationID, Disputed, 0, "pricing_evaluation_failed", u.at)
      else settled;
    if u.final && u.unpriced then Closing(disputed, u.operationID, Settled, 0, "usage_unpriced", u.at) else disputed
  }

  ghost function UsageApplied(ledger: Ledger, u: Usage): Ledger {
    if !Applies(ledger, u) then ledger
    else
      var moved := UsageHolds(ledger, u);
      if u.entry.Some? then moved.(entries := moved.entries[u.entryID := u.entry.value]) else moved
  }

  // Every operation advances holds, admits one, or adds an entry.

  /** A closed hold stays as it is; a live one keeps what it reserves and for whom. */
  predicate Advances(from: Hold, to: Hold) {
    && to.id == from.id && to.operationID == from.operationID && to.credential == from.credential
    && to.reserved == from.reserved && to.periodStart == from.periodStart
    && (Closed(from.status) ==> to == from)
  }

  ghost predicate HoldsAdvance(from: Ledger, to: Ledger) {
    && to.entries == from.entries && to.operations == from.operations && to.holds.Keys == from.holds.Keys
    && forall id :: id in from.holds ==> Advances(from.holds[id], to.holds[id])
  }

  lemma PreparedAdvances(hold: Hold, to: HoldStatus, amount: int, reason: string, at: Time)
    ensures var moved := PrepareHold(hold, to, amount, reason, at); moved.Some? ==> Advances(hold, moved.value)
  {}

  lemma {:induction false} MovedAdvances(
    ledger: Ledger, operationID: string, expectedVersion: int, to: HoldStatus, amount: int, reason: string, at: Time)
    requires WellFormed(ledger)
    ensures HoldsAdvance(ledger, Moved(ledger, operationID, expectedVersion, to, amount, reason, at))
  {
    if HasHold(ledger, operationID) {
      var id :| IsHoldOf(ledger, operationID, id);
      HoldIsUnique(ledger, id);
      assert HoldFits(ledger, id, ledger.holds[id]);
      PreparedAdvances(ledger.holds[id], to, amount, reason, at);
    }
  }

  lemma {:induction false} AdvanceKeepsForm(from: Ledger, to: Ledger)
    requires WellFormed(from) && HoldsAdvance(from, to)
    ensures WellFormed(to)
  {
    forall id | id in to.holds ensures HoldFits(to, id, to.holds[id]) {
      assert HoldFits(from, id, from.holds[id]);
    }
    forall op, a, b | IsHoldOf(to, op, a) && IsHoldOf(to, op, b) ensures a == b {
      assert IsHoldOf(from, op, a) && IsHoldOf(from, op, b);
    }
  }

  lemma {:induction false} ClosingAdvances(
    ledger: Ledger, operationID: string, to: HoldStatus, amount: int, reason: string, at: Time)
    requires WellFormed(ledger)
    ensures HoldsAdvance(ledger, Closing(ledger, operationID, to, amount, reason, at))
    ensures WellFormed(Closing(ledger, operationID, to, amount, reason, at))
  {
    if HasHold(ledger, operationID) {
      MovedAdvances(ledger, operationID, HoldOf(ledger, operationID).version, to, amount, reason, at);
    }
    AdvanceKeepsForm(ledger, Closing(ledger, operationID, to, amount, reason, at));
  }

  lemma {:induction false} UsageHoldsAdvance(ledger: Ledger, u: Usage)
    requires WellFormed(ledger)
    ensures HoldsAdvance(ledger, UsageHolds(ledger, u))
  {
    var settled :=
      if u.final && u.entry.Some? then
        Closing(ledger, u.operationID, Settled, Cumulative(ledger, u.operationID, u.entry.value.amount),
                "usage_ledger_applied", u.at)
      else ledger;
    if u.final && u.entry.Some? {
      ClosingAdvances(ledger, u.operationID, Settled, Cumulative(ledger, u.operationID, u.entry.value.amount),
                      "usage_ledger_applied", u.at);
    }
    ClosingAdvances(settled, u.operationID, Disputed, 0, "pricing_evaluation_failed", u.at);
    var disputed :=
      if u.final && u.disputed then Closing(settled, u.operationID, Disputed, 0, "pricing_evaluation_failed", u.at)
      else settled;
    ClosingAdvances(disputed, u.operationID, Settled, 0, "usage_unpriced", u.at);
  }

  // The budget.

  /** What is charged to the account for one operation. */
  ghost function Charged(ledger: Ledger, account: Account, id: string): int {
    GroupSums(ledger.entries.Keys, EntryShares(ledger, account), ForHold(ledger, account))(id)
  }

  function ForHold(ledger: Ledger, account: Account): (string, string) -> bool {
    (entryID, id) =>
      entryID in ledger.entries && id in ledger.holds && InAccount(ledger.holds[id], account)
      && ledger.entries[entryID].operationID == ledger.holds[id].operationID
  }

  /** A hold weighs its reservation while it is live, and the charges of its operation once it is closed. */
  ghost function Weight(ledger: Ledger, account: Account, id: string): int {
    if id in ledger.holds && InAccount(ledger.holds[id], account) then
      if CountsAgainstBudget(ledger.holds[id].status) then ledger.holds[id].reserved else Charged(ledger, account, id)
    else 0
  }

  ghost function Weights(ledger: Ledger, account: Account): string -> int { id => Weight(ledger, account, id) }

  ghost function Committing(ledger: Ledger, account: Account): int {
    Sum(ledger.holds.Keys, Weights(ledger, account))
  }

  ghost predicate HoldFor(ledger: Ledger, account: Account, operationID: string, id: string) {
    id in ledger.holds && InAccount(ledger.holds[id], account) && ledger.holds[id].operationID == operationID
  }

  ghost predicate HasHoldFor(ledger: Ledger, account: Account, operationID: string) {
    exists id :: HoldFor(ledger, account, operationID, id)
  }

  ghost predicate WithinReservation(ledger: Ledger, account: Account, id: string)
    requires id in ledger.holds
  {
    InAccount(ledger.holds[id], account) ==> 0 <= Charged(ledger, account, id) <= ledger.holds[id].reserved
  }

  /** Charges have a hold in the account and stay within its reservation, and the account within its budget. */
  ghost predicate WithinBudget(ledger: Ledger, account: Account) {
    && WellFormed(ledger)
    && (forall e :: e in ledger.entries && EntryShare(ledger, account, e) != 0 ==>
          HasHoldFor(ledger, account, ledger.entries[e].operationID))
    && (forall id :: id in ledger.holds ==> WithinReservation(ledger, account, id))
    && Committing(ledger, account) <= account.budget
  }

  lemma EntryHasOneHold(ledger: Ledger, account: Account, e: string, id: string)
    requires WellFormed(ledger) && e in ledger.entries && HoldFor(ledger, account, ledger.entries[e].operationID, id)
    ensures OneGroup(e, ledger.holds.Keys, ForHold(ledger, account))
  {
    var operationID := ledger.entries[e].operationID;
    assert ForHold(ledger, account)(e, id);
    forall other | other in ledger.holds.Keys && ForHold(ledger, account)(e, other) ensures other == id {
      assert IsHoldOf(ledger, operationID, other) && IsHoldOf(ledger, operationID, id);
    }
  }

  lemma {:induction false} ChargesAddUp(ledger: Ledger, account: Account)
    requires WithinBudget(ledger, account)
    ensures Sum(ledger.entries.Keys, EntryShares(ledger, account))
         == Sum(ledger.holds.Keys, GroupSums(ledger.entries.Keys, EntryShares(ledger, account), ForHold(ledger, account)))
  {
    forall e | e in ledger.entries.Keys && EntryShares(ledger, account)(e) != 0
      ensures OneGroup(e, ledger.holds.Keys, ForHold(ledger, account))
    {
      var id :| HoldFor(ledger, account, ledger.entries[e].operationID, id);
      EntryHasOneHold(ledger, account, e, id);
    }
    SumByGroup(ledger.entries.Keys, EntryShares(ledger, account), ledger.holds.Keys, ForHold(ledger, account));
  }

  lemma {:induction false} ChargedOutside(ledger: Ledger, account: Account, id: string)
    requires !(id in ledger.holds && InAccount(ledger.holds[id], account))
    ensures Charged(ledger, account, id) == 0
  {
    SumZero(ledger.entries.Keys, Part(EntryShares(ledger, account), ForHold(ledger, account), id));
  }

  lemma {:induction false} WeightBounds(ledger: Ledger, account: Account, id: string)
    requires id in ledger.holds && HoldFits(ledger, id, ledger.holds[id]) && WithinReservation(ledger, account, id)
    ensures Charged(ledger, account, id) <= Weight(ledger, account, id)
    ensures Weight(ledger, account, id) <= Charged(ledger, account, id) + LiveShare(ledger, account, id)
    ensures LiveShare(ledger, account, id) <= Weight(ledger, account, id)
  {
    if !InAccount(ledger.holds[id], account) { ChargedOutside(ledger, account, id); }
  }

  /** The exposure the admission check computes is at least what is committed and at most twice that. */
  lemma {:induction false} ExposureBounds(ledger: Ledger, account: Account)
    requires WithinBudget(ledger, account)
    ensures Committing(ledger, account) <= Exposure(ledger, account) <= 2 * Committing(ledger, account)
  {
    ChargesAddUp(ledger, account);
    forall id | id in ledger.holds.Keys
      ensures var charges := GroupSums(ledger.entries.Keys, EntryShares(ledger, account), ForHold(ledger, account));
              && charges(id) <= Weights(ledger, account)(id)
              && LiveShares(ledger, account)(id) <= Weights(ledger, account)(id)
              && Weights(ledger, account)(id) <= charges(id) + LiveShares(ledger, account)(id)
    {
      WeightBounds(ledger, account, id);
    }
    SumSandwich(ledger.holds.Keys, GroupSums(ledger.entries.Keys, EntryShares(ledger, account), ForHold(ledger, account)),
                LiveShares(ledger, account), Weights(ledger, account));
  }

  lemma {:induction false} SameCharges(from: Ledger, to: Ledger, account: Account, id: string)
    requires to.entries == from.entries && id in from.holds && id in to.holds && Advances(from.holds[id], to.holds[id])
    requires forall e :: e in from.entries ==> EntryShare(to, account, e) == EntryShare(from, account, e)
    ensures Charged(to, account, id) == Charged(from, account, id)
  {
    SumSame(from.entries.Keys, Part(EntryShares(from, account), ForHold(from, account), id),
            Part(EntryShares(to, account), ForHold(to, account), id));
  }

  lemma {:induction false} AdvanceLowersWeight(from: Ledger, to: Ledger, account: Account, id: string)
    requires HoldsAdvance(from, to) && id in from.holds && WithinReservation(from, account, id)
    ensures WithinReservation(to, account, id)
    ensures Weight(to, account, id) <= Weight(from, account, id)
  {
    forall e | e in from.entries ensures EntryShare(to, account, e) == EntryShare(from, account, e) {}
    SameCharges(from, to, account, id);
  }

  lemma {:induction false} AdvanceKeepsHolders(from: Ledger, to: Ledger, account: Account, operationID: string)
    requires HoldsAdvance(from, to) && HasHoldFor(from, account, operationID)
    ensures HasHoldFor(to, account, operationID)
  {
    var id :| HoldFor(from, account, operationID, id);
    assert HoldFor(to, account, operationID, id);
  }

  /** Moving holds along the table never raises what is committed. */
  lemma {:induction false} AdvanceKeepsBudget(from: Ledger, to: Ledger, account: Account)
    requires WithinBudget(from, account) && HoldsAdvance(from, to)
    ensures WithinBudget(to, account)
  {
    AdvanceKeepsForm(from, to);
    forall e | e in to.entries && EntryShare(to, account, e) != 0
      ensures HasHoldFor(to, account, to.entries[e].operationID)
    {
      AdvanceKeepsHolders(from, to, account, from.entries[e].operationID);
    }
    forall id | id in to.holds
      ensures WithinReservation(to, account, id) && Weight(to, account, id) <= Weight(from, account, id)
    {
      AdvanceLowersWeight(from, to, account, id);
    }
    SumAtMost(to.holds.Keys, Weights(to, account), Weights(from, account));
  }

  // Admission.

  lemma {:induction false} AdmittedKeepsForm(ledger: Ledger, a: Admission)
    requires WellFormed(ledger) && Admits(ledger, a)
    ensures WellFormed(Admitted(ledger, a))
  {
    var next := Admitted(ledger, a);
    forall id | id in next.holds ensures HoldFits(next, id, next.holds[id]) {
      if id != a.hold.id { assert HoldFits(ledger, id, ledger.holds[id]); }
    }
    forall op, x, y | IsHoldOf(next, op, x) && IsHoldOf(next, op, y) ensures x == y {
      if x != a.hold.id { assert IsHoldOf(ledger, op, x); }
      if y != a.hold.id { assert IsHoldOf(ledger, op, y); }
    }
  }

  lemma {:induction false} NewHoldHasNoCharges(ledger: Ledger, account: Account, a: Admission)
    requires WellFormed(ledger) && Admits(ledger, a)
    ensures Charged(Admitted(ledger, a), account, a.hold.id) == 0
  {
    var next := Admitted(ledger, a);
    SumZero(next.entries.Keys, Part(EntryShares(next, account), ForHold(next, account), a.hold.id));
  }

  lemma {:induction false} AdmittedKeepsShares(ledger: Ledger, account: Account, a: Admission, e: string)
    requires WellFormed(ledger) && Admits(ledger, a) && e in ledger.entries
    ensures EntryShare(Admitted(ledger, a), account, e) == EntryShare(ledger, account, e)
  {}

  lemma {:induction false} AdmittedKeepsCharges(ledger: Ledger, account: Account, a: Admission, id: string)
    requires WellFormed(ledger) && Admits(ledger, a) && id in ledger.holds
    ensures Charged(Admitted(ledger, a), account, id) == Charged(ledger, account, id)
    ensures Weight(Admitted(ledger, a), account, id) == Weight(ledger, account, id)
  {
    forall e | e in ledger.entries ensures EntryShare(Admitted(ledger, a), account, e) == EntryShare(ledger, account, e) {
      AdmittedKeepsShares(ledger, account, a, e);
    }
    SameCharges(ledger, Admitted(ledger, a), account, id);
  }

  lemma {:induction false} AdmittedCommits(ledger: Ledger, account: Account, a: Admission)
    requires WellFormed(ledger) && Admits(ledger, a)
    ensures Committing(Admitted(ledger, a), account)
         == Committing(ledger, account) + if InAccount(a.hold, account) then a.hold.reserved else 0
  {
    var next := Admitted(ledger, a);
    forall id | id in ledger.holds ensures Weight(next, account, id) == Weight(ledger, account, id) {
      AdmittedKeepsCharges(ledger, account, a, id);
    }
    assert next.holds.Keys == ledger.holds.Keys + {a.hold.id};
    SumAdd(ledger.holds.Keys, Weights(next, account), a.hold.id);
    SumSame(ledger.holds.Keys, Weights(next, account), Weights(ledger, account));
  }

  /** Admissions to the account bring its budget and period, and a reservation that can be compared with it. */
  ghost predicate FairAdmission(ledger: Ledger, a: Admission, account: Account) {
    InAccount(a.hold, account) ==>
      && 0 < account.budget == a.budget && a.end == account.end
      && Comparable(Exposure(ledger, account) + a.hold.reserved, account.budget)
  }

  lemma {:induction false} AdmittedKeepsHolders(ledger: Ledger, account: Account, a: Admission, e: string)
    requires Admits(ledger, a) && e in ledger.entries && HasHoldFor(ledger, account, ledger.entries[e].operationID)
    ensures HasHoldFor(Admitted(ledger, a), account, ledger.entries[e].operationID)
  {
    var id :| HoldFor(ledger, account, ledger.entries[e].operationID, id);
    assert HoldFor(Admitted(ledger, a), account, ledger.entries[e].operationID, id);
  }

  lemma {:induction false} AdmittedKeepsReservations(ledger: Ledger, account: Account, a: Admission, id: string)
    requires WithinBudget(ledger, account) && Admits(ledger, a) && id in Admitted(ledger, a).holds
    ensures WithinReservation(Admitted(ledger, a), account, id)
  {
    if id == a.hold.id {
      NewHoldHasNoCharges(ledger, account, a);
    } else {
      assert WithinReservation(ledger, account, id);
      AdmittedKeepsCharges(ledger, account, a, id);
    }
  }

  lemma {:induction false} AdmittedKeepsBudget(ledger: Ledger, account: Account, a: Admission)
    requires WithinBudget(ledger, account) && Admits(ledger, a) && FairAdmission(ledger, a, account)
    ensures WithinBudget(Admitted(ledger, a), account)
  {
    AdmittedKeepsForm(ledger, a);
    forall e | e in ledger.entries && EntryShare(Admitted(ledger, a), account, e) != 0
      ensures HasHoldFor(Admitted(ledger, a), account, ledger.entries[e].operationID)
    {
      AdmittedKeepsShares(ledger, account, a, e);
      AdmittedKeepsHolders(ledger, account, a, e);
    }
    forall id | id in Admitted(ledger, a).holds ensures WithinReservation(Admitted(ledger, a), account, id) {
      AdmittedKeepsReservations(ledger, account, a, id);
    }
    AdmittedCommits(ledger, account, a);
    if InAccount(a.hold, account) { CheckIsSound(ledger, AccountOf(a), a.hold.reserved); }
  }

  /** In an account within its budget the 64-bit comparison says whether exposure and reservation exceed the budget if and
      only if they can be compared. It never refuses wrongly. */
  lemma {:induction false} BudgetVerdictIsExact(ledger: Ledger, account: Account, reserved: int)
    requires WithinBudget(ledger, account) && 0 < account.budget <= MAX_INT64 && 0 <= reserved <= MAX_INT64
    ensures (OverBudget(ledger, account, reserved) <==> Exposure(ledger, account) + reserved > account.budget)
       <==> Comparable(Exposure(ledger, account) + reserved, account.budget)
    ensures OverBudget(ledger, account, reserved) ==> Exposure(ledger, account) + reserved > account.budget
  {
    ExposureBounds(ledger, account);
    CommittingIsNonNegative(ledger, account);
    WrappedComparison(Exposure(ledger, account) + reserved, account.budget);
  }

  /** A comparable reservation that passed fits beside everything committed. */
  lemma {:induction false} CheckIsSound(ledger: Ledger, account: Account, reserved: int)
    requires WithinBudget(ledger, account) && !OverBudget(ledger, account, reserved)
    requires 0 < account.budget <= MAX_INT64 && 0 <= reserved <= MAX_INT64
    requires Comparable(Exposure(ledger, account) + reserved, account.budget)
    ensures Committing(ledger, account) + reserved <= account.budget
  {
    BudgetVerdictIsExact(ledger, account, reserved);
    ExposureBounds(ledger, account);
  }

  /** A reservation that cannot be compared is let through, however small the budget, and breaks it. */
  lemma {:induction false} IncomparableIsLetThrough(ledger: Ledger, a: Admission)
    requires WithinBudget(ledger, AccountOf(a)) && ValidAdmission(a) && a.budget > 0
    requires a.hold.operationID !in ledger.operations && a.hold.id !in ledger.holds && !HasHold(ledger, a.hold.operationID)
    requires !Comparable(Exposure(ledger, AccountOf(a)) + a.hold.reserved, a.budget)
    ensures Admits(ledger, a)
    ensures Committing(Admitted(ledger, a), AccountOf(a)) == Committing(ledger, AccountOf(a)) + a.hold.reserved
    ensures a.hold.reserved > a.budget ==> Committing(Admitted(ledger, a), AccountOf(a)) > a.budget
  {
    BudgetVerdictIsExact(ledger, AccountOf(a), a.hold.reserved);
    AdmittedCommits(ledger, AccountOf(a), a);
    CommittingIsNonNegative(ledger, AccountOf(a));
  }

  lemma {:induction false} CommittingIsNonNegative(ledger: Ledger, account: Account)
    requires WithinBudget(ledger, account)
    ensures Committing(ledger, account) >= 0
  {
    forall id | id in ledger.holds.Keys ensures Weights(ledger, account)(id) >= 0 {
      assert WithinReservation(ledger, account, id) && HoldFits(ledger, id, ledger.holds[id]);
    }
    SumNonNegative(ledger.holds.Keys, Weights(ledger, account));
  }

  // Entries.

  function WithEntry(ledger: Ledger, e: string, entry: Entry): Ledger {
    ledger.(entries := ledger.entries[e := entry])
  }

  /** An entry that counts in the account comes while its hold is live, and fits its reservation. */
  ghost predicate FairEntry(ledger: Ledger, account: Account, e: string, entry: Entry) {
    var share := EntryShare(WithEntry(ledger, e, entry), account, e);
    share != 0 ==> exists id :: RoomFor(ledger, account, entry.operationID, share, id)
  }

  ghost predicate RoomFor(ledger: Ledger, account: Account, operationID: string, share: int, id: string) {
    && HoldFor(ledger, account, operationID, id) && CountsAgainstBudget(ledger.holds[id].status)
    && Charged(ledger, account, id) + share <= ledger.holds[id].reserved
  }

  lemma {:induction false} EntryCharges(ledger: Ledger, account: Account, e: string, entry: Entry, id: string)
    requires e !in ledger.entries && id in ledger.holds
    ensures var next := WithEntry(ledger, e, entry);
            Charged(next, account, id) == Charged(ledger, account, id)
              + if ForHold(next, account)(e, id) then EntryShare(next, account, e) else 0
  {
    var next := WithEntry(ledger, e, entry);
    var added := Part(EntryShares(next, account), ForHold(next, account), id);
    assert next.entries.Keys == ledger.entries.Keys + {e};
    SumAdd(ledger.entries.Keys, added, e);
    SumSame(ledger.entries.Keys, added, Part(EntryShares(ledger, account), ForHold(ledger, account), id));
  }

  lemma {:induction false} EntryHasRoom(ledger: Ledger, account: Account, e: string, entry: Entry, id: string)
    requires WellFormed(ledger) && FairEntry(ledger, account, e, entry) && id in ledger.holds
    requires var next := WithEntry(ledger, e, entry);
             ForHold(next, account)(e, id) && EntryShare(next, account, e) != 0
    ensures RoomFor(ledger, account, entry.operationID, EntryShare(WithEntry(ledger, e, entry), account, e), id)
  {
    var live :| RoomFor(ledger, account, entry.operationID, EntryShare(WithEntry(ledger, e, entry), account, e), live);
    assert IsHoldOf(ledger, entry.operationID, live) && IsHoldOf(ledger, entry.operationID, id);
  }

  /** A new charge goes to a live hold with room for it; every other hold is charged as before. */
  lemma {:induction false} EntryChargesLiveHold(ledger: Ledger, account: Account, e: string, entry: Entry, id: string)
    requires WellFormed(ledger) && e !in ledger.entries && FairEntry(ledger, account, e, entry) && id in ledger.holds
    ensures var charged := Charged(WithEntry(ledger, e, entry), account, id);
            || charged == Charged(ledger, account, id)
            || (CountsAgainstBudget(ledger.holds[id].status)
                && Charged(ledger, account, id) <= charged <= ledger.holds[id].reserved)
  {
    EntryCharges(ledger, account, e, entry, id);
    if ForHold(WithEntry(ledger, e, entry), account)(e, id) && EntryShare(WithEntry(ledger, e, entry), account, e) != 0 {
      EntryHasRoom(ledger, account, e, entry, id);
    }
  }

  lemma {:induction false} EntryFitsHold(ledger: Ledger, account: Account, e: string, entry: Entry, id: string)
    requires WellFormed(ledger) && e !in ledger.entries && entry.amount >= 0
    requires FairEntry(ledger, account, e, entry) && id in ledger.holds && WithinReservation(ledger, account, id)
    ensures WithinReservation(WithEntry(ledger, e, entry), account, id)
    ensures Weight(WithEntry(ledger, e, entry), account, id) == Weight(ledger, account, id)
  {
    EntryChargesLiveHold(ledger, account, e, entry, id);
  }

  lemma {:induction false} EntryHasHolder(ledger: Ledger, account: Account, e: string, entry: Entry, f: string)
    requires FairEntry(ledger, account, e, entry) && f in WithEntry(ledger, e, entry).entries
    requires EntryShare(WithEntry(ledger, e, entry), account, f) != 0
    requires f != e ==> HasHoldFor(ledger, account, ledger.entries[f].operationID)
    ensures HasHoldFor(WithEntry(ledger, e, entry), account, WithEntry(ledger, e, entry).entries[f].operationID)
  {
    var next := WithEntry(ledger, e, entry);
    if f == e {
      var id :| RoomFor(ledger, account, entry.operationID, EntryShare(next, account, e), id);
      assert HoldFor(next, account, entry.operationID, id);
    } else {
      var id :| HoldFor(ledger, account, ledger.entries[f].operationID, id);
      assert HoldFor(next, account, next.entries[f].operationID, id);
    }
  }

  lemma {:induction false} EntryKeepsBudget(ledger: Ledger, account: Account, e: string, entry: Entry)
    requires WithinBudget(ledger, account) && e !in ledger.entries && entry.amount >= 0
    requires entry.operationID in ledger.operations && FairEntry(ledger, account, e, entry)
    ensures WithinBudget(WithEntry(ledger, e, entry), account)
  {
    var next := WithEntry(ledger, e, entry);
    EntryKeepsForm(ledger, e, entry);
    forall f | f in next.entries && EntryShare(next, account, f) != 0
      ensures HasHoldFor(next, account, next.entries[f].operationID)
    {
      if f != e { assert EntryShare(ledger, account, f) != 0; }
      EntryHasHolder(ledger, account, e, entry, f);
    }
    forall id | id in next.holds
      ensures WithinReservation(next, account, id) && Weight(next, account, id) == Weight(ledger, account, id)
    {
      EntryFitsHold(ledger, account, e, entry, id);
    }
    SumSame(next.holds.Keys, Weights(next, account), Weights(ledger, account));
  }

  lemma {:induction false} EntryKeepsForm(ledger: Ledger, e: string, entry: Entry)
    requires WellFormed(ledger) && entry.amount >= 0 && entry.operationID in ledger.operations
    ensures WellFormed(WithEntry(ledger, e, entry))
  {
    var next := WithEntry(ledger, e, entry);
    forall id | id in next.holds ensures HoldFits(next, id, next.holds[id]) {
      assert HoldFits(ledger, id, ledger.holds[id]);
    }
    forall op, a, b | IsHoldOf(next, op, a) && IsHoldOf(next, op, b) ensures a == b {
      assert IsHoldOf(ledger, op, a) && IsHoldOf(ledger, op, b);
    }
  }

  // Runs.

  datatype Step =
    | Admitting(admission: Admission)
    | Moving(operationID: string, version: int, to: HoldStatus, amount: int, reason: string, at: Time)
    | Asking(operationID: string, to: HoldStatus, reason: string, at: Time)
    | Releasing(operationID: string, reason: string, at: Time)
    | Charging(usage: Usage)

  ghost function After(ledger: Ledger, step: Step): Ledger {
    match step
    case Admitting(a) => Admitted(ledger, a)
    case Moving(op, version, to, amount, reason, at) => Moved(ledger, op, version, to, amount, reason, at)
    case Asking(op, to, reason, at) => ServiceMoved(ledger, op, to, reason, at)
    case Releasing(op, reason, at) => ReleasedFor(ledger, op, reason, at)
    case Charging(usage) => UsageApplied(ledger, usage)
  }

  ghost predicate FairStep(ledger: Ledger, account: Account, step: Step) {
    match step
    case Admitting(a) => FairAdmission(ledger, a, account)
    case Charging(u) => u.entry.Some? ==> FairEntry(ledger, account, u.entryID, u.entry.value)
    case _ => true
  }

  ghost function Run(steps: seq<Step>): Ledger {
    if steps == [] then Ledger(map[], map[], map[]) else After(Run(steps[..|steps| - 1]), steps[|steps| - 1])
  }

  ghost predicate FairRun(steps: seq<Step>, account: Account) {
    forall i :: 0 <= i < |steps| ==> FairStep(Run(steps[..i]), account, steps[i])
  }

  /** The steps that touch holds only. */
  predicate MovesOnly(step: Step) {
    step.Moving? || step.Asking? || step.Releasing?
  }

  lemma {:induction false} MovingAdvances(ledger: Ledger, step: Step)
    requires WellFormed(ledger) && MovesOnly(step)
    ensures HoldsAdvance(ledger, After(ledger, step))
  {
    match step
    case Moving(op, version, to, amount, reason, at) => MovedAdvances(ledger, op, version, to, amount, reason, at);
    case Asking(op, to, reason, at) =>
      if HasHold(ledger, op) { MovedAdvances(ledger, op, HoldOf(ledger, op).version, to, 0, Trim(reason), at); }
    case Releasing(op, reason, at) =>
      if HasHold(ledger, op) { MovedAdvances(ledger, op, HoldOf(ledger, op).version, Released, 0, reason, at); }
  }

  /** A settlement charges the entry and then advances holds. */
  lemma {:induction false} UsageIsEntryThenAdvance(ledger: Ledger, u: Usage) returns (charged: Ledger)
    requires WellFormed(ledger) && Applies(ledger, u)
    ensures charged == if u.entry.Some? then WithEntry(ledger, u.entryID, u.entry.value) else ledger
    ensures HoldsAdvance(charged, UsageApplied(ledger, u))
  {
    charged := if u.entry.Some? then WithEntry(ledger, u.entryID, u.entry.value) else ledger;
    UsageHoldsAdvance(ledger, u);
  }

  lemma {:induction false} StepKeepsBudget(ledger: Ledger, account: Account, step: Step)
    requires WithinBudget(ledger, account) && FairStep(ledger, account, step)
    ensures WithinBudget(After(ledger, step), account)
  {
    if step.Admitting? {
      if Admits(ledger, step.admission) { AdmittedKeepsBudget(ledger, account, step.admission); }
    } else if step.Charging? {
      var u := step.usage;
      if Applies(ledger, u) {
        var charged := UsageIsEntryThenAdvance(ledger, u);
        if u.entry.Some? { EntryKeepsBudget(ledger, account, u.entryID, u.entry.value); }
        AdvanceKeepsBudget(charged, UsageApplied(ledger, u), account);
      }
    } else {
      MovingAdvances(ledger, step);
      AdvanceKeepsBudget(ledger, After(ledger, step), account);
    }
  }

  /** Over every fair run, live reservations plus the charges of closed operations stay within the budget. */
  lemma {:induction false} BudgetIsConserved(steps: seq<Step>, account: Account)
    requires account.budget >= 0 && FairRun(steps, account)
    ensures WithinBudget(Run(steps), account)
    ensures Committing(Run(steps), account) <= account.budget
  {
    if steps == [] {
      SumZero(Run(steps).holds.Keys, Weights(Run(steps), account));
    } else {
      var n := |steps| - 1;
      forall i | 0 <= i < n ensures FairStep(Run(steps[..n][..i]), account, steps[..n][i]) {
        assert steps[..n][..i] == steps[..i];
      }
      BudgetIsConserved(steps[..n], account);
      StepKeepsBudget(Run(steps[..n]), account, steps[n]);
    }
  }

  function Asks(id: string, reserved: int, credential: Credential, start: Time, end: Time): Admission {
    Admission(Hold(id, id, credential, Reserved, 1, reserved, 0, start, "", start, None, None), end, 10)
  }

  /** How the budget is broken: beside one unit, a reservation of the largest amount wraps to a negative sum. */
  lemma {:induction false} WrapBreaksBudget(credential: Credential, start: Time, end: Time)
    requires start != 0
    ensures var account := Account(credential, start, end, 10);
            var steps := [Admitting(Asks("a", 1, credential, start, end)), Admitting(Asks("b", MAX_INT64, credential, start, end))];
            Committing(Run(steps), account) == 1 + MAX_INT64 > account.budget
  {
    var account := Account(credential, start, end, 10);
    var first, second := Asks("a", 1, credential, start, end), Asks("b", MAX_INT64, credential, start, end);
    var steps := [Admitting(first), Admitting(second)];
    assert steps[..1] == [Admitting(first)] && steps[..1][..0] == [];
    var one := Admitted(Run(steps[..1][..0]), first);
    NotBlank('a');
    NotBlank('b');
    OneUnitIsAdmitted(account, first, one);
    assert "a"[0] != "b"[0];
    LargestIsLetThrough(account, second, one);
  }

  lemma {:induction false} OneUnitIsAdmitted(account: Account, a: Admission, one: Ledger)
    requires ValidAdmission(a) && AccountOf(a) == account && account.budget == 10 && a.hold.reserved == 1
    requires one == Admitted(Ledger(map[], map[], map[]), a)
    ensures WithinBudget(one, account) && Committing(one, account) == 1
    ensures one.operations == map[a.hold.operationID := a.hold.credential] && one.holds == map[a.hold.id := a.hold]
  {
    var empty := Ledger(map[], map[], map[]);
    EmptyAccount(account);
    BudgetVerdictIsExact(empty, account, 1);
    AdmittedKeepsBudget(empty, account, a);
    AdmittedCommits(empty, account, a);
  }

  lemma {:induction false} LargestIsLetThrough(account: Account, a: Admission, one: Ledger)
    requires WithinBudget(one, account) && Committing(one, account) == 1
    requires ValidAdmission(a) && AccountOf(a) == account && account.budget == 10 && a.hold.reserved == MAX_INT64
    requires a.hold.operationID !in one.operations && a.hold.id !in one.holds
    requires forall id :: id in one.holds ==> one.holds[id].operationID != a.hold.operationID
    ensures Committing(Admitted(one, a), account) == 1 + MAX_INT64
  {
    ExposureBounds(one, account);
    IncomparableIsLetThrough(one, a);
  }

  lemma NotBlank(c: char)
    requires !IsSpace(c)
    ensures Trim([c]) == [c]
  {}

  lemma {:induction false} EmptyAccount(account: Account)
    requires account.budget >= 0
    ensures var empty := Ledger(map[], map[], map[]);
            WithinBudget(empty, account) && Committing(empty, account) == 0 && Exposure(empty, account) == 0
  {
    var empty := Ledger(map[], map[], map[]);
    SumZero(empty.holds.Keys, Weights(empty, account));
    ExposureBounds(empty, account);
  }

  /** Settled and released holds never change again. */
  lemma {:induction false} ClosedHoldsStay(ledger: Ledger, step: Step, id: string)
    requires WellFormed(ledger) && id in ledger.holds && Closed(ledger.holds[id].status)
    ensures id in After(ledger, step).holds && After(ledger, step).holds[id] == ledger.holds[id]
  {
    if MovesOnly(step) {
      MovingAdvances(ledger, step);
    } else if step.Charging? && Applies(ledger, step.usage) {
      var charged := UsageIsEntryThenAdvance(ledger, step.usage);
    }
  }

  /** Cancelling before dispatch leaves the operation with no reserved and no disputed hold. */
  lemma {:induction false} ReleaseClears(ledger: Ledger, operationID: string, reason: string, at: Time)
    requires WellFormed(ledger) && HasHold(ledger, operationID)
    ensures var next := ReleasedFor(ledger, operationID, reason, at);
            && HasHold(next, operationID)
            && HoldOf(next, operationID).status == (if HoldOf(ledger, operationID).status in {Reserved, Disputed}
                                                    then Released else HoldOf(ledger, operationID).status)
  {
    var next := ReleasedFor(ledger, operationID, reason, at);
    var id :| IsHoldOf(ledger, operationID, id);
    HoldIsUnique(ledger, id);
    assert HoldFits(ledger, id, ledger.holds[id]);
    MovedAdvances(ledger, operationID, HoldOf(ledger, operationID).version, Released, 0, reason, at);
    AdvanceKeepsForm(ledger, next);
    HoldIsUnique(next, id);
  }

  // The in-memory repository.

  method ExceedsBudget(ledger: Ledger, account: Account, reserved: int) returns (exceeded: bool)
    ensures exceeded <==> OverBudget(ledger, account, reserved)
  {
    if account.budget <= 0 { return false; }
    Wraps64();
    SumOfAdds(EntryShares(ledger, account));
    SumOfAdds(LiveShares(ledger, account));
    var charged := SumWrapping(0, ledger.entries.Keys, EntryShares(ledger, account), Wrap64, SumOf(EntryShares(ledger, account)));
    var exposure := SumWrapping(charged, ledger.holds.Keys, LiveShares(ledger, account), Wrap64, SumOf(LiveShares(ledger, account)));
    WrapsAway(Sum(ledger.entries.Keys, EntryShares(ledger, account)), Sum(ledger.holds.Keys, LiveShares(ledger, account)),
              charged, exposure, reserved);
    exceeded := Wrap64(exposure + reserved) > account.budget;
  }

  class MemoryBilling {
    var holds: map<string, Hold>
    var entries: map<string, Entry>
    var operations: map<string, Credential>

    function Model(): Ledger
      reads this
    {
      Ledger(holds, entries, operations)
    }

    constructor ()
      ensures Model() == Ledger(map[], map[], map[]) && WellFormed(Model())
    {
      holds, entries, operations := map[], map[], map[];
    }

    method FindHold(operationID: string) returns (hold: Option<Hold>)
      requires WellFormed(Model())
      ensures hold.Some? <==> HasHold(Model(), operationID)
      ensures hold.Some? ==> hold.value == HoldOf(Model(), operationID)
    {
      var ids := holds.Keys;
      while ids != {}
        invariant ids <= holds.Keys && forall id :: IsHoldOf(Model(), operationID, id) ==> id in ids
        decreases |ids|
      {
        var id :| id in ids;
        if holds[id].operationID == operationID {
          HoldIsUnique(Model(), id);
          return Some(holds[id]);
        }
        ids := ids - {id};
      }
      hold := None;
    }

    method Admit(a: Admission) returns (admitted: bool)
      requires WellFormed(Model())
      modifies this
      ensures WellFormed(Model()) && admitted == old(Admits(Model(), a)) && Model() == old(Admitted(Model(), a))
    {
      if !ValidAdmission(a) || a.hold.operationID in operations || a.hold.id in holds { return false; }
      var existing := FindHold(a.hold.operationID);
      if existing.Some? { return false; }
      var exceeded := ExceedsBudget(Model(), AccountOf(a), a.hold.reserved);
      if exceeded { return false; }
      AdmittedKeepsForm(Model(), a);
      operations := operations[a.hold.operationID := a.hold.credential];
      holds := holds[a.hold.id := a.hold];
      admitted := true;
    }

    /** The hold of an operation moves only at the version that the caller expects. */
    method TransitionHold(operationID: string, expectedVersion: int, to: HoldStatus, amount: int, reason: string, at: Time)
      returns (updated: bool)
      requires WellFormed(Model())
      modifies this
      ensures WellFormed(Model())
      ensures Model() == old(Moved(Model(), Trim(operationID), expectedVersion, to, amount, reason, at))
      ensures updated <==> Model() != old(Model())
    {
      updated := MoveHold(Trim(operationID), expectedVersion, to, amount, reason, at);
    }

    method MoveHold(operationID: string, expectedVersion: int, to: HoldStatus, amount: int, reason: string, at: Time)
      returns (updated: bool)
      requires WellFormed(Model())
      modifies this
      ensures WellFormed(Model())
      ensures Model() == old(Moved(Model(), operationID, expectedVersion, to, amount, reason, at))
      ensures updated <==> Model() != old(Model())
    {
      MovedAdvances(Model(), operationID, expectedVersion, to, amount, reason, at);
      AdvanceKeepsForm(Model(), Moved(Model(), operationID, expectedVersion, to, amount, reason, at));
      var found := FindHold(operationID);
      if found.None? || found.value.version != expectedVersion { return false; }
      HoldIsStored(Model(), operationID);
      var moved := PrepareHold(found.value, to, amount, reason, at);
      if moved.None? || moved.value.version == found.value.version {
        assert moved.Some? ==> WithHold(Model(), found.value).holds == holds;
        return false;
      }
      holds := holds[found.value.id := moved.value];
      updated := true;
    }

    /** Commit, dispute and release. The result is false exactly when a move was needed and refused. */
    method ServiceTransition(operationID: string, to: HoldStatus, reason: string, at: Time) returns (ok: bool)
      requires WellFormed(Model())
      modifies this
      ensures WellFormed(Model()) && Model() == old(ServiceMoved(Model(), Trim(operationID), to, reason, at))
      ensures ok <==> old(NothingToMove(Model(), Trim(operationID), to)) || Model() != old(Model())
    {
      var found := FindHold(Trim(operationID));
      if found.None? { return true; }
      var status := found.value.status;
      if status == to || Closed(status) || (status == Disputed && to == Committed) { return true; }
      HoldIsStored(Model(), Trim(operationID));
      assert Trim(found.value.operationID) == Trim(operationID);
      ok := TransitionHold(found.value.operationID, found.value.version, to, 0, Trim(reason), at);
    }

    method ReleaseForOperation(operationID: string, reason: string, at: Time)
      requires WellFormed(Model())
      modifies this
      ensures WellFormed(Model()) && Model() == old(ReleasedFor(Model(), operationID, reason, at))
    {
      var found := FindHold(operationID);
      if found.None? || found.value.status in {Settled, Released, Committed} { return; }
      var _ := MoveHold(operationID, found.value.version, Released, 0, reason, at);
    }

    method Close(operationID: string, to: HoldStatus, amount: int, reason: string, at: Time)
      requires WellFormed(Model())
      modifies this
      ensures WellFormed(Model()) && Model() == old(Closing(Model(), operationID, to, amount, reason, at))
    {
      var found := FindHold(operationID);
      if found.None? || Closed(found.value.status) { return; }
      var _ := MoveHold(operationID, found.value.version, to, amount, reason, at);
    }

    method CumulativeAmount(operationID: string, amount: int) returns (total: int, fits: bool)
      requires WellFormed(Model()) && 0 <= amount <= MAX_INT64
      ensures fits <==> Cumulative(Model(), operationID, amount) <= MAX_INT64
      ensures fits ==> total == Cumulative(Model(), operationID, amount)
    {
      SumOfAdds(Applied(Model(), operationID));
      forall some: set<string> | some <= entries.Keys ensures SumOf(Applied(Model(), operationID))(some) >= 0 {
        SumNonNegative(some, Applied(Model(), operationID));
      }
      total, fits := SumBounded(amount, entries.Keys, Applied(Model(), operationID), MAX_INT64, SumOf(Applied(Model(), operationID)));
    }

    /** Settles the hold of a final usage; false when the cumulative amount does not fit. */
    method SettleForUsage(u: Usage) returns (fits: bool)
      requires WellFormed(Model()) && u.entry.Some? && 0 <= u.entry.value.amount <= MAX_INT64
      modifies this
      ensures WellFormed(Model())
      ensures fits == old(u.final && HasHold(Model(), u.operationID) && !Closed(HoldOf(Model(), u.operationID).status) ==>
                            Cumulative(Model(), u.operationID, u.entry.value.amount) <= MAX_INT64)
      ensures Model() == if fits && u.final
                         then old(Closing(Model(), u.operationID, Settled, Cumulative(Model(), u.operationID, u.entry.value.amount),
                                          "usage_ledger_applied", u.at))
                         else old(Model())
    {
      if !u.final { return true; }
      var found := FindHold(u.operationID);
      if found.None? || Closed(found.value.status) { return true; }
      var total;
      total, fits := CumulativeAmount(u.operationID, u.entry.value.amount);
      if fits { Close(u.operationID, Settled, total, "usage_ledger_applied", u.at); }
    }

    method ApplyUsage(u: Usage) returns (applied: bool)
      requires WellFormed(Model())
      modifies this
      ensures WellFormed(Model()) && applied == old(Applies(Model(), u)) && Model() == old(UsageApplied(Model(), u))
    {
      if u.operationID !in operations { return false; }
      if u.entry.Some? {
        var entry := u.entry.value;
        if u.entryID in entries || entry.operationID != u.operationID || !entry.counts || !(0 <= entry.amount <= MAX_INT64) {
          return false;
        }
        var fits := SettleForUsage(u);
        if !fits { return false; }
      }
      if u.final && u.disputed { Close(u.operationID, Disputed, 0, "pricing_evaluation_failed", u.at); }
      if u.final && u.unpriced { Close(u.operationID, Settled, 0, "usage_unpriced", u.at); }
      if u.entry.Some? {
        EntryKeepsForm(Model(), u.entryID, u.entry.value);
        entries := entries[u.entryID := u.entry.value];
      }
      applied := true;
    }
  }

  lemma HoldIsStored(ledger: Ledger, operationID: string)
    requires WellFormed(ledger) && HasHold(ledger, operationID)
    ensures var hold := HoldOf(ledger, operationID);
            hold.id in ledger.holds && ledger.holds[hold.id] == hold && hold.operationID == operationID
  {}
}
