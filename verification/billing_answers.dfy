/** What counts against a budget, told by comparing ledgers, and what each move of a hold leaves behind. */
module BillingAnswers {
  import opened Text
  import opened JobModel
  import opened Sums
  import opened BillingHolds

  // What counts against the budget.

  /** An applied usage cost of the credential that asks, inside the month it asks for. */
  predicate SpentThisMonth(ledger: Ledger, entry: Entry, a: Admission) {
    && entry.counts && entry.amount > 0 && a.hold.periodStart <= entry.createdAt < a.end
    && entry.operationID in ledger.operations && ledger.operations[entry.operationID] == a.hold.credential
  }

  /** A reservation of the credential that asks, for the month it asks for, that is not closed. */
  predicate HeldThisMonth(hold: Hold, a: Admission) {
    && hold.status != Settled && hold.status != Released && hold.reserved > 0
    && hold.credential == a.hold.credential && hold.periodStart == a.hold.periodStart
  }

  /** The same request for more. */
  function Reserving(a: Admission, more: int): Admission {
    a.(hold := a.hold.(reserved := a.hold.reserved + more))
  }

  lemma {:induction false} EntryAddsToExposure(ledger: Ledger, a: Admission, e: string, entry: Entry)
    requires e !in ledger.entries
    ensures Exposure(WithEntry(ledger, e, entry), AccountOf(a))
         == Exposure(ledger, AccountOf(a)) + if SpentThisMonth(ledger, entry, a) then entry.amount else 0
  {
    var next, account := WithEntry(ledger, e, entry), AccountOf(a);
    assert next.entries.Keys == ledger.entries.Keys + {e};
    SumAdd(ledger.entries.Keys, EntryShares(next, account), e);
    SumSame(ledger.entries.Keys, EntryShares(next, account), EntryShares(ledger, account));
    SumSame(ledger.holds.Keys, LiveShares(next, account), LiveShares(ledger, account));
  }

  lemma {:induction false} HoldAddsToExposure(ledger: Ledger, a: Admission, hold: Hold)
    requires hold.id !in ledger.holds
    ensures Exposure(WithHold(ledger, hold), AccountOf(a))
         == Exposure(ledger, AccountOf(a)) + if HeldThisMonth(hold, a) then hold.reserved else 0
  {
    var next, account := WithHold(ledger, hold), AccountOf(a);
    assert next.holds.Keys == ledger.holds.Keys + {hold.id};
    SumAdd(ledger.holds.Keys, LiveShares(next, account), hold.id);
    SumSame(ledger.holds.Keys, LiveShares(next, account), LiveShares(ledger, account));
    SumSame(ledger.entries.Keys, EntryShares(next, account), EntryShares(ledger, account));
  }

  lemma {:induction false} MoreExposure(ledger: Ledger, next: Ledger, a: Admission, more: nat)
    requires ValidAdmission(a) && a.hold.reserved + more <= MAX_INT64
    requires Exposure(next, AccountOf(a)) == Exposure(ledger, AccountOf(a)) + more
    ensures OverBudget(next, AccountOf(a), a.hold.reserved) <==> OverBudget(ledger, AccountOf(a), a.hold.reserved + more)
  {}

  lemma {:induction false} EntryKeepsHolds(ledger: Ledger, e: string, entry: Entry, operationID: string)
    ensures HasHold(WithEntry(ledger, e, entry), operationID) <==> HasHold(ledger, operationID)
  {
    forall id ensures IsHoldOf(WithEntry(ledger, e, entry), operationID, id) <==> IsHoldOf(ledger, operationID, id) {}
  }

  lemma {:induction false} OtherHoldsStay(ledger: Ledger, hold: Hold, operationID: string)
    requires hold.id !in ledger.holds && hold.operationID != operationID
    ensures HasHold(WithHold(ledger, hold), operationID) <==> HasHold(ledger, operationID)
  {
    forall id ensures IsHoldOf(WithHold(ledger, hold), operationID, id) <==> IsHoldOf(ledger, operationID, id) {}
  }

  /** A ledger entry changes the verdict only when it is an applied usage cost of the credential, inside the month; then
      exactly as asking for that much more does, wherever the 64-bit sum wraps. */
  lemma {:induction false} EntriesAreCounted(ledger: Ledger, a: Admission, e: string, entry: Entry)
    requires e !in ledger.entries
    ensures !SpentThisMonth(ledger, entry, a) ==> (Admits(WithEntry(ledger, e, entry), a) <==> Admits(ledger, a))
    ensures SpentThisMonth(ledger, entry, a) && ValidAdmission(a) && a.hold.reserved + entry.amount <= MAX_INT64 ==>
              (Admits(WithEntry(ledger, e, entry), a) <==> Admits(ledger, Reserving(a, entry.amount)))
  {
    EntryAddsToExposure(ledger, a, e, entry);
    EntryKeepsHolds(ledger, e, entry, a.hold.operationID);
    if SpentThisMonth(ledger, entry, a) && ValidAdmission(a) && a.hold.reserved + entry.amount <= MAX_INT64 {
      MoreExposure(ledger, WithEntry(ledger, e, entry), a, entry.amount);
    }
  }

  /** The same for the hold of another operation: it counts while it is reserved, committed or disputed. */
  lemma {:induction false} HoldsAreCounted(ledger: Ledger, a: Admission, hold: Hold)
    requires hold.id !in ledger.holds && hold.id != a.hold.id && hold.operationID != a.hold.operationID
    ensures !HeldThisMonth(hold, a) ==> (Admits(WithHold(ledger, hold), a) <==> Admits(ledger, a))
    ensures HeldThisMonth(hold, a) && ValidAdmission(a) && a.hold.reserved + hold.reserved <= MAX_INT64 ==>
              (Admits(WithHold(ledger, hold), a) <==> Admits(ledger, Reserving(a, hold.reserved)))
  {
    HoldAddsToExposure(ledger, a, hold);
    OtherHoldsStay(ledger, hold, a.hold.operationID);
    if HeldThisMonth(hold, a) && ValidAdmission(a) && a.hold.reserved + hold.reserved <= MAX_INT64 {
      MoreExposure(ledger, WithHold(ledger, hold), a, hold.reserved);
    }
  }

  /** A request that can be admitted brings a new hold with an id, a month, and amounts that are 64-bit and not negative. */
  predicate WellAsked(a: Admission) {
    && Trim(a.hold.id) != "" && a.hold.status == Reserved && a.hold.version == 1 && a.hold.settled == 0 && a.hold.periodStart != 0
    && a.hold.reserved >= 0 && a.hold.reserved <= MAX_INT64 && a.budget >= 0 && a.budget <= MAX_INT64
  }

  /** With nothing on record a request is admitted when it is well formed and within the budget, if there is one. */
  lemma {:induction false} EmptyLedgerAdmits(a: Admission)
    ensures Admits(Ledger(map[], map[], map[]), a) <==> WellAsked(a) && (a.budget == 0 || a.hold.reserved <= a.budget)
  {
    if a.budget >= 0 { EmptyAccount(AccountOf(a)); }
  }

  /** An admission stores the hold as it was brought and its operation; a refusal changes nothing. */
  lemma AdmissionsAreStored(ledger: Ledger, a: Admission)
    ensures Admitted(ledger, a)
         == if Admits(ledger, a)
            then Ledger(ledger.holds[a.hold.id := a.hold], ledger.entries, ledger.operations[a.hold.operationID := a.hold.credential])
            else ledger
    ensures a.hold.operationID in ledger.operations || a.hold.id in ledger.holds || HasHold(ledger, a.hold.operationID) ==>
              !Admits(ledger, a)
  {}

  // Within 64 bits, spending is the same as a smaller budget.

  function Amounts(ledger: Ledger): string -> int {
    id => if id in ledger.entries && ledger.entries[id].amount > 0 then ledger.entries[id].amount else 0
  }

  function Reservations(ledger: Ledger): string -> int {
    id => if id in ledger.holds && ledger.holds[id].reserved > 0 then ledger.holds[id].reserved else 0
  }

  /** Everything ever charged or reserved, by anyone. */
  ghost function OnRecord(ledger: Ledger): int {
    Sum(ledger.entries.Keys, Amounts(ledger)) + Sum(ledger.holds.Keys, Reservations(ledger))
  }

  lemma {:induction false} ExposureIsOnRecord(ledger: Ledger, account: Account)
    ensures 0 <= Exposure(ledger, account) <= OnRecord(ledger)
  {
    SumNonNegative(ledger.entries.Keys, EntryShares(ledger, account));
    SumNonNegative(ledger.holds.Keys, LiveShares(ledger, account));
    SumAtMost(ledger.entries.Keys, EntryShares(ledger, account), Amounts(ledger));
    SumAtMost(ledger.holds.Keys, LiveShares(ledger, account), Reservations(ledger));
  }

  lemma WithinSixtyFourBits(total: int)
    requires 0 <= total <= MAX_INT64
    ensures Wrap64(total) == total
  {}

  lemma {:induction false} VerdictWithinSixtyFourBits(ledger: Ledger, account: Account, exposure: int, reserved: int)
    requires exposure == Exposure(ledger, account) && 0 <= exposure + reserved <= MAX_INT64
    ensures OverBudget(ledger, account, reserved) <==> 0 < account.budget < exposure + reserved
  {
    WithinSixtyFourBits(exposure + reserved);
  }

  lemma {:induction false} BudgetKeepsExposure(ledger: Ledger, account: Account, budget: int)
    ensures Exposure(ledger, account.(budget := budget)) == Exposure(ledger, account)
  {
    SumSame(ledger.entries.Keys, EntryShares(ledger, account), EntryShares(ledger, account.(budget := budget)));
    SumSame(ledger.holds.Keys, LiveShares(ledger, account), LiveShares(ledger, account.(budget := budget)));
  }

  lemma {:induction false} LoweredVerdict(
    ledger: Ledger, next: Ledger, account: Account, lower: Account, exposure: nat, spent: nat, reserved: nat)
    requires 0 < spent < account.budget && lower == account.(budget := account.budget - spent)
    requires exposure + spent + reserved <= MAX_INT64
    requires exposure == Exposure(ledger, lower) && exposure + spent == Exposure(next, account)
    ensures OverBudget(next, account, reserved) <==> OverBudget(ledger, lower, reserved)
  {
    VerdictWithinSixtyFourBits(next, account, exposure + spent, reserved);
    VerdictWithinSixtyFourBits(ledger, lower, exposure, reserved);
  }

  lemma {:induction false} ExposureUnder(
    ledger: Ledger, account: Account, lower: Account, budget: int) returns (exposure: nat)
    requires lower == account.(budget := budget)
    ensures exposure == Exposure(ledger, account) == Exposure(ledger, lower) && exposure <= OnRecord(ledger)
  {
    ExposureIsOnRecord(ledger, account);
    BudgetKeepsExposure(ledger, account, budget);
    exposure := Exposure(ledger, account);
  }

  lemma {:induction false} SpendingLowersBudget(
    ledger: Ledger, next: Ledger, account: Account, lower: Account, spent: nat, reserved: nat)
    requires 0 < spent < account.budget && lower == account.(budget := account.budget - spent)
    requires OnRecord(ledger) + spent + reserved <= MAX_INT64
    requires Exposure(next, account) == Exposure(ledger, account) + spent
    ensures OverBudget(next, account, reserved) <==> OverBudget(ledger, lower, reserved)
  {
    var exposure := ExposureUnder(ledger, account, lower, account.budget - spent);
    LoweredVerdict(ledger, next, account, lower, exposure, spent, reserved);
  }

  lemma {:induction false} OverspendingIsRefused(
    ledger: Ledger, next: Ledger, account: Account, spent: nat, reserved: nat)
    requires account.budget > 0 && (spent > account.budget || (spent == account.budget && reserved > 0))
    requires OnRecord(ledger) + spent + reserved <= MAX_INT64
    requires Exposure(next, account) == Exposure(ledger, account) + spent
    ensures OverBudget(next, account, reserved)
  {
    ExposureIsOnRecord(ledger, account);
    VerdictWithinSixtyFourBits(next, account, Exposure(ledger, account) + spent, reserved);
  }

  /** While the sums stay within 64 bits, a charge or a reservation of the account lowers the budget by its amount, and one
      above the budget leaves nothing. */
  lemma {:induction false} ChargesLowerTheBudget(ledger: Ledger, a: Admission, e: string, entry: Entry)
    requires e !in ledger.entries && SpentThisMonth(ledger, entry, a) && ValidAdmission(a) && a.budget > 0
    requires OnRecord(ledger) + entry.amount + a.hold.reserved <= MAX_INT64
    ensures entry.amount < a.budget ==>
              (Admits(WithEntry(ledger, e, entry), a) <==> Admits(ledger, a.(budget := a.budget - entry.amount)))
    ensures entry.amount > a.budget || (entry.amount == a.budget && a.hold.reserved > 0) ==> !Admits(WithEntry(ledger, e, entry), a)
  {
    EntryAddsToExposure(ledger, a, e, entry);
    EntryKeepsHolds(ledger, e, entry, a.hold.operationID);
    var next, lower := WithEntry(ledger, e, entry), a.(budget := a.budget - entry.amount);
    if entry.amount < a.budget {
      SpendingLowersBudget(ledger, next, AccountOf(a), AccountOf(lower), entry.amount, a.hold.reserved);
    } else if entry.amount > a.budget || a.hold.reserved > 0 {
      OverspendingIsRefused(ledger, next, AccountOf(a), entry.amount, a.hold.reserved);
    }
  }

  lemma {:induction false} ReservationsLowerTheBudget(ledger: Ledger, a: Admission, hold: Hold)
    requires hold.id !in ledger.holds && hold.id != a.hold.id && hold.operationID != a.hold.operationID
    requires HeldThisMonth(hold, a) && ValidAdmission(a) && a.budget > 0
    requires OnRecord(ledger) + hold.reserved + a.hold.reserved <= MAX_INT64
    ensures hold.reserved < a.budget ==>
              (Admits(WithHold(ledger, hold), a) <==> Admits(ledger, a.(budget := a.budget - hold.reserved)))
    ensures hold.reserved > a.budget || (hold.reserved == a.budget && a.hold.reserved > 0) ==> !Admits(WithHold(ledger, hold), a)
  {
    HoldAddsToExposure(ledger, a, hold);
    OtherHoldsStay(ledger, hold, a.hold.operationID);
    var next, lower := WithHold(ledger, hold), a.(budget := a.budget - hold.reserved);
    if hold.reserved < a.budget {
      SpendingLowersBudget(ledger, next, AccountOf(a), AccountOf(lower), hold.reserved, a.hold.reserved);
    } else if hold.reserved > a.budget || a.hold.reserved > 0 {
      OverspendingIsRefused(ledger, next, AccountOf(a), hold.reserved, a.hold.reserved);
    }
  }

  // Moves of a hold.

  /** The statuses that lead to a status of a hold. */
  predicate HoldLeadsTo(from: HoldStatus, to: HoldStatus) {
    match to
    case Reserved => false
    case Committed => from == Reserved
    case Settled => from in {Reserved, Committed, Disputed}
    case Released => from in {Reserved, Disputed}
    case Disputed => from in {Reserved, Committed}
  }

  /** The hold in its next status, one version on; a settlement brings its amount and both ends their time. */
  predicate MovedTo(old_: Hold, hold: Hold, to: HoldStatus, amount: int, reason: string, at: Time) {
    && hold.id == old_.id && hold.operationID == old_.operationID && hold.credential == old_.credential
    && hold.reserved == old_.reserved && hold.periodStart == old_.periodStart
    && hold.status == to && hold.version == old_.version + 1 && hold.reason == Trim(reason) && hold.updatedAt == at
    && hold.settled == (if to == Settled then amount else old_.settled)
    && hold.settledAt == (if to == Settled then Some(at) else old_.settledAt)
    && hold.releasedAt == (if to == Released then Some(at) else old_.releasedAt)
  }

  /** Only this hold changes. */
  ghost predicate HoldReplaced(ledger: Ledger, next: Ledger, id: string) {
    id in next.holds && next == ledger.(holds := ledger.holds[id := next.holds[id]])
  }

  ghost predicate HoldMoves(ledger: Ledger, next: Ledger, id: string, to: HoldStatus, amount: int, reason: string, at: Time)
    requires id in ledger.holds
  {
    HoldReplaced(ledger, next, id) && MovedTo(ledger.holds[id], next.holds[id], to, amount, reason, at)
  }

  lemma {:induction false} TheHold(ledger: Ledger, operationID: string, id: string)
    requires WellFormed(ledger) && IsHoldOf(ledger, operationID, id)
    ensures HasHold(ledger, operationID) && HoldOf(ledger, operationID) == ledger.holds[id] && ledger.holds[id].id == id
  {
    HoldIsUnique(ledger, id);
    assert HoldFits(ledger, id, ledger.holds[id]);
  }

  /** For every status of the hold, which moves the caller with its version gets, and what each leaves behind. */
  lemma {:induction false} MovesAreAnswered(
    ledger: Ledger, operationID: string, id: string, version: int, to: HoldStatus, amount: int, reason: string, at: Time)
    requires WellFormed(ledger) && IsHoldOf(ledger, operationID, id)
    ensures var hold, next := ledger.holds[id], Moved(ledger, operationID, version, to, amount, reason, at);
            if version == hold.version && HoldLeadsTo(hold.status, to) && amount >= 0
            then HoldMoves(ledger, next, id, to, amount, reason, at)
            else next == ledger
  {
    TheHold(ledger, operationID, id);
    assert ledger.holds[id := ledger.holds[id]] == ledger.holds;
  }

  /** Whatever the service asks for is done or already so, but for releasing a committed hold and for going back to
      reserved. */
  lemma {:induction false} RequestsAreAnswered(
    ledger: Ledger, operationID: string, id: string, to: HoldStatus, reason: string, at: Time)
    requires WellFormed(ledger) && IsHoldOf(ledger, operationID, id)
    ensures var hold, next := ledger.holds[id], ServiceMoved(ledger, operationID, to, reason, at);
            && (NothingToMove(ledger, operationID, to)
                <==> hold.status == to || hold.status in {Settled, Released} || (hold.status == Disputed && to == Committed))
            && (NothingToMove(ledger, operationID, to) || next != ledger
                <==> hold.status in {to, Settled, Released} || (to != Reserved && !(hold.status == Committed && to == Released)))
            && if HoldLeadsTo(hold.status, to) then HoldMoves(ledger, next, id, to, 0, Trim(reason), at) else next == ledger
  {
    TheHold(ledger, operationID, id);
    MovesAreAnswered(ledger, operationID, id, ledger.holds[id].version, to, 0, Trim(reason), at);
    var next := ServiceMoved(ledger, operationID, to, reason, at);
    assert HoldLeadsTo(ledger.holds[id].status, to) ==> next.holds[id].version != ledger.holds[id].version;
  }

  /** Without a hold nothing moves and nothing is refused. */
  lemma {:induction false} NoHoldNoMove(
    ledger: Ledger, operationID: string, version: int, to: HoldStatus, amount: int, reason: string, at: Time)
    requires forall id :: !IsHoldOf(ledger, operationID, id)
    ensures Moved(ledger, operationID, version, to, amount, reason, at) == ledger
    ensures NothingToMove(ledger, operationID, to) && ServiceMoved(ledger, operationID, to, reason, at) == ledger
    ensures ReleasedFor(ledger, operationID, reason, at) == ledger
  {}

  /** Cancelling releases what is reserved or disputed, and leaves every other hold as it is. */
  lemma {:induction false} ReleasesAreAnswered(ledger: Ledger, operationID: string, id: string, reason: string, at: Time)
    requires WellFormed(ledger) && IsHoldOf(ledger, operationID, id)
    ensures var next := ReleasedFor(ledger, operationID, reason, at);
            if ledger.holds[id].status in {Reserved, Disputed}
            then HoldMoves(ledger, next, id, Released, 0, reason, at)
            else next == ledger
  {
    TheHold(ledger, operationID, id);
    MovesAreAnswered(ledger, operationID, id, ledger.holds[id].version, Released, 0, reason, at);
  }

  // Usage settlements.

  /** What an operation has been charged: entries of other operations or that do not count leave it, others add to it. */
  lemma {:induction false} ChargesAddUp(ledger: Ledger, e: string, entry: Entry, operationID: string, amount: int)
    requires e !in ledger.entries
    ensures Cumulative(ledger.(entries := map[]), operationID, amount) == amount
    ensures Cumulative(WithEntry(ledger, e, entry), operationID, amount)
         == Cumulative(ledger, operationID, amount)
            + if entry.operationID == operationID && entry.counts then entry.amount else 0
  {
    var next := WithEntry(ledger, e, entry);
    assert next.entries.Keys == ledger.entries.Keys + {e};
    SumAdd(ledger.entries.Keys, Applied(next, operationID), e);
    SumSame(ledger.entries.Keys, Applied(next, operationID), Applied(ledger, operationID));
  }

  lemma {:induction false} ClosingIsAnswered(
    ledger: Ledger, operationID: string, id: string, to: HoldStatus, amount: int, reason: string, at: Time)
    requires WellFormed(ledger) && IsHoldOf(ledger, operationID, id)
    ensures var next := Closing(ledger, operationID, to, amount, reason, at);
            if HoldLeadsTo(ledger.holds[id].status, to) && amount >= 0 then HoldMoves(ledger, next, id, to, amount, reason, at)
            else next == ledger
    ensures WellFormed(Closing(ledger, operationID, to, amount, reason, at))
  {
    TheHold(ledger, operationID, id);
    MovesAreAnswered(ledger, operationID, id, ledger.holds[id].version, to, amount, reason, at);
    ClosingAdvances(ledger, operationID, to, amount, reason, at);
  }

  /** What a final usage does to a live hold: a charge settles it with all that was charged, a failed pricing disputes it,
      and a usage without a price settles it with nothing. */
  ghost predicate UsageCloses(ledger: Ledger, next: Ledger, u: Usage, id: string)
    requires id in ledger.holds
  {
    var hold := ledger.holds[id];
    if u.entry.Some? then
      HoldMoves(ledger, next, id, Settled, Cumulative(ledger, u.operationID, u.entry.value.amount), "usage_ledger_applied", u.at)
    else if u.unpriced then
      && HoldReplaced(ledger, next, id)
      && MovedTo(if u.disputed && hold.status != Disputed then hold.(version := hold.version + 1) else hold, next.holds[id],
                 Settled, 0, "usage_unpriced", u.at)
    else if u.disputed && hold.status != Disputed then
      HoldMoves(ledger, next, id, Disputed, 0, "pricing_evaluation_failed", u.at)
    else next == ledger
  }

  lemma {:induction false} ClosedStaysClosed(ledger: Ledger, u: Usage, id: string)
    requires WellFormed(ledger) && IsHoldOf(ledger, u.operationID, id) && Closed(ledger.holds[id].status)
    ensures Closing(ledger, u.operationID, Disputed, 0, "pricing_evaluation_failed", u.at) == ledger
    ensures Closing(ledger, u.operationID, Settled, 0, "usage_unpriced", u.at) == ledger
  {
    TheHold(ledger, u.operationID, id);
  }

  lemma {:induction false} ChargedHoldsSettle(ledger: Ledger, u: Usage, id: string)
    requires WellFormed(ledger) && IsHoldOf(ledger, u.operationID, id)
    requires u.final && !Closed(ledger.holds[id].status) && u.entry.Some?
    requires Cumulative(ledger, u.operationID, u.entry.value.amount) >= 0
    ensures UsageCloses(ledger, UsageHolds(ledger, u), u, id)
  {
    var total := Cumulative(ledger, u.operationID, u.entry.value.amount);
    var settled := Closing(ledger, u.operationID, Settled, total, "usage_ledger_applied", u.at);
    ClosingIsAnswered(ledger, u.operationID, id, Settled, total, "usage_ledger_applied", u.at);
    ClosedStaysClosed(settled, u, id);
  }

  lemma ReplacedTwice(ledger: Ledger, middle: Ledger, next: Ledger, id: string)
    requires id in ledger.holds && HoldReplaced(ledger, middle, id) && HoldReplaced(middle, next, id)
    ensures HoldReplaced(ledger, next, id)
  {
    assert ledger.holds[id := next.holds[id]] == middle.holds[id := next.holds[id]];
  }

  lemma {:induction false} UnpricedHoldsSettle(ledger: Ledger, disputed: Ledger, u: Usage, id: string)
    requires WellFormed(ledger) && IsHoldOf(ledger, u.operationID, id)
    requires u.final && !Closed(ledger.holds[id].status) && u.entry.None? && u.unpriced && u.disputed
    requires disputed == Closing(ledger, u.operationID, Disputed, 0, "pricing_evaluation_failed", u.at)
    ensures UsageCloses(ledger, Closing(disputed, u.operationID, Settled, 0, "usage_unpriced", u.at), u, id)
  {
    ClosingIsAnswered(ledger, u.operationID, id, Disputed, 0, "pricing_evaluation_failed", u.at);
    ClosingIsAnswered(disputed, u.operationID, id, Settled, 0, "usage_unpriced", u.at);
    if ledger.holds[id].status != Disputed {
      ReplacedTwice(ledger, disputed, Closing(disputed, u.operationID, Settled, 0, "usage_unpriced", u.at), id);
    }
  }

  lemma {:induction false} UnchargedHoldsClose(ledger: Ledger, u: Usage, id: string)
    requires WellFormed(ledger) && IsHoldOf(ledger, u.operationID, id)
    requires u.final && !Closed(ledger.holds[id].status) && u.entry.None?
    ensures UsageCloses(ledger, UsageHolds(ledger, u), u, id)
  {
    if u.disputed && u.unpriced {
      UnpricedHoldsSettle(ledger, Closing(ledger, u.operationID, Disputed, 0, "pricing_evaluation_failed", u.at), u, id);
    } else if u.disputed {
      ClosingIsAnswered(ledger, u.operationID, id, Disputed, 0, "pricing_evaluation_failed", u.at);
    } else if u.unpriced {
      ClosingIsAnswered(ledger, u.operationID, id, Settled, 0, "usage_unpriced", u.at);
    }
  }

  lemma {:induction false} ClosedHoldsAreLeft(ledger: Ledger, u: Usage, id: string)
    requires WellFormed(ledger) && IsHoldOf(ledger, u.operationID, id) && Closed(ledger.holds[id].status)
    ensures UsageHolds(ledger, u) == ledger
  {
    TheHold(ledger, u.operationID, id);
  }

  lemma {:induction false} CumulativeIsNonNegative(ledger: Ledger, operationID: string, amount: nat)
    requires WellFormed(ledger)
    ensures Cumulative(ledger, operationID, amount) >= 0
  {
    SumNonNegative(ledger.entries.Keys, Applied(ledger, operationID));
  }

  /** A usage is taken when its operation is known and its charge, if any, is new, for that operation, an applied usage cost
      and not negative; a final one must leave a sum that fits 64 bits when there is a live hold to settle with it. */
  lemma {:induction false} UsagesAreTaken(ledger: Ledger, u: Usage, id: string, total: int)
    requires WellFormed(ledger) && IsHoldOf(ledger, u.operationID, id)
    requires u.entry.Some? ==> total == Cumulative(ledger, u.operationID, u.entry.value.amount)
    ensures Applies(ledger, u)
            <==> u.operationID in ledger.operations
                 && match u.entry
                    case None => true
                    case Some(e) =>
                      && u.entryID !in ledger.entries && e.operationID == u.operationID && e.counts && 0 <= e.amount <= MAX_INT64
                      && (u.final && ledger.holds[id].status in {Reserved, Committed, Disputed} ==> total <= MAX_INT64)
  {
    TheHold(ledger, u.operationID, id);
  }

  /** What a usage settlement that applies leaves behind: its entry, and the hold closed as its outcome says. */
  lemma {:induction false} UsagesAreAnswered(ledger: Ledger, u: Usage, id: string)
    requires WellFormed(ledger) && IsHoldOf(ledger, u.operationID, id) && Applies(ledger, u)
    ensures var next := UsageApplied(ledger, u);
            && next.operations == ledger.operations
            && next.entries == (if u.entry.Some? then ledger.entries[u.entryID := u.entry.value] else ledger.entries)
            && if u.final && ledger.holds[id].status in {Reserved, Committed, Disputed}
               then UsageCloses(ledger, next.(entries := ledger.entries), u, id)
               else next.holds == ledger.holds
  {
    UsageHoldsAdvance(ledger, u);
    if u.entry.Some? { CumulativeIsNonNegative(ledger, u.operationID, u.entry.value.amount); }
    if Closed(ledger.holds[id].status) {
      ClosedHoldsAreLeft(ledger, u, id);
    } else if u.final {
      if u.entry.Some? { ChargedHoldsSettle(ledger, u, id); } else { UnchargedHoldsClose(ledger, u, id); }
      assert UsageApplied(ledger, u).(entries := ledger.entries) == UsageHolds(ledger, u);
    }
  }
}
