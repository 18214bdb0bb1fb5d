/** The append-only commission ledger of migration 0013: its constraints, the `provider_balances`
    view over it, and the reads the services make. */
module Ledger {
  import opened Tables
  import opened Money

  type PersonId = nat
  type BookingId = nat
  type RequestId = nat
  type TxnId = nat
  type SettlementId = nat

  datatype EntryKind = CommissionDebit | SettlementCredit | Adjustment

  /** `booking` is the booking whose id the entry's note quotes, if any. */
  datatype Entry = Entry(
    provider: PersonId,
    kind: EntryKind,
    amount: Cents,
    txn: Option<TxnId>,
    settlement: Option<SettlementId>,
    rate: Option<nat>,
    gross: Option<Cents>,
    period: nat,
    booking: Option<BookingId>)

  /** The two sign checks on the table. */
  predicate ChecksHold(e: Entry) {
    && (e.kind.CommissionDebit? ==> e.amount > 0)
    && (e.kind.SettlementCredit? ==> e.amount < 0)
  }

  /** `unique (transaction_id, entry_type)`; null transactions never collide. */
  predicate Collides(ledger: seq<Entry>, e: Entry) {
    e.txn.Some? && exists i :: 0 <= i < |ledger| && ledger[i].txn == e.txn && ledger[i].kind == e.kind
  }

  /** `insert ... on conflict (transaction_id, entry_type) do nothing`. None: a check rejects the
      row, which fails the whole statement, even where the row would have been skipped. */
  function Insert(ledger: seq<Entry>, e: Entry): Option<seq<Entry>> {
    if !ChecksHold(e) then None
    else if Collides(ledger, e) then Some(ledger)
    else Some(ledger + [e])
  }

  // ----- columns that the view and the proofs sum --------------------------------------------

  function ChargedColumn(p: PersonId): Entry -> int {
    (e: Entry) => if e.provider == p && e.kind.CommissionDebit? then e.amount else 0
  }

  function CreditedColumn(p: PersonId): Entry -> int {
    (e: Entry) => if e.provider == p && e.kind.SettlementCredit? then -e.amount else 0
  }

  function OwedColumn(p: PersonId): Entry -> int {
    (e: Entry) => if e.provider == p then e.amount else 0
  }

  function GrossColumn(p: PersonId): Entry -> int {
    (e: Entry) => if e.provider == p && e.kind.CommissionDebit? && e.gross.Some? then e.gross.value else 0
  }

  function JobsColumn(p: PersonId): Entry -> int {
    (e: Entry) => if e.provider == p && e.kind.CommissionDebit? then 1 else 0
  }

  function ChargedInMonthColumn(p: PersonId, month: nat): Entry -> int {
    (e: Entry) => if e.provider == p && e.kind.CommissionDebit? && e.period == month then e.amount else 0
  }

  function CreditedInMonthColumn(p: PersonId, month: nat): Entry -> int {
    (e: Entry) => if e.provider == p && e.kind.SettlementCredit? && e.period == month then -e.amount else 0
  }

  function DebitColumn(t: TxnId): Entry -> int {
    (e: Entry) => if e.kind.CommissionDebit? && e.txn == Some(t) then 1 else 0
  }

  function CreditColumn(id: SettlementId): Entry -> int {
    (e: Entry) => if e.kind.SettlementCredit? && e.settlement == Some(id) then 1 else 0
  }

  function ShareColumn(p: PersonId): Entry -> int {
    (e: Entry) =>
      if e.provider == p && e.kind.CommissionDebit? && e.gross.Some? && e.rate.Some?
      then e.gross.value * e.rate.value
      else 0
  }

  /** One row of `provider_balances`. */
  datatype Balance = Balance(charged: Cents, settled: Cents, owed: Cents, gross: Cents, jobs: int)

  const NO_BALANCE := Balance(0, 0, 0, 0, 0)

  /** The view, column by column. A provider without entries reads as zeroes. */
  function BalanceFor(ledger: seq<Entry>, p: PersonId): Balance {
    Balance(Total(ledger, ChargedColumn(p)), Total(ledger, CreditedColumn(p)), Total(ledger, OwedColumn(p)),
            Total(ledger, GrossColumn(p)), Total(ledger, JobsColumn(p)))
  }

  function ChargedInMonth(ledger: seq<Entry>, p: PersonId, month: nat): Cents {
    Total(ledger, ChargedInMonthColumn(p, month))
  }

  function CreditedInMonth(ledger: seq<Entry>, p: PersonId, month: nat): Cents {
    Total(ledger, CreditedInMonthColumn(p, month))
  }

  /** How many debits the ledger holds for a transaction, and credits for a settlement. */
  function DebitCount(ledger: seq<Entry>, t: TxnId): int {
    Total(ledger, DebitColumn(t))
  }

  function CreditCount(ledger: seq<Entry>, id: SettlementId): int {
    Total(ledger, CreditColumn(id))
  }

  /** The transaction has a debit. */
  predicate Debited(ledger: seq<Entry>, t: TxnId) {
    exists i :: 0 <= i < |ledger| && ledger[i].kind.CommissionDebit? && ledger[i].txn == Some(t)
  }

  lemma DebitCountPositive(ledger: seq<Entry>, t: TxnId)
    ensures DebitCount(ledger, t) >= 0
    ensures DebitCount(ledger, t) > 0 <==>
            exists i :: 0 <= i < |ledger| && ledger[i].kind.CommissionDebit? && ledger[i].txn == Some(t)
  {
    TotalCovers(ledger, DebitColumn(t));
    if forall i :: 0 <= i < |ledger| ==> !(ledger[i].kind.CommissionDebit? && ledger[i].txn == Some(t)) {
      TotalZero(ledger, DebitColumn(t));
    } else {
      var i :| 0 <= i < |ledger| && ledger[i].kind.CommissionDebit? && ledger[i].txn == Some(t);
      assert DebitColumn(t)(ledger[i]) == 1;
    }
  }

  /** The unique constraint at work: a debit inserted for `t` leaves exactly one for `t` where there
      was at most one, and no other transaction gains or loses one. */
  lemma InsertDebitCounts(ledger: seq<Entry>, e: Entry, t: TxnId)
    requires e.kind.CommissionDebit? && e.txn.Some? && Insert(ledger, e).Some?
    requires DebitCount(ledger, t) <= 1
    ensures DebitCount(Insert(ledger, e).value, t) == if e.txn == Some(t) then 1 else DebitCount(ledger, t)
  {
    TotalAppend(ledger, e, DebitColumn(t));
    DebitCountPositive(ledger, t);
  }

  /** The counters a running balance would keep: appending one entry moves the view by that entry
      alone, and leaves every other provider's row as it was. */
  function Bumped(b: Balance, e: Entry): Balance {
    match e.kind
    case CommissionDebit =>
      Balance(b.charged + e.amount, b.settled, b.owed + e.amount,
              b.gross + (if e.gross.Some? then e.gross.value else 0), b.jobs + 1)
    case SettlementCredit => b.(settled := b.settled - e.amount, owed := b.owed + e.amount)
    case Adjustment => b.(owed := b.owed + e.amount)
  }

  lemma BalanceAfterAppend(ledger: seq<Entry>, e: Entry, p: PersonId)
    ensures BalanceFor(ledger + [e], p)
         == if e.provider == p then Bumped(BalanceFor(ledger, p), e) else BalanceFor(ledger, p)
  {}

  /** The reads of one month and the counts of one transaction or settlement, entry by entry: an empty
      ledger has nothing, and an entry adds its amount, or one, exactly where it belongs. */
  lemma MonthAfterAppend(ledger: seq<Entry>, e: Entry, p: PersonId, month: nat)
    ensures ChargedInMonth([], p, month) == 0 && CreditedInMonth([], p, month) == 0
    ensures ChargedInMonth(ledger + [e], p, month) == ChargedInMonth(ledger, p, month)
              + (if e.provider == p && e.period == month && e.kind == CommissionDebit then e.amount else 0)
    ensures CreditedInMonth(ledger + [e], p, month) == CreditedInMonth(ledger, p, month)
              + (if e.provider == p && e.period == month && e.kind == SettlementCredit then -e.amount else 0)
  {
    TotalAppend(ledger, e, ChargedInMonthColumn(p, month));
    TotalAppend(ledger, e, CreditedInMonthColumn(p, month));
  }

  lemma CountsAfterAppend(ledger: seq<Entry>, e: Entry, t: TxnId, id: SettlementId)
    ensures DebitCount([], t) == 0 && CreditCount([], id) == 0
    ensures DebitCount(ledger + [e], t) == DebitCount(ledger, t) + (if e.kind == CommissionDebit && e.txn == Some(t) then 1 else 0)
    ensures CreditCount(ledger + [e], id) == CreditCount(ledger, id)
              + (if e.kind == SettlementCredit && e.settlement == Some(id) then 1 else 0)
  {
    TotalAppend(ledger, e, DebitColumn(t));
    TotalAppend(ledger, e, CreditColumn(id));
  }

  /** The sum of a provider's monthly reads over the months before `horizon`. */
  function MonthsCharged(ledger: seq<Entry>, p: PersonId, horizon: nat): Cents {
    if horizon == 0 then 0 else MonthsCharged(ledger, p, horizon - 1) + ChargedInMonth(ledger, p, horizon - 1)
  }

  function MonthsCredited(ledger: seq<Entry>, p: PersonId, horizon: nat): Cents {
    if horizon == 0 then 0 else MonthsCredited(ledger, p, horizon - 1) + CreditedInMonth(ledger, p, horizon - 1)
  }

  lemma {:induction false} MonthsAfterAppend(ledger: seq<Entry>, e: Entry, p: PersonId, horizon: nat)
    ensures MonthsCharged(ledger + [e], p, horizon) == MonthsCharged(ledger, p, horizon)
              + (if e.provider == p && e.period < horizon && e.kind == CommissionDebit then e.amount else 0)
    ensures MonthsCredited(ledger + [e], p, horizon) == MonthsCredited(ledger, p, horizon)
              + (if e.provider == p && e.period < horizon && e.kind == SettlementCredit then -e.amount else 0)
  {
    if horizon > 0 {
      MonthsAfterAppend(ledger, e, p, horizon - 1);
      MonthAfterAppend(ledger, e, p, horizon - 1);
    }
  }

  lemma {:induction false} NoMonths(p: PersonId, horizon: nat)
    ensures MonthsCharged([], p, horizon) == 0 && MonthsCredited([], p, horizon) == 0
  {
    if horizon > 0 {
      NoMonths(p, horizon - 1);
      MonthAfterAppend([], Entry(p, Adjustment, 0, None, None, None, None, 0, None), p, horizon - 1);
    }
  }

  /** The months add up to the view: commission_charged is the sum of the monthly charges, and
      commission_settled of the monthly credits, once the horizon is past every entry. */
  lemma {:induction false} MonthsAddUp(ledger: seq<Entry>, p: PersonId, horizon: nat)
    requires forall i :: 0 <= i < |ledger| ==> ledger[i].period < horizon
    ensures MonthsCharged(ledger, p, horizon) == BalanceFor(ledger, p).charged
    ensures MonthsCredited(ledger, p, horizon) == BalanceFor(ledger, p).settled
  {
    if ledger == [] {
      NoMonths(p, horizon);
    } else {
      var front, e := ledger[..|ledger| - 1], ledger[|ledger| - 1];
      assert ledger == front + [e];
      MonthsAddUp(front, p, horizon);
      MonthsAfterAppend(front, e, p, horizon);
      BalanceAfterAppend(front, e, p);
    }
  }

  /** At most one, counted: no two entries are debits of the transaction. */
  lemma {:induction false} AtMostOneDebitIff(ledger: seq<Entry>, t: TxnId)
    ensures DebitCount(ledger, t) <= 1 <==>
            forall i, j :: 0 <= i < j < |ledger| && ledger[i].kind == CommissionDebit && ledger[i].txn == Some(t) ==>
              !(ledger[j].kind == CommissionDebit && ledger[j].txn == Some(t))
  {
    if ledger != [] {
      var front, e := ledger[..|ledger| - 1], ledger[|ledger| - 1];
      assert ledger == front + [e];
      assert forall i :: 0 <= i < |front| ==> front[i] == ledger[i];
      AtMostOneDebitIff(front, t);
      CountsAfterAppend(front, e, t, 0);
      DebitCountPositive(front, t);
    }
  }

  /** No code path writes an adjustment. */
  predicate NoAdjustments(ledger: seq<Entry>) {
    forall i :: 0 <= i < |ledger| ==> !ledger[i].kind.Adjustment?
  }

  lemma OwedIsChargedMinusSettled(ledger: seq<Entry>, p: PersonId)
    requires NoAdjustments(ledger)
    ensures var b := BalanceFor(ledger, p); b.owed == b.charged - b.settled
  {
    forall i | 0 <= i < |ledger|
      ensures ChargedColumn(p)(ledger[i]) == OwedColumn(p)(ledger[i]) + CreditedColumn(p)(ledger[i])
    {}
    TotalSplit(ledger, ChargedColumn(p), OwedColumn(p), CreditedColumn(p));
  }

  /** A debit whose amount is the rounded share of its own frozen gross and rate. */
  predicate Frozen(e: Entry) {
    e.kind.CommissionDebit? ==>
      e.gross.Some? && e.rate.Some? && e.amount == Commission(e.gross.value, e.rate.value)
  }

  predicate AllFrozen(ledger: seq<Entry>) {
    forall i :: 0 <= i < |ledger| ==> Frozen(ledger[i])
  }

  /** Rounding does not accumulate past half a cent per billed job, whatever rates were frozen. */
  lemma {:induction false} RoundingIsBounded(ledger: seq<Entry>, p: PersonId)
    requires AllFrozen(ledger)
    ensures var b := BalanceFor(ledger, p);
            2 * Abs(b.charged * RATE_SCALE - Total(ledger, ShareColumn(p))) <= RATE_SCALE * b.jobs
  {
    if ledger != [] {
      var front, e := ledger[..|ledger| - 1], ledger[|ledger| - 1];
      assert ledger == front + [e];
      assert AllFrozen(front);
      RoundingIsBounded(front, p);
      BalanceAfterAppend(front, e, p);
      TotalAppend(front, e, ShareColumn(p));
      if e.provider == p && e.kind.CommissionDebit? {
        assert Frozen(e);
        CommissionWithinHalfCent(e.gross.value, e.rate.value);
        HalfCentStep(BalanceFor(front, p).charged, Total(front, ShareColumn(p)), e.amount, e.gross.value * e.rate.value,
                     BalanceFor(front, p).jobs);
      }
    }
  }

  lemma HalfCentStep(charged: int, share: int, amount: int, exact: int, jobs: int)
    requires 2 * Abs(charged * RATE_SCALE - share) <= RATE_SCALE * jobs
    requires 2 * Abs(exact - amount * RATE_SCALE) <= RATE_SCALE
    ensures 2 * Abs((charged + amount) * RATE_SCALE - (share + exact)) <= RATE_SCALE * (jobs + 1)
  {}
}
