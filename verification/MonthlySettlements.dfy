/** Runs whose settlements all come from the month-end job: credits never outrun the debits of their
    own month, so that no balance goes negative. */
module MonthlySettlements {
  import opened Tables
  import opened Money
  import opened Ledger
  import opened Settlements
  import opened SettlementRuns

  /** No EnsureOpenSettlement call starts, and none is under way. */
  predicate NoEnsure(steps: seq<Step>) {
    forall i :: 0 <= i < |steps| ==> !steps[i].BeginEnsure?
  }

  ghost predicate NoneEnsuring(s: Desk) {
    forall slot :: slot in s.calls ==> !s.calls[slot].EnsureRead? && !s.calls[slot].EnsureListed?
  }

  /** Every bill is covered by the debits of its month. */
  ghost predicate Covered(rows: seq<Settlement>, ledger: seq<Entry>) {
    forall i :: 0 <= i < |rows| ==> rows[i].amountDue <= ChargedInMonth(ledger, rows[i].provider, rows[i].period)
  }

  lemma {:induction false} GenerateCovered(rows: seq<Settlement>, ledger: seq<Entry>, month: nat, group: seq<PersonId>)
    requires Covered(rows, ledger)
    ensures Covered(Generate(rows, ledger, month, group), ledger)
    decreases |group|
  {
    if group != [] {
      GenerateCovered(GenerateOne(rows, ledger, month, group[0]), ledger, month, group[1..]);
    }
  }

  lemma AppendCovered(rows: seq<Settlement>, ledger: seq<Entry>, e: Entry)
    requires Covered(rows, ledger) && (e.kind.CommissionDebit? ==> e.amount > 0)
    ensures Covered(rows, ledger + [e])
  {}

  lemma ApplyCovered(s: Desk, step: Step)
    requires Sound(s) && NoneEnsuring(s) && Covered(s.rows, s.ledger) && !step.BeginEnsure?
    ensures NoneEnsuring(Apply(s, step)) && Covered(Apply(s, step).rows, Apply(s, step).ledger)
  {
    match step
    case Charge(e) => if e.kind.CommissionDebit? && ChecksHold(e) { AppendCovered(s.rows, s.ledger, e); }
    case GenerateForMonth(month, group) => GenerateCovered(s.rows, s.ledger, month, group);
    case Credit(slot) =>
      if slot in s.calls && s.calls[slot].VerifyMarked? {
        AppendCovered(s.rows, s.ledger, CreditEntry(s.calls[slot].id, s.calls[slot].seen));
      }
    case _ =>
  }

  lemma {:induction false} RunCovered(s: Desk, steps: seq<Step>)
    requires Sound(s) && NoneEnsuring(s) && Covered(s.rows, s.ledger) && NoEnsure(steps)
    ensures Covered(Run(s, steps).rows, Run(s, steps).ledger)
    decreases |steps|
  {
    if steps != [] {
      ApplySound(s, steps[0]);
      ApplyCovered(s, steps[0]);
      assert forall i :: 0 <= i < |steps[1..]| ==> steps[1..][i] == steps[i + 1];
      RunCovered(Apply(s, steps[0]), steps[1..]);
    }
  }

  // ----- credits of a month against debits of the month --------------------------------------

  function CappedColumn(id: SettlementId, cap: Cents): Entry -> int {
    (e: Entry) => if e.kind.SettlementCredit? && e.settlement == Some(id) then cap else 0
  }

  lemma {:induction false} CappedTotal(ledger: seq<Entry>, id: SettlementId, cap: Cents)
    ensures Total(ledger, CappedColumn(id, cap)) == cap * CreditCount(ledger, id)
  {
    if ledger != [] {
      CappedTotal(ledger[..|ledger| - 1], id, cap);
    }
  }

  /** All credits of a provider and month belong to the one settlement of that provider and month. */
  lemma CreditsWithinBill(s: Desk, p: PersonId, month: nat)
    requires Sound(s)
    ensures match RowFor(s.rows, p, month)
            case None => CreditedInMonth(s.ledger, p, month) == 0
            case Some(id) => CreditedInMonth(s.ledger, p, month) <= s.rows[id].amountDue
  {
    match RowFor(s.rows, p, month)
    case None =>
      forall k | 0 <= k < |s.ledger| ensures CreditedInMonthColumn(p, month)(s.ledger[k]) == 0 {
        assert CreditFits(s.rows, s.ledger[k]);
      }
      TotalZero(s.ledger, CreditedInMonthColumn(p, month));
    case Some(id) =>
      var cap := s.rows[id].amountDue;
      forall k | 0 <= k < |s.ledger|
        ensures CreditedInMonthColumn(p, month)(s.ledger[k]) <= CappedColumn(id, cap)(s.ledger[k])
      {
        assert CreditFits(s.rows, s.ledger[k]);
      }
      TotalMonotone(s.ledger, CreditedInMonthColumn(p, month), CappedColumn(id, cap));
      CappedTotal(s.ledger, id, cap);
  }

  lemma CreditsWithinDebits(s: Desk, p: PersonId, month: nat)
    requires Sound(s) && Covered(s.rows, s.ledger)
    ensures CreditedInMonth(s.ledger, p, month) <= ChargedInMonth(s.ledger, p, month)
  {
    CreditsWithinBill(s, p, month);
    if RowFor(s.rows, p, month).None? {
      forall k | 0 <= k < |s.ledger| ensures 0 <= ChargedInMonthColumn(p, month)(s.ledger[k]) {
        assert CreditFits(s.rows, s.ledger[k]);
      }
      TotalCovers(s.ledger, ChargedInMonthColumn(p, month));
    }
  }

  // ----- from months to the balance ----------------------------------------------------------

  /** What a provider owes for the months before `month`. */
  function BeforeColumn(p: PersonId, month: nat): Entry -> int {
    (e: Entry) => if e.provider == p && e.period < month then e.amount else 0
  }

  function NetColumn(p: PersonId, month: nat): Entry -> int {
    (e: Entry) => if e.provider == p && e.period == month then e.amount else 0
  }

  lemma {:induction false} MonthsNeverNegative(s: Desk, p: PersonId, month: nat)
    requires Sound(s) && Covered(s.rows, s.ledger)
    ensures Total(s.ledger, BeforeColumn(p, month)) >= 0
  {
    if month == 0 {
      TotalZero(s.ledger, BeforeColumn(p, 0));
    } else {
      var last := month - 1;
      MonthsNeverNegative(s, p, last);
      CreditsWithinDebits(s, p, last);
      forall k | 0 <= k < |s.ledger|
        ensures ChargedInMonthColumn(p, last)(s.ledger[k])
             == NetColumn(p, last)(s.ledger[k]) + CreditedInMonthColumn(p, last)(s.ledger[k])
      {
        assert CreditFits(s.rows, s.ledger[k]);
      }
      TotalSplit(s.ledger, ChargedInMonthColumn(p, last), NetColumn(p, last), CreditedInMonthColumn(p, last));
      TotalSplit(s.ledger, BeforeColumn(p, month), BeforeColumn(p, last), NetColumn(p, last));
    }
  }

  /** A month after every entry of the ledger. */
  function Horizon(ledger: seq<Entry>): (month: nat)
    ensures forall k :: 0 <= k < |ledger| ==> ledger[k].period < month
  {
    if ledger == [] then 0
    else
      var front, last := Horizon(ledger[..|ledger| - 1]), ledger[|ledger| - 1].period;
      if last < front then front else last + 1
  }

  lemma BalanceNeverNegative(s: Desk, p: PersonId)
    requires Sound(s) && Covered(s.rows, s.ledger)
    ensures BalanceFor(s.ledger, p).owed >= 0
  {
    var horizon := Horizon(s.ledger);
    MonthsNeverNegative(s, p, horizon);
    TotalMonotone(s.ledger, BeforeColumn(p, horizon), OwedColumn(p));
  }

  /** With settlements only from GenerateForMonth - reruns, late debits, verifications interleaved at
      their statements and calls that die included - no month's credits exceed its debits for any
      provider, and no provider's balance is ever negative. */
  lemma MonthlyCreditsNeverExceedDebits(steps: seq<Step>, p: PersonId, month: nat)
    requires NoEnsure(steps)
    ensures var s := Run(OPENING, steps);
            && CreditedInMonth(s.ledger, p, month) <= ChargedInMonth(s.ledger, p, month)
            && BalanceFor(s.ledger, p).owed >= 0
  {
    SettlementRuns.RunSound(OPENING, steps);
    RunCovered(OPENING, steps);
    CreditsWithinDebits(Run(OPENING, steps), p, month);
    BalanceNeverNegative(Run(OPENING, steps), p);
  }

  // ----- reruns ------------------------------------------------------------------------------

  /** The grouping lists every provider that has an entry. */
  predicate Complete(group: seq<PersonId>, ledger: seq<Entry>) {
    forall k :: 0 <= k < |ledger| ==> ledger[k].provider in group
  }

  predicate Billed(rows: seq<Settlement>, ledger: seq<Entry>, month: nat, p: PersonId) {
    ChargedInMonth(ledger, p, month) > 0 ==> RowFor(rows, p, month).Some?
  }

  /** A row that exists is found, and stays when rows grow. */
  lemma RowStays(before: seq<Settlement>, after: seq<Settlement>, p: PersonId, month: nat)
    requires RowsGrow(before, after) && RowFor(before, p, month).Some?
    ensures RowFor(after, p, month).Some?
  {}

  lemma {:induction false} GenerateBills(rows: seq<Settlement>, ledger: seq<Entry>, month: nat, group: seq<PersonId>)
    requires RowsSound(rows)
    ensures forall p :: p in group ==> Billed(Generate(rows, ledger, month, group), ledger, month, p)
    decreases |group|
  {
    if group != [] {
      var one := GenerateOne(rows, ledger, month, group[0]);
      GenerateBills(one, ledger, month, group[1..]);
      GenerateGrows(one, ledger, month, group[1..]);
      if ChargedInMonth(ledger, group[0], month) > 0 {
        RowStays(one, Generate(one, ledger, month, group[1..]), group[0], month);
      }
    }
  }

  lemma {:induction false} GenerateNothing(rows: seq<Settlement>, ledger: seq<Entry>, month: nat, group: seq<PersonId>)
    requires forall p :: p in group ==> Billed(rows, ledger, month, p)
    ensures Generate(rows, ledger, month, group) == rows
    decreases |group|
  {
    if group != [] {
      assert group[0] in group;
      GenerateNothing(rows, ledger, month, group[1..]);
    }
  }

  /** Running the month-end job again inserts nothing as long as the ledger is the same, whatever else
      has happened to the settlements in between and in whatever order the providers come. */
  lemma RerunInsertsNothing(s: Desk, month: nat, group: seq<PersonId>, between: seq<Step>, again: seq<PersonId>)
    requires Sound(s) && Complete(group, s.ledger)
    requires var later := Run(Apply(s, GenerateForMonth(month, group)), between); later.ledger == s.ledger
    ensures var later := Run(Apply(s, GenerateForMonth(month, group)), between);
            Apply(later, GenerateForMonth(month, again)) == later
  {
    var first := Apply(s, GenerateForMonth(month, group));
    var later := Run(first, between);
    ApplySound(s, GenerateForMonth(month, group));
    GenerateBills(s.rows, s.ledger, month, group);
    RunGrows(first, between);
    forall p | p in again ensures Billed(later.rows, later.ledger, month, p) {
      if p !in group {
        TotalZero(s.ledger, ChargedInMonthColumn(p, month));
      } else if ChargedInMonth(s.ledger, p, month) > 0 {
        RowStays(first.rows, later.rows, p, month);
      }
    }
    GenerateNothing(later.rows, later.ledger, month, again);
  }
}
