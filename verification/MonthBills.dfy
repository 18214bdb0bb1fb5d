/** From a confirmed job to the month's bill: in which month a debit is booked, and what the month-end job
    makes of the month's debits. */
module MonthBills {
  import opened Tables
  import opened Money
  import opened Ledger
  import opened Transactions
  import opened Settlements
  import Jobs
  import S = SettlementRuns
  import P = Platform
  import R = PaymentRuns
  import T = TransactionEffects
  import J = JobEffects

  // ----- what the month-end job inserts ------------------------------------------------------

  predicate HasRow(rows: seq<Settlement>, p: PersonId, month: nat) {
    exists i :: 0 <= i < |rows| && rows[i].provider == p && rows[i].period == month
  }

  /** A new bill: the sum of the provider's debits of the month, due. */
  predicate IsMonthBill(row: Settlement, ledger: seq<Entry>, month: nat) {
    row.period == month && row.status == Due && row.amountDue == ChargedInMonth(ledger, row.provider, month) && row.amountDue > 0
  }

  lemma RowIsThere(rows: seq<Settlement>, p: PersonId, month: nat)
    ensures RowFor(rows, p, month).Some? <==> HasRow(rows, p, month)
  {
    var found := RowFor(rows, p, month);
    if found.Some? { assert rows[found.value].provider == p && rows[found.value].period == month; }
  }

  lemma OneBill(rows: seq<Settlement>, ledger: seq<Entry>, month: nat, p: PersonId)
    ensures GenerateOne(rows, ledger, month, p) ==
            if ChargedInMonth(ledger, p, month) > 0 && !HasRow(rows, p, month)
            then rows + [Settlement(p, month, ChargedInMonth(ledger, p, month), Due)] else rows
  {
    RowIsThere(rows, p, month);
  }

  /** GenerateForMonth keeps every row, and adds bills of the month for providers of the grouping that had
      none: one for each of them that has a positive sum. */
  lemma {:induction false} GenerateEffect(rows: seq<Settlement>, ledger: seq<Entry>, month: nat, group: seq<PersonId>)
    ensures var after := Generate(rows, ledger, month, group);
            && rows <= after
            && (forall i :: |rows| <= i < |after| ==>
                  IsMonthBill(after[i], ledger, month) && after[i].provider in group && !HasRow(rows, after[i].provider, month))
            && (forall i, j :: |rows| <= i < j < |after| ==> after[i].provider != after[j].provider)
            && (forall p :: p in group && ChargedInMonth(ledger, p, month) > 0 ==> HasRow(after, p, month))
    decreases |group|
  {
    if group != [] {
      var one := GenerateOne(rows, ledger, month, group[0]);
      var after := Generate(one, ledger, month, group[1..]);
      OneBill(rows, ledger, month, group[0]);
      GenerateEffect(one, ledger, month, group[1..]);
      RowsStayThere(rows, one, month);
      RowsStayThere(one, after, month);
      if one != rows { assert HasRow(one, group[0], month) by { assert one[|rows|].provider == group[0]; } }
      forall i | |rows| <= i < |after|
        ensures IsMonthBill(after[i], ledger, month) && after[i].provider in group && !HasRow(rows, after[i].provider, month)
      {
        if i < |one| { assert after[i] == one[i]; }
      }
      forall i, j | |rows| <= i < j < |after| ensures after[i].provider != after[j].provider {
        if i < |one| { assert after[i] == one[i] && HasRow(one, after[i].provider, month); }
      }
    }
  }

  lemma RowsStayThere(before: seq<Settlement>, after: seq<Settlement>, month: nat)
    requires before <= after
    ensures forall p :: HasRow(before, p, month) ==> HasRow(after, p, month)
  {
    forall p | HasRow(before, p, month) ensures HasRow(after, p, month) {
      var i :| 0 <= i < |before| && before[i].provider == p && before[i].period == month;
      assert after[i] == before[i];
    }
  }

  /** Where all of a provider's debits are of one month, that month's bill is all of commission_charged. */
  lemma OneMonthIsEverything(ledger: seq<Entry>, p: PersonId, month: nat)
    requires forall i :: 0 <= i < |ledger| && ledger[i].provider == p && ledger[i].kind == CommissionDebit ==> ledger[i].period == month
    ensures ChargedInMonth(ledger, p, month) == BalanceFor(ledger, p).charged
  {
    TotalMonotone(ledger, ChargedInMonthColumn(p, month), ChargedColumn(p));
    TotalMonotone(ledger, ChargedColumn(p), ChargedInMonthColumn(p, month));
  }

  /** Two debits of one month make one bill of their sum. */
  lemma TwoDebitsOneBill(p: PersonId, month: nat, first: Entry, second: Entry)
    requires first.kind == CommissionDebit && second.kind == CommissionDebit && first.amount > 0 && second.amount > 0
    requires first.provider == p && second.provider == p && first.period == month && second.period == month
    ensures Generate([], [first, second], month, [p]) == [Settlement(p, month, first.amount + second.amount, Due)]
  {
    MonthAfterAppend([], first, p, month);
    MonthAfterAppend([first], second, p, month);
    assert [] + [first] == [first] && [first] + [second] == [first, second];
    OneBill([], [first, second], month, p);
    var one := GenerateOne([], [first, second], month, p);
    assert [p][1..] == [];
    assert Generate(one, [first, second], month, []) == one;
  }

  // ----- the month of a debit ----------------------------------------------------------------

  /** No confirmation and no debit lies in a later month than the clock's. */
  ghost predicate Past(s: Jobs.Shop) {
    && (forall i :: 0 <= i < |s.book.txns| && s.book.txns[i].confirmedAt != None ==> s.book.txns[i].confirmedAt.value.month <= s.now.month)
    && (forall i :: 0 <= i < |s.book.ledger| && s.book.ledger[i].kind == CommissionDebit ==> s.book.ledger[i].period <= s.now.month)
  }

  lemma PaymentPast(rates: Rates, s: Jobs.Shop, b: BookingId)
    requires Past(s) && R.Checked(s) && b in s.bookings
    ensures Past(Jobs.Apply(rates, s, Jobs.ProviderConfirmPayment(b, true)))
  {
    var r := s.bookings[b].request;
    match Jobs.Newest(s.book.txns, b, r)
    case None =>
      J.NothingNewest(s.book.txns, b, r);
      J.FirstPaymentEffect(rates, s, b);
    case Some(id) =>
      J.LastIsNewest(s.book.txns, b, r, id);
      J.PaymentEffect(rates, s, b, id);
  }

  lemma ConfirmPast(rates: Rates, s: Jobs.Shop, caller: PersonId, id: TxnId)
    requires Past(s)
    ensures Past(Jobs.Apply(rates, s, Jobs.ConfirmTxn(caller, id)))
  {
    T.ConfirmEffect(rates, s.now, s.book, caller, id);
    T.AnswerCalls(rates, s, caller, id);
  }

  /** The ledger stays, and rows keep their stamps; new ones have none. */
  predicate StampsStay(s: Jobs.Shop, t: Jobs.Shop) {
    && t.now == s.now && t.book.ledger == s.book.ledger && |s.book.txns| <= |t.book.txns|
    && (forall i :: 0 <= i < |s.book.txns| ==> t.book.txns[i].confirmedAt == s.book.txns[i].confirmedAt)
    && (forall i :: |s.book.txns| <= i < |t.book.txns| ==> t.book.txns[i].confirmedAt == None)
  }

  lemma StampsStayPast(s: Jobs.Shop, t: Jobs.Shop)
    requires Past(s) && StampsStay(s, t)
    ensures Past(t)
  {}

  lemma BillStamps(rates: Rates, s: Jobs.Shop, call: Jobs.Call)
    requires call.Record? || call.SetBill? || call.AutoBill?
    ensures StampsStay(s, Jobs.Apply(rates, s, call))
  {}

  lemma SetStatusStamps(rates: Rates, s: Jobs.Shop, b: BookingId, to: Jobs.Phase, q: Jobs.Quote)
    ensures StampsStay(s, Jobs.Apply(rates, s, Jobs.SetStatus(b, to, q)))
  {}

  lemma QuietStamps(rates: Rates, s: Jobs.Shop, call: Jobs.Call)
    requires !call.ConfirmTxn? && !call.ProviderConfirmPayment? && !call.Record? && !call.SetBill? && !call.AutoBill? && !call.SetStatus?
    ensures StampsStay(s, Jobs.Apply(rates, s, call))
  {}

  lemma RefusedStamps(rates: Rates, s: Jobs.Shop, b: BookingId)
    ensures StampsStay(s, Jobs.Apply(rates, s, Jobs.ProviderConfirmPayment(b, false)))
  {
    J.RefusedEffect(rates, s, b);
  }

  /** The other calls stamp no confirmation and book no debit. */
  lemma OtherCallPast(rates: Rates, s: Jobs.Shop, call: Jobs.Call)
    requires Past(s) && !call.ConfirmTxn? && !(call.ProviderConfirmPayment? && call.received)
    ensures Past(Jobs.Apply(rates, s, call))
  {
    match call {
      case Record(_, _) => BillStamps(rates, s, call);
      case SetBill(_, _) => BillStamps(rates, s, call);
      case AutoBill(_, _) => BillStamps(rates, s, call);
      case SetStatus(b, to, quote) => SetStatusStamps(rates, s, b, to, quote);
      case ProviderConfirmPayment(b, _) => RefusedStamps(rates, s, b);
      case _ => QuietStamps(rates, s, call);
    }
    StampsStayPast(s, Jobs.Apply(rates, s, call));
  }

  lemma ApplyPast(rates: Rates, s: Jobs.Shop, call: Jobs.Call)
    requires Past(s) && R.Checked(s)
    ensures Past(Jobs.Apply(rates, s, call))
  {
    match call
    case ConfirmTxn(caller, id) => ConfirmPast(rates, s, caller, id);
    case ProviderConfirmPayment(b, received) =>
      if received {
        if b in s.bookings { PaymentPast(rates, s, b); }
      } else {
        OtherCallPast(rates, s, call);
      }
    case _ => OtherCallPast(rates, s, call);
  }

  lemma {:induction false} RunPast(rates: Rates, s: Jobs.Shop, steps: seq<Jobs.Step>)
    requires Past(s) && R.Checked(s)
    ensures Past(Jobs.Run(rates, s, steps))
    decreases |steps|
  {
    if steps != [] {
      var s' := Jobs.Elapsed(s, steps[0]);
      ApplyPast(rates, s', steps[0].call);
      R.ApplyChecked(rates, s', steps[0].call);
      RunPast(rates, Jobs.Next(rates, s, steps[0]), steps[1..]);
    }
  }

  /** Over all runs of the job calls, no debit is booked ahead of the clock's month. */
  lemma DebitsAreInThePast(rates: Rates, owners: map<RequestId, PersonId>, steps: seq<Jobs.Step>, i: nat)
    ensures var s := Jobs.Run(rates, Jobs.Opening(owners), steps);
            i < |s.book.ledger| && s.book.ledger[i].kind == CommissionDebit ==> s.book.ledger[i].period <= s.now.month
  {
    RunPast(rates, Jobs.Opening(owners), steps);
  }

  // ----- from confirmation to bill -----------------------------------------------------------

  lemma {:induction false} LedgerGrows(rates: Rates, p: P.Platform, steps: seq<P.Step>)
    ensures p.shop.book.ledger <= P.Run(rates, p, steps).shop.book.ledger
    decreases |steps|
  {
    if steps != [] {
      var next := P.Next(rates, p, steps[0]);
      match steps[0] {
        case JobStep(job) => P.ApplyExtends(rates, Jobs.Elapsed(p.shop, job), job.call);
        case SettlementStep(settlement) =>
          if !settlement.Charge? && !settlement.Wait? { P.SettlementAddsCredit(P.DeskOf(p), settlement); }
      }
      LedgerGrows(rates, next, steps[1..]);
    }
  }

  /** A debit is covered by its month's sum. */
  lemma MonthCovers(ledger: seq<Entry>, p: PersonId, month: nat, i: nat)
    requires forall k :: 0 <= k < |ledger| && ledger[k].kind == CommissionDebit ==> ledger[k].amount > 0
    requires i < |ledger| && ledger[i].kind == CommissionDebit && ledger[i].provider == p && ledger[i].period == month
    ensures ledger[i].amount <= ChargedInMonth(ledger, p, month)
  {
    TotalCovers(ledger, ChargedInMonthColumn(p, month));
    assert ChargedInMonthColumn(p, month)(ledger[i]) == ledger[i].amount;
  }

  lemma StaysSound(rates: Rates, p: P.Platform, steps: seq<P.Step>)
    requires S.Sound(P.DeskOf(p))
    ensures S.Sound(P.DeskOf(P.Run(rates, p, steps)))
  {
    var asDesk := P.RunAsDeskRun(rates, p, steps);
    S.RunSound(P.DeskOf(p), asDesk);
  }

  lemma DebitsArePositive(p: P.Platform)
    requires S.Sound(P.DeskOf(p))
    ensures var ledger := p.shop.book.ledger; forall k :: 0 <= k < |ledger| && ledger[k].kind == CommissionDebit ==> ledger[k].amount > 0
  {
    var ledger := p.shop.book.ledger;
    assert P.DeskOf(p).ledger == ledger;
    forall k | 0 <= k < |ledger| && ledger[k].kind == CommissionDebit ensures ledger[k].amount > 0 {
      assert S.CreditFits(P.DeskOf(p).rows, ledger[k]);
    }
  }

  lemma ConfirmationBooks(rates: Rates, p: P.Platform, caller: PersonId, id: TxnId, ticks: nat, months: nat)
    requires var s := Jobs.Elapsed(p.shop, Jobs.Step(Jobs.ConfirmTxn(caller, id), ticks, months));
             Confirm(rates, s.now, s.book, caller, id).Ok? && forall i :: 0 <= i < |s.book.ledger| ==> s.book.ledger[i].txn != Some(id)
    ensures var row, n := p.shop.book.txns[id], |p.shop.book.ledger|;
            var ledger := P.Next(rates, p, P.JobStep(Jobs.Step(Jobs.ConfirmTxn(caller, id), ticks, months))).shop.book.ledger;
            && |ledger| == n + 1 && ledger[n].kind == CommissionDebit && ledger[n].provider == row.provider
            && ledger[n].period == p.shop.now.month + months && ledger[n].amount == Commission(row.amount, rates.trigger)
  {
    var s := Jobs.Elapsed(p.shop, Jobs.Step(Jobs.ConfirmTxn(caller, id), ticks, months));
    T.ConfirmEffect(rates, s.now, s.book, caller, id);
    T.AnswerCalls(rates, s, caller, id);
  }

  /** The platform when the month-end job comes to run. */
  ghost function Later(rates: Rates, p: P.Platform, job: Jobs.Step, after: seq<P.Step>): P.Platform {
    P.Run(rates, P.Next(rates, p, P.JobStep(job)), after)
  }

  /** The month-end job inserts a due bill of the provider and month, for the month's sum and at least `amount`. */
  ghost predicate BillsAtLeast(rates: Rates, p: P.Platform, month: nat, group: seq<PersonId>, who: PersonId, amount: Cents) {
    var billed := P.Next(rates, p, P.SettlementStep(S.GenerateForMonth(month, group)));
    exists i :: |p.rows| <= i < |billed.rows| && billed.rows[i].provider == who
             && billed.rows[i].period == month && billed.rows[i].status == Due
             && billed.rows[i].amountDue == ChargedInMonth(p.shop.book.ledger, who, month)
             && billed.rows[i].amountDue >= amount
  }

  /** A debit somewhere in the ledger, and a provider without a settlement for its month. */
  lemma DebitIsBilled(rates: Rates, p: P.Platform, n: nat, group: seq<PersonId>)
    requires S.Sound(P.DeskOf(p)) && n < |p.shop.book.ledger| && p.shop.book.ledger[n].kind == CommissionDebit
    requires var e := p.shop.book.ledger[n]; e.provider in group && !HasRow(p.rows, e.provider, e.period)
    ensures var e := p.shop.book.ledger[n]; BillsAtLeast(rates, p, e.period, group, e.provider, e.amount)
  {
    var e := p.shop.book.ledger[n];
    DebitsArePositive(p);
    MonthCovers(p.shop.book.ledger, e.provider, e.period, n);
    BilledForMonth(rates, p, e.period, group, e.provider);
  }

  /** The job step is a confirmation that goes through, of a transaction that has no entry yet. */
  ghost predicate ConfirmsFirst(rates: Rates, p: P.Platform, caller: PersonId, id: TxnId, job: Jobs.Step) {
    && job.call == Jobs.ConfirmTxn(caller, id) && id < |p.shop.book.txns|
    && (forall i :: 0 <= i < |p.shop.book.ledger| ==> p.shop.book.ledger[i].txn != Some(id))
    && var s := Jobs.Elapsed(p.shop, job);
       Confirm(rates, s.now, s.book, caller, id).Ok?
  }

  /** The confirmation's debit is still there later. */
  lemma DebitStays(rates: Rates, p: P.Platform, caller: PersonId, id: TxnId, job: Jobs.Step, after: seq<P.Step>)
    requires ConfirmsFirst(rates, p, caller, id, job)
    ensures var ledger, n := Later(rates, p, job, after).shop.book.ledger, |p.shop.book.ledger|;
            && n < |ledger| && ledger[n].kind == CommissionDebit
            && ledger[n].provider == p.shop.book.txns[id].provider && ledger[n].period == p.shop.now.month + job.months
            && ledger[n].amount == Commission(p.shop.book.txns[id].amount, rates.trigger)
  {
    assert job == Jobs.Step(Jobs.ConfirmTxn(caller, id), job.ticks, job.months);
    ConfirmationBooks(rates, p, caller, id, job.ticks, job.months);
    LedgerGrows(rates, P.Next(rates, p, P.JobStep(job)), after);
  }

  lemma LaterSound(rates: Rates, p: P.Platform, job: Jobs.Step, after: seq<P.Step>)
    requires S.Sound(P.DeskOf(p))
    ensures S.Sound(P.DeskOf(Later(rates, p, job, after)))
  {
    StaysSound(rates, p, [P.JobStep(job)] + after);
    OneThenRun(rates, p, P.JobStep(job), after);
  }

  lemma ConfirmedThenBilled(rates: Rates, p: P.Platform, caller: PersonId, id: TxnId, job: Jobs.Step, after: seq<P.Step>, group: seq<PersonId>)
    requires S.Sound(P.DeskOf(p)) && ConfirmsFirst(rates, p, caller, id, job) && p.shop.book.txns[id].provider in group
    requires !HasRow(Later(rates, p, job, after).rows, p.shop.book.txns[id].provider, p.shop.now.month + job.months)
    ensures var row := p.shop.book.txns[id];
            BillsAtLeast(rates, Later(rates, p, job, after), p.shop.now.month + job.months, group, row.provider, Commission(row.amount, rates.trigger))
  {
    DebitStays(rates, p, caller, id, job, after);
    LaterSound(rates, p, job, after);
    DebitIsBilled(rates, Later(rates, p, job, after), |p.shop.book.ledger|, group);
  }

  lemma OneThenRun(rates: Rates, p: P.Platform, step: P.Step, after: seq<P.Step>)
    ensures P.Run(rates, p, [step] + after) == P.Run(rates, P.Next(rates, p, step), after)
  {
    assert ([step] + after)[1..] == after;
  }

  /** A job confirmed in a month, anywhere in a run of the whole platform, is in that month's bill: if its
      provider has no settlement for the month when the month-end job runs over it, however much later, the
      job inserts one that is due, for the sum of the provider's debits of the month, this one included. */
  lemma ConfirmedJobIsBilled(rates: Rates, owners: map<RequestId, PersonId>, before: seq<P.Step>, caller: PersonId, id: TxnId,
                             job: Jobs.Step, after: seq<P.Step>, group: seq<PersonId>)
    requires var p := P.Run(rates, P.Opening(owners), before);
             && ConfirmsFirst(rates, p, caller, id, job) && p.shop.book.txns[id].provider in group
             && !HasRow(Later(rates, p, job, after).rows, p.shop.book.txns[id].provider, p.shop.now.month + job.months)
    ensures var p := P.Run(rates, P.Opening(owners), before);
            var row := p.shop.book.txns[id];
            BillsAtLeast(rates, Later(rates, p, job, after), p.shop.now.month + job.months, group, row.provider, Commission(row.amount, rates.trigger))
  {
    var p := P.Run(rates, P.Opening(owners), before);
    assert S.Sound(P.DeskOf(P.Opening(owners)));
    StaysSound(rates, P.Opening(owners), before);
    ConfirmedThenBilled(rates, p, caller, id, job, after, group);
  }

  lemma BilledForMonth(rates: Rates, p: P.Platform, month: nat, group: seq<PersonId>, who: PersonId)
    requires who in group && !HasRow(p.rows, who, month) && ChargedInMonth(p.shop.book.ledger, who, month) > 0
    ensures var billed := P.Next(rates, p, P.SettlementStep(S.GenerateForMonth(month, group)));
            exists i :: |p.rows| <= i < |billed.rows| && billed.rows[i].provider == who
                     && billed.rows[i].period == month && billed.rows[i].status == Due
                     && billed.rows[i].amountDue == ChargedInMonth(p.shop.book.ledger, who, month)
  {
    var ledger, after := p.shop.book.ledger, Generate(p.rows, p.shop.book.ledger, month, group);
    GenerateEffect(p.rows, ledger, month, group);
    assert P.Next(rates, p, P.SettlementStep(S.GenerateForMonth(month, group))).rows == after;
    assert forall j :: 0 <= j < |p.rows| ==> after[j] == p.rows[j];
    var i :| 0 <= i < |after| && after[i].provider == who && after[i].period == month;
    assert |p.rows| <= i;
  }
}
