/** Both halves on one ledger: the job and commission services append debits to it while settlement
    calls, interleaved at their statements, read it and append credits. */
module Platform {
  import opened Tables
  import opened Money
  import opened Ledger
  import opened Transactions
  import Jobs
  import Charges
  import Settlements
  import S = SettlementRuns
  import M = MonthlySettlements
  import B = BalanceRuns

  datatype Platform = Platform(shop: Jobs.Shop, rows: seq<Settlements.Settlement>, calls: map<S.CallId, S.Pending>)

  /** A step of either half. Debits and the passing of time come from the jobs alone. */
  datatype Step =
    | JobStep(job: Jobs.Step)
    | SettlementStep(settlement: S.Step)

  function DeskOf(p: Platform): S.Desk {
    S.Desk(p.shop.book.ledger, p.rows, p.calls, p.shop.now.month)
  }

  ghost function Next(rates: Rates, p: Platform, step: Step): Platform {
    match step
    case JobStep(job) => p.(shop := Jobs.Next(rates, p.shop, job))
    case SettlementStep(settlement) =>
      if settlement.Charge? || settlement.Wait? then p
      else
        var desk := S.Apply(DeskOf(p), settlement);
        Platform(p.shop.(book := p.shop.book.(ledger := desk.ledger)), desk.rows, desk.calls)
  }

  ghost function Run(rates: Rates, p: Platform, steps: seq<Step>): Platform
    decreases |steps|
  {
    if steps == [] then p else Run(rates, Next(rates, p, steps[0]), steps[1..])
  }

  function Opening(owners: map<RequestId, PersonId>): Platform {
    Platform(Jobs.Opening(owners), [], map[])
  }

  // ----- what the jobs do to the ledger ------------------------------------------------------

  predicate IsCharge(e: Entry) {
    e.kind.CommissionDebit? && ChecksHold(e) && Frozen(e)
  }

  /** The ledger is extended by charges and not otherwise touched. */
  predicate Extends(before: seq<Entry>, after: seq<Entry>) {
    && before <= after
    && forall i :: |before| <= i < |after| ==> IsCharge(after[i])
  }

  lemma ExtendsTransitive(a: seq<Entry>, b: seq<Entry>, c: seq<Entry>)
    requires Extends(a, b) && Extends(b, c)
    ensures Extends(a, c)
  {}

  lemma ConfirmExtends(rates: Rates, now: Instant, book: Book, caller: PersonId, id: TxnId)
    ensures Extends(book.ledger, After(book, Confirm(rates, now, book, caller, id)).ledger)
  {}

  lemma SettledAtExtends(rates: Rates, now: Instant, book: Book, b: BookingId, k: Jobs.Booking, owner: PersonId, id: TxnId, amount: Cents)
    requires id < |book.txns|
    ensures Extends(book.ledger, Jobs.SettledAt(rates, now, book, b, k, owner, id, amount).ledger)
  {
    var forced := Jobs.Forced(rates, now, book, id, b, owner, amount);
    assert Extends(book.ledger, forced.ledger);
    var confirmed := After(forced, Confirm(rates, now, forced, owner, id));
    ConfirmExtends(rates, now, forced, owner, id);
    ExtendsTransitive(book.ledger, forced.ledger, confirmed.ledger);
    ExtendsTransitive(book.ledger, confirmed.ledger, Jobs.BookOnPaid(rates, now, confirmed, b, k, Some(id)).ledger);
  }

  lemma SettledExtends(rates: Rates, now: Instant, book: Book, b: BookingId, k: Jobs.Booking, owner: PersonId)
    ensures Extends(book.ledger, Jobs.Settled(rates, now, book, b, k, owner).ledger)
  {
    var amount := Jobs.ResolveAmount(book.txns, k, b);
    match Jobs.Newest(book.txns, b, k.request)
    case Some(id) => SettledAtExtends(rates, now, book, b, k, owner, id, amount);
    case None =>
      if amount > 0 && k.provider.Some? {
        var inserted := book.(txns := book.txns + [Jobs.PaidRow(now, b, k, owner, k.provider.value, amount)]);
        SettledAtExtends(rates, now, inserted, b, k, owner, |book.txns|, amount);
      }
  }

  lemma ApplyExtends(rates: Rates, s: Jobs.Shop, call: Jobs.Call)
    ensures Extends(s.book.ledger, Jobs.Apply(rates, s, call).book.ledger)
  {
    match call
    case ConfirmTxn(caller, id) => ConfirmExtends(rates, s.now, s.book, caller, id);
    case ProviderConfirmPayment(id, received) =>
      if id in s.bookings && received {
        SettledExtends(rates, s.now, s.book, id, s.bookings[id], Jobs.OwnerOf(s, id));
      }
    case _ =>
  }

  /** Over a run of jobs alone, every debit stays the rounded share of its own frozen gross and rate. */
  lemma {:induction false} JobsFreeze(rates: Rates, s: Jobs.Shop, steps: seq<Jobs.Step>)
    requires AllFrozen(s.book.ledger)
    ensures AllFrozen(Jobs.Run(rates, s, steps).book.ledger)
    decreases |steps|
  {
    if steps != [] {
      ApplyExtends(rates, Jobs.Elapsed(s, steps[0]), steps[0].call);
      JobsFreeze(rates, Jobs.Next(rates, s, steps[0]), steps[1..]);
    }
  }

  // ----- settlements see the jobs as charges and time ----------------------------------------

  lemma {:induction false} ChargesRun(desk: S.Desk, added: seq<Entry>)
    requires forall i :: 0 <= i < |added| ==> IsCharge(added[i])
    ensures S.Run(desk, seq(|added|, i requires 0 <= i < |added| => S.Charge(added[i]))) == desk.(ledger := desk.ledger + added)
    decreases |added|
  {
    var steps := seq(|added|, i requires 0 <= i < |added| => S.Charge(added[i]));
    if added == [] {
      assert desk.ledger + added == desk.ledger;
    } else {
      var next, rest := desk.(ledger := desk.ledger + [added[0]]), added[1..];
      assert S.Apply(desk, steps[0]) == next;
      assert steps[1..] == seq(|rest|, i requires 0 <= i < |rest| => S.Charge(rest[i]));
      ChargesRun(next, rest);
      assert next.ledger + rest == desk.ledger + added;
    }
  }

  lemma {:induction false} DeskRunsJoin(desk: S.Desk, first: seq<S.Step>, second: seq<S.Step>)
    ensures S.Run(desk, first + second) == S.Run(S.Run(desk, first), second)
    decreases |first|
  {
    if first == [] {
      assert first + second == second;
    } else {
      assert (first + second)[1..] == first[1..] + second;
      DeskRunsJoin(S.Apply(desk, first[0]), first[1..], second);
    }
  }

  /** The settlement steps that one platform step amounts to. */
  lemma StepAsDeskRun(rates: Rates, p: Platform, step: Step) returns (steps: seq<S.Step>)
    ensures DeskOf(Next(rates, p, step)) == S.Run(DeskOf(p), steps)
    ensures !(step.SettlementStep? && step.settlement.BeginEnsure?) ==> M.NoEnsure(steps)
  {
    match step
    case SettlementStep(settlement) =>
      if settlement.Charge? || settlement.Wait? {
        steps := [];
      } else {
        steps := [settlement];
        assert steps[1..] == [];
        assert S.Run(S.Apply(DeskOf(p), settlement), []) == S.Apply(DeskOf(p), settlement);
        AdvanceKeepsMonth(DeskOf(p), settlement);
      }
    case JobStep(job) =>
      var before, after := p.shop.book.ledger, Jobs.Next(rates, p.shop, job).book.ledger;
      ApplyExtends(rates, Jobs.Elapsed(p.shop, job), job.call);
      var added := after[|before|..];
      var wait: seq<S.Step> := [S.Wait(job.months)];
      var charges := seq(|added|, i requires 0 <= i < |added| => S.Charge(added[i]));
      steps := wait + charges;
      var waited := S.Apply(DeskOf(p), wait[0]);
      assert wait[1..] == [];
      assert S.Run(waited, []) == waited;
      DeskRunsJoin(DeskOf(p), wait, charges);
      ChargesRun(waited, added);
      assert before + added == after;
      ClockKept(rates, Jobs.Elapsed(p.shop, job), job.call);
  }

  lemma AdvanceKeepsMonth(desk: S.Desk, step: S.Step)
    requires !step.Wait?
    ensures S.Apply(desk, step).month == desk.month
  {}

  lemma ClockKept(rates: Rates, s: Jobs.Shop, call: Jobs.Call)
    ensures Jobs.Apply(rates, s, call).now == s.now
  {}

  predicate NoEnsure(steps: seq<Step>) {
    forall i :: 0 <= i < |steps| ==> !(steps[i].SettlementStep? && steps[i].settlement.BeginEnsure?)
  }

  /** Every run of the platform is, for the settlements, a run of settlement steps. */
  lemma {:induction false} RunAsDeskRun(rates: Rates, p: Platform, steps: seq<Step>) returns (desk: seq<S.Step>)
    ensures DeskOf(Run(rates, p, steps)) == S.Run(DeskOf(p), desk)
    ensures NoEnsure(steps) ==> M.NoEnsure(desk)
    decreases |steps|
  {
    if steps == [] {
      desk := [];
    } else {
      var first := StepAsDeskRun(rates, p, steps[0]);
      var rest := RunAsDeskRun(rates, Next(rates, p, steps[0]), steps[1..]);
      desk := first + rest;
      DeskRunsJoin(DeskOf(p), first, rest);
      assert NoEnsure(steps) ==> NoEnsure(steps[1..]);
    }
  }

  // ----- jobs see the settlements as credits -------------------------------------------------

  predicate IsCredit(e: Entry) {
    e.kind.SettlementCredit? && e.txn.None? && e.booking.None?
  }

  lemma SettlementAddsCredit(desk: S.Desk, step: S.Step)
    requires !step.Charge?
    ensures var after := S.Apply(desk, step).ledger;
            after == desk.ledger || (|after| == |desk.ledger| + 1 && desk.ledger <= after && IsCredit(after[|desk.ledger|]))
  {}

  lemma CreditKeepsCharges(rates: Rates, links: Charges.Links, book: Book, e: Entry)
    requires Charges.Sound(rates, links, book) && IsCredit(e)
    ensures Charges.Sound(rates, links, book.(ledger := book.ledger + [e]))
  {
    forall id: TxnId ensures DebitCount(book.ledger + [e], id) == DebitCount(book.ledger, id) {
      TotalAppend(book.ledger, e, DebitColumn(id));
    }
  }

  lemma NextKeepsCharges(rates: Rates, p: Platform, step: Step)
    requires Charges.ShopSound(rates, p.shop) && AllFrozen(p.shop.book.ledger)
    ensures var after := Next(rates, p, step);
            Charges.ShopSound(rates, after.shop) && AllFrozen(after.shop.book.ledger)
  {
    match step
    case JobStep(job) =>
      var s := Jobs.Elapsed(p.shop, job);
      assert Charges.LinksOf(s) == Charges.LinksOf(p.shop);
      Charges.ApplySound(rates, s, job.call);
      ApplyExtends(rates, s, job.call);
    case SettlementStep(settlement) =>
      if !settlement.Charge? && !settlement.Wait? {
        var before, after := DeskOf(p).ledger, S.Apply(DeskOf(p), settlement).ledger;
        SettlementAddsCredit(DeskOf(p), settlement);
        assert Charges.LinksOf(Next(rates, p, step).shop) == Charges.LinksOf(p.shop);
        if after != before {
          assert after == before + [after[|before|]];
          CreditKeepsCharges(rates, Charges.LinksOf(p.shop), p.shop.book, after[|before|]);
        }
      }
  }

  lemma {:induction false} RunKeepsCharges(rates: Rates, p: Platform, steps: seq<Step>)
    requires Charges.ShopSound(rates, p.shop) && AllFrozen(p.shop.book.ledger)
    ensures Charges.ShopSound(rates, Run(rates, p, steps).shop) && AllFrozen(Run(rates, p, steps).shop.book.ledger)
    decreases |steps|
  {
    if steps != [] {
      NextKeepsCharges(rates, p, steps[0]);
      RunKeepsCharges(rates, Next(rates, p, steps[0]), steps[1..]);
    }
  }

  lemma ChargedOnce(rates: Rates, owners: map<RequestId, PersonId>, steps: seq<Step>, id: TxnId)
    ensures var book := Run(rates, Opening(owners), steps).shop.book;
            && DebitCount(book.ledger, id) <= 1
            && (id < |book.txns| && book.txns[id].status.Confirmed? && Commission(book.txns[id].amount, rates.service) >= 1 ==>
                  DebitCount(book.ledger, id) == 1)
  {
    RunKeepsCharges(rates, Opening(owners), steps);
    DebitCountPositive(Run(rates, Opening(owners), steps).shop.book.ledger, id);
  }

  lemma NeverAdjusted(rates: Rates, owners: map<RequestId, PersonId>, steps: seq<Step>)
    ensures NoAdjustments(Run(rates, Opening(owners), steps).shop.book.ledger)
  {
    var p := Run(rates, Opening(owners), steps);
    var asDesk := RunAsDeskRun(rates, Opening(owners), steps);
    S.RunSound(S.OPENING, asDesk);
    forall k | 0 <= k < |p.shop.book.ledger| ensures !p.shop.book.ledger[k].kind.Adjustment? {
      assert S.CreditFits(DeskOf(p).rows, DeskOf(p).ledger[k]);
    }
  }

  lemma BalanceAddsUp(rates: Rates, owners: map<RequestId, PersonId>, steps: seq<Step>, who: PersonId)
    ensures var ledger := Run(rates, Opening(owners), steps).shop.book.ledger;
            var b := BalanceFor(ledger, who);
            && b.owed == b.charged - b.settled
            && 2 * Abs(b.charged * RATE_SCALE - Total(ledger, ShareColumn(who))) <= RATE_SCALE * b.jobs
  {
    RunKeepsCharges(rates, Opening(owners), steps);
    NeverAdjusted(rates, owners, steps);
    OwedIsChargedMinusSettled(Run(rates, Opening(owners), steps).shop.book.ledger, who);
    RoundingIsBounded(Run(rates, Opening(owners), steps).shop.book.ledger, who);
  }

  /** The money of the whole platform, over every interleaving of all calls of all services: confirmed
      transactions are charged once; verified settlements are credited once, except those held by a
      call; the balance is charged minus settled, with commission within half a cent a job; and as long
      as every bill comes from the month-end job, no balance is negative. */
  lemma MoneyIsConserved(rates: Rates, owners: map<RequestId, PersonId>, steps: seq<Step>, id: TxnId, who: PersonId)
    ensures var p := Run(rates, Opening(owners), steps);
            var book, desk := p.shop.book, DeskOf(p);
            var b := BalanceFor(book.ledger, who);
            && DebitCount(book.ledger, id) <= 1
            && (id < |book.txns| && book.txns[id].status.Confirmed? && Commission(book.txns[id].amount, rates.service) >= 1 ==>
                  DebitCount(book.ledger, id) == 1)
            && S.VerifiedIds(desk) == S.CreditedIds(desk) + S.HeldIds(desk) && S.CreditedIds(desk) !! S.HeldIds(desk)
            && b.owed == b.charged - b.settled
            && 2 * Abs(b.charged * RATE_SCALE - Total(book.ledger, ShareColumn(who))) <= RATE_SCALE * b.jobs
            && (NoEnsure(steps) ==> b.owed >= 0)
  {
    ChargedOnce(rates, owners, steps, id);
    BalanceAddsUp(rates, owners, steps, who);
    var asDesk := RunAsDeskRun(rates, Opening(owners), steps);
    S.VerifiedIsCreditedPlusHeld(asDesk);
    if NoEnsure(steps) {
      M.MonthlyCreditsNeverExceedDebits(asDesk, who, 0);
    }
  }

  // ----- balances, whatever opens the bills --------------------------------------------------

  ghost predicate NeverNegative(rates: Rates, p: Platform, steps: seq<Step>)
    decreases |steps|
  {
    B.NoneNegative(p.shop.book.ledger) && (steps != [] ==> NeverNegative(rates, Next(rates, p, steps[0]), steps[1..]))
  }

  ghost predicate AllWithinBalance(rates: Rates, p: Platform, steps: seq<Step>)
    decreases |steps|
  {
    steps != [] ==>
      && (steps[0].SettlementStep? ==> B.WithinBalance(DeskOf(p), steps[0].settlement))
      && AllWithinBalance(rates, Next(rates, p, steps[0]), steps[1..])
  }

  lemma {:induction false} ChargesKeep(ledger: seq<Entry>, added: seq<Entry>)
    requires B.NoneNegative(ledger) && forall i :: 0 <= i < |added| ==> IsCharge(added[i])
    ensures B.NoneNegative(ledger + added)
    decreases |added|
  {
    if added == [] {
      assert ledger + added == ledger;
    } else {
      B.ChargeKeeps(ledger, added[0]);
      ChargesKeep(ledger + [added[0]], added[1..]);
      assert ledger + added == (ledger + [added[0]]) + added[1..];
    }
  }

  lemma NextKeepsIff(rates: Rates, p: Platform, step: Step)
    requires S.Sound(DeskOf(p)) && B.NoneNegative(p.shop.book.ledger)
    ensures B.NoneNegative(Next(rates, p, step).shop.book.ledger)
            <==> (step.SettlementStep? ==> B.WithinBalance(DeskOf(p), step.settlement))
  {
    match step
    case SettlementStep(settlement) => B.StepKeepsIff(DeskOf(p), settlement);
    case JobStep(job) =>
      var before, after := p.shop.book.ledger, Jobs.Next(rates, p.shop, job).book.ledger;
      ApplyExtends(rates, Jobs.Elapsed(p.shop, job), job.call);
      ChargesKeep(before, after[|before|..]);
      assert before + after[|before|..] == after;
  }

  lemma {:induction false} NeverNegativeFromIff(rates: Rates, p: Platform, steps: seq<Step>)
    requires S.Sound(DeskOf(p)) && B.NoneNegative(p.shop.book.ledger)
    ensures NeverNegative(rates, p, steps) <==> AllWithinBalance(rates, p, steps)
    decreases |steps|
  {
    if steps != [] {
      var next := Next(rates, p, steps[0]);
      NextKeepsIff(rates, p, steps[0]);
      if B.NoneNegative(next.shop.book.ledger) {
        var asDesk := StepAsDeskRun(rates, p, steps[0]);
        S.RunSound(DeskOf(p), asDesk);
        NeverNegativeFromIff(rates, next, steps[1..]);
      }
    }
  }

  /** Over every run of the whole platform, both sources of bills included: no balance is negative at any
      moment exactly if every credit is within its provider's balance when it is written. */
  lemma NeverNegativeIff(rates: Rates, owners: map<RequestId, PersonId>, steps: seq<Step>)
    ensures NeverNegative(rates, Opening(owners), steps) <==> AllWithinBalance(rates, Opening(owners), steps)
  {
    assert B.NoneNegative([]);
    NeverNegativeFromIff(rates, Opening(owners), steps);
  }
}
