/** The services as they run, call by call: a database of mutable tables, and methods that read and
    write it statement by statement. Each is proved against its specification in Transactions, Jobs
    or Settlements, so what is proved of runs of those holds of runs of these. */
module Backend {
  import opened Tables
  import opened Money
  import opened Ledger
  import opened Transactions
  import J = Jobs
  import S = Settlements
  import C = Charges

  /** The call did what its specification says, and reported the specification's error. */
  predicate Performed(before: J.Shop, after: J.Shop, outcome: Result<J.Shop, J.JobError>, error: Option<J.JobError>) {
    && after == J.AfterJob(before, outcome)
    && error == match outcome case Ok(_) => None case Err(e) => Some(e)
  }

  predicate IsWork(call: J.Call) {
    || call.ConfirmArrival? || call.StartService? || call.FinishService? || call.ConfirmSatisfaction?
    || call.ProviderDeny? || call.CustomerUnsatisfied? || call.RestartService?
  }

  class Database {
    const rates: Rates
    var owners: map<RequestId, PersonId>
    var bookings: map<BookingId, J.Booking>
    var txns: seq<Txn>
    var ledger: seq<Entry>
    var settlements: seq<S.Settlement>
    var now: Instant

    /** The job and commission tables as a value. */
    function Shop(): J.Shop
      reads this
    {
      J.Shop(owners, bookings, Book(txns, ledger), now)
    }

    constructor (rates: Rates, owners: map<RequestId, PersonId>)
      ensures this.rates == rates && Shop() == J.Opening(owners) && settlements == []
    {
      this.rates := rates;
      this.owners := owners;
      bookings, txns, ledger, settlements, now := map[], [], [], [], Instant(0, 0);
    }

    // ----- service_transactions and the trigger ----------------------------------------------

    /** `insert into commission_ledger ... on conflict do nothing`. */
    method InsertEntry(e: Entry) returns (accepted: bool)
      modifies this`ledger
      ensures accepted <==> Insert(old(ledger), e).Some?
      ensures ledger == if accepted then Insert(old(ledger), e).value else old(ledger)
    {
      if (e.kind.CommissionDebit? && e.amount <= 0) || (e.kind.SettlementCredit? && e.amount >= 0) {
        return false;
      }
      if !Collides(ledger, e) {
        ledger := ledger + [e];
      }
      return true;
    }

    /** An update of one transaction row, with its trigger. */
    method UpdateTxn(id: TxnId, t: Txn) returns (accepted: bool)
      requires id < |txns|
      modifies this`txns, this`ledger
      ensures var outcome := UpdateRow(rates, now, Book(old(txns), old(ledger)), id, t);
              && (accepted <==> outcome.Some?)
              && Book(txns, ledger) == if accepted then outcome.value else Book(old(txns), old(ledger))
    {
      if t.amount <= 0 || (t.status.Confirmed? && (t.confirmedAt.None? || t.confirmedBy.None?)) {
        return false;
      }
      if t.status.Confirmed? && !txns[id].status.Confirmed? {
        var booked := InsertEntry(TriggerEntry(rates, now, id, t));
        if !booked {
          return false;
        }
      }
      txns := txns[id := t];
      return true;
    }

    method RecordService(provider: PersonId, input: RecordInput) returns (outcome: Result<TxnId, ServiceError>)
      modifies this`txns
      ensures var spec := Transactions.RecordService(J.DirectoryOf(old(Shop())), old(txns), provider, input);
              && txns == AfterRecord(old(txns), spec)
              && outcome == match spec case Ok(pair) => Ok(pair.1) case Err(e) => Err(e)
    {
      if input.amount <= 0 {
        return Err(AmountNotPositive);
      }
      if input.service == "" {
        return Err(ServiceNameMissing);
      }
      var owner := input.owner;
      if owner.None? && input.request.Some? && input.request.value in owners {
        owner := Some(owners[input.request.value]);
      }
      if owner.None? && input.booking.Some? && input.booking.value in bookings
         && bookings[input.booking.value].request in owners {
        owner := Some(owners[bookings[input.booking.value].request]);
      }
      if owner.None? {
        return Err(OwnerUnresolved);
      }
      if input.booking.Some? {
        var existing := NewestAwaiting(txns, input.booking.value);
        if existing.Some? {
          var row := txns[existing.value];
          txns := txns[existing.value :=
            row.(amount := input.amount, service := input.service, provider := provider, owner := owner.value)];
          return Ok(existing.value);
        }
      }
      if (input.booking.Some? && input.booking.value !in bookings) || (input.request.Some? && input.request.value !in owners) {
        return Err(CreateFailed);
      }
      txns := txns + [Txn(input.booking, input.request, owner.value, provider, input.service, input.amount,
                          AwaitingConfirmation, None, None)];
      return Ok(|txns| - 1);
    }

    method MarkConfirmed(id: TxnId, actor: PersonId) returns (error: Option<ServiceError>)
      modifies this`txns, this`ledger
      ensures var spec := Transactions.MarkConfirmed(rates, now, Book(old(txns), old(ledger)), id, actor);
              && Book(txns, ledger) == After(Book(old(txns), old(ledger)), spec)
              && error == match spec case Ok(_) => None case Err(e) => Some(e)
    {
      if id >= |txns| || !txns[id].status.AwaitingConfirmation? {
        return Some(NotAwaiting);
      }
      var accepted := UpdateTxn(id, txns[id].(status := Confirmed, confirmedAt := Some(now), confirmedBy := Some(actor)));
      return if accepted then None else Some(CommissionRejected);
    }

    method Confirm(caller: PersonId, id: TxnId) returns (error: Option<ServiceError>)
      modifies this`txns, this`ledger
      ensures var spec := Transactions.Confirm(rates, now, Book(old(txns), old(ledger)), caller, id);
              && Book(txns, ledger) == After(Book(old(txns), old(ledger)), spec)
              && error == match spec case Ok(_) => None case Err(e) => Some(e)
    {
      if id >= |txns| {
        return Some(NotFound);
      }
      if txns[id].owner != caller {
        return Some(NotCarOwner);
      }
      match txns[id].status {
        case Confirmed => return Some(AlreadyConfirmed);
        case Cancelled => return Some(NotConfirmable);
        case Disputed => return Some(NotConfirmable);
        case AwaitingConfirmation =>
      }
      error := MarkConfirmed(id, caller);
    }

    method Dispute(caller: PersonId, id: TxnId) returns (error: Option<ServiceError>)
      modifies this`txns
      ensures var spec := Transactions.Dispute(Book(old(txns), old(ledger)), caller, id);
              && Book(txns, ledger) == After(Book(old(txns), old(ledger)), spec)
              && error == match spec case Ok(_) => None case Err(e) => Some(e)
    {
      if id >= |txns| {
        return Some(NotFound);
      }
      if txns[id].owner != caller {
        return Some(NotCarOwner);
      }
      if txns[id].status.Confirmed? {
        return Some(AlreadyConfirmed);
      }
      if !txns[id].status.AwaitingConfirmation? {
        return Some(NotAwaiting);
      }
      txns := txns[id := txns[id].(status := Disputed)];
      return None;
    }

    // ----- the job lifecycle service ---------------------------------------------------------

    /** The loop over a row of a transition table. */
    method Lists(moves: seq<J.Phase>, to: J.Phase) returns (found: bool)
      ensures found <==> to in moves
    {
      found := false;
      var i := 0;
      while i < |moves| && !found
        invariant 0 <= i <= |moves|
        invariant found <==> to in moves[..i]
      {
        if moves[i] == to {
          found := true;
        }
        i := i + 1;
      }
      assert found <==> to in moves;
    }

    /** canTransition: the two tables, searched in turn. */
    method CanTransition(from: J.Phase, to: J.Phase) returns (ok: bool)
      ensures ok == J.CanTransition(from, to)
    {
      if from == to {
        return true;
      }
      ok := Lists(J.JobTransitions(from), to);
      if !ok {
        ok := Lists(J.LegacyTransitions(from), to);
      }
    }

    /** `update bookings set ... where id = $1`. */
    method UpdateBooking(b: BookingId, k: J.Booking)
      requires b in bookings
      modifies this`bookings
      ensures Shop() == J.Put(old(Shop()), b, k)
    {
      bookings := bookings[b := k];
    }

    method ConfirmArrival(b: BookingId, role: J.Role) returns (error: Option<J.JobError>)
      modifies this`bookings
      ensures Performed(old(Shop()), Shop(), J.DoConfirmArrival(old(Shop()), b, role), error)
    {
      if b !in bookings {
        return Some(J.BookingNotFound);
      }
      var snap := bookings[b];
      if snap.garageVisit && role != J.CarOwner {
        if role == J.Provider {
          return Some(J.WrongActor);
        }
      }
      if !snap.garageVisit && role == J.CarOwner {
        return Some(J.WrongActor);
      }
      var ok := CanTransition(snap.phase, J.Arrived);
      if !ok && snap.phase != J.Scheduled && snap.phase != J.EnRoute && snap.phase != J.AwaitingCustomer {
        return Some(J.WrongPhase);
      }
      UpdateBooking(b, snap.(phase := J.Arrived));
      return None;
    }

    method StartService(b: BookingId) returns (error: Option<J.JobError>)
      modifies this`bookings
      ensures Performed(old(Shop()), Shop(), J.DoStart(old(Shop()), b), error)
    {
      if b !in bookings {
        return Some(J.BookingNotFound);
      }
      if bookings[b].phase != J.Arrived {
        return Some(J.WrongPhase);
      }
      UpdateBooking(b, bookings[b].(phase := J.InProgress, startedAt := Some(now.tick)));
      return None;
    }

    method FinishService(b: BookingId) returns (error: Option<J.JobError>)
      modifies this`bookings
      ensures Performed(old(Shop()), Shop(), J.DoFinish(old(Shop()), b), error)
    {
      if b !in bookings {
        return Some(J.BookingNotFound);
      }
      if bookings[b].phase != J.InProgress {
        return Some(J.WrongPhase);
      }
      UpdateBooking(b, bookings[b].(phase := J.AwaitingSatisfaction, completedAt := Some(now.tick)));
      return None;
    }

    /** Two updates: the flag, then the phase. */
    method ConfirmSatisfaction(b: BookingId) returns (error: Option<J.JobError>)
      modifies this`bookings
      ensures Performed(old(Shop()), Shop(), J.DoSatisfy(old(Shop()), b), error)
    {
      if b !in bookings {
        return Some(J.BookingNotFound);
      }
      var snap := bookings[b];
      var okPhase := {J.AwaitingSatisfaction, J.Completed, J.Finished, J.Done};
      if snap.phase !in okPhase && snap.phase != J.InProgress {
        if snap.completedAt.None? {
          return Some(J.WrongPhase);
        }
      }
      UpdateBooking(b, snap.(satisfied := true));
      UpdateBooking(b, bookings[b].(phase := J.Billed));
      return None;
    }

    method ProviderDeny(b: BookingId) returns (error: Option<J.JobError>)
      modifies this`bookings
      ensures Performed(old(Shop()), Shop(), J.DoDeny(old(Shop()), b), error)
    {
      if b !in bookings {
        return Some(J.BookingNotFound);
      }
      UpdateBooking(b, bookings[b].(phase := J.Phase.Cancelled));
      return None;
    }

    method CustomerUnsatisfied(b: BookingId) returns (error: Option<J.JobError>)
      modifies this`bookings
      ensures Performed(old(Shop()), Shop(), J.DoUnsatisfied(old(Shop()), b), error)
    {
      if b !in bookings {
        return Some(J.BookingNotFound);
      }
      UpdateBooking(b, bookings[b].(phase := J.NeedsRework, satisfied := false));
      return None;
    }

    method RestartService(b: BookingId) returns (error: Option<J.JobError>)
      modifies this`bookings
      ensures Performed(old(Shop()), Shop(), J.DoRestart(old(Shop()), b), error)
    {
      if b !in bookings {
        return Some(J.BookingNotFound);
      }
      UpdateBooking(b, bookings[b].(phase := J.InProgress, startedAt := Coalesce(bookings[b].startedAt, Some(now.tick))));
      return None;
    }

    // ----- the booking service ---------------------------------------------------------------

    /** RecordService on behalf of a job. For a positive amount it cannot fail where the booking's
        request exists, so the direct upsert that SetBill falls back to never runs. */
    method RecordForJob(b: BookingId, provider: PersonId, amount: Cents) returns (recorded: bool)
      requires b in bookings
      modifies this`txns
      ensures Shop() == J.RecordForJob(old(Shop()), b, provider, amount)
      ensures bookings[b].request in owners && amount > 0 ==> recorded
    {
      var outcome := RecordService(provider, J.JobInput(Shop(), b, amount));
      recorded := outcome.Ok?;
    }

    method AutoBill(b: BookingId, q: J.Quote)
      modifies this`txns
      ensures Shop() == J.DoAutoBill(old(Shop()), b, q)
    {
      if b !in bookings {
        return;
      }
      var snap := bookings[b];
      if J.AlreadyBilled(txns, b, snap.request) || snap.provider.None? {
        return;
      }
      var amount := q.offerPrice;
      if amount <= 0 {
        amount := q.listPrice;
      }
      if q.travel > 0 && q.hasMechanic {
        amount := amount + q.travel;
      }
      if amount <= 0 {
        return;
      }
      var _ := RecordForJob(b, snap.provider.value, amount);
    }

    method SetStatus(b: BookingId, to: J.Phase, q: J.Quote) returns (error: Option<J.JobError>)
      modifies this`bookings, this`txns
      ensures Performed(old(Shop()), Shop(), J.DoSetStatus(old(Shop()), b, to, q), error)
    {
      if b !in bookings {
        return Some(J.BookingNotFound);
      }
      var booking := bookings[b];
      if booking.phase == to {
        if to == J.Completed {
          AutoBill(b, q);
        }
        return None;
      }
      var ok := Lists(J.BookingTransitions(booking.phase), to);
      if !ok && booking.phase == J.Scheduled && to == J.Completed {
        ok := true;
      }
      if !ok {
        return Some(J.IllegalTransition);
      }
      UpdateBooking(b, J.Stamped(booking, to, now.tick));
      if to == J.Completed {
        AutoBill(b, q);
      }
      return None;
    }

    // ----- billing and payment ---------------------------------------------------------------

    method SetBill(b: BookingId, amount: Cents) returns (error: Option<J.JobError>)
      modifies this`bookings, this`txns
      ensures Performed(old(Shop()), Shop(), J.DoSetBill(old(Shop()), b, amount), error)
    {
      if b !in bookings {
        return Some(J.BookingNotFound);
      }
      var snap := bookings[b];
      if amount <= 0 {
        return Some(J.BadAmount);
      }
      if !J.OkToBill(snap) {
        return Some(J.WrongPhase);
      }
      UpdateBooking(b, snap.(bill := Some(amount), phase := J.AwaitingPayment, satisfied := true));
      if snap.provider.Some? {
        var recorded := RecordForJob(b, snap.provider.value, amount);
        assert J.RequestsExist(old(Shop())) ==> recorded;
      }
      return None;
    }

    method CustomerMarksPaid(b: BookingId) returns (error: Option<J.JobError>)
      modifies this`bookings, this`txns
      ensures Performed(old(Shop()), Shop(), J.DoMarksPaid(old(Shop()), b), error)
    {
      if b !in bookings {
        return Some(J.BookingNotFound);
      }
      UpdateBooking(b, bookings[b].(phase := J.CustomerClaimsPaid));
      txns := J.Linked(txns, b, bookings[b].request);
      return None;
    }

    /** The exists-query, and the insert that ignores a conflict. A rejected insert is tried again with
        fewer columns, which fails the same check: the retry has no effect on the outcome. */
    method BookCommissionOnPaid(b: BookingId, snap: J.Booking, id: Option<TxnId>)
      modifies this`ledger
      ensures Book(txns, ledger) == J.BookOnPaid(rates, now, Book(old(txns), old(ledger)), b, snap, id)
    {
      var amount := J.ResolveAmount(txns, snap, b);
      if amount <= 0 || snap.provider.None? || J.AlreadyBooked(ledger, id, b) {
        return;
      }
      var e := J.PaidEntry(rates, now, b, snap.provider.value, id, amount);
      var booked := InsertEntry(e);
      if !booked {
        var _ := InsertEntry(e.(txn := None, rate := None, gross := None));
      }
    }

    /** With the money received: mark the booking paid, find or insert its transaction, force that to
        confirmed, try the ordinary confirmation, and book the commission if nothing else has. */
    method ProviderConfirmPayment(b: BookingId, received: bool) returns (error: Option<J.JobError>)
      modifies this`bookings, this`txns, this`ledger
      ensures b !in old(bookings) ==> Shop() == old(Shop()) && error == Some(J.BookingNotFound)
      ensures b in old(bookings) && !received ==> Shop() == J.Refused(old(Shop()), b) && error == Some(J.NotReceived)
      ensures b in old(bookings) && received ==> Performed(old(Shop()), Shop(), J.DoConfirmPayment(rates, old(Shop()), b), error)
    {
      if b !in bookings {
        return Some(J.BookingNotFound);
      }
      var snap := bookings[b];
      if !received {
        UpdateBooking(b, snap.(phase := J.PaymentRejected));
        txns := J.AllDisputed(txns, b, snap.request);
        return Some(J.NotReceived);
      }
      var owner := J.OwnerOf(Shop(), b);
      var amount := J.ResolveAmount(txns, snap, b);
      UpdateBooking(b, snap.(phase := J.Paid, paymentConfirmed := true));
      var id := J.Newest(txns, b, snap.request);
      if id.None? && amount > 0 && snap.provider.Some? {
        id := Some(|txns|);
        txns := txns + [J.PaidRow(now, b, snap, owner, snap.provider.value, amount)];
      }
      if id.Some? {
        var forced := UpdateTxn(id.value, J.ForcedRow(txns[id.value], now, b, owner, amount));
        if !forced {
          var _ := UpdateTxn(id.value, J.LastResortRow(txns[id.value], now));
        }
        var _ := Confirm(owner, id.value);
      }
      BookCommissionOnPaid(b, snap, id);
      return None;
    }

    // ----- the whole service -----------------------------------------------------------------

    /** CreateBooking, for a request that exists and has no booking yet. */
    method OpenBooking(b: BookingId, request: RequestId, garageVisit: bool, provider: Option<PersonId>)
      modifies this`bookings
      ensures Shop() == J.Apply(rates, old(Shop()), J.OpenBooking(b, request, garageVisit, provider))
    {
      if b in bookings || request !in owners || J.RequestTaken(Shop(), request) {
        return;
      }
      bookings := bookings[b := J.Booking(request, garageVisit, provider, J.Scheduled, None, None, None, false, false)];
    }

    /** The calls that move a booking through its phases. */
    method ServeWork(call: J.Call)
      requires IsWork(call)
      modifies this`bookings
      ensures Shop() == J.Apply(rates, old(Shop()), call)
    {
      match call {
        case ConfirmArrival(b, role) => var _ := ConfirmArrival(b, role);
        case StartService(b) => var _ := StartService(b);
        case FinishService(b) => var _ := FinishService(b);
        case ConfirmSatisfaction(b) => var _ := ConfirmSatisfaction(b);
        case ProviderDeny(b) => var _ := ProviderDeny(b);
        case CustomerUnsatisfied(b) => var _ := CustomerUnsatisfied(b);
        case RestartService(b) => var _ := RestartService(b);
      }
    }

    /** The calls that bill, record and settle payments, and that open bookings. */
    method ServeMoney(call: J.Call)
      requires !IsWork(call)
      modifies this`bookings, this`txns, this`ledger
      ensures Shop() == J.Apply(rates, old(Shop()), call)
    {
      match call {
        case OpenBooking(b, request, garageVisit, provider) => OpenBooking(b, request, garageVisit, provider);
        case Record(recorder, input) => var _ := RecordService(recorder, input);
        case ConfirmTxn(caller, id) => var _ := Confirm(caller, id);
        case DisputeTxn(caller, id) => var _ := Dispute(caller, id);
        case SetStatus(b, to, quote) => var _ := SetStatus(b, to, quote);
        case AutoBill(b, quote) => AutoBill(b, quote);
        case SetBill(b, amount) => var _ := SetBill(b, amount);
        case CustomerMarksPaid(b) => var _ := CustomerMarksPaid(b);
        case ProviderConfirmPayment(b, received) => var _ := ProviderConfirmPayment(b, received);
      }
    }

    method Wait(step: J.Step)
      modifies this`now
      ensures Shop() == J.Elapsed(old(Shop()), step)
    {
      now := Instant(now.tick + step.ticks, now.month + step.months);
    }

    method Perform(call: J.Call)
      modifies this`bookings, this`txns, this`ledger
      ensures Shop() == J.Apply(rates, old(Shop()), call)
    {
      if IsWork(call) {
        ServeWork(call);
      } else {
        ServeMoney(call);
      }
    }

    /** One call, some time after the last: a step of a run of Jobs, which keeps every confirmed
        transaction charged once. */
    method Serve(step: J.Step)
      modifies this`bookings, this`txns, this`ledger, this`now
      ensures Shop() == J.Next(rates, old(Shop()), step)
      ensures C.ShopSound(rates, old(Shop())) ==> C.ShopSound(rates, Shop())
    {
      Wait(step);
      ghost var waited := Shop();
      assert C.LinksOf(waited) == C.LinksOf(old(Shop()));
      Perform(step.call);
      if C.ShopSound(rates, waited) {
        C.ApplySound(rates, waited, step.call);
      }
    }

    // ----- settlements -----------------------------------------------------------------------

    method SubmitSettlement(provider: PersonId, id: SettlementId, receipt: bool) returns (error: Option<S.SettlementError>)
      modifies this`settlements
      ensures match S.SubmitSettlement(old(settlements), provider, id, receipt)
              case Ok(rows) => settlements == rows && error == None
              case Err(e) => settlements == old(settlements) && error == Some(e)
    {
      if id >= |settlements| {
        return Some(S.NotFound);
      }
      if settlements[id].provider != provider {
        return Some(S.NotYours);
      }
      if settlements[id].status.Verified? {
        return Some(S.Closed);
      }
      if !receipt {
        return Some(S.NoReceipt);
      }
      settlements := settlements[id := settlements[id].(status := S.Submitted)];
      return None;
    }

    method VerifySettlement(id: SettlementId) returns (error: Option<S.SettlementError>)
      modifies this`settlements, this`ledger
      ensures var (rows, entries, outcome) := S.VerifySettlement(old(settlements), old(ledger), id);
              && settlements == rows && ledger == entries
              && error == match outcome case Ok(_) => None case Err(e) => Some(e)
    {
      if id >= |settlements| {
        return Some(S.NotFound);
      }
      var st := settlements[id];
      if st.status.Verified? {
        return Some(S.Closed);
      }
      settlements := settlements[id := settlements[id].(status := S.Verified)];
      if -st.amountDue >= 0 {
        return Some(S.CreditRejected);
      }
      ledger := ledger + [Entry(st.provider, SettlementCredit, -st.amountDue, None, Some(id), None, None, st.period, None)];
      return None;
    }

    method EnsureOpenSettlement(provider: PersonId) returns (outcome: Result<SettlementId, S.SettlementError>)
      modifies this`settlements
      ensures (settlements, outcome) == S.EnsureOpenSettlement(old(settlements), old(ledger), provider, old(now).month)
    {
      var owed := BalanceFor(ledger, provider).owed;
      if owed <= 0 {
        return Err(S.NothingOwed);
      }
      var list := S.ListForProvider(settlements, provider);
      var i := 0;
      while i < |list|
        invariant 0 <= i <= |list|
        invariant S.FirstOpen(settlements, list) == S.FirstOpen(settlements, list[i..])
      {
        var st := settlements[list[i]];
        if st.status.Due? || st.status.Submitted? || st.status.Overdue? {
          return Ok(list[i]);
        }
        i := i + 1;
      }
      var existing := S.RowFor(settlements, provider, now.month);
      if existing.Some? {
        var id := existing.value;
        if owed > settlements[id].amountDue {
          settlements := settlements[id := settlements[id].(amountDue := owed)];
        } else {
          assert settlements[id := settlements[id]] == settlements;
        }
        return Ok(id);
      }
      settlements := settlements + [S.Settlement(provider, now.month, owed, S.Due)];
      return Ok(|settlements| - 1);
    }

    /** The insert-select of the month-end job, row by row in the order of the grouping; it reports how
        many rows it inserted. */
    method GenerateForMonth(month: nat, group: seq<PersonId>) returns (inserted: nat)
      modifies this`settlements
      ensures settlements == S.Generate(old(settlements), old(ledger), month, group)
      ensures inserted == |settlements| - |old(settlements)|
    {
      inserted := 0;
      assert group[0..] == group;
      for i := 0 to |group|
        invariant S.Generate(settlements, ledger, month, group[i..]) == S.Generate(old(settlements), ledger, month, group)
        invariant |settlements| == |old(settlements)| + inserted && ledger == old(ledger)
      {
        var total := ChargedInMonth(ledger, group[i], month);
        if total > 0 && S.RowFor(settlements, group[i], month).None? {
          settlements := settlements + [S.Settlement(group[i], month, total, S.Due)];
          inserted := inserted + 1;
        }
        assert group[i..][1..] == group[i + 1..];
      }
    }
  }
}
