/** Does a debit mean a confirmed transaction? Exactly which calls break that, over all runs. */
module DebitRuns {
  import opened Tables
  import opened Money
  import opened Ledger
  import opened Transactions
  import opened Jobs
  import opened Payments
  import opened JobExamples

  /** Every debit sits on a confirmed transaction. */
  ghost predicate DebitsConfirmed(book: Book) {
    forall i :: 0 <= i < |book.ledger| && book.ledger[i].kind.CommissionDebit? ==> OnConfirmed(book.txns, book.ledger[i])
  }

  predicate OnConfirmed(txns: seq<Txn>, e: Entry) {
    e.txn.Some? && e.txn.value < |txns| && txns[e.txn.value].status.Confirmed?
  }

  /** A debit sits on a row of the job. */
  predicate HasDebit(book: Book, b: BookingId, r: RequestId) {
    exists i :: 0 <= i < |book.ledger| && book.ledger[i].kind.CommissionDebit? && book.ledger[i].txn.Some?
             && book.ledger[i].txn.value < |book.txns| && Concerns(book.txns[book.ledger[i].txn.value], b, r)
  }

  /** The check before a call: a payment is refused only on a job without a debit, and confirmed only
      where no debit is booked on a row that stays unconfirmed. */
  predicate KeepsDebits(rates: Rates, s: Shop, call: Call) {
    call.ProviderConfirmPayment? && call.id in s.bookings ==>
      var k := s.bookings[call.id];
      if call.received then !BooksUnconfirmed(rates, s.book, call.id, k, OwnerOf(s, call.id))
      else !HasDebit(s.book, call.id, k.request)
  }

  // ----- the two calls that can break it -----------------------------------------------------

  /** Refusing a payment keeps every debit on a confirmed row exactly if the job has none. */
  lemma RefusedKeepsIff(s: Shop, b: BookingId)
    requires DebitsConfirmed(s.book) && b in s.bookings
    ensures DebitsConfirmed(Refused(s, b).book) <==> !HasDebit(s.book, b, s.bookings[b].request)
  {
    var r := s.bookings[b].request;
    var after := Refused(s, b).book;
    if HasDebit(s.book, b, r) {
      var i :| 0 <= i < |s.book.ledger| && s.book.ledger[i].kind.CommissionDebit? && s.book.ledger[i].txn.Some?
               && s.book.ledger[i].txn.value < |s.book.txns| && Concerns(s.book.txns[s.book.ledger[i].txn.value], b, r);
      assert !OnConfirmed(after.txns, after.ledger[i]);
    } else {
      forall i | 0 <= i < |after.ledger| && after.ledger[i].kind.CommissionDebit? ensures OnConfirmed(after.txns, after.ledger[i]) {
        assert OnConfirmed(s.book.txns, s.book.ledger[i]);
      }
    }
  }

  /** Rows may move as long as confirmed ones stay. */
  lemma RowsKeep(book: Book, txns: seq<Txn>)
    requires DebitsConfirmed(book) && |book.txns| <= |txns|
    requires forall i :: 0 <= i < |book.txns| && book.txns[i].status.Confirmed? ==> txns[i].status.Confirmed?
    ensures DebitsConfirmed(book.(txns := txns))
  {
    forall i | 0 <= i < |book.ledger| && book.ledger[i].kind.CommissionDebit? ensures OnConfirmed(txns, book.ledger[i]) {
      assert OnConfirmed(book.txns, book.ledger[i]);
    }
  }

  lemma AppendKeepsIff(book: Book, e: Entry)
    requires DebitsConfirmed(book) && e.kind.CommissionDebit?
    ensures DebitsConfirmed(book.(ledger := book.ledger + [e])) <==> OnConfirmed(book.txns, e)
  {
    var ledger := book.ledger + [e];
    assert ledger[|book.ledger|] == e;
    assert forall i :: 0 <= i < |book.ledger| ==> ledger[i] == book.ledger[i];
  }

  lemma ConfirmingUpdateKeeps(rates: Rates, now: Instant, book: Book, id: TxnId, t: Txn)
    requires DebitsConfirmed(book) && id < |book.txns| && t.status.Confirmed?
    requires UpdateRow(rates, now, book, id, t).Some?
    ensures DebitsConfirmed(UpdateRow(rates, now, book, id, t).value)
  {
    RowsKeep(book, book.txns[id := t]);
    AppendKeepsIff(book.(txns := book.txns[id := t]), TriggerEntry(rates, now, id, t));
  }

  lemma ConfirmKeeps(rates: Rates, now: Instant, book: Book, caller: PersonId, id: TxnId)
    requires DebitsConfirmed(book)
    ensures DebitsConfirmed(After(book, Confirm(rates, now, book, caller, id)))
  {
    if Confirm(rates, now, book, caller, id).Ok? {
      ConfirmingUpdateKeeps(rates, now, book, id,
        book.txns[id].(status := TxnStatus.Confirmed, confirmedAt := Some(now), confirmedBy := Some(caller)));
    }
  }

  lemma BeforeBookingKeeps(rates: Rates, now: Instant, book: Book, b: BookingId, k: Booking, owner: PersonId, id: TxnId)
    requires DebitsConfirmed(book) && id < |book.txns|
    ensures DebitsConfirmed(BeforeBooking(rates, now, book, b, k, owner, id))
  {
    var amount := ResolveAmount(book.txns, k, b);
    var row, last := ForcedRow(book.txns[id], now, b, owner, amount), LastResortRow(book.txns[id], now);
    if UpdateRow(rates, now, book, id, row).Some? {
      ConfirmingUpdateKeeps(rates, now, book, id, row);
    } else if UpdateRow(rates, now, book, id, last).Some? {
      ConfirmingUpdateKeeps(rates, now, book, id, last);
    }
    ConfirmKeeps(rates, now, Forced(rates, now, book, id, b, owner, amount), owner, id);
  }

  /** Confirming a payment keeps every debit on a confirmed row exactly if it books none on a row that
      it leaves unconfirmed. */
  lemma PaymentKeepsIff(rates: Rates, now: Instant, book: Book, b: BookingId, k: Booking, owner: PersonId)
    requires DebitsConfirmed(book)
    ensures DebitsConfirmed(Settled(rates, now, book, b, k, owner)) <==> !BooksUnconfirmed(rates, book, b, k, owner)
  {
    match Newest(book.txns, b, k.request)
    case None =>
      var amount := ResolveAmount(book.txns, k, b);
      InsertedOutcome(rates, now, book, b, k, owner);
      if amount > 0 && k.provider.Some? {
        var inserted := book.(txns := book.txns + [PaidRow(now, b, k, owner, k.provider.value, amount)]);
        RowsKeep(book, inserted.txns);
        BookingKeepsIff(rates, now, inserted, b, k, |book.txns|);
      }
    case Some(id) =>
      var confirmed := BeforeBooking(rates, now, book, b, k, owner, id);
      BeforeBookingKeeps(rates, now, book, b, k, owner, id);
      BeforeBookingOutcome(rates, now, book, b, k, owner, id);
      BookingKeepsIff(rates, now, confirmed, b, k, id);
  }

  lemma BookingKeepsIff(rates: Rates, now: Instant, book: Book, b: BookingId, k: Booking, id: TxnId)
    requires DebitsConfirmed(book) && id < |book.txns|
    ensures DebitsConfirmed(BookOnPaid(rates, now, book, b, k, Some(id)))
            <==> NothingToBook(rates, book, b, k, Some(id)) || book.txns[id].status.Confirmed?
  {
    BookOnPaidOutcome(rates, now, book, b, k, Some(id));
    if k.provider.Some? {
      AppendKeepsIff(book, PaidEntry(rates, now, b, k.provider.value, Some(id), ResolveAmount(book.txns, k, b)));
    }
  }

  // ----- whole runs --------------------------------------------------------------------------

  /** Every call keeps the property exactly if its check holds; for all calls but the two answers to a
      payment that is always. */
  lemma ApplyKeepsIff(rates: Rates, s: Shop, call: Call)
    requires DebitsConfirmed(s.book)
    ensures DebitsConfirmed(Apply(rates, s, call).book) <==> KeepsDebits(rates, s, call)
  {
    match call
    case ProviderConfirmPayment(b, received) =>
      if b in s.bookings {
        RefusedKeepsIff(s, b);
        PaymentKeepsIff(rates, s.now, s.book, b, s.bookings[b], OwnerOf(s, b));
      }
    case ConfirmTxn(caller, id) => ConfirmKeeps(rates, s.now, s.book, caller, id);
    case _ => OtherCallKeeps(rates, s, call);
  }

  /** The other calls write no debit and leave confirmed rows confirmed. */
  lemma OtherCallKeeps(rates: Rates, s: Shop, call: Call)
    requires DebitsConfirmed(s.book) && !call.ProviderConfirmPayment? && !call.ConfirmTxn?
    ensures DebitsConfirmed(Apply(rates, s, call).book)
  {
    assert Apply(rates, s, call).book.ledger == s.book.ledger;
    RowsKeep(s.book, Apply(rates, s, call).book.txns);
  }

  ghost predicate ConfirmedThroughout(rates: Rates, s: Shop, steps: seq<Step>)
    decreases |steps|
  {
    && DebitsConfirmed(s.book)
    && (steps != [] ==> ConfirmedThroughout(rates, Next(rates, s, steps[0]), steps[1..]))
  }

  ghost predicate AllKeepDebits(rates: Rates, s: Shop, steps: seq<Step>)
    decreases |steps|
  {
    steps != [] ==>
      KeepsDebits(rates, Elapsed(s, steps[0]), steps[0].call) && AllKeepDebits(rates, Next(rates, s, steps[0]), steps[1..])
  }

  lemma {:induction false} RunKeepsIff(rates: Rates, s: Shop, steps: seq<Step>)
    requires DebitsConfirmed(s.book)
    ensures ConfirmedThroughout(rates, s, steps) <==> AllKeepDebits(rates, s, steps)
    decreases |steps|
  {
    if steps != [] {
      ApplyKeepsIff(rates, Elapsed(s, steps[0]), steps[0].call);
      if DebitsConfirmed(Next(rates, s, steps[0]).book) {
        RunKeepsIff(rates, Next(rates, s, steps[0]), steps[1..]);
      }
    }
  }

  /** Over all runs: at every moment every debit sits on a confirmed transaction exactly if no payment is
      refused on a job that has a debit and none books one on a row that it leaves unconfirmed. */
  lemma DebitMeansConfirmedIff(rates: Rates, owners: map<RequestId, PersonId>, steps: seq<Step>)
    ensures ConfirmedThroughout(rates, Opening(owners), steps) <==> AllKeepDebits(rates, Opening(owners), steps)
  {
    RunKeepsIff(rates, Opening(owners), steps);
  }

  /** A job billed at 100.00, paid and then refused: the debit stays and its transaction is disputed. */
  lemma RefusedAfterPaid(owner: PersonId, provider: PersonId)
    ensures var steps := BillingSteps(provider, 10_000) + [Now(ProviderConfirmPayment(0, true)), Now(ProviderConfirmPayment(0, false))];
            var book := Run(SOURCE_RATES, Opening(map[0 := owner]), steps).book;
            && |book.ledger| == 1 && book.ledger[0].kind.CommissionDebit? && book.ledger[0].txn == Some(0)
            && |book.txns| == 1 && book.txns[0].status.Disputed?
  {
    var billed := BilledJob(owner, provider, 10_000);
    var paid := Apply(SOURCE_RATES, billed, ProviderConfirmPayment(0, true));
    BilledThen(SOURCE_RATES, owner, provider, 10_000, ProviderConfirmPayment(0, true), ProviderConfirmPayment(0, false));
    PaidJob(SOURCE_RATES, owner, provider, 10_000);
    assert Commission(10_000, TRIGGER_RATE) == 500;
  }
}
