/** Where debits sit: on a row of their provider that has left awaiting_confirmation, and so is past
    correction, except where the payment path books on a row that it could not confirm. */
module ChargedProviders {
  import opened Tables
  import opened Money
  import opened Ledger
  import opened Transactions
  import opened Jobs
  import opened Charges
  import opened Payments
  import opened JobExamples

  /** Every debit sits on a row that has left awaiting_confirmation, and names that row's provider. */
  ghost predicate Attributed(book: Book) {
    forall i :: 0 <= i < |book.ledger| && book.ledger[i].kind.CommissionDebit? ==>
      && book.ledger[i].txn.Some? && book.ledger[i].txn.value < |book.txns|
      && var row := book.txns[book.ledger[i].txn.value];
         row.provider == book.ledger[i].provider && !row.status.AwaitingConfirmation?
  }

  /** The payment path is about to book a debit on a row that it leaves unconfirmed, and that row is
      still awaiting or names another provider. */
  predicate Strands(rates: Rates, book: Book, b: BookingId, k: Booking, owner: PersonId) {
    && BooksUnconfirmed(rates, book, b, k, owner)
    && var row := book.txns[Newest(book.txns, b, k.request).value];
       row.status.AwaitingConfirmation? || Some(row.provider) != k.provider
  }

  // ----- steps -------------------------------------------------------------------------------

  /** Rows may move and grow as long as rows with a debit keep their provider and do not go back to
      awaiting. */
  lemma RowsAttributed(book: Book, txns: seq<Txn>)
    requires Attributed(book) && |book.txns| <= |txns|
    requires forall i :: 0 <= i < |book.txns| && !book.txns[i].status.AwaitingConfirmation? ==>
               !txns[i].status.AwaitingConfirmation? && txns[i].provider == book.txns[i].provider
    ensures Attributed(book.(txns := txns))
  {}

  lemma RecordAttributed(dir: Directory, book: Book, provider: PersonId, input: RecordInput)
    requires Attributed(book)
    ensures Attributed(book.(txns := AfterRecord(book.txns, RecordService(dir, book.txns, provider, input))))
  {}

  lemma ConfirmingUpdateAttributed(rates: Rates, now: Instant, book: Book, id: TxnId, t: Txn)
    requires Attributed(book) && id < |book.txns|
    requires t.status.Confirmed? && t.provider == book.txns[id].provider
    requires UpdateRow(rates, now, book, id, t).Some?
    ensures Attributed(UpdateRow(rates, now, book, id, t).value)
  {}

  lemma ConfirmAttributed(rates: Rates, now: Instant, book: Book, caller: PersonId, id: TxnId)
    requires Attributed(book)
    ensures Attributed(After(book, Confirm(rates, now, book, caller, id)))
  {}

  /** The insert of bookCommissionOnPaid keeps the attribution exactly if the row may carry it. */
  lemma BookOnPaidAttributed(rates: Rates, now: Instant, book: Book, b: BookingId, k: Booking, id: TxnId)
    requires Attributed(book) && id < |book.txns|
    ensures Attributed(BookOnPaid(rates, now, book, b, k, Some(id)))
            <==> (BookOnPaid(rates, now, book, b, k, Some(id)) != book ==>
                    Some(book.txns[id].provider) == k.provider && !book.txns[id].status.AwaitingConfirmation?)
  {
    var after := BookOnPaid(rates, now, book, b, k, Some(id));
    if after != book {
      var e := PaidEntry(rates, now, b, k.provider.value, Some(id), ResolveAmount(book.txns, k, b));
      assert after.ledger == book.ledger + [e];
      assert after.ledger[|book.ledger|] == e;
      assert forall i :: 0 <= i < |book.ledger| ==> after.ledger[i] == book.ledger[i];
    }
  }

  lemma ConfirmedAttributed(rates: Rates, now: Instant, book: Book, b: BookingId, k: Booking, owner: PersonId, id: TxnId)
    requires Attributed(book) && Newest(book.txns, b, k.request) == Some(id)
    ensures Attributed(BeforeBooking(rates, now, book, b, k, owner, id))
  {
    var amount := ResolveAmount(book.txns, k, b);
    var row, last := ForcedRow(book.txns[id], now, b, owner, amount), LastResortRow(book.txns[id], now);
    if UpdateRow(rates, now, book, id, row).Some? {
      ConfirmingUpdateAttributed(rates, now, book, id, row);
    } else if UpdateRow(rates, now, book, id, last).Some? {
      ConfirmingUpdateAttributed(rates, now, book, id, last);
    }
    ConfirmAttributed(rates, now, Forced(rates, now, book, id, b, owner, amount), owner, id);
  }

  /** A row that the payment confirms has its debit by then, or is the provider's own. */
  lemma ConfirmedIsOwed(rates: Rates, now: Instant, links: Links, book: Book, b: BookingId, k: Booking, owner: PersonId, id: TxnId)
    requires Sound(rates, links, book)
    requires b in links && links[b] == Link(k.request, k.provider) && Newest(book.txns, b, k.request) == Some(id)
    requires ConfirmsNewest(rates, book.txns, b, k, owner, id)
    ensures var after := BeforeBooking(rates, now, book, b, k, owner, id);
            AlreadyBooked(after.ledger, Some(id), b) || Some(after.txns[id].provider) == k.provider
  {
    var after := BeforeBooking(rates, now, book, b, k, owner, id);
    BeforeBookingOutcome(rates, now, book, b, k, owner, id);
    DebitCountPositive(book.ledger, id);
    if book.txns[id].status.Confirmed? {
      if DebitCount(book.ledger, id) == 0 {
        NewestIsBornHere(links, book.txns, b, id);
      } else {
        LedgerKept(rates, now, book, b, k, owner, id);
      }
    } else {
      NewlyConfirmedIsBooked(rates, now, book, b, k, owner, id);
    }
  }

  lemma LedgerKept(rates: Rates, now: Instant, book: Book, b: BookingId, k: Booking, owner: PersonId, id: TxnId)
    requires Newest(book.txns, b, k.request) == Some(id)
    ensures book.ledger <= BeforeBooking(rates, now, book, b, k, owner, id).ledger
  {}

  lemma TriggerBooks(rates: Rates, now: Instant, book: Book, id: TxnId, t: Txn, b: BookingId)
    requires id < |book.txns| && !book.txns[id].status.Confirmed? && t.status.Confirmed?
    requires UpdateRow(rates, now, book, id, t).Some?
    ensures AlreadyBooked(UpdateRow(rates, now, book, id, t).value.ledger, Some(id), b)
  {
    var e := TriggerEntry(rates, now, id, t);
    var ledger := UpdateRow(rates, now, book, id, t).value.ledger;
    if ledger != book.ledger { assert ledger[|book.ledger|] == e; }
  }

  lemma NewlyConfirmedIsBooked(rates: Rates, now: Instant, book: Book, b: BookingId, k: Booking, owner: PersonId, id: TxnId)
    requires Newest(book.txns, b, k.request) == Some(id) && !book.txns[id].status.Confirmed?
    requires ConfirmsNewest(rates, book.txns, b, k, owner, id)
    ensures AlreadyBooked(BeforeBooking(rates, now, book, b, k, owner, id).ledger, Some(id), b)
  {
    var row, last := ForcedRow(book.txns[id], now, b, owner, ResolveAmount(book.txns, k, b)), LastResortRow(book.txns[id], now);
    BeforeBookingOutcome(rates, now, book, b, k, owner, id);
    if UpdateRow(rates, now, book, id, row).Some? {
      TriggerBooks(rates, now, book, id, row, b);
    } else if UpdateRow(rates, now, book, id, last).Some? {
      TriggerBooks(rates, now, book, id, last, b);
    } else {
      TriggerBooks(rates, now, book, id,
                   book.txns[id].(status := TxnStatus.Confirmed, confirmedAt := Some(now), confirmedBy := Some(owner)), b);
    }
  }

  lemma RowAttributed(rates: Rates, now: Instant, links: Links, book: Book, b: BookingId, k: Booking, owner: PersonId, id: TxnId)
    requires Attributed(book) && Sound(rates, links, book)
    requires b in links && links[b] == Link(k.request, k.provider) && Newest(book.txns, b, k.request) == Some(id)
    ensures Attributed(Settled(rates, now, book, b, k, owner)) <==> !Strands(rates, book, b, k, owner)
  {
    var confirmed := BeforeBooking(rates, now, book, b, k, owner, id);
    assert Settled(rates, now, book, b, k, owner) == BookOnPaid(rates, now, confirmed, b, k, Some(id));
    ConfirmedAttributed(rates, now, book, b, k, owner, id);
    BeforeBookingOutcome(rates, now, book, b, k, owner, id);
    BookOnPaidOutcome(rates, now, confirmed, b, k, Some(id));
    BookOnPaidAttributed(rates, now, confirmed, b, k, id);
    if ConfirmsNewest(rates, book.txns, b, k, owner, id) {
      ConfirmedIsOwed(rates, now, links, book, b, k, owner, id);
    }
  }

  lemma InsertedAttributed(rates: Rates, now: Instant, book: Book, b: BookingId, k: Booking, owner: PersonId)
    requires Attributed(book) && Newest(book.txns, b, k.request).None?
    ensures Attributed(Settled(rates, now, book, b, k, owner))
  {
    var amount := ResolveAmount(book.txns, k, b);
    InsertedOutcome(rates, now, book, b, k, owner);
    if amount > 0 && k.provider.Some? {
      var inserted := book.(txns := book.txns + [PaidRow(now, b, k, owner, k.provider.value, amount)]);
      RowsAttributed(book, inserted.txns);
      BookOnPaidAttributed(rates, now, inserted, b, k, |book.txns|);
    }
  }

  /** A payment confirmation keeps every debit with the provider of its own confirmed transaction
      exactly if it does not strand its row. */
  lemma PaymentAttributedIffNotStranded(rates: Rates, now: Instant, links: Links, book: Book, b: BookingId, k: Booking, owner: PersonId)
    requires Attributed(book) && Sound(rates, links, book)
    requires b in links && links[b] == Link(k.request, k.provider)
    ensures Attributed(Settled(rates, now, book, b, k, owner)) <==> !Strands(rates, book, b, k, owner)
  {
    match Newest(book.txns, b, k.request)
    case None => InsertedAttributed(rates, now, book, b, k, owner);
    case Some(id) => RowAttributed(rates, now, links, book, b, k, owner, id);
  }

  /** With a trigger rate of at least the service rate there is nothing to strand. */
  lemma NothingStrandsAtEqualRates(rates: Rates, book: Book, b: BookingId, k: Booking, owner: PersonId)
    requires rates.service <= rates.trigger
    ensures !Strands(rates, book, b, k, owner)
  {
    var amount := ResolveAmount(book.txns, k, b);
    if amount > 0 {
      assert amount * rates.service <= amount * rates.trigger;
    }
  }

  /** At the rates of the source, paying a job billed at five cents strands its row: the service's tenth
      rounds up to a cent and is booked, the trigger's twentieth rounds to nothing and rejects the
      confirmation. */
  lemma FiveCentsStrand(owner: PersonId, provider: PersonId)
    ensures var book := Apply(SOURCE_RATES, BilledJob(owner, provider, 5), ProviderConfirmPayment(0, true)).book;
            && |book.txns| == 1 && book.txns[0].status.AwaitingConfirmation?
            && |book.ledger| == 1 && book.ledger[0].txn == Some(0) && book.ledger[0].amount == 1
  {
    var billed := BilledJob(owner, provider, 5);
    var k := billed.bookings[0];
    assert Commission(5, TRIGGER_RATE) == 0 && Commission(5, SERVICE_RATE) == 1;
    assert Newest(billed.book.txns, 0, 0) == Some(0);
    BeforeBookingOutcome(SOURCE_RATES, billed.now, billed.book, 0, k, owner, 0);
    BookOnPaidOutcome(SOURCE_RATES, billed.now, billed.book, 0, k, Some(0));
  }

  // ----- whole runs --------------------------------------------------------------------------

  /** The call is not a payment confirmation that strands its row. */
  predicate StrandsNothing(rates: Rates, s: Shop, call: Call) {
    call.ProviderConfirmPayment? && call.received && call.id in s.bookings ==>
      !Strands(rates, s.book, call.id, s.bookings[call.id], OwnerOf(s, call.id))
  }

  lemma ApplyAttributedIff(rates: Rates, s: Shop, call: Call)
    requires ShopSound(rates, s) && Attributed(s.book)
    ensures Attributed(Apply(rates, s, call).book) <==> StrandsNothing(rates, s, call)
  {
    match call
    case ConfirmTxn(caller, id) => ConfirmAttributed(rates, s.now, s.book, caller, id);
    case ProviderConfirmPayment(b, received) =>
      if b in s.bookings {
        PaymentCallWrites(rates, s, b);
        PaymentAttributedIffNotStranded(rates, s.now, LinksOf(s), s.book, b, s.bookings[b], OwnerOf(s, b));
        RowsAttributed(s.book, AllDisputed(s.book.txns, b, s.bookings[b].request));
      }
    case SetStatus(b, to, quote) =>
      if b in s.bookings {
        AutoBillAttributed(s, b, quote);
        AutoBillAttributed(Put(s, b, Stamped(s.bookings[b], to, s.now.tick)), b, quote);
      }
    case AutoBill(b, quote) => AutoBillAttributed(s, b, quote);
    case _ => OtherCallAttributed(rates, s, call);
  }

  lemma OtherCallAttributed(rates: Rates, s: Shop, call: Call)
    requires Attributed(s.book)
    requires !call.ConfirmTxn? && !call.ProviderConfirmPayment? && !call.SetStatus? && !call.AutoBill?
    ensures Attributed(Apply(rates, s, call).book)
  {
    assert Apply(rates, s, call).book.ledger == s.book.ledger;
    RowsAttributed(s.book, Apply(rates, s, call).book.txns);
  }

  lemma AutoBillAttributed(s: Shop, b: BookingId, q: Quote)
    requires Attributed(s.book)
    ensures Attributed(DoAutoBill(s, b, q).book)
  {}

  /** No payment confirmation of the run strands its row. */
  ghost predicate NeverStrands(rates: Rates, s: Shop, steps: seq<Step>)
    decreases |steps|
  {
    steps != [] ==>
      StrandsNothing(rates, Elapsed(s, steps[0]), steps[0].call) && NeverStrands(rates, Next(rates, s, steps[0]), steps[1..])
  }

  ghost predicate AttributedThroughout(rates: Rates, s: Shop, steps: seq<Step>)
    decreases |steps|
  {
    Attributed(s.book) && (steps != [] ==> AttributedThroughout(rates, Next(rates, s, steps[0]), steps[1..]))
  }

  lemma {:induction false} RunAttributedIff(rates: Rates, s: Shop, steps: seq<Step>)
    requires ShopSound(rates, s) && Attributed(s.book)
    ensures AttributedThroughout(rates, s, steps) <==> NeverStrands(rates, s, steps)
    ensures NeverStrands(rates, s, steps) ==> Attributed(Run(rates, s, steps).book)
    decreases |steps|
  {
    if steps != [] {
      var s', next := Elapsed(s, steps[0]), Next(rates, s, steps[0]);
      assert LinksOf(s') == LinksOf(s);
      ApplySound(rates, s', steps[0].call);
      ApplyAttributedIff(rates, s', steps[0].call);
      if Attributed(next.book) { RunAttributedIff(rates, next, steps[1..]); }
    }
  }

  /** Over all runs: at every moment every debit sits on a row of its provider that has left
      awaiting_confirmation exactly if no payment strands its row. */
  lemma DebitsAttributedIff(rates: Rates, owners: map<RequestId, PersonId>, steps: seq<Step>)
    ensures AttributedThroughout(rates, Opening(owners), steps) <==> NeverStrands(rates, Opening(owners), steps)
    ensures NeverStrands(rates, Opening(owners), steps) ==> Attributed(Run(rates, Opening(owners), steps).book)
  {
    RunAttributedIff(rates, Opening(owners), steps);
  }

  /** With a trigger rate of at least the service rate, every debit of every run is owed by the provider
      of its transaction. */
  lemma DebitsBelongAtEqualRates(rates: Rates, owners: map<RequestId, PersonId>, steps: seq<Step>)
    requires rates.service <= rates.trigger
    ensures Attributed(Run(rates, Opening(owners), steps).book)
  {
    NeverStrandsAtEqualRates(rates, Opening(owners), steps);
    DebitsAttributedIff(rates, owners, steps);
  }

  lemma {:induction false} NeverStrandsAtEqualRates(rates: Rates, s: Shop, steps: seq<Step>)
    requires rates.service <= rates.trigger
    ensures NeverStrands(rates, s, steps)
    decreases |steps|
  {
    if steps != [] {
      var s', call := Elapsed(s, steps[0]), steps[0].call;
      if call.ProviderConfirmPayment? && call.id in s'.bookings {
        NothingStrandsAtEqualRates(rates, s'.book, call.id, s'.bookings[call.id], OwnerOf(s', call.id));
      }
      NeverStrandsAtEqualRates(rates, Next(rates, s, steps[0]), steps[1..]);
    }
  }

  // ----- amounts that are worth a cent to the trigger ----------------------------------------

  /** The trigger's share of the amount comes to a cent, unless the amount is refused anyway. */
  predicate Worth(rates: Rates, amount: Cents) {
    amount <= 0 || Commission(amount, rates.trigger) > 0
  }

  predicate CallWorth(rates: Rates, call: Call) {
    match call
    case Record(_, input) => Worth(rates, input.amount)
    case SetBill(_, amount) => Worth(rates, amount)
    case AutoBill(_, quote) => Worth(rates, BillAmount(quote))
    case SetStatus(_, _, quote) => Worth(rates, BillAmount(quote))
    case _ => true
  }

  ghost predicate RowsWorth(rates: Rates, txns: seq<Txn>) {
    forall i :: 0 <= i < |txns| ==> Worth(rates, txns[i].amount)
  }

  ghost predicate AllWorth(rates: Rates, s: Shop) {
    && RowsWorth(rates, s.book.txns)
    && forall b :: b in s.bookings && s.bookings[b].bill.Some? ==> Worth(rates, s.bookings[b].bill.value)
  }

  lemma WorthNeverStrands(rates: Rates, s: Shop, b: BookingId)
    requires AllWorth(rates, s) && b in s.bookings
    ensures !Strands(rates, s.book, b, s.bookings[b], OwnerOf(s, b))
  {
    NothingOnNothing(ResolveAmount(s.book.txns, s.bookings[b], b), rates.service);
  }

  lemma RewriteWorth(rates: Rates, txns: seq<Txn>, id: TxnId, row: Txn)
    requires RowsWorth(rates, txns) && id < |txns| && Worth(rates, row.amount)
    ensures RowsWorth(rates, txns[id := row])
  {}

  lemma SettledWorth(rates: Rates, s: Shop, b: BookingId)
    requires AllWorth(rates, s) && b in s.bookings
    ensures RowsWorth(rates, Settled(rates, s.now, s.book, b, s.bookings[b], OwnerOf(s, b)).txns)
  {
    var k, owner := s.bookings[b], OwnerOf(s, b);
    match Newest(s.book.txns, b, k.request)
    case None => InsertedOutcome(rates, s.now, s.book, b, k, owner);
    case Some(id) =>
      var before := BeforeBooking(rates, s.now, s.book, b, k, owner, id);
      BeforeBookingOutcome(rates, s.now, s.book, b, k, owner, id);
      RewriteWorth(rates, s.book.txns, id, before.txns[id]);
      assert Settled(rates, s.now, s.book, b, k, owner).txns == before.txns;
  }

  lemma AutoBillWorth(rates: Rates, s: Shop, b: BookingId, q: Quote)
    requires AllWorth(rates, s) && Worth(rates, BillAmount(q))
    ensures AllWorth(rates, DoAutoBill(s, b, q))
  {}

  lemma PaymentWorth(rates: Rates, s: Shop, b: BookingId, received: bool)
    requires AllWorth(rates, s) && b in s.bookings
    ensures AllWorth(rates, Apply(rates, s, ProviderConfirmPayment(b, received)))
  {
    if received { SettledWorth(rates, s, b); }
  }

  lemma SetStatusWorth(rates: Rates, s: Shop, b: BookingId, to: Phase, q: Quote)
    requires AllWorth(rates, s) && Worth(rates, BillAmount(q)) && b in s.bookings
    ensures AllWorth(rates, AfterJob(s, DoSetStatus(s, b, to, q)))
  {
    AutoBillWorth(rates, s, b, q);
    AutoBillWorth(rates, Put(s, b, Stamped(s.bookings[b], to, s.now.tick)), b, q);
  }

  lemma ApplyWorth(rates: Rates, s: Shop, call: Call)
    requires AllWorth(rates, s) && CallWorth(rates, call)
    ensures AllWorth(rates, Apply(rates, s, call))
  {
    match call
    case ProviderConfirmPayment(b, received) => if b in s.bookings { PaymentWorth(rates, s, b, received); }
    case AutoBill(b, quote) => AutoBillWorth(rates, s, b, quote);
    case SetStatus(b, to, quote) => if b in s.bookings { SetStatusWorth(rates, s, b, to, quote); }
    case SetBill(_, _) => WritingCallWorth(rates, s, call);
    case Record(_, _) => WritingCallWorth(rates, s, call);
    case _ => UnpricedCallWorth(rates, s, call);
  }

  lemma WritingCallWorth(rates: Rates, s: Shop, call: Call)
    requires AllWorth(rates, s) && CallWorth(rates, call) && (call.SetBill? || call.Record?)
    ensures AllWorth(rates, Apply(rates, s, call))
  {}

  /** The other calls write no amount. */
  lemma UnpricedCallWorth(rates: Rates, s: Shop, call: Call)
    requires AllWorth(rates, s)
    requires !call.ProviderConfirmPayment? && !call.AutoBill? && !call.SetStatus? && !call.SetBill? && !call.Record?
    ensures AllWorth(rates, Apply(rates, s, call))
  {}

  lemma {:induction false} WorthRunNeverStrands(rates: Rates, s: Shop, steps: seq<Step>)
    requires AllWorth(rates, s) && forall i :: 0 <= i < |steps| ==> CallWorth(rates, steps[i].call)
    ensures NeverStrands(rates, s, steps)
    decreases |steps|
  {
    if steps != [] {
      var s', call := Elapsed(s, steps[0]), steps[0].call;
      assert AllWorth(rates, s');
      if call.ProviderConfirmPayment? && call.id in s'.bookings {
        WorthNeverStrands(rates, s', call.id);
      }
      ApplyWorth(rates, s', call);
      assert forall i :: 0 <= i < |steps[1..]| ==> steps[1..][i] == steps[i + 1];
      WorthRunNeverStrands(rates, Next(rates, s, steps[0]), steps[1..]);
    }
  }

  /** In every run whose recorded, billed and quoted amounts are worth a cent to the trigger, every debit
      is owed by the provider of its transaction. */
  lemma DebitsBelongIfAmountsAreWorth(rates: Rates, owners: map<RequestId, PersonId>, steps: seq<Step>)
    requires forall i :: 0 <= i < |steps| ==> CallWorth(rates, steps[i].call)
    ensures Attributed(Run(rates, Opening(owners), steps).book)
  {
    WorthRunNeverStrands(rates, Opening(owners), steps);
    DebitsAttributedIff(rates, owners, steps);
  }
}
