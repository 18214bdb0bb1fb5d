/** Is a transaction's debit for its provider and its amount? Exactly which calls break either, over all
    runs: a debit is frozen when it is booked, while corrections and payments go on changing the row. */
module DebitTerms {
  import opened Tables
  import opened Money
  import opened Ledger
  import opened Transactions
  import opened Jobs
  import opened Charges
  import opened Payments
  import opened JobExamples
  import ChargedProviders
  import PaymentRuns
  import Platform

  /** The two terms of a charge. */
  datatype Term = ByProvider | ByAmount

  predicate Fits(term: Term, t: Txn, e: Entry) {
    match term
    case ByProvider => e.provider == t.provider
    case ByAmount => e.gross == Some(t.amount)
  }

  predicate SameTerm(term: Term, t: Txn, u: Txn) {
    match term
    case ByProvider => u.provider == t.provider
    case ByAmount => u.amount == t.amount
  }

  /** Every debit fits its transaction as that now is. */
  ghost predicate AllFit(term: Term, book: Book) {
    forall i :: 0 <= i < |book.ledger| && book.ledger[i].kind.CommissionDebit? ==> FitsRow(term, book.txns, book.ledger[i])
  }

  predicate FitsRow(term: Term, txns: seq<Txn>, e: Entry) {
    e.txn.Some? && e.txn.value < |txns| && Fits(term, txns[e.txn.value], e)
  }

  // ----- the checks before a call ------------------------------------------------------------

  /** A recording that corrects a row with a debit leaves the term as it is. */
  predicate RecordFits(term: Term, s: Shop, recorder: PersonId, input: RecordInput) {
    var txns := s.book.txns;
    RecordService(DirectoryOf(s), txns, recorder, input).Ok? && ExistingFor(txns, input).Some? ==>
      var id := ExistingFor(txns, input).value;
      Debited(s.book.ledger, id) ==>
        match term
        case ByProvider => recorder == txns[id].provider
        case ByAmount => input.amount == txns[id].amount
  }

  /** The forced update goes through: the row is confirmed already or the trigger can book the amount. */
  predicate Forces(rates: Rates, txns: seq<Txn>, b: BookingId, k: Booking, id: TxnId)
    requires id < |txns|
  {
    txns[id].status.Confirmed? || Commission(ResolveAmount(txns, k, b), rates.trigger) > 0
  }

  /** A payment that forces a row with a debit charges the row's own amount; and one that books a debit
      on a row that it leaves unconfirmed books it for the row's provider, or the row's amount. */
  predicate PaymentFits(term: Term, rates: Rates, book: Book, b: BookingId, k: Booking, owner: PersonId) {
    match Newest(book.txns, b, k.request)
    case None => true
    case Some(id) =>
      var row, amount := book.txns[id], ResolveAmount(book.txns, k, b);
      && (term.ByAmount? && Forces(rates, book.txns, b, k, id) && Debited(book.ledger, id) ==> amount == row.amount)
      && (BooksUnconfirmed(rates, book, b, k, owner) ==>
            match term
            case ByProvider => k.provider == Some(row.provider)
            case ByAmount => amount == row.amount)
  }

  predicate KeepsTerm(term: Term, rates: Rates, s: Shop, call: Call) {
    match call
    case Record(recorder, input) => RecordFits(term, s, recorder, input)
    case SetBill(b, amount) =>
      (DoSetBill(s, b, amount).Ok? && s.bookings[b].provider.Some? ==>
         RecordFits(term, s, s.bookings[b].provider.value, JobInput(s, b, amount)))
    case ProviderConfirmPayment(b, received) =>
      (b in s.bookings && received ==> PaymentFits(term, rates, s.book, b, s.bookings[b], OwnerOf(s, b)))
    case _ => true
  }

  // ----- rows and entries --------------------------------------------------------------------

  /** Rewriting one row keeps every debit fitting exactly if the row has none or the term stays. */
  lemma RewriteFitsIff(term: Term, book: Book, id: TxnId, row: Txn)
    requires AllFit(term, book) && id < |book.txns|
    ensures AllFit(term, book.(txns := book.txns[id := row])) <==> (Debited(book.ledger, id) ==> SameTerm(term, book.txns[id], row))
  {
    var txns := book.txns[id := row];
    if Debited(book.ledger, id) {
      var i :| 0 <= i < |book.ledger| && book.ledger[i].kind.CommissionDebit? && book.ledger[i].txn == Some(id);
      assert FitsRow(term, book.txns, book.ledger[i]);
      assert FitsRow(term, txns, book.ledger[i]) <==> SameTerm(term, book.txns[id], row);
    }
    if Debited(book.ledger, id) ==> SameTerm(term, book.txns[id], row) {
      forall i | 0 <= i < |book.ledger| && book.ledger[i].kind.CommissionDebit? ensures FitsRow(term, txns, book.ledger[i]) {
        assert FitsRow(term, book.txns, book.ledger[i]);
      }
    }
  }

  /** Rows that keep the term, and new rows, keep every debit fitting. */
  lemma RowsFit(term: Term, book: Book, txns: seq<Txn>)
    requires AllFit(term, book) && |book.txns| <= |txns|
    requires forall i :: 0 <= i < |book.txns| ==> SameTerm(term, book.txns[i], txns[i])
    ensures AllFit(term, book.(txns := txns))
  {
    forall i | 0 <= i < |book.ledger| && book.ledger[i].kind.CommissionDebit? ensures FitsRow(term, txns, book.ledger[i]) {
      assert FitsRow(term, book.txns, book.ledger[i]);
    }
  }

  lemma AppendFitsIff(term: Term, book: Book, e: Entry)
    requires e.kind.CommissionDebit?
    ensures AllFit(term, book.(ledger := book.ledger + [e])) <==> AllFit(term, book) && FitsRow(term, book.txns, e)
  {
    var ledger := book.ledger + [e];
    assert ledger[|book.ledger|] == e;
    assert forall i :: 0 <= i < |book.ledger| ==> ledger[i] == book.ledger[i];
  }

  /** A confirming update with its trigger: what the trigger books fits the new row. */
  lemma ConfirmingUpdateFitsIff(term: Term, rates: Rates, now: Instant, book: Book, id: TxnId, t: Txn)
    requires AllFit(term, book) && id < |book.txns| && t.status.Confirmed? && UpdateRow(rates, now, book, id, t).Some?
    ensures AllFit(term, UpdateRow(rates, now, book, id, t).value) <==> (Debited(book.ledger, id) ==> SameTerm(term, book.txns[id], t))
  {
    RewriteFitsIff(term, book, id, t);
    AppendFitsIff(term, book.(txns := book.txns[id := t]), TriggerEntry(rates, now, id, t));
  }

  lemma ConfirmFits(term: Term, rates: Rates, now: Instant, book: Book, caller: PersonId, id: TxnId)
    requires AllFit(term, book)
    ensures AllFit(term, After(book, Confirm(rates, now, book, caller, id)))
  {
    if Confirm(rates, now, book, caller, id).Ok? {
      ConfirmingUpdateFitsIff(term, rates, now, book, id,
        book.txns[id].(status := TxnStatus.Confirmed, confirmedAt := Some(now), confirmedBy := Some(caller)));
    }
  }

  lemma RecordFitsIff(term: Term, s: Shop, recorder: PersonId, input: RecordInput)
    requires AllFit(term, s.book)
    ensures AllFit(term, s.book.(txns := AfterRecord(s.book.txns, RecordService(DirectoryOf(s), s.book.txns, recorder, input))))
            <==> RecordFits(term, s, recorder, input)
  {
    var txns, outcome := s.book.txns, RecordService(DirectoryOf(s), s.book.txns, recorder, input);
    if outcome.Ok? {
      if ExistingFor(txns, input).Some? {
        var id := ExistingFor(txns, input).value;
        RewriteFitsIff(term, s.book, id, outcome.value.0[id]);
        assert outcome.value.0 == txns[id := outcome.value.0[id]];
      } else {
        RowsFit(term, s.book, outcome.value.0);
      }
    }
  }

  // ----- the payment path --------------------------------------------------------------------

  /** Up to bookCommissionOnPaid. */
  lemma BeforeBookingFitsIff(term: Term, rates: Rates, now: Instant, book: Book, b: BookingId, k: Booking, owner: PersonId, id: TxnId)
    requires AllFit(term, book) && Newest(book.txns, b, k.request) == Some(id) && TxnChecks(book.txns[id])
    ensures AllFit(term, BeforeBooking(rates, now, book, b, k, owner, id))
            <==> (term.ByAmount? && Forces(rates, book.txns, b, k, id) && Debited(book.ledger, id) ==>
                    ResolveAmount(book.txns, k, b) == book.txns[id].amount)
  {
    var amount := ResolveAmount(book.txns, k, b);
    var row, last := ForcedRow(book.txns[id], now, b, owner, amount), LastResortRow(book.txns[id], now);
    var forced := Forced(rates, now, book, id, b, owner, amount);
    if Forces(rates, book.txns, b, k, id) {
      ForcedGoesThrough(rates, now, book, b, k, owner, id);
      ConfirmingUpdateFitsIff(term, rates, now, book, id, row);
    } else {
      ForcedIsRejected(rates, now, book, b, k, owner, id);
      if UpdateRow(rates, now, book, id, last).Some? {
        ConfirmingUpdateFitsIff(term, rates, now, book, id, last);
      }
      ConfirmFits(term, rates, now, forced, owner, id);
    }
  }

  lemma ForcedGoesThrough(rates: Rates, now: Instant, book: Book, b: BookingId, k: Booking, owner: PersonId, id: TxnId)
    requires Newest(book.txns, b, k.request) == Some(id) && TxnChecks(book.txns[id]) && Forces(rates, book.txns, b, k, id)
    ensures var row := ForcedRow(book.txns[id], now, b, owner, ResolveAmount(book.txns, k, b));
            && row.amount == ResolveAmount(book.txns, k, b) && row.provider == book.txns[id].provider
            && UpdateRow(rates, now, book, id, row) == Some(BeforeBooking(rates, now, book, b, k, owner, id))
  {}

  lemma ForcedIsRejected(rates: Rates, now: Instant, book: Book, b: BookingId, k: Booking, owner: PersonId, id: TxnId)
    requires Newest(book.txns, b, k.request) == Some(id) && TxnChecks(book.txns[id]) && !Forces(rates, book.txns, b, k, id)
    ensures UpdateRow(rates, now, book, id, ForcedRow(book.txns[id], now, b, owner, ResolveAmount(book.txns, k, b))).None?
  {}

  /** bookCommissionOnPaid's own debit. */
  lemma BookingFitsIff(term: Term, rates: Rates, now: Instant, book: Book, b: BookingId, k: Booking, id: TxnId)
    requires id < |book.txns|
    ensures AllFit(term, BookOnPaid(rates, now, book, b, k, Some(id))) <==>
            && AllFit(term, book)
            && (NothingToBook(rates, book, b, k, Some(id))
                || match term
                   case ByProvider => k.provider == Some(book.txns[id].provider)
                   case ByAmount => ResolveAmount(book.txns, k, b) == book.txns[id].amount)
  {
    BookOnPaidOutcome(rates, now, book, b, k, Some(id));
    if k.provider.Some? {
      AppendFitsIff(term, book, PaidEntry(rates, now, b, k.provider.value, Some(id), ResolveAmount(book.txns, k, b)));
    }
  }

  /** A row that the payment confirms has its debit by then, or fits the one it gets. */
  lemma ConfirmedFits(term: Term, rates: Rates, now: Instant, links: Links, book: Book, b: BookingId, k: Booking, owner: PersonId, id: TxnId)
    requires Sound(rates, links, book)
    requires b in links && links[b] == Link(k.request, k.provider) && Newest(book.txns, b, k.request) == Some(id)
    requires TxnChecks(book.txns[id])
    requires ConfirmsNewest(rates, book.txns, b, k, owner, id)
    ensures var after := BeforeBooking(rates, now, book, b, k, owner, id);
            || NothingToBook(rates, after, b, k, Some(id))
            || match term
               case ByProvider => k.provider == Some(after.txns[id].provider)
               case ByAmount => ResolveAmount(after.txns, k, b) == after.txns[id].amount
  {
    match term
    case ByProvider => ChargedProviders.ConfirmedIsOwed(rates, now, links, book, b, k, owner, id);
    case ByAmount =>
      if book.txns[id].status.Confirmed? {
        ForcedGoesThrough(rates, now, book, b, k, owner, id);
        BeforeBookingOutcome(rates, now, book, b, k, owner, id);
        PaymentRuns.NewestKept(book.txns, b, k.request, id, BeforeBooking(rates, now, book, b, k, owner, id).txns[id]);
      } else {
        ChargedProviders.NewlyConfirmedIsBooked(rates, now, book, b, k, owner, id);
      }
  }

  lemma PaymentFitsIff(term: Term, rates: Rates, now: Instant, links: Links, book: Book, b: BookingId, k: Booking, owner: PersonId)
    requires AllFit(term, book) && Sound(rates, links, book) && PaymentRuns.RowsChecked(book.txns)
    requires b in links && links[b] == Link(k.request, k.provider)
    ensures AllFit(term, Settled(rates, now, book, b, k, owner)) <==> PaymentFits(term, rates, book, b, k, owner)
  {
    match Newest(book.txns, b, k.request)
    case None =>
      InsertedOutcome(rates, now, book, b, k, owner);
      if ResolveAmount(book.txns, k, b) > 0 && k.provider.Some? {
        var inserted := book.(txns := book.txns + [PaidRow(now, b, k, owner, k.provider.value, ResolveAmount(book.txns, k, b))]);
        RowsFit(term, book, inserted.txns);
        BookingFitsIff(term, rates, now, inserted, b, k, |book.txns|);
      }
    case Some(id) =>
      assert TxnChecks(book.txns[id]);
      var before := BeforeBooking(rates, now, book, b, k, owner, id);
      BeforeBookingFitsIff(term, rates, now, book, b, k, owner, id);
      BeforeBookingOutcome(rates, now, book, b, k, owner, id);
      BookingFitsIff(term, rates, now, before, b, k, id);
      if ConfirmsNewest(rates, book.txns, b, k, owner, id) {
        ConfirmedFits(term, rates, now, links, book, b, k, owner, id);
      }
      assert Settled(rates, now, book, b, k, owner) == BookOnPaid(rates, now, before, b, k, Some(id));
  }

  // ----- calls -------------------------------------------------------------------------------

  /** The automatic bill never corrects a row: an awaiting one would have stopped it. */
  lemma AutoBillFits(term: Term, s: Shop, b: BookingId, q: Quote)
    requires AllFit(term, s.book)
    ensures AllFit(term, DoAutoBill(s, b, q).book)
  {
    if DoAutoBill(s, b, q) != s {
      var found := NewestAwaiting(s.book.txns, b);
      assert found.Some? ==> Concerns(s.book.txns[found.value], b, s.bookings[b].request);
      RecordFitsIff(term, s, s.bookings[b].provider.value, JobInput(s, b, BillAmount(q)));
    }
  }

  lemma SetStatusFits(term: Term, s: Shop, b: BookingId, to: Phase, q: Quote)
    requires AllFit(term, s.book)
    ensures AllFit(term, AfterJob(s, DoSetStatus(s, b, to, q)).book)
  {
    if b in s.bookings {
      AutoBillFits(term, s, b, q);
      AutoBillFits(term, Put(s, b, Stamped(s.bookings[b], to, s.now.tick)), b, q);
    }
  }

  lemma SetBillFitsIff(term: Term, rates: Rates, s: Shop, b: BookingId, amount: Cents)
    requires AllFit(term, s.book)
    ensures AllFit(term, AfterJob(s, DoSetBill(s, b, amount)).book) <==> KeepsTerm(term, rates, s, SetBill(b, amount))
  {
    if DoSetBill(s, b, amount).Ok? && s.bookings[b].provider.Some? {
      var billed := Put(s, b, s.bookings[b].(bill := Some(amount), phase := AwaitingPayment, satisfied := true));
      assert DirectoryOf(billed) == DirectoryOf(s) && JobInput(billed, b, amount) == JobInput(s, b, amount);
      RecordFitsIff(term, s, s.bookings[b].provider.value, JobInput(s, b, amount));
    }
  }

  /** The other calls change no term of a row and write no debit. */
  lemma OtherCallFits(term: Term, rates: Rates, s: Shop, call: Call)
    requires AllFit(term, s.book)
    requires !call.Record? && !call.SetBill? && !call.ProviderConfirmPayment? && !call.ConfirmTxn? && !call.AutoBill? && !call.SetStatus?
    ensures AllFit(term, Apply(rates, s, call).book)
  {
    assert Apply(rates, s, call).book.ledger == s.book.ledger;
    RowsFit(term, s.book, Apply(rates, s, call).book.txns);
  }

  /** Every call keeps each debit fitting its transaction exactly if its check holds; for all calls but
      recordings, bills and payments that is always. */
  lemma ApplyFitsIff(term: Term, rates: Rates, s: Shop, call: Call)
    requires AllFit(term, s.book) && ShopSound(rates, s) && PaymentRuns.Checked(s)
    ensures AllFit(term, Apply(rates, s, call).book) <==> KeepsTerm(term, rates, s, call)
  {
    match call
    case Record(recorder, input) => RecordFitsIff(term, s, recorder, input);
    case SetBill(b, amount) => SetBillFitsIff(term, rates, s, b, amount);
    case AutoBill(b, quote) => AutoBillFits(term, s, b, quote);
    case SetStatus(b, to, quote) => SetStatusFits(term, s, b, to, quote);
    case ConfirmTxn(caller, id) => ConfirmFits(term, rates, s.now, s.book, caller, id);
    case ProviderConfirmPayment(b, received) => if b in s.bookings { PaymentCallFitsIff(term, rates, s, b, received); }
    case _ => OtherCallFits(term, rates, s, call);
  }

  lemma RefusedFits(term: Term, s: Shop, b: BookingId)
    requires AllFit(term, s.book) && b in s.bookings
    ensures AllFit(term, Refused(s, b).book)
  {
    RowsFit(term, s.book, AllDisputed(s.book.txns, b, s.bookings[b].request));
  }

  lemma PaymentCallFitsIff(term: Term, rates: Rates, s: Shop, b: BookingId, received: bool)
    requires AllFit(term, s.book) && ShopSound(rates, s) && PaymentRuns.Checked(s) && b in s.bookings
    ensures AllFit(term, Apply(rates, s, ProviderConfirmPayment(b, received)).book)
            <==> (received ==> PaymentFits(term, rates, s.book, b, s.bookings[b], OwnerOf(s, b)))
  {
    PaymentCallWrites(rates, s, b);
    if received {
      PaymentFitsIff(term, rates, s.now, LinksOf(s), s.book, b, s.bookings[b], OwnerOf(s, b));
    } else {
      RefusedFits(term, s, b);
    }
  }

  // ----- whole runs --------------------------------------------------------------------------

  ghost predicate FitThroughout(term: Term, rates: Rates, s: Shop, steps: seq<Step>)
    decreases |steps|
  {
    AllFit(term, s.book) && (steps != [] ==> FitThroughout(term, rates, Next(rates, s, steps[0]), steps[1..]))
  }

  ghost predicate AllKeepTerm(term: Term, rates: Rates, s: Shop, steps: seq<Step>)
    decreases |steps|
  {
    steps != [] ==>
      KeepsTerm(term, rates, Elapsed(s, steps[0]), steps[0].call) && AllKeepTerm(term, rates, Next(rates, s, steps[0]), steps[1..])
  }

  lemma {:induction false} RunFitsIff(term: Term, rates: Rates, s: Shop, steps: seq<Step>)
    requires AllFit(term, s.book) && ShopSound(rates, s) && PaymentRuns.Checked(s)
    ensures FitThroughout(term, rates, s, steps) <==> AllKeepTerm(term, rates, s, steps)
    ensures AllKeepTerm(term, rates, s, steps) ==> AllFit(term, Run(rates, s, steps).book)
    decreases |steps|
  {
    if steps != [] {
      var s', next := Elapsed(s, steps[0]), Next(rates, s, steps[0]);
      assert LinksOf(s') == LinksOf(s);
      ApplyFitsIff(term, rates, s', steps[0].call);
      if AllFit(term, next.book) {
        ApplySound(rates, s', steps[0].call);
        PaymentRuns.ApplyChecked(rates, s', steps[0].call);
        RunFitsIff(term, rates, next, steps[1..]);
      }
    }
  }

  /** Over all runs of all calls: at every moment every debit is owed by its transaction's provider exactly
      if no recording or bill hands a charged transaction to another provider, and no payment books a debit
      on another provider's row that it leaves unconfirmed. */
  lemma DebitsNameTheirProviderIff(rates: Rates, owners: map<RequestId, PersonId>, steps: seq<Step>)
    ensures FitThroughout(ByProvider, rates, Opening(owners), steps) <==> AllKeepTerm(ByProvider, rates, Opening(owners), steps)
  {
    RunFitsIff(ByProvider, rates, Opening(owners), steps);
  }

  /** And at every moment every debit's frozen gross is its transaction's amount exactly if no recording,
      bill or payment changes the amount of a charged transaction, and no payment books another amount on
      a row that it leaves unconfirmed. */
  lemma DebitsAreForTheirAmountIff(rates: Rates, owners: map<RequestId, PersonId>, steps: seq<Step>)
    ensures FitThroughout(ByAmount, rates, Opening(owners), steps) <==> AllKeepTerm(ByAmount, rates, Opening(owners), steps)
  {
    RunFitsIff(ByAmount, rates, Opening(owners), steps);
  }

  /** In a run that meets both checks throughout, a confirmed transaction whose commission comes to a cent
      has exactly one debit, and every debit is its provider's, and the rounded share of its amount at
      the rate frozen with it. */
  lemma ConfirmedIsChargedRight(rates: Rates, owners: map<RequestId, PersonId>, steps: seq<Step>, id: TxnId)
    requires AllKeepTerm(ByProvider, rates, Opening(owners), steps) && AllKeepTerm(ByAmount, rates, Opening(owners), steps)
    ensures var book := Run(rates, Opening(owners), steps).book;
            && (id < |book.txns| && book.txns[id].status.Confirmed? && Commission(book.txns[id].amount, rates.service) >= 1 ==>
                  DebitCount(book.ledger, id) == 1)
            && forall i :: 0 <= i < |book.ledger| && book.ledger[i].kind.CommissionDebit? && book.ledger[i].txn == Some(id) ==>
                 && id < |book.txns| && book.ledger[i].provider == book.txns[id].provider
                 && book.ledger[i].rate.Some?
                 && book.ledger[i].amount == Commission(book.txns[id].amount, book.ledger[i].rate.value)
  {
    var book := Run(rates, Opening(owners), steps).book;
    ConfirmedIsChargedOnce(rates, owners, steps, id);
    RunFitsIff(ByProvider, rates, Opening(owners), steps);
    RunFitsIff(ByAmount, rates, Opening(owners), steps);
    Platform.JobsFreeze(rates, Opening(owners), steps);
    forall i | 0 <= i < |book.ledger| && book.ledger[i].kind.CommissionDebit? && book.ledger[i].txn == Some(id)
      ensures FitsRow(ByProvider, book.txns, book.ledger[i]) && FitsRow(ByAmount, book.txns, book.ledger[i]) && Frozen(book.ledger[i])
    {}
  }

  // ----- runs that break them ----------------------------------------------------------------

  function WrongProviderSteps(owner: PersonId, provider: PersonId, other: PersonId): seq<Step> {
    [Now(ProviderConfirmPayment(0, true)),
     Now(Record(other, RecordInput(Some(owner), Some(0), Some(0), "Vehicle service", 10_000))), Now(ConfirmTxn(owner, 0))]
  }

  /** The job of five cents paid, at the rates of the source: a cent is owed on a row that still awaits. */
  lemma FiveCentsPaid(owner: PersonId, provider: PersonId)
    ensures var s := BilledJob(owner, provider, 5);
            Apply(SOURCE_RATES, s, ProviderConfirmPayment(0, true)).book ==
            s.book.(ledger := [PaidEntry(SOURCE_RATES, s.now, 0, provider, Some(0), 5)])
  {
    var s := BilledJob(owner, provider, 5);
    assert Commission(5, TRIGGER_RATE) == 0 && Commission(5, SERVICE_RATE) == 1;
    assert Newest(s.book.txns, 0, 0) == Some(0);
    BeforeBookingOutcome(SOURCE_RATES, s.now, s.book, 0, s.bookings[0], owner, 0);
    BookOnPaidOutcome(SOURCE_RATES, s.now, s.book, 0, s.bookings[0], Some(0));
    assert [] + [PaidEntry(SOURCE_RATES, s.now, 0, provider, Some(0), 5)] == [PaidEntry(SOURCE_RATES, s.now, 0, provider, Some(0), 5)];
  }

  lemma CorrectedThenConfirmed(s: Shop, owner: PersonId, provider: PersonId, other: PersonId)
    requires s.owners == map[0 := owner] && 0 in s.bookings && s.bookings[0].request == 0
    requires s.book == Book([BilledRow(owner, provider, 5)], [PaidEntry(SOURCE_RATES, s.now, 0, provider, Some(0), 5)])
    ensures var input := RecordInput(Some(owner), Some(0), Some(0), "Vehicle service", 10_000);
            var book := Apply(SOURCE_RATES, Apply(SOURCE_RATES, s, Record(other, input)), ConfirmTxn(owner, 0)).book;
            && |book.txns| == 1 && book.txns[0].status.Confirmed? && book.txns[0].provider == other && book.txns[0].amount == 10_000
            && book.ledger == s.book.ledger
  {
    var input := RecordInput(Some(owner), Some(0), Some(0), "Vehicle service", 10_000);
    assert NewestAwaiting(s.book.txns, 0) == Some(0);
    var corrected := Apply(SOURCE_RATES, s, Record(other, input));
    assert corrected.book == s.book.(txns := [BilledRow(owner, other, 10_000)]);
    var t := BilledRow(owner, other, 10_000).(status := TxnStatus.Confirmed, confirmedAt := Some(s.now), confirmedBy := Some(owner));
    assert Commission(10_000, TRIGGER_RATE) == 500;
    assert Collides(corrected.book.ledger, TriggerEntry(SOURCE_RATES, s.now, 0, t)) by {
      assert corrected.book.ledger[0].txn == Some(0);
    }
  }

  /** From the opening state: a job billed at five cents and paid, its awaiting row corrected to another
      provider and 100.00, and confirmed. The only debit is one cent, owed by the first provider. */
  lemma WrongProviderIsCharged(owner: PersonId, provider: PersonId, other: PersonId)
    ensures var book := Run(SOURCE_RATES, Opening(map[0 := owner]),
                            BillingSteps(provider, 5) + WrongProviderSteps(owner, provider, other)).book;
            && |book.txns| == 1 && book.txns[0].status.Confirmed? && book.txns[0].provider == other && book.txns[0].amount == 10_000
            && |book.ledger| == 1 && book.ledger[0].txn == Some(0) && book.ledger[0].provider == provider && book.ledger[0].amount == 1
  {
    var steps := WrongProviderSteps(owner, provider, other);
    var billed := BilledJob(owner, provider, 5);
    var paid := Apply(SOURCE_RATES, billed, steps[0].call);
    BilledThenAll(SOURCE_RATES, owner, provider, 5, steps);
    assert steps == [steps[0]] + ([steps[1]] + [steps[2]]);
    RunNow(SOURCE_RATES, billed, steps[0].call, [steps[1]] + [steps[2]]);
    RunNow(SOURCE_RATES, paid, steps[1].call, [steps[2]]);
    RunOne(SOURCE_RATES, Apply(SOURCE_RATES, paid, steps[1].call), steps[2].call);
    FiveCentsPaid(owner, provider);
    CorrectedThenConfirmed(paid, owner, provider, other);
    assert Commission(5, SERVICE_RATE) == 1;
  }

  function RepricedSteps(owner: PersonId, provider: PersonId, price: Cents): seq<Step> {
    [Now(Record(provider, RecordInput(Some(owner), Some(0), Some(0), "Vehicle service", price))), Now(ConfirmTxn(owner, 0)),
     Now(ProviderConfirmPayment(0, true))]
  }

  function ConfirmedRow(owner: PersonId, provider: PersonId, amount: Cents): Txn {
    BilledRow(owner, provider, amount).(status := TxnStatus.Confirmed, confirmedAt := Some(Instant(0, 0)), confirmedBy := Some(owner))
  }

  lemma RepricedThenConfirmed(rates: Rates, owner: PersonId, provider: PersonId, bill: Cents, price: Cents)
    requires bill > 0 && price > 0 && Commission(price, rates.trigger) > 0
    ensures var s, input := BilledJob(owner, provider, bill), RecordInput(Some(owner), Some(0), Some(0), "Vehicle service", price);
            var row := ConfirmedRow(owner, provider, price);
            Apply(rates, Apply(rates, s, Record(provider, input)), ConfirmTxn(owner, 0)) ==
            s.(book := Book([row], [TriggerEntry(rates, s.now, 0, row)]))
  {
    var s, input := BilledJob(owner, provider, bill), RecordInput(Some(owner), Some(0), Some(0), "Vehicle service", price);
    assert NewestAwaiting(s.book.txns, 0) == Some(0);
    var priced := Apply(rates, s, Record(provider, input));
    assert priced == s.(book := s.book.(txns := [BilledRow(owner, provider, price)]));
    assert !Collides(priced.book.ledger, TriggerEntry(rates, s.now, 0, ConfirmedRow(owner, provider, price)));
  }

  lemma RepricedThenPaid(rates: Rates, owner: PersonId, provider: PersonId, bill: Cents, price: Cents)
    requires bill > 0 && price > 0
    ensures var row := ConfirmedRow(owner, provider, price);
            var s := BilledJob(owner, provider, bill).(book := Book([row], [TriggerEntry(rates, Instant(0, 0), 0, row)]));
            Apply(rates, s, ProviderConfirmPayment(0, true)).book == s.book.(txns := [row.(amount := bill)])
  {
    var row := ConfirmedRow(owner, provider, price);
    var s := BilledJob(owner, provider, bill).(book := Book([row], [TriggerEntry(rates, Instant(0, 0), 0, row)]));
    assert Newest(s.book.txns, 0, 0) == Some(0);
    ForcedGoesThrough(rates, s.now, s.book, 0, s.bookings[0], owner, 0);
    var forced := BeforeBooking(rates, s.now, s.book, 0, s.bookings[0], owner, 0);
    assert forced == s.book.(txns := [row.(amount := bill)]);
    assert AlreadyBooked(forced.ledger, Some(0), 0) by { assert forced.ledger[0].txn == Some(0); }
  }

  /** From the opening state: a billed job recorded at another price, confirmed at it and then paid. The
      debit's gross stays that price, the transaction's amount becomes the bill. */
  lemma PaymentRewritesChargedAmount(rates: Rates, owner: PersonId, provider: PersonId, bill: Cents, price: Cents)
    requires bill > 0 && price > 0 && Commission(price, rates.trigger) > 0
    ensures var book := Run(rates, Opening(map[0 := owner]), BillingSteps(provider, bill) + RepricedSteps(owner, provider, price)).book;
            && |book.txns| == 1 && book.txns[0].status.Confirmed? && book.txns[0].amount == bill
            && |book.ledger| == 1 && book.ledger[0].txn == Some(0) && book.ledger[0].gross == Some(price)
  {
    var steps := RepricedSteps(owner, provider, price);
    var billed := BilledJob(owner, provider, bill);
    BilledThenAll(rates, owner, provider, bill, steps);
    assert steps == [steps[0]] + ([steps[1]] + [steps[2]]);
    RunNow(rates, billed, steps[0].call, [steps[1]] + [steps[2]]);
    RunNow(rates, Apply(rates, billed, steps[0].call), steps[1].call, [steps[2]]);
    RunOne(rates, Apply(rates, Apply(rates, billed, steps[0].call), steps[1].call), steps[2].call);
    RepricedThenConfirmed(rates, owner, provider, bill, price);
    RepricedThenPaid(rates, owner, provider, bill, price);
  }
}
