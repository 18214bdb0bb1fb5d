/** Is a job charged once? A transaction is; a job can have several. Exactly which calls charge a job a
    second time, over all runs. */
module JobDebits {
  import opened Tables
  import opened Money
  import opened Ledger
  import opened Transactions
  import opened Jobs
  import opened Charges
  import opened Payments
  import opened JobExamples
  import D = DebitRuns
  import O = OrderedRuns
  import P = PaymentRuns
  import T = DebitTerms

  predicate OnJob(txns: seq<Txn>, e: Entry, b: BookingId, r: RequestId) {
    e.kind.CommissionDebit? && e.txn.Some? && e.txn.value < |txns| && Concerns(txns[e.txn.value], b, r)
  }

  predicate JobOnce(book: Book, b: BookingId, r: RequestId) {
    forall i, j :: 0 <= i < j < |book.ledger| && OnJob(book.txns, book.ledger[i], b, r) ==> !OnJob(book.txns, book.ledger[j], b, r)
  }

  /** No job has two debits on its rows. */
  ghost predicate AllOnce(bookings: map<BookingId, Booking>, book: Book) {
    forall b :: b in bookings ==> JobOnce(book, b, bookings[b].request)
  }

  // ----- the checks before a call ------------------------------------------------------------

  /** No job of the row has a debit. */
  ghost predicate NoJobDebited(bookings: map<BookingId, Booking>, book: Book, id: TxnId)
    requires id < |book.txns|
  {
    forall b :: b in bookings && Concerns(book.txns[id], b, bookings[b].request) ==> !D.HasDebit(book, b, bookings[b].request)
  }

  /** The payment path adds a debit on the newest row: by the trigger, or by bookCommissionOnPaid. */
  predicate PaymentCharges(rates: Rates, book: Book, b: BookingId, k: Booking, owner: PersonId, id: TxnId)
    requires id < |book.txns|
  {
    if !book.txns[id].status.Confirmed? && ConfirmsNewest(rates, book.txns, b, k, owner, id) then !Debited(book.ledger, id)
    else !NothingToBook(rates, book, b, k, Some(id))
  }

  ghost predicate PaymentKeepsOnce(rates: Rates, s: Shop, b: BookingId)
    requires b in s.bookings
  {
    match Newest(s.book.txns, b, s.bookings[b].request)
    case None => true
    case Some(id) => PaymentCharges(rates, s.book, b, s.bookings[b], OwnerOf(s, b), id) ==> NoJobDebited(s.bookings, s.book, id)
  }

  ghost predicate KeepsOnce(rates: Rates, s: Shop, call: Call) {
    match call
    case ConfirmTxn(caller, id) =>
      (Confirm(rates, s.now, s.book, caller, id).Ok? && !Debited(s.book.ledger, id) ==> NoJobDebited(s.bookings, s.book, id))
    case ProviderConfirmPayment(b, received) => (b in s.bookings && received ==> PaymentKeepsOnce(rates, s, b))
    case OpenBooking(b, request, _, _) =>
      (b !in s.bookings && request in s.owners && !RequestTaken(s, request) ==> JobOnce(s.book, b, request))
    case _ => true
  }

  // ----- rows --------------------------------------------------------------------------------

  ghost predicate Placed(book: Book) {
    forall i :: 0 <= i < |book.ledger| && book.ledger[i].kind.CommissionDebit? ==>
      book.ledger[i].txn.Some? && book.ledger[i].txn.value < |book.txns|
  }

  /** Rows that stay in their jobs, and new rows, change nothing about which job a debit is on. */
  lemma RowsOnceIff(bookings: map<BookingId, Booking>, book: Book, txns: seq<Txn>)
    requires Placed(book) && |book.txns| <= |txns|
    requires forall i, b :: 0 <= i < |book.txns| && b in bookings ==>
               (Concerns(txns[i], b, bookings[b].request) <==> Concerns(book.txns[i], b, bookings[b].request))
    ensures AllOnce(bookings, book.(txns := txns)) <==> AllOnce(bookings, book)
  {
    forall b | b in bookings ensures JobOnce(book.(txns := txns), b, bookings[b].request) == JobOnce(book, b, bookings[b].request) {
      var r := bookings[b].request;
      assert forall i :: 0 <= i < |book.ledger| ==> OnJob(txns, book.ledger[i], b, r) == OnJob(book.txns, book.ledger[i], b, r);
    }
  }

  lemma InJobOnceIff(bookings: map<BookingId, Booking>, book: Book, txns: seq<Txn>)
    requires Placed(book) && O.UniqueJobs(bookings) && |book.txns| <= |txns|
    requires forall i :: 0 <= i < |book.txns| ==> InJob(bookings, book.txns[i], txns[i])
    ensures AllOnce(bookings, book.(txns := txns)) <==> AllOnce(bookings, book)
  {
    forall i, b | 0 <= i < |book.txns| && b in bookings
      ensures Concerns(txns[i], b, bookings[b].request) <==> Concerns(book.txns[i], b, bookings[b].request)
    {
      assert InJob(bookings, book.txns[i], txns[i]);
    }
    RowsOnceIff(bookings, book, txns);
  }

  /** The row stays in its job; at most its booking is filled in. */
  predicate InJob(bookings: map<BookingId, Booking>, before: Txn, after: Txn) {
    && after.request == before.request
    && (|| after.booking == before.booking
        || (before.booking.None? && after.booking.Some? && after.booking.value in bookings
            && before.request == Some(bookings[after.booking.value].request)))
  }

  /** One more debit: it charges a job again exactly if a job of its row has one. */
  lemma AppendOnceIff(bookings: map<BookingId, Booking>, book: Book, e: Entry)
    requires AllOnce(bookings, book) && e.kind.CommissionDebit? && e.txn.Some? && e.txn.value < |book.txns|
    ensures AllOnce(bookings, book.(ledger := book.ledger + [e])) <==> NoJobDebited(bookings, book, e.txn.value)
  {
    forall b | b in bookings
      ensures JobOnce(book.(ledger := book.ledger + [e]), b, bookings[b].request)
              <==> (Concerns(book.txns[e.txn.value], b, bookings[b].request) ==> !D.HasDebit(book, b, bookings[b].request))
    {
      AppendJobOnceIff(book, e, b, bookings[b].request);
    }
  }

  lemma AppendJobOnceIff(book: Book, e: Entry, b: BookingId, r: RequestId)
    requires JobOnce(book, b, r) && e.kind.CommissionDebit? && e.txn.Some? && e.txn.value < |book.txns|
    ensures JobOnce(book.(ledger := book.ledger + [e]), b, r) <==> (Concerns(book.txns[e.txn.value], b, r) ==> !D.HasDebit(book, b, r))
  {
    var n, ledger := |book.ledger|, book.ledger + [e];
    assert ledger[n] == e && forall i :: 0 <= i < n ==> ledger[i] == book.ledger[i];
    if D.HasDebit(book, b, r) && Concerns(book.txns[e.txn.value], b, r) {
      var i :| 0 <= i < n && OnJob(book.txns, book.ledger[i], b, r);
      assert OnJob(book.txns, ledger[i], b, r) && OnJob(book.txns, ledger[n], b, r);
    } else {
      forall i, j | 0 <= i < j < |ledger| && OnJob(book.txns, ledger[i], b, r) ensures !OnJob(book.txns, ledger[j], b, r) {
        if j == n { assert OnJob(book.txns, book.ledger[i], b, r); }
      }
    }
  }

  // ----- what confirmations write to the ledger ----------------------------------------------

  lemma TriggerWrites(rates: Rates, now: Instant, book: Book, id: TxnId, t: Txn)
    requires id < |book.txns| && t.status.Confirmed? && UpdateRow(rates, now, book, id, t).Some?
    ensures UpdateRow(rates, now, book, id, t).value ==
            Book(book.txns[id := t],
                 if !book.txns[id].status.Confirmed? && !Debited(book.ledger, id) then book.ledger + [TriggerEntry(rates, now, id, t)]
                 else book.ledger)
  {
    assert Collides(book.ledger, TriggerEntry(rates, now, id, t)) <==> Debited(book.ledger, id);
  }

  /** Where a debit is added there is one entry for the row, and nothing else changes in the ledger. */
  predicate AddsFor(before: seq<Entry>, after: seq<Entry>, id: TxnId) {
    && |after| == |before| + 1 && before == after[..|before|]
    && after[|before|].kind.CommissionDebit? && after[|before|].txn == Some(id)
  }

  lemma ConfirmWrites(rates: Rates, now: Instant, book: Book, caller: PersonId, id: TxnId)
    requires Confirm(rates, now, book, caller, id).Ok?
    ensures var after := Confirm(rates, now, book, caller, id).value;
            && |after.txns| == |book.txns|
            && (forall i :: 0 <= i < |book.txns| ==> after.txns[i].booking == book.txns[i].booking && after.txns[i].request == book.txns[i].request)
            && (if Debited(book.ledger, id) then after.ledger == book.ledger else AddsFor(book.ledger, after.ledger, id))
  {
    TriggerWrites(rates, now, book, id,
      book.txns[id].(status := TxnStatus.Confirmed, confirmedAt := Some(now), confirmedBy := Some(caller)));
  }

  lemma BeforeBookingWrites(rates: Rates, now: Instant, book: Book, b: BookingId, k: Booking, owner: PersonId, id: TxnId)
    requires Newest(book.txns, b, k.request) == Some(id) && TxnChecks(book.txns[id])
    ensures var after := BeforeBooking(rates, now, book, b, k, owner, id);
            if !book.txns[id].status.Confirmed? && ConfirmsNewest(rates, book.txns, b, k, owner, id) && !Debited(book.ledger, id)
            then AddsFor(book.ledger, after.ledger, id)
            else after.ledger == book.ledger
  {
    BeforeBookingOutcome(rates, now, book, b, k, owner, id);
    var row, last := ForcedRow(book.txns[id], now, b, owner, ResolveAmount(book.txns, k, b)), LastResortRow(book.txns[id], now);
    if T.Forces(rates, book.txns, b, k, id) {
      T.ForcedGoesThrough(rates, now, book, b, k, owner, id);
      TriggerWrites(rates, now, book, id, row);
    } else {
      T.ForcedIsRejected(rates, now, book, b, k, owner, id);
      UnforcedWrites(rates, now, book, b, k, owner, id);
    }
  }

  lemma UnforcedWrites(rates: Rates, now: Instant, book: Book, b: BookingId, k: Booking, owner: PersonId, id: TxnId)
    requires Newest(book.txns, b, k.request) == Some(id) && TxnChecks(book.txns[id]) && !T.Forces(rates, book.txns, b, k, id)
    requires UpdateRow(rates, now, book, id, ForcedRow(book.txns[id], now, b, owner, ResolveAmount(book.txns, k, b))).None?
    ensures var after := BeforeBooking(rates, now, book, b, k, owner, id);
            if ConfirmsNewest(rates, book.txns, b, k, owner, id) && !Debited(book.ledger, id)
            then AddsFor(book.ledger, after.ledger, id)
            else after.ledger == book.ledger
  {
    var last := LastResortRow(book.txns[id], now);
    BeforeBookingOutcome(rates, now, book, b, k, owner, id);
    if UpdateRow(rates, now, book, id, last).Some? {
      TriggerWrites(rates, now, book, id, last);
    } else if Confirm(rates, now, book, owner, id).Ok? {
      ConfirmWrites(rates, now, book, owner, id);
    }
  }

  /** What is left to book after the confirmation is what was before it, or nothing. */
  lemma LeftToBook(rates: Rates, now: Instant, book: Book, b: BookingId, k: Booking, owner: PersonId, id: TxnId)
    requires Newest(book.txns, b, k.request) == Some(id) && TxnChecks(book.txns[id])
    ensures var after := BeforeBooking(rates, now, book, b, k, owner, id);
            if !book.txns[id].status.Confirmed? && ConfirmsNewest(rates, book.txns, b, k, owner, id)
            then NothingToBook(rates, after, b, k, Some(id))
            else NothingToBook(rates, after, b, k, Some(id)) == NothingToBook(rates, book, b, k, Some(id))
  {
    var after := BeforeBooking(rates, now, book, b, k, owner, id);
    BeforeBookingWrites(rates, now, book, b, k, owner, id);
    BeforeBookingOutcome(rates, now, book, b, k, owner, id);
    if book.txns[id].status.Confirmed? {
      T.ForcedGoesThrough(rates, now, book, b, k, owner, id);
      P.NewestKept(book.txns, b, k.request, id, after.txns[id]);
    } else if ConfirmsNewest(rates, book.txns, b, k, owner, id) {
      if !Debited(book.ledger, id) { assert after.ledger[|book.ledger|].txn == Some(id); }
      assert AlreadyBooked(after.ledger, Some(id), b);
    }
  }

  lemma PaymentWrites(rates: Rates, now: Instant, book: Book, b: BookingId, k: Booking, owner: PersonId, id: TxnId)
    requires Newest(book.txns, b, k.request) == Some(id) && TxnChecks(book.txns[id])
    ensures var after := Settled(rates, now, book, b, k, owner);
            && after.txns == BeforeBooking(rates, now, book, b, k, owner, id).txns
            && (if PaymentCharges(rates, book, b, k, owner, id) then AddsFor(book.ledger, after.ledger, id)
                else after.ledger == book.ledger)
  {
    var before := BeforeBooking(rates, now, book, b, k, owner, id);
    BeforeBookingWrites(rates, now, book, b, k, owner, id);
    LeftToBook(rates, now, book, b, k, owner, id);
    BookOnPaidOutcome(rates, now, before, b, k, Some(id));
    assert Settled(rates, now, book, b, k, owner) == BookOnPaid(rates, now, before, b, k, Some(id));
  }

  // ----- calls -------------------------------------------------------------------------------

  /** A call that adds a debit for one row and keeps rows in their jobs. */
  lemma AddedOnceIff(bookings: map<BookingId, Booking>, book: Book, after: Book, id: TxnId)
    requires AllOnce(bookings, book) && Placed(book) && O.UniqueJobs(bookings) && |after.txns| == |book.txns| && id < |book.txns|
    requires forall i :: 0 <= i < |book.txns| ==> InJob(bookings, book.txns[i], after.txns[i])
    requires AddsFor(book.ledger, after.ledger, id)
    ensures AllOnce(bookings, after) <==> NoJobDebited(bookings, book, id)
  {
    var e := after.ledger[|book.ledger|];
    var charged := book.(ledger := book.ledger + [e]);
    assert after.ledger == book.ledger + [e];
    AppendOnceIff(bookings, book, e);
    InJobOnceIff(bookings, charged, after.txns);
    assert charged.(txns := after.txns) == after;
  }

  lemma ConfirmOnceIff(rates: Rates, s: Shop, caller: PersonId, id: TxnId)
    requires AllOnce(s.bookings, s.book) && Placed(s.book) && O.UniqueJobs(s.bookings)
    ensures AllOnce(s.bookings, After(s.book, Confirm(rates, s.now, s.book, caller, id))) <==> KeepsOnce(rates, s, ConfirmTxn(caller, id))
  {
    if Confirm(rates, s.now, s.book, caller, id).Ok? {
      var after := Confirm(rates, s.now, s.book, caller, id).value;
      ConfirmWrites(rates, s.now, s.book, caller, id);
      if Debited(s.book.ledger, id) {
        InJobOnceIff(s.bookings, s.book, after.txns);
        assert s.book.(txns := after.txns) == after;
      } else {
        AddedOnceIff(s.bookings, s.book, after, id);
      }
    }
  }

  lemma NewestPaymentOnceIff(rates: Rates, s: Shop, b: BookingId, id: TxnId)
    requires AllOnce(s.bookings, s.book) && Placed(s.book) && O.UniqueJobs(s.bookings) && P.Checked(s) && b in s.bookings
    requires Newest(s.book.txns, b, s.bookings[b].request) == Some(id)
    ensures AllOnce(s.bookings, Settled(rates, s.now, s.book, b, s.bookings[b], OwnerOf(s, b))) <==> PaymentKeepsOnce(rates, s, b)
  {
    var k, owner := s.bookings[b], OwnerOf(s, b);
    var after := Settled(rates, s.now, s.book, b, k, owner);
    assert TxnChecks(s.book.txns[id]);
    PaymentWrites(rates, s.now, s.book, b, k, owner, id);
    BeforeBookingOutcome(rates, s.now, s.book, b, k, owner, id);
    assert forall i :: 0 <= i < |s.book.txns| ==> InJob(s.bookings, s.book.txns[i], after.txns[i]);
    if PaymentCharges(rates, s.book, b, k, owner, id) {
      AddedOnceIff(s.bookings, s.book, after, id);
    } else {
      InJobOnceIff(s.bookings, s.book, after.txns);
      assert s.book.(txns := after.txns) == after;
    }
  }

  lemma InsertedPaymentOnce(rates: Rates, s: Shop, b: BookingId)
    requires AllOnce(s.bookings, s.book) && Placed(s.book) && O.UniqueJobs(s.bookings) && b in s.bookings
    requires Newest(s.book.txns, b, s.bookings[b].request).None?
    ensures AllOnce(s.bookings, Settled(rates, s.now, s.book, b, s.bookings[b], OwnerOf(s, b)))
  {
    var k, owner := s.bookings[b], OwnerOf(s, b);
    InsertedOutcome(rates, s.now, s.book, b, k, owner);
    if ResolveAmount(s.book.txns, k, b) > 0 && k.provider.Some? {
      var inserted := s.book.(txns := s.book.txns + [PaidRow(s.now, b, k, owner, k.provider.value, ResolveAmount(s.book.txns, k, b))]);
      var id := |s.book.txns|;
      InJobOnceIff(s.bookings, s.book, inserted.txns);
      BookOnPaidOutcome(rates, s.now, inserted, b, k, Some(id));
      if !NothingToBook(rates, inserted, b, k, Some(id)) {
        AppendOnceIff(s.bookings, inserted,
          PaidEntry(rates, s.now, b, k.provider.value, Some(id), ResolveAmount(inserted.txns, k, b)));
        NewRowUndebited(s, b, inserted.txns[id]);
      }
    }
  }

  lemma NewRowUndebited(s: Shop, b: BookingId, row: Txn)
    requires Placed(s.book) && O.UniqueJobs(s.bookings) && b in s.bookings && Newest(s.book.txns, b, s.bookings[b].request).None?
    requires row.booking == Some(b) && row.request == Some(s.bookings[b].request)
    ensures NoJobDebited(s.bookings, s.book.(txns := s.book.txns + [row]), |s.book.txns|)
  {
    var txns, r := s.book.txns + [row], s.bookings[b].request;
    assert forall x :: x in s.bookings && Concerns(row, x, s.bookings[x].request) ==> x == b;
    assert forall i :: 0 <= i < |s.book.txns| ==> txns[i] == s.book.txns[i] && !Concerns(txns[i], b, r);
  }

  lemma RecordOnce(s: Shop, recorder: PersonId, input: RecordInput)
    requires AllOnce(s.bookings, s.book) && Placed(s.book) && O.UniqueJobs(s.bookings)
    ensures AllOnce(s.bookings, s.book.(txns := AfterRecord(s.book.txns, RecordService(DirectoryOf(s), s.book.txns, recorder, input))))
  {
    InJobOnceIff(s.bookings, s.book, AfterRecord(s.book.txns, RecordService(DirectoryOf(s), s.book.txns, recorder, input)));
  }

  /** Whatever rewrites bookings within their requests, and rows within their jobs, charges nothing. */
  lemma PutOnceIff(before: map<BookingId, Booking>, after: map<BookingId, Booking>, book: Book)
    requires forall b :: b in after <==> b in before
    requires forall b :: b in before ==> after[b].request == before[b].request
    ensures AllOnce(after, book) <==> AllOnce(before, book)
  {}

  lemma OpenBookingOnceIff(s: Shop, b: BookingId, k: Booking)
    requires AllOnce(s.bookings, s.book) && b !in s.bookings
    ensures AllOnce(Put(s, b, k).bookings, s.book) <==> JobOnce(s.book, b, k.request)
  {
    var after := Put(s, b, k).bookings;
    assert forall x :: x in s.bookings ==> x in after && after[x] == s.bookings[x];
    assert b in after && after[b] == k;
  }

  lemma PaymentOnceIff(rates: Rates, s: Shop, b: BookingId, received: bool)
    requires AllOnce(s.bookings, s.book) && Placed(s.book) && O.UniqueJobs(s.bookings) && P.Checked(s) && b in s.bookings
    ensures AllOnce(s.bookings, Apply(rates, s, ProviderConfirmPayment(b, received)).book) <==> (received ==> PaymentKeepsOnce(rates, s, b))
  {
    PaymentCallWrites(rates, s, b);
    if received {
      match Newest(s.book.txns, b, s.bookings[b].request)
      case None => InsertedPaymentOnce(rates, s, b);
      case Some(id) => NewestPaymentOnceIff(rates, s, b, id);
    } else {
      InJobOnceIff(s.bookings, s.book, AllDisputed(s.book.txns, b, s.bookings[b].request));
    }
  }

  /** The other calls write no debit and keep every row in its jobs. */
  lemma OtherCallOnce(rates: Rates, s: Shop, call: Call)
    requires AllOnce(s.bookings, s.book) && Placed(s.book) && O.UniqueJobs(s.bookings)
    requires !call.ConfirmTxn? && !call.ProviderConfirmPayment? && !call.OpenBooking?
    ensures AllOnce(s.bookings, Apply(rates, s, call).book)
  {
    var after := Apply(rates, s, call).book;
    assert after.ledger == s.book.ledger;
    RowsStayInJob(rates, s, call);
    InJobOnceIff(s.bookings, s.book, after.txns);
    assert s.book.(txns := after.txns) == after;
  }

  lemma RowsStayInJob(rates: Rates, s: Shop, call: Call)
    requires !call.ConfirmTxn? && !call.ProviderConfirmPayment? && !call.OpenBooking?
    ensures var txns := Apply(rates, s, call).book.txns;
            && |s.book.txns| <= |txns|
            && forall i :: 0 <= i < |s.book.txns| ==> InJob(s.bookings, s.book.txns[i], txns[i])
  {}

  lemma BookingsStay(rates: Rates, s: Shop, call: Call)
    requires !call.OpenBooking?
    ensures var after := Apply(rates, s, call).bookings;
            && (forall b :: b in after <==> b in s.bookings)
            && forall b :: b in s.bookings ==> after[b].request == s.bookings[b].request
  {}

  /** Every call keeps each job charged at most once exactly if its check holds; for all calls but
      confirmations, payments and new bookings that is always. */
  lemma ApplyOnceIff(rates: Rates, s: Shop, call: Call)
    requires AllOnce(s.bookings, s.book) && ShopSound(rates, s) && P.Checked(s)
    ensures AllOnce(Apply(rates, s, call).bookings, Apply(rates, s, call).book) <==> KeepsOnce(rates, s, call)
  {
    SoundIsPlaced(rates, s);
    match call
    case OpenBooking(b, request, garageVisit, provider) =>
      if b !in s.bookings && request in s.owners && !RequestTaken(s, request) {
        OpenBookingOnceIff(s, b, Booking(request, garageVisit, provider, Scheduled, None, None, None, false, false));
      }
    case _ =>
      BookingsStay(rates, s, call);
      PutOnceIff(s.bookings, Apply(rates, s, call).bookings, Apply(rates, s, call).book);
      SteadyCallOnceIff(rates, s, call);
  }

  lemma SteadyCallOnceIff(rates: Rates, s: Shop, call: Call)
    requires AllOnce(s.bookings, s.book) && Placed(s.book) && O.UniqueJobs(s.bookings) && P.Checked(s) && !call.OpenBooking?
    ensures AllOnce(s.bookings, Apply(rates, s, call).book) <==> KeepsOnce(rates, s, call)
  {
    match call
    case ConfirmTxn(caller, id) => ConfirmOnceIff(rates, s, caller, id);
    case ProviderConfirmPayment(b, received) => if b in s.bookings { PaymentOnceIff(rates, s, b, received); }
    case _ => OtherCallOnce(rates, s, call);
  }

  lemma SoundIsPlaced(rates: Rates, s: Shop)
    requires ShopSound(rates, s)
    ensures Placed(s.book) && O.UniqueJobs(s.bookings)
  {
    var links := LinksOf(s);
    forall b, b' | b in s.bookings && b' in s.bookings && s.bookings[b].request == s.bookings[b'].request ensures b == b' {
      assert links[b].request == links[b'].request;
    }
  }

  // ----- whole runs --------------------------------------------------------------------------

  ghost predicate OnceThroughout(rates: Rates, s: Shop, steps: seq<Step>)
    decreases |steps|
  {
    AllOnce(s.bookings, s.book) && (steps != [] ==> OnceThroughout(rates, Next(rates, s, steps[0]), steps[1..]))
  }

  ghost predicate AllKeepOnce(rates: Rates, s: Shop, steps: seq<Step>)
    decreases |steps|
  {
    steps != [] ==>
      KeepsOnce(rates, Elapsed(s, steps[0]), steps[0].call) && AllKeepOnce(rates, Next(rates, s, steps[0]), steps[1..])
  }

  lemma {:induction false} RunOnceIff(rates: Rates, s: Shop, steps: seq<Step>)
    requires AllOnce(s.bookings, s.book) && ShopSound(rates, s) && P.Checked(s)
    ensures OnceThroughout(rates, s, steps) <==> AllKeepOnce(rates, s, steps)
    decreases |steps|
  {
    if steps != [] {
      var s', next := Elapsed(s, steps[0]), Next(rates, s, steps[0]);
      assert LinksOf(s') == LinksOf(s);
      ApplyOnceIff(rates, s', steps[0].call);
      if AllOnce(next.bookings, next.book) {
        ApplySound(rates, s', steps[0].call);
        P.ApplyChecked(rates, s', steps[0].call);
        RunOnceIff(rates, next, steps[1..]);
      }
    }
  }

  /** Over all runs: at every moment every job has at most one debit exactly if no confirmation or payment
      books one on a row of a job that has one, and no booking is opened on a request charged twice. */
  lemma JobChargedOnceIff(rates: Rates, owners: map<RequestId, PersonId>, steps: seq<Step>)
    ensures OnceThroughout(rates, Opening(owners), steps) <==> AllKeepOnce(rates, Opening(owners), steps)
  {
    RunOnceIff(rates, Opening(owners), steps);
  }

  // ----- a job charged twice -----------------------------------------------------------------

  function AgainSteps(owner: PersonId, more: Cents): seq<Step> {
    [Now(ConfirmTxn(owner, 0)), Now(SetBill(0, more)), Now(ProviderConfirmPayment(0, true))]
  }

  function ConfirmedJob(rates: Rates, owner: PersonId, provider: PersonId, amount: Cents): Shop {
    var row := T.ConfirmedRow(owner, provider, amount);
    BilledJob(owner, provider, amount).(book := Book([row], [TriggerEntry(rates, Instant(0, 0), 0, row)]))
  }

  lemma OwnerConfirms(rates: Rates, owner: PersonId, provider: PersonId, amount: Cents)
    requires amount > 0 && Commission(amount, rates.trigger) > 0
    ensures Apply(rates, BilledJob(owner, provider, amount), ConfirmTxn(owner, 0)) == ConfirmedJob(rates, owner, provider, amount)
  {
    var s := BilledJob(owner, provider, amount);
    assert !Collides(s.book.ledger, TriggerEntry(rates, s.now, 0, T.ConfirmedRow(owner, provider, amount)));
  }

  lemma BilledAgain(rates: Rates, owner: PersonId, provider: PersonId, amount: Cents, more: Cents)
    requires amount > 0 && more > 0
    ensures var s := ConfirmedJob(rates, owner, provider, amount);
            Apply(rates, s, SetBill(0, more)) ==
            s.(bookings := map[0 := s.bookings[0].(bill := Some(more))],
               book := s.book.(txns := s.book.txns + [BilledRow(owner, provider, more)]))
  {
    var s := ConfirmedJob(rates, owner, provider, amount);
    var billed := s.(bookings := map[0 := s.bookings[0].(bill := Some(more))]);
    assert NewestAwaiting(s.book.txns, 0) == None;
    assert Apply(rates, s, SetBill(0, more)) == RecordForJob(billed, 0, provider, more);
  }

  lemma PaidAgain(rates: Rates, s: Shop, owner: PersonId, provider: PersonId, amount: Cents, more: Cents)
    requires amount > 0 && more > 0 && Commission(more, rates.trigger) > 0
    requires 0 in s.bookings && s.bookings[0].request == 0 && s.bookings[0].bill == Some(more)
    requires s.book.txns == [T.ConfirmedRow(owner, provider, amount), BilledRow(owner, provider, more)]
    requires s.book.ledger == [TriggerEntry(rates, Instant(0, 0), 0, T.ConfirmedRow(owner, provider, amount))]
    ensures var book := Apply(rates, s, ProviderConfirmPayment(0, true)).book;
            && |book.txns| == 2 && |book.ledger| == 2
            && book.ledger[1].kind.CommissionDebit? && book.ledger[1].txn == Some(1) && book.ledger[0] == s.book.ledger[0]
            && Concerns(book.txns[1], 0, 0) && book.txns[0] == s.book.txns[0]
  {
    var k, owner' := s.bookings[0], OwnerOf(s, 0);
    assert Newest(s.book.txns, 0, 0) == Some(1);
    assert !Debited(s.book.ledger, 1);
    PaymentWrites(rates, s.now, s.book, 0, k, owner', 1);
    BeforeBookingOutcome(rates, s.now, s.book, 0, k, owner', 1);
    PaymentCallWrites(rates, s, 0);
  }

  /** From the opening state: a billed job confirmed by its owner, billed again and paid. Recordings carry
      their booking throughout, and the job has two debits. */
  lemma BilledAgainIsChargedTwice(rates: Rates, owner: PersonId, provider: PersonId, amount: Cents, more: Cents)
    requires amount > 0 && more > 0 && Commission(amount, rates.trigger) > 0 && Commission(more, rates.trigger) > 0
    ensures var s := Run(rates, Opening(map[0 := owner]), BillingSteps(provider, amount) + AgainSteps(owner, more));
            && 0 in s.bookings && |s.book.ledger| == 2
            && OnJob(s.book.txns, s.book.ledger[0], 0, 0) && OnJob(s.book.txns, s.book.ledger[1], 0, 0)
  {
    var steps := AgainSteps(owner, more);
    var billed, confirmed := BilledJob(owner, provider, amount), ConfirmedJob(rates, owner, provider, amount);
    var again := Apply(rates, confirmed, steps[1].call);
    BilledThenAll(rates, owner, provider, amount, steps);
    assert steps == [steps[0]] + ([steps[1]] + [steps[2]]);
    RunNow(rates, billed, steps[0].call, [steps[1]] + [steps[2]]);
    OwnerConfirms(rates, owner, provider, amount);
    RunNow(rates, confirmed, steps[1].call, [steps[2]]);
    RunOne(rates, again, steps[2].call);
    BilledAgain(rates, owner, provider, amount, more);
    PaidAgain(rates, again, owner, provider, amount, more);
    BookingsStay(rates, again, steps[2].call);
  }
}
