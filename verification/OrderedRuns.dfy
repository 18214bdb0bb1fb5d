/** The payment path confirms the newest row of a job. When is that the job's only awaiting row? Exactly
    while no call records a second row beside one that awaits. */
module OrderedRuns {
  import opened Tables
  import opened Money
  import opened Ledger
  import opened Transactions
  import opened Jobs
  import opened Payments

  ghost predicate UniqueJobs(bookings: map<BookingId, Booking>) {
    forall b, b' :: b in bookings && b' in bookings && bookings[b].request == bookings[b'].request ==> b == b'
  }

  /** No row of a job awaits confirmation if a later row belongs to the same job. */
  ghost predicate Ordered(bookings: map<BookingId, Booking>, txns: seq<Txn>) {
    forall b :: b in bookings ==> JobOrdered(txns, b, bookings[b].request)
  }

  predicate JobOrdered(txns: seq<Txn>, b: BookingId, r: RequestId) {
    forall i, j :: 0 <= i < j < |txns| && Concerns(txns[j], b, r) ==> !Awaits(txns[i], b, r)
  }

  /** That is: an awaiting row of a job is the one that the payment path's lookup finds. */
  lemma OrderedIsNewest(txns: seq<Txn>, b: BookingId, r: RequestId)
    ensures JobOrdered(txns, b, r) <==> forall i :: 0 <= i < |txns| && Awaits(txns[i], b, r) ==> Newest(txns, b, r) == Some(i)
  {
    var found := Newest(txns, b, r);
    if !JobOrdered(txns, b, r) {
      var i, j :| 0 <= i < j < |txns| && Concerns(txns[j], b, r) && Awaits(txns[i], b, r);
      assert found.value >= j;
    } else {
      forall i | 0 <= i < |txns| && Awaits(txns[i], b, r) ensures found == Some(i) {
        assert found.Some? && found.value >= i;
      }
    }
  }

  // ----- the check before a call -------------------------------------------------------------

  /** A recording corrects an awaiting row of its booking, is refused, or finds no awaiting row in any
      job that it names. */
  ghost predicate RecordClear(s: Shop, recorder: PersonId, input: RecordInput) {
    RecordService(DirectoryOf(s), s.book.txns, recorder, input).Ok? && ExistingFor(s.book.txns, input).None? ==>
      forall b, i :: b in s.bookings && 0 <= i < |s.book.txns| && Awaits(s.book.txns[i], b, s.bookings[b].request) ==>
        input.booking != Some(b) && input.request != Some(s.bookings[b].request)
  }

  ghost predicate KeepsOrder(s: Shop, call: Call) {
    match call
    case Record(recorder, input) => RecordClear(s, recorder, input)
    case SetBill(b, amount) =>
      (DoSetBill(s, b, amount).Ok? && s.bookings[b].provider.Some? ==>
         RecordClear(s, s.bookings[b].provider.value, JobInput(s, b, amount)))
    case OpenBooking(b, request, _, _) =>
      (b !in s.bookings && request in s.owners && !RequestTaken(s, request) ==> JobOrdered(s.book.txns, b, request))
    case _ => true
  }

  // ----- rows --------------------------------------------------------------------------------

  /** A row stays in its job; at most its booking is filled in, and it does not go back to awaiting. */
  predicate StaysInJob(bookings: map<BookingId, Booking>, before: Txn, after: Txn) {
    && after.request == before.request
    && (after.status.AwaitingConfirmation? ==> before.status.AwaitingConfirmation?)
    && (|| after.booking == before.booking
        || (before.booking.None? && after.booking.Some? && after.booking.value in bookings
            && before.request == Some(bookings[after.booking.value].request)))
  }

  lemma RowsOrdered(bookings: map<BookingId, Booking>, before: seq<Txn>, after: seq<Txn>)
    requires UniqueJobs(bookings) && Ordered(bookings, before) && |before| == |after|
    requires forall i :: 0 <= i < |before| ==> StaysInJob(bookings, before[i], after[i])
    ensures Ordered(bookings, after)
  {
    forall b | b in bookings ensures JobOrdered(after, b, bookings[b].request) {
      var r := bookings[b].request;
      forall i | 0 <= i < |before| ensures Concerns(before[i], b, r) == Concerns(after[i], b, r) {
        assert StaysInJob(bookings, before[i], after[i]);
      }
      assert JobOrdered(before, b, r);
    }
  }

  lemma AppendOrderedIff(bookings: map<BookingId, Booking>, txns: seq<Txn>, row: Txn)
    requires Ordered(bookings, txns)
    ensures Ordered(bookings, txns + [row]) <==>
            forall b, i :: b in bookings && 0 <= i < |txns| && Awaits(txns[i], b, bookings[b].request) ==>
              !Concerns(row, b, bookings[b].request)
  {
    var after := txns + [row];
    assert forall i :: 0 <= i < |txns| ==> after[i] == txns[i];
    if Ordered(bookings, after) {
      forall b, i | b in bookings && 0 <= i < |txns| && Awaits(txns[i], b, bookings[b].request)
        ensures !Concerns(row, b, bookings[b].request)
      {
        assert JobOrdered(after, b, bookings[b].request) && Awaits(after[i], b, bookings[b].request) && after[|txns|] == row;
      }
    } else {
      var b :| b in bookings && !JobOrdered(after, b, bookings[b].request);
      var i, j :| 0 <= i < j < |after| && Concerns(after[j], b, bookings[b].request) && Awaits(after[i], b, bookings[b].request);
      assert JobOrdered(txns, b, bookings[b].request);
      assert j == |txns| && Awaits(txns[i], b, bookings[b].request);
    }
  }

  lemma RecordOrderedIff(s: Shop, recorder: PersonId, input: RecordInput)
    requires UniqueJobs(s.bookings) && Ordered(s.bookings, s.book.txns)
    ensures Ordered(s.bookings, AfterRecord(s.book.txns, RecordService(DirectoryOf(s), s.book.txns, recorder, input)))
            <==> RecordClear(s, recorder, input)
  {
    var txns, outcome := s.book.txns, RecordService(DirectoryOf(s), s.book.txns, recorder, input);
    if outcome.Ok? {
      if ExistingFor(txns, input).Some? {
        RowsOrdered(s.bookings, txns, outcome.value.0);
      } else {
        AppendOrderedIff(s.bookings, txns, outcome.value.0[|txns|]);
      }
    }
  }

  lemma ConfirmOrdered(rates: Rates, now: Instant, bookings: map<BookingId, Booking>, book: Book, caller: PersonId, id: TxnId)
    requires UniqueJobs(bookings) && Ordered(bookings, book.txns)
    ensures Ordered(bookings, After(book, Confirm(rates, now, book, caller, id)).txns)
  {
    RowsOrdered(bookings, book.txns, After(book, Confirm(rates, now, book, caller, id)).txns);
  }

  lemma SettledOrdered(rates: Rates, s: Shop, b: BookingId)
    requires UniqueJobs(s.bookings) && Ordered(s.bookings, s.book.txns) && b in s.bookings
    ensures Ordered(s.bookings, Settled(rates, s.now, s.book, b, s.bookings[b], OwnerOf(s, b)).txns)
  {
    var k, owner := s.bookings[b], OwnerOf(s, b);
    match Newest(s.book.txns, b, k.request)
    case None =>
      InsertedOutcome(rates, s.now, s.book, b, k, owner);
      if ResolveAmount(s.book.txns, k, b) > 0 && k.provider.Some? {
        AppendOrderedIff(s.bookings, s.book.txns, PaidRow(s.now, b, k, owner, k.provider.value, ResolveAmount(s.book.txns, k, b)));
      }
    case Some(id) =>
      var confirmed := BeforeBooking(rates, s.now, s.book, b, k, owner, id);
      BeforeBookingOutcome(rates, s.now, s.book, b, k, owner, id);
      RowsOrdered(s.bookings, s.book.txns, confirmed.txns);
      assert Settled(rates, s.now, s.book, b, k, owner).txns == confirmed.txns;
  }

  // ----- calls -------------------------------------------------------------------------------

  /** Rewriting a booking within its request changes no job. */
  lemma PutOrdered(s: Shop, b: BookingId, k: Booking)
    requires b in s.bookings && k.request == s.bookings[b].request
    ensures UniqueJobs(s.bookings) ==> UniqueJobs(Put(s, b, k).bookings)
    ensures forall txns :: Ordered(Put(s, b, k).bookings, txns) <==> Ordered(s.bookings, txns)
  {
    var after := Put(s, b, k).bookings;
    assert forall x :: x in after <==> x in s.bookings;
    assert forall x :: x in after ==> after[x].request == s.bookings[x].request;
  }

  lemma AutoBillOrdered(s: Shop, b: BookingId, q: Quote)
    requires UniqueJobs(s.bookings) && Ordered(s.bookings, s.book.txns)
    ensures Ordered(DoAutoBill(s, b, q).bookings, DoAutoBill(s, b, q).book.txns)
  {
    if DoAutoBill(s, b, q) != s {
      RecordOrderedIff(s, s.bookings[b].provider.value, JobInput(s, b, BillAmount(q)));
    }
  }

  lemma SetStatusOrdered(s: Shop, b: BookingId, to: Phase, q: Quote)
    requires UniqueJobs(s.bookings) && Ordered(s.bookings, s.book.txns)
    ensures var after := AfterJob(s, DoSetStatus(s, b, to, q)); UniqueJobs(after.bookings) && Ordered(after.bookings, after.book.txns)
  {
    if b in s.bookings {
      var k := Stamped(s.bookings[b], to, s.now.tick);
      PutOrdered(s, b, k);
      AutoBillOrdered(s, b, q);
      AutoBillOrdered(Put(s, b, k), b, q);
    }
  }

  lemma SetBillOrderedIff(s: Shop, b: BookingId, amount: Cents)
    requires UniqueJobs(s.bookings) && Ordered(s.bookings, s.book.txns)
    ensures var after := AfterJob(s, DoSetBill(s, b, amount));
            && UniqueJobs(after.bookings)
            && (Ordered(after.bookings, after.book.txns) <==> KeepsOrder(s, SetBill(b, amount)))
  {
    if DoSetBill(s, b, amount).Ok? {
      var k := s.bookings[b].(bill := Some(amount), phase := AwaitingPayment, satisfied := true);
      var billed := Put(s, b, k);
      PutOrdered(s, b, k);
      if k.provider.Some? {
        RecordOrderedIff(s, k.provider.value, JobInput(s, b, amount));
        assert DirectoryOf(billed) == DirectoryOf(s) && JobInput(billed, b, amount) == JobInput(s, b, amount);
      }
    }
  }

  lemma PaymentOrdered(rates: Rates, s: Shop, b: BookingId, received: bool)
    requires UniqueJobs(s.bookings) && Ordered(s.bookings, s.book.txns) && b in s.bookings
    ensures var after := Apply(rates, s, ProviderConfirmPayment(b, received));
            UniqueJobs(after.bookings) && Ordered(after.bookings, after.book.txns)
  {
    var k := s.bookings[b];
    var k' := if received then k.(phase := Paid, paymentConfirmed := true) else k.(phase := PaymentRejected);
    PutOrdered(s, b, k');
    if received {
      SettledOrdered(rates, s, b);
    } else {
      RowsOrdered(s.bookings, s.book.txns, AllDisputed(s.book.txns, b, k.request));
    }
    assert Apply(rates, s, ProviderConfirmPayment(b, received)).bookings == Put(s, b, k').bookings;
  }

  lemma WorkCallOrdered(rates: Rates, s: Shop, call: Call)
    requires UniqueJobs(s.bookings) && Ordered(s.bookings, s.book.txns)
    requires call.ConfirmArrival? || call.StartService? || call.FinishService? || call.ConfirmSatisfaction?
             || call.ProviderDeny? || call.CustomerUnsatisfied? || call.RestartService?
    ensures var after := Apply(rates, s, call); UniqueJobs(after.bookings) && Ordered(after.bookings, after.book.txns)
  {
    var after := Apply(rates, s, call);
    if after != s {
      PutOrdered(s, call.id, after.bookings[call.id]);
      assert after == Put(s, call.id, after.bookings[call.id]);
    }
  }

  lemma MarksPaidOrdered(s: Shop, b: BookingId)
    requires UniqueJobs(s.bookings) && Ordered(s.bookings, s.book.txns)
    ensures var after := AfterJob(s, DoMarksPaid(s, b)); UniqueJobs(after.bookings) && Ordered(after.bookings, after.book.txns)
  {
    if b in s.bookings {
      PutOrdered(s, b, s.bookings[b].(phase := CustomerClaimsPaid));
      RowsOrdered(s.bookings, s.book.txns, Linked(s.book.txns, b, s.bookings[b].request));
    }
  }

  lemma OpenBookingOrderedIff(s: Shop, b: BookingId, k: Booking)
    requires UniqueJobs(s.bookings) && Ordered(s.bookings, s.book.txns) && b !in s.bookings && !RequestTaken(s, k.request)
    ensures UniqueJobs(Put(s, b, k).bookings)
    ensures Ordered(Put(s, b, k).bookings, s.book.txns) <==> JobOrdered(s.book.txns, b, k.request)
  {
    var after := Put(s, b, k).bookings;
    assert forall x :: x in s.bookings ==> x in after && after[x] == s.bookings[x];
    assert b in after && after[b] == k;
  }

  /** Every call keeps each job's awaiting row the newest exactly if its check holds; for all calls but
      recordings, bills and new bookings that is always. */
  lemma ApplyOrderedIff(rates: Rates, s: Shop, call: Call)
    requires UniqueJobs(s.bookings) && Ordered(s.bookings, s.book.txns)
    ensures var after := Apply(rates, s, call);
            UniqueJobs(after.bookings) && (Ordered(after.bookings, after.book.txns) <==> KeepsOrder(s, call))
  {
    match call
    case Record(recorder, input) => RecordOrderedIff(s, recorder, input);
    case SetBill(b, amount) => SetBillOrderedIff(s, b, amount);
    case OpenBooking(b, request, garageVisit, provider) =>
      if b !in s.bookings && request in s.owners && !RequestTaken(s, request) {
        OpenBookingOrderedIff(s, b, Booking(request, garageVisit, provider, Scheduled, None, None, None, false, false));
      }
    case ConfirmTxn(caller, id) => ConfirmOrdered(rates, s.now, s.bookings, s.book, caller, id);
    case DisputeTxn(caller, id) => RowsOrdered(s.bookings, s.book.txns, After(s.book, Dispute(s.book, caller, id)).txns);
    case SetStatus(b, to, quote) => SetStatusOrdered(s, b, to, quote);
    case AutoBill(b, quote) => AutoBillOrdered(s, b, quote);
    case CustomerMarksPaid(b) => MarksPaidOrdered(s, b);
    case ProviderConfirmPayment(b, received) => if b in s.bookings { PaymentOrdered(rates, s, b, received); }
    case _ => WorkCallOrdered(rates, s, call);
  }

  // ----- whole runs --------------------------------------------------------------------------

  ghost predicate OrderedThroughout(rates: Rates, s: Shop, steps: seq<Step>)
    decreases |steps|
  {
    && Ordered(s.bookings, s.book.txns)
    && (steps != [] ==> OrderedThroughout(rates, Next(rates, s, steps[0]), steps[1..]))
  }

  ghost predicate AllKeepOrder(rates: Rates, s: Shop, steps: seq<Step>)
    decreases |steps|
  {
    steps != [] ==>
      KeepsOrder(Elapsed(s, steps[0]), steps[0].call) && AllKeepOrder(rates, Next(rates, s, steps[0]), steps[1..])
  }

  lemma {:induction false} RunOrderedIff(rates: Rates, s: Shop, steps: seq<Step>)
    requires UniqueJobs(s.bookings) && Ordered(s.bookings, s.book.txns)
    ensures OrderedThroughout(rates, s, steps) <==> AllKeepOrder(rates, s, steps)
    ensures AllKeepOrder(rates, s, steps) ==> Ordered(Run(rates, s, steps).bookings, Run(rates, s, steps).book.txns)
    decreases |steps|
  {
    if steps != [] {
      var next := Next(rates, s, steps[0]);
      ApplyOrderedIff(rates, Elapsed(s, steps[0]), steps[0].call);
      if Ordered(next.bookings, next.book.txns) {
        RunOrderedIff(rates, next, steps[1..]);
      }
    }
  }

  /** Over all runs: at every moment the awaiting row of each job is its newest row, and so its only one,
      exactly if every recording, bill and new booking passed its check. */
  lemma AwaitingIsNewestIff(rates: Rates, owners: map<RequestId, PersonId>, steps: seq<Step>)
    ensures OrderedThroughout(rates, Opening(owners), steps) <==> AllKeepOrder(rates, Opening(owners), steps)
  {
    RunOrderedIff(rates, Opening(owners), steps);
  }

  /** In an ordered job a payment confirmation leaves no row awaiting exactly if the newest row is not
      awaiting or ends confirmed. */
  lemma OrderedLeavesNoneAwaitingIff(rates: Rates, now: Instant, book: Book, b: BookingId, k: Booking, owner: PersonId)
    requires JobOrdered(book.txns, b, k.request)
    ensures NoneAwaiting(Settled(rates, now, book, b, k, owner).txns, b, k.request) <==>
            match Newest(book.txns, b, k.request)
            case None => true
            case Some(id) => !book.txns[id].status.AwaitingConfirmation? || ConfirmsNewest(rates, book.txns, b, k, owner, id)
  {
    LeavesNoneAwaitingIff(rates, now, book, b, k, owner);
    OrderedIsNewest(book.txns, b, k.request);
  }

  /** So it is in every state reached by a run in which every check passed. */
  lemma PaymentLeavesNoneAwaitingIff(rates: Rates, owners: map<RequestId, PersonId>, steps: seq<Step>, b: BookingId)
    requires AllKeepOrder(rates, Opening(owners), steps) && b in Run(rates, Opening(owners), steps).bookings
    ensures var s := Run(rates, Opening(owners), steps);
            var k := s.bookings[b];
            NoneAwaiting(Apply(rates, s, ProviderConfirmPayment(b, true)).book.txns, b, k.request) <==>
            match Newest(s.book.txns, b, k.request)
            case None => true
            case Some(id) => !s.book.txns[id].status.AwaitingConfirmation? || ConfirmsNewest(rates, s.book.txns, b, k, OwnerOf(s, b), id)
  {
    var s := Run(rates, Opening(owners), steps);
    RunOrderedIff(rates, Opening(owners), steps);
    OrderedLeavesNoneAwaitingIff(rates, s.now, s.book, b, s.bookings[b], OwnerOf(s, b));
    PaymentCallWrites(rates, s, b);
  }

  // ----- recordings that carry their booking -------------------------------------------------

  /** A recorded transaction carries its booking id, and no other booking's request. */
  predicate CarriesBooking(s: Shop, call: Call) {
    call.Record? ==>
      && call.input.booking.Some?
      && (call.input.booking.value in s.bookings && call.input.request.Some? ==>
            call.input.request.value == s.bookings[call.input.booking.value].request)
  }

  /** Every row carries an existing booking and no request but that booking's. */
  ghost predicate Placed(bookings: map<BookingId, Booking>, txns: seq<Txn>) {
    forall i :: 0 <= i < |txns| ==> PlacedRow(bookings, txns[i])
  }

  predicate PlacedRow(bookings: map<BookingId, Booking>, t: Txn) {
    && t.booking.Some? && t.booking.value in bookings
    && (t.request.Some? ==> t.request.value == bookings[t.booking.value].request)
  }

  lemma CarriedKeepsOrder(s: Shop, call: Call)
    requires UniqueJobs(s.bookings) && Placed(s.bookings, s.book.txns) && CarriesBooking(s, call)
    ensures KeepsOrder(s, call)
  {
    forall b, i | b in s.bookings && 0 <= i < |s.book.txns| && Awaits(s.book.txns[i], b, s.bookings[b].request)
      ensures s.book.txns[i].booking == Some(b)
    {
      assert PlacedRow(s.bookings, s.book.txns[i]);
    }
    if call.OpenBooking? && call.id !in s.bookings && !RequestTaken(s, call.request) {
      forall i | 0 <= i < |s.book.txns| ensures !Concerns(s.book.txns[i], call.id, call.request) {
        assert PlacedRow(s.bookings, s.book.txns[i]);
      }
    }
  }

  lemma RecordPlaced(s: Shop, recorder: PersonId, input: RecordInput)
    requires Placed(s.bookings, s.book.txns) && CarriesBooking(s, Record(recorder, input))
    ensures Placed(s.bookings, AfterRecord(s.book.txns, RecordService(DirectoryOf(s), s.book.txns, recorder, input)))
  {
    var txns, after := s.book.txns, AfterRecord(s.book.txns, RecordService(DirectoryOf(s), s.book.txns, recorder, input));
    forall i | 0 <= i < |after| ensures PlacedRow(s.bookings, after[i]) {
      if i < |txns| { assert PlacedRow(s.bookings, txns[i]); }
    }
  }

  lemma RecordForJobPlaced(s: Shop, b: BookingId, provider: PersonId, amount: Cents)
    requires Placed(s.bookings, s.book.txns) && b in s.bookings
    ensures Placed(s.bookings, RecordForJob(s, b, provider, amount).book.txns)
  {
    RecordPlaced(s, provider, JobInput(s, b, amount));
  }

  /** Rows placed among some bookings are placed among the same bookings rewritten, and among more. */
  lemma PlacedElsewhere(before: map<BookingId, Booking>, after: map<BookingId, Booking>, txns: seq<Txn>)
    requires Placed(before, txns)
    requires forall b :: b in before ==> b in after && after[b].request == before[b].request
    ensures Placed(after, txns)
  {
    forall i | 0 <= i < |txns| ensures PlacedRow(after, txns[i]) {
      assert PlacedRow(before, txns[i]);
    }
  }

  lemma AutoBillPlaced(s: Shop, b: BookingId, q: Quote)
    requires Placed(s.bookings, s.book.txns)
    ensures Placed(s.bookings, DoAutoBill(s, b, q).book.txns)
  {
    if DoAutoBill(s, b, q) != s {
      RecordForJobPlaced(s, b, s.bookings[b].provider.value, BillAmount(q));
    }
  }

  lemma SetStatusPlaced(s: Shop, b: BookingId, to: Phase, q: Quote)
    requires Placed(s.bookings, s.book.txns) && b in s.bookings
    ensures Placed(s.bookings, AfterJob(s, DoSetStatus(s, b, to, q)).book.txns)
  {
    var written := Put(s, b, Stamped(s.bookings[b], to, s.now.tick));
    AutoBillPlaced(s, b, q);
    PlacedElsewhere(s.bookings, written.bookings, s.book.txns);
    AutoBillPlaced(written, b, q);
    PlacedElsewhere(written.bookings, s.bookings, DoAutoBill(written, b, q).book.txns);
  }

  lemma SetBillPlaced(s: Shop, b: BookingId, amount: Cents)
    requires Placed(s.bookings, s.book.txns) && b in s.bookings
    ensures Placed(s.bookings, AfterJob(s, DoSetBill(s, b, amount)).book.txns)
  {
    var k := s.bookings[b];
    var billed := Put(s, b, k.(bill := Some(amount), phase := AwaitingPayment, satisfied := true));
    PlacedElsewhere(s.bookings, billed.bookings, s.book.txns);
    if DoSetBill(s, b, amount).Ok? && k.provider.Some? {
      RecordForJobPlaced(billed, b, k.provider.value, amount);
      PlacedElsewhere(billed.bookings, s.bookings, RecordForJob(billed, b, k.provider.value, amount).book.txns);
    }
  }

  lemma JobRowsPlaced(s: Shop, b: BookingId, txns: seq<Txn>)
    requires Placed(s.bookings, s.book.txns) && b in s.bookings
    requires txns == Linked(s.book.txns, b, s.bookings[b].request) || txns == AllDisputed(s.book.txns, b, s.bookings[b].request)
    ensures Placed(s.bookings, txns)
  {
    forall i | 0 <= i < |txns| ensures PlacedRow(s.bookings, txns[i]) {
      assert PlacedRow(s.bookings, s.book.txns[i]);
    }
  }

  lemma PaymentPlaced(rates: Rates, s: Shop, b: BookingId, received: bool)
    requires Placed(s.bookings, s.book.txns) && b in s.bookings
    ensures Placed(s.bookings, Apply(rates, s, ProviderConfirmPayment(b, received)).book.txns)
  {
    PaymentCallWrites(rates, s, b);
    SettledPlaced(rates, s, b);
    JobRowsPlaced(s, b, AllDisputed(s.book.txns, b, s.bookings[b].request));
  }

  lemma MarksPaidPlaced(s: Shop, b: BookingId)
    requires Placed(s.bookings, s.book.txns) && b in s.bookings
    ensures Placed(s.bookings, AfterJob(s, DoMarksPaid(s, b)).book.txns)
  {
    JobRowsPlaced(s, b, Linked(s.book.txns, b, s.bookings[b].request));
  }

  lemma StatusCallPlaced(rates: Rates, s: Shop, call: Call)
    requires Placed(s.bookings, s.book.txns) && (call.ConfirmTxn? || call.DisputeTxn?)
    ensures Placed(s.bookings, Apply(rates, s, call).book.txns)
  {
    StatusPlaced(s, Apply(rates, s, call).book.txns);
  }

  lemma RowsStayPlaced(rates: Rates, s: Shop, call: Call)
    requires Placed(s.bookings, s.book.txns) && CarriesBooking(s, call)
    ensures Placed(s.bookings, Apply(rates, s, call).book.txns)
  {
    match call
    case Record(recorder, input) => RecordPlaced(s, recorder, input);
    case ConfirmTxn(_, _) => StatusCallPlaced(rates, s, call);
    case DisputeTxn(_, _) => StatusCallPlaced(rates, s, call);
    case AutoBill(b, quote) => AutoBillPlaced(s, b, quote);
    case SetStatus(b, to, quote) => if b in s.bookings { SetStatusPlaced(s, b, to, quote); }
    case SetBill(b, amount) => if b in s.bookings { SetBillPlaced(s, b, amount); }
    case CustomerMarksPaid(b) => if b in s.bookings { MarksPaidPlaced(s, b); }
    case ProviderConfirmPayment(b, received) => if b in s.bookings { PaymentPlaced(rates, s, b, received); }
    case _ =>
  }

  lemma ApplyPlaced(rates: Rates, s: Shop, call: Call)
    requires UniqueJobs(s.bookings) && Placed(s.bookings, s.book.txns) && CarriesBooking(s, call)
    ensures Placed(Apply(rates, s, call).bookings, Apply(rates, s, call).book.txns)
  {
    RequestsStay(rates, s, call);
    RowsStayPlaced(rates, s, call);
    PlacedElsewhere(s.bookings, Apply(rates, s, call).bookings, Apply(rates, s, call).book.txns);
  }

  lemma StatusPlaced(s: Shop, txns: seq<Txn>)
    requires Placed(s.bookings, s.book.txns) && |txns| == |s.book.txns|
    requires forall i :: 0 <= i < |txns| ==> txns[i].booking == s.book.txns[i].booking && txns[i].request == s.book.txns[i].request
    ensures Placed(s.bookings, txns)
  {
    forall i | 0 <= i < |txns| ensures PlacedRow(s.bookings, txns[i]) {
      assert PlacedRow(s.bookings, s.book.txns[i]);
    }
  }

  /** Bookings stay, each with its request. */
  lemma RequestsStay(rates: Rates, s: Shop, call: Call)
    ensures forall b :: b in s.bookings ==>
              b in Apply(rates, s, call).bookings && Apply(rates, s, call).bookings[b].request == s.bookings[b].request
  {}

  lemma RewritePlaced(bookings: map<BookingId, Booking>, txns: seq<Txn>, id: TxnId, row: Txn)
    requires Placed(bookings, txns) && id < |txns| && PlacedRow(bookings, row)
    ensures Placed(bookings, txns[id := row])
  {
    var after := txns[id := row];
    forall i | 0 <= i < |after| ensures PlacedRow(bookings, after[i]) {
      assert PlacedRow(bookings, txns[i]);
    }
  }

  lemma SettledPlaced(rates: Rates, s: Shop, b: BookingId)
    requires Placed(s.bookings, s.book.txns) && b in s.bookings
    ensures Placed(s.bookings, Settled(rates, s.now, s.book, b, s.bookings[b], OwnerOf(s, b)).txns)
  {
    var k, owner := s.bookings[b], OwnerOf(s, b);
    match Newest(s.book.txns, b, k.request)
    case None => InsertedOutcome(rates, s.now, s.book, b, k, owner);
    case Some(id) =>
      var before := BeforeBooking(rates, s.now, s.book, b, k, owner, id);
      BeforeBookingOutcome(rates, s.now, s.book, b, k, owner, id);
      assert PlacedRow(s.bookings, s.book.txns[id]);
      RewritePlaced(s.bookings, s.book.txns, id, before.txns[id]);
      assert Settled(rates, s.now, s.book, b, k, owner).txns == before.txns;
  }

  ghost predicate AllCarryBooking(rates: Rates, s: Shop, steps: seq<Step>)
    decreases |steps|
  {
    steps != [] ==>
      CarriesBooking(Elapsed(s, steps[0]), steps[0].call) && AllCarryBooking(rates, Next(rates, s, steps[0]), steps[1..])
  }

  lemma {:induction false} CarriedRunKeepsOrder(rates: Rates, s: Shop, steps: seq<Step>)
    requires UniqueJobs(s.bookings) && Ordered(s.bookings, s.book.txns) && Placed(s.bookings, s.book.txns)
    requires AllCarryBooking(rates, s, steps)
    ensures AllKeepOrder(rates, s, steps)
    decreases |steps|
  {
    if steps != [] {
      var s' := Elapsed(s, steps[0]);
      CarriedKeepsOrder(s', steps[0].call);
      ApplyOrderedIff(rates, s', steps[0].call);
      ApplyPlaced(rates, s', steps[0].call);
      CarriedRunKeepsOrder(rates, Next(rates, s, steps[0]), steps[1..]);
    }
  }

  /** Over all runs in which recorded transactions carry their booking: a job has at most one awaiting
      transaction, it is the row that the payment path's lookup finds, and the payment leaves none awaiting
      exactly if it confirms that row. */
  lemma AtMostOneAwaitingAndNewest(rates: Rates, owners: map<RequestId, PersonId>, steps: seq<Step>, b: BookingId, i: nat)
    requires AllCarryBooking(rates, Opening(owners), steps)
    requires b in Run(rates, Opening(owners), steps).bookings
    ensures var s := Run(rates, Opening(owners), steps);
            var r := s.bookings[b].request;
            i < |s.book.txns| && Awaits(s.book.txns[i], b, r) ==>
              && Newest(s.book.txns, b, r) == Some(i)
              && (forall j :: 0 <= j < |s.book.txns| && Awaits(s.book.txns[j], b, r) ==> j == i)
              && (NoneAwaiting(Apply(rates, s, ProviderConfirmPayment(b, true)).book.txns, b, r)
                  <==> ConfirmsNewest(rates, s.book.txns, b, s.bookings[b], OwnerOf(s, b), i))
  {
    var s := Run(rates, Opening(owners), steps);
    CarriedRunKeepsOrder(rates, Opening(owners), steps);
    PaymentLeavesNoneAwaitingIff(rates, owners, steps, b);
    RunOrderedIff(rates, Opening(owners), steps);
    OrderedIsNewest(s.book.txns, b, s.bookings[b].request);
  }

  // ----- both halves of that condition are needed --------------------------------------------

  /** A recording without a booking id never finds the row it would correct, so that the same input
      recorded twice leaves two awaiting rows of one request. */
  lemma RepeatedWithoutBooking(dir: Directory, txns: seq<Txn>, provider: PersonId, input: RecordInput)
    requires input.booking.None? && RecordService(dir, txns, provider, input).Ok?
    ensures var once := AfterRecord(txns, RecordService(dir, txns, provider, input));
            var twice := AfterRecord(once, RecordService(dir, once, provider, input));
            && |twice| == |txns| + 2
            && twice[|txns|] == twice[|txns| + 1]
            && twice[|txns|].request == input.request && twice[|txns|].status.AwaitingConfirmation?
  {}

  function TwoJobs(owner: PersonId, provider: PersonId): Shop {
    Opening(map[0 := owner, 1 := owner]).(bookings := map[
      0 := Booking(0, false, Some(provider), Scheduled, None, None, None, false, false),
      1 := Booking(1, false, Some(provider), Scheduled, None, None, None, false, false)])
  }

  lemma TwoJobsAreReached(rates: Rates, owner: PersonId, provider: PersonId)
    ensures Apply(rates, Apply(rates, Opening(map[0 := owner, 1 := owner]), OpenBooking(0, 0, false, Some(provider))),
                  OpenBooking(1, 1, false, Some(provider))) == TwoJobs(owner, provider)
  {
    var start := Opening(map[0 := owner, 1 := owner]);
    var one := Put(start, 0, Booking(0, false, Some(provider), Scheduled, None, None, None, false, false));
    assert Apply(rates, start, OpenBooking(0, 0, false, Some(provider))) == one;
    assert !RequestTaken(one, 1);
  }

  /** A row recorded for booking 0 with the request of booking 1 hides the awaiting row of booking 1. */
  lemma CrossedRequestHides(rates: Rates, owner: PersonId, provider: PersonId, amount: Cents)
    requires amount > 0
    ensures var own := RecordInput(Some(owner), Some(1), Some(1), "Vehicle service", amount);
            var crossed := RecordInput(Some(owner), Some(0), Some(1), "Vehicle service", amount);
            var txns := Apply(rates, Apply(rates, TwoJobs(owner, provider), Record(provider, own)), Record(provider, crossed)).book.txns;
            |txns| == 2 && Awaits(txns[0], 1, 1) && txns[0].booking == Some(1) && Newest(txns, 1, 1) == Some(1)
  {
    var own := RecordInput(Some(owner), Some(1), Some(1), "Vehicle service", amount);
    var crossed := RecordInput(Some(owner), Some(0), Some(1), "Vehicle service", amount);
    var once := Apply(rates, TwoJobs(owner, provider), Record(provider, own));
    assert once.book.txns == [Txn(Some(1), Some(1), owner, provider, "Vehicle service", amount, AwaitingConfirmation, None, None)];
    assert NewestAwaiting(once.book.txns, 0) == None;
  }
}
