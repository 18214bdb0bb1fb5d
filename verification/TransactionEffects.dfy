/** What RecordService, Confirm and Dispute do to the tables, field by field, and who owns a row. */
module TransactionEffects {
  import opened Tables
  import opened Money
  import opened Ledger
  import opened Transactions
  import opened Jobs
  import O = OrderedRuns
  import P = Payments

  // ----- RecordService -----------------------------------------------------------------------

  /** Whom a recording makes the owner: the person it names; failing that the owner of the request it
      names; failing that the owner of its booking's request. */
  predicate NamesOwner(s: Shop, input: RecordInput, p: PersonId) {
    if input.owner != None then input.owner == Some(p)
    else if input.request != None && input.request.value in s.owners then s.owners[input.request.value] == p
    else
      && input.booking != None && input.booking.value in s.bookings
      && s.bookings[input.booking.value].request in s.owners && s.owners[s.bookings[input.booking.value].request] == p
  }

  /** The newest of the booking's rows that await. */
  predicate LastAwaiting(txns: seq<Txn>, booking: Option<BookingId>, id: TxnId) {
    && booking != None && id < |txns|
    && txns[id].booking == booking && txns[id].status == AwaitingConfirmation
    && forall i :: id < i < |txns| ==> !(txns[i].booking == booking && txns[i].status == AwaitingConfirmation)
  }

  ghost predicate AnyAwaiting(txns: seq<Txn>, booking: Option<BookingId>) {
    exists id: nat :: LastAwaiting(txns, booking, id)
  }

  /** The foreign keys of a row to be inserted. */
  predicate LinksThere(s: Shop, input: RecordInput) {
    && (input.booking != None ==> input.booking.value in s.bookings)
    && (input.request != None ==> input.request.value in s.owners)
  }

  /** The recording is accepted, with `p` as the owner. */
  ghost predicate Accepts(s: Shop, input: RecordInput, p: PersonId) {
    && input.amount > 0 && input.service != "" && NamesOwner(s, input, p)
    && (AnyAwaiting(s.book.txns, input.booking) || LinksThere(s, input))
  }

  /** What the accepted recording leaves in the table. */
  ghost predicate Recorded(before: seq<Txn>, after: seq<Txn>, recorder: PersonId, input: RecordInput, p: PersonId) {
    if AnyAwaiting(before, input.booking) then
      exists id: nat :: LastAwaiting(before, input.booking, id) &&
        after == before[id := before[id].(amount := input.amount, service := input.service, provider := recorder, owner := p)]
    else
      after == before + [Txn(input.booking, input.request, p, recorder, input.service, input.amount, AwaitingConfirmation, None, None)]
  }

  lemma AwaitingFound(txns: seq<Txn>, input: RecordInput)
    ensures ExistingFor(txns, input).Some? <==> AnyAwaiting(txns, input.booking)
    ensures ExistingFor(txns, input).Some? ==> LastAwaiting(txns, input.booking, ExistingFor(txns, input).value)
  {
    if ExistingFor(txns, input).Some? {
      assert LastAwaiting(txns, input.booking, ExistingFor(txns, input).value);
    }
  }

  lemma OwnerFound(s: Shop, input: RecordInput)
    ensures forall p: PersonId :: NamesOwner(s, input, p) <==> ResolveOwner(DirectoryOf(s), input) == Some(p)
  {}

  /** A recording touches the transactions and nothing else: it corrects amount, service, provider and
      owner of the booking's newest awaiting row, or adds an awaiting row with what it names; or it is
      refused and nothing changes. */
  lemma RecordEffect(rates: Rates, s: Shop, recorder: PersonId, input: RecordInput)
    ensures var after := Apply(rates, s, Record(recorder, input));
            && after.owners == s.owners && after.bookings == s.bookings && after.now == s.now && after.book.ledger == s.book.ledger
            && (forall p :: Accepts(s, input, p) ==> Recorded(s.book.txns, after.book.txns, recorder, input, p))
            && ((forall p :: !Accepts(s, input, p)) ==> after == s)
  {
    AwaitingFound(s.book.txns, input);
    OwnerFound(s, input);
    var after := Apply(rates, s, Record(recorder, input)).book.txns;
    forall p | Accepts(s, input, p) ensures Recorded(s.book.txns, after, recorder, input, p) {
      if AnyAwaiting(s.book.txns, input.booking) {
        var id := ExistingFor(s.book.txns, input).value;
        assert after == s.book.txns[id :=
          s.book.txns[id].(amount := input.amount, service := input.service, provider := recorder, owner := p)];
      }
    }
    if forall p :: !Accepts(s, input, p) {
      RefusedRecording(s, recorder, input);
    }
  }

  lemma RefusedRecording(s: Shop, recorder: PersonId, input: RecordInput)
    requires forall p :: !Accepts(s, input, p)
    ensures RecordService(DirectoryOf(s), s.book.txns, recorder, input).Err?
  {
    AwaitingFound(s.book.txns, input);
    OwnerFound(s, input);
    var found := ResolveOwner(DirectoryOf(s), input);
    if found.Some? { assert NamesOwner(s, input, found.value) && !Accepts(s, input, found.value); }
  }

  /** The refusals, in the order of the checks. */
  lemma RecordErrors(s: Shop, recorder: PersonId, input: RecordInput)
    ensures var outcome := RecordService(DirectoryOf(s), s.book.txns, recorder, input);
            && (outcome == Err(AmountNotPositive) <==> input.amount <= 0)
            && (outcome == Err(ServiceNameMissing) <==> input.amount > 0 && input.service == "")
            && (outcome == Err(OwnerUnresolved) <==>
                  input.amount > 0 && input.service != "" && forall p :: !NamesOwner(s, input, p))
            && (outcome == Err(CreateFailed) <==>
                  && input.amount > 0 && input.service != "" && (exists p :: NamesOwner(s, input, p))
                  && !AnyAwaiting(s.book.txns, input.booking) && !LinksThere(s, input))
  {
    AwaitingFound(s.book.txns, input);
    OwnerFound(s, input);
    var found := ResolveOwner(DirectoryOf(s), input);
    if found.Some? { assert NamesOwner(s, input, found.value); }
  }

  // ----- Confirm and Dispute -----------------------------------------------------------------

  /** Confirm goes through for the row's owner, while it awaits, where the trigger's share comes to a cent;
      it stamps the row with the instant and the caller, and books that share on the row's provider in the
      month of the instant, unless the row has a debit already. */
  lemma ConfirmEffect(rates: Rates, now: Instant, book: Book, caller: PersonId, id: TxnId)
    ensures var outcome := Confirm(rates, now, book, caller, id);
            && (outcome.Ok? <==>
                  && id < |book.txns| && book.txns[id].owner == caller && book.txns[id].status == AwaitingConfirmation
                  && book.txns[id].amount > 0 && Commission(book.txns[id].amount, rates.trigger) > 0)
            && (outcome.Ok? ==>
                  var row := book.txns[id];
                  && outcome.value.txns == book.txns[id :=
                       row.(status := TxnStatus.Confirmed, confirmedAt := Some(now), confirmedBy := Some(caller))]
                  && outcome.value.ledger ==
                       if exists i :: 0 <= i < |book.ledger| && book.ledger[i].kind == CommissionDebit && book.ledger[i].txn == Some(id)
                       then book.ledger
                       else book.ledger + [Entry(row.provider, CommissionDebit, Commission(row.amount, rates.trigger), Some(id), None,
                                                 Some(rates.trigger), Some(row.amount), now.month, None)])
  {
    if id < |book.txns| {
      NothingOnNothing(book.txns[id].amount, rates.trigger);
    }
  }

  lemma ConfirmErrors(rates: Rates, now: Instant, book: Book, caller: PersonId, id: TxnId)
    ensures var outcome := Confirm(rates, now, book, caller, id);
            && (outcome == Err(NotFound) <==> id >= |book.txns|)
            && (outcome == Err(NotCarOwner) <==> id < |book.txns| && book.txns[id].owner != caller)
            && (outcome == Err(AlreadyConfirmed) <==>
                  id < |book.txns| && book.txns[id].owner == caller && book.txns[id].status == TxnStatus.Confirmed)
            && (outcome == Err(NotConfirmable) <==>
                  id < |book.txns| && book.txns[id].owner == caller && book.txns[id].status in {TxnStatus.Disputed, TxnStatus.Cancelled})
  {}

  /** Dispute goes through for the row's owner, while it awaits; it disputes that row and nothing else. */
  lemma DisputeEffect(book: Book, caller: PersonId, id: TxnId)
    ensures var outcome := Dispute(book, caller, id);
            && (outcome.Ok? <==> id < |book.txns| && book.txns[id].owner == caller && book.txns[id].status == AwaitingConfirmation)
            && (outcome.Ok? ==> outcome.value == Book(book.txns[id := book.txns[id].(status := TxnStatus.Disputed)], book.ledger))
            && (outcome == Err(NotFound) <==> id >= |book.txns|)
            && (outcome == Err(NotCarOwner) <==> id < |book.txns| && book.txns[id].owner != caller)
            && (outcome == Err(AlreadyConfirmed) <==>
                  id < |book.txns| && book.txns[id].owner == caller && book.txns[id].status == TxnStatus.Confirmed)
  {}

  /** As calls of a run: a confirmation or a dispute that is refused changes nothing. */
  lemma AnswerCalls(rates: Rates, s: Shop, caller: PersonId, id: TxnId)
    ensures var outcome, after := Confirm(rates, s.now, s.book, caller, id), Apply(rates, s, ConfirmTxn(caller, id));
            after == if outcome.Ok? then s.(book := outcome.value) else s
    ensures var outcome, after := Dispute(s.book, caller, id), Apply(rates, s, DisputeTxn(caller, id));
            after == if outcome.Ok? then s.(book := outcome.value) else s
  {}

  // ----- whose row it is ---------------------------------------------------------------------

  /** A row with a request belongs to that request's owner. */
  ghost predicate RowsOwned(s: Shop) {
    forall i :: 0 <= i < |s.book.txns| ==> RowOwned(s.owners, s.book.txns[i])
  }

  predicate RowOwned(owners: map<RequestId, PersonId>, t: Txn) {
    t.request != None ==> t.request.value in owners && t.owner == owners[t.request.value]
  }

  /** The check before a recording: it gives the row that it writes to the owner of that row's request. */
  ghost predicate RecordOwns(s: Shop, input: RecordInput) {
    forall p :: Accepts(s, input, p) ==>
      if AnyAwaiting(s.book.txns, input.booking) then
        forall id: nat :: LastAwaiting(s.book.txns, input.booking, id) ==>
          RowOwned(s.owners, s.book.txns[id].(owner := p))
      else input.request != None ==> input.request.value in s.owners && p == s.owners[input.request.value]
  }

  /** And before a bill: the awaiting row that it corrects is of a request of the same owner. */
  ghost predicate BillOwns(s: Shop, b: BookingId) {
    b in s.bookings && s.bookings[b].request in s.owners ==>
      forall id: nat :: LastAwaiting(s.book.txns, Some(b), id) ==>
        RowOwned(s.owners, s.book.txns[id].(owner := s.owners[s.bookings[b].request]))
  }

  ghost predicate KeepsOwners(s: Shop, call: Call) {
    match call
    case Record(_, input) => RecordOwns(s, input)
    case SetBill(b, amount) => (DoSetBill(s, b, amount).Ok? && s.bookings[b].provider != None ==> BillOwns(s, b))
    case _ => true
  }

  lemma RewriteOwned(s: Shop, id: TxnId, row: Txn)
    requires RowsOwned(s) && id < |s.book.txns|
    ensures RowsOwned(s.(book := s.book.(txns := s.book.txns[id := row]))) <==> RowOwned(s.owners, row)
  {
    var txns := s.book.txns[id := row];
    assert txns[id] == row;
    forall i | 0 <= i < |txns| && i != id ensures RowOwned(s.owners, txns[i]) { assert RowOwned(s.owners, s.book.txns[i]); }
  }

  lemma AppendOwned(s: Shop, row: Txn)
    requires RowsOwned(s)
    ensures RowsOwned(s.(book := s.book.(txns := s.book.txns + [row]))) <==> RowOwned(s.owners, row)
  {
    var txns := s.book.txns + [row];
    assert txns[|s.book.txns|] == row;
    forall i | 0 <= i < |s.book.txns| ensures RowOwned(s.owners, txns[i]) { assert RowOwned(s.owners, s.book.txns[i]); }
  }

  lemma OneLastAwaiting(txns: seq<Txn>, booking: Option<BookingId>, id: nat, id': nat)
    requires LastAwaiting(txns, booking, id) && LastAwaiting(txns, booking, id')
    ensures id == id'
  {}

  lemma RecordOwnsIff(s: Shop, recorder: PersonId, input: RecordInput)
    requires RowsOwned(s)
    ensures RowsOwned(s.(book := s.book.(txns := AfterRecord(s.book.txns, RecordService(DirectoryOf(s), s.book.txns, recorder, input)))))
            <==> RecordOwns(s, input)
  {
    var rates := SOURCE_RATES;
    RecordEffect(rates, s, recorder, input);
    var txns, after := s.book.txns, Apply(rates, s, Record(recorder, input)).book.txns;
    OwnerFound(s, input);
    if p :| Accepts(s, input, p) {
      assert forall q :: Accepts(s, input, q) ==> q == p;
      if AnyAwaiting(txns, input.booking) {
        var id: nat :| LastAwaiting(txns, input.booking, id) &&
          after == txns[id := txns[id].(amount := input.amount, service := input.service, provider := recorder, owner := p)];
        RewriteOwned(s, id, after[id]);
        assert forall j: nat :: LastAwaiting(txns, input.booking, j) ==> j == id;
        assert RowOwned(s.owners, after[id]) <==> RowOwned(s.owners, txns[id].(owner := p));
      } else {
        AppendOwned(s, after[|txns|]);
      }
    }
  }

  lemma BillOwnsIff(s: Shop, b: BookingId, provider: PersonId, amount: Cents)
    requires RowsOwned(s) && RequestsExist(s) && b in s.bookings && amount > 0
    ensures RowsOwned(RecordForJob(s, b, provider, amount)) <==> BillOwns(s, b)
  {
    var input := JobInput(s, b, amount);
    RecordOwnsIff(s, provider, input);
    var owner := s.owners[s.bookings[b].request];
    assert NamesOwner(s, input, owner) && LinksThere(s, input);
    assert Accepts(s, input, owner);
    forall p | Accepts(s, input, p) ensures p == owner {}
    assert RecordOwns(s, input) <==> BillOwns(s, b);
  }

  lemma AutoBillOwns(s: Shop, b: BookingId, q: Quote)
    requires RowsOwned(s) && RequestsExist(s)
    ensures RowsOwned(DoAutoBill(s, b, q))
  {
    if DoAutoBill(s, b, q) != s {
      BillOwnsIff(s, b, s.bookings[b].provider.value, BillAmount(q));
      forall id: nat | LastAwaiting(s.book.txns, Some(b), id) ensures false {
        assert Concerns(s.book.txns[id], b, s.bookings[b].request);
      }
    }
  }

  lemma SameOwned(s: Shop, t: Shop)
    requires RowsOwned(s) && t.owners == s.owners && t.book.txns == s.book.txns
    ensures RowsOwned(t)
  {
    forall i | 0 <= i < |t.book.txns| ensures RowOwned(t.owners, t.book.txns[i]) { assert RowOwned(s.owners, s.book.txns[i]); }
  }

  lemma SetStatusOwns(s: Shop, b: BookingId, to: Phase, q: Quote)
    requires RowsOwned(s) && RequestsExist(s)
    ensures RowsOwned(AfterJob(s, DoSetStatus(s, b, to, q)))
  {
    if b in s.bookings {
      var written := Put(s, b, Stamped(s.bookings[b], to, s.now.tick));
      SameOwned(s, written);
      AutoBillOwns(s, b, q);
      AutoBillOwns(written, b, q);
    }
  }

  lemma SetBillOwnsIff(s: Shop, b: BookingId, amount: Cents)
    requires RowsOwned(s) && RequestsExist(s)
    ensures RowsOwned(AfterJob(s, DoSetBill(s, b, amount))) <==> KeepsOwners(s, SetBill(b, amount))
  {
    if DoSetBill(s, b, amount).Ok? {
      var k := s.bookings[b].(bill := Some(amount), phase := AwaitingPayment, satisfied := true);
      var billed := Put(s, b, k);
      SameOwned(s, billed);
      if k.provider.Some? {
        BillOwnsIff(billed, b, k.provider.value, amount);
        assert BillOwns(billed, b) <==> BillOwns(s, b);
      }
    }
  }

  /** Rows keep their request and owner, or are new rows of a job. */
  lemma RowsStayOwned(s: Shop, txns: seq<Txn>)
    requires RowsOwned(s) && |s.book.txns| <= |txns|
    requires forall i :: 0 <= i < |s.book.txns| ==> txns[i].request == s.book.txns[i].request && txns[i].owner == s.book.txns[i].owner
    requires forall i :: |s.book.txns| <= i < |txns| ==> RowOwned(s.owners, txns[i])
    ensures RowsOwned(s.(book := s.book.(txns := txns)))
  {
    forall i | 0 <= i < |s.book.txns| ensures RowOwned(s.owners, txns[i]) { assert RowOwned(s.owners, s.book.txns[i]); }
  }

  lemma InsertedOwns(rates: Rates, s: Shop, b: BookingId)
    requires RowsOwned(s) && RequestsExist(s) && b in s.bookings && Newest(s.book.txns, b, s.bookings[b].request).None?
    ensures RowsOwned(s.(book := s.book.(txns := Settled(rates, s.now, s.book, b, s.bookings[b], OwnerOf(s, b)).txns)))
  {
    var k, owner := s.bookings[b], OwnerOf(s, b);
    var after := Settled(rates, s.now, s.book, b, k, owner).txns;
    P.InsertedOutcome(rates, s.now, s.book, b, k, owner);
    RowsStayOwned(s, after);
  }

  lemma RewrittenOwns(rates: Rates, s: Shop, b: BookingId, id: TxnId)
    requires RowsOwned(s) && b in s.bookings && Newest(s.book.txns, b, s.bookings[b].request) == Some(id)
    ensures RowsOwned(s.(book := s.book.(txns := Settled(rates, s.now, s.book, b, s.bookings[b], OwnerOf(s, b)).txns)))
  {
    var k, owner := s.bookings[b], OwnerOf(s, b);
    var before := P.BeforeBooking(rates, s.now, s.book, b, k, owner, id);
    P.BeforeBookingOutcome(rates, s.now, s.book, b, k, owner, id);
    assert RowOwned(s.owners, s.book.txns[id]);
    RewriteOwned(s, id, before.txns[id]);
    BookingKeepsRows(rates, s.now, s.book, b, k, owner, id);
  }

  lemma BookingKeepsRows(rates: Rates, now: Instant, book: Book, b: BookingId, k: Booking, owner: PersonId, id: TxnId)
    requires Newest(book.txns, b, k.request) == Some(id)
    ensures Settled(rates, now, book, b, k, owner).txns == P.BeforeBooking(rates, now, book, b, k, owner, id).txns
  {}

  lemma PaymentOwns(rates: Rates, s: Shop, b: BookingId)
    requires RowsOwned(s) && RequestsExist(s) && b in s.bookings
    ensures RowsOwned(s.(book := s.book.(txns := Settled(rates, s.now, s.book, b, s.bookings[b], OwnerOf(s, b)).txns)))
  {
    match Newest(s.book.txns, b, s.bookings[b].request)
    case None => InsertedOwns(rates, s, b);
    case Some(id) => RewrittenOwns(rates, s, b, id);
  }

  lemma OtherCallOwns(rates: Rates, s: Shop, call: Call)
    requires RowsOwned(s)
    requires !call.Record? && !call.SetBill? && !call.AutoBill? && !call.SetStatus? && !(call.ProviderConfirmPayment? && call.received)
    ensures RowsOwned(Apply(rates, s, call))
  {
    var after := Apply(rates, s, call);
    RowsStayOwned(s, after.book.txns);
    SameOwned(s.(book := s.book.(txns := after.book.txns)), after);
  }

  /** Every call keeps rows with their request's owner exactly if its check holds; for all calls but
      recordings and bills that is always. */
  lemma ApplyOwnsIff(rates: Rates, s: Shop, call: Call)
    requires RowsOwned(s) && RequestsExist(s)
    ensures RowsOwned(Apply(rates, s, call)) <==> KeepsOwners(s, call)
  {
    match call
    case Record(recorder, input) => RecordOwnsIff(s, recorder, input);
    case SetBill(b, amount) => SetBillOwnsIff(s, b, amount);
    case AutoBill(b, quote) => AutoBillOwns(s, b, quote);
    case SetStatus(b, to, quote) => SetStatusOwns(s, b, to, quote);
    case ProviderConfirmPayment(b, received) =>
      if received {
        if b in s.bookings {
          PaymentOwns(rates, s, b);
          P.PaymentCallWrites(rates, s, b);
          SameOwned(s.(book := s.book.(txns := Settled(rates, s.now, s.book, b, s.bookings[b], OwnerOf(s, b)).txns)),
                    Apply(rates, s, call));
        }
      } else {
        OtherCallOwns(rates, s, call);
      }
    case _ => OtherCallOwns(rates, s, call);
  }

  ghost predicate OwnedThroughout(rates: Rates, s: Shop, steps: seq<Step>)
    decreases |steps|
  {
    RowsOwned(s) && (steps != [] ==> OwnedThroughout(rates, Next(rates, s, steps[0]), steps[1..]))
  }

  ghost predicate AllKeepOwners(rates: Rates, s: Shop, steps: seq<Step>)
    decreases |steps|
  {
    steps != [] ==>
      KeepsOwners(Elapsed(s, steps[0]), steps[0].call) && AllKeepOwners(rates, Next(rates, s, steps[0]), steps[1..])
  }

  lemma RequestsStillExist(rates: Rates, s: Shop, call: Call)
    requires RequestsExist(s)
    ensures RequestsExist(Apply(rates, s, call))
  {}

  lemma {:induction false} RunOwnsIff(rates: Rates, s: Shop, steps: seq<Step>)
    requires RowsOwned(s) && RequestsExist(s)
    ensures OwnedThroughout(rates, s, steps) <==> AllKeepOwners(rates, s, steps)
    ensures AllKeepOwners(rates, s, steps) ==> RowsOwned(Run(rates, s, steps))
    decreases |steps|
  {
    if steps != [] {
      var s', next := Elapsed(s, steps[0]), Next(rates, s, steps[0]);
      SameOwned(s, s');
      ApplyOwnsIff(rates, s', steps[0].call);
      RequestsStillExist(rates, s', steps[0].call);
      if RowsOwned(next) { RunOwnsIff(rates, next, steps[1..]); }
    }
  }

  /** Over all runs: at every moment every row with a request belongs to that request's owner exactly if
      every recording and bill gives the row it writes to that owner. */
  lemma RowsAreOwnedIff(rates: Rates, owners: map<RequestId, PersonId>, steps: seq<Step>)
    ensures OwnedThroughout(rates, Opening(owners), steps) <==> AllKeepOwners(rates, Opening(owners), steps)
  {
    RunOwnsIff(rates, Opening(owners), steps);
  }

  /** A recording names no owner, and its booking with no other booking's request. */
  predicate LooksUpOwner(s: Shop, call: Call) {
    O.CarriesBooking(s, call) && (call.Record? ==> call.input.owner == None)
  }

  ghost predicate AllLookUp(rates: Rates, s: Shop, steps: seq<Step>)
    decreases |steps|
  {
    steps != [] ==>
      LooksUpOwner(Elapsed(s, steps[0]), steps[0].call) && AllLookUp(rates, Next(rates, s, steps[0]), steps[1..])
  }

  lemma LookedUpOwns(s: Shop, call: Call)
    requires O.Placed(s.bookings, s.book.txns) && RequestsExist(s) && LooksUpOwner(s, call)
    ensures KeepsOwners(s, call)
  {
    forall i | 0 <= i < |s.book.txns| ensures O.PlacedRow(s.bookings, s.book.txns[i]) {}
    if call.SetBill? && call.id in s.bookings {
      forall id: nat | LastAwaiting(s.book.txns, Some(call.id), id)
        ensures RowOwned(s.owners, s.book.txns[id].(owner := s.owners[s.bookings[call.id].request]))
      {
        assert O.PlacedRow(s.bookings, s.book.txns[id]);
      }
    }
    if call.Record? { LookedUpRecordOwns(s, call.input); }
  }

  lemma LookedUpRecordOwns(s: Shop, input: RecordInput)
    requires O.Placed(s.bookings, s.book.txns) && RequestsExist(s) && input.owner == None && input.booking.Some?
    requires input.booking.value in s.bookings && input.request.Some? ==> input.request.value == s.bookings[input.booking.value].request
    ensures RecordOwns(s, input)
  {
    var b := input.booking.value;
    forall p | Accepts(s, input, p) && AnyAwaiting(s.book.txns, input.booking)
      ensures forall id: nat :: LastAwaiting(s.book.txns, input.booking, id) ==> RowOwned(s.owners, s.book.txns[id].(owner := p))
    {
      forall id: nat | LastAwaiting(s.book.txns, input.booking, id)
        ensures RowOwned(s.owners, s.book.txns[id].(owner := p))
      {
        assert O.PlacedRow(s.bookings, s.book.txns[id]);
      }
    }
  }

  lemma {:induction false} LookedUpRun(rates: Rates, s: Shop, steps: seq<Step>)
    requires O.Placed(s.bookings, s.book.txns) && RequestsExist(s) && O.UniqueJobs(s.bookings) && AllLookUp(rates, s, steps)
    ensures AllKeepOwners(rates, s, steps)
    decreases |steps|
  {
    if steps != [] {
      var s', call := Elapsed(s, steps[0]), steps[0].call;
      LookedUpOwns(s', call);
      O.ApplyPlaced(rates, s', call);
      RequestsStillExist(rates, s', call);
      JobsStayUnique(rates, s', call);
      LookedUpRun(rates, Next(rates, s, steps[0]), steps[1..]);
    }
  }

  lemma JobsStayUnique(rates: Rates, s: Shop, call: Call)
    requires O.UniqueJobs(s.bookings)
    ensures O.UniqueJobs(Apply(rates, s, call).bookings)
  {
    O.RequestsStay(rates, s, call);
    if call.OpenBooking? { assert RequestTaken(s, call.request) || !RequestTaken(s, call.request); }
  }

  /** In particular over runs whose recordings name no owner: a row with a request belongs to that
      request's owner, and nobody else's Confirm or Dispute on it succeeds. */
  lemma NobodyElseAnswers(rates: Rates, owners: map<RequestId, PersonId>, steps: seq<Step>, caller: PersonId, id: TxnId)
    requires AllLookUp(rates, Opening(owners), steps)
    ensures var s := Run(rates, Opening(owners), steps);
            id < |s.book.txns| && s.book.txns[id].request != None ==>
              && s.book.txns[id].request.value in s.owners && s.book.txns[id].owner == s.owners[s.book.txns[id].request.value]
              && (caller != s.owners[s.book.txns[id].request.value] ==>
                    Confirm(rates, s.now, s.book, caller, id) == Err(NotCarOwner) && Dispute(s.book, caller, id) == Err(NotCarOwner))
  {
    var s := Run(rates, Opening(owners), steps);
    LookedUpRun(rates, Opening(owners), steps);
    RunOwnsIff(rates, Opening(owners), steps);
    if id < |s.book.txns| {
      assert RowOwned(s.owners, s.book.txns[id]);
      ConfirmErrors(rates, s.now, s.book, caller, id);
      DisputeEffect(s.book, caller, id);
    }
  }
}
