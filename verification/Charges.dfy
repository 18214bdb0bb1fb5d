/** Every confirmed transaction is charged exactly once, over all runs of the job and commission
    services: whether it was confirmed by an update, which the trigger sees, or inserted already
    confirmed, which only bookCommissionOnPaid sees. */
module Charges {
  import opened Tables
  import opened Money
  import opened Ledger
  import opened Transactions
  import opened Jobs
  import opened Payments

  /** What never changes about a booking: its request, which the schema makes unique, and its
      provider, if one is known. */
  datatype Link = Link(request: RequestId, provider: Option<PersonId>)

  type Links = map<BookingId, Link>

  function LinksOf(s: Shop): Links {
    map b | b in s.bookings :: Link(s.bookings[b].request, s.bookings[b].provider)
  }

  ghost predicate UniqueRequests(links: Links) {
    forall b, b' :: b in links && b' in links && links[b].request == links[b'].request ==> b == b'
  }

  /** Debits name an existing transaction, at most one each; a note that quotes a booking belongs to
      a debit of one of that booking's rows. */
  ghost predicate LedgerPlaced(links: Links, book: Book) {
    && (forall i :: 0 <= i < |book.ledger| && book.ledger[i].kind.CommissionDebit? ==>
          book.ledger[i].txn.Some? && book.ledger[i].txn.value < |book.txns|)
    && (forall id: TxnId :: DebitCount(book.ledger, id) <= 1)
    && (forall i :: 0 <= i < |book.ledger| && book.ledger[i].booking.Some? ==>
          var e := book.ledger[i];
          && e.kind.CommissionDebit? && e.booking.value in links
          && Concerns(book.txns[e.txn.value], e.booking.value, links[e.booking.value].request))
  }

  /** A row that the payment path inserted already confirmed: the first row of its job. */
  ghost predicate BornConfirmed(links: Links, txns: seq<Txn>, id: TxnId)
    requires id < |txns|
  {
    && txns[id].booking.Some? && txns[id].booking.value in links
    && var b := txns[id].booking.value;
       && links[b].provider == Some(txns[id].provider)
       && txns[id].request == Some(links[b].request)
       && forall i :: 0 <= i < id ==> !Concerns(txns[i], b, links[b].request)
  }

  /** A confirmed row without a debit is one that was born confirmed, with a commission that rounds to
      nothing. `open` is a row whose commission is still to be booked within the current call. */
  ghost predicate Charged(rates: Rates, links: Links, book: Book, open: Option<TxnId>) {
    forall id :: 0 <= id < |book.txns| && book.txns[id].status.Confirmed? && DebitCount(book.ledger, id) == 0 ==>
      && BornConfirmed(links, book.txns, id)
      && (open == Some(id) || Commission(book.txns[id].amount, rates.service) <= 0)
  }

  ghost predicate SoundBut(rates: Rates, links: Links, book: Book, open: Option<TxnId>) {
    UniqueRequests(links) && LedgerPlaced(links, book) && Charged(rates, links, book, open)
  }

  ghost predicate Sound(rates: Rates, links: Links, book: Book) {
    SoundBut(rates, links, book, None)
  }

  // ----- rows keep their job -----------------------------------------------------------------

  /** The request stays, and the booking is at most filled in with the one the request belongs to. */
  predicate SameJob(links: Links, before: Txn, after: Txn) {
    && after.request == before.request
    && (|| after.booking == before.booking
        || (before.booking.None? && after.booking.Some? && after.booking.value in links
            && before.request == Some(links[after.booking.value].request)))
  }

  /** Changes to rows that confirm nothing keep the ledger sound. */
  lemma RowsSound(rates: Rates, links: Links, book: Book, txns: seq<Txn>, open: Option<TxnId>)
    requires SoundBut(rates, links, book, open) && |book.txns| <= |txns|
    requires forall i :: 0 <= i < |book.txns| ==> SameJob(links, book.txns[i], txns[i])
    requires forall i :: 0 <= i < |txns| && txns[i].status.Confirmed? ==>
               i < |book.txns| && book.txns[i].status.Confirmed? && txns[i].provider == book.txns[i].provider
               && (txns[i].amount == book.txns[i].amount || open == Some(i))
    ensures SoundBut(rates, links, book.(txns := txns), open)
  {}

  /** Adding a debit for an existing row, or finding it there, keeps the ledger sound and closes the row. */
  lemma DebitSound(rates: Rates, links: Links, book: Book, e: Entry, open: Option<TxnId>)
    requires SoundBut(rates, links, book, open)
    requires e.kind.CommissionDebit? && e.txn.Some? && e.txn.value < |book.txns|
    requires e.booking.Some? ==> e.booking.value in links
                                 && Concerns(book.txns[e.txn.value], e.booking.value, links[e.booking.value].request)
    requires Insert(book.ledger, e).Some?
    requires open.None? || open == e.txn
    ensures Sound(rates, links, book.(ledger := Insert(book.ledger, e).value))
    ensures DebitCount(Insert(book.ledger, e).value, e.txn.value) == 1
  {
    var ledger := Insert(book.ledger, e).value;
    forall id: TxnId
      ensures DebitCount(ledger, id) == if e.txn == Some(id) then 1 else DebitCount(book.ledger, id)
    {
      InsertDebitCounts(book.ledger, e, id);
    }
    assert forall i :: 0 <= i < |ledger| ==> (i < |book.ledger| && ledger[i] == book.ledger[i]) || ledger[i] == e;
  }

  /** A confirming update of one row: either the trigger books it, or it was confirmed before. */
  lemma ConfirmingUpdateSound(rates: Rates, now: Instant, links: Links, book: Book, id: TxnId, t: Txn)
    requires Sound(rates, links, book) && id < |book.txns|
    requires t.status.Confirmed? && SameJob(links, book.txns[id], t) && t.provider == book.txns[id].provider
    requires UpdateRow(rates, now, book, id, t).Some?
    ensures var after := UpdateRow(rates, now, book, id, t).value;
            && SoundBut(rates, links, after, Some(id))
            && (!book.txns[id].status.Confirmed? ==> Sound(rates, links, after) && DebitCount(after.ledger, id) == 1)
  {
    if book.txns[id].status.Confirmed? {
      RowsSound(rates, links, book, book.txns[id := t], Some(id));
    } else {
      var e := TriggerEntry(rates, now, id, t);
      DebitSound(rates, links, book, e, None);
      var charged := book.(ledger := Insert(book.ledger, e).value);
      LateConfirm(rates, links, charged, id, t);
    }
  }

  /** A row that already has its debit may become confirmed. */
  lemma LateConfirm(rates: Rates, links: Links, book: Book, id: TxnId, t: Txn)
    requires Sound(rates, links, book) && id < |book.txns| && SameJob(links, book.txns[id], t)
    requires DebitCount(book.ledger, id) == 1
    ensures Sound(rates, links, book.(txns := book.txns[id := t]))
  {}

  lemma ConfirmSound(rates: Rates, now: Instant, links: Links, book: Book, caller: PersonId, id: TxnId)
    requires Sound(rates, links, book)
    ensures Sound(rates, links, After(book, Confirm(rates, now, book, caller, id)))
  {
    if Confirm(rates, now, book, caller, id).Ok? {
      var t := book.txns[id].(status := TxnStatus.Confirmed, confirmedAt := Some(now), confirmedBy := Some(caller));
      ConfirmingUpdateSound(rates, now, links, book, id, t);
    }
  }

  lemma RecordSound(rates: Rates, links: Links, dir: Directory, book: Book, provider: PersonId, input: RecordInput)
    requires Sound(rates, links, book)
    ensures Sound(rates, links, book.(txns := AfterRecord(book.txns, RecordService(dir, book.txns, provider, input))))
  {
    RowsSound(rates, links, book, AfterRecord(book.txns, RecordService(dir, book.txns, provider, input)), None);
  }

  // ----- the payment path --------------------------------------------------------------------

  /** bookCommissionOnPaid closes the newest row of the job: where that row is confirmed and has no
      debit, no note can quote its booking, so the debit is written unless it rounds to nothing. */
  lemma BookOnPaidSound(rates: Rates, now: Instant, links: Links, book: Book, b: BookingId, k: Booking, id: TxnId)
    requires SoundBut(rates, links, book, Some(id))
    requires b in links && links[b] == Link(k.request, k.provider)
    requires Newest(book.txns, b, k.request) == Some(id)
    requires book.txns[id].status.Confirmed? && DebitCount(book.ledger, id) == 0 ==>
               Commission(book.txns[id].amount, rates.service) <= 0
               || book.txns[id].amount == ResolveAmount(book.txns, k, b)
    ensures Sound(rates, links, BookOnPaid(rates, now, book, b, k, Some(id)))
  {
    var amount := ResolveAmount(book.txns, k, b);
    if AlreadyBooked(book.ledger, Some(id), b) {
      if DebitCount(book.ledger, id) == 0 && book.txns[id].status.Confirmed? {
        NoForeignNote(rates, links, book, b, id);
      }
    } else if amount > 0 && k.provider.Some? {
      var e := PaidEntry(rates, now, b, k.provider.value, Some(id), amount);
      if Insert(book.ledger, e).Some? {
        DebitSound(rates, links, book, e, Some(id));
      }
    } else if amount <= 0 {
      NothingOnNothing(amount, rates.service);
    } else if DebitCount(book.ledger, id) == 0 && book.txns[id].status.Confirmed? {
      NewestIsBornHere(links, book.txns, b, id);
    }
  }

  /** A row born confirmed for some booking can concern no other booking. */
  lemma NewestIsBornHere(links: Links, txns: seq<Txn>, b: BookingId, id: TxnId)
    requires UniqueRequests(links) && b in links && id < |txns|
    requires Concerns(txns[id], b, links[b].request) && BornConfirmed(links, txns, id)
    ensures txns[id].booking == Some(b)
  {}

  /** A note that quotes a booking sits on a debit of one of that booking's rows: if there is only
      one row, on a debit of that row. */
  lemma NoteOnOnlyRow(links: Links, book: Book, b: BookingId, id: TxnId, i: nat)
    requires LedgerPlaced(links, book) && b in links && id < |book.txns|
    requires forall j :: 0 <= j < |book.txns| && Concerns(book.txns[j], b, links[b].request) ==> j == id
    requires i < |book.ledger| && book.ledger[i].booking == Some(b)
    ensures DebitCount(book.ledger, id) > 0
  {
    assert Concerns(book.txns[book.ledger[i].txn.value], b, links[b].request);
    DebitCountPositive(book.ledger, id);
  }

  /** The newest row of a job, confirmed and without a debit, is also its first and therefore only
      row, so no note can quote the job's booking. */
  lemma NoForeignNote(rates: Rates, links: Links, book: Book, b: BookingId, id: TxnId)
    requires SoundBut(rates, links, book, Some(id))
    requires b in links && Newest(book.txns, b, links[b].request) == Some(id)
    requires book.txns[id].status.Confirmed? && DebitCount(book.ledger, id) == 0
    ensures !AlreadyBooked(book.ledger, Some(id), b)
  {
    DebitCountPositive(book.ledger, id);
    NewestIsBornHere(links, book.txns, b, id);
    if i: nat :| i < |book.ledger| && book.ledger[i].booking == Some(b) {
      NoteOnOnlyRow(links, book, b, id, i);
    }
  }

  /** A confirming update of the newest row went through: the ordinary Confirm finds nothing to do. */
  lemma ForcedSound(rates: Rates, now: Instant, links: Links, book: Book, b: BookingId, k: Booking, owner: PersonId, id: TxnId, row: Txn)
    requires Sound(rates, links, book)
    requires b in links && links[b] == Link(k.request, k.provider) && Newest(book.txns, b, k.request) == Some(id)
    requires row.status.Confirmed? && SameJob(links, book.txns[id], row) && row.provider == book.txns[id].provider
    requires book.txns[id].status.Confirmed? ==> row.amount == ResolveAmount(book.txns, k, b) || ResolveAmount(book.txns, k, b) <= 0
    requires UpdateRow(rates, now, book, id, row) == Some(Forced(rates, now, book, id, b, owner, ResolveAmount(book.txns, k, b)))
    ensures Sound(rates, links, SettledAt(rates, now, book, b, k, owner, id, ResolveAmount(book.txns, k, b)))
  {
    var forced := UpdateRow(rates, now, book, id, row).value;
    ConfirmingUpdateSound(rates, now, links, book, id, row);
    NewestStable(links, book.txns, forced.txns, b);
    ConfirmedSettles(rates, now, book, b, k, owner, id, ResolveAmount(book.txns, k, b));
    NothingOnNothing(row.amount, rates.service);
    BookOnPaidSound(rates, now, links, forced, b, k, id);
  }

  /** A check rejected the forced update: the last resort may still confirm a row that somebody has
      confirmed before, or the ordinary Confirm the row as it stands. */
  lemma UnforcedSound(rates: Rates, now: Instant, links: Links, book: Book, b: BookingId, k: Booking, owner: PersonId, id: TxnId)
    requires Sound(rates, links, book)
    requires b in links && links[b] == Link(k.request, k.provider) && Newest(book.txns, b, k.request) == Some(id)
    requires UpdateRow(rates, now, book, id, ForcedRow(book.txns[id], now, b, owner, ResolveAmount(book.txns, k, b))).None?
    ensures Sound(rates, links, SettledAt(rates, now, book, b, k, owner, id, ResolveAmount(book.txns, k, b)))
  {
    var last := LastResortRow(book.txns[id], now);
    if UpdateRow(rates, now, book, id, last).Some? {
      ForcedSound(rates, now, links, book, b, k, owner, id, last);
    } else {
      UnconfirmedSound(rates, now, links, book, b, k, owner, id);
    }
  }

  lemma UnconfirmedSound(rates: Rates, now: Instant, links: Links, book: Book, b: BookingId, k: Booking, owner: PersonId, id: TxnId)
    requires Sound(rates, links, book)
    requires b in links && links[b] == Link(k.request, k.provider) && Newest(book.txns, b, k.request) == Some(id)
    requires Forced(rates, now, book, id, b, owner, ResolveAmount(book.txns, k, b)) == book
    requires book.txns[id].status.Confirmed? ==> ResolveAmount(book.txns, k, b) <= 0 && book.txns[id].amount <= 0
    ensures Sound(rates, links, SettledAt(rates, now, book, b, k, owner, id, ResolveAmount(book.txns, k, b)))
  {
    var confirmed := After(book, Confirm(rates, now, book, owner, id));
    ConfirmSound(rates, now, links, book, owner, id);
    NewestStable(links, book.txns, confirmed.txns, b);
    NothingOnNothing(book.txns[id].amount, rates.service);
    if Confirm(rates, now, book, owner, id).Ok? {
      var t := book.txns[id].(status := TxnStatus.Confirmed, confirmedAt := Some(now), confirmedBy := Some(owner));
      ConfirmingUpdateSound(rates, now, links, book, id, t);
    }
    BookOnPaidSound(rates, now, links, confirmed, b, k, id);
  }

  /** The newest row of a job depends only on which rows concern it. */
  lemma NewestStable(links: Links, before: seq<Txn>, after: seq<Txn>, b: BookingId)
    requires UniqueRequests(links) && b in links && |before| == |after|
    requires forall i :: 0 <= i < |before| ==> SameJob(links, before[i], after[i])
    ensures Newest(before, b, links[b].request) == Newest(after, b, links[b].request)
  {}

  lemma SettledSound(rates: Rates, now: Instant, links: Links, book: Book, b: BookingId, k: Booking, owner: PersonId)
    requires Sound(rates, links, book)
    requires b in links && links[b] == Link(k.request, k.provider)
    ensures Sound(rates, links, Settled(rates, now, book, b, k, owner))
  {
    var amount := ResolveAmount(book.txns, k, b);
    match Newest(book.txns, b, k.request)
    case Some(id) =>
      var row := ForcedRow(book.txns[id], now, b, owner, amount);
      if UpdateRow(rates, now, book, id, row).Some? {
        ForcedSound(rates, now, links, book, b, k, owner, id, row);
      } else {
        UnforcedSound(rates, now, links, book, b, k, owner, id);
      }
    case None =>
      if amount > 0 && k.provider.Some? {
        InsertedSound(rates, now, links, book, b, k, owner);
      }
  }

  /** The row inserted already confirmed is the job's first, no note quotes the job, and
      bookCommissionOnPaid writes the debit that the trigger did not. */
  lemma InsertedSound(rates: Rates, now: Instant, links: Links, book: Book, b: BookingId, k: Booking, owner: PersonId)
    requires Sound(rates, links, book)
    requires b in links && links[b] == Link(k.request, k.provider) && k.provider.Some?
    requires Newest(book.txns, b, k.request).None? && ResolveAmount(book.txns, k, b) > 0
    ensures Sound(rates, links, Settled(rates, now, book, b, k, owner))
  {
    var amount := ResolveAmount(book.txns, k, b);
    var id, row := |book.txns|, PaidRow(now, b, k, owner, k.provider.value, amount);
    var inserted := book.(txns := book.txns + [row]);
    InsertedRowSound(rates, links, book, row, b);
    assert ForcedRow(row, now, b, owner, amount) == row;
    assert inserted.txns[id := row] == inserted.txns;
    assert ResolveAmount(inserted.txns, k, b) == amount;
    BookOnPaidSound(rates, now, links, inserted, b, k, id);
  }

  lemma InsertedRowSound(rates: Rates, links: Links, book: Book, row: Txn, b: BookingId)
    requires Sound(rates, links, book) && b in links
    requires row.booking == Some(b) && row.request == Some(links[b].request) && links[b].provider == Some(row.provider)
    requires forall i :: 0 <= i < |book.txns| ==> !Concerns(book.txns[i], b, links[b].request)
    ensures SoundBut(rates, links, book.(txns := book.txns + [row]), Some(|book.txns|))
  {
    var txns := book.txns + [row];
    FreshRowUncharged(links, book);
    assert forall i :: 0 <= i < |book.txns| ==> txns[i] == book.txns[i];
    forall i | 0 <= i < |txns| && txns[i].status.Confirmed? && DebitCount(book.ledger, i) == 0
      ensures BornConfirmed(links, txns, i)
    {
      if i < |book.txns| {
        assert BornConfirmed(links, book.txns, i);
      }
    }
  }

  lemma FreshRowUncharged(links: Links, book: Book)
    requires LedgerPlaced(links, book)
    ensures DebitCount(book.ledger, |book.txns|) == 0
  {
    DebitCountPositive(book.ledger, |book.txns|);
  }

  // ----- whole runs --------------------------------------------------------------------------

  ghost predicate ShopSound(rates: Rates, s: Shop) {
    Sound(rates, LinksOf(s), s.book)
  }

  lemma PutKeepsLinks(s: Shop, b: BookingId, k: Booking)
    requires b in s.bookings && k.request == s.bookings[b].request && k.provider == s.bookings[b].provider
    ensures LinksOf(Put(s, b, k)) == LinksOf(s)
  {}

  lemma RecordForJobSound(rates: Rates, s: Shop, b: BookingId, provider: PersonId, amount: Cents)
    requires ShopSound(rates, s) && b in s.bookings
    ensures ShopSound(rates, RecordForJob(s, b, provider, amount))
  {
    RecordSound(rates, LinksOf(s), DirectoryOf(s), s.book, provider, JobInput(s, b, amount));
    assert LinksOf(RecordForJob(s, b, provider, amount)) == LinksOf(s);
  }

  lemma AutoBillSound(rates: Rates, s: Shop, b: BookingId, q: Quote)
    requires ShopSound(rates, s)
    ensures ShopSound(rates, DoAutoBill(s, b, q))
  {
    if DoAutoBill(s, b, q) != s {
      RecordForJobSound(rates, s, b, s.bookings[b].provider.value, BillAmount(q));
    }
  }

  /** A call that rewrites one booking and no other table. */
  lemma PutSound(rates: Rates, s: Shop, b: BookingId, k: Booking)
    requires ShopSound(rates, s)
    requires b in s.bookings && k.request == s.bookings[b].request && k.provider == s.bookings[b].provider
    ensures ShopSound(rates, Put(s, b, k))
  {
    PutKeepsLinks(s, b, k);
  }

  lemma SetStatusSound(rates: Rates, s: Shop, b: BookingId, to: Phase, q: Quote)
    requires ShopSound(rates, s)
    ensures ShopSound(rates, AfterJob(s, DoSetStatus(s, b, to, q)))
  {
    if b in s.bookings {
      if s.bookings[b].phase == to {
        AutoBillSound(rates, s, b, q);
      } else {
        var k := Stamped(s.bookings[b], to, s.now.tick);
        PutSound(rates, s, b, k);
        AutoBillSound(rates, Put(s, b, k), b, q);
      }
    }
  }

  lemma SetBillSound(rates: Rates, s: Shop, b: BookingId, amount: Cents)
    requires ShopSound(rates, s)
    ensures ShopSound(rates, AfterJob(s, DoSetBill(s, b, amount)))
  {
    if DoSetBill(s, b, amount).Ok? {
      var k := s.bookings[b].(bill := Some(amount), phase := AwaitingPayment, satisfied := true);
      PutSound(rates, s, b, k);
      if k.provider.Some? {
        RecordForJobSound(rates, Put(s, b, k), b, k.provider.value, amount);
      }
    }
  }

  lemma RowsOfJobSound(rates: Rates, s: Shop, b: BookingId, k: Booking, txns: seq<Txn>)
    requires ShopSound(rates, s) && b in s.bookings
    requires k.request == s.bookings[b].request && k.provider == s.bookings[b].provider
    requires txns == Linked(s.book.txns, b, k.request) || txns == AllDisputed(s.book.txns, b, k.request)
    ensures ShopSound(rates, Put(s, b, k).(book := s.book.(txns := txns)))
  {
    RowsSound(rates, LinksOf(s), s.book, txns, None);
    PutKeepsLinks(s, b, k);
    assert LinksOf(Put(s, b, k).(book := s.book.(txns := txns))) == LinksOf(s);
  }

  lemma ConfirmPaymentSound(rates: Rates, s: Shop, b: BookingId)
    requires ShopSound(rates, s) && b in s.bookings
    ensures ShopSound(rates, AfterJob(s, DoConfirmPayment(rates, s, b)))
  {
    var k := s.bookings[b];
    SettledSound(rates, s.now, LinksOf(s), s.book, b, k, OwnerOf(s, b));
    PutKeepsLinks(s, b, k.(phase := Paid, paymentConfirmed := true));
    assert LinksOf(AfterJob(s, DoConfirmPayment(rates, s, b))) == LinksOf(s);
  }

  lemma OpenBookingSound(rates: Rates, s: Shop, b: BookingId, k: Booking)
    requires ShopSound(rates, s) && b !in s.bookings && !RequestTaken(s, k.request)
    ensures ShopSound(rates, Put(s, b, k))
  {
    var before, after := LinksOf(s), LinksOf(Put(s, b, k));
    assert forall x :: x in before ==> x in after && after[x] == before[x];
    forall id | 0 <= id < |s.book.txns| && s.book.txns[id].status.Confirmed? && DebitCount(s.book.ledger, id) == 0
      ensures BornConfirmed(after, s.book.txns, id)
    {
      assert BornConfirmed(before, s.book.txns, id);
    }
  }

  lemma ApplySound(rates: Rates, s: Shop, call: Call)
    requires ShopSound(rates, s)
    ensures ShopSound(rates, Apply(rates, s, call))
  {
    match call
    case OpenBooking(id, request, garageVisit, provider) =>
      if !(id in s.bookings || request !in s.owners || RequestTaken(s, request)) {
        OpenBookingSound(rates, s, id, Booking(request, garageVisit, provider, Scheduled, None, None, None, false, false));
      }
    case Record(recorder, input) =>
      RecordSound(rates, LinksOf(s), DirectoryOf(s), s.book, recorder, input);
      assert LinksOf(Apply(rates, s, call)) == LinksOf(s);
    case ConfirmTxn(caller, id) =>
      ConfirmSound(rates, s.now, LinksOf(s), s.book, caller, id);
      assert LinksOf(Apply(rates, s, call)) == LinksOf(s);
    case DisputeTxn(caller, id) =>
      RowsSound(rates, LinksOf(s), s.book, After(s.book, Dispute(s.book, caller, id)).txns, None);
      assert LinksOf(Apply(rates, s, call)) == LinksOf(s);
    case SetStatus(id, to, quote) => SetStatusSound(rates, s, id, to, quote);
    case AutoBill(id, quote) => AutoBillSound(rates, s, id, quote);
    case SetBill(id, amount) => SetBillSound(rates, s, id, amount);
    case CustomerMarksPaid(id) =>
      if id in s.bookings {
        var k := s.bookings[id].(phase := CustomerClaimsPaid);
        RowsOfJobSound(rates, s, id, k, Linked(s.book.txns, id, k.request));
      }
    case ProviderConfirmPayment(id, received) =>
      if id in s.bookings {
        if received {
          ConfirmPaymentSound(rates, s, id);
        } else {
          var k := s.bookings[id].(phase := PaymentRejected);
          RowsOfJobSound(rates, s, id, k, AllDisputed(s.book.txns, id, k.request));
        }
      }
    case _ => WorkCallSound(rates, s, call);
  }

  /** The calls that rewrite a booking's phase, stamps and flags. */
  lemma WorkCallSound(rates: Rates, s: Shop, call: Call)
    requires ShopSound(rates, s)
    requires call.ConfirmArrival? || call.StartService? || call.FinishService? || call.ConfirmSatisfaction?
             || call.ProviderDeny? || call.CustomerUnsatisfied? || call.RestartService?
    ensures ShopSound(rates, Apply(rates, s, call))
  {
    var b := call.id;
    if b in s.bookings {
      var k := s.bookings[b];
      match call
      case ConfirmArrival(_, role) => PutSound(rates, s, b, k.(phase := Arrived));
      case StartService(_) => PutSound(rates, s, b, k.(phase := InProgress, startedAt := Some(s.now.tick)));
      case FinishService(_) => PutSound(rates, s, b, k.(phase := AwaitingSatisfaction, completedAt := Some(s.now.tick)));
      case ConfirmSatisfaction(_) => PutSound(rates, s, b, k.(phase := Billed, satisfied := true));
      case ProviderDeny(_) => PutSound(rates, s, b, k.(phase := Phase.Cancelled));
      case CustomerUnsatisfied(_) => PutSound(rates, s, b, k.(phase := NeedsRework, satisfied := false));
      case RestartService(_) =>
        PutSound(rates, s, b, k.(phase := InProgress, startedAt := Coalesce(k.startedAt, Some(s.now.tick))));
    }
  }

  lemma {:induction false} RunSound(rates: Rates, s: Shop, steps: seq<Step>)
    requires ShopSound(rates, s)
    ensures ShopSound(rates, Run(rates, s, steps))
    decreases |steps|
  {
    if steps != [] {
      var s' := Elapsed(s, steps[0]);
      assert LinksOf(s') == LinksOf(s);
      ApplySound(rates, s', steps[0].call);
      RunSound(rates, Next(rates, s, steps[0]), steps[1..]);
    }
  }

  /** After any run, every confirmed transaction whose commission comes to a cent has exactly one
      debit, and no transaction of whatever status has two. */
  lemma ConfirmedIsChargedOnce(rates: Rates, owners: map<RequestId, PersonId>, steps: seq<Step>, id: TxnId)
    ensures var book := Run(rates, Opening(owners), steps).book;
            && DebitCount(book.ledger, id) <= 1
            && (id < |book.txns| && book.txns[id].status.Confirmed? && Commission(book.txns[id].amount, rates.service) >= 1 ==>
                  DebitCount(book.ledger, id) == 1)
  {
    RunSound(rates, Opening(owners), steps);
    DebitCountPositive(Run(rates, Opening(owners), steps).book.ledger, id);
  }
}
