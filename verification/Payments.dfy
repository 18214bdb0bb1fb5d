/** What one payment confirmation does to the books, read off the state before it: which row it
    touches, whether that row ends confirmed, and whether a debit is booked on a row that does not. */
module Payments {
  import opened Tables
  import opened Money
  import opened Ledger
  import opened Transactions
  import opened Jobs

  /** A row of the job that awaits confirmation. */
  predicate Awaits(t: Txn, b: BookingId, r: RequestId) {
    Concerns(t, b, r) && t.status.AwaitingConfirmation?
  }

  predicate NoneAwaiting(txns: seq<Txn>, b: BookingId, r: RequestId) {
    forall i :: 0 <= i < |txns| ==> !Awaits(txns[i], b, r)
  }

  /** The newest row of the job ends confirmed: it is already, or the trigger's share of the amount
      charged comes to a cent, or the trigger's share of the row's own amount does and somebody has
      confirmed the row before, or its car owner still can. */
  predicate ConfirmsNewest(rates: Rates, txns: seq<Txn>, b: BookingId, k: Booking, owner: PersonId, id: TxnId)
    requires id < |txns|
  {
    var row := txns[id];
    || row.status.Confirmed?
    || Commission(ResolveAmount(txns, k, b), rates.trigger) > 0
    || (Commission(row.amount, rates.trigger) > 0
        && (row.confirmedBy.Some? || (row.status.AwaitingConfirmation? && row.owner == owner)))
  }

  /** The transaction part up to bookCommissionOnPaid. */
  function BeforeBooking(rates: Rates, now: Instant, book: Book, b: BookingId, k: Booking, owner: PersonId, id: TxnId): Book
    requires id < |book.txns|
  {
    var forced := Forced(rates, now, book, id, b, owner, ResolveAmount(book.txns, k, b));
    After(forced, Confirm(rates, now, forced, owner, id))
  }

  /** Once the newest row is confirmed the ordinary confirmation finds nothing to do. */
  lemma ConfirmedSettles(rates: Rates, now: Instant, book: Book, b: BookingId, k: Booking, owner: PersonId, id: TxnId, amount: Cents)
    requires id < |book.txns|
    requires var forced := Forced(rates, now, book, id, b, owner, amount); id < |forced.txns| && forced.txns[id].status.Confirmed?
    ensures SettledAt(rates, now, book, b, k, owner, id, amount) ==
            BookOnPaid(rates, now, Forced(rates, now, book, id, b, owner, amount), b, k, Some(id))
  {}

  /** The row it starts from and the row it leaves. */
  predicate SameJobRow(before: Txn, after: Txn, b: BookingId) {
    && after.request == before.request && after.provider == before.provider && after.owner == before.owner
    && (after.booking == before.booking || (before.booking.None? && after.booking == Some(b)))
  }

  predicate OwnOrCharged(before: Txn, after: Txn, charged: Cents) {
    after.amount == before.amount || after.amount == charged
  }

  lemma ForcedOutcome(rates: Rates, now: Instant, book: Book, b: BookingId, k: Booking, owner: PersonId, id: TxnId)
    requires Newest(book.txns, b, k.request) == Some(id)
    ensures var forced := Forced(rates, now, book, id, b, owner, ResolveAmount(book.txns, k, b));
            && |forced.txns| == |book.txns| && forced.txns == book.txns[id := forced.txns[id]]
            && SameJobRow(book.txns[id], forced.txns[id], b)
            && OwnOrCharged(book.txns[id], forced.txns[id], ResolveAmount(book.txns, k, b))
            && (forced.txns[id].status.Confirmed? <==>
                  || book.txns[id].status.Confirmed?
                  || Commission(ResolveAmount(book.txns, k, b), rates.trigger) > 0
                  || (Commission(book.txns[id].amount, rates.trigger) > 0 && book.txns[id].confirmedBy.Some?))
            && (!forced.txns[id].status.Confirmed? ==> forced == book)
            && (TxnChecks(book.txns[id]) ==> TxnChecks(forced.txns[id]))
  {
    NothingOnNothing(book.txns[id].amount, rates.trigger);
    NothingOnNothing(ResolveAmount(book.txns, k, b), rates.trigger);
  }

  /** Only the newest row changes, within its job; it ends confirmed exactly if ConfirmsNewest, and
      otherwise nothing changes at all. */
  lemma BeforeBookingOutcome(rates: Rates, now: Instant, book: Book, b: BookingId, k: Booking, owner: PersonId, id: TxnId)
    requires Newest(book.txns, b, k.request) == Some(id)
    ensures var after := BeforeBooking(rates, now, book, b, k, owner, id);
            && |after.txns| == |book.txns| && after.txns == book.txns[id := after.txns[id]]
            && SameJobRow(book.txns[id], after.txns[id], b)
            && OwnOrCharged(book.txns[id], after.txns[id], ResolveAmount(book.txns, k, b))
            && (after.txns[id].status.Confirmed? <==> ConfirmsNewest(rates, book.txns, b, k, owner, id))
            && (!after.txns[id].status.Confirmed? ==> after == book)
            && (TxnChecks(book.txns[id]) ==> TxnChecks(after.txns[id]))
  {
    ForcedOutcome(rates, now, book, b, k, owner, id);
    NothingOnNothing(book.txns[id].amount, rates.trigger);
  }

  /** bookCommissionOnPaid finds nothing to book: no amount or provider, a share below a cent, or a
      debit that is there already. */
  predicate NothingToBook(rates: Rates, book: Book, b: BookingId, k: Booking, id: Option<TxnId>) {
    var amount := ResolveAmount(book.txns, k, b);
    k.provider.None? || AlreadyBooked(book.ledger, id, b) || Commission(amount, rates.service) <= 0
  }

  /** It appends one debit unless it finds nothing to book, and a second time it finds nothing. */
  lemma BookOnPaidOutcome(rates: Rates, now: Instant, book: Book, b: BookingId, k: Booking, id: Option<TxnId>)
    ensures var after := BookOnPaid(rates, now, book, b, k, id);
            && (if NothingToBook(rates, book, b, k, id) then after == book
                else after == book.(ledger := book.ledger +
                       [PaidEntry(rates, now, b, k.provider.value, id, ResolveAmount(book.txns, k, b))]))
            && NothingToBook(rates, after, b, k, id)
  {
    NothingOnNothing(ResolveAmount(book.txns, k, b), rates.service);
    var after := BookOnPaid(rates, now, book, b, k, id);
    if after != book {
      assert after.ledger[|book.ledger|].booking == Some(b);
    }
  }

  /** The payment path books a debit on a row that it leaves unconfirmed. */
  predicate BooksUnconfirmed(rates: Rates, book: Book, b: BookingId, k: Booking, owner: PersonId) {
    match Newest(book.txns, b, k.request)
    case None => false
    case Some(id) =>
      !ConfirmsNewest(rates, book.txns, b, k, owner, id) && !NothingToBook(rates, book, b, k, Some(id))
  }

  /** A payment without a row to confirm: it inserts one, confirmed, or leaves the books alone. */
  lemma InsertedOutcome(rates: Rates, now: Instant, book: Book, b: BookingId, k: Booking, owner: PersonId)
    requires Newest(book.txns, b, k.request).None?
    ensures var amount, id, after := ResolveAmount(book.txns, k, b), |book.txns|, Settled(rates, now, book, b, k, owner);
            if amount > 0 && k.provider.Some?
            then var inserted := book.(txns := book.txns + [PaidRow(now, b, k, owner, k.provider.value, amount)]);
                 after == BookOnPaid(rates, now, inserted, b, k, Some(id)) && Newest(after.txns, b, k.request) == Some(id)
            else after == book
  {
    var amount, id := ResolveAmount(book.txns, k, b), |book.txns|;
    if amount > 0 && k.provider.Some? {
      var row := PaidRow(now, b, k, owner, k.provider.value, amount);
      var inserted := book.(txns := book.txns + [row]);
      assert ForcedRow(row, now, b, owner, amount) == row;
      assert inserted.txns[id := row] == inserted.txns;
    }
  }

  /** What the two answers to a payment write to the books. */
  lemma PaymentCallWrites(rates: Rates, s: Shop, b: BookingId)
    requires b in s.bookings
    ensures Apply(rates, s, ProviderConfirmPayment(b, true)).book == Settled(rates, s.now, s.book, b, s.bookings[b], OwnerOf(s, b))
    ensures Apply(rates, s, ProviderConfirmPayment(b, false)) == Refused(s, b)
  {}

  lemma RewrittenAwaitsIff(txns: seq<Txn>, b: BookingId, r: RequestId, id: TxnId, row: Txn)
    requires id < |txns| && Concerns(row, b, r)
    ensures NoneAwaiting(txns[id := row], b, r) <==>
            !row.status.AwaitingConfirmation? && forall i :: 0 <= i < |txns| && i != id ==> !Awaits(txns[i], b, r)
  {
    var after := txns[id := row];
    assert after[id] == row;
    assert forall i :: 0 <= i < |txns| && i != id ==> after[i] == txns[i];
  }

  /** A payment confirmation leaves no row of the job awaiting exactly if none but the newest awaits, and
      the newest does not either or ends confirmed. */
  lemma LeavesNoneAwaitingIff(rates: Rates, now: Instant, book: Book, b: BookingId, k: Booking, owner: PersonId)
    ensures NoneAwaiting(Settled(rates, now, book, b, k, owner).txns, b, k.request) <==>
            match Newest(book.txns, b, k.request)
            case None => true
            case Some(id) =>
              && (forall i :: 0 <= i < |book.txns| && i != id ==> !Awaits(book.txns[i], b, k.request))
              && (!book.txns[id].status.AwaitingConfirmation? || ConfirmsNewest(rates, book.txns, b, k, owner, id))
  {
    match Newest(book.txns, b, k.request)
    case None => InsertedOutcome(rates, now, book, b, k, owner);
    case Some(id) =>
      var before := BeforeBooking(rates, now, book, b, k, owner, id);
      BeforeBookingOutcome(rates, now, book, b, k, owner, id);
      RewrittenAwaitsIff(book.txns, b, k.request, id, before.txns[id]);
      assert Settled(rates, now, book, b, k, owner).txns == before.txns;
  }
}
