/** What each call on a job does to the tables, field by field: which calls are accepted, what they write,
    and what they leave alone. */
module JobEffects {
  import opened Tables
  import opened Money
  import opened Ledger
  import opened Transactions
  import opened Jobs
  import P = Payments
  import R = PaymentRuns
  import T = TransactionEffects
  import D = DebitTerms
  import J = JobDebits

  // ----- phases, stamps and flags ------------------------------------------------------------

  predicate IsWork(call: Call) {
    || call.ConfirmArrival? || call.StartService? || call.FinishService? || call.ConfirmSatisfaction?
    || call.ProviderDeny? || call.CustomerUnsatisfied? || call.RestartService?
  }

  /** In which phases a call is accepted: a garage visit's arrival is not the provider's to confirm, a
      roadside job's not the car owner's. */
  predicate Allowed(k: Booking, call: Call)
    requires IsWork(call)
  {
    match call
    case ConfirmArrival(_, role) =>
      k.phase in {Scheduled, EnRoute, AwaitingCustomer, Arrived} && (if k.garageVisit then role != Provider else role != CarOwner)
    case StartService(_) => k.phase == Arrived
    case FinishService(_) => k.phase == InProgress
    case ConfirmSatisfaction(_) =>
      k.phase in {AwaitingSatisfaction, Completed, Finished, Done, InProgress} || k.completedAt != None
    case _ => true
  }

  function Target(call: Call): Phase
    requires IsWork(call)
  {
    match call
    case ConfirmArrival(_, _) => Arrived
    case StartService(_) => InProgress
    case FinishService(_) => AwaitingSatisfaction
    case ConfirmSatisfaction(_) => Billed
    case ProviderDeny(_) => Phase.Cancelled
    case CustomerUnsatisfied(_) => NeedsRework
    case RestartService(_) => InProgress
  }

  /** The start is stamped by the first StartService or RestartService, the end by FinishService; the
      customer's word is set and withdrawn; nothing else about the booking changes but its phase. */
  predicate Moved(before: Booking, after: Booking, call: Call, tick: nat)
    requires IsWork(call)
  {
    && after.phase == Target(call)
    && after.startedAt ==
         (if call.StartService? || (call.RestartService? && before.startedAt == None) then Some(tick) else before.startedAt)
    && after.completedAt == (if call.FinishService? then Some(tick) else before.completedAt)
    && after.satisfied == (call.ConfirmSatisfaction? || (before.satisfied && !call.CustomerUnsatisfied?))
    && after.request == before.request && after.garageVisit == before.garageVisit && after.provider == before.provider
    && after.bill == before.bill && after.paymentConfirmed == before.paymentConfirmed
  }

  /** Only the one booking changes. */
  ghost predicate OnlyBooking(s: Shop, t: Shop, b: BookingId) {
    && t.owners == s.owners && t.book == s.book && t.now == s.now
    && b in s.bookings && b in t.bookings && t.bookings == s.bookings[b := t.bookings[b]]
  }

  lemma WorkEffect(rates: Rates, s: Shop, call: Call)
    requires IsWork(call)
    ensures var after, b := Apply(rates, s, call), call.id;
            if b in s.bookings && Allowed(s.bookings[b], call)
            then OnlyBooking(s, after, b) && Moved(s.bookings[b], after.bookings[b], call, s.now.tick)
            else after == s
  {}

  /** The moves of the job lifecycle. */
  const LIFECYCLE := {(Scheduled, EnRoute), (Scheduled, AwaitingCustomer), (Scheduled, Arrived), (Scheduled, InProgress),
                      (Scheduled, Phase.Cancelled), (EnRoute, Arrived), (EnRoute, Phase.Cancelled), (AwaitingCustomer, Arrived),
                      (AwaitingCustomer, Phase.Cancelled), (Arrived, InProgress), (Arrived, Phase.Cancelled), (InProgress, Completed),
                      (InProgress, Phase.Cancelled), (Completed, AwaitingSatisfaction), (Completed, Billed),
                      (Completed, AwaitingPayment), (Completed, Paid), (AwaitingSatisfaction, Billed), (Billed, AwaitingPayment),
                      (AwaitingPayment, Paid), (Paid, Closed)}

  lemma LifecycleIs(from: Phase, to: Phase)
    ensures CanTransition(from, to) <==> from == to || (from, to) in LIFECYCLE
  {
    match from
    case Scheduled =>
    case Completed =>
    case _ =>
  }

  /** The moves of the booking service. */
  const MOVES := {(Scheduled, InProgress), (Scheduled, Completed), (Scheduled, Phase.Cancelled),
                  (InProgress, Completed), (InProgress, Phase.Cancelled)}

  // ----- the automatic bill ------------------------------------------------------------------

  predicate OfJob(t: Txn, b: BookingId, r: RequestId) {
    t.booking == Some(b) || t.request == Some(r)
  }

  predicate BilledBefore(txns: seq<Txn>, b: BookingId, r: RequestId) {
    exists i :: 0 <= i < |txns| && OfJob(txns[i], b, r) && txns[i].status in {AwaitingConfirmation, TxnStatus.Confirmed}
  }

  /** The offer's price, or the listed price where that is not positive, and on top of it a positive travel
      fee where a mechanic is named. */
  function Price(q: Quote): Cents {
    (if q.offerPrice > 0 then q.offerPrice else q.listPrice) + (if q.hasMechanic && q.travel > 0 then q.travel else 0)
  }

  /** One awaiting row is added, or none. */
  ghost predicate AutoBilled(s: Shop, b: BookingId, q: Quote, after: seq<Txn>)
    requires RequestsExist(s) && b in s.bookings
  {
    var k := s.bookings[b];
    if k.provider == None || Price(q) <= 0 || BilledBefore(s.book.txns, b, k.request) then after == s.book.txns
    else after == s.book.txns + [Txn(Some(b), Some(k.request), s.owners[k.request], k.provider.value, "Vehicle service",
                                     Price(q), AwaitingConfirmation, None, None)]
  }

  lemma AutoBillEffect(rates: Rates, s: Shop, b: BookingId, q: Quote)
    requires RequestsExist(s)
    ensures var after := Apply(rates, s, AutoBill(b, q));
            if b in s.bookings then after == s.(book := s.book.(txns := after.book.txns)) && AutoBilled(s, b, q, after.book.txns)
            else after == s
  {
    if b in s.bookings {
      var found := NewestAwaiting(s.book.txns, b);
      assert found.Some? ==> OfJob(s.book.txns[found.value], b, s.bookings[b].request);
    }
  }

  predicate StatusWritten(before: Booking, after: Booking, to: Phase, tick: nat) {
    && after.phase == to
    && after.startedAt == (if to == InProgress then Some(tick) else before.startedAt)
    && after.completedAt == (if to == Completed then Some(tick) else before.completedAt)
    && after.request == before.request && after.garageVisit == before.garageVisit && after.provider == before.provider
    && after.bill == before.bill && after.satisfied == before.satisfied && after.paymentConfirmed == before.paymentConfirmed
  }

  /** SetStatus: a move of the table is written with its stamp; being there already writes nothing; completed
      is billed either way; anything else is refused. */
  lemma SetStatusEffect(rates: Rates, s: Shop, b: BookingId, to: Phase, q: Quote)
    requires RequestsExist(s)
    ensures var after := Apply(rates, s, SetStatus(b, to, q));
            if b in s.bookings && (s.bookings[b].phase == to || (s.bookings[b].phase, to) in MOVES) then
              && b in after.bookings && after.bookings == s.bookings[b := after.bookings[b]]
              && (if s.bookings[b].phase == to then after.bookings[b] == s.bookings[b]
                  else StatusWritten(s.bookings[b], after.bookings[b], to, s.now.tick))
              && after.owners == s.owners && after.now == s.now && after.book.ledger == s.book.ledger
              && (if to == Completed then AutoBilled(s, b, q, after.book.txns) else after.book.txns == s.book.txns)
            else after == s
  {
    if b in s.bookings && (s.bookings[b].phase == to || (s.bookings[b].phase, to) in MOVES) {
      var k := if s.bookings[b].phase == to then s.bookings[b] else Stamped(s.bookings[b], to, s.now.tick);
      var written := Put(s, b, k);
      assert s.bookings[b := s.bookings[b]] == s.bookings;
      AutoBillEffect(rates, written, b, q);
      SameJobBilled(s, written, b, q);
      MovesAreListed(s.bookings[b].phase, to);
    } else if b in s.bookings {
      MovesAreListed(s.bookings[b].phase, to);
    }
  }

  lemma MovesAreListed(from: Phase, to: Phase)
    ensures (from, to) in MOVES <==> to in BookingTransitions(from) || (from == Scheduled && to == Completed)
  {}

  lemma SameJobBilled(s: Shop, t: Shop, b: BookingId, q: Quote)
    requires RequestsExist(s) && RequestsExist(t) && b in s.bookings && b in t.bookings
    requires t.owners == s.owners && t.book == s.book
    requires t.bookings[b].request == s.bookings[b].request && t.bookings[b].provider == s.bookings[b].provider
    ensures forall after :: AutoBilled(t, b, q, after) <==> AutoBilled(s, b, q, after)
  {}

  /** From completion to ledger: an unbilled job of a known provider that is completed and confirmed by its
      owner is charged the trigger's share of its price, in the month of the confirmation. */
  lemma CompletedJobIsChargedItsPrice(rates: Rates, s: Shop, b: BookingId, q: Quote)
    requires RequestsExist(s) && b in s.bookings && s.bookings[b].phase in {Scheduled, InProgress} && s.bookings[b].provider != None
    requires !BilledBefore(s.book.txns, b, s.bookings[b].request) && Price(q) > 0 && Commission(Price(q), rates.trigger) > 0
    requires forall i :: 0 <= i < |s.book.ledger| ==> s.book.ledger[i].txn != Some(|s.book.txns|)
    ensures var owner, id := s.owners[s.bookings[b].request], |s.book.txns|;
            var after := Apply(rates, Apply(rates, s, SetStatus(b, Completed, q)), ConfirmTxn(owner, id));
            && |after.book.txns| == id + 1 && after.book.txns[id].status == TxnStatus.Confirmed && after.book.txns[id].amount == Price(q)
            && after.book.ledger == s.book.ledger +
                 [Entry(s.bookings[b].provider.value, CommissionDebit, Commission(Price(q), rates.trigger), Some(id), None,
                        Some(rates.trigger), Some(Price(q)), s.now.month, None)]
  {
    var owner, id := s.owners[s.bookings[b].request], |s.book.txns|;
    var completed := Apply(rates, s, SetStatus(b, Completed, q));
    SetStatusEffect(rates, s, b, Completed, q);
    assert (s.bookings[b].phase, Completed) in MOVES;
    T.ConfirmEffect(rates, completed.now, completed.book, owner, id);
    T.AnswerCalls(rates, completed, owner, id);
  }

  // ----- bills, claims and refusals ----------------------------------------------------------

  /** The booking as a bill leaves it. */
  predicate BillWritten(before: Booking, after: Booking, amount: Cents) {
    && after.bill == Some(amount) && after.phase == AwaitingPayment && after.satisfied
    && after.request == before.request && after.garageVisit == before.garageVisit && after.provider == before.provider
    && after.startedAt == before.startedAt && after.completedAt == before.completedAt
    && after.paymentConfirmed == before.paymentConfirmed
  }

  /** SetBill: accepted for a positive amount once work is under way or the customer is satisfied; it writes
      the booking and records the amount for its provider and its request's owner. */
  lemma SetBillEffect(rates: Rates, s: Shop, b: BookingId, amount: Cents)
    requires RequestsExist(s)
    ensures var after := Apply(rates, s, SetBill(b, amount));
            if b in s.bookings && amount > 0
               && (s.bookings[b].satisfied
                   || s.bookings[b].phase in {InProgress, Completed, AwaitingSatisfaction, Billed, AwaitingPayment, Finished}) then
              var k := s.bookings[b];
              && b in after.bookings && after.bookings == s.bookings[b := after.bookings[b]]
              && BillWritten(k, after.bookings[b], amount)
              && after.owners == s.owners && after.now == s.now && after.book.ledger == s.book.ledger
              && (if k.provider == None then after.book.txns == s.book.txns
                  else T.Recorded(s.book.txns, after.book.txns, k.provider.value,
                                  RecordInput(Some(s.owners[k.request]), Some(b), Some(k.request), "Vehicle service", amount),
                                  s.owners[k.request]))
            else after == s
  {
    if DoSetBill(s, b, amount).Ok? {
      var k := s.bookings[b];
      var billed := Put(s, b, k.(bill := Some(amount), phase := AwaitingPayment, satisfied := true));
      if k.provider.Some? {
        var input := RecordInput(Some(s.owners[k.request]), Some(b), Some(k.request), "Vehicle service", amount);
        assert input == JobInput(billed, b, amount);
        T.RecordEffect(rates, billed, k.provider.value, input);
        assert T.Accepts(billed, input, s.owners[k.request]);
      }
    }
  }

  /** A payment claim fills in the booking of the job's rows that have none. */
  lemma MarksPaidEffect(rates: Rates, s: Shop, b: BookingId)
    ensures var after := Apply(rates, s, CustomerMarksPaid(b));
            if b in s.bookings then
              var k, txns := s.bookings[b], after.book.txns;
              && after.bookings == s.bookings[b := k.(phase := CustomerClaimsPaid)]
              && after.owners == s.owners && after.now == s.now && after.book.ledger == s.book.ledger && |txns| == |s.book.txns|
              && forall i :: 0 <= i < |txns| ==>
                   txns[i] == if OfJob(s.book.txns[i], b, k.request) && s.book.txns[i].booking == None
                              then s.book.txns[i].(booking := Some(b)) else s.book.txns[i]
            else after == s
  {}

  /** A refused payment disputes every row of the job, whatever its status, and takes back no debit. */
  lemma RefusedEffect(rates: Rates, s: Shop, b: BookingId)
    ensures var after := Apply(rates, s, ProviderConfirmPayment(b, false));
            if b in s.bookings then
              var k, txns := s.bookings[b], after.book.txns;
              && after.bookings == s.bookings[b := k.(phase := PaymentRejected)]
              && after.owners == s.owners && after.now == s.now && after.book.ledger == s.book.ledger && |txns| == |s.book.txns|
              && forall i :: 0 <= i < |txns| ==>
                   txns[i] == if OfJob(s.book.txns[i], b, k.request) then s.book.txns[i].(status := TxnStatus.Disputed) else s.book.txns[i]
            else after == s
  {}

  // ----- payments ----------------------------------------------------------------------------

  predicate LastOfJob(txns: seq<Txn>, b: BookingId, r: RequestId, id: TxnId) {
    && id < |txns| && OfJob(txns[id], b, r)
    && forall i :: id < i < |txns| ==> !OfJob(txns[i], b, r)
  }

  predicate Debits(ledger: seq<Entry>, id: TxnId) {
    exists i :: 0 <= i < |ledger| && ledger[i].kind == CommissionDebit && ledger[i].txn == Some(id)
  }

  predicate Notes(ledger: seq<Entry>, b: BookingId) {
    exists i :: 0 <= i < |ledger| && ledger[i].kind == CommissionDebit && ledger[i].booking == Some(b)
  }

  /** What a payment charges: a positive bill, or the row's own amount. */
  function Charge(k: Booking, row: Txn): Cents {
    if k.bill != None && k.bill.value > 0 then k.bill.value else row.amount
  }

  /** The row as a payment leaves it. Forced: confirmed at the amount charged, with stamps and booking filled
      in. Otherwise confirmed at its own amount, if that is worth a cent and somebody has confirmed it before
      or its owner can. Otherwise as it was. */
  function PaidTxn(rates: Rates, now: Instant, b: BookingId, k: Booking, owner: PersonId, row: Txn): Txn {
    if row.status == TxnStatus.Confirmed || Commission(Charge(k, row), rates.trigger) > 0 then
      Txn(if row.booking != None then row.booking else Some(b), row.request, row.owner, row.provider, row.service,
          Charge(k, row), TxnStatus.Confirmed,
          if row.confirmedAt != None then row.confirmedAt else Some(now),
          if row.confirmedBy != None then row.confirmedBy else Some(owner))
    else if Commission(row.amount, rates.trigger) > 0 && row.confirmedBy != None then
      row.(status := TxnStatus.Confirmed, confirmedAt := Some(now))
    else if Commission(row.amount, rates.trigger) > 0 && row.status == AwaitingConfirmation && row.owner == owner then
      row.(status := TxnStatus.Confirmed, confirmedAt := Some(now), confirmedBy := Some(owner))
    else row
  }

  /** What it books: the trigger's share of the new row's amount, in the month the row was confirmed, if the
      payment confirmed it; otherwise the service's share of the amount charged, this month, with the booking
      in the note - unless there is a debit already, or it comes to nothing. */
  function PaidDebit(rates: Rates, now: Instant, ledger: seq<Entry>, b: BookingId, k: Booking, owner: PersonId, id: TxnId, row: Txn): seq<Entry>
    requires PaidTxn(rates, now, b, k, owner, row).status == TxnStatus.Confirmed ==> PaidTxn(rates, now, b, k, owner, row).confirmedAt != None
  {
    var paid := PaidTxn(rates, now, b, k, owner, row);
    if row.status != TxnStatus.Confirmed && paid.status == TxnStatus.Confirmed then
      if Debits(ledger, id) then []
      else [Entry(row.provider, CommissionDebit, Commission(paid.amount, rates.trigger), Some(id), None, Some(rates.trigger),
                  Some(paid.amount), paid.confirmedAt.value.month, None)]
    else if Debits(ledger, id) || Notes(ledger, b) || k.provider == None || Commission(Charge(k, row), rates.service) <= 0 then []
    else [Entry(k.provider.value, CommissionDebit, Commission(Charge(k, row), rates.service), Some(id), None, Some(rates.service),
                Some(Charge(k, row)), now.month, Some(b))]
  }

  lemma PaidStamped(rates: Rates, now: Instant, b: BookingId, k: Booking, owner: PersonId, row: Txn)
    requires TxnChecks(row)
    ensures var paid := PaidTxn(rates, now, b, k, owner, row); paid.status == TxnStatus.Confirmed ==> paid.confirmedAt != None
  {}

  lemma LastIsNewest(txns: seq<Txn>, b: BookingId, r: RequestId, id: TxnId)
    ensures LastOfJob(txns, b, r, id) <==> Newest(txns, b, r) == Some(id)
  {
    var found := Newest(txns, b, r);
    assert forall i :: 0 <= i < |txns| ==> (OfJob(txns[i], b, r) <==> Concerns(txns[i], b, r));
  }

  lemma ChargeIsResolved(txns: seq<Txn>, b: BookingId, k: Booking, id: TxnId)
    requires LastOfJob(txns, b, k.request, id)
    ensures ResolveAmount(txns, k, b) == Charge(k, txns[id])
  {
    LastIsNewest(txns, b, k.request, id);
  }

  lemma ConfirmedTxn(rates: Rates, now: Instant, book: Book, b: BookingId, k: Booking, owner: PersonId, id: TxnId)
    requires LastOfJob(book.txns, b, k.request, id) && TxnChecks(book.txns[id])
    ensures P.BeforeBooking(rates, now, book, b, k, owner, id).txns == book.txns[id := PaidTxn(rates, now, b, k, owner, book.txns[id])]
  {
    LastIsNewest(book.txns, b, k.request, id);
    ChargeIsResolved(book.txns, b, k, id);
    if D.Forces(rates, book.txns, b, k, id) {
      D.ForcedGoesThrough(rates, now, book, b, k, owner, id);
    } else {
      D.ForcedIsRejected(rates, now, book, b, k, owner, id);
      UnforcedTxn(rates, now, book, b, k, owner, id);
    }
  }

  lemma UnforcedTxn(rates: Rates, now: Instant, book: Book, b: BookingId, k: Booking, owner: PersonId, id: TxnId)
    requires id < |book.txns| && TxnChecks(book.txns[id]) && book.txns[id].status != TxnStatus.Confirmed
    requires Commission(Charge(k, book.txns[id]), rates.trigger) <= 0 && ResolveAmount(book.txns, k, b) == Charge(k, book.txns[id])
    requires UpdateRow(rates, now, book, id, ForcedRow(book.txns[id], now, b, owner, ResolveAmount(book.txns, k, b))).None?
    ensures P.BeforeBooking(rates, now, book, b, k, owner, id).txns == book.txns[id := PaidTxn(rates, now, b, k, owner, book.txns[id])]
  {
    assert book.txns[id := book.txns[id]] == book.txns;
    var last := LastResortRow(book.txns[id], now);
    if UpdateRow(rates, now, book, id, last).None? {
      T.ConfirmEffect(rates, now, book, owner, id);
    }
  }

  lemma ConfirmedDebit(rates: Rates, now: Instant, book: Book, b: BookingId, k: Booking, owner: PersonId, id: TxnId)
    requires LastOfJob(book.txns, b, k.request, id) && TxnChecks(book.txns[id])
    ensures var row, paid := book.txns[id], PaidTxn(rates, now, b, k, owner, book.txns[id]);
            P.BeforeBooking(rates, now, book, b, k, owner, id).ledger ==
            if row.status != TxnStatus.Confirmed && paid.status == TxnStatus.Confirmed && !Debits(book.ledger, id) then
              book.ledger + [Entry(row.provider, CommissionDebit, Commission(paid.amount, rates.trigger), Some(id), None,
                                   Some(rates.trigger), Some(paid.amount), paid.confirmedAt.value.month, None)]
            else book.ledger
  {
    LastIsNewest(book.txns, b, k.request, id);
    ChargeIsResolved(book.txns, b, k, id);
    PaidStamped(rates, now, b, k, owner, book.txns[id]);
    assert Debits(book.ledger, id) <==> Debited(book.ledger, id);
    if D.Forces(rates, book.txns, b, k, id) {
      D.ForcedGoesThrough(rates, now, book, b, k, owner, id);
      J.TriggerWrites(rates, now, book, id, ForcedRow(book.txns[id], now, b, owner, ResolveAmount(book.txns, k, b)));
    } else {
      D.ForcedIsRejected(rates, now, book, b, k, owner, id);
      UnforcedDebit(rates, now, book, b, k, owner, id);
    }
  }

  lemma UnforcedDebit(rates: Rates, now: Instant, book: Book, b: BookingId, k: Booking, owner: PersonId, id: TxnId)
    requires id < |book.txns| && TxnChecks(book.txns[id]) && book.txns[id].status != TxnStatus.Confirmed
    requires Commission(Charge(k, book.txns[id]), rates.trigger) <= 0 && ResolveAmount(book.txns, k, b) == Charge(k, book.txns[id])
    requires UpdateRow(rates, now, book, id, ForcedRow(book.txns[id], now, b, owner, ResolveAmount(book.txns, k, b))).None?
    ensures var row, paid := book.txns[id], PaidTxn(rates, now, b, k, owner, book.txns[id]);
            P.BeforeBooking(rates, now, book, b, k, owner, id).ledger ==
            if paid.status == TxnStatus.Confirmed && !Debited(book.ledger, id) then
              book.ledger + [Entry(row.provider, CommissionDebit, Commission(paid.amount, rates.trigger), Some(id), None,
                                   Some(rates.trigger), Some(paid.amount), now.month, None)]
            else book.ledger
  {
    var last := LastResortRow(book.txns[id], now);
    if UpdateRow(rates, now, book, id, last).Some? {
      J.TriggerWrites(rates, now, book, id, last);
    } else {
      T.ConfirmEffect(rates, now, book, owner, id);
    }
  }

  /** A payment confirmation on a job that has rows: the last of them is rewritten, at most one debit is
      booked, the booking is paid, and nothing else changes. */
  lemma PaymentEffect(rates: Rates, s: Shop, b: BookingId, id: TxnId)
    requires R.Checked(s) && b in s.bookings && LastOfJob(s.book.txns, b, s.bookings[b].request, id)
    ensures var k, row := s.bookings[b], s.book.txns[id];
            var owner := s.owners[k.request];
            var paid := PaidTxn(rates, s.now, b, k, owner, row);
            && (paid.status == TxnStatus.Confirmed ==> paid.confirmedAt != None)
            && Apply(rates, s, ProviderConfirmPayment(b, true)) ==
               Shop(s.owners, s.bookings[b := k.(phase := Paid, paymentConfirmed := true)],
                    Book(s.book.txns[id := paid], s.book.ledger + PaidDebit(rates, s.now, s.book.ledger, b, k, owner, id, row)), s.now)
  {
    var k, row := s.bookings[b], s.book.txns[id];
    var owner := s.owners[k.request];
    var before := P.BeforeBooking(rates, s.now, s.book, b, k, owner, id);
    assert TxnChecks(row);
    PaidStamped(rates, s.now, b, k, owner, row);
    ConfirmedTxn(rates, s.now, s.book, b, k, owner, id);
    ConfirmedDebit(rates, s.now, s.book, b, k, owner, id);
    LastIsNewest(s.book.txns, b, k.request, id);
    BookedAfter(rates, s.now, s.book, b, k, owner, id);
    P.PaymentCallWrites(rates, s, b);
    assert s.book.ledger + [] == s.book.ledger;
  }

  /** bookCommissionOnPaid on the confirmed books. */
  lemma BookedAfter(rates: Rates, now: Instant, book: Book, b: BookingId, k: Booking, owner: PersonId, id: TxnId)
    requires LastOfJob(book.txns, b, k.request, id) && TxnChecks(book.txns[id])
    requires var paid := PaidTxn(rates, now, b, k, owner, book.txns[id]); paid.status == TxnStatus.Confirmed ==> paid.confirmedAt != None
    ensures Settled(rates, now, book, b, k, owner) ==
            Book(book.txns[id := PaidTxn(rates, now, b, k, owner, book.txns[id])],
                 book.ledger + PaidDebit(rates, now, book.ledger, b, k, owner, id, book.txns[id]))
  {
    var before := P.BeforeBooking(rates, now, book, b, k, owner, id);
    LastIsNewest(book.txns, b, k.request, id);
    ChargeIsResolved(book.txns, b, k, id);
    ConfirmedTxn(rates, now, book, b, k, owner, id);
    ConfirmedDebit(rates, now, book, b, k, owner, id);
    P.BeforeBookingOutcome(rates, now, book, b, k, owner, id);
    J.LeftToBook(rates, now, book, b, k, owner, id);
    P.BookOnPaidOutcome(rates, now, before, b, k, Some(id));
    LeftIsCharge(rates, now, book, b, k, owner, id);
    assert Settled(rates, now, book, b, k, owner) == BookOnPaid(rates, now, before, b, k, Some(id));
    assert NothingIsNothing(rates, book, b, k, id);
    assert book.ledger + [] == book.ledger;
  }

  ghost predicate NothingIsNothing(rates: Rates, book: Book, b: BookingId, k: Booking, id: TxnId)
    requires id < |book.txns|
  {
    P.NothingToBook(rates, book, b, k, Some(id)) <==>
      k.provider == None || Debits(book.ledger, id) || Notes(book.ledger, b) || Commission(ResolveAmount(book.txns, k, b), rates.service) <= 0
  }

  lemma LeftIsCharge(rates: Rates, now: Instant, book: Book, b: BookingId, k: Booking, owner: PersonId, id: TxnId)
    requires LastOfJob(book.txns, b, k.request, id) && TxnChecks(book.txns[id])
    ensures var row, paid := book.txns[id], PaidTxn(rates, now, b, k, owner, book.txns[id]);
            !(row.status != TxnStatus.Confirmed && paid.status == TxnStatus.Confirmed) ==>
              ResolveAmount(P.BeforeBooking(rates, now, book, b, k, owner, id).txns, k, b) == Charge(k, row)
  {
    var paid := PaidTxn(rates, now, b, k, owner, book.txns[id]);
    var after := book.txns[id := paid];
    ConfirmedTxn(rates, now, book, b, k, owner, id);
    assert after[id] == paid && forall i :: id < i < |after| ==> after[i] == book.txns[i];
    ChargeIsResolved(after, b, k, id);
  }

  lemma NothingNewest(txns: seq<Txn>, b: BookingId, r: RequestId)
    ensures Newest(txns, b, r) == None <==> forall i :: 0 <= i < |txns| ==> !OfJob(txns[i], b, r)
  {
    assert forall i :: 0 <= i < |txns| ==> (OfJob(txns[i], b, r) <==> Concerns(txns[i], b, r));
  }

  /** A payment confirmation on a job without rows: with a positive bill and a provider a row is inserted,
      confirmed, and the service's share booked unless the booking is noted already; otherwise only the
      booking changes. */
  lemma FirstPaymentEffect(rates: Rates, s: Shop, b: BookingId)
    requires R.Checked(s) && b in s.bookings
    requires forall i :: 0 <= i < |s.book.txns| ==> !OfJob(s.book.txns[i], b, s.bookings[b].request)
    ensures var k, id := s.bookings[b], |s.book.txns|;
            var owner := s.owners[k.request];
            Apply(rates, s, ProviderConfirmPayment(b, true)) ==
            Shop(s.owners, s.bookings[b := k.(phase := Paid, paymentConfirmed := true)],
                 if k.bill != None && k.bill.value > 0 && k.provider != None then
                   Book(s.book.txns + [Txn(Some(b), Some(k.request), owner, k.provider.value, "Vehicle service", k.bill.value,
                                           TxnStatus.Confirmed, Some(s.now), Some(owner))],
                        s.book.ledger + if Debits(s.book.ledger, id) || Notes(s.book.ledger, b) || Commission(k.bill.value, rates.service) <= 0
                                        then []
                                        else [Entry(k.provider.value, CommissionDebit, Commission(k.bill.value, rates.service), Some(id),
                                                    None, Some(rates.service), Some(k.bill.value), s.now.month, Some(b))])
                 else s.book,
                 s.now)
  {
    var k, id := s.bookings[b], |s.book.txns|;
    var owner := s.owners[k.request];
    NothingNewest(s.book.txns, b, k.request);
    P.InsertedOutcome(rates, s.now, s.book, b, k, owner);
    P.PaymentCallWrites(rates, s, b);
    assert s.book.ledger + [] == s.book.ledger;
    if k.bill != None && k.bill.value > 0 && k.provider != None {
      var row := Txn(Some(b), Some(k.request), owner, k.provider.value, "Vehicle service", k.bill.value, TxnStatus.Confirmed, Some(s.now), Some(owner));
      var inserted := s.book.(txns := s.book.txns + [row]);
      P.BookOnPaidOutcome(rates, s.now, inserted, b, k, Some(id));
      assert NothingIsNothing(rates, inserted, b, k, id);
    }
  }

  /** Over every payment of every run: where the bill is positive and worth a cent to the trigger, the job's
      last row ends at the bill; where there is no positive bill it keeps its amount; and a debit that the
      payment adds is on that row, with its amount as the gross - unless the row stays unconfirmed, when it
      is the amount charged. */
  lemma PaymentAmounts(rates: Rates, owners: map<RequestId, PersonId>, steps: seq<Step>, b: BookingId, id: TxnId)
    requires var s := Run(rates, Opening(owners), steps); b in s.bookings && LastOfJob(s.book.txns, b, s.bookings[b].request, id)
    ensures var s := Run(rates, Opening(owners), steps);
            var after, k := Apply(rates, s, ProviderConfirmPayment(b, true)), s.bookings[b];
            && |after.book.txns| == |s.book.txns| && s.book.ledger <= after.book.ledger && |after.book.ledger| <= |s.book.ledger| + 1
            && (k.bill != None && Commission(k.bill.value, rates.trigger) > 0 ==>
                  after.book.txns[id].amount == k.bill.value && after.book.txns[id].status == TxnStatus.Confirmed)
            && (k.bill == None || k.bill.value <= 0 ==> after.book.txns[id].amount == s.book.txns[id].amount)
            && (forall i :: 0 <= i < |s.book.txns| && i != id ==> after.book.txns[i] == s.book.txns[i])
            && forall i :: |s.book.ledger| <= i < |after.book.ledger| ==>
                 && after.book.ledger[i].kind == CommissionDebit && after.book.ledger[i].txn == Some(id)
                 && (after.book.txns[id].status == TxnStatus.Confirmed ==> after.book.ledger[i].gross == Some(after.book.txns[id].amount))
                 && (after.book.txns[id].status != TxnStatus.Confirmed ==>
                       after.book.ledger[i].gross == Some(Charge(k, s.book.txns[id])))
  {
    var s := Run(rates, Opening(owners), steps);
    R.RunChecked(rates, Opening(owners), steps);
    PaymentEffect(rates, s, b, id);
    if s.bookings[b].bill != None { NothingOnNothing(s.bookings[b].bill.value, rates.trigger); }
    assert TxnChecks(s.book.txns[id]);
  }

  // ----- new bookings ------------------------------------------------------------------------

  /** A booking is opened, scheduled and blank, for a request that exists and has none. */
  lemma OpenBookingEffect(rates: Rates, s: Shop, b: BookingId, request: RequestId, garageVisit: bool, provider: Option<PersonId>)
    ensures Apply(rates, s, OpenBooking(b, request, garageVisit, provider)) ==
            if b !in s.bookings && request in s.owners && (forall x :: x in s.bookings ==> s.bookings[x].request != request)
            then s.(bookings := s.bookings[b := Booking(request, garageVisit, provider, Scheduled, None, None, None, false, false)])
            else s
  {}
}
