/** Is a payment confirmation final? Exactly when nothing that either party repeats afterwards - payment
    confirmations, confirmations, disputes, payment claims, automatic bills - changes a charge. */
module PaymentRuns {
  import opened Tables
  import opened Money
  import opened Ledger
  import opened Transactions
  import opened Jobs
  import opened Payments
  import opened JobExamples

  // ----- what every run keeps ----------------------------------------------------------------

  /** The tables' own checks: every row passes its checks and every booking's request exists. */
  ghost predicate Checked(s: Shop) {
    RowsChecked(s.book.txns) && RequestsExist(s)
  }

  predicate RowsChecked(txns: seq<Txn>) {
    forall i :: 0 <= i < |txns| ==> TxnChecks(txns[i])
  }

  lemma SettledChecked(rates: Rates, now: Instant, book: Book, b: BookingId, k: Booking, owner: PersonId)
    requires RowsChecked(book.txns)
    ensures RowsChecked(Settled(rates, now, book, b, k, owner).txns)
  {
    match Newest(book.txns, b, k.request)
    case None => InsertedOutcome(rates, now, book, b, k, owner);
    case Some(id) => BeforeBookingOutcome(rates, now, book, b, k, owner, id);
  }

  lemma RecordChecked(s: Shop, recorder: PersonId, input: RecordInput)
    requires RowsChecked(s.book.txns)
    ensures RowsChecked(AfterRecord(s.book.txns, RecordService(DirectoryOf(s), s.book.txns, recorder, input)))
  {}

  lemma AutoBillChecked(s: Shop, b: BookingId, q: Quote)
    requires RowsChecked(s.book.txns)
    ensures RowsChecked(DoAutoBill(s, b, q).book.txns)
  {
    if DoAutoBill(s, b, q) != s {
      RecordChecked(s, s.bookings[b].provider.value, JobInput(s, b, BillAmount(q)));
    }
  }

  lemma RecordForJobChecked(s: Shop, b: BookingId, provider: PersonId, amount: Cents)
    requires RowsChecked(s.book.txns) && b in s.bookings
    ensures RowsChecked(RecordForJob(s, b, provider, amount).book.txns)
  {
    RecordChecked(s, provider, JobInput(s, b, amount));
  }

  lemma SetStatusChecked(s: Shop, b: BookingId, to: Phase, q: Quote)
    requires RowsChecked(s.book.txns)
    ensures RowsChecked(AfterJob(s, DoSetStatus(s, b, to, q)).book.txns)
  {
    if b in s.bookings {
      AutoBillChecked(s, b, q);
      AutoBillChecked(Put(s, b, Stamped(s.bookings[b], to, s.now.tick)), b, q);
    }
  }

  lemma SetBillChecked(s: Shop, b: BookingId, amount: Cents)
    requires RowsChecked(s.book.txns)
    ensures RowsChecked(AfterJob(s, DoSetBill(s, b, amount)).book.txns)
  {
    if DoSetBill(s, b, amount).Ok? && s.bookings[b].provider.Some? {
      var k := s.bookings[b].(bill := Some(amount), phase := AwaitingPayment, satisfied := true);
      RecordForJobChecked(Put(s, b, k), b, k.provider.value, amount);
    }
  }

  lemma ApplyChecked(rates: Rates, s: Shop, call: Call)
    requires Checked(s)
    ensures Checked(Apply(rates, s, call))
  {
    RequestsStillExist(rates, s, call);
    match call
    case Record(recorder, input) => RecordChecked(s, recorder, input);
    case AutoBill(b, quote) => AutoBillChecked(s, b, quote);
    case SetStatus(b, to, quote) => SetStatusChecked(s, b, to, quote);
    case SetBill(b, amount) => SetBillChecked(s, b, amount);
    case ProviderConfirmPayment(b, received) =>
      if b in s.bookings && received {
        SettledChecked(rates, s.now, s.book, b, s.bookings[b], OwnerOf(s, b));
      }
    case _ =>
  }

  lemma RequestsStillExist(rates: Rates, s: Shop, call: Call)
    requires RequestsExist(s)
    ensures RequestsExist(Apply(rates, s, call))
  {}

  lemma {:induction false} RunChecked(rates: Rates, s: Shop, steps: seq<Step>)
    requires Checked(s)
    ensures Checked(Run(rates, s, steps))
    decreases |steps|
  {
    if steps != [] {
      ApplyChecked(rates, Elapsed(s, steps[0]), steps[0].call);
      RunChecked(rates, Next(rates, s, steps[0]), steps[1..]);
    }
  }

  // ----- the property ------------------------------------------------------------------------

  /** The calls that either party can repeat on a job once it is paid. */
  predicate OnJob(s: Shop, b: BookingId, call: Call)
    requires b in s.bookings
  {
    var onRow := (id: TxnId) => id < |s.book.txns| && Concerns(s.book.txns[id], b, s.bookings[b].request);
    match call
    case ProviderConfirmPayment(id, received) => id == b && received
    case CustomerMarksPaid(id) => id == b
    case AutoBill(id, _) => id == b
    case ConfirmTxn(_, id) => onRow(id)
    case DisputeTxn(_, id) => onRow(id)
    case _ => false
  }

  /** The same ledger, and the same transactions with the same statuses. */
  predicate SameCharges(before: Book, after: Book) {
    && after.ledger == before.ledger && |after.txns| == |before.txns|
    && forall i :: 0 <= i < |before.txns| ==> after.txns[i].status == before.txns[i].status
  }

  /** No sequence of those calls changes a charge. */
  ghost predicate Absorbing(rates: Rates, s: Shop, b: BookingId)
    requires b in s.bookings
  {
    forall steps: seq<Step> :: (forall i :: 0 <= i < |steps| ==> OnJob(s, b, steps[i].call)) ==>
      SameCharges(s.book, Run(rates, s, steps).book)
  }

  /** The check before the payment. Without a row there is a bill to insert one from, or nobody to bill
      for. Otherwise no row of the job but the newest awaits, and the newest ends confirmed - or it is
      past awaiting and the automatic bill has another confirmed row, or no provider, to stop it. */
  predicate PaymentHolds(rates: Rates, txns: seq<Txn>, b: BookingId, k: Booking, owner: PersonId) {
    match Newest(txns, b, k.request)
    case None => k.provider.None? || ResolveAmount(txns, k, b) > 0
    case Some(id) =>
      && (forall i :: 0 <= i < |txns| && i != id ==> !Awaits(txns[i], b, k.request))
      && (|| ConfirmsNewest(rates, txns, b, k, owner, id)
          || (!txns[id].status.AwaitingConfirmation? && (k.provider.None? || AlreadyBilled(txns, b, k.request))))
  }

  // ----- a paid job that is quiet ------------------------------------------------------------

  /** The payment path would find nothing to confirm or book. */
  predicate PaidUp(rates: Rates, book: Book, b: BookingId, k: Booking, owner: PersonId) {
    match Newest(book.txns, b, k.request)
    case None => k.provider.None? || ResolveAmount(book.txns, k, b) <= 0
    case Some(id) =>
      && NothingToBook(rates, book, b, k, Some(id))
      && (book.txns[id].status.Confirmed? || !ConfirmsNewest(rates, book.txns, b, k, owner, id))
  }

  predicate Stopped(txns: seq<Txn>, b: BookingId, k: Booking) {
    NoneAwaiting(txns, b, k.request) && (k.provider.None? || AlreadyBilled(txns, b, k.request))
  }

  /** The rows of a job change in their amounts and in bookings filled in, and no more. */
  predicate SameRows(before: seq<Txn>, after: seq<Txn>, b: BookingId, r: RequestId) {
    && |after| == |before|
    && forall i :: 0 <= i < |before| ==>
         && after[i].status == before[i].status && after[i].confirmedBy == before[i].confirmedBy
         && after[i].owner == before[i].owner
         && Concerns(after[i], b, r) == Concerns(before[i], b, r)
  }

  lemma SameRowsKeep(before: seq<Txn>, after: seq<Txn>, b: BookingId, k: Booking)
    requires SameRows(before, after, b, k.request)
    ensures Newest(after, b, k.request) == Newest(before, b, k.request)
    ensures Stopped(before, b, k) ==> Stopped(after, b, k)
  {
    var x, y := Newest(before, b, k.request), Newest(after, b, k.request);
    if x.Some? { assert Concerns(after[x.value], b, k.request); }
    if y.Some? { assert Concerns(before[y.value], b, k.request); }
    if AlreadyBilled(before, b, k.request) {
      var i :| 0 <= i < |before| && Concerns(before[i], b, k.request)
               && (before[i].status.AwaitingConfirmation? || before[i].status.Confirmed?);
      assert Concerns(after[i], b, k.request) && after[i].status == before[i].status;
    }
  }

  /** Forcing a confirmed row changes its amount to the one charged, and no more. */
  lemma ForcedAgain(rates: Rates, now: Instant, book: Book, b: BookingId, k: Booking, owner: PersonId, id: TxnId)
    requires RowsChecked(book.txns) && Newest(book.txns, b, k.request) == Some(id) && book.txns[id].status.Confirmed?
    ensures var after := BeforeBooking(rates, now, book, b, k, owner, id);
            && after.ledger == book.ledger && SameRows(book.txns, after.txns, b, k.request)
            && after.txns[id].amount == ResolveAmount(book.txns, k, b)
  {
    assert TxnChecks(book.txns[id]);
    var row := ForcedRow(book.txns[id], now, b, owner, ResolveAmount(book.txns, k, b));
    assert Forced(rates, now, book, id, b, owner, ResolveAmount(book.txns, k, b)) == book.(txns := book.txns[id := row]);
  }

  /** Confirming the payment of a paid-up job again, at any time, changes no charge, and leaves the job
      paid up. */
  lemma PaidUpAgain(rates: Rates, now: Instant, book: Book, b: BookingId, k: Booking, owner: PersonId)
    requires RowsChecked(book.txns) && PaidUp(rates, book, b, k, owner)
    ensures var after := Settled(rates, now, book, b, k, owner);
            after.ledger == book.ledger && SameRows(book.txns, after.txns, b, k.request) && PaidUp(rates, after, b, k, owner)
  {
    match Newest(book.txns, b, k.request)
    case None => InsertedOutcome(rates, now, book, b, k, owner);
    case Some(id) =>
      var after := BeforeBooking(rates, now, book, b, k, owner, id);
      if book.txns[id].status.Confirmed? {
        ForcedAgain(rates, now, book, b, k, owner, id);
        SameRowsKeep(book.txns, after.txns, b, k);
      } else {
        BeforeBookingOutcome(rates, now, book, b, k, owner, id);
      }
      BookOnPaidOutcome(rates, now, after, b, k, Some(id));
  }

  ghost predicate Quiet(rates: Rates, s: Shop, b: BookingId) {
    && Checked(s) && b in s.bookings
    && PaidUp(rates, s.book, b, s.bookings[b], OwnerOf(s, b))
    && Stopped(s.book.txns, b, s.bookings[b])
  }

  /** The payment path looks at the request, the provider and the bill of a booking, and no more. */
  predicate SameTerms(k: Booking, k': Booking) {
    k'.request == k.request && k'.provider == k.provider && k'.bill == k.bill
  }

  lemma SameTermsKeep(rates: Rates, now: Instant, book: Book, b: BookingId, k: Booking, k': Booking, owner: PersonId)
    requires SameTerms(k, k')
    ensures PaidUp(rates, book, b, k, owner) == PaidUp(rates, book, b, k', owner)
    ensures Stopped(book.txns, b, k) == Stopped(book.txns, b, k')
    ensures Settled(rates, now, book, b, k, owner) == Settled(rates, now, book, b, k', owner)
  {}

  predicate StillOn(s: Shop, next: Shop, b: BookingId)
    requires b in s.bookings
  {
    && b in next.bookings && SameTerms(s.bookings[b], next.bookings[b]) && next.owners == s.owners
    && SameRows(s.book.txns, next.book.txns, b, s.bookings[b].request) && next.book.ledger == s.book.ledger
  }

  lemma MarksPaidQuiet(rates: Rates, s: Shop, b: BookingId)
    requires Quiet(rates, s, b)
    ensures var next := Apply(rates, s, CustomerMarksPaid(b)); StillOn(s, next, b) && Quiet(rates, next, b)
  {
    var k, next := s.bookings[b], Apply(rates, s, CustomerMarksPaid(b));
    ApplyChecked(rates, s, CustomerMarksPaid(b));
    SameRowsKeep(s.book.txns, next.book.txns, b, k);
    SameTermsKeep(rates, s.now, next.book, b, k, next.bookings[b], OwnerOf(s, b));
    assert ResolveAmount(next.book.txns, k, b) == ResolveAmount(s.book.txns, k, b);
  }

  lemma PaymentQuiet(rates: Rates, s: Shop, b: BookingId)
    requires Quiet(rates, s, b)
    ensures var next := Apply(rates, s, ProviderConfirmPayment(b, true)); StillOn(s, next, b) && Quiet(rates, next, b)
  {
    var k, next := s.bookings[b], Apply(rates, s, ProviderConfirmPayment(b, true));
    ApplyChecked(rates, s, ProviderConfirmPayment(b, true));
    PaidUpAgain(rates, s.now, s.book, b, k, OwnerOf(s, b));
    SameRowsKeep(s.book.txns, next.book.txns, b, k);
    SameTermsKeep(rates, s.now, next.book, b, k, next.bookings[b], OwnerOf(s, b));
  }

  lemma QuietStep(rates: Rates, s: Shop, b: BookingId, step: Step)
    requires Quiet(rates, s, b) && OnJob(s, b, step.call)
    ensures var next := Next(rates, s, step); StillOn(s, next, b) && Quiet(rates, next, b)
  {
    var s', call := Elapsed(s, step), step.call;
    assert Quiet(rates, s', b);
    match call
    case CustomerMarksPaid(_) => MarksPaidQuiet(rates, s', b);
    case ProviderConfirmPayment(_, _) => PaymentQuiet(rates, s', b);
    case AutoBill(_, _) =>
    case ConfirmTxn(_, id) =>
      assert !Awaits(s.book.txns[id], b, s.bookings[b].request);
      assert Apply(rates, s', call) == s';
    case DisputeTxn(_, id) =>
      assert !Awaits(s.book.txns[id], b, s.bookings[b].request);
      assert Apply(rates, s', call) == s';
  }

  /** On a quiet job no sequence of the calls changes a charge. */
  lemma {:induction false} QuietRun(rates: Rates, s: Shop, b: BookingId, steps: seq<Step>)
    requires Quiet(rates, s, b)
    requires forall i :: 0 <= i < |steps| ==> OnJob(s, b, steps[i].call)
    ensures SameCharges(s.book, Run(rates, s, steps).book)
    decreases |steps|
  {
    if steps != [] {
      var next, rest := Next(rates, s, steps[0]), steps[1..];
      QuietStep(rates, s, b, steps[0]);
      forall i | 0 <= i < |rest| ensures OnJob(next, b, rest[i].call) {
        assert OnJob(s, b, steps[i + 1].call);
      }
      QuietRun(rates, next, b, rest);
    }
  }

  // ----- what one payment confirmation leaves ------------------------------------------------

  /** After any payment confirmation the job is paid up: repeating it would change no charge. */
  lemma PaymentPaysUp(rates: Rates, now: Instant, book: Book, b: BookingId, k: Booking, owner: PersonId)
    ensures PaidUp(rates, Settled(rates, now, book, b, k, owner), b, k, owner)
  {
    match Newest(book.txns, b, k.request)
    case None =>
      InsertedOutcome(rates, now, book, b, k, owner);
      if ResolveAmount(book.txns, k, b) > 0 && k.provider.Some? {
        var row := PaidRow(now, b, k, owner, k.provider.value, ResolveAmount(book.txns, k, b));
        BookOnPaidOutcome(rates, now, book.(txns := book.txns + [row]), b, k, Some(|book.txns|));
      }
    case Some(id) =>
      var confirmed := BeforeBooking(rates, now, book, b, k, owner, id);
      BeforeBookingOutcome(rates, now, book, b, k, owner, id);
      NewestKept(book.txns, b, k.request, id, confirmed.txns[id]);
      BookOnPaidOutcome(rates, now, confirmed, b, k, Some(id));
  }

  /** The newest row stays the newest when it is rewritten within the job. */
  lemma NewestKept(txns: seq<Txn>, b: BookingId, r: RequestId, id: TxnId, row: Txn)
    requires Newest(txns, b, r) == Some(id) && Concerns(row, b, r)
    ensures Newest(txns[id := row], b, r) == Some(id)
  {
    var after := txns[id := row];
    var found := Newest(after, b, r);
    assert Concerns(after[id], b, r);
    assert forall i :: id < i < |txns| ==> after[i] == txns[i];
  }

  /** A payment confirmation stops the job - no row awaits and the automatic bill is blocked - exactly if
      the check before it holds. */
  lemma PaymentStopsIff(rates: Rates, now: Instant, book: Book, b: BookingId, k: Booking, owner: PersonId)
    ensures Stopped(Settled(rates, now, book, b, k, owner).txns, b, k) <==> PaymentHolds(rates, book.txns, b, k, owner)
  {
    match Newest(book.txns, b, k.request)
    case None => InsertedStopsIff(rates, now, book, b, k, owner);
    case Some(id) =>
      BeforeBookingOutcome(rates, now, book, b, k, owner, id);
      var confirmed := BeforeBooking(rates, now, book, b, k, owner, id);
      assert Settled(rates, now, book, b, k, owner).txns == confirmed.txns;
      RewrittenStopsIff(book.txns, b, k, id, confirmed.txns[id]);
  }

  lemma InsertedStopsIff(rates: Rates, now: Instant, book: Book, b: BookingId, k: Booking, owner: PersonId)
    requires Newest(book.txns, b, k.request).None?
    ensures Stopped(Settled(rates, now, book, b, k, owner).txns, b, k) <==> k.provider.None? || ResolveAmount(book.txns, k, b) > 0
  {
    InsertedOutcome(rates, now, book, b, k, owner);
    if ResolveAmount(book.txns, k, b) > 0 && k.provider.Some? {
      var row := PaidRow(now, b, k, owner, k.provider.value, ResolveAmount(book.txns, k, b));
      var txns := book.txns + [row];
      assert txns[|book.txns|] == row && Concerns(row, b, k.request);
    }
  }

  lemma RewrittenStopsIff(txns: seq<Txn>, b: BookingId, k: Booking, id: TxnId, row: Txn)
    requires Newest(txns, b, k.request) == Some(id) && Concerns(row, b, k.request)
    requires row.status.Confirmed? || row == txns[id]
    ensures Stopped(txns[id := row], b, k) <==>
            && (forall i :: 0 <= i < |txns| && i != id ==> !Awaits(txns[i], b, k.request))
            && (|| row.status.Confirmed?
                || (!row.status.AwaitingConfirmation? && (k.provider.None? || AlreadyBilled(txns, b, k.request))))
  {
    var after := txns[id := row];
    assert after[id] == row;
    assert forall i :: 0 <= i < |txns| && i != id ==> after[i] == txns[i];
    if row == txns[id] { assert after == txns; }
  }

  // ----- where it is not final ---------------------------------------------------------------

  /** One call that changes a charge refutes absorption. */
  lemma OneCallRefutes(rates: Rates, s: Shop, b: BookingId, call: Call)
    requires b in s.bookings && OnJob(s, b, call) && !SameCharges(s.book, Apply(rates, s, call).book)
    ensures !Absorbing(rates, s, b)
  {
    RunOne(rates, s, call);
    var steps := [Now(call)];
    assert OnJob(s, b, steps[0].call);
  }

  /** An awaiting row can still be disputed by its owner. */
  lemma AwaitingRefutes(rates: Rates, s: Shop, b: BookingId, id: TxnId)
    requires b in s.bookings && id < |s.book.txns| && Awaits(s.book.txns[id], b, s.bookings[b].request)
    ensures !Absorbing(rates, s, b)
  {
    var call := DisputeTxn(s.book.txns[id].owner, id);
    assert Apply(rates, s, call).book.txns[id].status.Disputed?;
    OneCallRefutes(rates, s, b, call);
  }

  /** An unbilled job with a provider gets a new row from the automatic bill. */
  lemma UnbilledRefutes(rates: Rates, s: Shop, b: BookingId)
    requires Checked(s) && b in s.bookings && s.bookings[b].provider.Some?
    requires !AlreadyBilled(s.book.txns, b, s.bookings[b].request)
    ensures !Absorbing(rates, s, b)
  {
    var quote, r := Quote(1, 0, 0, false), s.bookings[b].request;
    var awaiting := NewestAwaiting(s.book.txns, b);
    assert awaiting.Some? ==> Concerns(s.book.txns[awaiting.value], b, r);
    assert |DoAutoBill(s, b, quote).book.txns| == |s.book.txns| + 1;
    OneCallRefutes(rates, s, b, AutoBill(b, quote));
  }

  lemma UnstoppedRefutes(rates: Rates, s: Shop, b: BookingId)
    requires Checked(s) && b in s.bookings && !Stopped(s.book.txns, b, s.bookings[b])
    ensures !Absorbing(rates, s, b)
  {
    if NoneAwaiting(s.book.txns, b, s.bookings[b].request) {
      UnbilledRefutes(rates, s, b);
    } else {
      var id :| 0 <= id < |s.book.txns| && Awaits(s.book.txns[id], b, s.bookings[b].request);
      AwaitingRefutes(rates, s, b, id);
    }
  }

  /** A payment confirmation is absorbing - no sequence of repeated payment confirmations, confirmations,
      disputes, payment claims and automatic bills on the job changes the ledger or a transaction's status
      again, or adds a transaction - exactly if the check before the call holds. */
  lemma PaymentIsAbsorbingIff(rates: Rates, s: Shop, b: BookingId)
    requires Checked(s) && b in s.bookings
    ensures Absorbing(rates, Apply(rates, s, ProviderConfirmPayment(b, true)), b)
            <==> PaymentHolds(rates, s.book.txns, b, s.bookings[b], OwnerOf(s, b))
  {
    var k, owner := s.bookings[b], OwnerOf(s, b);
    var s1 := Apply(rates, s, ProviderConfirmPayment(b, true));
    ApplyChecked(rates, s, ProviderConfirmPayment(b, true));
    PaymentPaysUp(rates, s.now, s.book, b, k, owner);
    PaymentStopsIff(rates, s.now, s.book, b, k, owner);
    SameTermsKeep(rates, s.now, s1.book, b, k, s1.bookings[b], owner);
    if Stopped(s1.book.txns, b, s1.bookings[b]) {
      assert Quiet(rates, s1, b);
      forall steps: seq<Step> | forall i :: 0 <= i < |steps| ==> OnJob(s1, b, steps[i].call)
        ensures SameCharges(s1.book, Run(rates, s1, steps).book)
      {
        QuietRun(rates, s1, b, steps);
      }
    } else {
      UnstoppedRefutes(rates, s1, b);
    }
  }

  /** So it is in every state that a run of all the calls reaches. */
  lemma PaymentIsAbsorbingOverRunsIff(rates: Rates, owners: map<RequestId, PersonId>, steps: seq<Step>, b: BookingId)
    requires b in Run(rates, Opening(owners), steps).bookings
    ensures var s := Run(rates, Opening(owners), steps);
            Absorbing(rates, Apply(rates, s, ProviderConfirmPayment(b, true)), b)
            <==> PaymentHolds(rates, s.book.txns, b, s.bookings[b], OwnerOf(s, b))
  {
    RunChecked(rates, Opening(owners), steps);
    PaymentIsAbsorbingIff(rates, Run(rates, Opening(owners), steps), b);
  }

  // ----- two states in which the check fails -------------------------------------------------

  lemma FiveCentsFailTheCheck(owner: PersonId, provider: PersonId)
    ensures var s := BilledJob(owner, provider, 5);
            Checked(s) && OwnerOf(s, 0) == owner && !PaymentHolds(SOURCE_RATES, s.book.txns, 0, s.bookings[0], owner)
  {
    assert Newest(BilledJob(owner, provider, 5).book.txns, 0, 0) == Some(0);
    assert Commission(5, TRIGGER_RATE) == 0;
  }

  /** The payment of a job billed at five cents, at the rates of the source. */
  lemma FiveCentsAreNotFinal(owner: PersonId, provider: PersonId)
    ensures var s := Run(SOURCE_RATES, Opening(map[0 := owner]), BillingSteps(provider, 5));
            0 in s.bookings && !Absorbing(SOURCE_RATES, Apply(SOURCE_RATES, s, ProviderConfirmPayment(0, true)), 0)
  {
    BilledJobIsReached(SOURCE_RATES, owner, provider, 5);
    FiveCentsFailTheCheck(owner, provider);
    PaymentIsAbsorbingIff(SOURCE_RATES, BilledJob(owner, provider, 5), 0);
  }

  function RequestOnly(owner: PersonId, amount: Cents): RecordInput {
    RecordInput(Some(owner), None, Some(0), "Vehicle service", amount)
  }

  function RequestRow(owner: PersonId, provider: PersonId, amount: Cents): Txn {
    Txn(None, Some(0), owner, provider, "Vehicle service", amount, AwaitingConfirmation, None, None)
  }

  /** A job whose price was recorded twice by request alone. */
  function TwiceRecorded(owner: PersonId, provider: PersonId, amount: Cents): Shop {
    Shop(map[0 := owner],
         map[0 := Booking(0, false, Some(provider), Scheduled, None, None, None, false, false)],
         Book([RequestRow(owner, provider, amount), RequestRow(owner, provider, amount)], []),
         Instant(0, 0))
  }

  function TwiceRecordedSteps(owner: PersonId, provider: PersonId, amount: Cents): seq<Step> {
    [Now(OpenBooking(0, 0, false, Some(provider))), Now(Record(provider, RequestOnly(owner, amount))),
     Now(Record(provider, RequestOnly(owner, amount)))]
  }

  lemma TwiceRecordedIsReached(rates: Rates, owner: PersonId, provider: PersonId, amount: Cents)
    requires amount > 0
    ensures Run(rates, Opening(map[0 := owner]), TwiceRecordedSteps(owner, provider, amount)) == TwiceRecorded(owner, provider, amount)
  {
    var steps := TwiceRecordedSteps(owner, provider, amount);
    var start := Opening(map[0 := owner]);
    var begun := start.(bookings := TwiceRecorded(owner, provider, amount).bookings);
    var once := begun.(book := Book([RequestRow(owner, provider, amount)], []));
    assert Apply(rates, start, steps[0].call) == begun;
    assert Apply(rates, begun, steps[1].call) == once;
    assert Apply(rates, once, steps[2].call) == TwiceRecorded(owner, provider, amount);
    assert steps == [steps[0]] + ([steps[1]] + [steps[2]]);
    RunNow(rates, start, steps[0].call, [steps[1]] + [steps[2]]);
    RunNow(rates, begun, steps[1].call, [steps[2]]);
    RunOne(rates, once, steps[2].call);
  }

  function TwicePaidBook(rates: Rates, owner: PersonId, provider: PersonId, amount: Cents): Book {
    var now := Instant(0, 0);
    var row := ForcedRow(RequestRow(owner, provider, amount), now, 0, owner, amount);
    Book([RequestRow(owner, provider, amount), row], [TriggerEntry(rates, now, 1, row)])
  }

  lemma TwiceRecordedPaid(rates: Rates, owner: PersonId, provider: PersonId, amount: Cents)
    requires amount > 0 && Commission(amount, rates.trigger) > 0
    ensures var s := TwiceRecorded(owner, provider, amount);
            && Apply(rates, s, ProviderConfirmPayment(0, true)).book == TwicePaidBook(rates, owner, provider, amount)
            && !PaymentHolds(rates, s.book.txns, 0, s.bookings[0], owner)
  {
    var s := TwiceRecorded(owner, provider, amount);
    var paid := TwicePaidBook(rates, owner, provider, amount);
    assert Newest(s.book.txns, 0, 0) == Some(1);
    assert Awaits(s.book.txns[0], 0, 0);
    assert Forced(rates, s.now, s.book, 1, 0, owner, amount) == paid;
    assert AlreadyBooked(paid.ledger, Some(1), 0) by { assert paid.ledger[0].txn == Some(1); }
    assert Settled(rates, s.now, s.book, 0, s.bookings[0], owner) == paid;
  }

  lemma SecondConfirmationCharges(rates: Rates, now: Instant, owner: PersonId, provider: PersonId, amount: Cents)
    requires amount > 0 && Commission(amount, rates.trigger) > 0
    ensures var book := TwicePaidBook(rates, owner, provider, amount);
            |After(book, Confirm(rates, now, book, owner, 0)).ledger| == 2
  {
    var book := TwicePaidBook(rates, owner, provider, amount);
    assert !Collides(book.ledger, TriggerEntry(rates, now, 0,
      book.txns[0].(status := TxnStatus.Confirmed, confirmedAt := Some(now), confirmedBy := Some(owner))));
  }

  /** Its payment confirms the newer row and leaves the older awaiting: one further confirmation charges
      the job a second time. */
  lemma TwiceRecordedIsChargedTwice(rates: Rates, owner: PersonId, provider: PersonId, amount: Cents)
    requires amount > 0 && Commission(amount, rates.trigger) > 0
    ensures var s := TwiceRecorded(owner, provider, amount);
            var paid := Apply(rates, s, ProviderConfirmPayment(0, true));
            && !PaymentHolds(rates, s.book.txns, 0, s.bookings[0], owner)
            && |paid.book.ledger| == 1
            && |Apply(rates, paid, ConfirmTxn(owner, 0)).book.ledger| == 2
  {
    var paid := Apply(rates, TwiceRecorded(owner, provider, amount), ProviderConfirmPayment(0, true));
    TwiceRecordedPaid(rates, owner, provider, amount);
    SecondConfirmationCharges(rates, paid.now, owner, provider, amount);
  }
}
