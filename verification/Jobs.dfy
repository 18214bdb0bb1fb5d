/** Bookings and the calls that move them: the job lifecycle service, the booking service with its
    automatic bill, and the payment path that ends in a confirmed transaction. */
module Jobs {
  import opened Tables
  import opened Money
  import opened Ledger
  import opened Transactions

  /** The phase strings found in bookings.status. */
  datatype Phase =
    | Scheduled | EnRoute | AwaitingCustomer | Arrived | InProgress | Completed | AwaitingSatisfaction
    | Billed | AwaitingPayment | Paid | Closed | Cancelled
    | NeedsRework | CustomerClaimsPaid | PaymentRejected | Finished | Done

  datatype Role = CarOwner | Provider | OtherRole

  /** `provider` is the mechanic's profile or the garage's owner; None stands for the empty string. */
  datatype Booking = Booking(
    request: RequestId,
    garageVisit: bool,
    provider: Option<PersonId>,
    phase: Phase,
    startedAt: Option<nat>,
    completedAt: Option<nat>,
    bill: Option<Cents>,
    satisfied: bool,
    paymentConfirmed: bool)

  /** What the automatic bill reads: the accepted offer's price, the provider's listed price, and the
      travel fee, charged when a mechanic is named. */
  datatype Quote = Quote(offerPrice: Cents, listPrice: Cents, travel: Cents, hasMechanic: bool)

  datatype Shop = Shop(owners: map<RequestId, PersonId>, bookings: map<BookingId, Booking>, book: Book, now: Instant)

  datatype Call =
    | OpenBooking(id: BookingId, request: RequestId, garageVisit: bool, provider: Option<PersonId>)
    | Record(recorder: PersonId, input: RecordInput)
    | ConfirmTxn(caller: PersonId, txn: TxnId)
    | DisputeTxn(caller: PersonId, txn: TxnId)
    | SetStatus(id: BookingId, to: Phase, quote: Quote)
    | AutoBill(id: BookingId, quote: Quote)
    | ConfirmArrival(id: BookingId, role: Role)
    | StartService(id: BookingId)
    | FinishService(id: BookingId)
    | ConfirmSatisfaction(id: BookingId)
    | SetBill(id: BookingId, amount: Cents)
    | CustomerMarksPaid(id: BookingId)
    | ProviderConfirmPayment(id: BookingId, received: bool)
    | ProviderDeny(id: BookingId)
    | CustomerUnsatisfied(id: BookingId)
    | RestartService(id: BookingId)

  datatype JobError = BookingNotFound | WrongActor | WrongPhase | BadAmount | IllegalTransition | NotReceived

  // ----- rows of a job -----------------------------------------------------------------------

  /** `where booking_id = $1 or request_id = $2`. */
  predicate Concerns(t: Txn, b: BookingId, r: RequestId) {
    t.booking == Some(b) || t.request == Some(r)
  }

  /** `... order by created_at desc limit 1`. */
  function Newest(txns: seq<Txn>, b: BookingId, r: RequestId): (found: Option<TxnId>)
    ensures found.None? ==> forall i :: 0 <= i < |txns| ==> !Concerns(txns[i], b, r)
    ensures found.Some? ==>
      && found.value < |txns|
      && Concerns(txns[found.value], b, r)
      && forall i :: found.value < i < |txns| ==> !Concerns(txns[i], b, r)
  {
    if txns == [] then None
    else if Concerns(txns[|txns| - 1], b, r) then Some(|txns| - 1)
    else Newest(txns[..|txns| - 1], b, r)
  }

  function DirectoryOf(s: Shop): Directory {
    Directory(s.owners, map b | b in s.bookings :: s.bookings[b].request)
  }

  /** Foreign key: a booking's request exists, so it has a car owner. */
  ghost predicate RequestsExist(s: Shop) {
    forall b :: b in s.bookings ==> s.bookings[b].request in s.owners
  }

  function OwnerOf(s: Shop, b: BookingId): PersonId
    requires b in s.bookings
  {
    var r := s.bookings[b].request;
    if r in s.owners then s.owners[r] else 0
  }

  function Put(s: Shop, b: BookingId, k: Booking): Shop {
    s.(bookings := s.bookings[b := k])
  }

  function AfterJob(before: Shop, outcome: Result<Shop, JobError>): Shop {
    match outcome
    case Ok(after) => after
    case Err(_) => before
  }

  // ----- lifecycle ---------------------------------------------------------------------------

  function JobTransitions(from: Phase): seq<Phase> {
    match from
    case Scheduled => [EnRoute, AwaitingCustomer, Arrived, Phase.Cancelled]
    case EnRoute => [Arrived, Phase.Cancelled]
    case AwaitingCustomer => [Arrived, Phase.Cancelled]
    case Arrived => [InProgress, Phase.Cancelled]
    case InProgress => [Completed, Phase.Cancelled]
    case Completed => [AwaitingSatisfaction]
    case AwaitingSatisfaction => [Billed]
    case Billed => [AwaitingPayment]
    case AwaitingPayment => [Paid]
    case Paid => [Closed]
    case _ => []
  }

  function LegacyTransitions(from: Phase): seq<Phase> {
    match from
    case Scheduled => [EnRoute, AwaitingCustomer, Arrived, InProgress, Phase.Cancelled]
    case InProgress => [Completed, Phase.Cancelled]
    case Completed => [AwaitingSatisfaction, Billed, AwaitingPayment, Paid]
    case _ => []
  }

  predicate CanTransition(from: Phase, to: Phase) {
    from == to || to in JobTransitions(from) || to in LegacyTransitions(from)
  }

  function DoConfirmArrival(s: Shop, b: BookingId, role: Role): Result<Shop, JobError> {
    if b !in s.bookings then Err(BookingNotFound)
    else
      var k := s.bookings[b];
      if k.garageVisit && role.Provider? then Err(WrongActor)
      else if !k.garageVisit && role.CarOwner? then Err(WrongActor)
      else if !CanTransition(k.phase, Arrived) && !k.phase.Scheduled? && !k.phase.EnRoute? && !k.phase.AwaitingCustomer?
      then Err(WrongPhase)
      else Ok(Put(s, b, k.(phase := Arrived)))
  }

  function DoStart(s: Shop, b: BookingId): Result<Shop, JobError> {
    if b !in s.bookings then Err(BookingNotFound)
    else
      var k := s.bookings[b];
      if !k.phase.Arrived? then Err(WrongPhase)
      else Ok(Put(s, b, k.(phase := InProgress, startedAt := Some(s.now.tick))))
  }

  function DoFinish(s: Shop, b: BookingId): Result<Shop, JobError> {
    if b !in s.bookings then Err(BookingNotFound)
    else
      var k := s.bookings[b];
      if !k.phase.InProgress? then Err(WrongPhase)
      else Ok(Put(s, b, k.(phase := AwaitingSatisfaction, completedAt := Some(s.now.tick))))
  }

  function DoSatisfy(s: Shop, b: BookingId): Result<Shop, JobError> {
    if b !in s.bookings then Err(BookingNotFound)
    else
      var k := s.bookings[b];
      var okPhase := k.phase.AwaitingSatisfaction? || k.phase.Completed? || k.phase.Finished? || k.phase.Done?;
      if !okPhase && !k.phase.InProgress? && k.completedAt.None? then Err(WrongPhase)
      else Ok(Put(s, b, k.(phase := Billed, satisfied := true)))
  }

  function DoDeny(s: Shop, b: BookingId): Result<Shop, JobError> {
    if b !in s.bookings then Err(BookingNotFound)
    else Ok(Put(s, b, s.bookings[b].(phase := Phase.Cancelled)))
  }

  function DoUnsatisfied(s: Shop, b: BookingId): Result<Shop, JobError> {
    if b !in s.bookings then Err(BookingNotFound)
    else Ok(Put(s, b, s.bookings[b].(phase := NeedsRework, satisfied := false)))
  }

  function DoRestart(s: Shop, b: BookingId): Result<Shop, JobError> {
    if b !in s.bookings then Err(BookingNotFound)
    else
      var k := s.bookings[b];
      Ok(Put(s, b, k.(phase := InProgress, startedAt := Coalesce(k.startedAt, Some(s.now.tick)))))
  }

  // ----- the booking service -----------------------------------------------------------------

  function BookingTransitions(from: Phase): seq<Phase> {
    match from
    case Scheduled => [InProgress, Phase.Cancelled]
    case InProgress => [Completed, Phase.Cancelled]
    case _ => []
  }

  /** The SetBookingStatus statement: both stamps follow the status written. */
  function Stamped(k: Booking, to: Phase, tick: nat): Booking {
    k.(phase := to,
       startedAt := if to.InProgress? then Some(tick) else k.startedAt,
       completedAt := if to.Completed? then Some(tick) else k.completedAt)
  }

  function BillAmount(q: Quote): Cents {
    var base := if q.offerPrice <= 0 then q.listPrice else q.offerPrice;
    if q.travel > 0 && q.hasMechanic then base + q.travel else base
  }

  /** autoBill's count: an awaiting or confirmed row of the job already exists. */
  predicate AlreadyBilled(txns: seq<Txn>, b: BookingId, r: RequestId) {
    exists i :: 0 <= i < |txns| && Concerns(txns[i], b, r)
             && (txns[i].status.AwaitingConfirmation? || txns[i].status.Confirmed?)
  }

  function JobInput(s: Shop, b: BookingId, amount: Cents): RecordInput
    requires b in s.bookings
  {
    RecordInput(Some(OwnerOf(s, b)), Some(b), Some(s.bookings[b].request), "Vehicle service", amount)
  }

  /** RecordService as the job services call it; its error is only logged. */
  function RecordForJob(s: Shop, b: BookingId, provider: PersonId, amount: Cents): Shop
    requires b in s.bookings
  {
    s.(book := s.book.(txns := AfterRecord(s.book.txns,
                                           RecordService(DirectoryOf(s), s.book.txns, provider, JobInput(s, b, amount)))))
  }

  function DoAutoBill(s: Shop, b: BookingId, q: Quote): Shop {
    if b !in s.bookings then s
    else
      var k := s.bookings[b];
      if AlreadyBilled(s.book.txns, b, k.request) || k.provider.None? || BillAmount(q) <= 0 then s
      else RecordForJob(s, b, k.provider.value, BillAmount(q))
  }

  function DoSetStatus(s: Shop, b: BookingId, to: Phase, q: Quote): Result<Shop, JobError> {
    if b !in s.bookings then Err(BookingNotFound)
    else
      var k := s.bookings[b];
      if k.phase == to then Ok(if to.Completed? then DoAutoBill(s, b, q) else s)
      else if to in BookingTransitions(k.phase) || (k.phase.Scheduled? && to.Completed?) then
        var written := Put(s, b, Stamped(k, to, s.now.tick));
        Ok(if to.Completed? then DoAutoBill(written, b, q) else written)
      else Err(IllegalTransition)
  }

  // ----- billing and payment -----------------------------------------------------------------

  predicate OkToBill(k: Booking) {
    || k.satisfied
    || k.phase.Billed? || k.phase.AwaitingPayment? || k.phase.Completed? || k.phase.AwaitingSatisfaction?
    || k.phase.Finished? || k.phase.InProgress?
  }

  function DoSetBill(s: Shop, b: BookingId, amount: Cents): Result<Shop, JobError> {
    if b !in s.bookings then Err(BookingNotFound)
    else
      var k := s.bookings[b];
      if amount <= 0 then Err(BadAmount)
      else if !OkToBill(k) then Err(WrongPhase)
      else
        var billed := Put(s, b, k.(bill := Some(amount), phase := AwaitingPayment, satisfied := true));
        Ok(if k.provider.Some? then RecordForJob(billed, b, k.provider.value, amount) else billed)
  }

  /** `set booking_id = coalesce(booking_id, $1)` on every row of the job. */
  function Linked(txns: seq<Txn>, b: BookingId, r: RequestId): (linked: seq<Txn>)
    ensures |linked| == |txns|
  {
    seq(|txns|, i requires 0 <= i < |txns| =>
      if Concerns(txns[i], b, r) then txns[i].(booking := Coalesce(txns[i].booking, Some(b))) else txns[i])
  }

  function DoMarksPaid(s: Shop, b: BookingId): Result<Shop, JobError> {
    if b !in s.bookings then Err(BookingNotFound)
    else
      var k := s.bookings[b];
      Ok(Put(s, b, k.(phase := CustomerClaimsPaid)).(book := s.book.(txns := Linked(s.book.txns, b, k.request))))
  }

  /** `set status = 'disputed'` on every row of the job, whatever its status. */
  function AllDisputed(txns: seq<Txn>, b: BookingId, r: RequestId): (disputed: seq<Txn>)
    ensures |disputed| == |txns|
  {
    seq(|txns|, i requires 0 <= i < |txns| =>
      if Concerns(txns[i], b, r) then txns[i].(status := TxnStatus.Disputed) else txns[i])
  }

  function Refused(s: Shop, b: BookingId): Shop
    requires b in s.bookings
  {
    var k := s.bookings[b];
    Put(s, b, k.(phase := PaymentRejected)).(book := s.book.(txns := AllDisputed(s.book.txns, b, k.request)))
  }

  /** The bill, or failing that the amount of the newest row of the job, or zero. */
  function ResolveAmount(txns: seq<Txn>, k: Booking, b: BookingId): Cents {
    if k.bill.Some? && k.bill.value > 0 then k.bill.value
    else
      match Newest(txns, b, k.request)
      case Some(id) => txns[id].amount
      case None => 0
  }

  /** The row as the payment path wants it: confirmed, with the job's amount and booking. */
  function ForcedRow(t: Txn, now: Instant, b: BookingId, confirmer: PersonId, amount: Cents): Txn {
    t.(status := TxnStatus.Confirmed,
       confirmedAt := Coalesce(t.confirmedAt, Some(now)),
       confirmedBy := Coalesce(t.confirmedBy, Some(confirmer)),
       amount := if amount > 0 then amount else t.amount,
       booking := Coalesce(t.booking, Some(b)))
  }

  /** The last resort when a check rejects that update: status and stamp alone. */
  function LastResortRow(t: Txn, now: Instant): Txn {
    t.(status := TxnStatus.Confirmed, confirmedAt := Some(now))
  }

  function Forced(rates: Rates, now: Instant, book: Book, id: TxnId, b: BookingId, confirmer: PersonId, amount: Cents): Book
    requires id < |book.txns|
  {
    match UpdateRow(rates, now, book, id, ForcedRow(book.txns[id], now, b, confirmer, amount))
    case Some(after) => after
    case None =>
      (match UpdateRow(rates, now, book, id, LastResortRow(book.txns[id], now))
       case Some(after) => after
       case None => book)
  }

  /** A row inserted already confirmed: the after-update trigger does not see it. */
  function PaidRow(now: Instant, b: BookingId, k: Booking, owner: PersonId, provider: PersonId, amount: Cents): Txn {
    Txn(Some(b), Some(k.request), owner, provider, "Vehicle service", amount, TxnStatus.Confirmed, Some(now), Some(owner))
  }

  /** bookCommissionOnPaid's idempotence check: a debit for the transaction, or a note with the booking. */
  predicate AlreadyBooked(ledger: seq<Entry>, id: Option<TxnId>, b: BookingId) {
    exists i :: 0 <= i < |ledger| && ledger[i].kind.CommissionDebit?
             && ((id.Some? && ledger[i].txn == id) || ledger[i].booking == Some(b))
  }

  function PaidEntry(rates: Rates, now: Instant, b: BookingId, provider: PersonId, id: Option<TxnId>, amount: Cents): Entry {
    Entry(provider, CommissionDebit, Commission(amount, rates.service), id, None,
          Some(rates.service), Some(amount), now.month, Some(b))
  }

  function BookOnPaid(rates: Rates, now: Instant, book: Book, b: BookingId, k: Booking, id: Option<TxnId>): Book {
    var amount := ResolveAmount(book.txns, k, b);
    if amount <= 0 || k.provider.None? || AlreadyBooked(book.ledger, id, b) then book
    else
      match Insert(book.ledger, PaidEntry(rates, now, b, k.provider.value, id, amount))
      case None => book
      case Some(ledger) => book.(ledger := ledger)
  }

  /** From a known row on: force it to confirmed, try the ordinary confirmation, and book what the
      trigger did not. */
  function SettledAt(rates: Rates, now: Instant, book: Book, b: BookingId, k: Booking, owner: PersonId, id: TxnId, amount: Cents): Book
    requires id < |book.txns|
  {
    var forced := Forced(rates, now, book, id, b, owner, amount);
    BookOnPaid(rates, now, After(forced, Confirm(rates, now, forced, owner, id)), b, k, Some(id))
  }

  /** The transaction part of ProviderConfirmPayment(true): the newest row of the job, or a row
      inserted for it when there is none. */
  function Settled(rates: Rates, now: Instant, book: Book, b: BookingId, k: Booking, owner: PersonId): Book {
    var amount := ResolveAmount(book.txns, k, b);
    match Newest(book.txns, b, k.request)
    case Some(id) => SettledAt(rates, now, book, b, k, owner, id, amount)
    case None =>
      if amount > 0 && k.provider.Some? then
        var inserted := book.(txns := book.txns + [PaidRow(now, b, k, owner, k.provider.value, amount)]);
        SettledAt(rates, now, inserted, b, k, owner, |book.txns|, amount)
      else BookOnPaid(rates, now, book, b, k, None)
  }

  function DoConfirmPayment(rates: Rates, s: Shop, b: BookingId): Result<Shop, JobError> {
    if b !in s.bookings then Err(BookingNotFound)
    else
      var k := s.bookings[b];
      Ok(Put(s, b, k.(phase := Paid, paymentConfirmed := true))
         .(book := Settled(rates, s.now, s.book, b, k, OwnerOf(s, b))))
  }

  // ----- the whole service -------------------------------------------------------------------

  /** `service_request_id uuid not null unique references service_requests`. */
  predicate RequestTaken(s: Shop, r: RequestId) {
    exists b :: b in s.bookings && s.bookings[b].request == r
  }

  function Apply(rates: Rates, s: Shop, call: Call): Shop {
    match call
    case OpenBooking(id, request, garageVisit, provider) =>
      if id in s.bookings || request !in s.owners || RequestTaken(s, request) then s
      else Put(s, id, Booking(request, garageVisit, provider, Scheduled, None, None, None, false, false))
    case Record(recorder, input) =>
      s.(book := s.book.(txns := AfterRecord(s.book.txns, RecordService(DirectoryOf(s), s.book.txns, recorder, input))))
    case ConfirmTxn(caller, id) => s.(book := After(s.book, Confirm(rates, s.now, s.book, caller, id)))
    case DisputeTxn(caller, id) => s.(book := After(s.book, Dispute(s.book, caller, id)))
    case SetStatus(id, to, quote) => AfterJob(s, DoSetStatus(s, id, to, quote))
    case AutoBill(id, quote) => DoAutoBill(s, id, quote)
    case ConfirmArrival(id, role) => AfterJob(s, DoConfirmArrival(s, id, role))
    case StartService(id) => AfterJob(s, DoStart(s, id))
    case FinishService(id) => AfterJob(s, DoFinish(s, id))
    case ConfirmSatisfaction(id) => AfterJob(s, DoSatisfy(s, id))
    case SetBill(id, amount) => AfterJob(s, DoSetBill(s, id, amount))
    case CustomerMarksPaid(id) => AfterJob(s, DoMarksPaid(s, id))
    case ProviderConfirmPayment(id, received) =>
      if received then AfterJob(s, DoConfirmPayment(rates, s, id))
      else if id in s.bookings then Refused(s, id)
      else s
    case ProviderDeny(id) => AfterJob(s, DoDeny(s, id))
    case CustomerUnsatisfied(id) => AfterJob(s, DoUnsatisfied(s, id))
    case RestartService(id) => AfterJob(s, DoRestart(s, id))
  }

  /** A call and the time that passes before it. */
  datatype Step = Step(call: Call, ticks: nat, months: nat)

  function Elapsed(s: Shop, step: Step): Shop {
    s.(now := Instant(s.now.tick + step.ticks, s.now.month + step.months))
  }

  function Next(rates: Rates, s: Shop, step: Step): Shop {
    Apply(rates, Elapsed(s, step), step.call)
  }

  function Run(rates: Rates, s: Shop, steps: seq<Step>): Shop
    decreases |steps|
  {
    if steps == [] then s else Run(rates, Next(rates, s, steps[0]), steps[1..])
  }

  /** An empty shop over an existing set of service requests. */
  function Opening(owners: map<RequestId, PersonId>): Shop {
    Shop(owners, map[], Book([], []), Instant(0, 0))
  }
}
