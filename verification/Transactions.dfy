/** `service_transactions`, the trigger that books commission, and the three calls of the commission
    service on them: RecordService, Confirm and Dispute. */
module Transactions {
  import opened Tables
  import opened Money
  import opened Ledger

  datatype TxnStatus = AwaitingConfirmation | Confirmed | Disputed | Cancelled

  datatype Txn = Txn(
    booking: Option<BookingId>,
    request: Option<RequestId>,
    owner: PersonId,
    provider: PersonId,
    service: string,
    amount: Cents,
    status: TxnStatus,
    confirmedAt: Option<Instant>,
    confirmedBy: Option<PersonId>)

  /** The two tables that a confirmation touches. */
  datatype Book = Book(txns: seq<Txn>, ledger: seq<Entry>)

  /** The commission rate each path uses: the trigger's and the Go services'. */
  datatype Rates = Rates(trigger: nat, service: nat)

  const SOURCE_RATES := Rates(TRIGGER_RATE, SERVICE_RATE)

  /** The source's two rates: a twentieth for the trigger, a tenth for the services. */
  lemma SourceRatesAre(amount: Cents)
    requires amount >= 0
    ensures Commission(20 * amount, SOURCE_RATES.trigger) == amount && Commission(10 * amount, SOURCE_RATES.service) == amount
  {}

  /** What RecordService looks up: the car owner of a request, and the request of a booking. */
  datatype Directory = Directory(owners: map<RequestId, PersonId>, requestOf: map<BookingId, RequestId>)

  datatype RecordInput = RecordInput(
    owner: Option<PersonId>,
    booking: Option<BookingId>,
    request: Option<RequestId>,
    service: string,
    amount: Cents)

  datatype ServiceError =
    | AmountNotPositive | ServiceNameMissing | OwnerUnresolved | CreateFailed
    | NotFound | NotCarOwner | AlreadyConfirmed | NotConfirmable | NotAwaiting | CommissionRejected

  // ----- statements --------------------------------------------------------------------------

  /** `check (amount > 0)` and `service_txn_confirmed_has_actor`. */
  predicate TxnChecks(t: Txn) {
    && t.amount > 0
    && (t.status.Confirmed? ==> t.confirmedAt.Some? && t.confirmedBy.Some?)
  }

  /** The entry written by `book_commission_on_confirm`. */
  function TriggerEntry(rates: Rates, now: Instant, id: TxnId, t: Txn): Entry {
    var period := if t.confirmedAt.Some? then t.confirmedAt.value.month else now.month;
    Entry(t.provider, CommissionDebit, Commission(t.amount, rates.trigger), Some(id), None,
          Some(rates.trigger), Some(t.amount), period, None)
  }

  /** An update of one row together with its after-update trigger. None: a check on either table
      rejects the statement, and neither table changes. */
  function UpdateRow(rates: Rates, now: Instant, book: Book, id: TxnId, t: Txn): Option<Book>
    requires id < |book.txns|
  {
    if !TxnChecks(t) then None
    else if t.status.Confirmed? && !book.txns[id].status.Confirmed? then
      match Insert(book.ledger, TriggerEntry(rates, now, id, t))
      case None => None
      case Some(ledger) => Some(Book(book.txns[id := t], ledger))
    else Some(book.(txns := book.txns[id := t]))
  }

  /** MarkConfirmed: guarded by `status = 'awaiting_confirmation'`. */
  function MarkConfirmed(rates: Rates, now: Instant, book: Book, id: TxnId, actor: PersonId): Result<Book, ServiceError> {
    if id >= |book.txns| || !book.txns[id].status.AwaitingConfirmation? then Err(NotAwaiting)
    else
      var t := book.txns[id].(status := Confirmed, confirmedAt := Some(now), confirmedBy := Some(actor));
      match UpdateRow(rates, now, book, id, t)
      case None => Err(CommissionRejected)
      case Some(after) => Ok(after)
  }

  /** MarkDisputed: the same guard. */
  function MarkDisputed(book: Book, id: TxnId): Result<Book, ServiceError> {
    if id >= |book.txns| || !book.txns[id].status.AwaitingConfirmation? then Err(NotAwaiting)
    else Ok(book.(txns := book.txns[id := book.txns[id].(status := Disputed)]))
  }

  /** `where booking_id = $1 and status = 'awaiting_confirmation' order by created_at desc limit 1`. */
  function NewestAwaiting(txns: seq<Txn>, b: BookingId): (found: Option<TxnId>)
    ensures found.None? ==> forall i :: 0 <= i < |txns| ==> !(txns[i].booking == Some(b) && txns[i].status.AwaitingConfirmation?)
    ensures found.Some? ==>
      && found.value < |txns|
      && txns[found.value].booking == Some(b) && txns[found.value].status.AwaitingConfirmation?
      && forall i :: found.value < i < |txns| ==> !(txns[i].booking == Some(b) && txns[i].status.AwaitingConfirmation?)
  {
    if txns == [] then None
    else
      var last := |txns| - 1;
      if txns[last].booking == Some(b) && txns[last].status.AwaitingConfirmation? then Some(last)
      else NewestAwaiting(txns[..last], b)
  }

  // ----- RecordService -----------------------------------------------------------------------

  function ResolveOwner(dir: Directory, input: RecordInput): Option<PersonId> {
    if input.owner.Some? then input.owner
    else if input.request.Some? && input.request.value in dir.owners then Some(dir.owners[input.request.value])
    else if input.booking.Some? && input.booking.value in dir.requestOf
            && dir.requestOf[input.booking.value] in dir.owners
    then Some(dir.owners[dir.requestOf[input.booking.value]])
    else None
  }

  /** The foreign keys of a row to be inserted. */
  predicate LinksExist(dir: Directory, input: RecordInput) {
    && (input.booking.Some? ==> input.booking.value in dir.requestOf)
    && (input.request.Some? ==> input.request.value in dir.owners)
  }

  /** Checks before the first statement; Ok carries the resolved car owner. */
  function CheckRecord(dir: Directory, input: RecordInput): Result<PersonId, ServiceError> {
    if input.amount <= 0 then Err(AmountNotPositive)
    else if input.service == "" then Err(ServiceNameMissing)
    else
      match ResolveOwner(dir, input)
      case None => Err(OwnerUnresolved)
      case Some(owner) => Ok(owner)
  }

  /** First statement: the awaiting row of the booking, if the input names a booking. */
  function ExistingFor(txns: seq<Txn>, input: RecordInput): Option<TxnId> {
    if input.booking.Some? then NewestAwaiting(txns, input.booking.value) else None
  }

  /** Second statement: correct that row, by id alone, or insert a new one. */
  function WriteRecord(dir: Directory, txns: seq<Txn>, existing: Option<TxnId>, provider: PersonId, owner: PersonId,
                       input: RecordInput): Result<(seq<Txn>, TxnId), ServiceError>
    requires existing.Some? ==> existing.value < |txns|
  {
    match existing
    case Some(id) =>
      Ok((txns[id := txns[id].(amount := input.amount, service := input.service, provider := provider, owner := owner)], id))
    case None =>
      if !LinksExist(dir, input) then Err(CreateFailed)
      else
        Ok((txns + [Txn(input.booking, input.request, owner, provider, input.service, input.amount,
                        AwaitingConfirmation, None, None)], |txns|))
  }

  function RecordService(dir: Directory, txns: seq<Txn>, provider: PersonId, input: RecordInput)
    : Result<(seq<Txn>, TxnId), ServiceError>
  {
    match CheckRecord(dir, input)
    case Err(e) => Err(e)
    case Ok(owner) => WriteRecord(dir, txns, ExistingFor(txns, input), provider, owner, input)
  }

  // ----- Confirm and Dispute -----------------------------------------------------------------

  /** Confirm's checks on the row it read. */
  function CheckConfirm(txns: seq<Txn>, caller: PersonId, id: TxnId): Result<(), ServiceError> {
    if id >= |txns| then Err(NotFound)
    else if txns[id].owner != caller then Err(NotCarOwner)
    else
      match txns[id].status
      case Confirmed => Err(AlreadyConfirmed)
      case Cancelled => Err(NotConfirmable)
      case Disputed => Err(NotConfirmable)
      case AwaitingConfirmation => Ok(())
  }

  function Confirm(rates: Rates, now: Instant, book: Book, caller: PersonId, id: TxnId): Result<Book, ServiceError> {
    match CheckConfirm(book.txns, caller, id)
    case Err(e) => Err(e)
    case Ok(_) => MarkConfirmed(rates, now, book, id, caller)
  }

  /** Dispute's checks: unlike Confirm it lets every status but `confirmed` through to the guard. */
  function CheckDispute(txns: seq<Txn>, caller: PersonId, id: TxnId): Result<(), ServiceError> {
    if id >= |txns| then Err(NotFound)
    else if txns[id].owner != caller then Err(NotCarOwner)
    else if txns[id].status.Confirmed? then Err(AlreadyConfirmed)
    else Ok(())
  }

  function Dispute(book: Book, caller: PersonId, id: TxnId): Result<Book, ServiceError> {
    match CheckDispute(book.txns, caller, id)
    case Err(e) => Err(e)
    case Ok(_) => MarkDisputed(book, id)
  }

  /** The tables after a call, whether or not it failed. */
  function After(before: Book, outcome: Result<Book, ServiceError>): Book {
    match outcome
    case Ok(after) => after
    case Err(_) => before
  }

  function AfterRecord(before: seq<Txn>, outcome: Result<(seq<Txn>, TxnId), ServiceError>): seq<Txn> {
    match outcome
    case Ok(pair) => pair.0
    case Err(_) => before
  }
}
