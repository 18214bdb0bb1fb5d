/** Runs of RecordService, Confirm and Dispute. Each call is two statements, a read and a write
    guarded only by what the SQL says, so other calls may run between them. */
module ConfirmationRuns {
  import opened Tables
  import opened Money
  import opened Ledger
  import opened Transactions

  type CallId = nat

  /** A call that has made its (possibly stale) read and not yet its write. */
  datatype Pending =
    | ConfirmRead(caller: PersonId, id: TxnId)
    | DisputeRead(id: TxnId)
    | RecordRead(existing: Option<TxnId>, provider: PersonId, owner: PersonId, input: RecordInput)

  datatype Call =
    | RecordCall(provider: PersonId, input: RecordInput)
    | ConfirmCall(caller: PersonId, id: TxnId)
    | DisputeCall(caller: PersonId, id: TxnId)

  datatype Step =
    | Begin(slot: CallId, call: Call)
    | Finish(slot: CallId)
    | Abandon(slot: CallId)
    | Wait(ticks: nat, months: nat)

  datatype Desk = Desk(book: Book, now: Instant, calls: map<CallId, Pending>)

  const OPENING := Desk(Book([], []), Instant(0, 0), map[])

  function ReadOf(dir: Directory, book: Book, call: Call): Option<Pending> {
    match call
    case RecordCall(provider, input) =>
      (match CheckRecord(dir, input)
       case Err(_) => None
       case Ok(owner) => Some(RecordRead(ExistingFor(book.txns, input), provider, owner, input)))
    case ConfirmCall(caller, id) =>
      if CheckConfirm(book.txns, caller, id).Ok? then Some(ConfirmRead(caller, id)) else None
    case DisputeCall(caller, id) =>
      if CheckDispute(book.txns, caller, id).Ok? then Some(DisputeRead(id)) else None
  }

  function WriteOf(rates: Rates, dir: Directory, now: Instant, book: Book, p: Pending): Book {
    match p
    case ConfirmRead(caller, id) => After(book, MarkConfirmed(rates, now, book, id, caller))
    case DisputeRead(id) => After(book, MarkDisputed(book, id))
    case RecordRead(existing, provider, owner, input) =>
      if existing.Some? && existing.value >= |book.txns| then book
      else book.(txns := AfterRecord(book.txns, WriteRecord(dir, book.txns, existing, provider, owner, input)))
  }

  function Apply(rates: Rates, dir: Directory, s: Desk, step: Step): Desk {
    match step
    case Begin(slot, call) =>
      (match ReadOf(dir, s.book, call)
       case None => s
       case Some(p) => if slot in s.calls then s else s.(calls := s.calls[slot := p]))
    case Finish(slot) =>
      if slot !in s.calls then s
      else s.(book := WriteOf(rates, dir, s.now, s.book, s.calls[slot]), calls := s.calls - {slot})
    case Abandon(slot) => s.(calls := s.calls - {slot})
    case Wait(ticks, months) => s.(now := Instant(s.now.tick + ticks, s.now.month + months))
  }

  function Run(rates: Rates, dir: Directory, s: Desk, steps: seq<Step>): Desk
    decreases |steps|
  {
    if steps == [] then s else Run(rates, dir, Apply(rates, dir, s, steps[0]), steps[1..])
  }

  // ----- the debit set is the confirmed set --------------------------------------------------

  predicate IsConfirmed(txns: seq<Txn>, id: TxnId) {
    id < |txns| && txns[id].status.Confirmed?
  }

  /** Exactly the confirmed transactions have a debit, one each, and debits are frozen shares. */
  ghost predicate Matched(book: Book) {
    && (forall id: TxnId :: DebitCount(book.ledger, id) == if IsConfirmed(book.txns, id) then 1 else 0)
    && (forall i :: 0 <= i < |book.ledger| ==> book.ledger[i].kind.CommissionDebit? && Frozen(book.ledger[i]))
  }

  lemma NoDebitMeansNoCollision(ledger: seq<Entry>, e: Entry)
    requires e.kind.CommissionDebit? && e.txn.Some? && DebitCount(ledger, e.txn.value) == 0
    ensures !Collides(ledger, e)
  {
    DebitCountPositive(ledger, e.txn.value);
  }

  lemma MarkConfirmedMatched(rates: Rates, now: Instant, book: Book, id: TxnId, actor: PersonId)
    requires Matched(book)
    ensures Matched(After(book, MarkConfirmed(rates, now, book, id, actor)))
  {
    var outcome := MarkConfirmed(rates, now, book, id, actor);
    if outcome.Ok? {
      var t := book.txns[id].(status := Confirmed, confirmedAt := Some(now), confirmedBy := Some(actor));
      var e := TriggerEntry(rates, now, id, t);
      forall other: TxnId
        ensures DebitCount(outcome.value.ledger, other) == if IsConfirmed(outcome.value.txns, other) then 1 else 0
      {
        InsertDebitCounts(book.ledger, e, other);
      }
    }
  }

  lemma MarkDisputedMatched(book: Book, id: TxnId)
    requires Matched(book)
    ensures Matched(After(book, MarkDisputed(book, id)))
  {}

  lemma WriteMatched(rates: Rates, dir: Directory, now: Instant, book: Book, p: Pending)
    requires Matched(book)
    ensures Matched(WriteOf(rates, dir, now, book, p))
  {
    match p
    case ConfirmRead(caller, id) => MarkConfirmedMatched(rates, now, book, id, caller);
    case DisputeRead(id) => MarkDisputedMatched(book, id);
    case RecordRead(existing, provider, owner, input) =>
      var after := WriteOf(rates, dir, now, book, p);
      forall other: TxnId
        ensures DebitCount(after.ledger, other) == if IsConfirmed(after.txns, other) then 1 else 0
      {
        assert IsConfirmed(after.txns, other) == IsConfirmed(book.txns, other);
      }
  }

  lemma {:induction false} RunMatched(rates: Rates, dir: Directory, s: Desk, steps: seq<Step>)
    requires Matched(s.book)
    ensures Matched(Run(rates, dir, s, steps).book)
    decreases |steps|
  {
    if steps != [] {
      var step := steps[0];
      if step.Finish? && step.slot in s.calls {
        WriteMatched(rates, dir, s.now, s.book, s.calls[step.slot]);
      }
      RunMatched(rates, dir, Apply(rates, dir, s, step), steps[1..]);
    }
  }

  /** In every state that interleaved calls can reach, a transaction has a debit exactly if it is
      confirmed, and never two. */
  lemma DebitsAreExactlyTheConfirmed(rates: Rates, dir: Directory, steps: seq<Step>, id: TxnId)
    ensures var book := Run(rates, dir, OPENING, steps).book;
            DebitCount(book.ledger, id) == if IsConfirmed(book.txns, id) then 1 else 0
  {
    RunMatched(rates, dir, OPENING, steps);
  }

  // ----- statuses are left at most once ------------------------------------------------------

  /** Rows are kept, and a row that has left awaiting_confirmation keeps its status. */
  predicate StatusesSettle(before: seq<Txn>, after: seq<Txn>) {
    && |before| <= |after|
    && forall i :: 0 <= i < |before| ==>
         before[i].status == after[i].status
         || (before[i].status.AwaitingConfirmation? && (after[i].status.Confirmed? || after[i].status.Disputed?))
  }

  /** Between any two states of an interleaved run each transaction changes status at most once, from
      awaiting to confirmed or disputed: both are terminal. */
  lemma {:induction false} StatusesSettleOverRuns(rates: Rates, dir: Directory, s: Desk, steps: seq<Step>)
    ensures StatusesSettle(s.book.txns, Run(rates, dir, s, steps).book.txns)
    decreases |steps|
  {
    if steps != [] {
      var next := Apply(rates, dir, s, steps[0]);
      assert StatusesSettle(s.book.txns, next.book.txns);
      StatusesSettleOverRuns(rates, dir, next, steps[1..]);
    }
  }

  // ----- serial runs: the view agrees with the table -----------------------------------------

  /** A call with nothing between its statements. */
  function Atomic(rates: Rates, dir: Directory, now: Instant, book: Book, call: Call): Book {
    match call
    case RecordCall(provider, input) => book.(txns := AfterRecord(book.txns, RecordService(dir, book.txns, provider, input)))
    case ConfirmCall(caller, id) => After(book, Confirm(rates, now, book, caller, id))
    case DisputeCall(caller, id) => After(book, Dispute(book, caller, id))
  }

  lemma AtomicIsBeginThenFinish(rates: Rates, dir: Directory, s: Desk, slot: CallId, call: Call)
    requires slot !in s.calls
    ensures var r := Run(rates, dir, s, [Begin(slot, call), Finish(slot)]);
            r.book == Atomic(rates, dir, s.now, s.book, call) && r.calls == s.calls && r.now == s.now
  {
    var steps := [Begin(slot, call), Finish(slot)];
    var mid := Apply(rates, dir, s, steps[0]);
    var end := Apply(rates, dir, mid, Finish(slot));
    assert steps[1..] == [Finish(slot)];
    assert [Finish(slot)][1..] == [];
    assert Run(rates, dir, mid, [Finish(slot)]) == Run(rates, dir, end, []);
    assert end.calls == s.calls;
  }

  /** The calls of a serial run, each with the time that has passed before it. */
  datatype TimedCall = TimedCall(call: Call, ticks: nat, months: nat)

  function Serial(rates: Rates, dir: Directory, now: Instant, book: Book, calls: seq<TimedCall>): Book
    decreases |calls|
  {
    if calls == [] then book
    else
      var at := Instant(now.tick + calls[0].ticks, now.month + calls[0].months);
      Serial(rates, dir, at, Atomic(rates, dir, at, book, calls[0].call), calls[1..])
  }

  function ConfirmedAmountColumn(p: PersonId): Txn -> int {
    (t: Txn) => if t.provider == p && t.status.Confirmed? then t.amount else 0
  }

  function ConfirmedCountColumn(p: PersonId): Txn -> int {
    (t: Txn) => if t.provider == p && t.status.Confirmed? then 1 else 0
  }

  /** The view's row for `p` read off the transactions instead. */
  ghost predicate Agrees(book: Book, p: PersonId) {
    && BalanceFor(book.ledger, p).gross == Total(book.txns, ConfirmedAmountColumn(p))
    && BalanceFor(book.ledger, p).jobs == Total(book.txns, ConfirmedCountColumn(p))
  }

  lemma MarkConfirmedAgrees(rates: Rates, now: Instant, book: Book, id: TxnId, actor: PersonId, p: PersonId)
    requires Matched(book) && Agrees(book, p)
    ensures Agrees(After(book, MarkConfirmed(rates, now, book, id, actor)), p)
  {
    var outcome := MarkConfirmed(rates, now, book, id, actor);
    if outcome.Ok? {
      var t := book.txns[id].(status := Confirmed, confirmedAt := Some(now), confirmedBy := Some(actor));
      var e := TriggerEntry(rates, now, id, t);
      NoDebitMeansNoCollision(book.ledger, e);
      BalanceAfterAppend(book.ledger, e, p);
      TotalUpdate(book.txns, id, t, ConfirmedAmountColumn(p));
      TotalUpdate(book.txns, id, t, ConfirmedCountColumn(p));
    }
  }

  lemma RowUpdateAgrees(book: Book, id: TxnId, t: Txn, p: PersonId)
    requires Agrees(book, p) && id < |book.txns|
    requires !book.txns[id].status.Confirmed? && !t.status.Confirmed?
    ensures Agrees(book.(txns := book.txns[id := t]), p)
  {
    TotalUpdate(book.txns, id, t, ConfirmedAmountColumn(p));
    TotalUpdate(book.txns, id, t, ConfirmedCountColumn(p));
  }

  lemma AtomicAgrees(rates: Rates, dir: Directory, now: Instant, book: Book, call: Call, p: PersonId)
    requires Matched(book) && Agrees(book, p)
    ensures Agrees(Atomic(rates, dir, now, book, call), p)
  {
    match call
    case ConfirmCall(caller, id) => MarkConfirmedAgrees(rates, now, book, id, caller, p);
    case DisputeCall(caller, id) =>
      if Dispute(book, caller, id).Ok? {
        RowUpdateAgrees(book, id, book.txns[id].(status := Disputed), p);
      }
    case RecordCall(provider, input) =>
      var outcome := RecordService(dir, book.txns, provider, input);
      if outcome.Ok? {
        var row := outcome.value.0[outcome.value.1];
        if ExistingFor(book.txns, input).Some? {
          RowUpdateAgrees(book, outcome.value.1, row, p);
        } else {
          TotalAppend(book.txns, row, ConfirmedAmountColumn(p));
          TotalAppend(book.txns, row, ConfirmedCountColumn(p));
        }
      }
  }

  lemma {:induction false} SerialAgrees(rates: Rates, dir: Directory, now: Instant, book: Book, calls: seq<TimedCall>, p: PersonId)
    requires Matched(book) && Agrees(book, p)
    ensures Matched(Serial(rates, dir, now, book, calls))
    ensures Agrees(Serial(rates, dir, now, book, calls), p)
    decreases |calls|
  {
    if calls != [] {
      var at := Instant(now.tick + calls[0].ticks, now.month + calls[0].months);
      var next := Atomic(rates, dir, at, book, calls[0].call);
      AtomicAgrees(rates, dir, at, book, calls[0].call, p);
      var before := Desk(book, at, map[]);
      AtomicIsBeginThenFinish(rates, dir, before, 0, calls[0].call);
      RunMatched(rates, dir, before, [Begin(0, calls[0].call), Finish(0)]);
      SerialAgrees(rates, dir, at, next, calls[1..], p);
    }
  }

  /** After any serial run `provider_balances` is what the transactions say: gross revenue is the sum
      of the confirmed amounts, jobs billed their number, and the balance charged minus settled, with
      commission within half a cent a job of the frozen shares. */
  lemma ViewAgreesWithTransactions(rates: Rates, dir: Directory, now: Instant, calls: seq<TimedCall>, p: PersonId)
    ensures var book := Serial(rates, dir, now, Book([], []), calls);
            var b := BalanceFor(book.ledger, p);
            && b.gross == Total(book.txns, ConfirmedAmountColumn(p))
            && b.jobs == Total(book.txns, ConfirmedCountColumn(p))
            && b.owed == b.charged - b.settled
            && 2 * Abs(b.charged * RATE_SCALE - Total(book.ledger, ShareColumn(p))) <= RATE_SCALE * b.jobs
  {
    SerialAgrees(rates, dir, now, Book([], []), calls, p);
    var book := Serial(rates, dir, now, Book([], []), calls);
    OwedIsChargedMinusSettled(book.ledger, p);
    RoundingIsBounded(book.ledger, p);
  }

  /** The agreement is only for serial runs. RecordService corrects a row by id, without looking at
      its status again, so a correction that lands after a confirmation keeps the view and the
      transactions in agreement exactly if it changes neither amount nor provider. */
  lemma StaleCorrection(rates: Rates, dir: Directory, now: Instant, book: Book, id: TxnId, provider: PersonId,
                        owner: PersonId, input: RecordInput)
    requires id < |book.txns| && forall p :: Agrees(book, p)
    ensures var after := WriteOf(rates, dir, now, book, RecordRead(Some(id), provider, owner, input));
            (forall p :: Agrees(after, p))
            <==> (book.txns[id].status.Confirmed? ==>
                    book.txns[id].amount == input.amount && book.txns[id].provider == provider)
  {
    var was := book.txns[id];
    var row := was.(amount := input.amount, service := input.service, provider := provider, owner := owner);
    var after := WriteOf(rates, dir, now, book, RecordRead(Some(id), provider, owner, input));
    assert after == book.(txns := book.txns[id := row]);
    forall p
      ensures Total(after.txns, ConfirmedAmountColumn(p)) ==
              Total(book.txns, ConfirmedAmountColumn(p)) - ConfirmedAmountColumn(p)(was) + ConfirmedAmountColumn(p)(row)
      ensures Total(after.txns, ConfirmedCountColumn(p)) ==
              Total(book.txns, ConfirmedCountColumn(p)) - ConfirmedCountColumn(p)(was) + ConfirmedCountColumn(p)(row)
    {
      TotalUpdate(book.txns, id, row, ConfirmedAmountColumn(p));
      TotalUpdate(book.txns, id, row, ConfirmedCountColumn(p));
    }
    assert Agrees(book, was.provider);
    if was.status.Confirmed? && !(was.amount == input.amount && was.provider == provider) {
      assert !Agrees(after, was.provider);
    } else {
      forall p ensures Agrees(after, p) {
        assert Agrees(book, p);
      }
    }
  }

  // ----- interleaved runs --------------------------------------------------------------------

  /** The check on a correction about to be written: it changes no confirmed amount or provider. */
  predicate CorrectsFairly(s: Desk, step: Step) {
    step.Finish? && step.slot in s.calls && s.calls[step.slot].RecordRead? && s.calls[step.slot].existing.Some? ==>
      var c := s.calls[step.slot];
      IsConfirmed(s.book.txns, c.existing.value) ==>
        s.book.txns[c.existing.value].amount == c.input.amount && s.book.txns[c.existing.value].provider == c.provider
  }

  ghost predicate AllAgree(book: Book) {
    forall p :: Agrees(book, p)
  }

  lemma InsertAgrees(dir: Directory, book: Book, provider: PersonId, owner: PersonId, input: RecordInput, p: PersonId)
    requires Agrees(book, p)
    ensures Agrees(book.(txns := AfterRecord(book.txns, WriteRecord(dir, book.txns, None, provider, owner, input))), p)
  {
    if LinksExist(dir, input) {
      var row := Txn(input.booking, input.request, owner, provider, input.service, input.amount, AwaitingConfirmation, None, None);
      TotalAppend(book.txns, row, ConfirmedAmountColumn(p));
      TotalAppend(book.txns, row, ConfirmedCountColumn(p));
    }
  }

  lemma StepAgreesIff(rates: Rates, dir: Directory, s: Desk, step: Step)
    requires Matched(s.book) && AllAgree(s.book)
    ensures AllAgree(Apply(rates, dir, s, step).book) <==> CorrectsFairly(s, step)
  {
    if step.Finish? && step.slot in s.calls {
      match s.calls[step.slot]
      case ConfirmRead(caller, id) =>
        forall p ensures Agrees(Apply(rates, dir, s, step).book, p) {
          MarkConfirmedAgrees(rates, s.now, s.book, id, caller, p);
        }
      case DisputeRead(id) =>
        forall p ensures Agrees(Apply(rates, dir, s, step).book, p) {
          if MarkDisputed(s.book, id).Ok? { RowUpdateAgrees(s.book, id, s.book.txns[id].(status := Disputed), p); }
        }
      case RecordRead(existing, provider, owner, input) =>
        if existing.None? {
          forall p ensures Agrees(Apply(rates, dir, s, step).book, p) {
            InsertAgrees(dir, s.book, provider, owner, input, p);
          }
        } else if existing.value < |s.book.txns| {
          StaleCorrection(rates, dir, s.now, s.book, existing.value, provider, owner, input);
        }
    } else {
      assert Apply(rates, dir, s, step).book == s.book;
    }
  }

  ghost predicate AgreesThroughout(rates: Rates, dir: Directory, s: Desk, steps: seq<Step>)
    decreases |steps|
  {
    AllAgree(s.book) && (steps != [] ==> AgreesThroughout(rates, dir, Apply(rates, dir, s, steps[0]), steps[1..]))
  }

  predicate AllCorrectFairly(rates: Rates, dir: Directory, s: Desk, steps: seq<Step>)
    decreases |steps|
  {
    steps != [] ==> CorrectsFairly(s, steps[0]) && AllCorrectFairly(rates, dir, Apply(rates, dir, s, steps[0]), steps[1..])
  }

  lemma {:induction false} RunAgreesIff(rates: Rates, dir: Directory, s: Desk, steps: seq<Step>)
    requires Matched(s.book) && AllAgree(s.book)
    ensures AgreesThroughout(rates, dir, s, steps) <==> AllCorrectFairly(rates, dir, s, steps)
    decreases |steps|
  {
    if steps != [] {
      var next := Apply(rates, dir, s, steps[0]);
      StepAgreesIff(rates, dir, s, steps[0]);
      if steps[0].Finish? && steps[0].slot in s.calls {
        WriteMatched(rates, dir, s.now, s.book, s.calls[steps[0].slot]);
      }
      if AllAgree(next.book) { RunAgreesIff(rates, dir, next, steps[1..]); }
    }
  }

  /** Over every interleaving of RecordService, Confirm and Dispute at their statements: the view agrees
      with the transactions for every provider at every moment exactly if no late correction changes the
      amount or the provider of a confirmed transaction. */
  lemma ViewAgreesIff(rates: Rates, dir: Directory, steps: seq<Step>)
    ensures AgreesThroughout(rates, dir, OPENING, steps) <==> AllCorrectFairly(rates, dir, OPENING, steps)
  {
    RunAgreesIff(rates, dir, OPENING, steps);
  }

  // ----- a late correction, step by step -----------------------------------------------------

  /** A price recorded for booking 0 of request 0. */
  function Price(owner: PersonId, amount: Cents): RecordInput {
    RecordInput(Some(owner), Some(0), Some(0), "Vehicle service", amount)
  }

  function OneJob(owner: PersonId): Directory {
    Directory(map[0 := owner], map[0 := 0])
  }

  /** Begin and finish a recording, begin a correction, begin and finish a confirmation, finish the
      correction. */
  function LateCorrectionSteps(owner: PersonId, provider: PersonId, amount: Cents, later: Cents): seq<Step> {
    [Begin(0, RecordCall(provider, Price(owner, amount))), Finish(0),
     Begin(1, RecordCall(provider, Price(owner, later))),
     Begin(2, ConfirmCall(owner, 0)), Finish(2), Finish(1)]
  }

  lemma RunTwo(rates: Rates, dir: Directory, s: Desk, a: Step, b: Step, rest: seq<Step>)
    ensures Run(rates, dir, s, [a, b] + rest) == Run(rates, dir, Apply(rates, dir, Apply(rates, dir, s, a), b), rest)
  {
    assert ([a, b] + rest)[1..] == [b] + rest;
    assert ([b] + rest)[1..] == rest;
  }

  function PricedRow(owner: PersonId, provider: PersonId, amount: Cents): Txn {
    Txn(Some(0), Some(0), owner, provider, "Vehicle service", amount, AwaitingConfirmation, None, None)
  }

  lemma FirstPrice(rates: Rates, owner: PersonId, provider: PersonId, amount: Cents)
    requires amount > 0
    ensures var dir := OneJob(owner);
            Apply(rates, dir, Apply(rates, dir, OPENING, Begin(0, RecordCall(provider, Price(owner, amount)))), Finish(0)) ==
            Desk(Book([PricedRow(owner, provider, amount)], []), Instant(0, 0), map[])
  {
    var dir := OneJob(owner);
    var begun := Desk(Book([], []), Instant(0, 0), map[0 := RecordRead(None, provider, owner, Price(owner, amount))]);
    assert Apply(rates, dir, OPENING, Begin(0, RecordCall(provider, Price(owner, amount)))) == begun;
  }

  lemma CorrectionBegun(rates: Rates, owner: PersonId, provider: PersonId, amount: Cents, later: Cents)
    requires amount > 0 && later > 0
    ensures var dir := OneJob(owner);
            var priced := Desk(Book([PricedRow(owner, provider, amount)], []), Instant(0, 0), map[]);
            Apply(rates, dir, Apply(rates, dir, priced, Begin(1, RecordCall(provider, Price(owner, later)))), Begin(2, ConfirmCall(owner, 0))) ==
            priced.(calls := map[1 := RecordRead(Some(0), provider, owner, Price(owner, later)), 2 := ConfirmRead(owner, 0)])
  {
    var dir := OneJob(owner);
    var priced := Desk(Book([PricedRow(owner, provider, amount)], []), Instant(0, 0), map[]);
    var one := priced.(calls := map[1 := RecordRead(Some(0), provider, owner, Price(owner, later))]);
    assert NewestAwaiting(priced.book.txns, 0) == Some(0);
    assert Apply(rates, dir, priced, Begin(1, RecordCall(provider, Price(owner, later)))) == one;
  }

  lemma BothFinished(rates: Rates, owner: PersonId, provider: PersonId, amount: Cents, later: Cents)
    requires amount > 0 && Commission(amount, rates.trigger) > 0
    ensures var dir, now := OneJob(owner), Instant(0, 0);
            var s := Desk(Book([PricedRow(owner, provider, amount)], []), now,
                          map[1 := RecordRead(Some(0), provider, owner, Price(owner, later)), 2 := ConfirmRead(owner, 0)]);
            var row := PricedRow(owner, provider, amount).(status := Confirmed, confirmedAt := Some(now), confirmedBy := Some(owner));
            Apply(rates, dir, Apply(rates, dir, s, Finish(2)), Finish(1)).book ==
            Book([row.(amount := later)], [TriggerEntry(rates, now, 0, row)])
  {
    var dir, now := OneJob(owner), Instant(0, 0);
    var s := Desk(Book([PricedRow(owner, provider, amount)], []), now,
                  map[1 := RecordRead(Some(0), provider, owner, Price(owner, later)), 2 := ConfirmRead(owner, 0)]);
    var row := PricedRow(owner, provider, amount).(status := Confirmed, confirmedAt := Some(now), confirmedBy := Some(owner));
    assert WriteOf(rates, dir, now, s.book, s.calls[2]) == Book([row], [TriggerEntry(rates, now, 0, row)]);
  }

  /** A correction that reads the row before a confirmation and writes it after: the view keeps the old
      price as revenue, the transaction has the new one. */
  lemma LateCorrection(rates: Rates, owner: PersonId, provider: PersonId, amount: Cents, later: Cents)
    requires amount > 0 && later > 0 && Commission(amount, rates.trigger) > 0
    ensures var book := Run(rates, OneJob(owner), OPENING, LateCorrectionSteps(owner, provider, amount, later)).book;
            && BalanceFor(book.ledger, provider).gross == amount
            && Total(book.txns, ConfirmedAmountColumn(provider)) == later
  {
    var dir := OneJob(owner);
    var steps := LateCorrectionSteps(owner, provider, amount, later);
    var priced := Desk(Book([PricedRow(owner, provider, amount)], []), Instant(0, 0), map[]);
    var begun := priced.(calls := map[1 := RecordRead(Some(0), provider, owner, Price(owner, later)), 2 := ConfirmRead(owner, 0)]);
    assert steps == [steps[0], steps[1]] + ([steps[2], steps[3]] + ([steps[4], steps[5]] + []));
    RunTwo(rates, dir, OPENING, steps[0], steps[1], [steps[2], steps[3]] + ([steps[4], steps[5]] + []));
    RunTwo(rates, dir, priced, steps[2], steps[3], [steps[4], steps[5]] + []);
    RunTwo(rates, dir, begun, steps[4], steps[5], []);
    FirstPrice(rates, owner, provider, amount);
    CorrectionBegun(rates, owner, provider, amount, later);
    BothFinished(rates, owner, provider, amount, later);
    var book := Run(rates, dir, OPENING, steps).book;
    BalanceAfterAppend([], book.ledger[0], provider);
    TotalAppend([], book.txns[0], ConfirmedAmountColumn(provider));
    assert [] + [book.ledger[0]] == book.ledger && [] + [book.txns[0]] == book.txns;
  }
}
