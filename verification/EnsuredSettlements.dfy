/** Serial runs whose settlements all come from EnsureOpenSettlement: one open bill per provider, the
    newest, never above the balance. And what goes wrong when both sources are mixed. */
module EnsuredSettlements {
  import opened Tables
  import opened Money
  import opened Ledger
  import opened Settlements
  import opened SettlementRuns

  datatype Call =
    | ChargeCall(e: Entry)
    | WaitCall(months: nat)
    | EnsureCall(provider: PersonId)
    | SubmitCall(provider: PersonId, id: SettlementId, receipt: bool)
    | VerifyCall(id: SettlementId)

  /** One call with nothing between its statements. */
  function Serve(s: Desk, call: Call): Desk {
    match call
    case ChargeCall(e) => Apply(s, Charge(e))
    case WaitCall(months) => Apply(s, Wait(months))
    case EnsureCall(p) => s.(rows := EnsureOpenSettlement(s.rows, s.ledger, p, s.month).0)
    case SubmitCall(p, id, receipt) =>
      (match SubmitSettlement(s.rows, p, id, receipt)
       case Err(_) => s
       case Ok(rows) => s.(rows := rows))
    case VerifyCall(id) =>
      var (rows, ledger, _) := VerifySettlement(s.rows, s.ledger, id);
      s.(rows := rows, ledger := ledger)
  }

  function ServeAll(s: Desk, calls: seq<Call>): Desk
    decreases |calls|
  {
    if calls == [] then s else ServeAll(Serve(s, calls[0]), calls[1..])
  }

  /** The statements of a call, run one after the other in a free slot. */
  function StepsOf(call: Call): seq<Step> {
    match call
    case ChargeCall(e) => [Charge(e)]
    case WaitCall(months) => [Wait(months)]
    case EnsureCall(p) => [BeginEnsure(0, p), List(0), Open(0)]
    case SubmitCall(p, id, receipt) => [BeginSubmit(0, p, id, receipt), FinishSubmit(0)]
    case VerifyCall(id) => [BeginVerify(0, id), Mark(0), Credit(0)]
  }

  lemma RunThree(s: Desk, a: Step, b: Step, c: Step)
    ensures Run(s, [a]) == Apply(s, a)
    ensures Run(s, [a, b]) == Apply(Apply(s, a), b)
    ensures Run(s, [a, b, c]) == Apply(Apply(Apply(s, a), b), c)
  {
    var s1, s2 := Apply(s, a), Apply(Apply(s, a), b);
    assert Run(s1, []) == s1 && Run(s2, []) == s2 && Run(Apply(s2, c), []) == Apply(s2, c);
    assert [a][1..] == [] && [b][1..] == [] && [c][1..] == [] && [a, b][1..] == [b] && [b, c][1..] == [c];
    assert [a, b, c][1..] == [b, c];
    assert Run(s2, [c]) == Apply(s2, c);
    assert Run(s1, [b]) == s2;
    assert Run(s1, [b, c]) == Run(s2, [c]);
  }

  lemma EnsureIsItsSteps(s: Desk, p: PersonId)
    requires s.calls == map[]
    ensures Run(s, StepsOf(EnsureCall(p))) == Serve(s, EnsureCall(p))
  {
    RunThree(s, BeginEnsure(0, p), List(0), Open(0));
    EnsureInThree(s, p);
  }

  lemma EnsureInThree(s: Desk, p: PersonId)
    requires s.calls == map[]
    ensures Apply(Apply(Apply(s, BeginEnsure(0, p)), List(0)), Open(0)) == Serve(s, EnsureCall(p))
  {
    var owed := BalanceFor(s.ledger, p).owed;
    if owed > 0 {
      assert Apply(s, BeginEnsure(0, p)) == Reading(s, EnsureRead(p, owed));
      ListStep(s, p, owed);
      OpenStep(s, p, owed);
    }
  }

  /** A desk with nothing but one call under way. */
  function Reading(s: Desk, call: Pending): Desk {
    s.(calls := map[0 := call])
  }

  lemma ListStep(s: Desk, p: PersonId, owed: Cents)
    requires s.calls == map[]
    ensures Apply(Reading(s, EnsureRead(p, owed)), List(0)) ==
            if FirstOpen(s.rows, ListForProvider(s.rows, p)).Some? then s else Reading(s, EnsureListed(p, owed))
  {
    var read := Reading(s, EnsureRead(p, owed));
    assert Ended(read, 0) == s;
    assert read.calls[0 := EnsureListed(p, owed)] == map[0 := EnsureListed(p, owed)];
    assert Apply(read, List(0)) == DoList(read, 0, p, owed);
  }

  lemma OpenStep(s: Desk, p: PersonId, owed: Cents)
    requires s.calls == map[]
    ensures Apply(Reading(s, EnsureListed(p, owed)), Open(0)) == s.(rows := Upsert(s.rows, p, s.month, owed).0)
    ensures Apply(s, Open(0)) == s
  {}

  lemma VerifyIsItsSteps(s: Desk, id: SettlementId)
    requires s.calls == map[] && RowsSound(s.rows)
    ensures Run(s, StepsOf(VerifyCall(id))) == Serve(s, VerifyCall(id))
  {
    var steps := StepsOf(VerifyCall(id));
    RunThree(s, steps[0], steps[1], steps[2]);
    if id < |s.rows| && !s.rows[id].status.Verified? {
      var read := s.(calls := map[0 := VerifyRead(id, s.rows[id])]);
      assert Apply(s, steps[0]) == read;
      var marked := s.(rows := MarkVerified(s.rows, id).value, calls := map[0 := VerifyMarked(id, s.rows[id])]);
      assert Apply(read, steps[1]) == marked;
      assert Ended(marked, 0) == marked.(calls := map[]);
    }
  }

  lemma SubmitIsItsSteps(s: Desk, p: PersonId, id: SettlementId, receipt: bool)
    requires s.calls == map[]
    ensures Run(s, StepsOf(SubmitCall(p, id, receipt))) == Serve(s, SubmitCall(p, id, receipt))
  {
    RunThree(s, BeginSubmit(0, p, id, receipt), FinishSubmit(0), FinishSubmit(0));
    assert Ended(Reading(s, SubmitRead(id)), 0) == s;
  }

  /** Serving a call is running its statements with nothing in between. */
  lemma ServeIsItsSteps(s: Desk, call: Call)
    requires Sound(s) && s.calls == map[]
    ensures Run(s, StepsOf(call)) == Serve(s, call)
  {
    match call
    case ChargeCall(e) => RunThree(s, Charge(e), Charge(e), Charge(e));
    case WaitCall(months) => RunThree(s, Wait(months), Wait(months), Wait(months));
    case SubmitCall(p, id, receipt) => SubmitIsItsSteps(s, p, id, receipt);
    case EnsureCall(p) => EnsureIsItsSteps(s, p);
    case VerifyCall(id) => VerifyIsItsSteps(s, id);
  }

  // ----- one open bill -----------------------------------------------------------------------

  /** Rows are due, submitted or verified and not from a later month; an open row is its provider's
      newest and within its balance; and no balance is negative. */
  ghost predicate OneOpenBill(s: Desk) {
    && s.calls == map[]
    && (forall i :: 0 <= i < |s.rows| ==>
          && s.rows[i].period <= s.month
          && (s.rows[i].status.Due? || s.rows[i].status.Submitted? || s.rows[i].status.Verified?))
    && (forall i, j :: 0 <= i < |s.rows| && 0 <= j < |s.rows| && IsOpen(s.rows[i]) && s.rows[i].provider == s.rows[j].provider ==>
          s.rows[j].period <= s.rows[i].period)
    && (forall i :: 0 <= i < |s.rows| && IsOpen(s.rows[i]) ==>
          s.rows[i].amountDue <= BalanceFor(s.ledger, s.rows[i].provider).owed)
    && (forall p :: BalanceFor(s.ledger, p).owed >= 0)
  }

  /** The newest row heads the listing, so the limit of 24 cannot hide an open one. */
  lemma OpenRowIsListed(s: Desk, i: nat)
    requires RowsSound(s.rows) && OneOpenBill(s) && i < |s.rows| && IsOpen(s.rows[i])
    ensures var ids := ListForProvider(s.rows, s.rows[i].provider);
            |ids| > 0 && ids[0] == i && FirstOpen(s.rows, ids) == Some(i)
  {
    var p := s.rows[i].provider;
    var all := Listed(s.rows, p);
    assert i in all;
    var k :| 0 <= k < |all| && all[k] == i;
    assert s.rows[all[0]].period >= s.rows[all[k]].period;
    assert s.rows[all[0]].period == s.rows[i].period;
    assert all[0] == i;
  }

  lemma NothingListedIsNothingOpen(s: Desk, p: PersonId)
    requires RowsSound(s.rows) && OneOpenBill(s) && FirstOpen(s.rows, ListForProvider(s.rows, p)).None?
    ensures forall i :: 0 <= i < |s.rows| && s.rows[i].provider == p ==> !IsOpen(s.rows[i])
  {
    forall i | 0 <= i < |s.rows| && s.rows[i].provider == p && IsOpen(s.rows[i]) ensures false {
      OpenRowIsListed(s, i);
    }
  }

  lemma UpsertKeeps(s: Desk, p: PersonId)
    requires RowsSound(s.rows) && OneOpenBill(s) && BalanceFor(s.ledger, p).owed > 0
    requires forall i :: 0 <= i < |s.rows| && s.rows[i].provider == p ==> !IsOpen(s.rows[i])
    ensures OneOpenBill(s.(rows := Upsert(s.rows, p, s.month, BalanceFor(s.ledger, p).owed).0))
  {
    var rows := Upsert(s.rows, p, s.month, BalanceFor(s.ledger, p).owed).0;
    assert forall i :: 0 <= i < |s.rows| ==>
      rows[i].provider == s.rows[i].provider && rows[i].period == s.rows[i].period && rows[i].status == s.rows[i].status;
  }

  lemma EnsureKeeps(s: Desk, p: PersonId)
    requires Sound(s) && OneOpenBill(s)
    ensures OneOpenBill(Serve(s, EnsureCall(p)))
  {
    if BalanceFor(s.ledger, p).owed > 0 && FirstOpen(s.rows, ListForProvider(s.rows, p)).None? {
      NothingListedIsNothingOpen(s, p);
      UpsertKeeps(s, p);
    }
  }

  lemma ChargeKeeps(s: Desk, e: Entry)
    requires Sound(s) && OneOpenBill(s)
    ensures OneOpenBill(Apply(s, Charge(e)))
  {
    if e.kind.CommissionDebit? && ChecksHold(e) {
      forall p ensures BalanceFor(s.ledger + [e], p).owed >= BalanceFor(s.ledger, p).owed {
        BalanceAfterAppend(s.ledger, e, p);
      }
    }
  }

  lemma VerifyKeeps(s: Desk, id: SettlementId)
    requires Sound(s) && OneOpenBill(s)
    ensures OneOpenBill(Serve(s, VerifyCall(id)))
  {
    if id < |s.rows| && !s.rows[id].status.Verified? {
      var e := CreditEntry(id, s.rows[id]);
      var after := Serve(s, VerifyCall(id));
      assert after.ledger == s.ledger + [e];
      forall p
        ensures BalanceFor(after.ledger, p).owed ==
                BalanceFor(s.ledger, p).owed - (if p == e.provider then s.rows[id].amountDue else 0)
      {
        BalanceAfterAppend(s.ledger, e, p);
      }
      forall i | 0 <= i < |after.rows| && IsOpen(after.rows[i]) ensures after.rows[i].provider != e.provider {
        if after.rows[i].provider == e.provider {
          OpenRowIsListed(s, id);
          OpenRowIsListed(s, i);
        }
      }
    }
  }

  lemma SubmitKeeps(s: Desk, p: PersonId, id: SettlementId, receipt: bool)
    requires Sound(s) && OneOpenBill(s)
    ensures OneOpenBill(Serve(s, SubmitCall(p, id, receipt)))
  {}

  lemma ServeKeeps(s: Desk, call: Call)
    requires Sound(s) && OneOpenBill(s)
    ensures Sound(Serve(s, call)) && OneOpenBill(Serve(s, call))
  {
    ServeIsItsSteps(s, call);
    SettlementRuns.RunSound(s, StepsOf(call));
    match call
    case ChargeCall(e) => ChargeKeeps(s, e);
    case WaitCall(_) =>
    case EnsureCall(p) => EnsureKeeps(s, p);
    case SubmitCall(p, id, receipt) => SubmitKeeps(s, p, id, receipt);
    case VerifyCall(id) => VerifyKeeps(s, id);
  }

  lemma {:induction false} ServeAllKeeps(s: Desk, calls: seq<Call>)
    requires Sound(s) && OneOpenBill(s)
    ensures Sound(ServeAll(s, calls)) && OneOpenBill(ServeAll(s, calls))
    decreases |calls|
  {
    if calls != [] {
      ServeKeeps(s, calls[0]);
      ServeAllKeeps(Serve(s, calls[0]), calls[1..]);
    }
  }

  /** In all serial runs without the month-end job: a provider has at most one open settlement, the
      listing of 24 starts with it, its amount is within the balance, and balances are not negative. */
  lemma OneOpenBillPerProvider(calls: seq<Call>, p: PersonId, i: nat, j: nat)
    ensures var s := ServeAll(OPENING, calls);
            && BalanceFor(s.ledger, p).owed >= 0
            && (i < |s.rows| && IsOpen(s.rows[i]) && s.rows[i].provider == p ==>
                  && s.rows[i].amountDue <= BalanceFor(s.ledger, p).owed
                  && FirstOpen(s.rows, ListForProvider(s.rows, p)) == Some(i)
                  && (j < |s.rows| && IsOpen(s.rows[j]) && s.rows[j].provider == p ==> i == j))
  {
    EmptyBalances();
    ServeAllKeeps(OPENING, calls);
    var s := ServeAll(OPENING, calls);
    if i < |s.rows| && IsOpen(s.rows[i]) { OpenRowIsListed(s, i); }
    if j < |s.rows| && IsOpen(s.rows[j]) { OpenRowIsListed(s, j); }
  }

  lemma EmptyBalances()
    ensures forall p :: BalanceFor([], p) == NO_BALANCE
  {}

  lemma OpenAmong(rows: seq<Settlement>, ids: seq<SettlementId>, p: PersonId)
    requires forall k :: 0 <= k < |ids| ==> ids[k] < |rows| && rows[ids[k]].provider == p
    requires FirstOpen(rows, ids).Some?
    ensures var id := FirstOpen(rows, ids).value; id < |rows| && rows[id].provider == p && IsOpen(rows[id])
  {}

  lemma UpsertIsOpenIff(rows: seq<Settlement>, p: PersonId, month: nat, owed: Cents)
    ensures var (after, id) := Upsert(rows, p, month, owed);
            && id < |after| && after[id].provider == p
            && (IsOpen(after[id]) <==> match RowFor(rows, p, month) case None => true case Some(row) => IsOpen(rows[row]))
  {}

  /** On any desk where something is owed, whatever opened its bills: the settlement that
      EnsureOpenSettlement returns is the provider's, and it is open exactly if the list of 24 shows an
      open one, or this month has no row for the provider or an open one. */
  lemma EnsuredIsPayableIff(s: Desk, p: PersonId)
    requires BalanceFor(s.ledger, p).owed > 0
    ensures var (rows, outcome) := EnsureOpenSettlement(s.rows, s.ledger, p, s.month);
            && outcome.Ok? && outcome.value < |rows| && rows[outcome.value].provider == p
            && (IsOpen(rows[outcome.value])
                <==> || FirstOpen(s.rows, ListForProvider(s.rows, p)).Some?
                     || match RowFor(s.rows, p, s.month)
                        case None => true
                        case Some(id) => IsOpen(s.rows[id]))
  {
    if FirstOpen(s.rows, ListForProvider(s.rows, p)).Some? {
      OpenAmong(s.rows, ListForProvider(s.rows, p), p);
    } else {
      UpsertIsOpenIff(s.rows, p, s.month, BalanceFor(s.ledger, p).owed);
    }
  }

  /** Without the month-end job that comes down to this month's row, when there is one, not being
      verified: after this month's bill is settled, new debt has no open bill until the month changes. */
  lemma EnsuredAloneIsPayableIff(s: Desk, p: PersonId)
    requires Sound(s) && OneOpenBill(s) && BalanceFor(s.ledger, p).owed > 0
    ensures var (rows, outcome) := EnsureOpenSettlement(s.rows, s.ledger, p, s.month);
            && outcome.Ok? && outcome.value < |rows|
            && (IsOpen(rows[outcome.value])
                <==> match RowFor(s.rows, p, s.month)
                     case None => true
                     case Some(id) => !s.rows[id].status.Verified?)
  {
    EnsuredIsPayableIff(s, p);
    if FirstOpen(s.rows, ListForProvider(s.rows, p)).Some? {
      OpenAmong(s.rows, ListForProvider(s.rows, p), p);
      var open, row := FirstOpen(s.rows, ListForProvider(s.rows, p)).value, RowFor(s.rows, p, s.month);
      if row.Some? { SamePeriodSameRow(s, open, row.value); }
    } else {
      ThisMonthIsNotRejected(s, p);
    }
  }

  lemma ThisMonthIsNotRejected(s: Desk, p: PersonId)
    requires OneOpenBill(s)
    ensures var row := RowFor(s.rows, p, s.month);
            row.Some? ==> (IsOpen(s.rows[row.value]) <==> !s.rows[row.value].status.Verified?)
  {}

  /** A row of the current month is no older than its provider's open row, hence that row. */
  lemma SamePeriodSameRow(s: Desk, i: nat, j: nat)
    requires RowsSound(s.rows) && OneOpenBill(s) && i < |s.rows| && j < |s.rows|
    requires IsOpen(s.rows[i]) && s.rows[i].provider == s.rows[j].provider && s.rows[j].period == s.month
    ensures i == j
  {}

  // ----- both sources together ---------------------------------------------------------------

  function Debit(p: PersonId, amount: Cents, period: nat): Entry {
    Entry(p, CommissionDebit, amount, Some(0), None, Some(1_000), Some(10 * amount), period, None)
  }

  lemma VerifyCredits(s: Desk, id: SettlementId, p: PersonId)
    requires id < |s.rows| && !s.rows[id].status.Verified? && s.rows[id].amountDue > 0
    ensures var after, st := Serve(s, VerifyCall(id)), s.rows[id];
            && after.rows == s.rows[id := st.(status := Verified)]
            && BalanceFor(after.ledger, p).owed ==
               BalanceFor(s.ledger, p).owed - (if st.provider == p then st.amountDue else 0)
  {}

  lemma EmptyListing(p: PersonId)
    ensures ListForProvider([], p) == []
  {}

  lemma EnsureOnEmpty(s: Desk, p: PersonId)
    requires s.rows == [] && BalanceFor(s.ledger, p).owed > 0
    ensures Serve(s, EnsureCall(p)) == s.(rows := [Settlement(p, s.month, BalanceFor(s.ledger, p).owed, Due)])
  {
    EmptyListing(p);
    var none: seq<SettlementId> := [];
    assert FirstOpen(s.rows, none) == None;
  }

  lemma GenerateForOne(rows: seq<Settlement>, ledger: seq<Entry>, month: nat, p: PersonId)
    ensures Generate(rows, ledger, month, [p]) == GenerateOne(rows, ledger, month, p)
  {}

  lemma BillAnotherMonth(s: Desk, p: PersonId, amount: Cents)
    requires s.rows == [Settlement(p, 1, amount, Due)] && amount > 0 && ChargedInMonth(s.ledger, p, 0) == amount
    ensures Apply(s, GenerateForMonth(0, [p])) ==
            s.(rows := [Settlement(p, 1, amount, Due), Settlement(p, 0, amount, Due)])
  {
    GenerateForOne(s.rows, s.ledger, 0, p);
    assert RowFor(s.rows, p, 0) == None;
  }

  lemma VerifyBoth(s: Desk, p: PersonId, amount: Cents)
    requires s.rows == [Settlement(p, 1, amount, Due), Settlement(p, 0, amount, Due)] && amount > 0
    ensures BalanceFor(Serve(Serve(s, VerifyCall(0)), VerifyCall(1)).ledger, p).owed
         == BalanceFor(s.ledger, p).owed - 2 * amount
  {
    VerifyCredits(s, 0, p);
    VerifyCredits(Serve(s, VerifyCall(0)), 1, p);
  }

  /** The month-end job and EnsureOpenSettlement do not mix. From any desk without settlements where a
      provider owes an amount charged in month 0: in month 1 the provider asks for a bill, which takes
      the whole balance; the month-end job then bills month 0 once more; both bills are verified, and
      the debt has been credited twice. */
  lemma MixedSourcesOvercredit(s: Desk, p: PersonId, amount: Cents) returns (ensured: Desk, billed: Desk)
    requires s.rows == [] && s.month == 1 && amount > 0
    requires BalanceFor(s.ledger, p).owed == amount && ChargedInMonth(s.ledger, p, 0) == amount
    ensures ensured == Serve(s, EnsureCall(p)) && billed == Apply(ensured, GenerateForMonth(0, [p]))
    ensures BalanceFor(Serve(Serve(billed, VerifyCall(0)), VerifyCall(1)).ledger, p).owed == -amount
  {
    EnsureOnEmpty(s, p);
    ensured := s.(rows := [Settlement(p, 1, amount, Due)]);
    BillAnotherMonth(ensured, p, amount);
    billed := s.(rows := [Settlement(p, 1, amount, Due), Settlement(p, 0, amount, Due)]);
    VerifyBoth(billed, p, amount);
  }

  /** Such a desk is reached by one charge and the turn of the month. */
  lemma OneChargeOwed(p: PersonId, amount: Cents)
    requires amount > 0
    ensures var s := Serve(Serve(OPENING, ChargeCall(Debit(p, amount, 0))), WaitCall(1));
            && s.rows == [] && s.month == 1
            && BalanceFor(s.ledger, p).owed == amount && ChargedInMonth(s.ledger, p, 0) == amount
  {
    var e := Debit(p, amount, 0);
    assert [] + [e] == [e];
    BalanceAfterAppend([], e, p);
    TotalAppend([], e, ChargedInMonthColumn(p, 0));
  }

  // ----- a settled month ---------------------------------------------------------------------

  lemma FirstBill(p: PersonId, amount: Cents)
    requires amount > 0
    ensures var charged := Serve(OPENING, ChargeCall(Debit(p, amount, 0)));
            && BalanceFor(charged.ledger, p).owed == amount
            && Serve(charged, EnsureCall(p)) == charged.(rows := [Settlement(p, 0, amount, Due)])
  {
    var e := Debit(p, amount, 0);
    var charged := Serve(OPENING, ChargeCall(e));
    assert charged.ledger == [] + [e];
    BalanceAfterAppend([], e, p);
    EnsureOnEmpty(charged, p);
  }

  lemma SettledListing(p: PersonId, amount: Cents)
    ensures var rows := [Settlement(p, 0, amount, Verified)];
            FirstOpen(rows, ListForProvider(rows, p)).None? && RowFor(rows, p, 0) == Some(0)
  {}

  lemma SettledThenCharged(s: Desk, p: PersonId, amount: Cents, more: Cents)
    requires s.rows == [Settlement(p, 0, amount, Due)] && BalanceFor(s.ledger, p).owed == amount && amount > 0 && more > 0
    ensures var after := Serve(Serve(s, VerifyCall(0)), ChargeCall(Debit(p, more, 0)));
            after.rows == [Settlement(p, 0, amount, Verified)] && after.month == s.month && BalanceFor(after.ledger, p).owed == more
  {
    VerifyCredits(s, 0, p);
    BalanceAfterAppend(Serve(s, VerifyCall(0)).ledger, Debit(p, more, 0), p);
  }

  function SettledMonth(p: PersonId, amount: Cents, more: Cents): seq<Call> {
    [ChargeCall(Debit(p, amount, 0)), EnsureCall(p), VerifyCall(0), ChargeCall(Debit(p, more, 0))]
  }

  lemma SettledMonthState(p: PersonId, amount: Cents, more: Cents)
    requires amount > 0 && more > 0
    ensures var s := ServeAll(OPENING, SettledMonth(p, amount, more));
            s.rows == [Settlement(p, 0, amount, Verified)] && s.month == 0 && BalanceFor(s.ledger, p).owed == more
  {
    var charged := Serve(OPENING, ChargeCall(Debit(p, amount, 0)));
    FirstBill(p, amount);
    SettledThenCharged(charged.(rows := [Settlement(p, 0, amount, Due)]), p, amount, more);
    ServeFour(OPENING, ChargeCall(Debit(p, amount, 0)), EnsureCall(p), VerifyCall(0), ChargeCall(Debit(p, more, 0)));
  }

  /** A charge, its bill verified, and another charge in the same month: the call now returns the bill
      that is already verified. */
  lemma SettledMonthReturnsVerified(p: PersonId, amount: Cents, more: Cents)
    requires amount > 0 && more > 0
    ensures var s := ServeAll(OPENING, SettledMonth(p, amount, more));
            var (rows, outcome) := EnsureOpenSettlement(s.rows, s.ledger, p, s.month);
            outcome.Ok? && outcome.value < |rows| && rows[outcome.value].provider == p && !IsOpen(rows[outcome.value])
  {
    SettledMonthState(p, amount, more);
    SettledListing(p, amount);
    EnsuredIsPayableIff(ServeAll(OPENING, SettledMonth(p, amount, more)), p);
  }

  lemma ServeFour(s: Desk, a: Call, b: Call, c: Call, d: Call)
    ensures ServeAll(s, [a, b, c, d]) == Serve(Serve(Serve(Serve(s, a), b), c), d)
  {
    var s1 := Serve(s, a);
    var s2 := Serve(s1, b);
    var s3 := Serve(s2, c);
    assert [a, b, c, d][1..] == [b, c, d] && [b, c, d][1..] == [c, d] && [c, d][1..] == [d] && [d][1..] == [];
    assert ServeAll(s3, [d]) == ServeAll(Serve(s3, d), []);
    assert ServeAll(s1, [b, c, d]) == ServeAll(s2, [c, d]) == ServeAll(s3, [d]);
  }
}
