/** When is no balance negative, whatever mix of calls opens the bills? Exactly when every credit is
    within its provider's balance at the moment it is written. */
module BalanceRuns {
  import opened Tables
  import opened Money
  import opened Ledger
  import opened Settlements
  import opened SettlementRuns
  import E = EnsuredSettlements

  ghost predicate NoneNegative(ledger: seq<Entry>) {
    forall p :: BalanceFor(ledger, p).owed >= 0
  }

  // ----- statement by statement --------------------------------------------------------------

  /** A credit about to be written is within the balance. */
  predicate WithinBalance(s: Desk, step: Step) {
    step.Credit? && step.slot in s.calls && s.calls[step.slot].VerifyMarked? ==>
      var seen := s.calls[step.slot].seen;
      seen.amountDue <= BalanceFor(s.ledger, seen.provider).owed
  }

  lemma CreditKeepsIff(ledger: seq<Entry>, id: SettlementId, st: Settlement)
    requires NoneNegative(ledger)
    ensures NoneNegative(ledger + [CreditEntry(id, st)]) <==> st.amountDue <= BalanceFor(ledger, st.provider).owed
  {
    var e := CreditEntry(id, st);
    forall p ensures BalanceFor(ledger + [e], p).owed ==
                     BalanceFor(ledger, p).owed - (if p == st.provider then st.amountDue else 0)
    {
      BalanceAfterAppend(ledger, e, p);
    }
    assert BalanceFor(ledger + [e], st.provider).owed == BalanceFor(ledger, st.provider).owed - st.amountDue;
  }

  lemma ChargeKeeps(ledger: seq<Entry>, e: Entry)
    requires NoneNegative(ledger) && e.amount > 0
    ensures NoneNegative(ledger + [e])
  {
    forall p ensures BalanceFor(ledger + [e], p).owed >= BalanceFor(ledger, p).owed {
      BalanceAfterAppend(ledger, e, p);
    }
  }

  lemma StepKeepsIff(s: Desk, step: Step)
    requires Sound(s) && NoneNegative(s.ledger)
    ensures NoneNegative(Apply(s, step).ledger) <==> WithinBalance(s, step)
  {
    match step
    case Charge(e) => if e.kind.CommissionDebit? && ChecksHold(e) { ChargeKeeps(s.ledger, e); }
    case Credit(slot) =>
      if slot in s.calls && s.calls[slot].VerifyMarked? {
        var id, seen := s.calls[slot].id, s.calls[slot].seen;
        CreditSound(s, slot, id, seen);
        CreditKeepsIff(s.ledger, id, seen);
      }
    case _ => assert Apply(s, step).ledger == s.ledger;
  }

  ghost predicate NeverNegative(s: Desk, steps: seq<Step>)
    decreases |steps|
  {
    NoneNegative(s.ledger) && (steps != [] ==> NeverNegative(Apply(s, steps[0]), steps[1..]))
  }

  predicate AllWithinBalance(s: Desk, steps: seq<Step>)
    decreases |steps|
  {
    steps != [] ==> WithinBalance(s, steps[0]) && AllWithinBalance(Apply(s, steps[0]), steps[1..])
  }

  lemma {:induction false} RunKeepsIff(s: Desk, steps: seq<Step>)
    requires Sound(s) && NoneNegative(s.ledger)
    ensures NeverNegative(s, steps) <==> AllWithinBalance(s, steps)
    decreases |steps|
  {
    if steps != [] {
      StepKeepsIff(s, steps[0]);
      if NoneNegative(Apply(s, steps[0]).ledger) {
        ApplySound(s, steps[0]);
        RunKeepsIff(Apply(s, steps[0]), steps[1..]);
      }
    }
  }

  /** Over every interleaving of all calls at their statements, both sources of bills and calls that die
      included: no balance is negative at any moment exactly if every credit is within its provider's
      balance when it is written. */
  lemma NeverNegativeIff(steps: seq<Step>)
    ensures NeverNegative(OPENING, steps) <==> AllWithinBalance(OPENING, steps)
  {
    E.EmptyBalances();
    RunKeepsIff(OPENING, steps);
  }

  // ----- call by call ------------------------------------------------------------------------

  /** A call with nothing between its statements, from either source of bills. */
  datatype Call = Plain(call: E.Call) | MonthEnd(month: nat, group: seq<PersonId>)

  function Serve(s: Desk, call: Call): Desk {
    match call
    case Plain(plain) => E.Serve(s, plain)
    case MonthEnd(month, group) => Apply(s, GenerateForMonth(month, group))
  }

  /** What an admin can check before verifying: the bill is within the balance. */
  predicate Covered(s: Desk, call: Call) {
    call.Plain? && call.call.VerifyCall? && call.call.id < |s.rows| && !s.rows[call.call.id].status.Verified? ==>
      var st := s.rows[call.call.id];
      st.amountDue <= BalanceFor(s.ledger, st.provider).owed
  }

  lemma ServeKeepsIff(s: Desk, call: Call)
    requires Sound(s) && s.calls == map[] && NoneNegative(s.ledger)
    ensures NoneNegative(Serve(s, call).ledger) <==> Covered(s, call)
  {
    match call
    case MonthEnd(_, _) =>
    case Plain(plain) =>
      match plain
      case VerifyCall(id) =>
        if id < |s.rows| && !s.rows[id].status.Verified? { CreditKeepsIff(s.ledger, id, s.rows[id]); }
      case ChargeCall(e) => if e.kind.CommissionDebit? && ChecksHold(e) { ChargeKeeps(s.ledger, e); }
      case _ =>
  }

  lemma ServeSound(s: Desk, call: Call)
    requires Sound(s) && s.calls == map[]
    ensures Sound(Serve(s, call)) && Serve(s, call).calls == map[]
  {
    match call
    case MonthEnd(month, group) => ApplySound(s, GenerateForMonth(month, group));
    case Plain(plain) =>
      E.ServeIsItsSteps(s, plain);
      SettlementRuns.RunSound(s, E.StepsOf(plain));
  }

  ghost predicate ServedNonNegative(s: Desk, calls: seq<Call>)
    decreases |calls|
  {
    NoneNegative(s.ledger) && (calls != [] ==> ServedNonNegative(Serve(s, calls[0]), calls[1..]))
  }

  predicate AllCovered(s: Desk, calls: seq<Call>)
    decreases |calls|
  {
    calls != [] ==> Covered(s, calls[0]) && AllCovered(Serve(s, calls[0]), calls[1..])
  }

  lemma {:induction false} ServedKeepsIff(s: Desk, calls: seq<Call>)
    requires Sound(s) && s.calls == map[] && NoneNegative(s.ledger)
    ensures ServedNonNegative(s, calls) <==> AllCovered(s, calls)
    decreases |calls|
  {
    if calls != [] {
      ServeKeepsIff(s, calls[0]);
      if NoneNegative(Serve(s, calls[0]).ledger) {
        ServeSound(s, calls[0]);
        ServedKeepsIff(Serve(s, calls[0]), calls[1..]);
      }
    }
  }

  /** In all serial runs that mix the month-end job with EnsureOpenSettlement: no balance is negative at
      any moment exactly if every verified bill was within the balance before its verification. */
  lemma MixedNonNegativeIff(calls: seq<Call>)
    ensures ServedNonNegative(OPENING, calls) <==> AllCovered(OPENING, calls)
  {
    E.EmptyBalances();
    ServedKeepsIff(OPENING, calls);
  }
}
