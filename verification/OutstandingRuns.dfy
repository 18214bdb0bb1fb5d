/** What a provider may still be credited: open bills, and credits of calls that have passed their guard.
    Bills opened within the balance that is left keep every balance non-negative, whatever is verified when
    and however stale the reads; and nothing less does. */
module OutstandingRuns {
  import opened Tables
  import opened Money
  import opened Ledger
  import opened Settlements
  import opened SettlementRuns
  import B = BalanceRuns

  predicate Marked(p: Pending, id: SettlementId) {
    p.VerifyMarked? && p.id == id
  }

  predicate HasMarked(calls: map<CallId, Pending>, id: SettlementId) {
    exists slot :: slot in calls && Marked(calls[slot], id)
  }

  ghost function HeldAmount(calls: map<CallId, Pending>, id: SettlementId): Cents {
    if HasMarked(calls, id) then
      var slot :| slot in calls && Marked(calls[slot], id);
      calls[slot].seen.amountDue
    else 0
  }

  /** What a settlement may still be credited with. */
  ghost function Outstanding(s: Desk, i: nat): Cents
    requires i < |s.rows|
  {
    if !s.rows[i].status.Verified? then s.rows[i].amountDue else HeldAmount(s.calls, i)
  }

  ghost function Column(s: Desk, p: PersonId): (column: seq<Cents>)
    ensures |column| == |s.rows|
  {
    seq(|s.rows|, i requires 0 <= i < |s.rows| => if s.rows[i].provider == p then Outstanding(s, i) else 0)
  }

  const ITSELF: Cents -> int := (x: Cents) => x

  ghost function Owing(s: Desk, p: PersonId): Cents {
    Total(Column(s, p), ITSELF)
  }

  /** Everything outstanding is within the balances. */
  ghost predicate Within(s: Desk) {
    forall p :: Owing(s, p) <= BalanceFor(s.ledger, p).owed
  }

  // ----- held amounts ------------------------------------------------------------------------

  lemma HeldIs(s: Desk, slot: CallId)
    requires CallsSound(s.rows, s.calls) && slot in s.calls && s.calls[slot].VerifyMarked?
    ensures HeldAmount(s.calls, s.calls[slot].id) == s.calls[slot].seen.amountDue
  {
    assert Marked(s.calls[slot], s.calls[slot].id);
    forall other | other in s.calls && Marked(s.calls[other], s.calls[slot].id) ensures other == slot {
      assert Holds(s.calls[other], s.calls[slot].id) && Holds(s.calls[slot], s.calls[slot].id);
    }
  }

  lemma OutstandingNotNegative(s: Desk, p: PersonId)
    requires Sound(s)
    ensures 0 <= Owing(s, p)
    ensures forall i :: 0 <= i < |s.rows| && s.rows[i].provider == p ==> 0 <= Outstanding(s, i) <= Owing(s, p)
  {
    var column := Column(s, p);
    forall i | 0 <= i < |s.rows| ensures 0 <= Outstanding(s, i) {
      if s.rows[i].status.Verified? && HasMarked(s.calls, i) {
        var slot :| slot in s.calls && Marked(s.calls[slot], i);
        HeldIs(s, slot);
      }
    }
    TotalCovers(column, ITSELF);
    forall i | 0 <= i < |s.rows| && s.rows[i].provider == p ensures Outstanding(s, i) <= Owing(s, p) {
      assert ITSELF(column[i]) <= Total(column, ITSELF);
    }
  }

  /** Desks whose rows and held credits are the same but for one row owe the same but for that row. */
  lemma OwingDiffersAt(s: Desk, t: Desk, i: nat, p: PersonId)
    requires |t.rows| == |s.rows| && i < |s.rows| && forall j :: 0 <= j < |s.rows| ==> t.rows[j].provider == s.rows[j].provider
    requires forall j :: 0 <= j < |s.rows| && j != i ==> Outstanding(t, j) == Outstanding(s, j)
    ensures Owing(t, p) == Owing(s, p) + (if s.rows[i].provider == p then Outstanding(t, i) - Outstanding(s, i) else 0)
  {
    var a, b := Column(s, p), Column(t, p);
    assert b == a[i := b[i]];
    TotalUpdate(a, i, b[i], ITSELF);
  }

  lemma OwingSame(s: Desk, t: Desk, p: PersonId)
    requires |t.rows| == |s.rows| && forall j :: 0 <= j < |s.rows| ==> t.rows[j].provider == s.rows[j].provider
    requires forall j :: 0 <= j < |s.rows| ==> Outstanding(t, j) == Outstanding(s, j)
    ensures Owing(t, p) == Owing(s, p)
  {
    assert Column(t, p) == Column(s, p);
  }

  /** Held amounts depend only on which calls have passed their guard for a settlement. */
  lemma HeldSame(s: Desk, t: Desk, id: SettlementId)
    requires CallsSound(s.rows, s.calls) && CallsSound(t.rows, t.calls)
    requires forall x :: (x in s.calls && Marked(s.calls[x], id)) <==> (x in t.calls && Marked(t.calls[x], id))
    requires forall x :: x in s.calls && Marked(s.calls[x], id) ==> t.calls[x] == s.calls[x]
    ensures HeldAmount(t.calls, id) == HeldAmount(s.calls, id)
  {
    if HasMarked(t.calls, id) {
      var x :| x in t.calls && Marked(t.calls[x], id);
      assert x in s.calls && Marked(s.calls[x], id);
    }
    if HasMarked(s.calls, id) {
      var x :| x in s.calls && Marked(s.calls[x], id);
      assert x in t.calls && Marked(t.calls[x], id);
      HeldIs(s, x);
      HeldIs(t, x);
    }
  }

  // ----- steps that open no bill -------------------------------------------------------------

  predicate OpensNothing(step: Step) {
    !step.GenerateForMonth? && !step.Open?
  }

  /** A step that changes no row and no call past its guard. */
  lemma QuietStepSame(s: Desk, t: Desk, p: PersonId)
    requires Sound(s) && Sound(t) && |t.rows| == |s.rows|
    requires forall j :: 0 <= j < |s.rows| ==>
      && t.rows[j].provider == s.rows[j].provider && t.rows[j].amountDue == s.rows[j].amountDue
      && (t.rows[j].status.Verified? <==> s.rows[j].status.Verified?)
    requires forall x, id: SettlementId :: (x in s.calls && Marked(s.calls[x], id)) <==> (x in t.calls && Marked(t.calls[x], id))
    requires forall x, id: SettlementId :: x in s.calls && Marked(s.calls[x], id) ==> t.calls[x] == s.calls[x]
    ensures Owing(t, p) == Owing(s, p)
  {
    forall j | 0 <= j < |s.rows| ensures Outstanding(t, j) == Outstanding(s, j) {
      HeldSame(s, t, j);
    }
    OwingSame(s, t, p);
  }

  lemma MarkOwing(s: Desk, slot: CallId, id: SettlementId, seen: Settlement, p: PersonId)
    requires Sound(s) && slot in s.calls && s.calls[slot] == VerifyRead(id, seen)
    ensures Owing(DoMark(s, slot, id, seen), p) <= Owing(s, p)
  {
    var t := DoMark(s, slot, id, seen);
    MarkSound(s, slot, id, seen);
    if MarkVerified(s.rows, id).Err? {
      QuietStepSame(s, t, p);
    } else {
      HeldIs(t, slot);
      forall j | 0 <= j < |s.rows| && j != id ensures Outstanding(t, j) == Outstanding(s, j) {
        HeldSame(s, t, j);
      }
      OwingDiffersAt(s, t, id, p);
    }
  }

  /** A credit, or the death of the call that holds it, takes the held amount out. */
  lemma ReleaseOwing(s: Desk, t: Desk, slot: CallId, id: SettlementId, seen: Settlement, p: PersonId)
    requires Sound(s) && Sound(t) && slot in s.calls && s.calls[slot] == VerifyMarked(id, seen) && t.rows == s.rows
    requires t.calls == s.calls - {slot} || t.calls == s.calls[slot := VerifyLost(id, seen)]
    ensures Owing(t, p) == Owing(s, p) - (if s.rows[id].provider == p then seen.amountDue else 0)
  {
    HeldIs(s, slot);
    assert Holds(s.calls[slot], id);
    forall x | x in s.calls && Marked(s.calls[x], id) ensures x == slot {
      assert Holds(s.calls[x], id);
    }
    assert !HasMarked(t.calls, id);
    forall j | 0 <= j < |s.rows| && j != id ensures Outstanding(t, j) == Outstanding(s, j) {
      HeldSame(s, t, j);
    }
    OwingDiffersAt(s, t, id, p);
  }

  lemma CreditWithin(s: Desk, slot: CallId, id: SettlementId, seen: Settlement)
    requires Sound(s) && Within(s) && slot in s.calls && s.calls[slot] == VerifyMarked(id, seen)
    ensures Within(DoCredit(s, slot, id, seen))
  {
    var t := DoCredit(s, slot, id, seen);
    CreditSound(s, slot, id, seen);
    forall p ensures Owing(t, p) <= BalanceFor(t.ledger, p).owed {
      ReleaseOwing(s, t, slot, id, seen, p);
      BalanceAfterAppend(s.ledger, CreditEntry(id, seen), p);
    }
  }

  lemma AdvanceWithin(s: Desk, slot: CallId, step: Step)
    requires Sound(s) && Within(s) && slot in s.calls && OpensNothing(step)
    ensures Within(Advance(s, slot, step))
  {
    var t, call := Advance(s, slot, step), s.calls[slot];
    AdvanceSound(s, slot, step);
    if step.Credit? && call.VerifyMarked? {
      CreditWithin(s, slot, call.id, call.seen);
    } else {
      forall p ensures Owing(t, p) <= Owing(s, p) {
        if step.Mark? && call.VerifyRead? {
          MarkOwing(s, slot, call.id, call.seen, p);
        } else if step.Die? && call.VerifyMarked? {
          ReleaseOwing(s, t, slot, call.id, call.seen, p);
        } else {
          UnmarkedSame(s, slot, step, p);
        }
      }
    }
  }

  /** Only a slot that holds no credit changes, and rows change at most from one open status to another. */
  lemma QuietSlotSame(s: Desk, t: Desk, slot: CallId, p: PersonId)
    requires Sound(s) && Sound(t) && |t.rows| == |s.rows|
    requires forall j :: 0 <= j < |s.rows| ==>
      && t.rows[j].provider == s.rows[j].provider && t.rows[j].amountDue == s.rows[j].amountDue
      && (t.rows[j].status.Verified? <==> s.rows[j].status.Verified?)
    requires t.calls - {slot} == s.calls - {slot}
    requires (slot in s.calls ==> !s.calls[slot].VerifyMarked?) && (slot in t.calls ==> !t.calls[slot].VerifyMarked?)
    ensures Owing(t, p) == Owing(s, p)
  {
    forall x | x != slot ensures x in s.calls <==> x in t.calls && (x in s.calls ==> t.calls[x] == s.calls[x]) {
      assert x in s.calls <==> x in s.calls - {slot};
      assert x in t.calls <==> x in t.calls - {slot};
    }
    QuietStepSame(s, t, p);
  }

  lemma UnmarkedSame(s: Desk, slot: CallId, step: Step, p: PersonId)
    requires Sound(s) && slot in s.calls && OpensNothing(step)
    requires !(step.Mark? && s.calls[slot].VerifyRead?)
    requires !(s.calls[slot].VerifyMarked? && (step.Credit? || step.Die?))
    ensures Owing(Advance(s, slot, step), p) == Owing(s, p) && Advance(s, slot, step).ledger == s.ledger
  {
    var t, call := Advance(s, slot, step), s.calls[slot];
    AdvanceSound(s, slot, step);
    if step.List? && call.EnsureRead? {
      ListSame(s, slot, call.provider, call.owed, p);
    } else if step.FinishSubmit? && call.SubmitRead? {
      SubmitSame(s, slot, call.id, p);
    } else if step.Die? && !call.VerifyLost? {
      EndedSound(s, slot);
      QuietSlotSame(s, Ended(s, slot), slot, p);
    } else {
      assert t == s;
    }
  }

  lemma ListSame(s: Desk, slot: CallId, provider: PersonId, owed: Cents, p: PersonId)
    requires Sound(s) && slot in s.calls && s.calls[slot] == EnsureRead(provider, owed)
    ensures Owing(DoList(s, slot, provider, owed), p) == Owing(s, p) && DoList(s, slot, provider, owed).ledger == s.ledger
  {
    var listed := s.(calls := s.calls[slot := EnsureListed(provider, owed)]);
    EndedSound(s, slot);
    SlotSound(s, slot, EnsureListed(provider, owed));
    assert Ended(s, slot).calls - {slot} == s.calls - {slot} && listed.calls - {slot} == s.calls - {slot};
    QuietSlotSame(s, Ended(s, slot), slot, p);
    QuietSlotSame(s, listed, slot, p);
  }

  lemma SubmitSame(s: Desk, slot: CallId, id: SettlementId, p: PersonId)
    requires Sound(s) && slot in s.calls && s.calls[slot] == SubmitRead(id)
    ensures Owing(DoSubmit(s, slot, id), p) == Owing(s, p) && DoSubmit(s, slot, id).ledger == s.ledger
  {
    AdvanceSound(s, slot, FinishSubmit(slot));
    assert Advance(s, slot, FinishSubmit(slot)) == DoSubmit(s, slot, id);
    assert DoSubmit(s, slot, id).calls - {slot} == s.calls - {slot};
    QuietSlotSame(s, DoSubmit(s, slot, id), slot, p);
  }

  lemma NewCallSame(s: Desk, slot: CallId, call: Pending, p: PersonId)
    requires Sound(s) && slot !in s.calls && (call.VerifyRead? || call.EnsureRead? || call.SubmitRead?)
    requires call.VerifyRead? ==> call.id < |s.rows| && call.seen == s.rows[call.id]
    requires call.EnsureRead? ==> call.owed > 0
    ensures Owing(s.(calls := s.calls[slot := call]), p) == Owing(s, p)
  {
    var t := s.(calls := s.calls[slot := call]);
    SlotSound(s, slot, call);
    assert t.calls - {slot} == s.calls - {slot};
    QuietSlotSame(s, t, slot, p);
  }

  lemma StartedSame(s: Desk, step: Step, p: PersonId)
    requires Sound(s) && (step.BeginVerify? || step.BeginEnsure? || step.BeginSubmit?)
    ensures Owing(Apply(s, step), p) == Owing(s, p) && Apply(s, step).ledger == s.ledger
  {
    if step.slot !in s.calls {
      match step
      case BeginVerify(slot, id) => if id < |s.rows| { NewCallSame(s, slot, VerifyRead(id, s.rows[id]), p); }
      case BeginEnsure(slot, provider) =>
        var owed := BalanceFor(s.ledger, provider).owed;
        if owed > 0 { NewCallSame(s, slot, EnsureRead(provider, owed), p); }
      case BeginSubmit(slot, _, id, _) => NewCallSame(s, slot, SubmitRead(id), p);
    }
  }

  lemma WaitSame(s: Desk, months: nat, p: PersonId)
    requires Sound(s)
    ensures Owing(Apply(s, Wait(months)), p) == Owing(s, p)
  {
    OwingSame(s, Apply(s, Wait(months)), p);
  }

  lemma ChargeWithin(s: Desk, e: Entry)
    requires Sound(s) && Within(s) && e.kind.CommissionDebit? && ChecksHold(e)
    ensures Within(s.(ledger := s.ledger + [e]))
  {
    var t := s.(ledger := s.ledger + [e]);
    ChargeSound(s, e);
    forall p ensures Owing(t, p) <= BalanceFor(t.ledger, p).owed {
      QuietStepSame(s, t, p);
      BalanceAfterAppend(s.ledger, e, p);
    }
  }

  /** Charges, verifications, submissions, dying calls: whatever opens no bill keeps what is outstanding
      within the balances. */
  lemma SettlingKeeps(s: Desk, step: Step)
    requires Sound(s) && Within(s) && OpensNothing(step)
    ensures Within(Apply(s, step))
  {
    match step
    case Charge(e) => if e.kind.CommissionDebit? && ChecksHold(e) { ChargeWithin(s, e); }
    case Wait(months) => forall p ensures Owing(Apply(s, step), p) == Owing(s, p) { WaitSame(s, months, p); }
    case BeginVerify(_, _) => forall p ensures Owing(Apply(s, step), p) == Owing(s, p) { StartedSame(s, step, p); }
    case BeginEnsure(_, _) => forall p ensures Owing(Apply(s, step), p) == Owing(s, p) { StartedSame(s, step, p); }
    case BeginSubmit(_, _, _, _) => forall p ensures Owing(Apply(s, step), p) == Owing(s, p) { StartedSame(s, step, p); }
    case Mark(slot) => if slot in s.calls { AdvanceWithin(s, slot, step); }
    case Credit(slot) => if slot in s.calls { AdvanceWithin(s, slot, step); }
    case List(slot) => if slot in s.calls { AdvanceWithin(s, slot, step); }
    case FinishSubmit(slot) => if slot in s.calls { AdvanceWithin(s, slot, step); }
    case Die(slot) => if slot in s.calls { AdvanceWithin(s, slot, step); }
  }

  // ----- opening a bill ----------------------------------------------------------------------

  /** The check when bills are opened: with them, what is outstanding is within the balance. */
  ghost predicate OpensWithin(s: Desk, step: Step) {
    match step
    case GenerateForMonth(month, group) =>
      forall p :: p in group && RowFor(s.rows, p, month).None? && ChargedInMonth(s.ledger, p, month) > 0 ==>
        Owing(s, p) + ChargedInMonth(s.ledger, p, month) <= BalanceFor(s.ledger, p).owed
    case Open(slot) =>
      (slot in s.calls && s.calls[slot].EnsureListed? ==>
         var p, owed := s.calls[slot].provider, s.calls[slot].owed;
         Owing(s, p) + Raise(s.rows, p, s.month, owed) <= BalanceFor(s.ledger, p).owed)
    case _ => true
  }

  /** By how much an upsert raises what is outstanding. */
  function Raise(rows: seq<Settlement>, p: PersonId, month: nat, owed: Cents): Cents {
    match RowFor(rows, p, month)
    case None => owed
    case Some(id) => if rows[id].status.Verified? || owed <= rows[id].amountDue then 0 else owed - rows[id].amountDue
  }

  lemma AppendedOwing(s: Desk, row: Settlement, p: PersonId)
    requires !row.status.Verified?
    ensures Owing(s.(rows := s.rows + [row]), p) == Owing(s, p) + (if row.provider == p then row.amountDue else 0)
  {
    var t := s.(rows := s.rows + [row]);
    var a, b := Column(s, p), Column(t, p);
    assert b == a + [b[|a|]];
    TotalAppend(a, b[|a|], ITSELF);
  }

  lemma UpsertOwing(s: Desk, p: PersonId, owed: Cents, who: PersonId)
    ensures Owing(s.(rows := Upsert(s.rows, p, s.month, owed).0), who) ==
            Owing(s, who) + (if who == p then Raise(s.rows, p, s.month, owed) else 0)
  {
    var t := s.(rows := Upsert(s.rows, p, s.month, owed).0);
    match RowFor(s.rows, p, s.month)
    case None => AppendedOwing(s, Settlement(p, s.month, owed, Due), who);
    case Some(id) => OwingDiffersAt(s, t, id, who);
  }

  lemma OpenWithinIff(s: Desk, slot: CallId)
    requires Sound(s) && Within(s)
    ensures Within(Apply(s, Open(slot))) <==> OpensWithin(s, Open(slot))
  {
    if slot in s.calls && s.calls[slot].EnsureListed? {
      var p, owed := s.calls[slot].provider, s.calls[slot].owed;
      var ended := Ended(s, slot);
      EndedSound(s, slot);
      var t := ended.(rows := Upsert(s.rows, p, s.month, owed).0);
      assert Apply(s, Open(slot)) == t;
      forall who ensures Owing(t, who) == Owing(s, who) + (if who == p then Raise(s.rows, p, s.month, owed) else 0) {
        QuietStepSame(s, ended, who);
        UpsertOwing(ended, p, owed, who);
      }
      assert Owing(t, p) == Owing(s, p) + Raise(s.rows, p, s.month, owed);
    } else {
      assert Apply(s, Open(slot)) == s;
    }
  }

  /** What the month-end job bills a provider for. */
  function Billed(rows: seq<Settlement>, ledger: seq<Entry>, month: nat, group: seq<PersonId>, p: PersonId): Cents {
    if p in group && RowFor(rows, p, month).None? && ChargedInMonth(ledger, p, month) > 0 then ChargedInMonth(ledger, p, month) else 0
  }

  lemma {:induction false} GenerateOwing(s: Desk, month: nat, group: seq<PersonId>, p: PersonId)
    ensures Owing(s.(rows := Generate(s.rows, s.ledger, month, group)), p) == Owing(s, p) + Billed(s.rows, s.ledger, month, group, p)
    decreases |group|
  {
    if group != [] {
      var one := GenerateOne(s.rows, s.ledger, month, group[0]);
      var next := s.(rows := one);
      GenerateOwing(next, month, group[1..], p);
      GeneratedOneOwing(s, month, group[0], p);
      assert p in group <==> p == group[0] || p in group[1..];
      BilledOnce(s.rows, s.ledger, month, group[0], p);
    }
  }

  lemma GeneratedOneOwing(s: Desk, month: nat, q: PersonId, p: PersonId)
    ensures Owing(s.(rows := GenerateOne(s.rows, s.ledger, month, q)), p) ==
            Owing(s, p) + (if p == q then Billed(s.rows, s.ledger, month, [q], p) else 0)
  {
    var total := ChargedInMonth(s.ledger, q, month);
    if total > 0 && RowFor(s.rows, q, month).None? {
      AppendedOwing(s, Settlement(q, month, total, Due), p);
    }
  }

  lemma BilledOnce(rows: seq<Settlement>, ledger: seq<Entry>, month: nat, q: PersonId, p: PersonId)
    ensures var after := GenerateOne(rows, ledger, month, q);
            && (p != q ==> (RowFor(after, p, month).None? <==> RowFor(rows, p, month).None?))
            && (p == q && ChargedInMonth(ledger, q, month) > 0 ==> RowFor(after, q, month).Some?)
  {
    var after := GenerateOne(rows, ledger, month, q);
    if after != rows { assert after[..|rows|] == rows; }
  }

  lemma GenerateWithinIff(s: Desk, month: nat, group: seq<PersonId>)
    requires Within(s)
    ensures Within(Apply(s, GenerateForMonth(month, group))) <==> OpensWithin(s, GenerateForMonth(month, group))
  {
    var t := Apply(s, GenerateForMonth(month, group));
    forall p ensures Owing(t, p) == Owing(s, p) + Billed(s.rows, s.ledger, month, group, p) {
      GenerateOwing(s, month, group, p);
    }
    if Within(t) {
      forall p | p in group && RowFor(s.rows, p, month).None? && ChargedInMonth(s.ledger, p, month) > 0
        ensures Owing(s, p) + ChargedInMonth(s.ledger, p, month) <= BalanceFor(s.ledger, p).owed
      {
        assert Owing(t, p) <= BalanceFor(t.ledger, p).owed;
      }
    }
  }

  lemma StepWithinIff(s: Desk, step: Step)
    requires Sound(s) && Within(s)
    ensures Within(Apply(s, step)) <==> OpensWithin(s, step)
  {
    match step
    case GenerateForMonth(month, group) => GenerateWithinIff(s, month, group);
    case Open(slot) => OpenWithinIff(s, slot);
    case _ => SettlingKeeps(s, step);
  }

  // ----- runs --------------------------------------------------------------------------------

  lemma WithinIsNonNegative(s: Desk)
    requires Sound(s) && Within(s)
    ensures B.NoneNegative(s.ledger)
  {
    forall p ensures BalanceFor(s.ledger, p).owed >= 0 { OutstandingNotNegative(s, p); }
  }

  ghost predicate WithinThroughout(s: Desk, steps: seq<Step>)
    decreases |steps|
  {
    Within(s) && (steps != [] ==> WithinThroughout(Apply(s, steps[0]), steps[1..]))
  }

  ghost predicate AllOpenWithin(s: Desk, steps: seq<Step>)
    decreases |steps|
  {
    steps != [] ==> OpensWithin(s, steps[0]) && AllOpenWithin(Apply(s, steps[0]), steps[1..])
  }

  lemma {:induction false} RunWithinIff(s: Desk, steps: seq<Step>)
    requires Sound(s) && Within(s)
    ensures WithinThroughout(s, steps) <==> AllOpenWithin(s, steps)
    ensures AllOpenWithin(s, steps) ==> B.NeverNegative(s, steps)
    decreases |steps|
  {
    WithinIsNonNegative(s);
    if steps != [] {
      StepWithinIff(s, steps[0]);
      if Within(Apply(s, steps[0])) {
        ApplySound(s, steps[0]);
        RunWithinIff(Apply(s, steps[0]), steps[1..]);
      }
    }
  }

  lemma OpeningWithin()
    ensures Within(OPENING)
  {
    forall p ensures Owing(OPENING, p) == 0 { assert Column(OPENING, p) == []; }
  }

  /** Over every interleaving of all calls at their statements: if every bill, when it is opened, leaves
      what is outstanding within the balance, then no balance is ever negative; and what is outstanding is
      within the balances at every moment exactly if every bill does. */
  lemma BillsWithinBalanceIff(steps: seq<Step>)
    ensures WithinThroughout(OPENING, steps) <==> AllOpenWithin(OPENING, steps)
    ensures AllOpenWithin(OPENING, steps) ==> B.NeverNegative(OPENING, steps)
  {
    OpeningWithin();
    RunWithinIff(OPENING, steps);
  }

  // ----- nothing less is enough --------------------------------------------------------------

  lemma BoundOf(keys: set<CallId>) returns (n: CallId)
    ensures forall k :: k in keys ==> k < n
  {
    n := 0;
    if keys != {} {
      var k :| k in keys;
      var m := BoundOf(keys - {k});
      n := if m > k then m else k + 1;
      assert forall x :: x in keys ==> x == k || x in keys - {k};
    }
  }

  /** The next credit of a provider that has something outstanding. */
  lemma CreditHeld(s: Desk, slot: CallId, p: PersonId)
    requires Sound(s) && slot in s.calls && s.calls[slot].VerifyMarked? && s.rows[s.calls[slot].id].provider == p
    ensures var t, amount := Apply(s, Credit(slot)), s.calls[slot].seen.amountDue;
            && Sound(t) && amount > 0
            && Owing(t, p) == Owing(s, p) - amount && BalanceFor(t.ledger, p).owed == BalanceFor(s.ledger, p).owed - amount
  {
    var id, seen := s.calls[slot].id, s.calls[slot].seen;
    var t := Apply(s, Credit(slot));
    CreditSound(s, slot, id, seen);
    ReleaseOwing(s, t, slot, id, seen, p);
    BalanceAfterAppend(s.ledger, CreditEntry(id, seen), p);
  }

  lemma MarkFresh(s: Desk, slot: CallId, i: nat, p: PersonId)
    requires Sound(s) && slot !in s.calls && i < |s.rows| && !s.rows[i].status.Verified? && s.rows[i].provider == p
    ensures var t := Apply(Apply(s, BeginVerify(slot, i)), Mark(slot));
            && Sound(t) && slot in t.calls && t.calls[slot].VerifyMarked? && t.calls[slot].id == i
            && t.rows[i].provider == p && t.ledger == s.ledger && Owing(t, p) == Owing(s, p)
  {
    var read := Apply(s, BeginVerify(slot, i));
    assert read == s.(calls := s.calls[slot := VerifyRead(i, s.rows[i])]);
    ApplySound(s, BeginVerify(slot, i));
    StartedSame(s, BeginVerify(slot, i), p);
    MarkRead(read, slot, i, p);
  }

  lemma MarkRead(s: Desk, slot: CallId, i: nat, p: PersonId)
    requires Sound(s) && i < |s.rows| && !s.rows[i].status.Verified? && s.rows[i].provider == p
    requires slot in s.calls && s.calls[slot] == VerifyRead(i, s.rows[i])
    ensures var t := Apply(s, Mark(slot));
            && Sound(t) && slot in t.calls && t.calls[slot] == VerifyMarked(i, s.rows[i])
            && |t.rows| == |s.rows| && t.rows[i].provider == p && t.ledger == s.ledger && Owing(t, p) == Owing(s, p)
  {
    var t := DoMark(s, slot, i, s.rows[i]);
    assert Apply(s, Mark(slot)) == t;
    MarkSound(s, slot, i, s.rows[i]);
    HeldIs(t, slot);
    forall j | 0 <= j < |s.rows| && j != i ensures Outstanding(t, j) == Outstanding(s, j) {
      HeldSame(s, t, j);
    }
    OwingDiffersAt(s, t, i, p);
  }

  lemma SomethingOutstanding(s: Desk, p: PersonId) returns (i: nat)
    requires Sound(s) && Owing(s, p) > 0
    ensures i < |s.rows| && s.rows[i].provider == p && (!s.rows[i].status.Verified? || HasMarked(s.calls, i))
  {
    if forall j :: 0 <= j < |s.rows| && s.rows[j].provider == p ==> s.rows[j].status.Verified? && !HasMarked(s.calls, j) {
      TotalZero(Column(s, p), ITSELF);
    }
    i :| 0 <= i < |s.rows| && s.rows[i].provider == p && (!s.rows[i].status.Verified? || HasMarked(s.calls, i));
  }

  /** Every credit that is outstanding can be written, one after the other. */
  lemma {:induction false} CollectAll(s: Desk, p: PersonId) returns (steps: seq<Step>)
    requires Sound(s)
    ensures forall k :: 0 <= k < |steps| ==> OpensNothing(steps[k])
    ensures BalanceFor(Run(s, steps).ledger, p).owed == BalanceFor(s.ledger, p).owed - Owing(s, p)
    decreases Owing(s, p)
  {
    OutstandingNotNegative(s, p);
    if Owing(s, p) == 0 {
      steps := [];
    } else {
      var i := SomethingOutstanding(s, p);
      if s.rows[i].status.Verified? {
        var slot :| slot in s.calls && Marked(s.calls[slot], i);
        CreditHeld(s, slot, p);
        OutstandingNotNegative(Apply(s, Credit(slot)), p);
        var rest := CollectAll(Apply(s, Credit(slot)), p);
        steps := [Credit(slot)] + rest;
      } else {
        var slot := BoundOf(s.calls.Keys);
        MarkFresh(s, slot, i, p);
        var marked := Apply(Apply(s, BeginVerify(slot, i)), Mark(slot));
        CreditHeld(marked, slot, p);
        OutstandingNotNegative(Apply(marked, Credit(slot)), p);
        var rest := CollectAll(Apply(marked, Credit(slot)), p);
        steps := [BeginVerify(slot, i), Mark(slot), Credit(slot)] + rest;
        RunThreeThen(s, BeginVerify(slot, i), Mark(slot), Credit(slot), rest);
      }
    }
  }

  lemma RunThreeThen(s: Desk, a: Step, b: Step, c: Step, rest: seq<Step>)
    ensures Run(s, [a, b, c] + rest) == Run(Apply(Apply(Apply(s, a), b), c), rest)
  {
    assert ([a, b, c] + rest)[1..] == [b, c] + rest && ([b, c] + rest)[1..] == [c] + rest && ([c] + rest)[1..] == rest;
    assert Run(Apply(s, a), [b, c] + rest) == Run(Apply(Apply(s, a), b), [c] + rest);
  }

  /** No way to go on without opening a bill makes a balance negative. */
  ghost predicate Safe(s: Desk) {
    forall steps: seq<Step> :: (forall k :: 0 <= k < |steps| ==> OpensNothing(steps[k])) ==> B.NeverNegative(s, steps)
  }

  lemma {:induction false} SettlingNeverNegative(s: Desk, steps: seq<Step>)
    requires Sound(s) && Within(s) && forall k :: 0 <= k < |steps| ==> OpensNothing(steps[k])
    ensures B.NeverNegative(s, steps)
    decreases |steps|
  {
    WithinIsNonNegative(s);
    if steps != [] {
      SettlingKeeps(s, steps[0]);
      ApplySound(s, steps[0]);
      assert forall k :: 0 <= k < |steps[1..]| ==> steps[1..][k] == steps[k + 1];
      SettlingNeverNegative(Apply(s, steps[0]), steps[1..]);
    }
  }

  lemma {:induction false} NegativeAtTheEnd(s: Desk, steps: seq<Step>, p: PersonId)
    requires BalanceFor(Run(s, steps).ledger, p).owed < 0
    ensures !B.NeverNegative(s, steps)
    decreases |steps|
  {
    if steps != [] { NegativeAtTheEnd(Apply(s, steps[0]), steps[1..], p); }
  }

  /** On every sound desk, calls under way included: no order of verifications, charges and deaths makes a
      balance negative exactly if what is outstanding is within the balances. */
  lemma SafeIff(s: Desk)
    requires Sound(s)
    ensures Safe(s) <==> Within(s)
  {
    if Within(s) {
      forall steps: seq<Step> | forall k :: 0 <= k < |steps| ==> OpensNothing(steps[k]) ensures B.NeverNegative(s, steps) {
        SettlingNeverNegative(s, steps);
      }
    } else {
      var p :| Owing(s, p) > BalanceFor(s.ledger, p).owed;
      var steps := CollectAll(s, p);
      NegativeAtTheEnd(s, steps, p);
    }
  }
}
