/** Interleaved runs of the settlement calls. VerifySettlement is three statements with no surrounding
    transaction - a read, a guarded update, an insert of the credit it read - and a call may die
    between any two of them. */
module SettlementRuns {
  import opened Tables
  import opened Money
  import opened Ledger
  import opened Settlements

  type CallId = nat

  /** A call between two of its statements, with what it has read. */
  datatype Pending =
    | VerifyRead(id: SettlementId, seen: Settlement)
    | VerifyMarked(id: SettlementId, seen: Settlement)
    | VerifyLost(id: SettlementId, seen: Settlement)
    | EnsureRead(provider: PersonId, owed: Cents)
    | EnsureListed(provider: PersonId, owed: Cents)
    | SubmitRead(id: SettlementId)

  datatype Step =
    | Charge(e: Entry)
    | Wait(months: nat)
    | GenerateForMonth(month: nat, group: seq<PersonId>)
    | BeginVerify(slot: CallId, id: SettlementId)
    | Mark(slot: CallId)
    | Credit(slot: CallId)
    | BeginEnsure(slot: CallId, provider: PersonId)
    | List(slot: CallId)
    | Open(slot: CallId)
    | BeginSubmit(slot: CallId, provider: PersonId, id: SettlementId, receipt: bool)
    | FinishSubmit(slot: CallId)
    | Die(slot: CallId)

  datatype Desk = Desk(ledger: seq<Entry>, rows: seq<Settlement>, calls: map<CallId, Pending>, month: nat)

  const OPENING := Desk([], [], map[], 0)

  function Started(s: Desk, slot: CallId, p: Pending): Desk {
    if slot in s.calls then s else s.(calls := s.calls[slot := p])
  }

  function Ended(s: Desk, slot: CallId): Desk {
    s.(calls := s.calls - {slot})
  }

  function DoMark(s: Desk, slot: CallId, id: SettlementId, seen: Settlement): Desk {
    match MarkVerified(s.rows, id)
    case Err(_) => Ended(s, slot)
    case Ok(rows) => s.(rows := rows, calls := s.calls[slot := VerifyMarked(id, seen)])
  }

  function DoCredit(s: Desk, slot: CallId, id: SettlementId, seen: Settlement): Desk {
    match WriteCredit(s.ledger, CreditEntry(id, seen))
    case Err(_) => s.(calls := s.calls[slot := VerifyLost(id, seen)])
    case Ok(ledger) => Ended(s, slot).(ledger := ledger)
  }

  function DoList(s: Desk, slot: CallId, p: PersonId, owed: Cents): Desk {
    if FirstOpen(s.rows, ListForProvider(s.rows, p)).Some? then Ended(s, slot)
    else s.(calls := s.calls[slot := EnsureListed(p, owed)])
  }

  function DoSubmit(s: Desk, slot: CallId, id: SettlementId): Desk {
    match MarkSubmitted(s.rows, id)
    case Err(_) => Ended(s, slot)
    case Ok(rows) => Ended(s, slot).(rows := rows)
  }

  function Advance(s: Desk, slot: CallId, step: Step): Desk
    requires slot in s.calls
  {
    match (step, s.calls[slot])
    case (Mark(_), VerifyRead(id, seen)) => DoMark(s, slot, id, seen)
    case (Credit(_), VerifyMarked(id, seen)) => DoCredit(s, slot, id, seen)
    case (List(_), EnsureRead(p, owed)) => DoList(s, slot, p, owed)
    case (Open(_), EnsureListed(p, owed)) => Ended(s, slot).(rows := Upsert(s.rows, p, s.month, owed).0)
    case (FinishSubmit(_), SubmitRead(id)) => DoSubmit(s, slot, id)
    case (Die(_), VerifyMarked(id, seen)) => s.(calls := s.calls[slot := VerifyLost(id, seen)])
    case (Die(_), VerifyLost(_, _)) => s
    case (Die(_), _) => Ended(s, slot)
    case _ => s
  }

  function Apply(s: Desk, step: Step): Desk {
    match step
    case Charge(e) => if e.kind.CommissionDebit? && ChecksHold(e) then s.(ledger := s.ledger + [e]) else s
    case Wait(months) => s.(month := s.month + months)
    case GenerateForMonth(month, group) => s.(rows := Generate(s.rows, s.ledger, month, group))
    case BeginVerify(slot, id) =>
      if id < |s.rows| && !s.rows[id].status.Verified? then Started(s, slot, VerifyRead(id, s.rows[id])) else s
    case BeginEnsure(slot, p) =>
      var owed := BalanceFor(s.ledger, p).owed;
      if owed > 0 then Started(s, slot, EnsureRead(p, owed)) else s
    case BeginSubmit(slot, p, id, receipt) =>
      if CheckSubmit(s.rows, p, id, receipt).Ok? then Started(s, slot, SubmitRead(id)) else s
    case _ => if step.slot in s.calls then Advance(s, step.slot, step) else s
  }

  function Run(s: Desk, steps: seq<Step>): Desk
    decreases |steps|
  {
    if steps == [] then s else Run(Apply(s, steps[0]), steps[1..])
  }

  // ----- what every reachable state keeps ----------------------------------------------------

  predicate Holds(p: Pending, id: SettlementId) {
    (p.VerifyMarked? || p.VerifyLost?) && p.id == id
  }

  /** A call has passed its guard for `id` and not written its credit, or never will. */
  predicate Held(calls: map<CallId, Pending>, id: SettlementId) {
    exists slot :: slot in calls && Holds(calls[slot], id)
  }

  predicate HasId(p: Pending) {
    p.VerifyRead? || p.VerifyMarked? || p.VerifyLost?
  }

  ghost predicate RowsSound(rows: seq<Settlement>) {
    && (forall i :: 0 <= i < |rows| ==> rows[i].amountDue > 0)
    && (forall i, j :: 0 <= i < j < |rows| ==> rows[i].provider != rows[j].provider || rows[i].period != rows[j].period)
  }

  /** A read settlement is the row as it was, and rows only ever grow. */
  ghost predicate CallsSound(rows: seq<Settlement>, calls: map<CallId, Pending>) {
    && (forall slot :: slot in calls && HasId(calls[slot]) ==>
          var p := calls[slot];
          && p.id < |rows|
          && p.seen.provider == rows[p.id].provider && p.seen.period == rows[p.id].period
          && 0 < p.seen.amountDue <= rows[p.id].amountDue)
    && (forall slot :: slot in calls && (calls[slot].EnsureRead? || calls[slot].EnsureListed?) ==> calls[slot].owed > 0)
    && (forall slot, id: SettlementId :: slot in calls && Holds(calls[slot], id) ==> rows[id].status.Verified?)
    && (forall slot, slot', id: SettlementId :: slot in calls && slot' in calls && Holds(calls[slot], id) && Holds(calls[slot'], id) ==>
          slot == slot')
  }

  /** Every credit is for an existing settlement, its provider and month, and at most its amount. */
  predicate CreditFits(rows: seq<Settlement>, e: Entry) {
    && !e.kind.Adjustment?
    && (e.kind.CommissionDebit? ==> e.amount > 0)
    && (e.kind.SettlementCredit? ==>
          && e.settlement.Some? && e.settlement.value < |rows|
          && var st := rows[e.settlement.value];
             e.provider == st.provider && e.period == st.period && 0 < -e.amount <= st.amountDue)
  }

  ghost predicate LedgerSound(rows: seq<Settlement>, ledger: seq<Entry>) {
    forall k :: 0 <= k < |ledger| ==> CreditFits(rows, ledger[k])
  }

  /** A settlement has one credit if it is verified and no call holds it, and otherwise none. */
  ghost predicate CreditsSound(s: Desk) {
    forall i :: 0 <= i < |s.rows| ==>
      CreditCount(s.ledger, i) == if s.rows[i].status.Verified? && !Held(s.calls, i) then 1 else 0
  }

  ghost predicate Sound(s: Desk) {
    RowsSound(s.rows) && CallsSound(s.rows, s.calls) && LedgerSound(s.rows, s.ledger) && CreditsSound(s)
  }

  /** Rows are kept with their provider and month; amounts never fall; verified is for good. */
  predicate RowsGrow(before: seq<Settlement>, after: seq<Settlement>) {
    && |before| <= |after|
    && forall i :: 0 <= i < |before| ==>
         && after[i].provider == before[i].provider && after[i].period == before[i].period
         && before[i].amountDue <= after[i].amountDue
         && (before[i].status.Verified? ==> after[i].status.Verified?)
  }

  // ----- new and grown rows ------------------------------------------------------------------

  /** Rows that grow without verifying anything, and new rows that are not verified, keep the desk sound. */
  lemma GrowSound(s: Desk, rows: seq<Settlement>)
    requires Sound(s) && RowsSound(rows) && RowsGrow(s.rows, rows)
    requires forall i :: 0 <= i < |rows| && rows[i].status.Verified? ==> i < |s.rows| && s.rows[i].status.Verified?
    ensures Sound(s.(rows := rows))
  {
    forall k | 0 <= k < |s.ledger| ensures CreditFits(rows, s.ledger[k]) {
      assert CreditFits(s.rows, s.ledger[k]);
    }
    forall i | |s.rows| <= i < |rows| ensures CreditCount(s.ledger, i) == 0 {
      UnknownUncredited(s, i);
    }
  }

  lemma UnknownUncredited(s: Desk, id: SettlementId)
    requires LedgerSound(s.rows, s.ledger) && id >= |s.rows|
    ensures CreditCount(s.ledger, id) == 0
  {
    forall k | 0 <= k < |s.ledger| ensures CreditColumn(id)(s.ledger[k]) == 0 {
      assert CreditFits(s.rows, s.ledger[k]);
    }
    TotalZero(s.ledger, CreditColumn(id));
  }

  lemma {:induction false} GenerateGrows(rows: seq<Settlement>, ledger: seq<Entry>, month: nat, group: seq<PersonId>)
    requires RowsSound(rows)
    ensures var after := Generate(rows, ledger, month, group);
            && RowsSound(after) && RowsGrow(rows, after)
            && forall i :: 0 <= i < |after| && after[i].status.Verified? ==> i < |rows| && rows[i].status.Verified?
    decreases |group|
  {
    if group != [] {
      GenerateGrows(GenerateOne(rows, ledger, month, group[0]), ledger, month, group[1..]);
    }
  }

  lemma UpsertGrows(rows: seq<Settlement>, p: PersonId, month: nat, owed: Cents)
    requires RowsSound(rows) && owed > 0
    ensures var after := Upsert(rows, p, month, owed).0;
            && RowsSound(after) && RowsGrow(rows, after)
            && forall i :: 0 <= i < |after| && after[i].status.Verified? ==> i < |rows| && rows[i].status.Verified?
  {}

  // ----- the steps of a call -----------------------------------------------------------------

  lemma HeldSame(before: map<CallId, Pending>, after: map<CallId, Pending>, id: SettlementId)
    requires forall x :: (x in before && Holds(before[x], id)) <==> (x in after && Holds(after[x], id))
    ensures Held(before, id) == Held(after, id)
  {}

  lemma EndedSound(s: Desk, slot: CallId)
    requires Sound(s)
    requires slot in s.calls ==> !s.calls[slot].VerifyMarked? && !s.calls[slot].VerifyLost?
    ensures Sound(Ended(s, slot))
  {
    var calls := Ended(s, slot).calls;
    forall i | 0 <= i < |s.rows| ensures Held(calls, i) == Held(s.calls, i) {
      HeldSame(calls, s.calls, i);
    }
  }

  /** Replacing a pending read by another one that holds nothing. */
  lemma SlotSound(s: Desk, slot: CallId, p: Pending)
    requires Sound(s) && !p.VerifyMarked? && !p.VerifyLost?
    requires slot in s.calls ==> !s.calls[slot].VerifyMarked? && !s.calls[slot].VerifyLost?
    requires p.VerifyRead? ==> p.id < |s.rows| && p.seen == s.rows[p.id]
    requires p.EnsureRead? || p.EnsureListed? ==> p.owed > 0
    ensures Sound(s.(calls := s.calls[slot := p]))
  {
    var calls := s.calls[slot := p];
    forall i | 0 <= i < |s.rows| ensures Held(calls, i) == Held(s.calls, i) {
      HeldSame(calls, s.calls, i);
    }
  }

  /** The guard: exactly one call can move a settlement to verified, and it then holds it. */
  lemma MarkSound(s: Desk, slot: CallId, id: SettlementId, seen: Settlement)
    requires Sound(s) && slot in s.calls && s.calls[slot] == VerifyRead(id, seen)
    ensures Sound(DoMark(s, slot, id, seen))
  {
    var after := DoMark(s, slot, id, seen);
    if MarkVerified(s.rows, id).Err? {
      EndedSound(s, slot);
    } else {
      assert Holds(after.calls[slot], id);
      assert !Held(s.calls, id);
      forall i | 0 <= i < |s.rows| && i != id ensures Held(after.calls, i) == Held(s.calls, i) {
        HeldSame(after.calls, s.calls, i);
      }
      forall k | 0 <= k < |s.ledger| ensures CreditFits(after.rows, s.ledger[k]) {
        assert CreditFits(s.rows, s.ledger[k]);
      }
      forall x, y, i: SettlementId | x in after.calls && y in after.calls && Holds(after.calls[x], i) && Holds(after.calls[y], i)
        ensures x == y
      {
        assert forall z :: z in s.calls ==> !Holds(s.calls[z], id);
      }
    }
  }

  /** The credit: never rejected, and the only one for its settlement. */
  lemma CreditSound(s: Desk, slot: CallId, id: SettlementId, seen: Settlement)
    requires Sound(s) && slot in s.calls && s.calls[slot] == VerifyMarked(id, seen)
    ensures WriteCredit(s.ledger, CreditEntry(id, seen)).Ok?
    ensures Sound(DoCredit(s, slot, id, seen))
  {
    var after := DoCredit(s, slot, id, seen);
    var e := CreditEntry(id, seen);
    assert Holds(s.calls[slot], id) && Held(s.calls, id);
    forall i | 0 <= i < |s.rows|
      ensures CreditCount(after.ledger, i) == if after.rows[i].status.Verified? && !Held(after.calls, i) then 1 else 0
    {
      TotalAppend(s.ledger, e, CreditColumn(i));
      if i != id {
        HeldSame(after.calls, s.calls, i);
      }
    }
  }

  lemma LoseSound(s: Desk, slot: CallId, id: SettlementId, seen: Settlement)
    requires Sound(s) && slot in s.calls && s.calls[slot] == VerifyMarked(id, seen)
    ensures Sound(s.(calls := s.calls[slot := VerifyLost(id, seen)]))
  {
    var calls := s.calls[slot := VerifyLost(id, seen)];
    assert forall x, i: SettlementId :: x in calls ==> Holds(calls[x], i) == Holds(s.calls[x], i);
    forall i | 0 <= i < |s.rows| ensures Held(calls, i) == Held(s.calls, i) {
      HeldSame(calls, s.calls, i);
    }
  }

  lemma ChargeSound(s: Desk, e: Entry)
    requires Sound(s) && e.kind.CommissionDebit? && ChecksHold(e)
    ensures Sound(s.(ledger := s.ledger + [e]))
  {}

  lemma AdvanceSound(s: Desk, slot: CallId, step: Step)
    requires Sound(s) && slot in s.calls
    ensures Sound(Advance(s, slot, step))
  {
    match (step, s.calls[slot])
    case (Mark(_), VerifyRead(id, seen)) => MarkSound(s, slot, id, seen);
    case (Credit(_), VerifyMarked(id, seen)) => CreditSound(s, slot, id, seen);
    case (List(_), EnsureRead(p, owed)) =>
      EndedSound(s, slot);
      SlotSound(s, slot, EnsureListed(p, owed));
    case (Open(_), EnsureListed(p, owed)) =>
      EndedSound(s, slot);
      UpsertGrows(s.rows, p, s.month, owed);
      GrowSound(Ended(s, slot), Upsert(s.rows, p, s.month, owed).0);
    case (FinishSubmit(_), SubmitRead(id)) =>
      EndedSound(s, slot);
      if MarkSubmitted(s.rows, id).Ok? {
        GrowSound(Ended(s, slot), MarkSubmitted(s.rows, id).value);
      }
    case (Die(_), VerifyMarked(id, seen)) => LoseSound(s, slot, id, seen);
    case (Die(_), VerifyLost(_, _)) =>
    case (Die(_), _) => EndedSound(s, slot);
    case _ =>
  }

  lemma ApplySound(s: Desk, step: Step)
    requires Sound(s)
    ensures Sound(Apply(s, step))
  {
    match step
    case Charge(e) => if e.kind.CommissionDebit? && ChecksHold(e) { ChargeSound(s, e); }
    case Wait(_) =>
    case GenerateForMonth(month, group) =>
      GenerateGrows(s.rows, s.ledger, month, group);
      GrowSound(s, Generate(s.rows, s.ledger, month, group));
    case BeginVerify(slot, id) =>
      if id < |s.rows| && slot !in s.calls { SlotSound(s, slot, VerifyRead(id, s.rows[id])); }
    case BeginEnsure(slot, p) =>
      var owed := BalanceFor(s.ledger, p).owed;
      if owed > 0 && slot !in s.calls { SlotSound(s, slot, EnsureRead(p, owed)); }
    case BeginSubmit(slot, p, id, receipt) =>
      if slot !in s.calls { SlotSound(s, slot, SubmitRead(id)); }
    case _ => if step.slot in s.calls { AdvanceSound(s, step.slot, step); }
  }

  lemma {:induction false} RunSound(s: Desk, steps: seq<Step>)
    requires Sound(s)
    ensures Sound(Run(s, steps))
    decreases |steps|
  {
    if steps != [] {
      ApplySound(s, steps[0]);
      RunSound(Apply(s, steps[0]), steps[1..]);
    }
  }

  // ----- at most one credit, and none lost unless a call dies --------------------------------

  function VerifiedIds(s: Desk): set<SettlementId> {
    set i | 0 <= i < |s.rows| && s.rows[i].status.Verified?
  }

  function CreditedIds(s: Desk): set<SettlementId> {
    set i | 0 <= i < |s.rows| && CreditCount(s.ledger, i) > 0
  }

  function HeldIds(s: Desk): set<SettlementId> {
    set i | 0 <= i < |s.rows| && Held(s.calls, i)
  }

  predicate Idle(s: Desk) {
    forall slot :: slot in s.calls ==> !s.calls[slot].VerifyMarked? && !s.calls[slot].VerifyLost?
  }

  /** In every state that interleaved calls can reach, the verified settlements are the disjoint union
      of the credited ones and those held by a call between its guard and its credit, dead or alive;
      no settlement has two credits; and with no call in between, each verified one has exactly one. */
  lemma VerifiedIsCreditedPlusHeld(steps: seq<Step>)
    ensures var s := Run(OPENING, steps);
            && VerifiedIds(s) == CreditedIds(s) + HeldIds(s) && CreditedIds(s) !! HeldIds(s)
            && (forall id: SettlementId :: CreditCount(s.ledger, id) <= 1)
            && (Idle(s) ==> forall id :: id in VerifiedIds(s) ==> CreditCount(s.ledger, id) == 1)
  {
    RunSound(OPENING, steps);
    var s := Run(OPENING, steps);
    forall id: SettlementId ensures CreditCount(s.ledger, id) <= 1 {
      if id >= |s.rows| { UnknownUncredited(s, id); }
    }
    assert forall id: SettlementId :: Held(s.calls, id) ==> id < |s.rows|;
  }

  lemma ApplyKeepsLost(s: Desk, step: Step, slot: CallId)
    requires slot in s.calls && s.calls[slot].VerifyLost?
    ensures slot in Apply(s, step).calls && Apply(s, step).calls[slot] == s.calls[slot]
  {}

  /** A call that dies between its guard and its credit loses the credit for good: the settlement stays
      verified and no later run of calls writes a credit for it. */
  lemma {:induction false} LostIsNeverCredited(s: Desk, slot: CallId, steps: seq<Step>)
    requires Sound(s) && slot in s.calls && s.calls[slot].VerifyLost?
    ensures var later, id := Run(s, steps), s.calls[slot].id;
            && id < |later.rows| && later.rows[id].status.Verified? && CreditCount(later.ledger, id) == 0
    decreases |steps|
  {
    if steps != [] {
      ApplySound(s, steps[0]);
      ApplyKeepsLost(s, steps[0], slot);
      LostIsNeverCredited(Apply(s, steps[0]), slot, steps[1..]);
    } else {
      assert Holds(s.calls[slot], s.calls[slot].id);
    }
  }

  // ----- amounts -----------------------------------------------------------------------------

  lemma ApplyGrows(s: Desk, step: Step)
    requires Sound(s)
    ensures RowsGrow(s.rows, Apply(s, step).rows)
  {
    match step
    case GenerateForMonth(month, group) => GenerateGrows(s.rows, s.ledger, month, group);
    case Open(slot) =>
      if slot in s.calls && s.calls[slot].EnsureListed? {
        UpsertGrows(s.rows, s.calls[slot].provider, s.month, s.calls[slot].owed);
      }
    case _ =>
  }

  lemma {:induction false} RunGrows(s: Desk, steps: seq<Step>)
    requires Sound(s)
    ensures RowsGrow(s.rows, Run(s, steps).rows)
    decreases |steps|
  {
    if steps != [] {
      ApplySound(s, steps[0]);
      ApplyGrows(s, steps[0]);
      RunGrows(Apply(s, steps[0]), steps[1..]);
    }
  }

  /** Whatever mix of calls runs, and however stale their reads: an amount due is positive and never
      falls, no credit exceeds the current amount of its settlement, and the credit of a call that has
      passed its guard always satisfies the sign check, so VerifySettlement never stops half-way on it. */
  lemma AmountsNeverFallAndCreditsFit(first: seq<Step>, second: seq<Step>)
    ensures var early := Run(OPENING, first);
            var late := Run(early, second);
            && RowsGrow(early.rows, late.rows)
            && (forall i :: 0 <= i < |late.rows| ==> late.rows[i].amountDue > 0)
            && LedgerSound(late.rows, late.ledger)
            && (forall slot :: slot in late.calls && late.calls[slot].VerifyMarked? ==>
                  WriteCredit(late.ledger, CreditEntry(late.calls[slot].id, late.calls[slot].seen)).Ok?)
  {
    RunSound(OPENING, first);
    RunGrows(Run(OPENING, first), second);
    RunSound(Run(OPENING, first), second);
  }
}
