/** What the settlement calls do to the tables, field by field. */
module SettlementEffects {
  import opened Tables
  import opened Money
  import opened Ledger
  import opened Settlements

  /** SubmitSettlement: for the provider's own settlement, not yet verified, with a receipt or a reference; it
      is then submitted, and nothing else about it changes. */
  lemma SubmitEffect(rows: seq<Settlement>, p: PersonId, id: SettlementId, receipt: bool)
    ensures var outcome := SubmitSettlement(rows, p, id, receipt);
            && (outcome == Err(NotFound) <==> id >= |rows|)
            && (outcome == Err(NotYours) <==> id < |rows| && rows[id].provider != p)
            && (outcome == Err(Closed) <==> id < |rows| && rows[id].provider == p && rows[id].status == Verified)
            && (outcome == Err(NoReceipt) <==> id < |rows| && rows[id].provider == p && rows[id].status != Verified && !receipt)
            && (outcome.Ok? <==> id < |rows| && rows[id].provider == p && rows[id].status != Verified && receipt)
            && (outcome.Ok? ==> outcome.value == rows[id := Settlement(rows[id].provider, rows[id].period, rows[id].amountDue, Submitted)])
  {}

  /** VerifySettlement: once, for any settlement with a positive amount; the row is verified and its amount
      credited to its provider, in its month. */
  lemma VerifyEffect(rows: seq<Settlement>, ledger: seq<Entry>, id: SettlementId)
    ensures var (after, entries, outcome) := VerifySettlement(rows, ledger, id);
            && (outcome == Err(NotFound) <==> id >= |rows|)
            && (outcome == Err(Closed) <==> id < |rows| && rows[id].status == Verified)
            && (outcome == Err(CreditRejected) <==> id < |rows| && rows[id].status != Verified && rows[id].amountDue <= 0)
            && (outcome.Ok? <==> id < |rows| && rows[id].status != Verified && rows[id].amountDue > 0)
            && after == (if id < |rows| then rows[id := Settlement(rows[id].provider, rows[id].period, rows[id].amountDue, Verified)] else rows)
            && entries == (if outcome.Ok?
                           then ledger + [Entry(rows[id].provider, SettlementCredit, -rows[id].amountDue, None, Some(id), None, None,
                                                rows[id].period, None)]
                           else ledger)
  {
    if id < |rows| && rows[id].status == Verified { assert rows[id := rows[id]] == rows; }
  }

  /** The list is the first 24 of the provider's rows, latest period first, or all of them. */
  lemma ListEffect(rows: seq<Settlement>, p: PersonId)
    ensures var ids, all := ListForProvider(rows, p), Listed(rows, p);
            && ids <= all && |ids| == (if |all| < 24 then |all| else 24)
            && (forall i: nat :: i in all <==> i < |rows| && rows[i].provider == p) && Distinct(all)
            && forall k, l :: 0 <= k < l < |all| ==> rows[all[k]].period >= rows[all[l]].period
  {
    ListingIsExact(rows, p);
  }

  predicate OpenRow(st: Settlement) {
    st.status in {Due, Submitted, Overdue}
  }

  /** EnsureOpenSettlement: nothing for a provider that owes nothing. Otherwise the first open row of the list,
      as it is; failing that this month's row, raised to the balance if that is more; failing that a new row
      for the balance, due. */
  lemma EnsureEffect(rows: seq<Settlement>, ledger: seq<Entry>, p: PersonId, month: nat)
    ensures var (after, outcome) := EnsureOpenSettlement(rows, ledger, p, month);
            var owed, ids := BalanceFor(ledger, p).owed, ListForProvider(rows, p);
            if owed <= 0 then after == rows && outcome == Err(NothingOwed)
            else if exists k :: 0 <= k < |ids| && OpenRow(rows[ids[k]]) then
              after == rows && exists k :: 0 <= k < |ids| && outcome == Ok(ids[k]) && OpenRow(rows[ids[k]])
                                          && forall j :: 0 <= j < k ==> !OpenRow(rows[ids[j]])
            else if exists i :: 0 <= i < |rows| && rows[i].provider == p && rows[i].period == month then
              outcome.Ok? && RaisedTo(rows, after, outcome.value, p, month, owed)
            else after == rows + [Settlement(p, month, owed, Due)] && outcome == Ok(|rows|)
  {
    var owed, ids := BalanceFor(ledger, p).owed, ListForProvider(rows, p);
    FirstOpenIsFirst(rows, ids);
    OpenInList(rows, ids);
    if owed > 0 && FirstOpen(rows, ids).None? {
      UpsertEffect(rows, p, month, owed);
    }
  }

  predicate RaisedTo(rows: seq<Settlement>, after: seq<Settlement>, id: SettlementId, p: PersonId, month: nat, owed: Cents) {
    && id < |rows| && rows[id].provider == p && rows[id].period == month
    && after == rows[id := Settlement(p, month, if owed > rows[id].amountDue then owed else rows[id].amountDue, rows[id].status)]
  }

  lemma OpenInList(rows: seq<Settlement>, ids: seq<SettlementId>)
    requires forall k :: 0 <= k < |ids| ==> ids[k] < |rows|
    ensures FirstOpen(rows, ids).Some? <==> exists k :: 0 <= k < |ids| && OpenRow(rows[ids[k]])
    ensures forall st :: OpenRow(st) <==> IsOpen(st)
  {}

  lemma UpsertEffect(rows: seq<Settlement>, p: PersonId, month: nat, owed: Cents)
    ensures var (after, id) := Upsert(rows, p, month, owed);
            if exists i :: 0 <= i < |rows| && rows[i].provider == p && rows[i].period == month
            then RaisedTo(rows, after, id, p, month, owed)
            else after == rows + [Settlement(p, month, owed, Due)] && id == |rows|
  {}
}
