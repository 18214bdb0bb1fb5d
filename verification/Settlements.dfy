/** `provider_settlements`: the statements on it, and the calls that open, submit and verify a
    settlement. */
module Settlements {
  import opened Tables
  import opened Money
  import opened Ledger

  datatype SettlementStatus = Due | Submitted | Verified | Rejected | Overdue

  datatype Settlement = Settlement(provider: PersonId, period: nat, amountDue: Cents, status: SettlementStatus)

  datatype SettlementError =
    | NotFound | NotYours | Closed | NoReceipt | AlreadyVerified | CreditRejected | NothingOwed

  const LIST_LIMIT: nat := 24

  predicate IsOpen(st: Settlement) {
    st.status.Due? || st.status.Submitted? || st.status.Overdue?
  }

  // ----- statements --------------------------------------------------------------------------

  /** MarkSubmitted: guarded by `status <> 'verified'`, and silent about amount_due. */
  function MarkSubmitted(rows: seq<Settlement>, id: SettlementId): Result<seq<Settlement>, SettlementError> {
    if id >= |rows| || rows[id].status.Verified? then Err(AlreadyVerified)
    else Ok(rows[id := rows[id].(status := Submitted)])
  }

  /** MarkVerified: the same guard. */
  function MarkVerified(rows: seq<Settlement>, id: SettlementId): Result<seq<Settlement>, SettlementError> {
    if id >= |rows| || rows[id].status.Verified? then Err(AlreadyVerified)
    else Ok(rows[id := rows[id].(status := Verified)])
  }

  /** The credit of a settlement as the caller read it. */
  function CreditEntry(id: SettlementId, st: Settlement): Entry {
    Entry(st.provider, SettlementCredit, -st.amountDue, None, Some(id), None, None, st.period, None)
  }

  /** WriteCredit: a plain insert, rejected only by the sign check. */
  function WriteCredit(ledger: seq<Entry>, e: Entry): Result<seq<Entry>, SettlementError> {
    if ChecksHold(e) then Ok(ledger + [e]) else Err(CreditRejected)
  }

  /** `unique (provider_id, period_month)`: the row of a provider and month. */
  function RowFor(rows: seq<Settlement>, p: PersonId, month: nat): (found: Option<SettlementId>)
    ensures found.None? ==> forall i :: 0 <= i < |rows| ==> !(rows[i].provider == p && rows[i].period == month)
    ensures found.Some? ==>
      found.value < |rows| && rows[found.value].provider == p && rows[found.value].period == month
  {
    if rows == [] then None
    else
      var last := |rows| - 1;
      if rows[last].provider == p && rows[last].period == month then Some(last) else RowFor(rows[..last], p, month)
  }

  /** GenerateForMonth for one provider of the group: a positive month total and no row yet. */
  function GenerateOne(rows: seq<Settlement>, ledger: seq<Entry>, month: nat, p: PersonId): seq<Settlement> {
    var total := ChargedInMonth(ledger, p, month);
    if total > 0 && RowFor(rows, p, month).None? then rows + [Settlement(p, month, total, Due)] else rows
  }

  /** GenerateForMonth over the providers of the ledger, in the order the grouping yields them. */
  function Generate(rows: seq<Settlement>, ledger: seq<Entry>, month: nat, group: seq<PersonId>): seq<Settlement>
    decreases |group|
  {
    if group == [] then rows
    else Generate(GenerateOne(rows, ledger, month, group[0]), ledger, month, group[1..])
  }

  /** `insert ... on conflict (provider_id, period_month) do update set amount_due = greatest(...)`. */
  function Upsert(rows: seq<Settlement>, p: PersonId, month: nat, owed: Cents): (seq<Settlement>, SettlementId) {
    match RowFor(rows, p, month)
    case None => (rows + [Settlement(p, month, owed, Due)], |rows|)
    case Some(id) =>
      (rows[id := rows[id].(amountDue := if owed > rows[id].amountDue then owed else rows[id].amountDue)], id)
  }

  /** The provider's rows, latest period first. */
  function Listed(rows: seq<Settlement>, p: PersonId): (ids: seq<SettlementId>)
    ensures forall k :: 0 <= k < |ids| ==> ids[k] < |rows| && rows[ids[k]].provider == p
    ensures forall i :: 0 <= i < |rows| && rows[i].provider == p ==> i in ids
    ensures forall k, l :: 0 <= k < l < |ids| ==> rows[ids[k]].period >= rows[ids[l]].period
  {
    if rows == [] then []
    else
      var last := |rows| - 1;
      var front := Listed(rows[..last], p);
      ListingOfFront(rows, front, p);
      if rows[last].provider != p then front
      else
        var ids := InsertedByPeriod(rows, front, last);
        assert forall k :: 0 <= k < |ids| ==> ids[k] in ids;
        ids
  }

  /** A listing of all rows but the last is, read in the whole table, a listing of those same rows. */
  lemma ListingOfFront(rows: seq<Settlement>, front: seq<SettlementId>, p: PersonId)
    requires rows != []
    requires forall k :: 0 <= k < |front| ==> front[k] < |rows| - 1 && rows[..|rows| - 1][front[k]].provider == p
    requires forall i :: 0 <= i < |rows| - 1 && rows[..|rows| - 1][i].provider == p ==> i in front
    requires forall k, l :: 0 <= k < l < |front| ==> rows[..|rows| - 1][front[k]].period >= rows[..|rows| - 1][front[l]].period
    ensures forall k :: 0 <= k < |front| ==> front[k] < |rows| - 1 && rows[front[k]].provider == p
    ensures forall i :: 0 <= i < |rows| - 1 && rows[i].provider == p ==> i in front
    ensures forall k, l :: 0 <= k < l < |front| ==> rows[front[k]].period >= rows[front[l]].period
  {}

  function InsertedByPeriod(rows: seq<Settlement>, ids: seq<SettlementId>, id: SettlementId): (out: seq<SettlementId>)
    requires id < |rows| && forall k :: 0 <= k < |ids| ==> ids[k] < |rows|
    requires forall k, l :: 0 <= k < l < |ids| ==> rows[ids[k]].period >= rows[ids[l]].period
    ensures |out| == |ids| + 1
    ensures forall x :: x in out <==> x in ids || x == id
    ensures forall k :: 0 <= k < |out| ==> out[k] < |rows|
    ensures forall k, l :: 0 <= k < l < |out| ==> rows[out[k]].period >= rows[out[l]].period
  {
    if ids == [] then [id]
    else if rows[id].period > rows[ids[0]].period then [id] + ids
    else
      var rest := InsertedByPeriod(rows, ids[1..], id);
      assert forall k :: 0 <= k < |rest| ==> rest[k] in ids[1..] || rest[k] == id;
      [ids[0]] + rest
  }

  /** ListForProvider: `order by period_month desc limit 24`. */
  function ListForProvider(rows: seq<Settlement>, p: PersonId): (ids: seq<SettlementId>)
    ensures forall k :: 0 <= k < |ids| ==> ids[k] < |rows| && rows[ids[k]].provider == p
    ensures |ids| <= LIST_LIMIT
  {
    var all := Listed(rows, p);
    if |all| <= LIST_LIMIT then all else all[..LIST_LIMIT]
  }

  /** The first open row of a listing. */
  function FirstOpen(rows: seq<Settlement>, ids: seq<SettlementId>): (found: Option<SettlementId>)
    requires forall k :: 0 <= k < |ids| ==> ids[k] < |rows|
    ensures found.None? <==> forall k :: 0 <= k < |ids| ==> !IsOpen(rows[ids[k]])
    ensures found.Some? ==> found.value in ids && IsOpen(rows[found.value])
  {
    if ids == [] then None
    else if IsOpen(rows[ids[0]]) then Some(ids[0])
    else FirstOpen(rows, ids[1..])
  }

  predicate Distinct(ids: seq<SettlementId>) {
    forall k, l :: 0 <= k < l < |ids| ==> ids[k] != ids[l]
  }

  lemma {:induction false} InsertedOnce(rows: seq<Settlement>, ids: seq<SettlementId>, id: SettlementId)
    requires id < |rows| && forall k :: 0 <= k < |ids| ==> ids[k] < |rows|
    requires forall k, l :: 0 <= k < l < |ids| ==> rows[ids[k]].period >= rows[ids[l]].period
    requires Distinct(ids) && id !in ids
    ensures Distinct(InsertedByPeriod(rows, ids, id))
  {
    if ids != [] && rows[id].period <= rows[ids[0]].period {
      InsertedOnce(rows, ids[1..], id);
      var rest := InsertedByPeriod(rows, ids[1..], id);
      assert forall k :: 0 <= k < |rest| ==> rest[k] in ids[1..] || rest[k] == id;
    }
  }

  lemma {:induction false} ListedOnce(rows: seq<Settlement>, p: PersonId)
    ensures Distinct(Listed(rows, p))
  {
    if rows != [] {
      var last := |rows| - 1;
      var front := Listed(rows[..last], p);
      ListedOnce(rows[..last], p);
      ListingOfFront(rows, front, p);
      if rows[last].provider == p {
        InsertedOnce(rows, front, last);
      }
    }
  }

  /** The listing holds exactly the provider's rows, each once, latest period first. */
  lemma ListingIsExact(rows: seq<Settlement>, p: PersonId)
    ensures var ids := Listed(rows, p);
            && (forall i: nat :: i in ids <==> i < |rows| && rows[i].provider == p)
            && Distinct(ids)
            && (forall k, l :: 0 <= k < l < |ids| ==> rows[ids[k]].period >= rows[ids[l]].period)
  {
    ListedOnce(rows, p);
  }

  /** The loop stops at the first open row of the list, and runs through exactly if none is open. */
  lemma {:induction false} FirstOpenIsFirst(rows: seq<Settlement>, ids: seq<SettlementId>)
    requires forall k :: 0 <= k < |ids| ==> ids[k] < |rows|
    ensures match FirstOpen(rows, ids)
            case None => forall k :: 0 <= k < |ids| ==> !IsOpen(rows[ids[k]])
            case Some(id) =>
              exists k :: 0 <= k < |ids| && ids[k] == id && IsOpen(rows[ids[k]]) && forall j :: 0 <= j < k ==> !IsOpen(rows[ids[j]])
  {
    if ids != [] {
      if IsOpen(rows[ids[0]]) {
        assert ids[0] == FirstOpen(rows, ids).value;
      } else {
        FirstOpenIsFirst(rows, ids[1..]);
        if FirstOpen(rows, ids[1..]).Some? {
          var k :| 0 <= k < |ids[1..]| && ids[1..][k] == FirstOpen(rows, ids[1..]).value && IsOpen(rows[ids[1..][k]])
                   && forall j :: 0 <= j < k ==> !IsOpen(rows[ids[1..][j]]);
          assert forall j :: 0 < j < k + 1 ==> ids[j] == ids[1..][j - 1];
          assert ids[k + 1] == ids[1..][k];
        }
      }
    }
  }

  // ----- calls with nothing between their statements ------------------------------------------

  function CheckSubmit(rows: seq<Settlement>, p: PersonId, id: SettlementId, receipt: bool): Result<(), SettlementError> {
    if id >= |rows| then Err(NotFound)
    else if rows[id].provider != p then Err(NotYours)
    else if rows[id].status.Verified? then Err(Closed)
    else if !receipt then Err(NoReceipt)
    else Ok(())
  }

  function SubmitSettlement(rows: seq<Settlement>, p: PersonId, id: SettlementId, receipt: bool)
    : Result<seq<Settlement>, SettlementError>
  {
    match CheckSubmit(rows, p, id, receipt)
    case Err(e) => Err(e)
    case Ok(_) => MarkSubmitted(rows, id)
  }

  /** The rows and the ledger after VerifySettlement. Where only the credit fails, the row stays verified. */
  function VerifySettlement(rows: seq<Settlement>, ledger: seq<Entry>, id: SettlementId)
    : (seq<Settlement>, seq<Entry>, Result<(), SettlementError>)
  {
    if id >= |rows| then (rows, ledger, Err(NotFound))
    else if rows[id].status.Verified? then (rows, ledger, Err(Closed))
    else
      match MarkVerified(rows, id)
      case Err(e) => (rows, ledger, Err(e))
      case Ok(marked) =>
        (match WriteCredit(ledger, CreditEntry(id, rows[id]))
         case Err(e) => (marked, ledger, Err(e))
         case Ok(credited) => (marked, credited, Ok(())))
  }

  function EnsureOpenSettlement(rows: seq<Settlement>, ledger: seq<Entry>, p: PersonId, month: nat)
    : (seq<Settlement>, Result<SettlementId, SettlementError>)
  {
    var owed := BalanceFor(ledger, p).owed;
    if owed <= 0 then (rows, Err(NothingOwed))
    else
      match FirstOpen(rows, ListForProvider(rows, p))
      case Some(id) => (rows, Ok(id))
      case None =>
        var (after, id) := Upsert(rows, p, month, owed);
        (after, Ok(id))
  }
}
