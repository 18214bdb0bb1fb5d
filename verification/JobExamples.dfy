/** Short runs from an empty shop to states in which a property can be seen to fail. */
module JobExamples {
  import opened Tables
  import opened Money
  import opened Ledger
  import opened Transactions
  import opened Jobs
  import opened Payments
  import L = LifecycleRuns

  /** A call right after the last one. */
  function Now(call: Call): Step {
    Step(call, 0, 0)
  }

  lemma RunNow(rates: Rates, s: Shop, call: Call, rest: seq<Step>)
    ensures Run(rates, s, [Now(call)] + rest) == Run(rates, Apply(rates, s, call), rest)
  {
    var steps := [Now(call)] + rest;
    assert steps[1..] == rest;
    assert Elapsed(s, steps[0]) == s;
  }

  lemma RunOne(rates: Rates, s: Shop, call: Call)
    ensures Run(rates, s, [Now(call)]) == Apply(rates, s, call)
  {
    RunNow(rates, s, call, []);
    assert [Now(call)] + [] == [Now(call)];
  }

  function BillingSteps(provider: PersonId, amount: Cents): seq<Step> {
    [Now(OpenBooking(0, 0, false, Some(provider))), Now(ConfirmArrival(0, Provider)), Now(StartService(0)), Now(SetBill(0, amount))]
  }

  /** A job under way that has just been billed. */
  function BilledJob(owner: PersonId, provider: PersonId, amount: Cents): Shop {
    Shop(map[0 := owner],
         map[0 := Booking(0, false, Some(provider), AwaitingPayment, Some(0), None, Some(amount), true, false)],
         Book([BilledRow(owner, provider, amount)], []),
         Instant(0, 0))
  }

  function BilledRow(owner: PersonId, provider: PersonId, amount: Cents): Txn {
    Txn(Some(0), Some(0), owner, provider, "Vehicle service", amount, AwaitingConfirmation, None, None)
  }

  function StartedJob(owner: PersonId, provider: PersonId): Shop {
    Opening(map[0 := owner]).(bookings := map[0 := Booking(0, false, Some(provider), InProgress, Some(0), None, None, false, false)])
  }

  lemma StartedJobIsReached(rates: Rates, owner: PersonId, provider: PersonId)
    ensures Apply(rates, Apply(rates, Apply(rates, Opening(map[0 := owner]), OpenBooking(0, 0, false, Some(provider))),
                               ConfirmArrival(0, Provider)), StartService(0)) == StartedJob(owner, provider)
  {
    var k := Booking(0, false, Some(provider), Scheduled, None, None, None, false, false);
    var start := Opening(map[0 := owner]);
    assert Apply(rates, start, OpenBooking(0, 0, false, Some(provider))) == start.(bookings := map[0 := k]);
    var arrived := start.(bookings := map[0 := k.(phase := Arrived)]);
    assert Apply(rates, start.(bookings := map[0 := k]), ConfirmArrival(0, Provider)) == arrived;
    assert Apply(rates, arrived, StartService(0)) == StartedJob(owner, provider);
  }

  lemma BillStarted(rates: Rates, owner: PersonId, provider: PersonId, amount: Cents)
    requires amount > 0
    ensures Apply(rates, StartedJob(owner, provider), SetBill(0, amount)) == BilledJob(owner, provider, amount)
  {
    var started := StartedJob(owner, provider);
    var k := started.bookings[0].(bill := Some(amount), phase := AwaitingPayment, satisfied := true);
    var billed := started.(bookings := map[0 := k]);
    assert Apply(rates, started, SetBill(0, amount)) == RecordForJob(billed, 0, provider, amount);
  }

  /** Four calls lead to such a job. */
  lemma BilledJobIsReached(rates: Rates, owner: PersonId, provider: PersonId, amount: Cents)
    requires amount > 0
    ensures Run(rates, Opening(map[0 := owner]), BillingSteps(provider, amount)) == BilledJob(owner, provider, amount)
  {
    var steps := BillingSteps(provider, amount);
    var opened' := Apply(rates, Opening(map[0 := owner]), steps[0].call);
    assert steps == [steps[0]] + ([steps[1]] + ([steps[2]] + [steps[3]]));
    RunNow(rates, Opening(map[0 := owner]), steps[0].call, [steps[1]] + ([steps[2]] + [steps[3]]));
    RunNow(rates, opened', steps[1].call, [steps[2]] + [steps[3]]);
    RunNow(rates, Apply(rates, opened', steps[1].call), steps[2].call, [steps[3]]);
    StartedJobIsReached(rates, owner, provider);
    RunOne(rates, StartedJob(owner, provider), steps[3].call);
    BillStarted(rates, owner, provider, amount);
  }

  /** Whatever happens after the bill. */
  lemma BilledThenAll(rates: Rates, owner: PersonId, provider: PersonId, amount: Cents, steps: seq<Step>)
    requires amount > 0
    ensures Run(rates, Opening(map[0 := owner]), BillingSteps(provider, amount) + steps) ==
            Run(rates, BilledJob(owner, provider, amount), steps)
  {
    BilledJobIsReached(rates, owner, provider, amount);
    L.RunSplits(rates, Opening(map[0 := owner]), BillingSteps(provider, amount), steps);
  }

  /** Two calls after the bill. */
  lemma BilledThen(rates: Rates, owner: PersonId, provider: PersonId, amount: Cents, first: Call, second: Call)
    requires amount > 0
    ensures Run(rates, Opening(map[0 := owner]), BillingSteps(provider, amount) + [Now(first), Now(second)]) ==
            Apply(rates, Apply(rates, BilledJob(owner, provider, amount), first), second)
  {
    var billed := BilledJob(owner, provider, amount);
    BilledThenAll(rates, owner, provider, amount, [Now(first), Now(second)]);
    assert [Now(first), Now(second)] == [Now(first)] + [Now(second)];
    RunNow(rates, billed, first, [Now(second)]);
    RunOne(rates, Apply(rates, billed, first), second);
  }

  /** Paying a billed job whose trigger's share comes to a cent: the row is confirmed and has one debit. */
  lemma PaidJob(rates: Rates, owner: PersonId, provider: PersonId, amount: Cents)
    requires Commission(amount, rates.trigger) > 0 && amount > 0
    ensures var billed := BilledJob(owner, provider, amount);
            var row := BilledRow(owner, provider, amount).(status := TxnStatus.Confirmed,
                         confirmedAt := Some(billed.now), confirmedBy := Some(owner));
            Apply(rates, billed, ProviderConfirmPayment(0, true)) ==
            billed.(bookings := map[0 := billed.bookings[0].(phase := Paid, paymentConfirmed := true)],
                    book := Book([row], [TriggerEntry(rates, billed.now, 0, row)]))
  {
    var billed := BilledJob(owner, provider, amount);
    var k := billed.bookings[0];
    var row := ForcedRow(billed.book.txns[0], billed.now, 0, owner, amount);
    assert Newest(billed.book.txns, 0, 0) == Some(0);
    var forced := Forced(rates, billed.now, billed.book, 0, 0, owner, amount);
    assert forced == Book([row], [TriggerEntry(rates, billed.now, 0, row)]);
    assert After(forced, Confirm(rates, billed.now, forced, owner, 0)) == forced;
    assert AlreadyBooked(forced.ledger, Some(0), 0) by { assert forced.ledger[0].txn == Some(0); }
    assert Settled(rates, billed.now, billed.book, 0, k, owner) == forced;
  }

  /** A call that takes the paid job out of paid. */
  lemma PaidJobLeaves(rates: Rates, owner: PersonId, provider: PersonId, amount: Cents, call: Call)
    requires Commission(amount, rates.trigger) > 0 && amount > 0
    requires call == CustomerMarksPaid(0) || (call.SetBill? && call.id == 0 && call.amount > 0)
    ensures var paid := Run(rates, Opening(map[0 := owner]), BillingSteps(provider, amount) + [Now(ProviderConfirmPayment(0, true))]);
            var later := Run(rates, Opening(map[0 := owner]), BillingSteps(provider, amount) + [Now(ProviderConfirmPayment(0, true)), Now(call)]);
            && 0 in paid.bookings && paid.bookings[0].phase.Paid?
            && 0 in later.bookings && !later.bookings[0].phase.Paid?
  {
    var billed := BilledJob(owner, provider, amount);
    PaidJob(rates, owner, provider, amount);
    BilledThenAll(rates, owner, provider, amount, [Now(ProviderConfirmPayment(0, true))]);
    RunOne(rates, billed, ProviderConfirmPayment(0, true));
    BilledThen(rates, owner, provider, amount, ProviderConfirmPayment(0, true), call);
    L.PaidAfterIff(rates, Apply(rates, billed, ProviderConfirmPayment(0, true)), 0, call);
  }
}
