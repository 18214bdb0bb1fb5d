/** What the two booking services together keep about a booking's phase and time stamps. */
module LifecycleRuns {
  import opened Tables
  import opened Money
  import opened Ledger
  import opened Transactions
  import opened Jobs

  predicate PreArrival(p: Phase) {
    p.Scheduled? || p.EnRoute? || p.AwaitingCustomer?
  }

  /** Stamps lie in the past; work has a start; a finished job finished after it started; nothing has
      started before or at arrival; a paid phase is a confirmed payment. */
  predicate Sane(k: Booking, clock: nat) {
    && (k.startedAt.Some? ==> k.startedAt.value <= clock)
    && (k.completedAt.Some? ==> k.completedAt.value <= clock)
    && (PreArrival(k.phase) || k.phase.Arrived? ==> k.startedAt.None?)
    && (k.phase.InProgress? ==> k.startedAt.Some?)
    && (k.phase.AwaitingSatisfaction? ==>
          k.startedAt.Some? && k.completedAt.Some? && k.startedAt.value <= k.completedAt.value)
    && (k.phase.Paid? ==> k.paymentConfirmed)
  }

  ghost predicate AllSane(s: Shop) {
    forall b :: b in s.bookings ==> Sane(s.bookings[b], s.now.tick)
  }

  /** One booking at an earlier and a later moment: once left, the phases before arrival are not
      entered again, nor is arrival once work has begun; the start is stamped at most once; a
      confirmed payment stays confirmed; and the request and the provider never change. */
  predicate Progresses(before: Booking, after: Booking) {
    && (!PreArrival(before.phase) ==> !PreArrival(after.phase))
    && (!PreArrival(before.phase) && !before.phase.Arrived? ==> !after.phase.Arrived?)
    && (before.startedAt.Some? ==> after.startedAt == before.startedAt)
    && (before.paymentConfirmed ==> after.paymentConfirmed)
    && after.request == before.request && after.provider == before.provider
  }

  ghost predicate AllProgress(before: Shop, after: Shop) {
    && before.now.tick <= after.now.tick
    && forall b :: b in before.bookings ==> b in after.bookings && Progresses(before.bookings[b], after.bookings[b])
  }

  lemma PutSane(s: Shop, b: BookingId, k: Booking)
    requires AllSane(s) && b in s.bookings
    requires Sane(k, s.now.tick) && Progresses(s.bookings[b], k)
    ensures AllSane(Put(s, b, k)) && AllProgress(s, Put(s, b, k))
  {}

  lemma SetStatusSane(s: Shop, b: BookingId, to: Phase, q: Quote)
    requires AllSane(s)
    ensures AllSane(AfterJob(s, DoSetStatus(s, b, to, q))) && AllProgress(s, AfterJob(s, DoSetStatus(s, b, to, q)))
  {
    if DoSetStatus(s, b, to, q).Ok? && s.bookings[b].phase != to {
      PutSane(s, b, Stamped(s.bookings[b], to, s.now.tick));
    }
  }

  lemma ApplySane(rates: Rates, s: Shop, call: Call)
    requires AllSane(s)
    ensures AllSane(Apply(rates, s, call)) && AllProgress(s, Apply(rates, s, call))
  {
    match call
    case SetStatus(id, to, quote) => SetStatusSane(s, id, to, quote);
    case OpenBooking(_, _, _, _) =>
    case Record(_, _) =>
    case ConfirmTxn(_, _) =>
    case DisputeTxn(_, _) =>
    case AutoBill(_, _) =>
    case _ => JobCallSane(rates, s, call);
  }

  lemma JobCallSane(rates: Rates, s: Shop, call: Call)
    requires AllSane(s)
    requires !call.OpenBooking? && !call.Record? && !call.ConfirmTxn? && !call.DisputeTxn? && !call.AutoBill? && !call.SetStatus?
    ensures AllSane(Apply(rates, s, call)) && AllProgress(s, Apply(rates, s, call))
  {
    var b := call.id;
    if b in s.bookings {
      match call
      case ProviderDeny(_) => PutSane(s, b, s.bookings[b].(phase := Phase.Cancelled));
      case CustomerUnsatisfied(_) => PutSane(s, b, s.bookings[b].(phase := NeedsRework, satisfied := false));
      case RestartService(_) =>
        var k := s.bookings[b];
        PutSane(s, b, k.(phase := InProgress, startedAt := Coalesce(k.startedAt, Some(s.now.tick))));
      case SetBill(_, _) => PayCallSane(rates, s, call);
      case CustomerMarksPaid(_) => PayCallSane(rates, s, call);
      case ProviderConfirmPayment(_, _) => PayCallSane(rates, s, call);
      case _ => WorkCallSane(rates, s, call);
    }
  }

  lemma PayCallSane(rates: Rates, s: Shop, call: Call)
    requires AllSane(s) && (call.SetBill? || call.CustomerMarksPaid? || call.ProviderConfirmPayment?) && call.id in s.bookings
    ensures AllSane(Apply(rates, s, call)) && AllProgress(s, Apply(rates, s, call))
  {
    var b := call.id;
    match call
    case SetBill(_, amount) =>
      if DoSetBill(s, b, amount).Ok? {
        PutSane(s, b, s.bookings[b].(bill := Some(amount), phase := AwaitingPayment, satisfied := true));
      }
    case CustomerMarksPaid(_) => PutSane(s, b, s.bookings[b].(phase := CustomerClaimsPaid));
    case ProviderConfirmPayment(_, received) => ConfirmPaymentSane(rates, s, b, received);
  }

  lemma ConfirmPaymentSane(rates: Rates, s: Shop, b: BookingId, received: bool)
    requires AllSane(s) && b in s.bookings
    ensures var after := Apply(rates, s, ProviderConfirmPayment(b, received)); AllSane(after) && AllProgress(s, after)
  {
    var k := s.bookings[b];
    var written := Put(s, b, if received then k.(phase := Paid, paymentConfirmed := true) else k.(phase := PaymentRejected));
    PutSane(s, b, written.bookings[b]);
    var after := Apply(rates, s, ProviderConfirmPayment(b, received));
    assert after == written.(book := after.book);
  }

  lemma WorkCallSane(rates: Rates, s: Shop, call: Call)
    requires AllSane(s) && (call.ConfirmArrival? || call.StartService? || call.FinishService? || call.ConfirmSatisfaction?)
    ensures AllSane(Apply(rates, s, call)) && AllProgress(s, Apply(rates, s, call))
  {
    var b := call.id;
    match call
    case ConfirmArrival(_, role) =>
      if DoConfirmArrival(s, b, role).Ok? { PutSane(s, b, s.bookings[b].(phase := Arrived)); }
    case StartService(_) =>
      if DoStart(s, b).Ok? { PutSane(s, b, s.bookings[b].(phase := InProgress, startedAt := Some(s.now.tick))); }
    case FinishService(_) =>
      if DoFinish(s, b).Ok? { PutSane(s, b, s.bookings[b].(phase := AwaitingSatisfaction, completedAt := Some(s.now.tick))); }
    case ConfirmSatisfaction(_) =>
      if DoSatisfy(s, b).Ok? { PutSane(s, b, s.bookings[b].(phase := Billed, satisfied := true)); }
  }

  lemma {:induction false} RunSane(rates: Rates, s: Shop, steps: seq<Step>)
    requires AllSane(s)
    ensures AllSane(Run(rates, s, steps)) && AllProgress(s, Run(rates, s, steps))
    decreases |steps|
  {
    if steps != [] {
      ApplySane(rates, Elapsed(s, steps[0]), steps[0].call);
      RunSane(rates, Next(rates, s, steps[0]), steps[1..]);
    }
  }

  lemma {:induction false} RunSplits(rates: Rates, s: Shop, first: seq<Step>, second: seq<Step>)
    ensures Run(rates, s, first + second) == Run(rates, Run(rates, s, first), second)
    decreases |first|
  {
    if first == [] {
      assert first + second == second;
    } else {
      assert (first + second)[1..] == first[1..] + second;
      RunSplits(rates, Next(rates, s, first[0]), first[1..], second);
    }
  }

  /** Over all runs of all calls of both services, at every moment and between any two moments. */
  lemma StampsAndPhases(rates: Rates, owners: map<RequestId, PersonId>, first: seq<Step>, second: seq<Step>)
    ensures var early := Run(rates, Opening(owners), first);
            var late := Run(rates, Opening(owners), first + second);
            AllSane(early) && AllSane(late) && AllProgress(early, late)
  {
    RunSane(rates, Opening(owners), first);
    RunSplits(rates, Opening(owners), first, second);
    RunSane(rates, Run(rates, Opening(owners), first), second);
  }

  // ----- paid --------------------------------------------------------------------------------

  /** The calls that take a paid booking out of paid. */
  predicate LeavesPaid(k: Booking, b: BookingId, call: Call) {
    match call
    case SetBill(id, amount) => id == b && k.satisfied && amount > 0
    case ConfirmSatisfaction(id) => id == b && k.completedAt.Some?
    case CustomerMarksPaid(id) => id == b
    case ProviderConfirmPayment(id, received) => id == b && !received
    case ProviderDeny(id) => id == b
    case CustomerUnsatisfied(id) => id == b
    case RestartService(id) => id == b
    case _ => false
  }

  /** Whatever the call: a booking is paid after it exactly if the call is its payment confirmation, or it
      was paid before and the call is none of those. */
  lemma PaidAfterIff(rates: Rates, s: Shop, b: BookingId, call: Call)
    requires b in s.bookings
    ensures var after := Apply(rates, s, call);
            && b in after.bookings
            && (after.bookings[b].phase.Paid?
                <==> || call == ProviderConfirmPayment(b, true)
                     || (s.bookings[b].phase.Paid? && !LeavesPaid(s.bookings[b], b, call)))
  {
    if call.SetStatus? && call.id == b { SetStatusNeverPays(s, b, call.to, call.quote); }
  }

  /** The booking service neither enters paid nor leaves it. */
  lemma SetStatusNeverPays(s: Shop, b: BookingId, to: Phase, q: Quote)
    requires b in s.bookings
    ensures AfterJob(s, DoSetStatus(s, b, to, q)).bookings[b].phase.Paid? <==> s.bookings[b].phase.Paid?
  {}

  ghost predicate PaidThroughout(rates: Rates, s: Shop, b: BookingId, steps: seq<Step>)
    decreases |steps|
  {
    && b in s.bookings && s.bookings[b].phase.Paid?
    && (steps != [] ==> PaidThroughout(rates, Next(rates, s, steps[0]), b, steps[1..]))
  }

  ghost predicate NoneLeavesPaid(rates: Rates, s: Shop, b: BookingId, steps: seq<Step>)
    requires b in s.bookings
    decreases |steps|
  {
    steps != [] ==>
      && !LeavesPaid(s.bookings[b], b, steps[0].call)
      && b in Next(rates, s, steps[0]).bookings
      && NoneLeavesPaid(rates, Next(rates, s, steps[0]), b, steps[1..])
  }

  /** "Paid" is not an end: over any run a paid booking stays paid at every moment exactly if none of those
      calls is made on it. */
  lemma {:induction false} StaysPaidIff(rates: Rates, s: Shop, b: BookingId, steps: seq<Step>)
    requires b in s.bookings && s.bookings[b].phase.Paid?
    ensures PaidThroughout(rates, s, b, steps) <==> NoneLeavesPaid(rates, s, b, steps)
    decreases |steps|
  {
    if steps != [] {
      var s', next := Elapsed(s, steps[0]), Next(rates, s, steps[0]);
      PaidAfterIff(rates, s', b, steps[0].call);
      if next.bookings[b].phase.Paid? {
        StaysPaidIff(rates, next, b, steps[1..]);
      }
    }
  }
}
