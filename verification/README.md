# Digital garage backend: ledger, jobs, offers and routing

A Dafny 4.11 model of the parts of the backend that hold state which every run must keep consistent,
with the properties the source promises about them. `dafny verify dfyconfig.toml` checks everything.

## What is modelled

**Money.** Amounts are whole cents, rates ten-thousandths, rounding is half away from zero (`Money`).
The commission ledger is an append-only sequence with the table's sign checks and its unique key; the
`provider_balances` view is a fold over it (`Ledger`).

**Transactions and confirmations.** `Transactions` holds `service_transactions`, the trigger that books
a debit when an update confirms a row, and RecordService, Confirm and Dispute. `ConfirmationRuns` runs
them as two statements each - a possibly stale read, then a guarded write - in any interleaving.

**Jobs.** `Jobs` holds bookings and the sixteen calls of the job lifecycle and booking services, with
the payment path of ProviderConfirmPayment branch by branch: the newest row of the job forced to
confirmed, or a row inserted already confirmed, the ordinary confirmation, and bookCommissionOnPaid.
`Charges` proves that a confirmed transaction is charged exactly once over all runs; `Payments` reads the
outcome of a payment off the state before it. Each of the following gives a check before a call, and proves
that a property holds at every moment of a run exactly if every call passes it: `DebitTerms`, that a debit
is its transaction's provider's and for its amount; `JobDebits`, that a job has at most one; `DebitRuns`,
that a debit means a confirmed transaction; `ChargedProviders`, that it sits on a row of its provider past
correction; `OrderedRuns`, that the payment path finds the awaiting row. `PaymentRuns` says exactly when a
payment confirmation is final; `LifecycleRuns` covers phases, time stamps and paid. `JobExamples` and
`SettlementExamples` hold runs that lead to states used as counterexamples.

**Effects.** `TransactionEffects`, `JobEffects` and `SettlementEffects` say of every call, field by field and
in the tables' own terms, when it is accepted and what it writes; `TransactionEffects` also says exactly when
rows belong to their request's owner, and `MonthBills` follows a confirmed job into its month's bill.

**Settlements.** `Settlements` holds the statements and calls; `SettlementRuns` interleaves them
statement by statement, with calls that die half-way; `MonthlySettlements` and `EnsuredSettlements` prove
what each source of bills guarantees alone; with both, `BalanceRuns` says which credits keep balances
non-negative and `OutstandingRuns` which bills do. `Platform` runs jobs and settlements on one ledger and states the conservation of money for the whole.

**Offers.** `Offers` interleaves Accept transactions at their statements with new offers and rollbacks.

**The services as they run.** `Backend.Database` and `OfferTables.Database` are the tables as mutable
fields with the service methods on them, statement by statement, each proved equal to its
specification above, so that what is proved of runs holds of them. Their rows below say which step of the
machines each method is; a single SQL statement is one assignment in them, and has no loop. What the
steps add up to is stated by the theorems about runs.

**Routing.** `Registry` is the WebSocket connection map, changed by others while a broadcast walks over
a copy; `RequestTags` the `[kind:...]` and `[bill:...]` tags; `Inbox` the merge and filter loops of the
open-request list; `Broadcast` the announcement of a new request.

## Conventions and assumptions

- A table is a sequence in insertion order: a row's id is its index and `created_at` grows with it.
- Each SQL statement is atomic. Statement-level interleaving is modelled where the protocol's safety
  depends on it (confirmations, settlements, offers); job calls are atomic.
- The services charge 0.10 (internal/services/commission_service.go:24, whose comment says 5%), the
  trigger 0.05 (supabase/migrations/0013_commission_ledger.sql:34). Both rates are parameters, each entry
  keeps the rate it was written with, and they stay the same during a run.
- Lookups that name `service_request_id` or the status `pending` on `service_transactions` do not match
  migration 0013. The lookup meant is modelled: by booking or request, with status awaiting_confirmation.
- Phases are free text in the source; the model has those that the code writes or compares with.
- An entry's note is reduced to the booking id it quotes. Names of services do not quote booking ids.
- The calendar is a month number that an instant carries; months do not go backwards.
- The view's filter on provider roles is not applied: every person has a balance.
- Text is ASCII for trimming and lower-casing. Amounts in bill tags are already formatted.
- In `Offers` row locks are not modelled, only the waiting of a unique index: more interleavings than the
  database allows, so the safety results carry over.

## What turned out false, and the exact condition

- A debit does not imply a confirmed transaction: a refused payment disputes confirmed rows too, and where
  the trigger's share of an amount rounds to nothing and the service's does not, the payment path books on a
  row it could not confirm. It does, at every moment of a run, exactly if no payment did either
  (`DebitMeansConfirmedIff`; reached by `RefusedAfterPaid` and `FiveCentsStrand`).
- A confirmed transaction's one debit is not always its provider's, nor for its amount: a row that was
  charged unconfirmed can still be corrected, and a payment rewrites the amount of a confirmed one
  (`DebitsNameTheirProviderIff`, `DebitsAreForTheirAmountIff`; reached by `WrongProviderIsCharged` and
  `PaymentRewritesChargedAmount`).
- A job is not always charged once (`JobChargedOnceIff`, reached by `BilledAgainIsChargedTwice`).
- A payment confirmation is not always final: exactly `PaymentHolds` decides (`PaymentIsAbsorbingIff`;
  reached by `FiveCentsAreNotFinal` and `TwiceRecordedIsChargedTwice`).
- The payment path's lookup does not always find the awaiting row: exactly `KeepsOrder` decides
  (`AwaitingIsNewestIff`; reached by `TwiceRecordedIsReached` and `CrossedRequestHides`).
- "Paid" is not terminal: seven calls leave it (`StaysPaidIff`, reached by `PaidJobLeaves`).
- EnsureOpenSettlement does not always return a payable row (`EnsuredIsPayableIff`, reached by
  `SettledMonthReturnsVerified`).
- A balance can go negative when both sources of bills are mixed (`MixedSourcesOvercredit`, reached by
  `OneChargeOwed`): never exactly if every credit is within the balance (`MixedNonNegativeIff`), and never
  whatever is verified exactly if every bill left what is outstanding within it (`BillsWithinBalanceIff`,
  `SafeIff`).
- A correction that lands after a confirmation can take the view away from the transactions
  (`ViewAgreesIff`, reached by `LateCorrection`).
- A VerifySettlement that dies between its guard and its credit loses the credit for good
  (`LostIsNeverCredited`, reached by `CreditIsLost`).
- A request of unknown kind is shown to no provider by the fallback list (`FallbackReachesSomeoneIff`,
  reached by `TowingReachesNobody`).
- A text with a bill mark of its own, or a currency with a closing bracket, spoils the bill tag
  (`BillIsAddedIff`, `LastBillOnlyIff`; reached by `OpenMarkSwallowsBills` and `ClosingCurrencyLeavesATail`).

## Model

| member | source | states |
|---|---|---|
| Platform.MoneyIsConserved | supabase/migrations/0013_commission_ledger.sql:87-125 | Over every interleaving of all job, commission and settlement calls on one ledger: confirmed transactions are debited once, verified settlements are the disjoint union of credited and held ones, a balance is charged minus settled within half a cent a job of the exact shares, and with bills from the month-end job only no balance is negative |
| Platform.NeverNegativeIff | internal/services/commission_service.go:349-421 | Over every run of the whole platform, both sources of bills included, no balance is negative at any moment exactly if every credit is within its provider's balance when it is written |
| Platform.RunAsDeskRun | internal/services/commission_service.go:349-421 | Every run of the whole platform is, for ledger, settlements and month, a run of the settlement machine, so its theorems apply |
| Platform.RunKeepsCharges | supabase/migrations/0013_commission_ledger.sql:122-124 | Settlement calls between job calls never disturb the charging invariant, and every debit stays the rounded share of its own frozen gross and rate |
| Money.RoundedIsNearest | internal/services/commission_service.go:99-103 | The rounding yields the one nearest cent, ties away from zero, and no other integer qualifies |
| Money.CommissionIsNearest | internal/services/commission_service.go:99-103 | A commission is the one cent amount nearest to the exact share |
| Transactions.SourceRatesAre | internal/services/commission_service.go:24 | At the rates of the source the trigger takes a twentieth and the services a tenth |
| Money.CommissionMonotone | internal/services/commission_service.go:101-103 | A larger amount never has a smaller commission |
| Money.CommissionWithinHalfCent | supabase/migrations/0013_commission_ledger.sql:198-202 | A commission is within half a cent of the exact share |
| Ledger.InsertDebitCounts | supabase/migrations/0013_commission_ledger.sql:122-124 | The unique key at work: an insert that ignores conflicts leaves exactly one debit for its transaction and touches no other's count |
| Ledger.AtMostOneDebitIff | supabase/migrations/0013_commission_ledger.sql:122-124 | Counting at most one debit means that no two entries are debits of the transaction |
| Ledger.CountsAfterAppend | supabase/migrations/0013_commission_ledger.sql:96-125 | An empty ledger counts none, and an entry counts one exactly for its own transaction or settlement |
| Ledger.BalanceAfterAppend | supabase/migrations/0013_commission_ledger.sql:218-229 | Counters bumped by each appended entry refine the view's fold, for its provider and for all others |
| Ledger.MonthAfterAppend | internal/repository/commission_repository.go:165-173 | A month's charge is zero on an empty ledger, and an appended entry adds its amount exactly if it is a debit of that provider and month; so for credits |
| Ledger.MonthsAddUp | supabase/migrations/0013_commission_ledger.sql:218-229 | The monthly charges of a provider add up to commission_charged, and the monthly credits to commission_settled |
| Ledger.OwedIsChargedMinusSettled | supabase/migrations/0013_commission_ledger.sql:221-223 | balance_owed is commission_charged minus commission_settled where no adjustment is written |
| Ledger.RoundingIsBounded | supabase/migrations/0013_commission_ledger.sql:191-206 | Charged commission differs from the sum of frozen rate times gross by at most half a cent per billed job |
| Transactions.NewestAwaiting | internal/services/commission_service.go:126-131 | The lookup finds the last awaiting row of the booking, or there is none |
| TransactionEffects.RecordEffect | internal/services/commission_service.go:109-184 | A recording corrects amount, service, provider and owner of the booking's newest awaiting row, or adds an awaiting row with what it names, for the owner named, or else the request's, or else the booking's request's; or it is refused and changes nothing |
| TransactionEffects.RecordErrors | internal/services/commission_service.go:112-169 | The four refusals, each exactly in its case and in the order of the checks |
| TransactionEffects.ConfirmEffect | supabase/migrations/0013_commission_ledger.sql:188-206 | Confirm succeeds exactly for the owner of an awaiting row whose trigger's share comes to a cent; it stamps the row and books that share once, on the row's provider, in the month of the instant |
| TransactionEffects.ConfirmErrors | internal/services/commission_service.go:196-208 | The refusals of Confirm, each exactly in its case |
| TransactionEffects.DisputeEffect | internal/services/commission_service.go:238-263 | Dispute succeeds exactly for the owner of an awaiting row, and disputes that row alone |
| TransactionEffects.RowsAreOwnedIff | internal/services/commission_service.go:69-97 | Over all runs: at every moment every row with a request belongs to that request's owner exactly if every recording and bill gives the row it writes to that owner |
| TransactionEffects.ApplyOwnsIff | internal/services/commission_service.go:109-138 | Each of the sixteen calls keeps that exactly if its check holds; for all but recordings and bills that is always |
| TransactionEffects.NobodyElseAnswers | internal/services/commission_service.go:118-120 | Over runs whose recordings leave the owner to be looked up, a row with a request has that request's owner, and anybody else's Confirm or Dispute on it is refused |
| ConfirmationRuns.DebitsAreExactlyTheConfirmed | internal/services/commission_service.go:192-263 | With Confirm, Dispute and RecordService interleaved between stale read and write, in every state a transaction has one debit if it is confirmed and none otherwise |
| ConfirmationRuns.StatusesSettleOverRuns | internal/repository/commission_repository.go:74-99 | Between any two states of such a run a transaction leaves awaiting_confirmation at most once; confirmed and disputed are terminal; no row disappears |
| ConfirmationRuns.AtomicIsBeginThenFinish | internal/services/commission_service.go:109-263 | A call whose two statements run with nothing in between is the atomic call |
| ConfirmationRuns.ViewAgreesWithTransactions | supabase/migrations/0013_commission_ledger.sql:218-229 | After any serial run gross_revenue is the sum and jobs_billed the number of the provider's confirmed transactions, and the balance adds up within the rounding bound |
| ConfirmationRuns.StaleCorrection | internal/services/commission_service.go:125-138 | A price correction by id that lands late keeps view and transactions in agreement exactly if the row is unconfirmed or neither amount nor provider changes |
| ConfirmationRuns.ViewAgreesIff | supabase/migrations/0013_commission_ledger.sql:218-229 | Over every interleaving of the three calls at their statements, the view agrees with the transactions for every provider at every moment exactly if no late correction changes the amount or provider of a confirmed transaction |
| ConfirmationRuns.LateCorrection | internal/services/commission_service.go:125-138 | Six statements from the opening state - a recording, a correction begun, a confirmation, the correction finished - leave the old price as revenue and the new one on the confirmed transaction |
| Jobs.Newest | internal/services/job_lifecycle.go:733-740 | The payment path's lookup finds the last row that concerns the booking or its request, or there is none |
| JobEffects.WorkEffect | internal/services/job_lifecycle.go:280-409 | The seven calls that move a job: in which phases and for whom each is accepted, the phase, stamp and flag it writes, and that nothing else changes |
| JobEffects.LifecycleIs | internal/services/job_lifecycle.go:163-184 | The moves that the lifecycle allows, each of them and no other |
| JobEffects.SetStatusEffect | internal/services/booking_service.go:56-118 | SetStatus accepts five moves and the status the booking has, stamps start and completion, bills on completion, and refuses the rest |
| JobEffects.AutoBillEffect | internal/services/booking_service.go:121-222 | The automatic bill adds one awaiting row for the offer's price, or the listed price, plus a positive travel fee where a mechanic is named; none for a billed job, an unknown provider or no positive price |
| JobEffects.CompletedJobIsChargedItsPrice | internal/services/booking_service.go:164-222 | An unbilled job that is completed and then confirmed by its owner is charged the trigger's share of price and travel fee, in the month of the confirmation |
| JobEffects.SetBillEffect | internal/services/job_lifecycle.go:419-530 | SetBill is accepted for a positive amount once work is under way or the customer satisfied, and records the amount for the job's provider and its request's owner |
| JobEffects.MarksPaidEffect | internal/services/job_lifecycle.go:638-660 | A payment claim sets the phase and fills in the booking of the job's rows that have none |
| JobEffects.RefusedEffect | internal/services/job_lifecycle.go:678-690 | A refused payment disputes every row of the job, whatever its status, and touches no debit |
| JobEffects.PaymentEffect | internal/services/job_lifecycle.go:671-943 | A payment on a job with rows rewrites its last row and books at most one debit, each given field by field; the booking is paid and nothing else changes |
| JobEffects.FirstPaymentEffect | internal/services/job_lifecycle.go:759-778 | A payment on a job without rows inserts one, confirmed at the bill, and books the service's share; without a bill or a provider only the booking changes |
| JobEffects.PaymentAmounts | internal/services/job_lifecycle.go:704-818 | Over every payment of every run: the last row ends at a bill that is worth a cent to the trigger, keeps its amount where there is no positive bill, and a debit added is on that row with the amount charged as its gross |
| JobEffects.OpenBookingEffect | internal/db/sqlcgen/bookings.sql.go:11-34 | A booking is opened, scheduled and blank, for a request that exists and has none |
| MonthBills.DebitsAreInThePast | supabase/migrations/0013_commission_ledger.sql:191-206 | Over all runs no debit is booked in a later month than the clock's |
| MonthBills.ConfirmedJobIsBilled | internal/repository/commission_repository.go:326-343 | Over runs of the whole platform: a job confirmed in a month is in the bill that the month-end job inserts for that month, however much later, if its provider has none: the bill is the sum of the month's debits, this one included |
| MonthBills.DebitIsBilled | internal/repository/commission_repository.go:326-343 | On every sound platform, any debit whose provider has no settlement of its month is in the bill that the month-end job inserts |
| Payments.BeforeBookingOutcome | internal/services/job_lifecycle.go:780-818 | Up to bookCommissionOnPaid only the newest row changes, within its job; it ends confirmed exactly under a condition on the state before, and otherwise nothing changes |
| Payments.BookOnPaidOutcome | internal/services/job_lifecycle.go:858-943 | bookCommissionOnPaid appends one debit, unless it finds nothing to book, and a second time it finds nothing |
| Payments.InsertedOutcome | internal/services/job_lifecycle.go:759-778 | Without a row of the job a payment inserts one already confirmed, which is then the newest, or leaves the books alone |
| Payments.LeavesNoneAwaitingIff | internal/services/job_lifecycle.go:733-818 | A payment confirmation leaves no row of the job awaiting exactly if none but the newest awaits, and the newest does not either or ends confirmed |
| Charges.ConfirmedIsChargedOnce | internal/services/job_lifecycle.go:759-818 | Over all runs of all sixteen calls every confirmed transaction whose commission rounds to a cent has exactly one debit, and no transaction has two; for whom and for how much is in the DebitTerms rows |
| Charges.RunSound | internal/services/job_lifecycle.go:671-855 | The charging invariant is kept by every run: debits sit on existing rows, notes on rows of their job, and a confirmed row without a debit was inserted confirmed for a commission of nothing |
| Charges.InsertedSound | internal/services/job_lifecycle.go:759-778 | The row inserted already confirmed, which the trigger does not see, gets its debit from bookCommissionOnPaid |
| Charges.SettledSound | internal/services/job_lifecycle.go:733-818 | Every branch of the payment path keeps the charging invariant: the forced update, its last resort after a rejection, the ordinary confirmation, and the insert |
| Charges.NoForeignNote | internal/services/job_lifecycle.go:897-914 | The idempotence check never skips a confirmed newest row that has no debit: no note quotes its booking |
| DebitTerms.DebitsNameTheirProviderIff | supabase/migrations/0013_commission_ledger.sql:191-206 | Over all runs: at every moment every debit is owed by its transaction's provider exactly if no recording or bill hands a charged transaction to another provider and no payment books a debit on another provider's row that it leaves unconfirmed |
| DebitTerms.DebitsAreForTheirAmountIff | supabase/migrations/0013_commission_ledger.sql:191-206 | Over all runs: at every moment every debit's frozen gross is its transaction's amount exactly if no recording, bill or payment changes the amount of a charged transaction and no payment books another amount on a row that it leaves unconfirmed |
| DebitTerms.ApplyFitsIff | internal/services/commission_service.go:125-138 | For either term, each of the sixteen calls keeps every debit fitting its transaction exactly if a check on the state before it holds; for all but recordings, bills and payments that is always |
| DebitTerms.PaymentFitsIff | internal/services/job_lifecycle.go:780-821 | For either term, the payment path does exactly if it forces no charged row to another amount and books nothing that does not fit a row left unconfirmed |
| DebitTerms.ConfirmedIsChargedRight | supabase/migrations/0013_commission_ledger.sql:191-206 | In a run that meets both checks throughout, every confirmed transaction whose commission rounds to a cent has exactly one debit, its provider's, and the rounded share of its amount at the frozen rate |
| DebitTerms.WrongProviderIsCharged | internal/services/commission_service.go:125-138 | From the opening state, at the rates of the source: a confirmed transaction of one provider at 100.00 whose only debit is one cent owed by another |
| DebitTerms.PaymentRewritesChargedAmount | internal/services/job_lifecycle.go:780-793 | From the opening state: a payment sets a charged transaction's amount to the bill while its debit keeps the price it was confirmed at |
| JobDebits.JobChargedOnceIff | internal/services/job_lifecycle.go:858-943 | Over all runs: at every moment every job has at most one debit exactly if no confirmation or payment books one on a row of a job that has one, and no booking is opened on a request charged twice |
| JobDebits.ApplyOnceIff | internal/services/commission_service.go:192-232 | Each of the sixteen calls keeps every job charged at most once exactly if a check on the state before it holds; for all but confirmations, payments and new bookings that is always |
| JobDebits.PaymentWrites | internal/services/job_lifecycle.go:780-943 | A payment on an existing row appends one debit for it, by the trigger or by bookCommissionOnPaid, exactly under a condition on the state before, and otherwise leaves the ledger alone |
| JobDebits.BilledAgainIsChargedTwice | internal/services/job_lifecycle.go:419-528 | From the opening state: a billed job confirmed by its owner, billed again and paid has two debits, though every recording carried its booking |
| ChargedProviders.PaymentAttributedIffNotStranded | internal/services/job_lifecycle.go:780-818 | A payment confirmation keeps every debit on a row of its provider that is past awaiting, and so past correction, exactly if it does not strand its row |
| ChargedProviders.DebitsAttributedIff | internal/services/job_lifecycle.go:858-943 | Over all runs: at every moment every debit sits on such a row exactly if no payment strands its row |
| ChargedProviders.NothingStrandsAtEqualRates | internal/services/commission_service.go:24 | With a trigger rate of at least the service rate no payment can strand a row |
| ChargedProviders.FiveCentsStrand | internal/services/job_lifecycle.go:780-818 | At the rates of the source, paying that job books a cent on a transaction that stays unconfirmed |
| ChargedProviders.DebitsBelongAtEqualRates | internal/services/commission_service.go:24 | With a trigger rate of at least the service rate that is so in every run |
| ChargedProviders.DebitsBelongIfAmountsAreWorth | supabase/migrations/0013_commission_ledger.sql:188-206 | So it does in every run whose recorded, billed and quoted amounts have a trigger's share of at least a cent |
| DebitRuns.RefusedKeepsIff | internal/services/job_lifecycle.go:678-690 | Refusing a payment keeps every debit on a confirmed transaction exactly if no debit sits on a row of the job |
| DebitRuns.PaymentKeepsIff | internal/services/job_lifecycle.go:733-821 | Confirming a payment does so exactly if it books no debit on a row that it leaves unconfirmed |
| DebitRuns.DebitMeansConfirmedIff | supabase/migrations/0013_commission_ledger.sql:87-90 | Over all runs of all calls: at every moment every debit sits on a confirmed transaction exactly if every payment answered met its check |
| DebitRuns.RefusedAfterPaid | internal/services/job_lifecycle.go:671-690 | From the opening state, a job billed at 100.00, paid and then refused keeps its debit on a disputed transaction |
| JobExamples.BilledJobIsReached | internal/services/job_lifecycle.go:280-528 | From the opening state four calls lead to a job billed at any positive amount, with one awaiting transaction |
| JobExamples.PaidJob | internal/services/job_lifecycle.go:671-821 | Paying such a job leaves one confirmed transaction and the trigger's one debit |
| JobExamples.PaidJobLeaves | internal/services/job_lifecycle.go:638-646 | From the opening state, a job paid and then claimed paid by the customer, or billed again, is no longer paid |
| OrderedRuns.AwaitingIsNewestIff | internal/services/job_lifecycle.go:733-740 | Over all runs: at every moment the awaiting row of each job is its newest row, hence its only awaiting one, exactly if every recording, bill and new booking passed a check before it |
| OrderedRuns.ApplyOrderedIff | internal/services/commission_service.go:122-169 | Each of the sixteen calls keeps that property exactly if its check holds; for all but recordings, bills and new bookings that is always |
| OrderedRuns.OrderedIsNewest | internal/services/job_lifecycle.go:733-740 | No row awaits beside a later one of its job exactly if the payment path's lookup finds every awaiting row |
| OrderedRuns.PaymentLeavesNoneAwaitingIff | internal/services/job_lifecycle.go:733-818 | In every state reached with those checks passed, a payment confirmation leaves no row of the job awaiting exactly if the newest row does not await or ends confirmed |
| OrderedRuns.AtMostOneAwaitingAndNewest | internal/services/job_lifecycle.go:733-818 | In particular over all runs in which recordings carry their booking and no other's request: an awaiting row is its job's only one and the newest, and the payment leaves none awaiting exactly if it confirms that row |
| OrderedRuns.RepeatedWithoutBooking | internal/services/commission_service.go:125-151 | Without a booking id the same recording made twice leaves two awaiting rows |
| OrderedRuns.TwoJobsAreReached | internal/db/sqlcgen/bookings.sql.go:11-34 | Two calls lead from the opening state to two scheduled jobs |
| OrderedRuns.CrossedRequestHides | internal/services/commission_service.go:126-151 | There, a recording for one booking with the other's request hides the other's awaiting row from the payment path |
| PaymentRuns.RunChecked | supabase/migrations/0013_commission_ledger.sql:58-77 | Every run keeps every transaction within the table's checks and every booking with its request |
| PaymentRuns.PaymentPaysUp | internal/services/job_lifecycle.go:671-855 | After any payment confirmation, repeating it would confirm and book nothing |
| PaymentRuns.PaymentStopsIff | internal/services/job_lifecycle.go:733-818 | A payment confirmation leaves no row of the job awaiting and the automatic bill blocked exactly if the check before it holds |
| PaymentRuns.QuietRun | internal/services/booking_service.go:125-134 | On such a job any sequence of payment confirmations, confirmations, disputes, payment claims and automatic bills leaves the ledger, the transactions and their statuses unchanged |
| PaymentRuns.PaymentIsAbsorbingIff | internal/services/job_lifecycle.go:671-855 | A payment confirmation is absorbing exactly if a check before the call holds: no other row of the job awaits, and the newest ends confirmed or is blocked; where it fails, some later call changes a charge |
| PaymentRuns.PaymentIsAbsorbingOverRunsIff | internal/services/job_lifecycle.go:671-855 | So it is in every state that a run of all the calls reaches, recordings by request alone included |
| PaymentRuns.FiveCentsAreNotFinal | internal/services/job_lifecycle.go:780-818 | From the opening state, at the rates of the source, the payment of a job billed at five cents is not absorbing |
| PaymentRuns.TwiceRecordedIsReached | internal/services/commission_service.go:109-151 | From the opening state three calls lead to a job whose price was recorded twice by request alone |
| PaymentRuns.TwiceRecordedIsChargedTwice | internal/services/job_lifecycle.go:733-818 | Its payment confirms one row, and one further confirmation of the other charges the job a second time |
| LifecycleRuns.StampsAndPhases | internal/services/job_lifecycle.go:280-374 | Over all runs, between any two moments: pre-arrival phases are not re-entered, started_at is written at most once, payment_confirmed does not revert; always: in_progress has a start, awaiting_satisfaction started before it completed, paid implies payment_confirmed |
| LifecycleRuns.RunSane | internal/db/sqlcgen/bookings.sql.go:64-71 | Both services keep the stamp and phase invariant from any sane state |
| LifecycleRuns.PaidAfterIff | internal/services/job_lifecycle.go:720-729 | After any of the sixteen calls a booking is paid exactly if the call is its payment confirmation, or it was paid before and the call is not one of the seven that leave paid |
| LifecycleRuns.StaysPaidIff | internal/services/job_lifecycle.go:431-453 | Over any run a paid booking stays paid at every moment exactly if none of those calls is made on it |
| Settlements.RowFor | supabase/migrations/0013_commission_ledger.sql:159 | The row of a provider and month is found, or there is none |
| Settlements.ListingIsExact | internal/repository/commission_repository.go:249-258 | The listing holds exactly the provider's rows, each once, latest period first |
| Settlements.FirstOpenIsFirst | internal/services/commission_service.go:394-401 | The loop stops at the first open row of the list, and runs through exactly if none is open |
| SettlementRuns.VerifiedIsCreditedPlusHeld | internal/services/commission_service.go:349-380 | With VerifySettlement interleaved at its three statements, in every state the verified settlements are the disjoint union of the credited ones and those held between guard and credit; none is credited twice; with none held each is credited once |
| SettlementRuns.LostIsNeverCredited | internal/services/commission_service.go:361-368 | A call that dies between guard and credit leaves its settlement verified and uncredited in every later state |
| SettlementExamples.CreditIsLost | internal/services/commission_service.go:361-368 | From the opening state, a charge, the month-end job and a verification that dies after its guard: however the run goes on, the settlement stays verified, uncredited, and closed to verification |
| SettlementRuns.AmountsNeverFallAndCreditsFit | internal/repository/commission_repository.go:287-343 | In all runs mixing all four calls with stale reads, amounts due are positive and never fall, a credit is at most its settlement's current amount, and WriteCredit never breaks the sign check |
| MonthBills.GenerateEffect | internal/repository/commission_repository.go:326-343 | GenerateForMonth keeps every row and adds one due bill, for the sum of the month's debits, for each provider of the grouping that has such debits and no row |
| MonthBills.OneMonthIsEverything | internal/repository/commission_repository.go:326-343 | Where all of a provider's debits are of one month, its bill is all of commission_charged |
| MonthBills.TwoDebitsOneBill | internal/repository/commission_repository.go:326-343 | Two debits of one month make one bill of their sum |
| SettlementEffects.SubmitEffect | internal/services/commission_service.go:312-344 | SubmitSettlement's refusals, each exactly in its case, and the one row it submits |
| SettlementEffects.VerifyEffect | internal/services/commission_service.go:349-380 | VerifySettlement's refusals, the row it verifies, and the credit of that row's amount, provider and month |
| SettlementEffects.EnsureEffect | internal/services/commission_service.go:385-421 | EnsureOpenSettlement: nothing where nothing is owed; the first open row of the list; this month's row raised to the balance; or a new one for it |
| SettlementEffects.ListEffect | internal/repository/commission_repository.go:249-258 | The list is the first 24 of the provider's rows, latest period first, or all of them |
| MonthlySettlements.MonthlyCreditsNeverExceedDebits | internal/repository/commission_repository.go:326-343 | With bills from the month-end job only, over all interleaved runs with late debits and reruns, no provider's credits of a month exceed its debits and no balance is negative |
| MonthlySettlements.RerunInsertsNothing | internal/repository/commission_repository.go:322-343 | A rerun with an unchanged ledger changes nothing, whatever happened to the settlements in between and whatever the order of the grouping |
| EnsuredSettlements.ServeIsItsSteps | internal/services/commission_service.go:312-421 | Each settlement call served at once is its statements run with nothing in between |
| EnsuredSettlements.OneOpenBillPerProvider | internal/services/commission_service.go:385-421 | With bills from EnsureOpenSettlement only and atomic calls, a provider has at most one open settlement, the list of 24 yields it, its amount is within the balance, and no balance is negative |
| EnsuredSettlements.OpenRowIsListed | internal/repository/commission_repository.go:249-258 | An open row heads its provider's list, so the limit cannot hide it |
| EnsuredSettlements.EnsuredIsPayableIff | internal/services/commission_service.go:385-421 | On every desk where something is owed, whatever opened its bills: the returned settlement is the provider's, and open exactly if the list of 24 shows an open one or this month's row is absent or open |
| EnsuredSettlements.EnsuredAloneIsPayableIff | internal/services/commission_service.go:410-420 | Without the month-end job that is: this month's row, when there is one, is not verified |
| EnsuredSettlements.SettledMonthReturnsVerified | internal/services/commission_service.go:410-420 | From the opening state: a charge, its bill verified, another charge in the same month, and the call returns a settlement that is not open |
| EnsuredSettlements.MixedSourcesOvercredit | internal/services/commission_service.go:385-421 | From a desk that owes one month's charge, an ensured bill, the month-end job and two verifications leave the balance at minus that charge |
| EnsuredSettlements.OneChargeOwed | supabase/migrations/0013_commission_ledger.sql:218-229 | One charge and the turn of the month lead to such a desk |
| BalanceRuns.StepKeepsIff | internal/repository/commission_repository.go:175-182 | Each statement of any call keeps all balances non-negative exactly if a credit it writes is within its provider's balance |
| BalanceRuns.NeverNegativeIff | internal/services/commission_service.go:349-421 | Over every interleaving of all calls at their statements, both sources of bills and dying calls included, no balance is negative at any moment exactly if every credit is within the balance when it is written |
| BalanceRuns.ServeKeepsIff | internal/services/commission_service.go:349-380 | For a call served at once the check is one to make before verifying: the bill is within the provider's balance |
| BalanceRuns.MixedNonNegativeIff | internal/services/commission_service.go:349-421 | Over all serial runs mixing the month-end job with EnsureOpenSettlement, no balance is negative at any moment exactly if every verified bill met that check |
| OutstandingRuns.BillsWithinBalanceIff | internal/services/commission_service.go:385-421 | Over every interleaving at statements, with both sources of bills: if every bill, when opened, leaves open bills and held credits within the balance, no balance is ever negative; and they are within it at every moment exactly if every bill does |
| OutstandingRuns.StepWithinIff | internal/repository/commission_repository.go:326-343 | Each statement keeps what is outstanding within the balances exactly if a bill it opens does; verifications, submissions, charges and deaths always do |
| OutstandingRuns.SafeIff | internal/services/commission_service.go:349-380 | On every sound desk, calls under way included, no way to go on without opening a bill makes a balance negative exactly if what is outstanding is within the balances |
| Offers.CommittedIsMatched | internal/repository/offer_repository.go:71-121 | Under any interleaving of Accept transactions with stale reads, rollbacks and new offers, committed accepted offers and bookings match one to one with the same request, garage and mechanic, at most one per request |
| Offers.OneWinnerPerRequest | supabase/migrations/0001_init_schema.sql:178-182 | Two accepted offers never share a request |
| Offers.BookedIsClosed | internal/repository/offer_repository.go:71-121 | Once a request is booked, over any further run its bookings and offers stay as they are and offers added later stay pending |
| Offers.AcceptIsItsStatements | internal/repository/offer_repository.go:71-121 | A transaction whose six statements run alone is Accept: all of it or nothing |
| Offers.AcceptSucceedsIffUnbooked | internal/repository/offer_repository.go:95-104 | In matched tables Accept on a pending offer succeeds exactly if its request has no booking |
| Offers.AcceptDecidesItsRequest | internal/db/sqlcgen/offers.sql.go:75-93 | A successful Accept leaves its offer the only accepted one of the request and none pending, and other requests' offers untouched |
| Offers.AcceptEffect | internal/repository/offer_repository.go:71-121 | Accept's refusals, each exactly in its case, and its writes to offers, bookings and request, field by field |
| Offers.CreateOfferEffect | supabase/migrations/0001_init_schema.sql:157-170 | CreateOffer adds one pending offer with what it is given, exactly for an existing request and a named garage whose mechanic, if named, has none for it |
| Offers.RunDistinct | supabase/migrations/0001_init_schema.sql:169 | Over every interleaving a request, a garage and a named mechanic have one offer at most |
| OfferTables.Database.CreateOffer | internal/db/sqlcgen/offers.sql.go:10-35 | Inserts a pending offer, or rejects a missing request, a missing garage or a repeated garage and mechanic |
| OfferTables.Database.RejectOtherOffers | internal/db/sqlcgen/offers.sql.go:85-93 | Rejects exactly the pending rivals of the winner |
| OfferTables.Database.Accept | internal/repository/offer_repository.go:71-121 | Statement by statement it ends as Accept does, or rolls all tables back with that error |
| Backend.Database.InsertEntry | supabase/migrations/0013_commission_ledger.sql:191-206 | The insert is rejected by a sign check, skipped on a conflict, or appended |
| Backend.Database.UpdateTxn | supabase/migrations/0013_commission_ledger.sql:179-215 | An update and its trigger succeed together or change neither table |
| Backend.Database.RecordService | internal/services/commission_service.go:109-184 | Corrects the newest awaiting row of the booking or inserts a new one, with the errors in the order of the checks |
| Backend.Database.MarkConfirmed | internal/repository/commission_repository.go:74-85 | The guarded update with its trigger, or no change |
| Backend.Database.Confirm | internal/services/commission_service.go:192-232 | The checks on the row read, then the guarded update |
| Backend.Database.Dispute | internal/services/commission_service.go:238-263 | Lets every status but confirmed through to the guard, and touches no ledger entry |
| Backend.Database.CanTransition | internal/services/job_lifecycle.go:163-184 | The two loops find a move exactly if one of the tables has it |
| Backend.Database.ConfirmArrival | internal/services/job_lifecycle.go:280-312 | The actor and phase checks, then the phase |
| Backend.Database.StartService | internal/services/job_lifecycle.go:315-340 | Only from arrived, with its stamp |
| Backend.Database.FinishService | internal/services/job_lifecycle.go:343-374 | Only from in_progress, to awaiting_satisfaction with its stamp |
| Backend.Database.ConfirmSatisfaction | internal/services/job_lifecycle.go:377-409 | The accepted phases or a completed stamp, then flag and phase |
| Backend.Database.SetBill | internal/services/job_lifecycle.go:419-530 | Bill, phase and flag, then the transaction of the job |
| Backend.Database.RecordForJob | internal/services/job_lifecycle.go:531-573 | Recording a positive amount for a booking whose request exists never fails, so the direct upsert that follows a failure does not run |
| Backend.Database.CustomerMarksPaid | internal/services/job_lifecycle.go:638-668 | The phase, and the booking id filled in on every row of the job |
| Backend.Database.ProviderConfirmPayment | internal/services/job_lifecycle.go:671-855 | Both answers: every row of the job disputed, or the payment path's outcome on bookings, transactions and ledger, the last resort after a rejected update included |
| Backend.Database.BookCommissionOnPaid | internal/services/job_lifecycle.go:858-943 | Books at most one debit for the transaction or booking, of the service's share; the insert tried again with fewer columns changes nothing |
| Backend.Database.ProviderDeny | internal/services/job_lifecycle.go:1043-1064 | The booking is cancelled from any phase |
| Backend.Database.CustomerUnsatisfied | internal/services/job_lifecycle.go:1067-1082 | The booking needs rework and satisfaction is withdrawn |
| Backend.Database.RestartService | internal/services/job_lifecycle.go:1085-1101 | Back in progress, keeping an earlier start |
| Backend.Database.SetStatus | internal/services/booking_service.go:56-118 | The idempotent case, the loop over allowed moves with the one-step finish, the stamps, and the automatic bill |
| Backend.Database.AutoBill | internal/services/booking_service.go:121-222 | Records the quoted price plus travel unless the job is billed, has no provider or no positive price |
| Backend.Database.Serve | internal/services/job_lifecycle.go:280-1101 | Any call is one step of the job machine and keeps its charging invariant |
| Backend.Database.SubmitSettlement | internal/services/commission_service.go:312-344 | The four refusals in order, then submitted |
| Backend.Database.VerifySettlement | internal/services/commission_service.go:349-380 | The guard, then the credit of the amount read; a rejected credit leaves the row verified |
| Backend.Database.EnsureOpenSettlement | internal/services/commission_service.go:385-421 | The loop's first open row, or this month's row with the larger amount |
| Backend.Database.GenerateForMonth | internal/repository/commission_repository.go:326-343 | One row per provider with a positive month and no row yet, and the number inserted |
| Registry.Manager.Register | internal/ws/manager.go:39-49 | Adds a new pair to the plain set of live connections and keeps the map free of empty sets |
| Registry.Manager.Unregister | internal/ws/manager.go:54-64 | Removes that pair; a repeat changes nothing |
| Registry.Manager.WriteAll | internal/ws/manager.go:89-98 | The loop writes once to each copied connection and drops exactly the failed ones, with others at work before every write |
| Registry.Manager.SendToUser | internal/ws/manager.go:73-99 | Writes exactly the snapshot; whatever others do in between, the registry ends as they leave it minus the failed connections of the snapshot |
| Registry.SendToUsers | internal/ws/manager.go:103-107 | Each user's connections at its turn get one write each, with others at work before every write, and the registry ends where those sends lead |
| Registry.BroadcastDropsFailed | internal/ws/manager.go:73-107 | That is: as the others alone leave it, without the failed connections of the snapshots |
| Registry.QuietBroadcast | internal/ws/manager.go:103-107 | With nobody else at work, without exactly the failed connections of the users written to |
| Registry.DropsCommute | internal/ws/manager.go:54-64 | Dropping known connections commutes with any operations of others, as identities are not reused |
| RequestTags.IndexOf | internal/services/job_lifecycle.go:154-161 | The first position of the substring, or -1 exactly if it does not occur |
| RequestTags.HasSubstring | internal/services/job_lifecycle.go:150-152 | True exactly if the substring occurs |
| RequestTags.DescribedNamesItsKind | internal/repository/service_request_repository.go:47-57 | For every text and every kind, a stored description carries the tags of a text with a kind mark of its own, and otherwise those of the kind's own tag |
| RequestTags.PlainTagNamesItself | internal/repository/service_request_repository.go:53-57 | The tag of a kind without brackets names that kind and no other |
| RequestTags.KindSurvivesIff | internal/repository/service_request_repository.go:178-193 | The kind read off the description is the kind created exactly if the text has no kind mark or its mark agrees |
| RequestTags.CreatedKindRoutesIff | internal/services/service_request_service.go:69-78 | For every spelling and every text: a stored known kind reads back as a garage booking exactly for the garage aliases; read off the description it does exactly if the text's own mark agrees, or the kind is known or carries no garage tag |
| RequestTags.GarageSpelling | internal/services/service_request_service.go:73-75 | Each of the four garage spellings, in any case and with spaces around it, is stored as a garage booking |
| RequestTags.MechanicSpelling | internal/services/service_request_service.go:76-77 | Each of the five roadside spellings is stored as a mechanic request |
| RequestTags.SpellingsAre | internal/services/service_request_service.go:69-78 | Four spellings with their kinds, spaces and capitals included |
| RequestTags.DescriptionsAre | internal/repository/service_request_repository.go:178-193 | What is stored for an empty, a plain and a marked text, and what is read from a row without a description |
| RequestTags.OneBillMark | internal/services/job_lifecycle.go:577-583 | Behind any description without a bill mark, a bill that opens no bracket is the one bill mark and adds no kind |
| RequestTags.BilledExactly | internal/services/job_lifecycle.go:575-588 | For every description without a bill mark and any series of bills: the description, the last bill's tag, and what the pattern left standing of earlier tags |
| RequestTags.LastBillOnlyIff | internal/services/job_lifecycle.go:577-583 | Nothing else than the last bill's tag is left exactly if no earlier currency has a closing bracket |
| RequestTags.BillIsAddedIff | internal/services/job_lifecycle.go:577-583 | A bill is added behind the description exactly if the description has no bill mark of its own |
| RequestTags.BillsAre | internal/services/job_lifecycle.go:577-584 | The bill tag as written, and a bill on an empty description |
| RequestTags.ClosingCurrencyLeavesATail | internal/services/job_lifecycle.go:577-583 | A bill in the currency T] and then one in TZS leave the tail of the first behind the second |
| RequestTags.OpenMarkSwallowsBills | internal/services/job_lifecycle.go:577-583 | A description that opens a bill mark without closing it never takes a bill |
| RequestTags.BillsKeepKindAndLastAmount | internal/services/job_lifecycle.go:575-588 | For every text without a bill mark and any number of bills: the kind read back is unchanged, there is one bill mark, it opens the last bill's tag, and nothing else is left exactly if no earlier currency closes a bracket |
| Inbox.Merge | internal/handlers/service_request_handler.go:145-157 | The loops yield the preferred list followed by the requests not in it |
| Inbox.FilterForRole | internal/handlers/service_request_handler.go:161-185 | The loop yields the matching items in order, with missing kinds filled in |
| Inbox.ListOpen | internal/handlers/service_request_handler.go:103-192 | The whole selection: empty for car owners, fallback list, preferred merge for garage owners, role filter |
| Inbox.FilterIsKept | internal/handlers/service_request_handler.go:161-185 | Filtering keeps each matching position once and in increasing order |
| Inbox.InboxIsExact | internal/handlers/service_request_handler.go:142-185 | No id twice if neither source repeats one, exactly the matching members of the union, preferred first, each source in its order |
| Inbox.ShownIff | internal/handlers/service_request_handler.go:161-185 | Which items each role is shown, and the kind an unlabelled item is shown with |
| Inbox.RoleSpelling | internal/handlers/service_request_handler.go:106-117 | Each spelling of a role, in any case and with spaces for underscores, and no other, is that role |
| Inbox.RolesAre | internal/handlers/service_request_handler.go:106-117 | Roles as profiles spell them, with spaces around and capitals |
| Inbox.RequestReachesItsRoleIff | internal/handlers/service_request_handler.go:161-185 | For every spelling and text a request is shown to exactly one provider role, and to the one asked for exactly if the stored kind is listed and known or the description says it |
| Inbox.FallbackReachesSomeoneIff | internal/services/service_request_service.go:343-353 | From the fallback list a request reaches some provider role exactly if its kind is a known alias or blank |
| Inbox.TowingReachesNobody | internal/services/service_request_service.go:343-353 | A request of the kind towing is shown from the fallback list to neither role |
| Broadcast.Announcer.Notify | internal/services/service_request_service.go:140-158 | One event per named provider, with the distance of the call that named it first |
| Broadcast.BroadcastNewRequest | internal/services/service_request_service.go:129-268 | Exactly one event to each provider named by any consulted source, none to others, with the first source's distance |
| Broadcast.MechanicRequestTellsIff | internal/services/service_request_service.go:192-243 | A mechanic request is told to exactly the nearby mechanics and everyone with the role or in the table of mechanics, at the distance in kilometres of the first nearby row, or none |
| Broadcast.GarageBookingTellsIff | internal/services/service_request_service.go:161-260 | A garage booking is told to exactly the chosen garage, or the nearby ones where none is chosen, and everyone with the role, or all garage owners where that is nobody, with the nearby distances |
| Broadcast.NobodyNamedIffNobodyNotified | internal/services/service_request_service.go:244-246 | The guard of the last fallback holds exactly if no source has named anyone |
| Broadcast.ChosenGarageFirst | internal/services/service_request_service.go:160-176 | With a preferred garage no nearby garage is consulted; only the role-wide list adds others |

## Left out

- Fallback SQL for older schemas: phases written without a stamp column, bills without their columns, reads without optional columns. The direct upsert of SetBill (internal/services/job_lifecycle.go:531-573) cannot run where RecordService succeeds, which Backend.Database.RecordForJob proves.
- The status column of service_requests outside Accept, and cancellation reasons and feedback texts: written alongside, read by nothing modelled.
- OnProviderAccepted (internal/services/job_lifecycle.go:259-277): nothing calls it.
- ClearDebt's waiver (internal/handlers/admin_handler.go:234-256): its entry type and statuses are not in the 0013 enums.
- The shell booking of reviews: it lacks the offer the schema requires.
- Notifications and pushes that services send after a call, other than the announcement of a request.
- Distances, floats and their formatting: distances and formatted amounts are given, amounts are exact cents.
- Currencies: one currency; a bill's currency appears in tags only.
- Names of services: a job's transaction is named "Vehicle service".
- Payment gateways, push and HTTP plumbing, authentication, row-level security and storage.
- ConfirmationRuns.ViewAgreesWithTransactions: states serial runs; ConfirmationRuns.ViewAgreesIff has the exact condition for interleaved ones.
- RequestTags.BillsKeepKindAndLastAmount: requires texts without a bill mark, as RequestTags.BillIsAddedIff shows a mark of the text's own to take the bill, and currencies that open no bracket; a currency has no backslash, which the replacement text would interpret.
- OrderedRuns.AtMostOneAwaitingAndNewest: requires that recordings carry their booking id and no other booking's request; OrderedRuns.AwaitingIsNewestIff has the exact condition.
