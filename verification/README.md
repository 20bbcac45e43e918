# Stripe entitlements: a verified model

This project models the transactional core of the entitlements kernel and proves what it is for.
`dafny verify dfyconfig.toml` checks everything.

**The credit ledger** (`LedgerTables` to `RoundTrip`). One account's subscription balance, purchased
lots, usage debits with their allocations, cash refunds and disputes, and the debt they leave behind.
`CreditLedger.Ledger` is the account: every operation of the service locks the account row first, so
each of its methods is one atomic transaction, and an exception in the source is a result that leaves
the object as it was. `LedgerInvariant.Core` is what every committed state satisfies, and, with the
orders being unwound and the atoms in flight as extra arguments, what still holds in the middle of a
product refund. A product refund forgives debt of the lot it returns to, forgiving debt reverses
collections drawn on other lots, and that may forgive more debt: the recursion ends because the total
of active debt drops before each nested call, and no cycle can arise because row ids increase along
every chain of collections. Atoms that come back pay what the account owes before they can be spent
(`DebtPriority.DebtsFirst`). The four "cannot happen" errors of that code are kept as results and
proved not to occur.

However deep the unwinding goes, nothing is lost in it. All the account has, its `Worth`, is its balance,
its lots with what expired in them and what it paid on invoice debts, less the pack debt it has yet to pay
and the draws no refund would bring back. A refund raises it by exactly the amount of the debit, and live
funds by exactly what it restores. What it restores covers at least what its sources assure
(`Refunding.MadeGood`): everything drawn on a spendable subscription in this epoch, and of every live lot
all that the active debt of its own order does not claim; and that debt is forgiven as far as the atoms
drawn on the lot reach.

One refund error remains, the bigint bound on a returned subscription balance (`BalanceOverflow`). What
the balance would be with everything this epoch drew on it given back, its `Exposure`, is raised by no
charge, collection or refund, and starts below the bound with every new epoch. So a refund never fails
to fit while the account `HasRoom`, which every run keeps in which the balance is not raised within an
epoch (`LedgerRuns.Run`). A prorated upgrade does raise it: `RefundRoom.UpgradeThenRefund` is a run in
which the error occurs. Where no lot of the debit has debt to unwind, `Refund` fails if and only if the
subscription is spendable and the balance has no room for what the debit drew on it this epoch
(`TooMuch`). Where debt is unwound as well, only one direction is stated: a refund that does not fit
found no room for everything. How far it falls short then depends on which collections are reversed, and
in which order, while returned atoms pay other debt in between.

**Cash facts** (`CashFacts`, `CashRuns`). What a pack has lost depends on the largest claim alone: it is
that claim's share, rounded up to a whole atom (`LedgerBoundary.RoundedUp`). So do the remaining and
clawed-back atoms of its lot, over every run without charges that starts with no debt left to pay
(`Clear`): whatever the account spent, refunded or owed before does not matter, as long as nothing is
drawn on or owed by the orders claimed against meanwhile. An order not yet paid is always so.

**FEFO** (`Fefo`, `Spending`, `FefoCharges`). Spending first-expiring funds first is compared with every
other way of paying the same charges, over any history of charges and expiry; `FefoCharges` joins this
to the ledger's own charges and to the balance it reports.

**The job workflow** (`Fencing`, `JobTables` to `JobSaga`). The host's job store, billing and dispatch
outboxes, queue inbox and execution leases, with any number of workers that interleave, crash, are
slow, or come back with stale claims.

**Smaller machines.** The signing-key refresh gate (`KeyRefresh`; keys are matched by `kid`, section
4.5 of RFC 7517 and section 4.1.4 of RFC 7515), the plan-change intent (`PlanChanges`), the annual slot
worker (`AnnualGrants`), the fixed-point credit codec (`CreditAmounts`) and the proration quote check
(`Proration`).

How the tables are represented:

- An order and the one funding lot it may have share an identity. A debit's kind and, for a debt
  collection, the order it pays for are part of its key; an allocation's row id is its position.
- Debit keys of product operations and of debt collections (a prefix and a random UUID) never clash.
- The set of collections being visited is passed down by value, which is what adding before and
  removing after the nested call amounts to.
- Clock readings are parameters. Only the key-refresh schedule, the FEFO runs and the uniqueness of live
  execution tokens ask that they do not run backwards.
- Environment steps stand for code outside the model: `RegisterOrder` (checkout), `SetPlan`,
  `GrantUpgrade` and `RecordFundingDebt` (subscription projection), `AnnualAccount.Shrink` (refunds of
  annual invoices), and the moods of `BillingService` (remote replies, refusals and lost answers).

The annual due query and the grant transaction agree on every account that has an anchor
(`AnnualAccount.DueIsPicked`), because whoever stores an anchor grants the first slot with it. Over
arbitrary rows they would differ exactly on one that was never granted and whose anchor is still ahead
(`DueWhenPicked`; `EarlyGrantExample` is such a row).

## Model

| member | source | states |
|---|---|---|
| LedgerInvariant.DebtIsBacked | src/stripe_entitlements/credit_packs.py:1172-1231 | for every order with a lot, active debt never exceeds what is still drawn on the lot, the lot never holds more than the pack less refunded credits, and a lot of a fully refunded order holds nothing |
| LedgerInvariant.NothingCollected | src/stripe_entitlements/credits.py:349-363 | an order with nothing collected has no open debt-collection allocation |
| LedgerInvariant.DebtBound | src/stripe_entitlements/credit_packs.py:1218-1228 | a debt target never exceeds the bigint range |
| LedgerSteps.ReleaseKeeps | src/stripe_entitlements/credits.py:337-346 | releasing uncollected debt keeps the invariant and puts the released atoms in flight to the order's own lot |
| LedgerSteps.SourceNotOlder | src/stripe_entitlements/credits.py:364-377 | a collection never draws on the lot of an order whose debt an older or the same collection paid, so the unwinding graph has no cycle |
| LedgerSteps.SourceIsAbove | src/stripe_entitlements/credits.py:388-411 | the lot a collection drew on is not being unwound, and all collections for its own debt are younger than every collection being reversed |
| LedgerSteps.BeginReversal | src/stripe_entitlements/credits.py:388-399 | forgiving a collection before its allocation is marked leaves an invariant state with that order suspended |
| LedgerSteps.EndReversal | src/stripe_entitlements/credits.py:412-435 | marking the allocation after the nested call settles its debt and its source lot again, whatever the nested call did |
| LedgerSteps.CollectKeeps | src/stripe_entitlements/credit_packs.py:209-231 | paying debt from a lot without active debt, or from the subscription, keeps the invariant, acyclicity included |
| LedgerSteps.LotMoveKeeps | src/stripe_entitlements/credits.py:492-552 | any change of a lot's own holdings keeps conservation up to the amount in flight; atoms return to a lot only once its debt is forgiven |
| LedgerSteps.ReturnFits | src/stripe_entitlements/credits.py:503-552 | what a product refund returns fits under both headroom clamps, exceeds no bound, and never meets a terminal lot |
| LedgerSteps.ReversingAt | src/stripe_entitlements/credits.py:371-384 | the next collection to reverse is not being visited, and its debit equals its allocation |
| LedgerSteps.ReversingEnd | src/stripe_entitlements/credits.py:365-438 | when the collections are exhausted nothing is left to reverse |
| LedgerSteps.ForgiveDrops | src/stripe_entitlements/credits.py:388-399 | forgiving part of a debt lowers total active debt, the measure of the mutual recursion |
| LedgerSteps.PayingEnd | src/stripe_entitlements/credit_packs.py:189-243 | a finished collection loop paid exactly the smaller of what was available and what is owed, oldest first |
| DebtCollection.PassEnd | src/stripe_entitlements/credit_packs.py:209-231 | the debts after a loop that ran out of atoms or of debts are paid oldest first, to exactly that amount |
| DebtCollection.PaidOldestFirstUnique | src/stripe_entitlements/credit_packs.py:199-231 | oldest-first payment of an amount has one outcome, so at most one debt is left partly paid |
| DebtCollection.FundingPassEnd | src/stripe_entitlements/clawbacks.py:28-64 | the same for subscription-side debts of the current epoch |
| DebtCollection.BalanceIsLogged | src/stripe_entitlements/credits.py:232-310 | the stored subscription balance is the sum of all logged deltas |
| LedgerSteps.CollectionIsWhole | src/stripe_entitlements/credit_packs.py:144-186 | a collection is a new debit whose amount is all its allocations drew, from its source alone; no other debit changes, nor what it drew |
| CreditLedger.Ledger.PayPackDebts | src/stripe_entitlements/credit_packs.py:199-231 | the loop pays min(available, owed), oldest first (debts queue as they arise, see `Clawback`), and changes nothing but debts, debits and allocations |
| CreditLedger.Ledger.CollectPackDebtsFromLot | src/stripe_entitlements/credit_packs.py:189-243 | and takes exactly that from the lot; live funds plus atoms drawn stay constant |
| CreditLedger.Ledger.CollectPackDebtsFromSubscription | src/stripe_entitlements/credit_packs.py:246-309 | the same from the subscription balance, which never goes negative, with exactly one telescoping log row per collection |
| CreditLedger.Ledger.CollectClawbackDebts | src/stripe_entitlements/clawbacks.py:8-71 | the same for subscription-side debts of the current epoch |
| CreditLedger.Ledger.ReturnSubscriptionAtoms | src/stripe_entitlements/credits.py:258-310 | returns all or nothing by spendability, fails exactly when the balance would pass the bigint range, and then pays subscription-side debt before pack debt |
| DebtPriority.FirstCredit | src/stripe_entitlements/credits.py:280-310 | atoms returned to the subscription pay both kinds of debt before the balance may rise, and whatever they pay the account is worth exactly that much more |
| DebtPriority.FirstRefill | src/stripe_entitlements/credits.py:509-527 | atoms returned to a lot pay outstanding debt before the lot may hold more, and whatever they pay the account is worth exactly that much more |
| DebtPriority.InvoicesThen | src/stripe_entitlements/credits.py:280-310 | over a whole refund, debts of invoices are paid oldest first, and all of them before any pack debt is paid from the subscription |
| DebtPriority.FirstRelease | src/stripe_entitlements/credits.py:337-346 | releasing debt that was never paid cancels as many of the atoms given back: the account is worth that much more, and owes that much less |
| DebtPriority.NothingOwedStays | src/stripe_entitlements/credits.py:312-552 | a refund that finds nothing owed leaves nothing owed |
| CreditLedger.Ledger.RefillLot | src/stripe_entitlements/credits.py:515-527 | the lot part of that: debt is paid first, the rest stays on the lot, and with nothing owed all of it does |
| CreditLedger.Ledger.FetchCollections | src/stripe_entitlements/credits.py:349-364 | lists every open collection of an order's debt once |
| CreditLedger.Ledger.RelievePackDebt | src/stripe_entitlements/credits.py:312-438 | forgives exactly min(amount, active debt), uncollected debt first, leaves the order's lot and what is drawn on it alone, recovers at most that, raises what the account is worth by exactly that, pays what is owed before anything may be spent, and terminates; cycle, inconsistency and missing-funding errors do not occur |
| CreditLedger.Ledger.ReverseCollections | src/stripe_entitlements/credits.py:365-438 | reverses exactly the amount asked for, and the account is worth that much more |
| CreditLedger.Ledger.ReverseOne | src/stripe_entitlements/credits.py:385-436 | one collection reversed: debt moved from collected to released, source restored, allocation and debit marked |
| CreditLedger.Ledger.RestoreAllocationEffect | src/stripe_entitlements/credits.py:440-552 | reverses one allocation at its source without moving its marker; a spendable subscription takes all of it back and any other none, a live lot all its own debt does not claim; whole when nothing is owed and the source is open |
| Refunding.AssuredEpoch | src/stripe_entitlements/credits.py:258-310 | a spendable subscription assures all that a debit drew on it in this epoch |
| Refunding.MadeGoodStep | src/stripe_entitlements/credits.py:617-656 | with every row returned, what the refund restores covers what the sources of the rows so far assure, and the debt of each lot is forgiven as far as what they drew on it reaches |
| CreditLedger.Ledger.RestorePack | src/stripe_entitlements/credits.py:469-552 | for a lot: first its expiry, then its debt, then the rest back to it, or to expired when its window has closed |
| CreditLedger.Ledger.ReturnToLot | src/stripe_entitlements/credits.py:500-552 | everything not claimed by debt comes back, untruncated by either clamp |
| LedgerBoundary.ExpireAllKeeps | src/stripe_entitlements/credits.py:86-112 | projecting lazy expiry keeps the invariant |
| LedgerBoundary.ExpiryIsUnobservable | src/stripe_entitlements/credit_packs.py:117-134 | and changes no spendable lot total at that time or later |
| Spending.ProjectionIsInvisible | src/stripe_entitlements/entitlements.py:171-177 | nor any balance reported |
| CreditLedger.Ledger.ExpireAccountPackLots | src/stripe_entitlements/credits.py:86-112 | exactly the lapsed active lots expire; reports whether any lot is expired |
| Spending.SpendingOrderOk | src/stripe_entitlements/credits.py:169-185 | the sources of a charge are the account's live funds, once each, in expiry order, and add up to the reported balance |
| Spending.PoolIsLive | src/stripe_entitlements/credits.py:169-185 | the sources of a charge are exactly the lots in their window and the subscription that is active, not revoked and in its window, in an order fixed by expiry, then lots before the subscription, then lot id |
| Spending.ReportedBalance | src/stripe_entitlements/credit_packs.py:117-141 | a subscription that is inactive, revoked or past its window adds nothing to the reported balance |
| CreditLedger.RefusalExplained | src/stripe_entitlements/credits.py:186-193 | which refusal a charge without funds gets: insufficient unless there is nothing at all to spend, and then a lot that ran out outranks an inactive or revoked subscription |
| Fefo.DrawPays | src/stripe_entitlements/credits.py:194-231 | FEFO pays exactly the amount and touches a source only when all earlier-expiring ones are empty |
| Fefo.ChargeKeepsDominance | src/stripe_entitlements/credits.py:194-231 | one charge keeps FEFO at least as well off as any other way of paying |
| Fefo.FefoIsOptimal | src/stripe_entitlements/credits.py:169-231 | over any history of charges and expiry FEFO pays whatever any other strategy can pay, and stays ahead |
| Fefo.FefoLeavesMost | src/stripe_entitlements/credits.py:169-231 | for every future cutoff at least as many credits survive as under any other strategy |
| FefoCharges.LeftIsReported | src/stripe_entitlements/credit_packs.py:117-141 | the funds that outlive a cutoff are exactly the balance reported then |
| FefoCharges.ChargeRestocks | src/stripe_entitlements/credits.py:194-231 | what a charge leaves in its sources is what FEFO leaves in the pool |
| FefoCharges.ChargeAndForecast | src/stripe_entitlements/credits.py:114-255 | after a charge every later balance is what it was to be, or all that is left now, whichever is less |
| FefoCharges.SpendAll | src/stripe_entitlements/credits.py:114-255 | over any run of charges the ledger pays whatever another strategy could, and reports at every later time at least what that strategy would have left |
| CreditLedger.Ledger.DrawSources | src/stripe_entitlements/credits.py:194-231 | the charge loop draws the FEFO share of every source |
| CreditLedger.Ledger.Charge | src/stripe_entitlements/credits.py:114-255 | accepted exactly when the key is fresh and the reported balance covers the amount; draws FEFO shares, logs the subscription part, conserves funds; repeats and refusals have no effect, and a refusal gives the reason that fits the account |
| CreditLedger.Ledger.TryRefund | src/stripe_entitlements/credits.py:554-689 | what a refund does before a refusal rolls it back |
| CreditLedger.Ledger.RefundRows | src/stripe_entitlements/credits.py:617-656 | the refund loop returns every allocation once, restores at most the debit and at least what its sources assure, raises what the account is worth by exactly the debit, and stops early only at the row that does not fit |
| CreditLedger.Ledger.CloseUsage | src/stripe_entitlements/credits.py:658-671 | neither the overflow check nor "restored credits exceed" is reached; the debit closes with what it got back |
| CreditLedger.Ledger.Refund | src/stripe_entitlements/credits.py:554-689 | takes effect at most once, raises what the account is worth by exactly the debit and live funds by exactly what it restores, restores at most the debit and at least what its sources assure, all it drew this epoch on a spendable subscription included, forgives the debt of the lots it drew on as far as that reaches, lets a lot or the balance grow only when nothing owed is left to pay from it, is never rejected while the account has room, without debt to unwind is rejected exactly when the balance cannot hold its share, and with nothing owed and all sources open undoes the charge source by source |
| DebtPriority.FirstMark | src/stripe_entitlements/credits.py:412-436 | marking the returned allocation takes back the exposure its return had added, so the subscription's exposure never rises in a refund, and gives up for good what its source no longer takes |
| DebtPriority.RowFits | src/stripe_entitlements/credits.py:270-280 | an open row of this epoch fits into the balance whenever the exposure is within the bound |
| Refunding.FitsRow | src/stripe_entitlements/credits.py:617-656 | without debt to unwind, the row that fails to return is the debit's one row of this epoch, and fails exactly when it does not fit |
| RefundRoom.UpgradeThenRefund | src/stripe_entitlements/credits.py:270-280 | a run in which a refund does not fit |
| CreditLedger.Ledger.GrantUpgrade | src/stripe_entitlements/processor.py:1440-1512 | raises the balance within its epoch, by no more than the upgrade, pays both kinds of debt first, and is refused exactly when it would pass the bound |
| RoundTrip.ChargeThenRefund | src/stripe_entitlements/credits.py:114-689 | charging and refunding, with nothing owed and nothing lapsing, restores every balance, lot and debt and the whole amount |
| LedgerBoundary.CashShareRoundsUp | src/stripe_entitlements/credit_packs.py:1108-1112 | the atoms computed for a cash refund are the one whole number that covers the cash's part of the price and exceeds it by less than one atom |
| LedgerBoundary.CashShareBounds | src/stripe_entitlements/credit_packs.py:1108-1112 | the atoms of a cash refund lie between none and the pack, and reach the pack with the full price |
| LedgerBoundary.CashShareMonotone | src/stripe_entitlements/credit_packs.py:1107-1112 | more cash never takes fewer atoms |
| CashFacts.OrderAfterOk | src/stripe_entitlements/credit_packs.py:1107-1118 | a claim raises cash to the largest seen, a dispute to the price, and atoms to its share of the pack, rounded up; the label tells a dispute, a full and a partial refund apart |
| CashFacts.ClaimKeeps | src/stripe_entitlements/credit_packs.py:1151-1231 | taking a claim from the lot and leaving the rest as debt keeps the invariant; neither checked addition can overflow |
| CashFacts.RecordKeeps | src/stripe_entitlements/credit_packs.py:1119-1150 | cash facts that take no atoms keep the invariant; a disputed order's lot is closed as disputed |
| CashFacts.FundKeeps | src/stripe_entitlements/credit_packs.py:857-889 | the lot a payment creates fits the cash facts that came before it |
| CashFacts.FundedLotHolds | src/stripe_entitlements/credit_packs.py:857-889 | the lot a payment creates holds, live or already expired, what cash refunds left of the pack, and is closed exactly when they left nothing |
| CashFacts.LargestClaimIsLargest | src/stripe_entitlements/credit_packs.py:1107-1107 | the cash counted is the least upper bound of the facts |
| CashFacts.DeliveryOrderIsIrrelevant | src/stripe_entitlements/credit_packs.py:1107-1151 | duplicated or reordered deliveries of the same facts count the same cash |
| CashFacts.UntappedLotFollowsCash | src/stripe_entitlements/credit_packs.py:1151-1231 | a lot with nothing drawn on it, no debt and nothing expired has lost exactly the share of the cash that went back, and holds the rest |
| CashFacts.UnpaidIsUntapped | src/stripe_entitlements/credit_packs.py:1198-1216 | an order that is not paid yet has nothing drawn on it and owes nothing |
| CashRuns.ClearRun | src/stripe_entitlements/credit_packs.py:754-1231 | from an account with no debt left to pay, over any run without charges whose window for an order stays open and whose claims concern only orders with nothing drawn on or owed by them: nothing is drawn, no debt arises, and the order's lot ends with what its largest claim left of the pack |
| CashRuns.UnspentRun | src/stripe_entitlements/credit_packs.py:754-1231 | in particular from an account that never spent, where every order may be claimed against |
| CashRuns.DeliveredEitherWay | src/stripe_entitlements/credit_packs.py:754-1231 | two such runs, each from an account with no debt left to pay, that deliver the same claims and the payment in any order and number leave the same remaining and clawed-back atoms, and no further debt |
| LedgerRuns.StoryIsLargest | src/stripe_entitlements/credit_packs.py:1107-1107 | over a run an order has lost exactly the largest claim made against it |
| LedgerRuns.StoryOfNewOrder | src/stripe_entitlements/credit_packs.py:1107-1107 | the same for an order registered during the run, from then on |
| LedgerRuns.RefundLots | src/stripe_entitlements/credits.py:554-689 | a product refund with nothing owed draws nothing and leaves the lots of untouched orders as they were |
| CreditLedger.Ledger.PaymentSucceeded | src/stripe_entitlements/credit_packs.py:754-897 | funds an order's lot once, with what earlier cash refunds left of the pack, live only if its window is still open, and first pays outstanding debt |
| CreditLedger.Ledger.Clawback | src/stripe_entitlements/credit_packs.py:1107-1251 | moves the order to the largest claim and its share rounded up, takes the difference from the lot, then as debt; a debt that arises goes to the end of the queue; the overflow errors do not occur |
| CreditLedger.Ledger.GrantEpoch | src/stripe_entitlements/annual.py:208-249 | a new epoch replaces the balance, logs the difference, and pays pack debt from it, oldest first, with one log row per collection |
| LedgerRuns.BoundaryAccounts | src/stripe_entitlements/credit_packs.py:857-896 | every atom of a pack is remaining, expired, clawed back, forgiven or drawn; collected debt is what its collections hold; refunded credits are clawed-back plus debt, and the rounded-up share of the cash |
| LedgerRuns.Run | src/stripe_entitlements/credits.py:114-689 | over any run of any transactions all of this holds, no refunded debit or recorded draw is rewritten, debts stay queued in the order in which they arose, the balance is what the log says, each order has lost its largest claim, and unless the balance is raised within an epoch no refund fails to fit |
| LedgerRuns.Apply | src/stripe_entitlements/credits.py:114-689 | one transaction of such a run |
| Fencing.NothingAfterTheEnd | examples/job_outbox/workflow.py:662-757 | an attempt is completed or failed at most once, and nothing happens to it afterwards |
| Fencing.OnlyTheNewestActs | examples/job_outbox/workflow.py:662-757 | only the newest token of a job renews or ends it; a superseded one never does |
| Fencing.ActsWhileLive | examples/job_outbox/workflow.py:662-757 | a token renews, completes or fails only while the lease last given to it is live |
| Fencing.TakenOverAfterExpiry | examples/job_outbox/workflow.py:625-660 | a job changes hands only once the lease last given for it has run out, and never after it ended |
| Fencing.OneLiveToken | examples/job_outbox/workflow.py:554-757 | under a clock that does not run backwards, two live tokens of one job never coexist |
| Fencing.GenerationsIncrease | examples/job_outbox/workflow.py:625-660 | generations of a job strictly increase |
| Fencing.TokensAreFresh | examples/job_outbox/workflow.py:564-635 | no execution token is issued twice |
| JobSteps.HeldRowIsCurrent | examples/job_outbox/workflow.py:296-389 | a billing row held by a claim belongs to a job and attempt waiting for that operation, so the finalizers' state errors do not occur |
| JobSteps.ClaimExcludes | examples/job_outbox/workflow.py:224-273 | a claimed row may be claimed again from the end of its lease on, and not before |
| JobSteps.ReleaseWaits | examples/job_outbox/workflow.py:430-451 | a row given back may be claimed from its retry time on, and not before |
| JobSteps.FinishedRowsRest | examples/job_outbox/workflow.py:224-273 | a finished or abandoned row is never claimed again, and a job never has two claimable rows |
| JobSteps.FirstDeliveryFindsReady | examples/job_outbox/workflow.py:564-611 | a first delivery finds the attempt and the job ready |
| JobSteps.ExecutingIsPaid | examples/job_outbox/workflow.py:715-757 | an executing attempt has a running job, a completed charge and no refund row |
| JobSteps.FinalizedOk | examples/job_outbox/workflow.py:296-389 | each finalization leaves job, attempt and outbox rows in agreement |
| JobSteps.HolderKeeps | examples/job_outbox/workflow.py:662-757 | so do renewing, completing and failing, together with the fenced history |
| JobWorkflow.JobWorkflowStore.SubmitJob | examples/job_outbox/workflow.py:143-222 | one request key is one job with one set of terms |
| JobWorkflow.JobWorkflowStore.ClaimBilling | examples/job_outbox/workflow.py:224-273 | the first due or lapsed rows of waiting jobs in queue order are claimed, up to the limit and none left out, under one fresh token, and nobody may claim them again before the lease ends |
| JobWorkflow.JobWorkflowStore.FinalizeChargeSuccess | examples/job_outbox/workflow.py:296-330 | succeeds exactly for the current claim with a live lease, and queues the dispatch |
| JobWorkflow.JobWorkflowStore.FinalizeChargeRejected | examples/job_outbox/workflow.py:332-359 | the same for a refusal |
| JobWorkflow.JobWorkflowStore.FinalizeRefundSuccess | examples/job_outbox/workflow.py:361-389 | the same for a refund |
| JobWorkflow.JobWorkflowStore.ReleaseBillingClaim | examples/job_outbox/workflow.py:430-451 | only the holder gives a row back, whether or not its lease lapsed, and it waits for its retry time |
| JobWorkflow.JobWorkflowStore.FinalizeBillingPermanentFailure | examples/job_outbox/workflow.py:453-475 | stops retrying without touching job or attempt |
| JobWorkflow.JobWorkflowStore.ClaimDispatch | examples/job_outbox/workflow.py:477-514 | the same for dispatch rows as for billing rows |
| JobWorkflow.JobWorkflowStore.FinalizeDispatch | examples/job_outbox/workflow.py:516-529 | only the current, live holder confirms a publication |
| JobWorkflow.JobWorkflowStore.ReleaseDispatchClaim | examples/job_outbox/workflow.py:531-552 | only the holder gives a dispatch back |
| JobWorkflow.JobWorkflowStore.ConsumeDispatch | examples/job_outbox/workflow.py:554-623 | a delivery starts the job at most once; every other delivery changes nothing |
| JobWorkflow.JobWorkflowStore.ReclaimExecution | examples/job_outbox/workflow.py:625-660 | a lapsed execution changes hands with a higher generation |
| JobWorkflow.JobWorkflowStore.RenewExecution | examples/job_outbox/workflow.py:687-713 | exactly the live holder extends its lease |
| JobWorkflow.JobWorkflowStore.CompleteExecution | examples/job_outbox/workflow.py:662-685 | exactly the live holder completes, and the job state error does not occur |
| JobWorkflow.JobWorkflowStore.FailExecution | examples/job_outbox/workflow.py:715-757 | exactly the live holder fails, and the refund row is always created with it |
| JobSaga.Saga.Settle | examples/job_outbox/workflow.py:784-856 | reply by reply: a lost answer only puts a row still held back for retry, a refused charge rejects the job and a refused refund goes to an operator exactly under a live claim, an answer completes the operation exactly under a live claim; host and billing stay in step even when the call landed after the lease lapsed |
| JobSaga.SettledMoves | examples/job_outbox/workflow.py:784-856 | whatever is reported on a row still held matches what billing holds under the credit key |
| JobSaga.StoryHolds | examples/job_outbox/workflow.py:296-389 | ready, running and succeeded jobs have one effective charge and no refund request; failed jobs completed charge and refund |
| JobSaga.Saga.Run | examples/job_outbox/workflow.py:143-856 | over any schedule of batches, workers, crashes, redeliveries, takeovers and stale claims every request submitted has its job, every job's story holds and its history is fenced, and timed by the schedule's clock |
| KeyRefresh.RefreshGate.UnknownIsCached | src/stripe_entitlements/auth_starters.py:270-278 | a hit becomes the most recent entry, a lapsed entry is dropped; a cached miss is live, and right about the published keys |
| KeyRefresh.RefreshGate.RememberUnknown | src/stripe_entitlements/auth_starters.py:259-268 | the newest misses are kept, once each, the oldest evicted; the cache stays bounded and no entry outlives the next allowed refresh |
| KeyRefresh.RefreshGate.Admit | src/stripe_entitlements/auth_starters.py:323-369 | the exact verdict in every state: a live known key is answered at once, a recent miss before anything else, then a refresh in flight, the cooldown after a failure, and the cooldown after a success; a refresh is admitted only when none is in flight and the cooldown is over, and then always |
| KeyRefresh.RefreshGate.Complete | src/stripe_entitlements/auth_starters.py:280-321 | publishing clears the misses, and the next refresh is allowed no later than the snapshot expires |
| KeyRefresh.RefreshGate.AfterMiss | src/stripe_entitlements/auth_starters.py:371-387 | the fetching thread reports its own miss against whatever is published by then |
| KeyRefresh.FetchBudget | src/stripe_entitlements/auth_starters.py:208-217 | the number of fetches is bounded by time alone, whatever key ids are asked for |
| KeyRefresh.Step | src/stripe_entitlements/auth_starters.py:323-387 | at most one thread is fetching, exactly the one the gate admitted, and when it returns, early or late, the gate is free again |
| KeyRefresh.Run | src/stripe_entitlements/auth_starters.py:280-387 | over any schedule of threads fetches stay a cooldown apart and the negative cache stays bounded |
| PlanChanges.ChangeStore.Reserve | src/stripe_entitlements/plan_changes.py:463-591 | one key is one intent with one target, a new intent finds no other open, only what has run out is failed on the way, and every refusal rolls back whole |
| PlanChanges.LapsedIsOverdue | src/stripe_entitlements/plan_changes.py:474-489 | what reserving fails is exactly a preview that can no longer be confirmed and a remote action whose deadline has passed |
| PlanChanges.ChangeStore.AcquireLease | src/stripe_entitlements/plan_changes.py:593-609 | a reserved intent is leased only while idle, to a token nobody held before |
| PlanChanges.ChangeStore.StorePreview | src/stripe_entitlements/plan_changes.py:842-890 | the request snapshot is written once, by the leaseholder, before any start |
| PlanChanges.ChangeStore.RetireUnfrozen | src/stripe_entitlements/plan_changes.py:772-782 | only an unfrozen intent is retired, by its leaseholder |
| PlanChanges.ChangeStore.AcquireConfirmation | src/stripe_entitlements/plan_changes.py:611-626 | a live preview or an abandoned confirmation is taken over, never a held one |
| PlanChanges.ChangeStore.ExpireIfIdle | src/stripe_entitlements/plan_changes.py:642-656 | only an idle, lapsed preview expires |
| PlanChanges.ChangeStore.MarkStarted | src/stripe_entitlements/plan_changes.py:628-640 | the durable start mark is set once, by the leaseholder |
| PlanChanges.ChangeStore.Finish | src/stripe_entitlements/plan_changes.py:951-1008 | the outcome is recorded by the leaseholder; a settlement invoice is never replaced |
| PlanChanges.ChangeStore.ReleaseAfterError | src/stripe_entitlements/plan_changes.py:1010-1024 | an unstarted confirmation becomes a preview again, a started one never does |
| PlanChanges.CallsAgree | src/stripe_entitlements/plan_changes.py:784-804 | all remote mutations of one intent are the same request, and different intents never share one |
| PlanChanges.OneActs | src/stripe_entitlements/plan_changes.py:593-640 | however many workers were started for an intent, at most one may take a step its lease guards |
| PlanChanges.Coordinator.Step | src/stripe_entitlements/plan_changes.py:201-461 | no step takes back a snapshot, a start mark, a settlement or a final status; a lease that is taken gets its worker, only a worker that may act moves its intent, and a started worker calls once, with the frozen request |
| PlanChanges.Coordinator.Run | src/stripe_entitlements/plan_changes.py:201-461 | the same over any interleaving of workers, lease expiry, crashes and retries, and at most one worker may act on an intent |
| AnnualGrants.SlotsIncrease | src/stripe_entitlements/annual.py:71-72 | with month addition clamped to the month end, later slots begin strictly later |
| AnnualGrants.MonthsTile | src/stripe_entitlements/annual.py:71-72 | the month lengths used are those of the Gregorian calendar, leap days included |
| AnnualGrants.AddMonthsIsLatest | src/stripe_entitlements/annual.py:179-188 | a slot boundary is the same time of day on the latest day of its month that is not past the anchor's day |
| AnnualGrants.BoundariesPassed | src/stripe_entitlements/annual.py:179-188 | the boundaries counted are exactly those that have passed |
| AnnualGrants.TargetIsCurrent | src/stripe_entitlements/annual.py:189-189 | the slot picked is the first whose end has not passed, or the last one funded |
| AnnualGrants.DueWhenPicked | src/stripe_entitlements/annual.py:64-79 | over arbitrary rows the query's slot and time condition holds exactly when the grant would pick a new slot, if and only if the row was granted before, has no slots, or its anchor has come |
| AnnualGrants.AnnualAccount.DueIsPicked | src/stripe_entitlements/annual.py:64-79 | an eligible account with an anchor is due exactly when the grant would pick a slot above those issued |
| AnnualGrants.AnnualAccount.BeginTerm | src/stripe_entitlements/processor.py:1034-1187 | a paid annual invoice that funds a slot stores the anchor and issues the first slot with it, as a fresh epoch of the full monthly amount; one that funds none changes nothing |
| AnnualGrants.UncappedSlotIsLive | src/stripe_entitlements/annual.py:189-222 | a grant at slot boundaries+1 ends strictly in the future |
| AnnualGrants.AnnualAccount.GrantDue | src/stripe_entitlements/annual.py:81-255 | grants exactly the new, funded slot, within the allowance, once: the balance is set to the monthly amount less the pack debt it pays, oldest first, the log says so, and the window is right |
| AnnualGrants.Work | src/stripe_entitlements/annual.py:81-255 | over overlapping workers, invoice refunds and new terms, within every term issued slots strictly increase and never pass twelve, nor, while no new term begins, what was allowed; and once a confirmed worker is done nothing is due at its time |
| CreditAmounts.ParseUndoesPrint | src/stripe_entitlements/credit_amount.py:37-72 | parsing undoes printing for every storable count |
| CreditAmounts.PrintUndoesParse | src/stripe_entitlements/credit_amount.py:37-72 | printing undoes parsing up to trailing fractional zeros |
| CreditAmounts.PrintIsInjective | src/stripe_entitlements/credit_amount.py:64-72 | distinct counts print differently, aggregates included |
| CreditAmounts.ParseAcceptsWhatFits | src/stripe_entitlements/credit_amount.py:37-61 | a text is accepted exactly when it is a plain decimal whose scaled value fits |
| Proration.RoundedPairsPass | src/stripe_entitlements/plan_changes.py:294-316 | every pair within half a minor unit of one common fraction of the two prices passes the ratio check |
| Proration.AcceptedQuoteIsProportional | src/stripe_entitlements/plan_changes.py:294-318 | an accepted quote charges new money for the difference of the two prorations and nothing else, within rounding of the source proration's share of the price difference |
| Proration.HonestQuoteIsAccepted | src/stripe_entitlements/plan_changes.py:294-336 | such a quote goes through immediately exactly when its rounded amounts are positive and distinct |
| Proration.FullQuoteIsThePrice | src/stripe_entitlements/plan_changes.py:319-328 | under the full-period policy exactly a clean quote of the whole target price goes through |

## Left out

- CreditLedger.Ledger.Refund: while debt is owed, the rise of live funds is exact, but how much more than assured each single lot regains, once collections are reversed and other debt is paid in between, is not stated; and where debt is unwound, having no room is stated as necessary for the balance error, not as sufficient.
- CreditLedger.Ledger.FetchCollections: the order in which collections are reversed is left to any order; the source sorts by transaction start and a random key, and nothing proved depends on it.
- CreditLedger.Ledger.Clawback: the refund or dispute has already been matched against the order; the field-by-field contract with the payment provider is not part of this model.
- CreditLedger.Ledger.PaymentSucceeded: likewise for the payment, and for binding provider identities to the order.
- PlanChanges.ChangeStore.Reserve: whether the account may change plans at all (active subscription, known period, funding lineage) is a parameter, `Standing`; not part of this model are the checks against remote state between steps, nor the limit on the age of a retried start.
- JobWorkflow.JobWorkflowStore.ClaimBilling: the rows come in the order given, as do those of `ClaimDispatch`; that the source orders them by availability, creation and id, and skips locked ones, is left to the caller.
- AnnualGrants.AnnualAccount.GrantDue: whether the remote subscription matches the local plan is a parameter.
- Several accounts: each ledger is one account, so the checks that rows belong to the locked account do not appear.
- The compatibility path for usage debits without allocations, and rows without a request snapshot version.
- `processor.py` beyond the start of an annual term and the prorated upgrade, `reconcile.py`, `pack_reconcile.py` and `stripe_gateway.py` are not part of this model; what the ledger needs of the subscription projection is an environment step.
- Debts queue in creation order; that the clock does not step back between two clawbacks is taken for granted.
- SQL, connection pools, Stripe and queue input and output, migrations, web routes, catalog policy, token verification, and configuration.
