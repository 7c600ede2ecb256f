# GhostBill: a verified model of the billing backend

This project models the money path of the GhostBill backend in Dafny and proves what it keeps over
whole runs. Tables are maps and sequences, a database transaction is one atomic step, amounts are
integer piconero and times integer microseconds.

Each component comes in two forms. A *specification* gives the content of the tables as a value, one
function per step, and runs as sequences of steps; the safety theorems are about these, and the modules
`SettlementLaws` and `BillingLaws` say what each step means in plain table contents, numbers and days,
without naming the functions that specify it. *Services* are
classes whose fields are the tables: their methods follow the branches, loops and assignments of the
Python code, and each is proved to leave exactly the state its step function gives.

| part | files |
|---|---|
| settlement of invoices from observed transfers | `Settlement`, `SettlementSums`, `SettlementInvariant`, `SettlementRuns`, `SettlementReversal`, `SettlementScan`, `SettlementLaws`, `SettlementServices` |
| subscription billing timeline, edits, grace | `BillingAnchor`, `Billing`, `BillingRuns`, `BillingTiling`, `BillingPrepayRuns`, `BillingGrace`, `BillingLaws`, `BillingServices` |
| prepay prices and plans | `PrepayPrice` |
| settlement and billing together | `Backend` |
| webhook deliveries and dead letters | `Webhooks`, `WebhookServices` |
| background-task lease | `Lease` |
| rate limiters | `SlidingWindow`, `FixedWindow` |
| cursor pagination | `Pagination` |

`dafny verify dfyconfig.toml` checks everything.

## What the proofs found

The model follows the code where code and documentation, or code and the obvious expectation, differ:

- Confirmed payments are never polled again, so the automatic reversal of a confirmed payment that
  `README.md:51` announces does not happen under the deployed loops: settlement is final there, and
  `invoice.reverted` is never queued (`LoopsNeverUnsettle`, `LoopsNeverAnnounceReversal`). The reorg
  handler itself is right when it is called (`ReorgRevertsIff`).
- Payments are looked up by transaction hash alone. A transaction with two outputs to us counts, once and for
  good, for the invoice it was first seen for, and never for the other one it pays (`OnlyTheFirstOutputCounts`,
  `TransferIsCreditedIff`); and a sighting under the second address can leave the first invoice behind its own
  payments, exactly when it is the one that confirms them (`ForeignSightingSettlesIff`, `TwoOutputsBreakTheBooks`).
  Only the theorems about statuses as functions of the recorded sums assume that this does not happen
  (`OneOutputRun`); events, hooks, lanes and the finality of settlements need no such assumption.
- A renewal invoice may live thirty days at most, and it is asked to live for soft plus hard grace. Edits
  that add up to more are accepted and stop the subscription from ever renewing; so do amounts above a billion
  XMR, and amounts below one piconero, on which the renewal's transaction is rolled back
  (`BillableIff`, `UnbillableNeverRenews`).
- For the same reason hard grace is effectively soft plus hard grace after the issue
  (`RenewalInvoiceOutlivesHardGrace`). Right after the invoice expirer, a grace pass expires exactly the
  subscriptions with an overdue invoice that somebody has begun to pay, not those that nobody pays
  (`ExpiredAfterTheExpirerIff`).
- Pending changes are applied before the invoice is made, and a sweep that bills nothing commits them, whether
  the wallet is down or the invoice is refused (`FailedSweepKeepsTermsIff`).
- Recovery accepts any paid linked invoice, however old: one payment disarms soft grace for ever
  (`OncePaidNeverPastDue`, `LoopsNeverMakePaidPastDue`).
- A late resumption takes the due date off the anchor's grid; `RenewalOverlapsIff` says exactly when the next
  renewal then bills time twice although no two periods start together. That renewal ends the matter: it puts the
  due date back on the grid, and from there periods are conserved (`ConservationResumesWithBilling`).
- Retrying a dead-lettered delivery directly leaves its letter open (`DirectRetryLeavesLetterOpen`). A retried
  letter gets the full seven attempts, not the single one that `backend/app/api/routes/webhooks.py:188` announces.
- Every loop asks for a lease of twice its interval, so a lone worker works every second turn
  (`LoneWorkerRunsEverySecondTurn`).
- At most `2 * limit - 1`, not `2 * limit`, requests pass the merchant limiter in a minute.

## Model

| member | source | states |
|---|---|---|
| `SettlementRuns.StatusIsAlwaysTheRecomputedOne` | backend/app/services/payment_service.py:374-480 | over every run from empty tables in which a transaction pays one subaddress (scans, polls, reorgs, expiries, cancellations in any order) each live invoice has exactly the status its confirmed sum calls for, and a settled one carries its settlement time |
| `SettlementRuns.ReceiversKnowWhatIsSettled` | backend/app/services/payment_service.py:573-617 | over every run, two-output transactions included, a receiver folding the invoice events agrees with the invoice table; hook calls exceed reversals by one exactly while the invoice is settled; each payment is announced as detected exactly once and as confirmed at most once |
| `SettlementRuns.LanesAreFinal` | backend/app/services/invoice_service.py:51-86 | over every legal run the late lane (expired, late_paid) is never left and a cancelled invoice never changes at all |
| `SettlementLaws.NothingSettlesBeforeTenBlocks` | backend/app/services/payment_service.py:41 | over every run from empty tables in which no scan and no poll reports ten confirmations, no payment is confirmed, every sum is zero, no invoice shows money and no hook is called |
| `SettlementLaws.ConfirmedNeedsTenBlocks` | backend/app/services/payment_service.py:259-279 | a payment that no report of a run gives ten confirmations is not confirmed in it, whatever happens to the others |
| `SettlementLaws.TenBlocksConfirm` | backend/app/services/payment_service.py:313-372 | a sighting of 0.0001 XMR or more at a known address with ten confirmations confirms the payment exactly unless it is recorded as orphaned |
| `SettlementLaws.PollConfirmsIff` | backend/app/tasks/detection_confirmations.py:59-89 | a poll confirms the detected payment it finds exactly from ten confirmations on |
| `SettlementLaws.FullPaymentSettlesIff` | backend/app/services/payment_service.py:171-246 | a new transfer of at least the amount asked for settles its invoice, and calls the hook, exactly from ten confirmations on |
| `SettlementLaws.SightingIsRecordedIff` | backend/app/services/payment_service.py:205-246 | a sighting leaves a row exactly for 0.0001 XMR or more at a known address, and any other changes nothing |
| `SettlementLaws.ExpiresIff` | backend/app/services/expiration_service.py:46-70 | the expirer expires exactly the pending invoices whose time is over and that no detected or confirmed payment names |
| `SettlementLaws.NotExpiredBeforeItsTime` | backend/app/services/expiration_service.py:57-65 | over every run whose expirer passes come within an invoice's time, it is neither expired nor paid late |
| `SettlementLaws.ExpiryIsAnnouncedOnce` | backend/app/services/expiration_service.py:97-104 | over every run invoice.expired is queued exactly once for each invoice in the late lane and for no other |
| `SettlementLaws.CancelsIff` | backend/app/services/invoice_service.py:339-390 | cancelling closes exactly a pending invoice that no detected or confirmed payment names |
| `SettlementLaws.OpensAsAsked` | backend/app/services/invoice_service.py:195-215 | a new invoice is pending, unpaid, asks the amount and lifetime requested, and alone has its address |
| `SettlementLaws.PaidAtIsTheLastSettlement` | backend/app/services/invoice_service.py:423-429 | over every run paid_at is the time of the last step that moved the invoice to a paid status |
| `SettlementServices.TransitionsIff` | backend/app/services/invoice_service.py:51-81 | the transition table in closed form |
| `SettlementRuns.StepKeepsInv` | backend/app/services/payment_service.py:171-558 | each single step keeps well-formed tables and faithful events and hooks, and status = target of the confirmed sum unless a hash is seen for another invoice than the recorded one |
| `SettlementInvariant.TransferSettles` | backend/app/services/payment_service.py:171-246 | processing a transfer, new or seen before, leaves every invoice at the target of its confirmed sum, given that a transaction pays one subaddress |
| `SettlementInvariant.ReorgSettles` | backend/app/services/payment_service.py:511-558 | orphaning any payment leaves every invoice at the target of its remaining confirmed sum |
| `SettlementInvariant.ExpireSettles` | backend/app/services/expiration_service.py:46-76 | the batch update only expires invoices whose confirmed sum is zero, so statuses stay at their targets |
| `SettlementInvariant.EventsTell` | backend/app/services/payment_service.py:573-617 | the events of one step carry a receiver from the old settled flag to the new one, with one reversal exactly when settlement is lost |
| `SettlementInvariant.EventsExactly` | backend/app/services/payment_service.py:573-617 | for each event type, the exact old and new statuses for which it is queued |
| `SettlementScan.ScanningIsRecomputing` | backend/app/services/payment_service.py:171-372 | after any sequence of sightings the payment table is the one recomputed at once from each transaction's largest confirmation count, and each status is the target of that table's sum |
| `SettlementScan.ScansAreConfluent` | backend/app/tasks/detection_engine.py:53-133 | two scans that saw the same transfers in any order and with any repetition end with the same payment rows (up to the block height first reported) and the same invoice statuses |
| `SettlementScan.RowsAfterScan` | backend/app/services/payment_service.py:259-269 | after a scan a non-orphaned payment is confirmed exactly when it has ten confirmations or more, its count has reached the largest one seen, and no row is dust |
| `SettlementScan.OnlyTheFirstOutputCounts` | backend/app/services/payment_service.py:102-110 | over every run, however often and under whatever addresses a transaction is seen, it adds its first amount to the sum of the invoice it was first seen for, while confirmed, and nothing to any other invoice it also pays |
| `SettlementScan.TransferIsCreditedIff` | backend/app/services/payment_service.py:219-246 | a sighting with ten confirmations counts for the invoice whose address it pays exactly unless the hash is already recorded for another invoice or as orphaned |
| `SettlementScan.ForeignSightingIsNotCredited` | backend/app/services/payment_service.py:219-229 | the invoice whose address such a foreign sighting pays gets nothing for it |
| `SettlementScan.OwnSightingRepairs` | backend/app/services/payment_service.py:219-229 | a sighting under the recorded invoice's own address that finds the payment confirmed puts that invoice at its target, whatever state it was left in |
| `SettlementScan.ForeignSightingSettlesIff` | backend/app/services/payment_service.py:219-229 | after a foreign sighting the statuses still match the recorded payments exactly unless it confirms a payment its own invoice has to react to |
| `SettlementScan.TwoOutputsBreakTheBooks` | backend/app/services/payment_service.py:219-229 | a run from empty tables (two invoices opened, one transaction paying both scanned twice) after which the first invoice is pending although its sum is complete, and the second is pending with nothing |
| `SettlementReversal.ReorgRevertsIff` | backend/app/services/payment_service.py:511-558 | orphaning a confirmed payment unsettles its invoice exactly when the invoice was settled and the rest of its confirmed sum falls short |
| `SettlementReversal.LoopsNeverUnsettle` | backend/app/tasks/detection_confirmations.py:28-57 | under the background loops and the API alone, whatever wallet-rpc answers and whatever the transactions look like, a settled invoice that its sum covers stays settled and covered |
| `SettlementReversal.LoopsCover` | backend/app/services/payment_service.py:403-445 | and every settled invoice is covered by its confirmed sum in such runs |
| `SettlementReversal.LoopsNeverAnnounceReversal` | backend/app/services/payment_service.py:560-570 | so over every such run no invoice.reverted is ever queued and the subscription hook runs at most once per invoice |
| `SettlementReversal.VanishedConfirmedPaymentGoesUnnoticed` | backend/app/services/payment_service.py:560-570 | a confirmed payment that covers a paid invoice and then vanishes from the chain changes nothing under any sequence of polls, although handing it to the reorg handler would unsettle the invoice |
| `SettlementReversal.PollingReachesVerdict` | backend/app/tasks/detection_confirmations.py:36-89 | the miss counter implements the streak of consecutive missing answers: polling reaches exactly the first verdict the answers call for |
| `SettlementReversal.OrphanedOnlyAfterThreeMisses` | backend/app/tasks/detection_confirmations.py:42-57 | the verdict orphaned needs at least three missing answers with no sighting in between |
| `SettlementSums.SumSplit` | backend/app/services/payment_service.py:482-496 | the confirmed sum of a table does not depend on the order in which its rows are added |
| `SettlementServices.SettlementEngine.RecalculateInvoiceStatus` | backend/app/services/payment_service.py:374-480 | moves the invoice to the target of its confirmed sum and calls the hook exactly on newly settled invoices |
| `SettlementServices.SettlementEngine.MoveTo` | backend/app/services/payment_service.py:435-445 | the transition table plus the pending-paid-overpaid double step reach every target of the same lane: none is dropped |
| `SettlementServices.SettlementEngine.UpdateStatus` | backend/app/services/invoice_service.py:392-454 | succeeds exactly for the same status or a table transition, stamping paid_at on settled targets, and changes nothing otherwise |
| `SettlementServices.SettlementEngine.CreateInvoice` | backend/app/services/invoice_service.py:157-278 | validates lifetime and amount (positive, at most a billion XMR, at least one piconero), and leaves the tables untouched when the wallet fails |
| `SettlementServices.SettlementEngine.CancelInvoice` | backend/app/services/invoice_service.py:339-390 | cancels exactly pending invoices without live payments |
| `SettlementServices.SettlementEngine.SumInvoicePayments` | backend/app/services/payment_service.py:482-496 | returns the confirmed sum of the invoice |
| `SettlementServices.SettlementEngine.ProcessTransfer` | backend/app/services/payment_service.py:171-246 | whole new state of one processed transfer: dust and unknown addresses ignored, known hash refreshed, new hash recorded |
| `SettlementServices.SettlementEngine.UpdateConfirmations` | backend/app/services/payment_service.py:313-372 | refreshes one payment row and reports a transition exactly when a confirmed row changed |
| `SettlementServices.SettlementEngine.HandleReorg` | backend/app/services/payment_service.py:511-558 | whole new state of one orphaned payment |
| `SettlementServices.SettlementEngine.DetermineWebhookEvents` | backend/app/services/payment_service.py:573-617 | the list built by appending is the events function whose meaning the event lemmas prove |
| `SettlementServices.SettlementEngine.ScanTransfers` | backend/app/tasks/detection_engine.py:86-133 | the loop is the fold of the scan step, and counts the transfers that lead to a payment |
| `SettlementServices.SettlementEngine.PollOne` | backend/app/tasks/detection_confirmations.py:36-115 | whole new state for each wallet answer: failure, missing (with the miss counter), found |
| `SettlementServices.SettlementEngine.UpdateUnconfirmed` | backend/app/tasks/detection_confirmations.py:22-122 | the loop is the fold of the poll step over the selected payments, and counts those confirmed |
| `SettlementServices.SettlementEngine.ExpirePendingInvoices` | backend/app/services/expiration_service.py:39-119 | expires exactly the pending, overdue invoices without live payments and queues one notice for each |
| `BillingAnchor.NextDueIsLeast` | backend/app/services/subscription_renewal.py:56-65 | the due date is the least step of the anchor grid, from the first one on, that is not before now |
| `BillingAnchor.NextDueIsClose` | backend/app/services/subscription_renewal.py:56-65 | no drift: after the anchor the due date is at or after now and less than one interval away |
| `BillingAnchor.FirstDueIsOneIntervalOn` | backend/app/services/subscription_renewal.py:56-65 | until one interval of days of 86400 seconds after the anchor the due date is one interval after it |
| `BillingAnchor.NextDueIsMonotone` | backend/app/services/subscription_renewal.py:56-65 | the due date never decreases as now grows |
| `BillingAnchor.SkippedPeriodsFit` | backend/app/services/subscription_renewal.py:68-74 | m periods are counted as skipped exactly when m whole intervals fit between the end of the billed period and the due date |
| `BillingRuns.NoPeriodIsBilledTwice` | backend/app/services/subscription_renewal.py:137-209 | over every run of a created subscription (renewals, trial ends, pauses, edits, prepayments, hooks, grace passes) no two periods start together, all start before the due date, and nothing that follows moves the due date back |
| `BillingLaws.SweepBillsIff` | backend/app/tasks/subscription_renewer.py:156-206 | a sweep bills exactly active, due subscriptions with no prepayment in force, nothing owed, a wallet and terms that pass; what the new row and invoice hold; else no row, no invoice, same due date |
| `BillingLaws.SweepTouchesOnlyDue` | backend/app/tasks/subscription_renewer.py:156-164 | a sweep changes nothing of a subscription that is not active or not due |
| `BillingLaws.OutcomeIff` | backend/app/services/subscription_renewal.py:137-199 | which obstacle a renewal reports, in which order |
| `BillingLaws.SweepDropsPrepayIff` | backend/app/tasks/subscription_renewer.py:59-101 | when a sweep drops the reference to a prepay invoice and the prepaid date |
| `BillingLaws.TerminalIsFinal` | backend/app/tasks/subscription_renewer.py:156-164 | over every run a cancelled or expired subscription stays so, gets no invoice and no row but prepaid ones |
| `BillingLaws.CancelledIsNeverBilledAgain` | backend/app/services/subscription_service.py:247-259 | after a cancellation the status is cancelled for ever and nothing is billed in any later run |
| `BillingLaws.EndingCancelsIff` | backend/app/services/subscription_service.py:261-271 | a cancellation closes exactly the linked pending invoices that are not refused |
| `BillingLaws.PausedIsNotBilled` | backend/app/services/subscription_service.py:212-228 | over every run without a resumption a paused subscription stays paused or is cancelled, and is not billed |
| `BillingLaws.ResumedTimeIsNotBilled` | backend/app/services/subscription_service.py:229-245 | a resumption makes the later of now and the due date the due date, and no later run bills a period that starts before |
| `BillingLaws.LaterRowsStartLater` | backend/app/services/subscription_renewal.py:137-209 | over every run what is billed or fulfilled starts at the due date the run began with or later |
| `BillingLaws.TrialIsFree` | backend/app/tasks/subscription_renewer.py:117-131 | over every run until a trial sweep at or after its end a trial lasts and nothing is billed |
| `BillingLaws.TrialEndBillsIff` | backend/app/tasks/subscription_renewer.py:131-147 | the sweep after its end activates the subscription and bills it from that moment, if wallet and terms allow |
| `BillingLaws.StatusMovesOnlyBy` | backend/app/services/subscription_exceptions.py:11-33 | every change of a subscription's status and the one kind of step that can bring it about |
| `BillingLaws.MerchantActionsApply` | backend/app/services/subscription_service.py:212-259 | pausing pauses exactly active subscriptions, cancelling cancels exactly live ones, and neither changes another field of the subscription |
| `BillingLaws.CreationStarts` | backend/app/services/subscription_service.py:84-131 | anchor, due date, status, terms and first period of a new subscription |
| `Billing.TransitionsIff` | backend/app/services/subscription_exceptions.py:11-33 | the transition table in closed form |
| `BillingRuns.StepKeepsInv` | backend/app/services/subscription_renewal.py:127-209 | each single step keeps the ordering of periods and the shape of prepaid rows, and never moves the due date back |
| `BillingRuns.DuePeriodIsUnbilled` | backend/app/services/subscription_renewal.py:140-149 | the idempotency check of a renewal never fires: the due period has no row |
| `BillingRuns.RenewalMovesForward` | backend/app/services/subscription_renewal.py:203-209 | a renewal never moves the due date back, and an issued one moves it to the present or later |
| `BillingPrepayRuns.PrepayIsFulfilledExactlyOnce` | backend/app/services/subscription_prepay.py:202-233 | over every run, however often the invoice settles: no rows before its hook, then exactly N contiguous ones for ever, and its hooks move the due date by N intervals in total |
| `BillingPrepayRuns.FirstFulfilment` | backend/app/services/subscription_prepay.py:215-237 | the first hook adds N contiguous periods from the due date, moves it past them and frees the guard |
| `BillingLaws.PrepayOpensIff` | backend/app/services/subscription_prepay.py:103-150 | exactly when a prepay invoice is opened, with which lifetime and prepaid date; nothing else changes |
| `BillingLaws.PrepayRefusedIff` | backend/app/services/subscription_prepay.py:103-126 | which requests are refused for the subscription's state and which for the wallet |
| `BillingLaws.HookFreesGuardIff` | backend/app/services/subscription_prepay.py:202-223 | which hooks free the prepay guard |
| `BillingLaws.GuardIsNeverStuck` | backend/app/services/subscription_prepay.py:202-213 | over every run the invoice that guards a subscription has no periods yet: a fulfilled prepayment never blocks renewals |
| `BillingLaws.PlanForIsFirst` | backend/app/services/subscription_prepay.py:42-49 | the plan used is the first one configured for the number of periods |
| `BillingPrepayRuns.RenewalIssuesIff` | backend/app/services/subscription_renewal.py:140-199 | a due, unguarded subscription gets a period row exactly when nothing linked is unpaid, the wallet answers and the terms pass the invoice limits; otherwise rows and due date stay |
| `BillingPrepayRuns.FailedSweepKeepsTermsIff` | backend/app/tasks/subscription_renewer.py:175-206 | a sweep of a due subscription that bills nothing leaves its terms alone exactly if an unpaid invoice stopped it, nothing was pending, or the database refused the pending amount; otherwise the pending terms are in force |
| `BillingPrepayRuns.UnbillableNeverRenews` | backend/app/services/subscription_renewal.py:178-185 | a subscription whose effective terms are not billable is never renewed until edited, whatever else happens: only prepayments still add rows |
| `BillingPrepayRuns.BillableIff` | backend/app/services/invoice_service.py:124-151 | the effective terms are billable exactly if the amount is at least a piconero and at most a billion XMR and the grace periods add up to thirty days or less |
| `BillingPrepayRuns.CreationAcceptsIff` | backend/app/services/subscription_service.py:71-131 | creation succeeds exactly for valid terms with an amount of at least one piconero (a CHECK constraint of the table) that are not billed at once, or whose first invoice passes the limits |
| `BillingTiling.CreatedPeriodsAreConserved` | backend/app/services/subscription_renewal.py:203-209 | for every subscription created without a trial, over every run without interval change or late resumption, billed plus skipped periods equal (due date - anchor) / interval and their windows tile that time |
| `BillingTiling.PeriodsAreConserved` | backend/app/services/subscription_renewal.py:203-209 | the same from any state on the anchor grid |
| `BillingTiling.ConservationResumesWithBilling` | backend/app/services/subscription_renewal.py:203-209 | whatever took the due date off the grid (trial, late resumption, interval change), from the next issued renewal on periods are conserved again |
| `BillingTiling.BillingReturnsToGrid` | backend/app/services/subscription_renewal.py:203-209 | an issued renewal always puts the due date on the anchor grid of the interval then in force |
| `BillingTiling.EveryInstantIsCoveredOnce` | backend/app/services/subscription_renewal.py:203-209 | in a tiled timeline every instant up to the due date lies in the window of exactly one row |
| `BillingTiling.RenewalTiles` | backend/app/services/subscription_renewal.py:203-209 | a renewal, however late, extends the tiling: the skipped count fills the gap exactly |
| `BillingTiling.FulfilmentTiles` | backend/app/services/subscription_prepay.py:215-233 | a prepay fulfilment extends the tiling without gap or overlap |
| `BillingTiling.ResumeTilesIff` | backend/app/services/subscription_service.py:238-241 | a resumption keeps the tiling exactly when it is not later than the due date |
| `BillingTiling.RenewalOverlapsIff` | backend/app/services/subscription_renewal.py:203-209 | a renewal bills past the next due date exactly when the due date lies after the anchor but off its grid and the renewal comes no later than the next grid step |
| `BillingGrace.GraceStaysOrdered` | backend/app/services/subscription_update.py:57-88 | in every committed state of every created subscription current and effective hard grace are at least soft grace, none is negative, pending amounts come in pairs, and the current atomic amount is that of the XMR amount and positive |
| `BillingGrace.EditTakesEffect` | backend/app/services/subscription_renewal.py:80-108 | after an accepted edit the next renewal puts each set value in force, drops cleared ones, keeps earlier pending ones, and leaves nothing pending |
| `BillingLaws.EditsWait` | backend/app/services/subscription_update.py:42-92 | an edit changes nothing but pending terms, and those only if it is acceptable |
| `BillingLaws.EditRefusedIff` | backend/app/services/subscription_update.py:39-88 | which edits are refused with which error |
| `BillingGrace.ExpiredByGraceIff` | backend/app/services/subscription_grace.py:136-168 | a grace pass expires exactly the active or past-due subscriptions with an unpaid invoice beyond both hard grace and its own expiry |
| `BillingLaws.GracePassIff` | backend/app/services/subscription_grace.py:113-186 | exactly when a pass leaves a subscription past due, exactly when expired, in rows, invoice statuses and days; it changes nothing else |
| `BillingLaws.EarlyPassLeavesActive` | backend/app/services/subscription_grace.py:114-122 | a pass within soft grace of every owed period changes nothing of an active subscription |
| `BillingLaws.NeverPastDueWithinGrace` | backend/app/services/subscription_grace.py:114-122 | over every run whose passes come within soft grace of the first period, a subscription in good standing is neither past due nor expired |
| `BillingLaws.NewSubscriptionsHaveTheirGrace` | backend/app/services/subscription_grace.py:114-122 | the same from creation |
| `BillingLaws.HookRecoversIff` | backend/app/services/subscription_grace.py:75-105 | when the payment hook makes a past-due subscription active; a renewal's hook does nothing else |
| `BillingGrace.OncePaidNeverPastDue` | backend/app/services/subscription_grace.py:169-186 | once a linked invoice is settled, in every run in which it stays so, a subscription is past due only if it was before and no grace pass has run since |
| `BillingGrace.OncePaidOnlyHardGraceCounts` | backend/app/services/subscription_grace.py:108-195 | for a subscription with a settled linked invoice a pass comes down to hard grace: expired if that is breached, active otherwise |
| `BillingGrace.GraceIsIdempotent` | backend/app/services/subscription_grace.py:108-195 | a second pass at the same time changes nothing |
| `BillingGrace.RenewalInvoiceOutlivesHardGrace` | backend/app/services/subscription_renewal.py:178-185 | a renewal invoice expires no earlier than soft plus hard grace after its issue, and by then hard grace of its period is over: the expiry alone decides |
| `BillingGrace.GraceDesk.CheckGracePeriods` | backend/app/services/subscription_grace.py:108-195 | the three sequential loops over all subscriptions equal one decision per subscription taken independently; the three counts are the sizes of the sets newly past due, expired and recovered |
| `BillingGrace.GraceDesk.MoveAll` | backend/app/services/subscription_grace.py:124-186 | exactly the selected subscriptions are moved, none of the transitions is refused, and the count is their number |
| `BillingServices.BillingAccount.CreateRenewalInvoice` | backend/app/services/subscription_renewal.py:127-254 | whole new state and outcome of a renewal: already billed, unpaid, invalid, refused by the database, wallet down, renewed |
| `Billing.TransitionStatus` | backend/app/services/subscription_exceptions.py:40-48 | a status change succeeds exactly for the same status or a table transition |
| `BillingServices.BillingAccount.ApplyPendingChanges` | backend/app/services/subscription_renewal.py:80-108 | every pending field moves to its current field and is cleared |
| `BillingServices.BillingAccount.CheckPrepayGuard` | backend/app/tasks/subscription_renewer.py:59-101 | skips exactly while the prepay invoice is pending or settled and clears the reference otherwise |
| `BillingServices.BillingAccount.Sweep` | backend/app/tasks/subscription_renewer.py:156-206 | due query, guard and renewal of one subscription, rolled back when the database refuses it |
| `BillingServices.BillingAccount.EndTrial` | backend/app/tasks/subscription_renewer.py:117-147 | activation of an ended trial with its first renewal |
| `BillingServices.BillingAccount.ResumeSubscription` | backend/app/services/subscription_service.py:229-245 | resumes exactly paused subscriptions and never moves the due date back |
| `BillingServices.BillingAccount.CancelSubscription` | backend/app/services/subscription_service.py:247-302 | cancels a live subscription and exactly its linked pending invoices that have no payments |
| `BillingServices.BillingAccount.UpdateSubscription` | backend/app/services/subscription_update.py:29-96 | commits a valid edit in full and rolls back a rejected one although fields were already assigned |
| `BillingServices.BillingAccount.CreatePrepayInvoice` | backend/app/services/subscription_prepay.py:72-185 | opens a prepay invoice exactly for eligible subscriptions, configured plans and valid prices, and sets the guard |
| `BillingServices.BillingAccount.HandlePrepayPayment` | backend/app/services/subscription_prepay.py:188-274 | the row-creating loop adds the block of N periods, or recognises an earlier fulfilment |
| `BillingServices.BillingAccount.HandleSubscriptionPayment` | backend/app/services/subscription_grace.py:35-105 | fulfils prepay invoices and recovers past-due subscriptions on linked ones |
| `Backend.PrepaidIffEverSettled` | backend/app/services/payment_service.py:447-458 | over every joint run of settlement and billing: a prepay invoice that was settled at any time, even if reverted or repeated, has exactly its N contiguous periods and moved the due date by N intervals; one that never was has none and moved nothing |
| `Backend.HookedIffEverSettled` | backend/app/services/payment_service.py:447-458 | the subscription hook of an invoice runs in a joint run exactly if the invoice is settled at some time of it |
| `Backend.PaymentRecovers` | backend/app/services/subscription_grace.py:75-105 | the very step that settles a linked renewal invoice, or an unfulfilled prepay invoice, makes a past-due subscription active |
| `Backend.RenewalAsksForThePrice` | backend/app/services/subscription_renewal.py:178-191 | the invoice of a renewal asks for the atomic amount then in force and has an address of its own |
| `Backend.PrepayAsksForThePrice` | backend/app/services/subscription_prepay.py:128-150 | the invoice of a prepayment asks for floor(N * amount * (100 - discount) / 100) of the first matching plan |
| `Backend.OpenedPrepayAwaitsPayment` | backend/app/services/subscription_prepay.py:140-167 | every prepay invoice that is opened starts unsettled and without periods |
| `Backend.ExpiredAfterTheExpirerIff` | backend/app/services/subscription_grace.py:136-168 | a grace pass right after the invoice expirer expires exactly the active or past-due subscriptions with a period beyond hard grace whose overdue invoice is partially paid, has a live payment, or runs out this instant |
| `Backend.LoopsNeverMakePaidPastDue` | backend/app/services/subscription_grace.py:169-186 | under the deployed loops, once one linked invoice is settled, no grace pass ever leaves the subscription past due, however many newer invoices are overdue |
| `Backend.JointRunsProject` | backend/app/services/payment_service.py:447-458 | a joint run is a legal run of the settlement tables and a legal run of the subscription, so the results about each hold in it |
| `Backend.RunKeepsJoint` | backend/app/services/subscription_service.py:247-275 | over every joint run both invariants hold and the subscription's invoices have the statuses and expiries the invoice table says |
| `Backend.FoundedIsJoint` | backend/app/services/subscription_service.py:96-131 | creating a subscription with its first invoice starts such a run |
| `PrepayPrice.PrepayAmountIsFloor` | backend/app/services/subscription_prepay.py:52-69 | for per-period amounts of whole piconero the charge is floor(N * amount * (100 - discount) / 100) |
| `PrepayPrice.PrepayRoundingIsSmall` | backend/app/services/subscription_prepay.py:52-69 | the charge is below the exact price by less than one piconero |
| `PrepayPrice.PrepayAmountIsMonotone` | backend/app/services/subscription_prepay.py:52-69 | more periods never cost less and a larger discount never costs more |
| `PrepayPrice.AtomicRoundTrip` | backend/app/services/monero_rpc.py:35-42 | converting piconero to XMR and back is the identity |
| `PrepayPrice.AtomicIsATrillionth` | backend/app/services/monero_rpc.py:35-42 | a piconero is a trillionth of an XMR |
| `Webhooks.LettersAgreeWithDeliveries` | backend/app/services/webhook_service.py:204-314 | over every run a dead letter is resolved exactly when the delivery it names as its retry was delivered, no two name the same retry, and a delivery has as many letters as times it was dead-lettered |
| `Webhooks.StepKeepsInv` | backend/app/services/webhook_service.py:60-314 | each step keeps the agreement of the two tables and the scheduling of pending deliveries |
| `Webhooks.DeliveredIsFinal` | backend/app/services/webhook_service.py:248-272 | a delivered delivery is never changed again |
| `Webhooks.PendingIsNeverStranded` | backend/app/services/webhook_service.py:204-216 | in every reachable state a pending delivery has attempts left and a time for the next one |
| `Webhooks.DeliverySettles` | backend/app/services/webhook_service.py:204-216 | without manual retries a delivery ends delivered exactly when one of its remaining attempts succeeds and dead-lettered exactly when all of them fail, within seven results |
| `Webhooks.HopelessDeliverySpan` | backend/app/services/webhook_payloads.py:14-16 | an always failing delivery attempted exactly when due makes its last attempt 138960 seconds after it was queued |
| `Webhooks.FailingSchedule` | backend/app/services/webhook_payloads.py:79-83 | after k failures on time the next attempt is due at the sum of the first k delays |
| `Webhooks.WorkIff` | backend/app/services/webhook_service.py:204-216 | what one result makes of a delivery: which delay after which failure, death at the seventh, nothing before it is due |
| `Webhooks.WorkOnLettersIff` | backend/app/services/webhook_service.py:218-314 | what it makes of the letters: one more at a death, the waiting one resolved at a success |
| `Webhooks.QueueIff` | backend/app/services/webhook_service.py:60-90 | queuing makes a delivery due at once with seven attempts to go exactly if the merchant can be reached |
| `Webhooks.RetryIff` | backend/app/services/webhook_service.py:248-272 | a merchant requeues exactly its own failed or dead-lettered deliveries |
| `Webhooks.RetryLetterIff` | backend/app/services/webhook_service.py:274-293 | a merchant retries exactly its own open letters, counted, each as a fresh delivery of the same event |
| `Webhooks.MerchantsAreApart` | backend/app/services/webhook_service.py:248-293 | over every run of other merchants' deliveries and retries no row of this merchant changes |
| `Webhooks.DirectRetryLeavesLetterOpen` | backend/app/services/webhook_service.py:295-314 | delivering a dead-lettered delivery by retrying it directly leaves its own letter open, so the same event can be queued once more |
| `WebhookServices.WebhookDesk.ProcessDeliveryResult` | backend/app/services/webhook_service.py:204-216 | whole new state for success, last failure and earlier failure |
| `WebhookServices.WebhookDesk.WorkOne` | backend/app/tasks/webhook_worker.py:65-95 | result and resolution in one transaction keep the agreement |
| `WebhookServices.WebhookDesk.WorkBatch` | backend/app/tasks/webhook_worker.py:57-98 | the loop over a claimed batch is the fold of the worker step |
| `WebhookServices.WebhookDesk.MarkDlqResolvedForDelivery` | backend/app/services/webhook_service.py:295-314 | resolves the one open letter that names the delivery |
| `WebhookServices.WebhookDesk.RetryDelivery` | backend/app/services/webhook_service.py:248-272 | requeues exactly failed or dead-lettered deliveries of the merchant, with the error of each refusal |
| `WebhookServices.WebhookDesk.RetryDeadLetter` | backend/app/services/webhook_service.py:274-293 | queues a fresh delivery of the letter's event and points the letter at it, with the error of each refusal |
| `Lease.GrantedIff` | backend/app/tasks/detection_helpers.py:77-97 | a call is granted exactly when Redis answers and every earlier grant has run out |
| `Lease.IterationsOverlapOnlyPastTtl` | backend/app/tasks/detection_helpers.py:77-97 | two granted iterations overlap only if the first outlives its lease |
| `Lease.LongIterationsCanOverlap` | backend/app/tasks/detection_helpers.py:77-97 | the bound is sharp: any iteration longer than its lease can be joined by another |
| `Lease.LoneWorkerRunsEverySecondTurn` | backend/app/tasks/subscription_renewer.py:39-56 | with a lease of twice the polling interval a lone worker is refused on every second turn |
| `Lease.TaskLease.AcquireTaskLease` | backend/app/tasks/detection_helpers.py:77-97 | the stored key and verdict are those of the trace of calls |
| `SlidingWindow.NoWindowIsOverfull` | backend/app/core/rate_limit.py:97-130 | for any trace, removals of rejected entries arbitrarily late, no window ever holds more than the limit of allowed requests |
| `SlidingWindow.KeptIsRecent` | backend/app/core/rate_limit.py:97-103 | the pruned set is exactly the recent requests not yet undone; expiry of the key never loses one |
| `SlidingWindow.RejectedIff` | backend/app/core/rate_limit.py:115-123 | a request is rejected exactly when allowed ones plus rejected ones not yet removed fill its window |
| `SlidingWindow.SequentiallyRejectedIffFull` | backend/app/core/rate_limit.py:115-123 | one at a time, a request is rejected exactly when its window holds the limit of allowed ones |
| `SlidingWindow.EachTierGetsItsRate` | backend/app/core/rate_limit.py:35-46 | over every trace each tier gets at most its published number of requests in any minute, and one at a time is rejected exactly when the last minute had so many |
| `SlidingWindow.RetryAfterIsExact` | backend/app/core/rate_limit.py:110-123 | after a rejection with no other traffic, a request is allowed exactly from retry_after on |
| `SlidingWindow.LateRemovalRejectsNeedlessly` | backend/app/core/rate_limit.py:115-116 | concrete case: a late removal costs a request its place with no allowed request in its window |
| `SlidingWindow.SlidingWindowRateLimiter.Pipeline` | backend/app/core/rate_limit.py:97-113 | prune, count, add and expiry in one transaction keep the bound |
| `SlidingWindow.SlidingWindowRateLimiter.Check` | backend/app/core/rate_limit.py:85-141 | verdict, remaining, reset_after and retry_after of one check, and the whole fail-open or fail-closed answer |
| `FixedWindow.AtMostLimitPerLife` | backend/app/core/rate_limit.py:194-207 | for any trace, expiry late or lost, at most the limit of requests is allowed per life of the key |
| `FixedWindow.AllowedIffBelowLimit` | backend/app/core/rate_limit.py:194-207 | over every trace a request is allowed exactly if fewer than the limit precede it in the life of the key |
| `FixedWindow.MerchantsGetTheirRate` | backend/app/core/rate_limit.py:164-167 | 120 writes and 300 reads per life of the key |
| `FixedWindow.AnswerIsHonest` | backend/app/core/rate_limit.py:203-216 | after any trace the verdict, remaining and retry_after follow from the requests of that life |
| `FixedWindow.KeyLivesSixtySeconds` | backend/app/core/rate_limit.py:199-201 | a key that was set to expire lives sixty seconds; the first request after that begins a new life |
| `FixedWindow.LessThanTwiceLimitPerSpan` | backend/app/core/rate_limit.py:194-207 | and at most 2 * limit - 1 in any half-open span of sixty seconds |
| `FixedWindow.SpanBoundIsReached` | backend/app/core/rate_limit.py:194-207 | that bound is reached |
| `FixedWindow.MerchantRateLimiter.Check` | backend/app/core/rate_limit.py:180-227 | counter, time to live and whole answer of one check, also when Redis fails before or between the two commands |
| `FixedWindow.RetryIsAllowedIff` | backend/app/core/rate_limit.py:203-216 | after a rejection with no other traffic a request is allowed exactly once the key has run out, at most half a second after the announced retry_after |
| `Pagination.ForwardPagingIsTheSortedList` | backend/app/utils/pagination.py:71-113 | the pages a client collects hold the whole visible set in descending order, each row once, in as many pages as its size calls for |
| `Pagination.ForwardPagingTerminates` | backend/app/utils/pagination.py:106-113 | following starting_after comes to an end |
| `Pagination.PageAfterRow` | backend/app/utils/pagination.py:78-86 | starting_after a row returns the rows that follow it and says whether more do |
| `Pagination.PageBeforeRow` | backend/app/utils/pagination.py:88-104 | ending_before a row returns the rows just before it in descending order, has_more exactly when still earlier ones exist |
| `Pagination.PageAfterAnyRow` | backend/app/utils/pagination.py:78-86 | the same after a row that the filters hide |
| `Pagination.PageBeforeAnyRow` | backend/app/utils/pagination.py:88-104 | and before one |
| `Pagination.CursorIsInvalidIff` | backend/app/utils/pagination.py:78-94 | a cursor is refused exactly when the table has no row of that id |
| `Pagination.BackwardInvertsForward` | backend/app/utils/pagination.py:88-104 | ending_before the first row of the next page returns this page again |
| `Pagination.PageCountIsCeiling` | backend/app/utils/pagination.py:106-113 | the number of pages of m rows is the ceiling of m / limit |
| `Pagination.PaginateCursor` | backend/app/utils/pagination.py:46-113 | both directions and the invalid cursor |
| `Pagination.ClampLimit` | backend/app/utils/pagination.py:41-43 | limits are clamped to 1..100 and those inside are kept |

## Left out

- HTTP routes, request schemas, audit rows, log lines, metrics, the wallet's transport, Tor, prices, encryption, QR codes and the command line: input and output only.
- Checkpoints of the scanner: a scan that fails returns nothing yet the checkpoint advances, so no claim about what was scanned is made.
- Concurrent transactions on one invoice: the confirmed sum is read without a lock; steps are atomic here, as the lease intends.
- Wallet answers are parameters: transfers, replies to polls, and new subaddresses or their failure. A transfer without a subaddress index is not represented.
- Exceptions from the database or from queuing a webhook, and merchants without a webhook URL in the settlement loops: every settlement event is queued.
- `confirmed_at`, `updated_at`, `last_attempt_at` and other timestamps no branch reads; payloads, URLs and error texts of webhooks.
- The other subscriptions of a sweep's batch: a flush that the database refuses also takes back what the sweep did for them since its last commit. `Sweep` models one subscription's turn.
- Widths of database columns: integers that do not fit, and amounts that the column would round.
- The batch size and the endless loop of the renewal sweep: skipped subscriptions stay due and are selected again, so it does not terminate in general.
- The internal trigger route (`backend/app/main.py:192-208`), which renews without a due check, and the administrator's dead-letter retry (`backend/app/api/routes/admin.py:392-407`), which resolves at once: both break invariants proved here.
- Floating-point division in the due date: modelled as exact integer ceiling. Rounding of XMR amounts to Decimal's 28 digits: amounts are exact reals.
- A null `next_due_at`: creation always sets one, so the field is not optional here.
- Requests in the same microsecond in the sliding window; traces have strictly increasing times.
- Requests a limiter lets through because Redis is down are not counted in the bounds; `Check` states the fail-open answer.
- SettlementRuns.StatusIsAlwaysTheRecomputedOne: assumes that no hash is seen for two invoices, because the code does not keep the property otherwise; `ForeignSightingSettlesIff` gives the exact condition for one sighting.
- A sliding-window removal that fails after its pipeline succeeded; a Redis failure is all or nothing here.
- PageCountIsCeiling: leaves out the empty set, which gets one page rather than none.
- SettlementScan.ScansAreConfluent: says nothing about the block height, because the code keeps the first one reported and a transaction may be mined again at another height.
- BillingTiling.PeriodsAreConserved: excludes the window during which a trial, an interval change or a late resumption has the due date off the grid, where the code does not conserve periods; `ResumeTilesIff` says when a resumption does that, `ConservationResumesWithBilling` that the next renewal ends it.
