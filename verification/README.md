# PrintSetu: verified model

PrintSetu connects print shops with their customers. This project models its four stateful parts in Dafny and proves
what they keep over every run:

- **Subscription billing** (`Calendar`, `Billing*`). One shop is a subscription with seven statuses and a list of
  invoices. Fourteen actions change it: the hourly billing run and everything an administrator can do. The methods of
  `BillingService.ShopBilling` change the rows step by step as the services do, and each is proved equal to a function
  in `BillingOps`; `BillingOutcomes` and `BillingActions` then say of every action, in the record's own fields and the
  plan's literal prices, what it leaves. The runs in `BillingRuns` mix all actions in any
  order, with any plan catalogue, settings and payment provider answers at each step and a clock that never goes back.
- **Printing** (`Print*`, `Agent*`). Backend handlers, network and print agents are one transition system
  (`PrintProtocol`): a handler reads a job, later compares and swaps its status, and may stop between any two of its
  writes. Payloads and reports that were sent once may arrive late, repeatedly or never, and objects may refuse to be
  deleted. `PrintService` holds the handlers as code, each proved to be the protocol's steps taken without interruption;
  `PrintOutcomes` tabulates by name what they make of an order in each status, and `PrintCauses` who caused each event;
  `AgentRun` holds the agent's job processor as code, proved to make only runs that the protocol's agent can make.
- **Pricing** (`PriceBook`, `PricingService`, `OrderPricing`, `Repricing`). Rates and quantity tiers, quotes, and the
  shop's editor that reprices an order piece by piece; `PriceLaws` and `RepricingLaws` read every price, quote and edit
  off the rows of the price table.
- **Opening hours** (`Availability`, `ShopSwitch`). The weekly schedule and the Online / Offline switch over it.

Time is in whole milliseconds, money in whole paise; a prorated charge is an exact fraction that is rounded to the
nearest paisa, halves up.

## What does not hold

These are results about the code, each with a concrete input and the exact condition under which the property holds:

- Two renewal invoices of a shop can cover the same days. A forced reactivation that leaves an older term unpaid,
  followed by a change of cycle and the payment of the old invoice, is enough
  (`BillingTerms.ForcedRenewalsCanOverlap`). A renewal overlaps exactly when an earlier renewal ends after the current
  period (`BillingTerms.RenewalOverlapsExactly`); without forced reactivations and changes that restart a running term
  it never happens. Every renewal still starts later than the one before it, in all runs.
- `addCycle` can swap two instants (`Calendar.AddCycleCanInvert`), exactly as `Calendar.AddCycleOrder` says.
- `addCycle` gives February of the year 0, a leap year, only 28 days, because `Date.UTC` reads the years 0 to 99 as 1900
  to 1999; it is right for every other month (`Calendar.LastDayIsMonthLength`).
- The comment on `onlineChanges` says that turning the schedule on keeps the shop's status
  (printsetu-backend/src/shops/shop-profile.service.ts:278-282). The code does not: `ShopSwitch.TurningOnCanChange`. It
  does exactly when the opening hours agree with the manual switch (`ShopSwitch.TurningOnKeepsWhen`).
- Removing a document from an order can be refused although others remain: when the ones left in its combination would
  be repriced and the shop no longer offers that combination (`Repricing.RemovalIsRefusedWhen`).

## Model

| member | source | states |
|---|---|---|
| Calendar.AddCycleDate | printsetu-backend/src/subscriptions/subscription.constants.ts:74-84 | setting the Date fields one after the other gives the instant one cycle later, as defined on the proleptic Gregorian calendar |
| Calendar.CivilRoundTrip | printsetu-backend/src/subscriptions/subscription.constants.ts:74-84 | the UTC calendar behind the Date fields: day numbers and valid dates convert to each other and back |
| Calendar.AddCycleBounds | printsetu-backend/src/subscriptions/subscription.constants.ts:74-84 | the time of day never changes; a month is 28 to 31 days later, a year 365 or 366, a day one |
| Calendar.CycleLanding | printsetu-backend/src/subscriptions/subscription.constants.ts:73-84 | a cycle lands exactly that many months on, on the same day or the last one of that month |
| Calendar.LastDayIsMonthLength | printsetu-backend/src/subscriptions/subscription.constants.ts:81 | day 0 of the next month is the real last day for every month but February of the year 0 |
| Calendar.CycleDayMonotone | printsetu-backend/src/subscriptions/subscription.constants.ts:74-84 | the renewal day never moves back when the billing day moves forward |
| Calendar.AddCycleOrder | printsetu-backend/src/subscriptions/subscription.constants.ts:74-84 | two instants keep their order if and only if the clamp does not put them on one day with falling times of day |
| Calendar.AddCycleCanInvert | printsetu-backend/src/subscriptions/subscription.constants.ts:74-84 | 30 January 20:00 and 31 January 10:00 renew in the opposite order |
| BillingService.ShopBilling.CreateInvoice | printsetu-backend/src/subscriptions/invoices.service.ts:62-79 | appends one open invoice with the amount rounded to paise and leaves the others |
| BillingService.ShopBilling.MarkInvoicePaid | printsetu-backend/src/subscriptions/invoices.service.ts:98-119 | settles the invoice, or refuses one that is unknown, paid already or neither open nor failed, changing nothing |
| BillingService.ShopBilling.RefundInvoice | printsetu-backend/src/subscriptions/invoices.service.ts:129-153 | adds the refund and its total, or refuses it, as the specification of refunds says |
| BillingService.ShopBilling.Assign | printsetu-backend/src/subscriptions/subscriptions.service.ts:118-194 | the rows after assigning a plan: a trial, or a first period with its invoice; every refusal leaves them alone |
| BillingService.ShopBilling.ChangePlan | printsetu-backend/src/subscriptions/subscriptions.service.ts:196-303 | the rows after an upgrade or downgrade, at once with a prorated invoice or scheduled for the end of the term |
| BillingService.ShopBilling.CancelScheduledChange | printsetu-backend/src/subscriptions/subscriptions.service.ts:305-313 | the rows after a scheduled change is dropped |
| BillingService.ShopBilling.Extend | printsetu-backend/src/subscriptions/subscriptions.service.ts:315-348 | the rows after an extension, which brings an expired shop back |
| BillingService.ShopBilling.ExtendGrace | printsetu-backend/src/subscriptions/subscriptions.service.ts:350-379 | the rows after more grace, which brings an overdue shop back to pending |
| BillingService.ShopBilling.Cancel | printsetu-backend/src/subscriptions/subscriptions.service.ts:381-434 | the rows after a cancellation at once, which voids unpaid invoices, or at the end of the term |
| BillingService.ShopBilling.Resume | printsetu-backend/src/subscriptions/subscriptions.service.ts:436-447 | the rows after a cancellation is taken back |
| BillingService.ShopBilling.MarkPaid | printsetu-backend/src/subscriptions/subscriptions.service.ts:449-510 | the rows after a payment of a chosen or the oldest unpaid invoice, and what it reactivates |
| BillingService.ShopBilling.ForceSuspend | printsetu-backend/src/subscriptions/subscriptions.service.ts:529-554 | the rows after a suspension by hand |
| BillingService.ShopBilling.ForceReactivate | printsetu-backend/src/subscriptions/subscriptions.service.ts:556-592 | the rows after a reactivation by hand, with a new period if the old one is over |
| BillingService.ShopBilling.ReleaseOverride | printsetu-backend/src/subscriptions/subscriptions.service.ts:594-602 | the rows after an override is released |
| BillingService.ShopBilling.SetAutoRenew | printsetu-backend/src/subscriptions/subscriptions.service.ts:604-623 | the rows after the renewal preference changes |
| BillingService.ShopBilling.EndOfTerm | printsetu-backend/src/subscriptions/billing-automation.service.ts:158-276 | the rows when a trial or term is over: cancelled, expired, renewed free, charged, or pending with a renewal invoice |
| BillingService.ShopBilling.RetryPayment | printsetu-backend/src/subscriptions/billing-automation.service.ts:278-329 | the rows after the oldest due invoice was charged again, given up on or scheduled for the next try |
| BillingService.ShopBilling.ToPastDue | printsetu-backend/src/subscriptions/billing-automation.service.ts:331-352 | the rows when the grace period is over |
| BillingService.ShopBilling.Process | printsetu-backend/src/subscriptions/billing-automation.service.ts:82-155 | one shop's billing run, branch by branch, equals the specified run |
| BillingRuns.StepKeeps | printsetu-backend/src/subscriptions/subscriptions.service.ts:118-623 | every action keeps the record invariant: trial and grace dates, a pending or overdue shop owes a term and is not ending, the period is not empty and has begun, refunds add up, renewals start later and later, and a trial or active period ends after every renewed start |
| BillingRuns.AutomationKeeps | printsetu-backend/src/subscriptions/billing-automation.service.ts:82-352 | every billing run keeps the record invariant, for every provider answer |
| BillingRuns.RunKeeps | printsetu-backend/src/subscriptions/billing-automation.service.ts:57-155 | the invariant holds after every run that mixes all actions |
| BillingRuns.RenewalsNeverRepeat | printsetu-backend/src/subscriptions/billing-automation.service.ts:158-276 | over every run of a new shop the renewal invoices have strictly increasing period starts |
| BillingTerms.OrdinaryRenewalsNeverOverlap | printsetu-backend/src/subscriptions/billing-automation.service.ts:183-276 | without forced reactivations and changes that restart a running term, no two renewals cover a common instant |
| BillingTerms.RenewalOverlapsExactly | printsetu-backend/src/subscriptions/billing-automation.service.ts:183-276 | a renewal keeps the terms apart if and only if every term renewed before ends with the current period |
| BillingTerms.ForcedRenewalsCanOverlap | printsetu-backend/src/subscriptions/subscriptions.service.ts:449-592 | a run of eight actions after which two renewal invoices overlap |
| BillingFixpoint.AutomationLowers | printsetu-backend/src/subscriptions/billing-automation.service.ts:82-155 | a run changes nothing or lowers override, status rank, elapsed time and invoices due, in this order of weight |
| BillingFixpoint.RunsSettle | printsetu-backend/src/subscriptions/billing-automation.service.ts:57-79 | runs repeated at one instant, with any provider answers, reach a state that no later one of them changes |
| BillingFixpoint.QuietIsFixpoint | printsetu-backend/src/subscriptions/billing-automation.service.ts:82-155 | a run changes nothing under any answer if and only if no deadline has passed and no retry is possible |
| BillingTiming.AccessNeverRises | printsetu-backend/src/subscriptions/subscription.constants.ts:48-56 | without a successful charge, a run never raises a shop's access level |
| BillingTiming.RenewalOpensGrace | printsetu-backend/src/subscriptions/billing-automation.service.ts:206-260 | a term that ends unpaid leaves the shop pending with the configured grace days from that run |
| BillingTiming.PendingTimeline | printsetu-backend/src/subscriptions/billing-automation.service.ts:107-153 | over any unpaid runs the status is pending until the grace ends, then overdue, then suspended, and when exactly |
| BillingTiming.PastDueTimeline | printsetu-backend/src/subscriptions/billing-automation.service.ts:131-153 | an overdue shop is suspended by the first run after the configured days and not before |
| BillingTiming.GraceIsHonoured | printsetu-backend/src/subscriptions/billing-automation.service.ts:82-155 | from a missed renewal on: full access for all grace days and not longer, no suspension before the overdue days on top |
| BillingUpgrade.FractionInUnitInterval | printsetu-backend/src/subscriptions/subscriptions.service.ts:254-256 | the unused share of a period lies between zero and one |
| BillingUpgrade.RoundingError | printsetu-backend/src/subscriptions/subscription.constants.ts:86-88 | rounding moves an amount by at most half a paisa |
| BillingUpgrade.UpgradeCharge | printsetu-backend/src/subscriptions/subscriptions.service.ts:246-285 | an upgrade on the same cycle keeps the period and bills at most the price gap, and at most its unused share rounded |
| BillingUpgrade.UpgradesAreBounded | printsetu-backend/src/subscriptions/subscriptions.service.ts:246-285 | any number of such upgrades in one period bills at most the final price less the first |
| BillingUpgrade.UpgradesAreProrated | printsetu-backend/src/subscriptions/subscriptions.service.ts:246-285 | nor more than the share left at the first of them, plus half a paisa per invoice |
| BillingUpgrade.NewCycleCharge | printsetu-backend/src/subscriptions/subscriptions.service.ts:254-285 | an upgrade to another cycle bills the new price less at most the old one |
| BillingPayments.RunEvolves | printsetu-backend/src/subscriptions/invoices.service.ts:62-153 | over every run invoices are only added, keep term and amount, and move only along the payment states |
| BillingPayments.PaidOnce | printsetu-backend/src/subscriptions/invoices.service.ts:98-119 | a paid invoice can never be collected again |
| BillingPayments.RefundsAreConserved | printsetu-backend/src/subscriptions/invoices.service.ts:129-153 | after every run an invoice's refunds add up to its refunded amount, never exceed it, and REFUNDED means all of it |
| BillingPayments.PayingDownRestores | printsetu-backend/src/subscriptions/subscriptions.service.ts:449-510 | for a shop that owes a term, is not cancelled and is not held suspended by an administrator: paying the oldest invoice again and again makes it active with a future period end within as many payments as there are unpaid invoices |
| BillingOutcomes.TermEndsUnrenewed | printsetu-backend/src/subscriptions/billing-automation.service.ts:158-174 | a term that is over with no override: cancelled if it was ending, else expired if auto-renew is off; in both cases no invoice is added or changed, the plan stays and access is read-only |
| BillingOutcomes.FreeTermRenews | printsetu-backend/src/subscriptions/billing-automation.service.ts:176-204 | a willing shop whose due plan costs nothing gets one more cycle from the old end, active, without an invoice |
| BillingOutcomes.ChargedTermRenews | printsetu-backend/src/subscriptions/billing-automation.service.ts:176-241 | a charge that goes through adds exactly one PAID renewal row at the literal price field of the due plan and cycle, and the shop is active for that next term |
| BillingOutcomes.UnchargedTermIsOwed | printsetu-backend/src/subscriptions/billing-automation.service.ts:206-352 | without such a charge the one new row stays unpaid and the shop is pending with its grace days, or overdue or suspended at once without any; it is active if and only if an older due invoice was charged in the same run |
| BillingOutcomes.RenewalsWereWanted | printsetu-backend/src/subscriptions/billing-automation.service.ts:158-276 | over every run each renewal row was added by a billing run that found the term over, auto-renew on and no cancellation at the end of the period |
| BillingOutcomes.PaymentRestores | printsetu-backend/src/subscriptions/subscriptions.service.ts:449-510 | after paying an unpaid term of a shop that is not cancelled it is suspended if and only if an administrator held it suspended, else active; the period is the invoice's, or a whole cycle from now if that is over; no other invoice changes |
| BillingOutcomes.PaymentSettles | printsetu-backend/src/subscriptions/subscriptions.service.ts:449-468 | paying an upgrade, or for a cancelled shop, changes that one invoice and nothing of the subscription |
| BillingOutcomes.PaymentRefused | printsetu-backend/src/subscriptions/subscriptions.service.ts:449-454 | without an unpaid invoice to pay nothing changes |
| BillingActions.AssignmentRefused | printsetu-backend/src/subscriptions/subscriptions.service.ts:118-124 | a second subscription, or a plan that is missing or off sale, changes nothing |
| BillingActions.TrialStarts | printsetu-backend/src/subscriptions/subscriptions.service.ts:128-139 | a trial bills nothing and ends after the plan's trial days |
| BillingActions.FirstTermStarts | printsetu-backend/src/subscriptions/subscriptions.service.ts:130-177 | the first cycle is billed once at the plan's literal price, paid, or pending with the grace days |
| BillingActions.UpgradeIsDearer | printsetu-backend/src/subscriptions/invoices.service.ts:43-49 | upgrades and downgrades are decided by literal prices for all nine pairs of cycles: 30 days or a twelfth of a year make a month |
| BillingActions.ChangeRefused | printsetu-backend/src/subscriptions/subscriptions.service.ts:196-207 | only a trial or active shop changes, to another plan or cycle that is on sale |
| BillingActions.ChangeScheduled | printsetu-backend/src/subscriptions/subscriptions.service.ts:209-242 | exactly when a change waits: asked to, by the settings, or no upgrade onto another cycle; then only the plan and cycle are noted |
| BillingActions.ChangeMade | printsetu-backend/src/subscriptions/subscriptions.service.ts:244-303 | any other change is made at once, and only an upgrade of an active shop can bill or move its period |
| BillingActions.UpgradeIsBilled | printsetu-backend/src/subscriptions/subscriptions.service.ts:253-286 | an upgrade is invoiced at its exact cost to the nearest paisa, with no invoice up to half a paisa |
| BillingActions.ExtensionAdds | printsetu-backend/src/subscriptions/subscriptions.service.ts:315-348 | the days are added to the running period, or from now for an expired one that is over, which reactivates it |
| BillingActions.GraceAdds | printsetu-backend/src/subscriptions/subscriptions.service.ts:350-379 | the days are added to a deadline still to come, or from now, and the shop is pending; other shops are refused |
| BillingActions.CancelEnds | printsetu-backend/src/subscriptions/subscriptions.service.ts:381-434 | cancelled at once, every open or failed invoice is void, each with its retry dropped, and every other one is untouched |
| BillingActions.CancelWaits | printsetu-backend/src/subscriptions/subscriptions.service.ts:381-392 | cancelled for the end of the period the shop goes on as it is, without its scheduled change |
| BillingActions.ResumeUndoes | printsetu-backend/src/subscriptions/subscriptions.service.ts:436-447 | resuming undoes a cancellation at the end of the period |
| BillingActions.DroppingUndoes | printsetu-backend/src/subscriptions/subscriptions.service.ts:305-313 | dropping a scheduled change undoes scheduling it |
| BillingActions.SuspensionHolds | printsetu-backend/src/subscriptions/subscriptions.service.ts:529-554 | a suspension by hand lasts for the days given, or until released, and touches nothing else |
| BillingActions.ReactivationServes | printsetu-backend/src/subscriptions/subscriptions.service.ts:556-592 | a reactivation by hand makes the shop active and held, in a new period from now if the old one is over |
| BillingActions.OverrideReleases | printsetu-backend/src/subscriptions/subscriptions.service.ts:594-602 | releasing an override changes the override alone, and without one nothing |
| BillingActions.OverrideHolds | printsetu-backend/src/subscriptions/billing-automation.service.ts:82-105 | a billing run leaves a held shop as it is |
| BillingActions.RefundMade | printsetu-backend/src/subscriptions/invoices.service.ts:129-153 | a refund is made if and only if the invoice was paid and has that much left; REFUNDED when nothing is left |
| BillingActions.RetryRecovers | printsetu-backend/src/subscriptions/billing-automation.service.ts:278-311 | a retry that goes through pays the oldest invoice due, and that alone, and makes the shop active |
| BillingActions.RetryDeclined | printsetu-backend/src/subscriptions/billing-automation.service.ts:313-329 | a declined retry within the grace period is counted, with a next one while attempts are left |
| BillingActions.GraceRunsOut | printsetu-backend/src/subscriptions/billing-automation.service.ts:331-352 | when the grace is over unpaid, every open invoice has failed and the shop is overdue from that run on |
| PrintService.PrintJobs.Transition | printsetu-backend/src/print/print-jobs.repository.ts:26-51 | a swap that is legal and meets the expected status changes the status and appends one event; any other changes nothing |
| PrintService.PrintJobs.ConfirmFromQuote | printsetu-backend/src/print/print-jobs.service.ts:107-150 | confirming an order is the protocol's confirmation and first swap without interruption |
| PrintService.PrintJobs.TriggerPrint | printsetu-backend/src/print/print-jobs.service.ts:456-508 | pressing PRINT is the protocol's read and swap without interruption, accepted only from three statuses |
| PrintService.PrintJobs.DispatchToAgent | printsetu-backend/src/print/print-jobs.service.ts:525-545 | a dispatch attempt is the protocol's: a push, AGENT_OFFLINE, or nothing |
| PrintService.PrintJobs.ReportAgentStatus | printsetu-backend/src/print/print-jobs.service.ts:620-693 | a report's swaps, up to three of them, are the protocol's, and it is acknowledged exactly if none is refused |
| PrintService.PrintJobs.Reconcile | printsetu-backend/src/print/print-jobs.service.ts:696-736 | the shopkeeper's answer is the protocol's, accepted only in doubt |
| PrintService.PrintJobs.FlagStalePrinting | printsetu-backend/src/retention/retention.service.ts:87-104 | the loop over stale orders puts each in doubt as the protocol does |
| PrintService.PrintJobs.SweepJob | printsetu-backend/src/retention/retention.service.ts:50-74 | one order's deletions are the protocol's steps; it is DELETED if and only if none failed |
| PrintService.PrintJobs.Sweep | printsetu-backend/src/retention/retention.service.ts:27-81 | a whole sweep, which reads all orders first, is a run of the protocol, and counts the orders it deleted |
| PrintOutcomes.ReportWhilePrinting | printsetu-backend/src/print/print-jobs.service.ts:620-693 | what each of the five reports makes of a printing order, by name: failed, in doubt, printed and on to retention, or no change |
| PrintOutcomes.ReportWhileQueued | printsetu-backend/src/print/print-jobs.service.ts:620-693 | a queued order starts printing or fails; an outcome that skips printing is refused |
| PrintOutcomes.ReportWhileOffline | printsetu-backend/src/print/print-jobs.service.ts:636-650 | an order that found the agent offline returns to the queue first unless the report is a failure |
| PrintOutcomes.ReportWhilePrinted | printsetu-backend/src/print/print-jobs.service.ts:660-693 | between the two swaps of a finished order only another report that it printed moves it on |
| PrintOutcomes.ReportWhileInDoubt | printsetu-backend/src/print/print-jobs.service.ts:620-693 | a late outcome settles an order in doubt, a repeated doubt is only acknowledged, progress is refused |
| PrintOutcomes.ReportTooLate | printsetu-backend/src/print/print-jobs.service.ts:636-677 | an order that is finished, failed or never queued is not changed by any report |
| PrintOutcomes.ReportFromElsewhere | printsetu-backend/src/print/print-jobs.service.ts:620-625 | a report about another printer's order, or one that is gone, changes nothing |
| PrintOutcomes.PressQueues | printsetu-backend/src/print/print-jobs.service.ts:456-508 | PRINT queues a waiting, offline or failed order for the chosen printer and counts the attempt; any other is left alone |
| PrintOutcomes.DispatchSends | printsetu-backend/src/print/print-jobs.service.ts:525-545 | a queued order goes with its documents, printer and attempt number to a connected agent, else is marked AGENT_OFFLINE |
| PrintOutcomes.PollSends | printsetu-backend/src/printers/agent.controller.ts:33-46 | a polling agent gets the orders that are queued or found it offline, and no others |
| PrintOutcomes.ReconcileSettles | printsetu-backend/src/print/print-jobs.service.ts:696-736 | the shopkeeper settles an order in doubt as printed or failed, and no other order |
| PrintOutcomes.StaleIsDoubted | printsetu-backend/src/retention/retention.service.ts:87-104 | an order that prints too long is put in doubt, not failed |
| PrintOutcomes.ConfirmationWaits | printsetu-backend/src/print/print-jobs.service.ts:107-150 | a confirmed order is PRINT_ELIGIBLE, never tried, and exactly its documents are printable again |
| PrintOutcomes.OptionsChange | printsetu-backend/src/print/print-jobs.service.ts:302-453 | new options reach one document of a waiting order and nothing else |
| PrintOutcomes.DocumentLeaves | printsetu-backend/src/print/print-jobs.service.ts:389-411 | a document leaves a waiting order unless it is the only one, the rest keep their places, and it may be ordered again |
| PrintOutcomes.DocumentsMove | printsetu-backend/src/print/print-jobs.service.ts:366-386 | a waiting order takes any arrangement of exactly its own documents |
| PrintOutcomes.HistoryClears | printsetu-backend/src/print/print-jobs.service.ts:251-271 | clearing the history removes deleted and cancelled orders only |
| PrintLog.LogsAreLegal | printsetu-backend/src/print/print-job-state-machine.ts:11-23 | in every reachable state a job's events start at CREATED, follow the table to the stored status, and attemptCount counts the presses of PRINT among them |
| PrintLog.LogsAreShort | printsetu-backend/src/print/print-jobs.service.ts:484-545 | a job with n presses of PRINT has at most 14 n + 4 events |
| PrintStates.PrintedOnce | printsetu-backend/src/print/print-job-state-machine.ts:11-23 | a legal log holds at most one PRINTED event |
| PrintSafety.QueuedOrdersAreFrozen | printsetu-backend/src/print/print-jobs.service.ts:302-314 | from its first press of PRINT on an order keeps its documents, settings and order whatever happens |
| PrintSafety.StepKeepsSafe | printsetu-backend/src/print/print-jobs.service.ts:524-736 | every step of backend, network and agents keeps payloads, runs, reports, handlers and PRINTED events in agreement |
| PrintSafety.PrintedMeansPrinted | printsetu-backend/src/print/print-jobs.service.ts:620-736 | in every reachable state a PRINTED event names the shopkeeper or an agent run in which the spooler accepted all of the order's documents, and there is at most one |
| PrintCauses.EventsHaveCauses | printsetu-backend/src/print/print-jobs.service.ts:620-736 | in every reachable state each event has a cause its status allows, and an agent is named only for what a run on that order reported: failure for PRINT_FAILED, an unclear outcome for PRINT_UNKNOWN, success for PRINTED |
| PrintDuplicates.DuplicatePushPrintsNothing | printsetu-backend/src/print/print-jobs.service.ts:636-677 | a run whose ACCEPTED report always finds the order finished, failed, in doubt or gone submits nothing, however often it arrives |
| PrintRetention.RetentionIsSafe | printsetu-backend/src/retention/retention.service.ts:27-78 | in every reachable state an uploaded object is missing only if an order with it was PRINTED, a document marked deleted has no object, and a DELETED order has none left |
| AgentRun.JobProcessor.PrintWithRetry | printsetu-print-agent/src/job-processor.ts:222-241 | the loop makes the specified tries of one document and ends with the outcome of the last |
| AgentRun.JobProcessor.ReportWithRetry | printsetu-print-agent/src/job-processor.ts:152-169 | the loop makes the specified final reports and stops at the first that gets through |
| AgentRun.JobProcessor.PrintDocuments | printsetu-print-agent/src/job-processor.ts:75-91 | the documents are fetched and printed in order up to the first that is not taken |
| AgentRun.JobProcessor.Handle | printsetu-print-agent/src/job-processor.ts:50-144 | handling a job does exactly the specified actions, a job in progress is left alone, and the job is free again afterwards |
| AgentExact.AgentIsExact | printsetu-print-agent/src/job-processor.ts:75-121 | however things turn out, the documents taken are the first ones in order, none is submitted more than twice, again after it was taken, or after an unclear answer, and the number already sent that a failure names is their number |
| AgentExact.ReportsAreTrue | printsetu-print-agent/src/job-processor.ts:93-140 | PRINTED is reported if and only if everything was taken, PRINT_UNKNOWN if and only if an answer was unclear, PRINT_FAILED otherwise |
| AgentExact.OutcomeIsReported | printsetu-print-agent/src/job-processor.ts:93-169 | one kind of outcome is reported, at the end, at most four times, until it gets through or three tries failed |
| AgentExact.NothingBeforeAcknowledged | printsetu-print-agent/src/job-processor.ts:61-75 | no document is touched before the backend acknowledged ACCEPTED and PRINTING |
| AgentExact.RefusalIsRetried | printsetu-print-agent/src/job-processor.ts:222-241 | a refused first try of a document is followed at once by exactly one more, and a second try follows nothing else |
| AgentRefinement.ProcessorFollowsProtocol | printsetu-print-agent/src/job-processor.ts:50-144 | the protocol's agent can make every run of the processor, with as many documents accepted and every report sent |
| PricingService.ShopPricing.SetRate | printsetu-backend/src/pricing/pricing.service.ts:91-114 | the table after a new rate replaced the active one |
| PricingService.ShopPricing.Deactivate | printsetu-backend/src/pricing/pricing.service.ts:124-147 | the table after a rate and its tiers were retired, with pricing off if no rate is left |
| PricingService.ShopPricing.AddTier | printsetu-backend/src/pricing/pricing.service.ts:180-200 | the table with the new tier, or untouched without a rate, with an empty range or an overlap |
| PricingService.ShopPricing.UpdateTier | printsetu-backend/src/pricing/pricing.service.ts:203-229 | the table with the tier replaced, compared with all but itself, or untouched |
| PricingService.ShopPricing.DeactivateTier | printsetu-backend/src/pricing/pricing.service.ts:231-239 | the table with an active tier retired, or untouched |
| PricingService.ShopPricing.SwitchPricing | printsetu-backend/src/shops/shop-profile.service.ts:229-235 | pricing goes on only with an active rate |
| PricingService.ShopPricing.ResolveRate | printsetu-backend/src/pricing/pricing.service.ts:247-288 | the first listed tier that covers the pages, else the fixed rate, or none if the combination is not offered |
| PriceBook.FindOverlapping | printsetu-backend/src/pricing/pricing.service.ts:33-44 | finds the first active tier of the combination that overlaps, other than the replaced one, if there is any |
| PriceBook.OverlapShares | printsetu-backend/src/pricing/pricing.service.ts:33-44 | two ranges that are not empty overlap if and only if they share a page count |
| PriceBook.EditsKeepBook | printsetu-backend/src/pricing/pricing.service.ts:91-239 | over every sequence of edits there is at most one active rate per combination, active tiers are not empty, disjoint and backed by one, and pricing is on only with one |
| PriceBook.PriceDependsOnPagesOnly | printsetu-backend/src/pricing/pricing.service.ts:247-288 | in every such table, whatever the listing order of the tiers, a price is that of the one tier that covers the page count, and of the one active rate when no tier does |
| PriceLaws.PriceIsFromRows | printsetu-backend/src/pricing/pricing.service.ts:241-288 | a combination has a price if and only if it has an active rate, and it is that of an active tier with the pages in its range, else that of the rate |
| PriceLaws.RowsSayOne | printsetu-backend/src/pricing/pricing.service.ts:241-288 | in a table that keeps the invariant the rows name no other price |
| PriceLaws.QuotesFollowRows | printsetu-backend/src/print/print-quote.service.ts:95-152 | each document costs its pages times the price that the table's rows say for all pages of its combination, the order costs the sum, and it is refused exactly if pricing is on and a combination has no active rate |
| PriceLaws.SetRatePrices | printsetu-backend/src/pricing/pricing.service.ts:91-114 | a new rate is the price wherever its combination has no tier, and no other price changes |
| PriceLaws.DeactivatePrices | printsetu-backend/src/pricing/pricing.service.ts:124-147 | a retired rate takes its combination off the offer, no other price changes, and pricing stays on only with a rate left |
| PriceLaws.AddTierPrices | printsetu-backend/src/pricing/pricing.service.ts:180-200 | a new tier is the price within its range, and no other price changes |
| PriceLaws.UpdateTierPrices | printsetu-backend/src/pricing/pricing.service.ts:203-229 | a changed tier is the price in its new range, what only the old one had falls back to the rate, and no other price changes |
| PriceLaws.DeactivateTierPrices | printsetu-backend/src/pricing/pricing.service.ts:231-239 | a retired tier brings the rate back in its range, and no other price changes |
| PriceLaws.RefusedEdits | printsetu-backend/src/pricing/pricing.service.ts:91-239 | exactly these edits are refused: tiers without a rate or of an empty or taken range, rows that are not there, pricing without a rate |
| OrderPricing.CreateQuote | printsetu-backend/src/print/print-quote.service.ts:95-152 | the three loops price every document by its combination's total pages, sum up, and refuse exactly if a priced shop misses a rate |
| OrderPricing.TotalPages | printsetu-backend/src/print/print-quote.service.ts:99-102 | the map holds each combination of the order with the sum of its pages |
| OrderPricing.LookUpRates | printsetu-backend/src/print/print-quote.service.ts:103-113 | one lookup per combination gives the rate for its total pages, or none if one is not offered |
| Repricing.OrderEditor.UpdateItemSettings | printsetu-backend/src/print/print-jobs.service.ts:414-453 | the order after a change of settings, with its two combinations repriced, or untouched |
| Repricing.OrderEditor.DeleteItem | printsetu-backend/src/print/print-jobs.service.ts:389-411 | the order without the document, with its combination repriced, or untouched |
| Repricing.OrderEditor.RepriceOne | printsetu-backend/src/print/print-jobs.service.ts:332-346 | all documents of a combination with tiers, or only the edited one without, get the rate for their stored pages |
| Repricing.OrderEditor.RecomputeJobAmount | printsetu-backend/src/print/print-jobs.service.ts:358-363 | the order's amount becomes the sum of its documents' amounts |
| Repricing.EditingIsRequoting | printsetu-backend/src/print/print-jobs.service.ts:323-453 | with an unchanged table, after any sequence of edits the order equals a new quote for its present documents |
| Repricing.AmountIsSum | printsetu-backend/src/print/print-jobs.service.ts:349-453 | whatever the table and the pricing switch become between edits, the order's amount is the sum of its documents' |
| Repricing.RemovalIsRefusedWhen | printsetu-backend/src/print/print-jobs.service.ts:389-411 | removing a known document is refused if and only if it is the last or its combination must be repriced and is no longer offered |
| RepricingLaws.SettingsPrice | printsetu-backend/src/print/print-jobs.service.ts:323-453 | a document with new settings costs what the rows say today, so do the others of its old and new combination where tiers are, and all the rest keep the price of the quote |
| RepricingLaws.SettingsUnpriced | printsetu-backend/src/print/print-jobs.service.ts:349-356 | without pricing the settings change and no amount does |
| RepricingLaws.RemovalPrices | printsetu-backend/src/print/print-jobs.service.ts:389-411 | after a removal the others of the combination cost what the rows say today where it has tiers, and all the rest keep the price of the quote |
| Availability.TextOrderIsTimeOrder | printsetu-backend/src/shops/shop-profile.service.ts:409-410 | comparing times as text is comparing them as times |
| Availability.ValidateHours | printsetu-backend/src/shops/shop-profile.service.ts:399-414 | saves exactly the weeks whose times are valid and whose open days close after they open |
| Availability.LocalToInstant | printsetu-backend/src/shops/shop-availability.ts:73-83 | two corrections reach the instant at which the local clock shows a time |
| Availability.ScheduledStatus | printsetu-backend/src/shops/shop-availability.ts:86-111 | the loop over eight days computes the specified scan |
| Availability.ScheduleIsExact | printsetu-backend/src/shops/shop-availability.ts:86-111 | for every valid week, offset and instant the status is what the hours say, constant up to the next change and different there, and there is no next change if and only if no day is open |
| Availability.WeekTurns | printsetu-backend/src/shops/shop-availability.ts:45-67 | Monday 5 January 1970 has the first hours of the week and each day the next ones, Monday after Sunday |
| Availability.DayOfWeek | printsetu-backend/src/shops/shop-availability.ts:45-67 | the d-th day of every week has the d-th hours |
| Availability.OpenByTheWeek | printsetu-backend/src/shops/shop-availability.ts:86-111 | at any minute of the d-th day of any week the shop is open if and only if that day is, from its opening up to its closing time |
| ShopSwitch.ShopSettings.OnlineChanges | printsetu-backend/src/shops/shop-profile.service.ts:283-312 | the settings after a request to flip the switch or the schedule, or untouched without hours for it |
| ShopSwitch.ShopSettings.SetOverride | printsetu-backend/src/shops/shop-availability.ts:158-167 | an override up to the next scheduled change, none if the schedule says the same |
| ShopSwitch.EffectiveMeans | printsetu-backend/src/shops/shop-availability.ts:130-156 | without a schedule or an open day the manual switch decides, else an override that still runs, else the hours; the shown change is the override's end or the next change of the hours |
| ShopSwitch.SwitchStores | printsetu-backend/src/shops/shop-availability.ts:158-167 | with the schedule on an override is kept if and only if the switch goes against the hours, up to their next change |
| ShopSwitch.RequestRefused | printsetu-backend/src/shops/shop-profile.service.ts:283-293 | a request is refused if and only if it leaves the schedule on without hours of an open day |
| ShopSwitch.RequestKeeps | printsetu-backend/src/shops/shop-profile.service.ts:294-312 | a request changes the schedule only as it asks, and the manual switch stays while the schedule is on |
| ShopSwitch.SwitchTakesEffect | printsetu-backend/src/shops/shop-profile.service.ts:307-310 | after the switch is set the shop has that status at once, in every mode |
| ShopSwitch.SwitchHolds | printsetu-backend/src/shops/shop-availability.ts:130-167 | with the schedule on the shop keeps the status it was switched to up to the next scheduled change, and against the schedule up to the second |
| ShopSwitch.SwitchEnds | printsetu-backend/src/shops/shop-availability.ts:130-167 | at the end of that time the status is the opposite |
| ShopSwitch.TurningOffKeeps | printsetu-backend/src/shops/shop-profile.service.ts:304-305 | turning the schedule off keeps the status of that moment for good |
| ShopSwitch.TurningOnKeepsWhen | printsetu-backend/src/shops/shop-profile.service.ts:278-303 | turning it on keeps the status if and only if the hours agree with the manual switch |
| ShopSwitch.TurningOnCanChange | printsetu-backend/src/shops/shop-profile.service.ts:278-303 | an online shop goes offline as its schedule is turned on before opening time |

## Left out

- Billing runs and administrator actions on one shop are atomic: two of them at the same time are not modelled.
- Reminders, notifications, event rows, audit rows, reasons and messages, invoice numbers, due dates and descriptions,
  cancellation reasons and the date a subscription began: they carry no state that the properties need.
- Invoices are ordered by their position, so invoices created in the same millisecond have an order. A plan that is
  missing from the catalogue, which the foreign key forbids, makes a step do nothing.
- Refunds and payments at the provider itself: a charge succeeds, fails or is not connected.
- Voiding a single invoice: no code calls it.
- Money as floating point: sums and products are exact, `Number.EPSILON` in rounding is not modelled.
- The limits of the Date type, and its BC years in the time-zone formatter.
- Subscription access checks before ordering and printing: the protocol lets orders and presses happen at any time.
- Quotes as stored rows (expiry, consumption, session tokens) and the checks on uploaded documents: a confirmation takes
  any non-empty list of known documents, which allows more than the code does.
- PrintProtocol: an edit of an order is one step, although the code reads the status before its transaction. A press of
  PRINT that slips in between is not modelled.
- PrintProtocol: the five dispatch attempts are granted with the press, not enqueued after it, and a lost attempt is not
  returned. Several runs of one agent on the same job may go on at once, which allows more than the agent's own set of
  jobs in progress does.
- PrintProtocol: cleared history keeps its rows with a mark, so that the properties can speak of their events.
- Print-ready copies and edited renders of a document: only the uploaded object is modelled; retention does not delete
  edited renders.
- PrintService: `clearHistory`, polling and the item editor have no method there; they are steps of the protocol, and
  the item editor is a class in `Repricing`.
- AgentRun: one `Handle` call at a time; how several interleave is part of the protocol. The choice of the OS printer is
  one outcome, found or not. Error classification and messages are left out, but for the number of documents already sent.
- AgentRun: an error of the spooler is taken, refused or unclear; both printer adapters turn a killed print command into
  the unclear one, which is what the retry loop looks at.
- `deactivate` of a rate that is retired already also retires the tiers of its combination; the model does the same.
- Rates that are set twice in one millisecond, which a unique index refuses.
- Price snapshots in quotes, shop ids, and the transaction around an edit but for its rollback.
- Daylight-saving zones: the shop's zone is a fixed offset in whole minutes. Local calendar dates are day numbers.
- Stored opening hours that never passed validation.
- Dashboards, maps, statistics, colour detection and PDF rendering: they would only add easy members or geometry.
