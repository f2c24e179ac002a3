# Verification of the Yallego API: quota, delivery, sessions, paging and arithmetic

A Dafny model of the state machines and the arithmetic of the API in `apps/api`, and machine-checked proofs about them. Verify everything with `dafny verify dfyconfig.toml`.

## What is modelled

**Trial quota.** `UsageBuckets` holds the usage rows of a tenant and the guarded UPDATEs over them; `BucketStore` runs them step by step, including the reserve loop with its compensating release. `QuotaProtocol` is the whole protocol of one tenant as a state machine: the ingest transaction, the parser job as separate read, commit, mark and release steps with failures, retries and crashes in between, reprocessing by an administrator, trial expiry as a read and a later conditional close, plan changes and period rollover. An event is one database transaction or one queue step, and a run is any sequence of events, so every interleaving is covered. `TenantTables.TenantStore` is the imperative form: its methods update tables and queue in place and each is proved to be a step or a run of the machine. Whole-run theorems follow: the quota bound (`QuotaBound`) with runs that reach it (`QuotaOverrun`), conservation (`QuotaLedger`), exactly-once ingest (`Ingest`), a job for every pending row (`ParserQueue`) and the trial life cycle (`TrialLifecycle`). `IngestGate` puts the gate of an ingest request in front of the protocol: runs in which batches arrive only through it are runs of the protocol, and after a refusal nothing more is received.

**Days, calendar, subscriptions.** `DayWindow` treats a time zone as a function from instants to offsets and decides exactly when the two-pass midnight gives one bucket key per local day. `Calendar` is the calendar arithmetic behind `setUTCMonth` (section 21.4.1 of ECMA-262); `Subscriptions` has access decisions, the trial clock, plan changes and rollover, with the schedulers' loops over the table.

**Webhook delivery.** `WebhookProtocol` is the machine of endpoints, deliveries, job ids and queue; `WebhookTables` the dispatcher, worker and API methods that refine it.

**Refresh tokens.** `RefreshTokens` splits a refresh into a read, a decision and a family revocation, interleaved over any number of clients.

**Paging and CSV.** `KeysetPaging` has the row filter, one page, and walks over a table that changes between the calls. `Csv` has the two exports and an independent reader by section 2 of RFC 4180 with LF as record separator.

**32-bit arithmetic and small protocols.** `Int32` writes out JavaScript's wrapping operators. `Base32` (section 6 of RFC 4648) and `IpAllowlist` (prefixes as in section 3.1 of RFC 4632) use them. `RateLimit` is the fixed-window counter, `TrialIdentity` the pairing transaction with its claims.

Instants are integer milliseconds unless a file says otherwise. Clocks, random ids, hashes, parser matches, HTTP outcomes, signature checks and the rollout mode are parameters or parts of an event, so theorems hold for all their values.

## Results that differ from the expected property

- **Day windows** do not always partition time. On a date whose midnight a clock change straddles, instants of one local day get different bucket keys, or a window starts after its own instants. `DayWindow.OneStartIffClean` gives the exact condition on the zone's transitions, for changes of up to eight hours; `DayWindow.BackAtOneSplitsADay` is a concrete zone whose clock goes back from 01:00 to 00:00. The end of a window is looked up 25 hours after its start: that finds the next date whenever changes are of an hour at most (`DayWindow.WindowsPartition`), and when the clock goes back by two hours it can give an empty window (`DayWindow.BackTwoHoursEmptiesADay`; `DayWindow.ProbeDecides` is the exact condition).
- **Cursors** carry milliseconds while the columns store microseconds. The next page continues exactly below the last row if and only if that row's time is a whole millisecond (`KeysetPaging.CursorExactIffMillis`); otherwise rows of the same millisecond can be lost for good (`KeysetPaging.SubMillisecondRowIsLost`). No row is ever returned twice in either case. A transaction's `occurred_at` is always written from a JavaScript Date and so is a whole millisecond; the input that loses a row needs a time with microseconds, which `created_at` of audit events and tenants can hold, since its default is the database clock.
- **Retries of a delivery** use a millisecond in their job id. A second retry in the same millisecond, after the first one's job has run, leaves the delivery pending with no job. This is the only step that can lose a delivery (`WebhookProtocol.StepCovered`, both directions).
- **Rollover** reads its list and writes each row later, in another transaction. A plan change confirmed in between takes effect as if it came right after the rollover if and only if no change was pending at the read (`Subscriptions.ChangeDuringRollover`); otherwise an upgrade in between is overwritten by the plan that was pending (`Subscriptions.UpgradeLostInRollover`).
- **Reprocessed rows** commit without a reservation. The overrun is at most one unit per reprocessed row (`QuotaBound.QuotaNeverOverrun`), and for every number of reprocessed rows a run of a registered tenant ends exactly that far over the daily limit (`QuotaOverrun.DayOverrunHappens`), and another that far over the total (`QuotaOverrun.PeriodOverrunHappens`).
- **Paid rows.** An administrator's request writes back the rows it found whatever they are by then, and marking a row unmatched does not look at its status either. A row with a payment stays PARSED if and only if no such write comes after the payment (`Ingest.PaidStayParsedIff`); two overlapping requests put a paid row back to PENDING (`Ingest.PaidRowCanReturn`). It is never paid twice.
- **Jobs of pending rows.** A reprocess job also carries a millisecond in its id. A row written back while that id is taken and no other job of the row is left stays PENDING without a job; apart from a queue that drops a job, this is the only step that loses a row (`ParserQueue.StepCovers`, both directions).
- **Late increments** of the rate limiter: a request that reads the clock in one window and increments after its end can find the counter expired, and two are admitted under a limit of one (`RateLimit.LateIncrementOverruns`). A window keeps its limit if and only if every increment runs within 60 seconds of the window's first one, or no more than the limit ask (`RateLimit.LimitHoldsIff`); it keeps every limit if and only if the former holds (`RateLimit.EveryLimitHoldsIff`). Requests that increment before their window is over always do (`RateLimit.OnTimeIsUnexpired`).
- **CIDR prefixes** that are not integers are accepted by the code. They count as the next whole number of bits if and only if they are 16 or more or their fraction exceeds 2^-49 (`IpAllowlist.PrefixIsCeilingIff`): otherwise the difference from 32, computed in doubles, rounds the fraction away, and "/1e-16" compares all 32 bits (`IpAllowlist.TinyFractionIsLost`). Text after a second slash is ignored.

## Model

| member | source | states |
|---|---|---|
| UsageBuckets.BucketStore.TryReserveOne | apps/api/src/modules/plans/entitlement.service.ts:384-402 | a unit is taken exactly when the row exists and used + reserved is under the limit; otherwise nothing changes |
| UsageBuckets.BucketStore.ReleaseOne | apps/api/src/modules/plans/entitlement.service.ts:404-418 | one reserved unit is given back, never below zero; no row, no effect |
| UsageBuckets.BucketStore.CommitOne | apps/api/src/modules/plans/entitlement.service.ts:421-437 | one unit moves to used, clamped like the release, and the new used is answered, 0 without a row |
| UsageBuckets.BucketStore.ReserveQuota | apps/api/src/modules/plans/entitlement.service.ts:122-180 | the loop ends with the closed form: min of count, day and total headroom on both rows, and the reason of the shorter limit; nothing happens for count <= 0 or off the trial plan |
| UsageBuckets.BucketStore.ReserveUnits | apps/api/src/modules/plans/entitlement.service.ts:149-179 | despite the compensating release both rows rise by exactly the units granted |
| UsageBuckets.ReserveMeaning | apps/api/src/modules/plans/entitlement.service.ts:127-179 | never more than asked or than fits; other rows untouched; a full grant has no reason, a short one leaves the bucket named by the reason full, DAILY before PLAN |
| QuotaProtocol.StepWellFormed | apps/api/src/modules/ingest/application/ingest-notifications.usecase.ts:73-123 | every event keeps: one row per device and hash, one payment per row, every job's row exists, trial rows stamped with a day that has its bucket |
| QuotaProtocol.SubscriptionStep | apps/api/src/modules/plans/plan-change-application.service.ts:75-107 | no event takes a subscription back to the trial plan or changes the trial plan's limits |
| QuotaBound.QuotaNeverOverrun | apps/api/src/modules/plans/entitlement.service.ts:122-264 | in every run, used + reserved of each day and of the period is at most the limit plus the rows of that window reprocessed; with none, the limit is never exceeded |
| QuotaBound.StepBounded | apps/api/src/modules/parsing/application/parse-notification.usecase.ts:144-215 | the inductive form: reservations fall short of live jobs by at most the reprocessed rows, through commits, clamped releases, crashes and upgrades |
| QuotaBound.ReprocessAddsOne | apps/api/src/modules/platform-admin/platform-notifications.service.ts:58-104 | from any state with nothing reserved that day, a released row reprocessed and parsed adds one unit to what the day holds |
| QuotaOverrun.DayOverrunHappens | apps/api/src/modules/platform-admin/platform-notifications.service.ts:58-104 | the bound is tight: for every R a run of a registered tenant, its daily limit positive and at most the total, ends with used + reserved of a day at that limit plus R and R rows reprocessed |
| QuotaOverrun.PeriodOverrunHappens | apps/api/src/modules/platform-admin/platform-notifications.service.ts:58-104 | and, both limits positive, another ends with the period at the total limit plus R |
| QuotaLedger.BucketsAreALedger | apps/api/src/modules/plans/entitlement.service.ts:149-264 | without reprocessing, a day's used counts the payments stamped with it, its reserved the rows pending or unmatched and unreleased, and the period row is the sum of the days |
| QuotaLedger.StepLedger | apps/api/src/modules/parsing/application/parse-notification.usecase.ts:130-215 | each event keeps that ledger, whatever day parsing finishes on |
| Ingest.ExactlyOnce | apps/api/src/modules/parsing/application/parse-notification.usecase.ts:54-173 | over every run of resends, retries and reprocessing no two payments come from the same device and hash |
| Ingest.ResendIsQuiet | apps/api/src/modules/ingest/application/ingest-notifications.usecase.ts:81-87 | resending a batch accepted in full finds every hash known and changes no state at any later time |
| Ingest.KnownBatchIsQuiet | apps/api/src/modules/ingest/application/ingest-notifications.usecase.ts:81-123 | a batch of known items reserves nothing, inserts nothing and queues nothing |
| Ingest.FreshInOrder | apps/api/src/modules/ingest/application/ingest-notifications.usecase.ts:81-103 | new rows are kept in the order their hashes first come in the batch, so the last ones lose their place |
| Ingest.PaidStayParsedIff | apps/api/src/modules/platform-admin/platform-notifications.service.ts:62-81 | in any run, paid rows are PARSED after every step if and only if no step writes back a row found before its payment or marks one that a second job still holds as PENDING |
| Ingest.PaidIsNotFound | apps/api/src/modules/platform-admin/platform-notifications.service.ts:62-71 | while paid rows are PARSED no reprocess request finds one |
| Ingest.PaidRowCanReturn | apps/api/src/modules/platform-admin/platform-notifications.service.ts:62-81 | two requests that find a row before either writes it: the row is paid and then PENDING again |
| ParserQueue.StepCovers | apps/api/src/modules/parsing/application/parse-notification.usecase.ts:49-128 | a step leaves every PENDING row a job that will work on it if and only if it neither drops the only one nor writes a row back under a job id already used with none left |
| ParserQueue.NoRowIsLost | apps/api/src/modules/parsing/application/parse-notification.usecase.ts:49-215 | in every run without such a step each PENDING row has a job, and with no job left every row is PARSED, UNMATCHED or ERROR |
| IngestGate.PassesIff | apps/api/src/modules/ingest/application/ingest-notifications.usecase.ts:49-57 | a request passes exactly before the trial begins, while its set clock runs and it has not ended, or on a paid subscription, and off the trial plan only under the monthly count |
| IngestGate.NothingMoreReceived | apps/api/src/modules/ingest/application/ingest-notifications.usecase.ts:49-57 | once operating is refused, no later request adds a row or changes anything in any run without an upgrade: the run is the same as without the requests |
| IngestGate.MovesAreRun | apps/api/src/modules/ingest/application/ingest-notifications.usecase.ts:42-123 | every gated run is a run of the protocol, so its theorems apply |
| TenantTables.TenantStore.InsertRows | apps/api/src/modules/ingest/application/ingest-notifications.usecase.ts:81-87 | the rows inserted are exactly the batch's first occurrences of hashes new to the device |
| TenantTables.TenantStore.TrimAndStamp | apps/api/src/modules/ingest/application/ingest-notifications.usecase.ts:98-111 | the suffix without reservation is deleted, the kept prefix carries the day it was reserved in |
| TenantTables.TenantStore.StoreBatch | apps/api/src/modules/ingest/application/ingest-notifications.usecase.ts:73-123 | one transaction: rows, buckets and block reason for the batch, everything else untouched |
| TenantTables.TenantStore.AnswerItems | apps/api/src/modules/ingest/application/ingest-notifications.usecase.ts:125-156 | every item gets one right answer in order, and exactly the kept rows get a parser job |
| TenantTables.TenantStore.IngestNotifications | apps/api/src/modules/ingest/application/ingest-notifications.usecase.ts:42-165 | access is refused exactly unless the trial has not begun, its set clock runs and it has not ended, or the subscription is paid; then only a paid plan over its count is refused; a refusal changes nothing; otherwise one protocol step, with QUEUED for kept rows, DUPLICATE for old ones and the limit's reason for the rest |
| TenantTables.AllQueued | apps/api/src/modules/ingest/application/ingest-notifications.usecase.ts:113-137 | the jobs of the answers are exactly the jobs of the rows kept |
| TenantTables.OneAnswerEach | apps/api/src/modules/ingest/application/ingest-notifications.usecase.ts:125-164 | accepted and rejected together hold one entry per item |
| TenantTables.KnownItemsAreDuplicates | apps/api/src/modules/ingest/application/ingest-notifications.usecase.ts:125-156 | a batch whose hashes are all known is answered DUPLICATE item by item and nothing is rejected |
| TenantTables.GivenUpRow | apps/api/src/modules/ingest/application/ingest-notifications.usecase.ts:98-103 | an item that lost its place has no row after the batch |
| TenantTables.TenantStore.CommitQuota | apps/api/src/modules/plans/entitlement.service.ts:187-236 | both rows move one unit; the first commit starts the trial clock, the one reaching the total ends the trial |
| TenantTables.TenantStore.CreateTransaction | apps/api/src/modules/parsing/application/parse-notification.usecase.ts:130-173 | payment, PARSED and quota commit are one step, and a second payment of a row rolls back |
| TenantTables.TenantStore.ReleaseQuota | apps/api/src/modules/plans/entitlement.service.ts:239-264 | exactly count releases of the stamped day and the period, none off the trial plan |
| TenantTables.ReleaseTimesMeaning | apps/api/src/modules/plans/entitlement.service.ts:239-264 | n releases take n units of the day row and of the period row, down to zero, and touch no other row |
| TenantTables.TenantStore.MarkUnmatched | apps/api/src/modules/parsing/application/parse-notification.usecase.ts:195-215 | without a crash, marking is two protocol steps: the status, then the release |
| TenantTables.TenantStore.ParseNotification | apps/api/src/modules/parsing/application/parse-notification.usecase.ts:49-128 | an uninterrupted job is the matching run of steps: a PENDING row ends PARSED with one payment more, or UNMATCHED, and the job is gone; a row no longer PENDING is left alone; an already paid one keeps its payment and the job is retried |
| TenantTables.TenantStore.Reprocess | apps/api/src/modules/platform-admin/platform-notifications.service.ts:58-104 | exactly the rows asked for that are UNMATCHED or ERROR return to PENDING, once each with a new job, as a run of the protocol |
| TrialLifecycle.TrialLifeCycle | apps/api/src/modules/plans/entitlement.service.ts:212-236 | in every run TRIALING has both clock instants trial hours apart, clock and end are set once, using up the total ends the trial |
| TrialLifecycle.RegisteredWaits | apps/api/src/modules/auth/auth.service.ts:91-104 | a new tenant has no rows and a trial that has not begun, and may operate at any time |
| TrialLifecycle.RefusalLasts | apps/api/src/modules/plans/entitlement.service.ts:60-86 | once operation is refused it is refused at every later time and state, unless the subscription is ACTIVE by then |
| TrialLifecycle.OnlyUpgradeLifts | apps/api/src/modules/plans/plan-change-application.service.ts:75-107 | and only an upgrade makes it so |
| TrialLifecycle.CommitStartsAndStops | apps/api/src/modules/plans/entitlement.service.ts:195-228 | the first payment starts the clock at its own instant for the plan's hours; the payment that brings used to the total, and no other, ends the trial |
| TrialLifecycle.OperatesIff | apps/api/src/modules/plans/entitlement.service.ts:60-86 | operating is allowed exactly before the trial begins, on a paid subscription, or while a set clock runs and the trial has not ended |
| TrialLifecycle.GateErrors | apps/api/src/modules/plans/entitlement.service.ts:88-105 | the gate passes exactly when operating is allowed, and reports a configuration fault exactly for a TRIALING row without both clock instants |
| TrialLifecycle.DecisionMeaning | apps/api/src/modules/plans/entitlement.service.ts:60-86 | who may read and configure, and which reason goes with which state |
| TrialLifecycle.DueIffRefused | apps/api/src/modules/plans/trial-expiration.scheduler.ts:27-55 | of sane rows the expiration task picks exactly the trials not yet ended that access refuses at its instant |
| TrialLifecycle.CloseKeepsAccess | apps/api/src/modules/plans/trial-expiration.scheduler.ts:42-55 | closing a trial changes the decision at no instant from the task's reading on |
| TrialLifecycle.DueIsClosed | apps/api/src/modules/plans/trial-expiration.scheduler.ts:27-55 | a trial whose time is over is closed, at its promised end and for its time limit |
| TrialLifecycle.StepClosesInTime | apps/api/src/modules/plans/trial-expiration.scheduler.ts:42-55 | a trial that gets closed was TRIALING, past its end and refused when the task read the clock |
| TrialLifecycle.RolloverEvent | apps/api/src/modules/plans/subscription-period.scheduler.ts:24-54 | in the protocol a rollover moves a due active subscription to its next period and plan, and does nothing else |
| TrialLifecycle.ChangeEvent | apps/api/src/modules/plans/plan-change-application.service.ts:75-107 | in the protocol a confirmed change of a current subscription is immediate exactly when the sort order rises, pending otherwise |
| DayWindow.StartIsFirstInstant | apps/api/src/modules/plans/entitlement.service.ts:349-367 | when no change straddles the local midnight, the two-pass result is the first instant of the local date, not after the instant asked about |
| DayWindow.OneStartIffClean | apps/api/src/modules/plans/entitlement.service.ts:310-367 | all instants of a local date share one start, none before it, if and only if no clock change straddles that midnight |
| DayWindow.WindowsPartition | apps/api/src/modules/plans/entitlement.service.ts:108-114 | with changes of an hour at most: the window holds exactly the instants of the local date to the millisecond, is the window of each, ends at the next date's first instant, and the next window starts there, if and only if no change straddles the midnight of the date or of the next |
| DayWindow.ProbeDecides | apps/api/src/modules/plans/entitlement.service.ts:108-114 | with larger changes and both midnights clear of them, it does if and only if 25 hours after the start the next date has begun |
| DayWindow.BackTwoHoursEmptiesADay | apps/api/src/modules/plans/entitlement.service.ts:108-114 | a zone that goes back from 03:00 to 01:00 gives a date a window that ends where it starts |
| DayWindow.BackAtOneSplitsADay | apps/api/src/modules/plans/entitlement.service.ts:310-367 | a zone that goes back from 01:00 to 00:00 gives one local date two starts |
| Calendar.FirstDayIsStandard | apps/api/src/modules/plans/billing-cycle.util.ts:4-9 | counting months one by one agrees with the day numbers of the standard's closed form, leap years included |
| Calendar.CycleAdvances | apps/api/src/modules/plans/billing-cycle.util.ts:4-9 | the step is exactly the summed lengths of the next 1, 6 or 12 months, even when the day overflows |
| Calendar.CycleLengths | apps/api/src/modules/plans/billing-cycle.util.ts:4-9 | so a cycle lasts 28-31, 181-184 or 365-366 days, 366 only across a 29 February |
| Calendar.CycleLandsOn | apps/api/src/modules/plans/billing-cycle.util.ts:4-9 | the same day of the month when it exists, otherwise the excess days spill into the month after |
| Subscriptions.PeriodsAbut | apps/api/src/modules/plans/subscription-period.scheduler.ts:24-54 | an active subscription whose period is over gets one that starts at the old end and lasts one cycle, the pending one if there is one, at calendar lengths; the pending plan moves in, nothing else changes |
| Subscriptions.RolloverSkips | apps/api/src/modules/plans/subscription-period.scheduler.ts:24-29 | a subscription that is not active, or whose period still runs, is left as it is |
| Subscriptions.RolloverCatchesUp | apps/api/src/modules/plans/subscription-period.scheduler.ts:24-54 | n runs at most a day apart make good any delay under 28 + 27(n - 1) days: the period end is then after the last of them |
| Subscriptions.DowngradeWaits | apps/api/src/modules/plans/plan-change-application.service.ts:75-107 | a change to a plan of no higher sort order leaves plan and cycle alone until the first rollover at or after the period end, and applies there for good |
| Subscriptions.UpgradeIsImmediate | apps/api/src/modules/plans/plan-change-application.service.ts:75-107 | a change to a plan of higher sort order applies at once, drops a waiting downgrade, opens a paid period of exactly one cycle when it leaves the trial, and no rollover undoes it |
| Subscriptions.ChangeDuringRollover | apps/api/src/modules/plans/subscription-period.scheduler.ts:25-54 | a change between the scheduler's read and write counts as coming right after the rollover if and only if none was pending at the read |
| Subscriptions.UpgradeLostInRollover | apps/api/src/modules/plans/subscription-period.scheduler.ts:33-54 | with one pending, an upgrade in between is overwritten by the pending plan |
| Subscriptions.SubscriptionStore.RolloverDuePeriods | apps/api/src/modules/plans/subscription-period.scheduler.ts:24-54 | the loop rolls exactly the due subscriptions once and touches no other row |
| Subscriptions.SubscriptionStore.RolloverRow | apps/api/src/modules/plans/subscription-period.scheduler.ts:37-53 | the update writes period and plan from the row as read, one cycle long, and leaves every other field as it is by then |
| Subscriptions.SubscriptionStore.CloseExpiredTrials | apps/api/src/modules/plans/trial-expiration.scheduler.ts:27-60 | exactly the TRIALING rows not ended whose end is at or before now are closed, at that end, and the count is the number of rows changed |
| Subscriptions.SubscriptionStore.ApplyConfirmedChange | apps/api/src/modules/plans/plan-change-application.service.ts:52-107 | no subscription in a current status, or no plan: error and no change; otherwise immediate exactly when the sort order rises, now or at the period end as announced |
| WebhookProtocol.DelaysFollowTable | apps/api/src/modules/webhooks/domain/retry-policy.ts:6-26 | the waits between attempts add up to the table from one second to twelve hours, are positive, and exist exactly after attempts 1 to 7 |
| WebhookProtocol.AttemptIdsAreNew | apps/api/src/modules/webhooks/dispatch/webhook-dispatch.service.ts:69-90 | an attempt's job id has never been added before, so the queue swallows none |
| WebhookProtocol.JobOutcome | apps/api/src/modules/webhooks/adapters/webhook-delivery.worker.ts:59-227 | every executed job, field by field: DELIVERED exactly on success, ABANDONED exactly on 410, an unresolvable address or the eighth failure, one attempt more, the next attempt queued otherwise; the endpoint's failures and flag |
| WebhookProtocol.DeliveredIffSent | apps/api/src/modules/webhooks/adapters/webhook-delivery.worker.ts:118-127 | over any run a delivery ends DELIVERED if and only if one of its attempts succeeded, and at most one ever does |
| WebhookProtocol.DisabledIff | apps/api/src/modules/webhooks/adapters/webhook-delivery.worker.ts:201-227 | an endpoint is switched off exactly by removal, an update that says so, a 410 or a fifth failure in a row |
| WebhookProtocol.CreatedIsEnabled | apps/api/src/modules/webhooks/webhooks.service.ts:73-104 | a new endpoint is enabled with no failures |
| WebhookProtocol.StepCovered | apps/api/src/modules/webhooks/dispatch/webhook-dispatch.service.ts:48-104 | a step keeps a job queued for every pending delivery if and only if it is not a retry whose id was seen and whose delivery has no job left |
| WebhookProtocol.NoDeliveryLost | apps/api/src/modules/webhooks/adapters/webhook-delivery.worker.ts:59-171 | in every run without such a retry each pending delivery has a queued job, and an empty queue means every delivery is delivered or abandoned |
| WebhookProtocol.RetryCanBeSwallowed | apps/api/src/modules/webhooks/dispatch/webhook-dispatch.service.ts:92-104 | two retries in one millisecond around the job's execution leave the delivery pending without a job |
| WebhookProtocol.DeliveredStays | apps/api/src/modules/webhooks/adapters/webhook-delivery.worker.ts:65-81 | a delivered row never changes again |
| WebhookProtocol.AttemptsAreBounded | apps/api/src/modules/webhooks/adapters/webhook-delivery.worker.ts:83-171 | with R accepted manual retries a delivery is attempted at most 8 + R times |
| WebhookProtocol.JobsComeToAnEnd | apps/api/src/modules/webhooks/adapters/webhook-delivery.worker.ts:59-171 | a run executes at most the state's measure in jobs, plus 9 per dispatch and 1 per retry |
| WebhookProtocol.FailuresAreTheStreak | apps/api/src/modules/webhooks/adapters/webhook-delivery.worker.ts:173-227 | the failure counter is the number of deliveries given up since the last success |
| WebhookProtocol.FiveInARowDisable | apps/api/src/modules/webhooks/adapters/webhook-delivery.worker.ts:212-227 | five given up in a row disable the endpoint unless someone enables it again |
| WebhookProtocol.RemovedIsNeverCalled | apps/api/src/modules/webhooks/webhooks.service.ts:144-166 | no delivery of a removed endpoint, old or created later, is ever attempted again |
| WebhookTables.WebhookStore.EnqueueForEvent | apps/api/src/modules/webhooks/dispatch/webhook-dispatch.service.ts:29-76 | one delivery and job for each enabled endpoint subscribed to the event, each once, nothing else |
| WebhookTables.WebhookStore.Process | apps/api/src/modules/webhooks/adapters/webhook-delivery.worker.ts:59-171 | a job is one protocol step for every network outcome |
| WebhookTables.WebhookStore.FinalizeFailure | apps/api/src/modules/webhooks/adapters/webhook-delivery.worker.ts:201-227 | the delivery is abandoned, the endpoint counts one failure and is disabled on 410 or at the fifth |
| WebhookTables.WebhookStore.RetryDelivery | apps/api/src/modules/webhooks/webhooks.service.ts:236-274 | unknown endpoint or delivery: not found; delivered: conflict; otherwise pending again with a retry job |
| WebhookTables.WebhookStore.UpdateEndpoint | apps/api/src/modules/webhooks/webhooks.service.ts:109-142 | the subscribed events and the enabled flag given, and only those, change, on an endpoint that is not deleted |
| WebhookTables.WebhookStore.RemoveEndpoint | apps/api/src/modules/webhooks/webhooks.service.ts:144-166 | the endpoint is deleted and disabled, its deliveries untouched |
| RefreshTokens.FamiliesArePaths | apps/api/src/modules/auth/auth.service.ts:306-388 | after any interleaving a family's links are one simple path through all its tokens, and at most one token is live |
| RefreshTokens.DeadStaysDead | apps/api/src/modules/auth/auth.service.ts:356-378 | a family without a live token never has one again |
| RefreshTokens.RevokedIsFinal | apps/api/src/modules/auth/auth.service.ts:357-377 | a revoked token stays revoked and its replacement is final, so it is rotated at most once |
| RefreshTokens.RefreshMeaning | apps/api/src/modules/auth/auth.service.ts:306-385 | an uninterrupted refresh, field by field: same user and family, the expiry asked for, the old token revoked and linked, or revoked, or reuse |
| RefreshTokens.IssuedCanBeRefreshed | apps/api/src/modules/auth/auth.service.ts:329-378 | a live token that nobody revokes or presents can be refreshed at every instant before its expiry, into one of the same user and family with the expiry asked for, and at none after, whatever other clients do |
| RefreshTokens.ReadOnce | apps/api/src/modules/auth/auth.service.ts:306-329 | a request holds the row as it was when it read it, and reads once |
| RefreshTokens.ReuseKillsFamily | apps/api/src/modules/auth/auth.service.ts:330-334 | presenting a revoked token ends with the whole family dead for good, whatever other clients do between the steps |
| RefreshTokens.RaceKillsFamily | apps/api/src/modules/auth/auth.service.ts:356-385 | of two requests holding the same row the second rotates nothing and kills the family, the first one's new token included |
| RefreshTokens.LogoutEndsSession | apps/api/src/modules/auth/auth.service.ts:390-401 | logging out with a family's live token leaves the family dead for good |
| RefreshTokens.PasswordChangeEndsSessions | apps/api/src/modules/auth/auth.service.ts:516-525 | a password reset or change ends every family the user has, for good |
| RefreshTokens.TokenStore.StartSession | apps/api/src/modules/auth/auth.service.ts:600-623 | a new family with one live token of the user and expiry given |
| RefreshTokens.TokenStore.ActOn | apps/api/src/modules/auth/auth.service.ts:329-385 | a token is issued exactly when the row read was unrevoked, unexpired, with a membership, and is still live in the table: with the same user and family and the expiry asked for |
| RefreshTokens.TokenStore.Refresh | apps/api/src/modules/auth/auth.service.ts:306-388 | uninterrupted, it issues exactly for a live unexpired token with a membership; a revoked one revokes the family |
| RefreshTokens.TokenStore.RevokeTokenFamily | apps/api/src/modules/auth/auth.service.ts:708-713 | every unrevoked token of the family is revoked |
| RefreshTokens.TokenStore.Logout | apps/api/src/modules/auth/auth.service.ts:390-401 | the presented token is revoked if it was live, nothing else |
| RefreshTokens.TokenStore.RevokeSessionsOf | apps/api/src/modules/auth/auth.service.ts:482-485 | every live token of the user is revoked |
| KeysetPaging.BuildWhere | apps/api/src/modules/transactions/transactions.service.ts:380-444 | the field-by-field assignments, malformed cursor included, build the filter whose meaning is proved next |
| KeysetPaging.FilterMeaning | apps/api/src/modules/transactions/transactions.service.ts:385-441 | the filter selects exactly the rows the query asks for that lie after the cursor; an unknown wallet selects none |
| KeysetPaging.ContainsMeaning | apps/api/src/modules/transactions/transactions.service.ts:405-409 | the search text stands somewhere in the name |
| KeysetPaging.BuildAuditWhere | apps/api/src/modules/audit/audit.service.ts:77-122 | the audit filter selects exactly the events asked for after the cursor, and fails exactly on a malformed one |
| KeysetPaging.FormsAgree | apps/api/src/modules/platform-auth/platform-tenants.service.ts:49-56 | the OR form, which is what after the cursor means here, and the bound with NOT select the same rows |
| KeysetPaging.WhereSelects | apps/api/src/modules/transactions/transactions.service.ts:79-85 | run on a table, the filter gives the selection a page is cut from |
| KeysetPaging.PageMeaning | apps/api/src/modules/transactions/transactions.service.ts:80-100 | a page is the descending top of the selection; a cursor is given exactly when more remains, and the rest lies below its last row |
| KeysetPaging.CursorExactIffMillis | apps/api/src/modules/transactions/cursor.util.ts:7-24 | the next page continues exactly below the last row if and only if its time is a whole millisecond |
| KeysetPaging.NoRowTwice | apps/api/src/modules/transactions/transactions.service.ts:74-101 | however the table changes between calls, a walk is strictly descending, so no row comes twice |
| KeysetPaging.NoRowMissed | apps/api/src/modules/transactions/transactions.service.ts:74-101 | with whole-millisecond times a finished walk returns every row present and matching at all its calls, even if its other columns change in between |
| KeysetPaging.QuietWalk | apps/api/src/modules/audit/audit.service.ts:20-43 | on a quiet table the walk takes exactly the calls needed and returns exactly the matching rows |
| KeysetPaging.CallsIsCeiling | apps/api/src/modules/audit/audit.service.ts:29-41 | and that number of calls is max(1, ceil(n / limit)) |
| KeysetPaging.SubMillisecondRowIsLost | apps/api/src/modules/audit/cursor.util.ts:7-11 | two rows within one millisecond and pages of one: the lower row is never returned |
| Csv.RoundTrip | apps/api/src/modules/transactions/transactions.service.ts:336-337 | a reader by the quoting rules recovers exactly the header and the fields, whatever quotes, commas and newlines they hold |
| Csv.FeedField | apps/api/src/modules/transactions/transactions.service.ts:465-470 | one printed field reads back as its text and nothing more |
| Csv.TransactionExportReadsBack | apps/api/src/modules/transactions/transactions.service.ts:297-337 | the transaction export reads back as its header and the first 10 000 rows, an absent field as empty text |
| Csv.AuditExportReadsBack | apps/api/src/modules/audit/audit.service.ts:45-75 | the same for the audit export |
| Csv.TransactionColumns | apps/api/src/modules/transactions/transactions.service.ts:308-337 | column by column: record k of the transaction export holds these fields of row k, and there are min(n, 10 000) records |
| Csv.AuditColumns | apps/api/src/modules/audit/audit.service.ts:51-75 | the same for the audit export |
| Csv.ExportSizes | apps/api/src/modules/transactions/transactions.service.ts:297-337 | both exports read back as a header and min(n, 10 000) records, none for no rows |
| Base32.Base32Encode | apps/api/src/modules/platform-auth/base32.ts:4-22 | the wrapping loops print the specification's symbols for bytes of any length |
| Base32.Base32Decode | apps/api/src/modules/platform-auth/base32.ts:24-42 | the wrapping loop decodes the symbols read from the input, skipping everything else |
| Base32.PushSymbol | apps/api/src/modules/platform-auth/base32.ts:33-38 | five more bits, and a byte as soon as eight are pending |
| Base32.EncodingIsBigEndian | apps/api/src/modules/platform-auth/base32.ts:9-19 | the symbols are the bits of the bytes, most significant first, in fives with zero padding |
| Base32.RoundTrip | apps/api/src/modules/platform-auth/base32.ts:4-42 | decoding the encoded symbols gives the bytes back |
| Base32.DecodeEncode | apps/api/src/modules/platform-auth/base32.ts:24-33 | every text that is the encoding in upper, lower or mixed case, with separators anywhere and in any number, decodes to the bytes |
| Base32.ReadStripped | apps/api/src/modules/platform-auth/base32.ts:24-33 | dropping every separator leaves the symbols read unchanged, for any text |
| Base32.AsciiSeparators | apps/api/src/modules/platform-auth/base32.ts:25-31 | among ASCII characters the separators are all but letters and 2 to 7 |
| Base32.IndexOfMeaning | apps/api/src/modules/platform-auth/base32.ts:1-31 | the position searched is that of the letter in the alphabet, -1 exactly for what is not in it |
| Int32.ShiftIn | apps/api/src/modules/platform-auth/base32.ts:10-11 | shifting bits in under 32-bit wrap-around keeps every pending bit |
| Int32.ShiftOut | apps/api/src/modules/platform-auth/base32.ts:13-14 | an unsigned shift and mask reads the field above the pending bits |
| IpAllowlist.Ipv4ToInt | apps/api/src/modules/platform-auth/ip-allowlist.ts:51-62 | an address has a value exactly when it is four integers from 0 to 255 |
| IpAllowlist.Ipv4IsBase256 | apps/api/src/modules/platform-auth/ip-allowlist.ts:55-61 | that value is the base-256 number of the octets and fits 32 bits |
| IpAllowlist.MaskMeaning | apps/api/src/modules/platform-auth/ip-allowlist.ts:47-48 | for every prefix from 0 to 32 the signed masked comparison holds exactly when the addresses agree on the first bits the double difference and the shift count leave |
| IpAllowlist.PrefixIsCeilingIff | apps/api/src/modules/platform-auth/ip-allowlist.ts:34-47 | a prefix compares its ceiling in bits if and only if it is an integer, at least 16, or has a fraction over 2^-49 |
| IpAllowlist.TinyFractionIsLost | apps/api/src/modules/platform-auth/ip-allowlist.ts:34-47 | otherwise it compares its integer part, and all 32 bits when that is 0 |
| IpAllowlist.DifferenceIsExact | apps/api/src/modules/platform-auth/ip-allowlist.ts:47 | from 16 on the difference of doubles needs no rounding |
| IpAllowlist.MatchesCidr | apps/api/src/modules/platform-auth/ip-allowlist.ts:30-49 | an entry matches exactly when both parts parse and the addresses agree on the bits its prefix compares |
| IpAllowlist.IsIpAllowed | apps/api/src/modules/platform-auth/ip-allowlist.ts:7-28 | an address is allowed exactly when some entry of the list allows it |
| IpAllowlist.CidrMeaning | apps/api/src/modules/platform-auth/ip-allowlist.ts:30-49 | an entry range/n allows exactly the addresses equal to its own above the low 32 - n bits, whatever follows a second slash |
| IpAllowlist.CidrRefused | apps/api/src/modules/platform-auth/ip-allowlist.ts:30-45 | an entry with a missing or empty part, a prefix that is no number from 0 to 32, or an address that is none allows nothing |
| IpAllowlist.EntryMeaning | apps/api/src/modules/platform-auth/ip-allowlist.ts:7-23 | an empty entry allows nothing, one without a slash its own address, one with a slash its range |
| IpAllowlist.SplitMeaning | apps/api/src/modules/platform-auth/ip-allowlist.ts:31 | the parts joined by the separator are the text, and none holds a separator |
| IpAllowlist.JoinedSplits | apps/api/src/modules/platform-auth/ip-allowlist.ts:31 | parts without separators are split back as they were |
| IpAllowlist.NormalizeMeaning | apps/api/src/modules/platform-auth/ip-allowlist.ts:25-28 | the prefix ::ffff: is dropped from the trimmed lower-case text, anything else kept |
| IpAllowlist.MappedNormalizesAlike | apps/api/src/modules/platform-auth/ip-allowlist.ts:25-28 | an address in mapped form normalizes like the address |
| IpAllowlist.OctetMeaning | apps/api/src/modules/platform-auth/ip-allowlist.ts:56-60 | an octet is exactly a text that reads as an integer from 0 to 255, with that value |
| RateLimit.CounterIsComplete | apps/api/src/shared/guards/api-key-rate-limit.guard.ts:39-45 | while no increment of a window runs 60 seconds or more after its first, the counter holds every request of the window |
| RateLimit.LimitHoldsIff | apps/api/src/shared/guards/api-key-rate-limit.guard.ts:39-65 | for every sequence of requests, late ones included, a window admits at most its limit if and only if its counter never expires inside it or no more than the limit ask |
| RateLimit.EveryLimitHoldsIff | apps/api/src/shared/guards/api-key-rate-limit.guard.ts:39-65 | so every limit is kept if and only if the counter never expires inside the window |
| RateLimit.OnTimeIsUnexpired | apps/api/src/shared/guards/api-key-rate-limit.guard.ts:39-45 | increments that run before their window is over never find an expired counter, whenever it was created |
| RateLimit.WindowAdmitsLimit | apps/api/src/shared/guards/api-key-rate-limit.guard.ts:39-65 | such a window admits exactly the requests asked, up to the limit |
| RateLimit.MinuteAdmitsTwiceLimit | apps/api/src/shared/guards/api-key-rate-limit.guard.ts:39-65 | 60 consecutive seconds whose two windows keep their limit admit at most twice the limit |
| RateLimit.TwiceLimitHappens | apps/api/src/shared/guards/api-key-rate-limit.guard.ts:39-65 | and that many are admitted within 60 seconds, even two, across a window boundary |
| RateLimit.LateIncrementOverruns | apps/api/src/shared/guards/api-key-rate-limit.guard.ts:39-45 | an increment after the end of its window finds the counter expired and two requests are admitted under a limit of one |
| RateLimit.Guard.CanActivate | apps/api/src/shared/guards/api-key-rate-limit.guard.ts:32-72 | a request passes exactly by the count it finds, which is the number of earlier requests of its window while that has not expired; remaining, reset and retry values follow |
| TrialIdentity.OneTrialPerDevice | apps/api/src/modules/devices/device-gateway.service.ts:183-291 | in any run two enforced TRIAL pairings that share an android id or key belong to one tenant |
| TrialIdentity.EnforcedCarriesIdentity | apps/api/src/modules/devices/device-gateway.service.ts:200-217 | an enforced TRIAL pairing succeeds only with an identity whose signature verifies |
| TrialIdentity.AcceptedIffUnowned | apps/api/src/modules/devices/device-gateway.service.ts:230-254 | enforcement accepts exactly when no other tenant owns either signal |
| TrialIdentity.RefusedIffOwned | apps/api/src/modules/devices/device-gateway.service.ts:230-254 | enforcement refuses exactly when another tenant holds the android id or the key |
| TrialIdentity.PairingMeaning | apps/api/src/modules/devices/device-gateway.service.ts:53-217 | which error comes when, and that with the rollout off, a paid plan, or no identity while observing claims never stand in the way |
| TrialIdentity.PairedMeaning | apps/api/src/modules/devices/device-gateway.service.ts:88-125 | success uses up the code, adds the device and, when accepted, claims both signals; an error changes nothing |
| TrialIdentity.OwnDevicePairsAgain | apps/api/src/modules/devices/device-gateway.service.ts:281-290 | a tenant can always pair its own device again, as far as claims go |
| TrialIdentity.ObservationLeavesClaims | apps/api/src/modules/devices/device-gateway.service.ts:255-279 | observing another tenant's device pairs it and leaves every claim and owner as it was |
| TrialIdentity.CodePairsOnce | apps/api/src/modules/devices/device-gateway.service.ts:53-112 | a code that has paired a device is refused for ever after |
| TrialIdentity.PairingService.ClaimTrialIdentities | apps/api/src/modules/devices/device-gateway.service.ts:183-291 | insert, compare and undo end with both signals owned or the claims unchanged, for every mode |
| TrialIdentity.PairingService.PairDevice | apps/api/src/modules/devices/device-gateway.service.ts:49-125 | success changes code, claims and devices together; every error leaves all of them as they were |

## Left out

- DayWindow.StartIsFirstInstant: for zones with whole-second offsets that change at most once in two days and by at most eight hours, which leaves out moves across the date line.
- DayWindow.OneStartIffClean: for the same zones.
- DayWindow.WindowsPartition: for the same zones with changes of an hour at most, because larger ones can break it, as above.
- QuotaProtocol.SubscriptionStep: the protocol's plan change refuses a target with the TRIAL code, which the source would accept; a tenant that returns to the trial plan is not covered by the quota theorems.
- KeysetPaging.NoRowMissed: for times that are whole milliseconds, which is exactly when a cursor is faithful.
- RateLimit.MinuteAdmitsTwiceLimit: for one fixed limit per key.
- QuotaLedger.BucketsAreALedger: while the tenant is on the trial plan and nothing was reprocessed; afterwards the code no longer maintains the buckets.
- WebhookProtocol.AttemptsAreBounded: `attempts` is the column the worker writes, one higher with every attempt.
- The gate of an ingest request reads the subscription before its transaction; the protocol is freer than the code, since it allows any ingest at any time.
- A job finishes together with its last database write; a lost acknowledgement after that write is a repeated job that finds the row processed. A kept row whose job was never queued is an ingest followed by a drop of the job.
- A job is worked on by one worker at a time, as the queue's lock promises: a stalled job that a second worker takes over while the first still runs is excluded from the quota theorems.
- Rows without a stamp and several subscriptions of one tenant are excluded as hypotheses.
- Retention deletes old tokens, notifications and deliveries, and the queue forgets job ids some time after completion; neither is modelled.
- The live-count limit of paid plans is a boolean of the request; a tenant has a subscription from its registration on.
- In the quota protocol a rollover is one step; its read and its write as two steps are treated in Subscriptions.
- The waiting time of a queued attempt is not part of the queue's state; DelaysFollowTable gives its values.
- A webhook job or request is atomic; BullMQ gives webhook jobs one attempt, so a crash inside one loses it.
- Endpoint creation limits, descriptions, secrets, payloads and address checks of webhooks; an unresolvable address is one of the outcomes.
- The text form of cursors (base64url of an ISO time and an id) and of date parameters; a cursor is malformed or a pair.
- Of the platform tenant list only the cursor's OR form is modelled, not its search text and status filters.
- The order of equal times in the audit export, which sorts by time alone.
- Sums and summaries in SQL, row-level security, database and Redis internals: transactions are atomic, unique keys and INCR hold.
- Invalid dates, the time clip of dates beyond 8.64e15 ms, and years for which Date.UTC maps 0-99 to 1900-1999.
- toUpperCase beyond ASCII is any function that agrees with it on ASCII; trim, toLowerCase and Number of the allow list are parameters.
- The clocks of the application and of Redis are one.
- Administrators overriding or deleting identity claims.
- Hashing, signatures, token formats, JWT, argon2 and encryption; dedupe hashes and signal hashes are opaque keys.
- Members, wallets, API keys, mail, metrics, logging and the dashboard: they would only add easy members.
