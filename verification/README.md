# Billing, deletion and key proofs for Commissary

A Dafny model of the parts of Commissary whose correctness spans many calls, with proofs of what they keep:

- **The billing ledger of one org** (`Plan`, `Bill`, `Ledger`, `BillingStore`): the tables of `BillingStore`, each method as a
  function on their value (`Ledger`), and the class whose methods, loops over rows and events included, are proved to do
  exactly that (`BillingStore.Store`).
- **The protocol that drives it** (`SendUsageRuns`, `SendUsage`, `Owed`): any number of `sendUsage` runs, overlapping,
  crashing and sending again, interleaved with every call of the store and a provider that may take part of a request or
  lose its answer. `SendUsageRuns.World` carries a `history` per key that nothing reads: the high-water mark of usage above
  free, what was written off, what was used while billed, refunded and forfeited. The main results compare the provider's
  total with it.
- **The account under webhooks** (`Accounts`): repeats, late reports, reordering.
- **Limits** (`RequestRuns`, `Refusals`, `Notices`, `RateWindows`, `Meter`): the request counter, Free's limit, the billing
  cap, the remembered refusals of many isolates, the notices, the one-minute windows.
- **Caches** (`OrgCaches`, `ApiKeys`, `KeyRuns`, `GateRuns`): the insertion-ordered bounded cache as a first-in-first-out
  map; how stale an accepted API key can be, and which orgs are asked, over every run of every isolate (`KeyRuns`); and
  that what the gate does is such a run (`GateRuns`).
- **Deletion and text** (`Sweep`, `OrgNames`, `OrgKeys`, `Text`): the budgeted sweep with its exact budget, org-scoped names,
  and the text of keys.

`dafny verify dfyconfig.toml` checks all of it.

How the pieces are modelled:

- Tables are maps keyed by month and unit; a table without its one row reads as its default. Each store method is one step.
- Amounts and hours are reals; a cap is rounded to whole micro-dollars as the code does. The send epsilon is a real constant.
- Months are any `Calendar`: half-open, containing the time asked for, one month for all times in it.
- Random ids and bytes are inputs: a batch id is fresh and holds no colon (a UUID). SHA-256 is any function of a text.
- Clocks, failures, lost answers, arrivals during a sweep and cache evictions are steps or inputs, so that every behaviour is
  covered.

Results worth knowing before changing the code:

- `packages/billing/src/polar.ts:17-19` says that any order of delivery comes to the same state. The code does not do that:
  `Accounts.OrderCanMatter` delivers an end before the activation it ended and leaves the org on Pay as you go.
  `Accounts.OrdersAgreeExactlyWhen` says when two orders show the same, `Accounts.OrdersAgreeInFullExactlyWhen` when they
  leave the same account, and `Accounts.LatestActiveWins` and `Accounts.LatestOfOneSubscriptionWins` what holds in every
  order.
- `endSubscription` does not look at the plan; its callers read Pay as you go, or a current subscription, first
  (`packages/billing/src/routes.ts:365`, `packages/billing/src/org-deletion.ts:38`). The runs here allow the plan to change
  in between: such a stale end bills use of Free. `Owed.StaleEndsCanBillFreeUse` is such a run,
  `Owed.EndingOnFreeBillsExactlyWhen` says exactly when it happens, `SendUsageRuns.BilledUseIsAccountedFor` bounds it in every
  run, and `SendUsageRuns.OnlyBilledUseIsBilled` is what holds when every end finds what its caller read.
- `refund` may lower usage that was sent already, so bounds from above are against the high-water mark and bounds from below
  account for refunds.
- `packages/auth/src/api-key.ts:8-12` says that a revoked key may keep working for 30 s. That holds of the clock a request
  reads at its start (`KeyRuns.AcceptancesAreFresh`). By the clock when it is accepted, a lookup whose answer is under way
  for longer may be accepted later, however late (`KeyRuns.AnswersUnderWayAreAccepted`); it never comes from a cache
  (`KeyRuns.LateAcceptancesWereUnderWay`), and a limit on how long answers take is the bound
  (`KeyRuns.RevokedKeysAreRefused`).
- `makeOrgCache` keeps the entry just stored even under a bound below one, so the bound that holds for every argument is the
  larger of it and one (`OrgCaches.Room`).

## Model

| member | source | states |
|---|---|---|
| SendUsageRuns.ExactlyOnce | packages/billing/src/store.ts:606-744 | In every run of senders and store calls, the provider's deduplicated total of a key ≤ sent + on its way ≤ the most usage above free there ever was; with no batch on its way it equals sent less written off. |
| SendUsageRuns.BilledUseIsAccountedFor | packages/billing/src/store.ts:285-294 | In every run, what was billed and is still to be taken, less what stale ends added, is at most what usage above free grew by while billed, across plan switches and unbilled marks, and falls short of it only by what was refunded, forfeited or not sent yet; stale ends add at most what it grew by on Free. |
| SendUsageRuns.OnlyBilledUseIsBilled | packages/billing/src/store.ts:561-574 | When every end finds the org on Pay as you go, nothing used on Free or while unbilled is ever billed. |
| SendUsageRuns.OnlyStaleEndsRace | packages/billing/src/store.ts:584-609 | Only an end that finds the org on Free puts anything on its way of an org that is not billed. |
| SendUsageRuns.NewBatchesCarryTheBilledStretch | packages/billing/src/store.ts:660-708 | A batch is only made of a billed org, or by a stale end, and carries per key at most the growth of usage above free since the org became billed (or stopped being it). |
| SendUsageRuns.CoveredNeverDecreases | packages/billing/src/store.ts:611-638 | Sent plus on its way never decreases in any step, and a write-off brings it exactly up to usage above free. |
| SendUsageRuns.StepKeepsInv | packages/billing/src/send-usage.ts:14-29 | One step of any sender or caller, at any point, keeps the ledger invariant of every key and every sender. |
| SendUsageRuns.RunKeepsInv | packages/billing/src/send-usage.ts:14-29 | So does every run. |
| SendUsageRuns.CallSettles | packages/billing/src/store.ts:600-638 | Each call that may move the ledger: what it puts on its way or writes off of a key is exactly what usage above free is ahead; it puts some on its way only of a billed org, or as a stale end, and writes off of a billed org only when that stops being billed. |
| SendUsageRuns.CloseAtKey | packages/billing/src/store.ts:606-609 | Closing the usage leaves nothing of a key uncovered. |
| SendUsageRuns.PendingMoves | packages/billing/src/store.ts:646-654 | A batch on its way stays until acknowledged; a new one has the given id and only amounts above rounding. |
| SendUsage.Send | packages/billing/src/send-usage.ts:14-29 | A run of `sendUsage` over the class and a provider takes exactly the steps of one sender of the protocol, whichever of its three calls does not arrive or loses its answer, and says it sent exactly when all were answered. |
| SendUsage.Provider.Ingest | packages/billing/src/polar.ts:422-435 | The provider takes a prefix of the events, each at most once by its id, and answers only when it took all. |
| SendUsage.IngestIsDeliver | packages/billing/src/store.ts:185-192 | Taking events by their text ids is taking them per batch, month and unit. |
| BillingStore.ExternalIdsAreUnique | packages/billing/src/store.ts:690-695 | The text of an event's id is equal for two events exactly when batch, month and unit are. |
| Owed.TakeAnswersWhatIsOwed | packages/billing/src/store.ts:646-708 | A new batch of a billed org holds exactly the keys of months up to now with more than rounding unsent, and all of it; there is none exactly when no key has any. |
| Owed.AskingSettlesUnbilledUse | packages/billing/src/store.ts:660-666 | Asking for a batch of an unbilled org answers none and writes its use off. |
| Owed.TheSameBatchUntilAcknowledged | packages/billing/src/store.ts:640-654 | Whatever is called, asking again answers the identical batch until it is acknowledged. |
| Owed.SendingLeavesOnlyRounding | packages/billing/src/store.ts:685-726 | After an acknowledgement at most the epsilon of each key of the months up to now is unsent. |
| Owed.LeavingSendsWhatIsOwed | packages/billing/src/store.ts:600-609 | A billed org that leaves with no batch on its way gets a last batch of exactly the keys with more than rounding unsent, of every month a clock can read, and all of it. |
| Owed.LeavingForfeitsOnlyRounding | packages/billing/src/store.ts:600-609 | Leaving a billed stretch with no batch on its way forfeits at most a billionth of a unit per key of any month a clock can read, less than a thousandth of a micro-dollar. |
| Owed.StepsForfeitOnlyRounding | packages/billing/src/store.ts:600-609 | In any run, a step that finds no batch on its way forfeits at most that of any key. |
| Owed.StayingBilledForfeitsNothing | packages/billing/src/store.ts:646-726 | A run in which the org stays billed forfeits and writes off nothing. |
| Owed.SendingPaysUp | packages/billing/src/send-usage.ts:14-29 | After any run, one undisturbed `sendUsage` of a billed org brings the provider's total to all but the epsilon of what was used while billed, not refunded and not forfeited. |
| Owed.EndingOnFreeBillsExactlyWhen | packages/billing/src/store.ts:584-609 | Called on Free, `endSubscription` makes a batch exactly when none is on its way, the org is not unbilled, has a customer and has more than rounding above free unsent. |
| Owed.StaleEndsCanBillFreeUse | packages/billing/src/routes.ts:359-374 | A concrete run: read on Pay as you go, ended by a report, used on Free, then ended by the caller, which sends the use of Free. |
| Accounts.ReachableIsSound | packages/billing/src/store.ts:523-598 | In every reachable state: Pay as you go exactly with a current subscription, past due only there, the current never the recorded ended one; the change time never decreases. |
| Accounts.StepKeepsSound | packages/billing/src/store.ts:523-598 | Every call keeps that. |
| Accounts.ReportsAreTakenUpExactlyWhen | packages/billing/src/store.ts:523-569 | Which reports change nothing, and that every other leaves the org on the plan, payment, subscription and time it reports. |
| Accounts.ChangedExactlyWhen | packages/billing/src/store.ts:561-576 | A report answers true exactly when the plan, the customer, the subscription or the payment is another after it. |
| Accounts.EndingLeaves | packages/billing/src/store.ts:584-598 | After `endSubscription`: on Free, nothing current, nothing past due, what ended and when recorded, the customer kept. |
| Accounts.RepeatIsInert | packages/billing/src/store.ts:531-577 | Applying any change twice leaves the whole store as once and answers false. |
| Accounts.LateReportsAreInert | packages/billing/src/store.ts:579-598 | After `endSubscription(now)` no sequence of reports from before, of ends, or about the ended subscription but its activation changes the store. |
| Accounts.ReportsAfterAnEndAreInert | packages/billing/src/store.ts:523-542 | Nor after the provider reported the end: the last invoice of an ended subscription is ignored. |
| Accounts.DeliveriesDecideTheStanding | packages/billing/src/store.ts:531-577 | The plan and account deliveries leave do not depend on the ledger or on batch ids. |
| Accounts.LatestActiveWins | packages/billing/src/store.ts:523-577 | In any order with repeats, when the latest change is `active` the org ends on Pay as you go with it. |
| Accounts.LatestOfOneSubscriptionWins | packages/billing/src/store.ts:523-577 | In any order with repeats, changes of one subscription end past due, or on Free, as the latest says. |
| Accounts.TheStoreEndsOnTheLatestActive | packages/billing/src/store.ts:531-577 | So does the store itself, whatever its ledger and batches, when the latest is `active`. |
| Accounts.TheStoreEndsOnTheLatestOfOne | packages/billing/src/store.ts:531-577 | And when all changes are of one subscription. |
| Accounts.OrderCanMatter | packages/billing/src/store.ts:544 | Two changes whose two orders leave different plans. |
| Accounts.OrdersAgreeExactlyWhen | packages/billing/src/store.ts:534-544 | When two orders of two changes show the same plan, payment and subscription, by the guards on the account before either: the newer is `active`, the older is ignored, both are ends, or the older is no end and the newer concerns its subscription exactly when it is not ignored now. |
| Accounts.OrdersAgreeInFullExactlyWhen | packages/billing/src/store.ts:534-574 | And exactly when they leave the same plan and account, to the recorded ended subscription, customer and time. |
| BillingStore.Store.constructor | packages/billing/src/store.ts:251-255 | A new store stands for the empty tables and a fresh window. |
| BillingStore.Store.WriteOffUnsent | packages/billing/src/store.ts:612-638 | The loop over usage rows writes off every key at once. |
| BillingStore.Store.NewBatch | packages/billing/src/store.ts:660-708 | The loop over ordered rows makes one event per owed key, in order, with its id, and stores the batch. |
| BillingStore.Store.CloseUsage | packages/billing/src/store.ts:606-609 | Makes the last batch unless one is on its way, then writes off. |
| BillingStore.UnitsAreInTextOrder | packages/billing/src/store.ts:678 | The order of units in a batch is that of their names. |
| Text.DecimalReadsBack | packages/billing/src/store.ts:694 | The month in an event's id is read back from its decimal text. |
| BillingStore.Store.MeterBatch | packages/billing/src/store.ts:646-654 | Answers the batch on its way, else a new one on Pay as you go. |
| BillingStore.Store.CountAsSent | packages/billing/src/store.ts:716-723 | The loop over events adds each event's amount to its key. |
| BillingStore.Store.MeterBatchSent | packages/billing/src/store.ts:711-726 | Counts the batch as sent once; any other id changes nothing. |
| BillingStore.Store.Add | packages/billing/src/store.ts:507-516 | Adds to a counter, never below zero, touching no other. |
| BillingStore.Store.Used | packages/billing/src/store.ts:354-370 | What was used of each unit in a month, 0 of one never counted. |
| Ledger.FreeLimitsRefuseExactlyWhen | packages/billing/src/store.ts:426-440 | Free's limit refuses a unit exactly when the org is not unbilled, is on Free or past due, and used 25,000 requests, 1 browser hour or 0 computer hours; with what the refusal says. |
| Ledger.TheCapRefusesExactlyWhen | packages/billing/src/store.ts:442-453 | The cap refuses exactly on Pay as you go, not past due, with the unit's free usage used up and the bill of one use more past the cap; with what the refusal says. |
| Ledger.WhatIsSentIsWhatIsBilled | packages/billing/src/store.ts:640-645 | The usage above free that is sent of a month is what its bill prices: requests above 25,000, browser hours above 1, computer hours. |
| BillingStore.Store.LimitOf | packages/billing/src/store.ts:426-456 | Answers that limit from the tables, counting nothing. |
| BillingStore.Store.Admit | packages/billing/src/store.ts:464-473 | Counts a request against its month, or refuses it and counts nothing. |
| BillingStore.Store.Refund | packages/billing/src/store.ts:503-505 | Takes a request back from the month it was counted against. |
| BillingStore.Store.AddTime | packages/billing/src/store.ts:479-483 | Counts time in hours whatever the limits say. |
| RequestRuns.OnlyMeteringMovesHours | packages/billing/src/store.ts:479-516 | Only metered time moves a month's hours, those of its own unit, by 1 for 3,600,000 ms. |
| RequestRuns.HoursAreConserved | packages/billing/src/store.ts:479-483 | Over any calls a month's hours of a unit are what they were plus the time metered to it. |
| Ledger.OnlyOwnTablesMove | packages/billing/src/store.ts:390-396 | Which calls move which table, and what those that set a value leave. |
| Ledger.TheCapIsTheLastSet | packages/billing/src/store.ts:381-396 | The cap is what was set last, $50 until then. |
| BillingStore.Store.AdmitRate | packages/billing/src/store.ts:334-344 | Counts a request in its one-minute window up to the ceiling that applies. |
| Ledger.CeilingsFollowPlanAndRaises | packages/billing/src/store.ts:303-318 | No ceiling is below the plan's or Free's; without a raise they are the plan's; a higher plan or raise never lowers one. |
| Ledger.CeilingsAreTheirOwn | packages/billing/src/store.ts:303-318 | Each ceiling is the higher of its own setting and 1, 0 and 60 on Free, 5, 3 and 600 on Pay as you go. |
| Ledger.OnlyTheseLowerCeilings | packages/billing/src/store.ts:285-318 | A call lowers a ceiling only by lowering a raise, an end or a failed payment on Pay as you go, or unmarking an unbilled org. |
| BillingStore.Store.SetCustomer | packages/billing/src/store.ts:519-521 | Records the customer and nothing else. |
| BillingStore.Store.ApplySubscription | packages/billing/src/store.ts:531-577 | Applies or ignores a change as the ledger's function says, and answers whether anything shown changed. |
| BillingStore.Store.EndSubscription | packages/billing/src/store.ts:584-598 | Puts the org on Free, closes its usage and answers the subscription to cancel. |
| BillingStore.Store.SetUnbilled | packages/billing/src/store.ts:285-294 | Closes or writes off the usage when the mark changes, else changes nothing. |
| BillingStore.Store.SetBillingCap | packages/billing/src/store.ts:390-396 | Sets the cap and nothing else. |
| BillingStore.SelectRows | packages/billing/src/store.ts:673-681 | The keys of the months before a time, each once, in the order of month and unit. |
| Ledger.RetryAfterReachesTheMonthEnd | packages/billing/src/store.ts:426-456 | Waiting as long as a refusal says reaches the next month, and a second less does not. |
| Ledger.Raise | packages/billing/src/store.ts:303-311 | The higher of a plan's ceiling and the raised one. |
| Bill.ToMicros | packages/billing/src/bill.ts:31-32 | The micro-dollar amount nearest to a dollar amount, halves up. |
| Bill.BillIsTheSumOverUnits | packages/billing/src/bill.ts:52-57 | The bill prices only what is above free usage: 5 µ$ a request, 150,000 µ$ an hour. |
| Bill.CapRefusesExactlyWhatWouldPassIt | packages/billing/src/bill.ts:59-76 | The cap refuses exactly the use that would be billed and whose bill, one request or minute on, would be past the cap. |
| Bill.CapRefusalsAreMonotone | packages/billing/src/bill.ts:69-76 | More use never bills less, and never undoes a refusal by the cap. |
| Plan.MonthsAreContiguous | packages/billing/src/month.ts:7-18 | The end of a month is the start of the next. |
| RequestRuns.ReachableCountsAreWhole | packages/billing/src/store.ts:507-516 | In every reachable state a month's requests are a whole number, not below zero. |
| RequestRuns.TheCounterIsConserved | packages/billing/src/store.ts:464-516 | With each refund matched to an earlier admission, a month's counter is exactly admissions less refunds, across month boundaries. |
| RequestRuns.FreeUsageIsNotPassed | packages/billing/src/store.ts:458-473 | While Free's limits apply a month's requests never pass the free amount. |
| RequestRuns.OnlyCountingMovesRequests | packages/billing/src/store.ts:464-516 | Only an admitted request and a refund move a month's requests, by one. |
| RequestRuns.TheCapHolds | packages/billing/src/bill.ts:69-76 | Over any use, a month's bill ≤ max(starting bill, cap) + the cost of the time metered since; requests alone never pass the cap. |
| RequestRuns.UseKeepsTheCap | packages/billing/src/store.ts:426-516 | The same of one call. |
| Refusals.RefusalsAreSticky | packages/billing/src/store.ts:426-473 | Once refused, a unit stays refused the same that month unless a refund or a change of cap, plan, payment or unbilled mark comes. |
| Refusals.RememberedRefusalsAreSound | packages/billing/src/meter.ts:154-194 | In every run of isolates with requests in flight and clocks apart, a refusal served from memory has not lapsed, its month has not ended, and unless something that may lift it came, it is what the store would answer now, seconds to wait included. |
| Refusals.LiftedRefusalsLapse | packages/billing/src/cache.ts:15-22 | After a call that may lift it, a refusal is served for less than 5 s (the cap) or 30 s more, plus twice what clocks may be off. |
| Refusals.ServedExactlyWhile | packages/billing/src/cache.ts:33-45 | A remembered refusal is served exactly before 5 s (the cap) or 30 s are over and its month ends. |
| Refusals.ServingIsRefusing | packages/billing/src/meter.ts:132-143 | What an isolate keeps of a refusal is enough to answer as the store did. |
| Refusals.StepKeepsInv | packages/billing/src/meter.ts:154-194 | Every step, with requests between their look-up, the store's answer and remembering it, keeps what is remembered good. |
| Meter.CountRequest | packages/billing/src/meter.ts:150-194 | Refuses from memory without asking, with the seconds to wait worked out anew, else counts or refuses and remembers until the earlier of time to live and month end. |
| Meter.CountingIsARun | packages/billing/src/meter.ts:150-194 | What it does is a run of the isolates that remember refusals. |
| Meter.UncountRequest | packages/billing/src/meter.ts:196-208 | Takes back what was counted, from its month; nothing where nothing was. |
| Meter.Expiring.Get | packages/billing/src/cache.ts:33-45 | Never answers an entry at or after its time, and then forgets it. |
| Meter.Expiring.Set | packages/billing/src/cache.ts:47-49 | The value is answered exactly before its time. |
| Notices.BillingNotices | packages/billing/src/notices.ts:42-71 | The notices are exactly those that apply, in order, none twice. |
| Notices.NoticesAgreeWithRefusals | packages/billing/src/notices.ts:21-71 | In every state the 100% notices are there exactly when the limits refuse, and an unbilled org has neither; the 80% notices from 80% of what refuses nothing yet; a failed payment on Pay as you go. |
| RateWindows.EachWindowAdmitsAtMostTheCeiling | packages/billing/src/store.ts:328-344 | Each window admits at most the ceiling, even when clocks run backwards. |
| RateWindows.EachWindowAdmitsTheCeiling | packages/billing/src/store.ts:334-344 | Of the requests of one minute the first ones up to the ceiling are admitted, each, and no more. |
| RateWindows.WindowsAreMinutes | packages/billing/src/store.ts:335 | Windows are whole minutes that hold their times. |
| RateWindows.LaggingRequestsNeverReset | packages/billing/src/store.ts:328-344 | A request whose clock is behind never resets the count. |
| RateWindows.AnyMinuteAdmitsAtMostTwice | packages/billing/src/store.ts:334-344 | With clocks that never go back any 60 seconds admit at most twice the ceiling. |
| RateWindows.TwiceIsReached | packages/billing/src/store.ts:334-344 | And twice is reached. |
| Sweep.SweepObjects | packages/agents/src/org-deletion.ts:47-87 | Ends, stays within its budget, forgets exactly what it purged, is complete only with nothing listed, gives up only out of budget, out of pages or after the page of a failure, whatever arrives or fails meanwhile; undisturbed, a sweep of n objects completes exactly with a budget of n + 2⌈n/20⌉ + 22 and ⌈n/20⌉ + 1 pages, having purged all n. |
| Sweep.SweepPage | packages/agents/src/org-deletion.ts:69-78 | Asks for a page, purges each object on its own, and forgets those that went; undisturbed, the page is gone from the list. |
| Sweep.PurgeAll | packages/agents/src/org-deletion.ts:69-70 | Tries every id whatever failed before it, and tells which went and the first failure. |
| Sweep.OthersStillGo | packages/agents/src/org-deletion.ts:47-52 | An id whose purge works goes, whichever others fail. |
| Sweep.FirstFailureIsFirst | packages/agents/src/org-deletion.ts:80-83 | The failure told is of the first id whose purge failed. |
| OrgCaches.PutIsBoundedFifo | packages/core/src/kv.ts:136-146 | Storing keeps the bound, finds the value, drops only the oldest and only for a new key when full, keeps an overwritten entry's age. |
| OrgCaches.RemoveIsBoundedFifo | packages/core/src/kv.ts:147-149 | Removing keeps the bound and every other entry. |
| OrgCaches.WithoutKeepsTheOrder | packages/core/src/kv.ts:147-149 | And the ages of the others. |
| OrgCaches.EntriesOutliveOlderOnes | packages/core/src/kv.ts:136-146 | An entry outlives as many stores of other keys as there are entries older than it. |
| OrgCaches.EntriesGoInTheirTurn | packages/core/src/kv.ts:136-146 | And in a full cache goes with one new key more. |
| OrgCaches.JoinedKeysAreInjective | packages/core/src/kv.ts:131-132 | Joined keys are equal exactly when org and name are. |
| OrgCaches.OrgCache.Get | packages/core/src/kv.ts:135 | The value under the org and name, never another's. |
| OrgCaches.OrgCache.Set | packages/core/src/kv.ts:136-146 | The insertion-ordered map under joined keys stores as the first-in-first-out map does, and its size never passes the bound. |
| OrgCaches.OrgCache.Size | packages/core/src/kv.ts:154-156 | How many entries there are, never more than the bound. |
| OrgCaches.OrgCache.Delete | packages/core/src/kv.ts:147-149 | Removes that entry only, keeping the others' ages. |
| KeyRuns.AcceptancesAreFresh | packages/auth/src/api-key.ts:114-150 | In every run, an acceptance rests on an ok verdict less than 30 s older than its request, of an org listed less than 60 s before it, and its request began before the key's expiry; no request that begins 30 s after a revocation is accepted, in any isolate; and it is of a key issued in the org presented with the hash presented. |
| KeyRuns.GoodKeysAreAccepted | packages/auth/src/api-key.ts:114-150 | In every reachable state a request that presents an issued key, not revoked and not expired, of a listed org, is accepted as that key when nothing disturbs it (a hash being of one key only). |
| KeyRuns.CachedExactlyWhile | packages/auth/src/api-key.ts:123-147 | A verdict is served from the cache exactly for 30 s from its request and before the key expires. |
| KeyRuns.LateAcceptancesWereUnderWay | packages/auth/src/api-key.ts:122-149 | A revoked key accepted 30 s or more after its revocation comes from no cache, but from an answer under way for 30 s or more. |
| KeyRuns.RevokedKeysAreRefused | packages/auth/src/api-key.ts:19-20 | When answers arrive within a limit, no isolate accepts a revoked key from the larger of 30 s and that limit on, lookups in flight included. |
| KeyRuns.AnswersUnderWayAreAccepted | packages/auth/src/api-key.ts:130-149 | Without a limit there is none: a run for every delay in which the revoked key is accepted that much later. |
| KeyRuns.OnlyListedOrgsAreAsked | packages/auth/src/api-key.ts:93-108 | An org's store is asked only when the registry listed that org at a clock later than 30 s before the request began. |
| KeyRuns.MadeUpOrgsAreNeverAsked | packages/auth/src/api-key.ts:7-10 | An org the registry never listed is never asked. |
| KeyRuns.StepKeepsInv | packages/auth/src/api-key.ts:93-150 | Every step of any isolate, the registry and the stores keeps cached verdicts, trust, lookups and acceptances good. |
| GateRuns.GateIsARun | packages/auth/src/api-key.ts:114-150 | What the gate answers and leaves in its caches is what one undisturbed lookup of those runs does, eviction included. |
| ApiKeys.Gate.OrgExists | packages/auth/src/api-key.ts:93-108 | Asks the registry only when not trusted, trusts a listing for 30 s and forgets an org that is gone. |
| ApiKeys.Gate.VerifyApiKey | packages/auth/src/api-key.ts:114-150 | Accepts from the cache, or else exactly a key stored with the hash presented and without an expiry or before it, of an org that is trusted or listed; cached for 30 s but not past its expiry; a refusal leaves nothing cached. |
| OrgNames.OrgIsRecoverable | packages/core/src/org.ts:54-67 | The org of a scoped name is read back for every name KV access takes. |
| OrgNames.OrgIdsAreBuiltOf | packages/core/src/org.ts:13-19 | Org ids are single letters and digits, and what two of them joined by hyphens or directly are, up to 63 characters. |
| OrgNames.OrgOfNameExactlyWhen | packages/core/src/org.ts:61-67 | A stored name reads as an org's exactly when it is one of that org's scoped names. |
| OrgNames.ScopedNamesAreDisjoint | packages/core/src/org.ts:54-55 | Two accepted names are stored alike exactly when org and name are equal. |
| OrgNames.PrefixIsTheOrgs | packages/core/src/kv.ts:69-77 | The prefix an org's names are listed by matches its names and no other org's. |
| OrgNames.OrgKv.Get | packages/core/src/kv.ts:62 | Reads the org's own entry, or is refused. |
| OrgNames.OrgKv.Put | packages/core/src/kv.ts:63-65 | Writes the org's own entry, and no other of any org. |
| OrgNames.OrgKv.DeletePage | packages/core/src/kv.ts:69-77 | Deletes up to the limit of the org's entries only, complete exactly when none is left. |
| OrgKeys.MintedKeysParse | packages/auth/src/keys.ts:63-75 | Every minted key parses to its org and id, whatever the random bytes, and lists show its start. |
| OrgKeys.PrintedKeysParse | packages/auth/src/keys.ts:78-90 | A printed key parses although its secret may hold the separator. |
| OrgKeys.AcceptedExactlyWhenPrinted | packages/auth/src/keys.ts:78-90 | A text is accepted exactly when it is a printing of a well-formed org, id and secret. |
| OrgKeys.PrintingIsInjective | packages/auth/src/keys.ts:63-66 | A text is the printing of one org, id and secret only. |
| OrgKeys.NoKeyIsOfBothKinds | packages/auth/src/keys.ts:92-111 | No text is both an API key and a management key. |
| OrgKeys.MintedKeysAreDistinct | packages/auth/src/keys.ts:63-75 | Two minted keys are equal exactly when org, id bytes and secret bytes are. |
| OrgKeys.AcceptedExactlyWhenMintable | packages/auth/src/keys.ts:78-90 | A text is accepted exactly when minting could have made it, of some org and random bytes. |
| OrgKeys.HexReadsBack | packages/auth/src/keys.ts:54-57 | Bytes are read back from their lowercase hex text. |
| OrgKeys.HexPrintsBack | packages/auth/src/keys.ts:54-57 | And every such text is the print of bytes. |
| OrgKeys.Base64UrlReadsBack | packages/auth/src/keys.ts:52 | Bytes are read back from their base64url text. |
| OrgKeys.Base64UrlPrintsBack | packages/auth/src/keys.ts:52 | And every such text is the print of bytes. |

## Left out

- `setPlan` called from outside: for tests only (`packages/billing/src/part.ts:42`); the methods that change the plan are modelled.
- `checkCeiling`, `rateCeiling`, `raiseCeilings`, the messages of refusals and the link to the billing page in them: one reading settles them (setting the raised ceilings is a step of the runs).
- `drop` and what happens to a run whose org is deleted meanwhile.
- `deleteWhere` of the org cache, and `deleteOrgRuns`, which runs two sweeps one after the other.
- The lookup of a key's member, that checking an expired key deletes it and records when a key was last used, and the reading of credentials from headers (`bearer`, `presentedCredentials`).
- Self-hosted deployments, where nothing is counted.
- HTTP routes, RPC, the SQL text, webhook signatures and the provider's REST client.
- The calendar's arithmetic: any calendar of half-open months is allowed.
- Floating point: amounts are reals, so the drift that the epsilon absorbs is not modelled.
- Sweep.SweepObjects: purges of a page run at the same time in the code and one after the other here; with both limits infinite and endless arrivals the code need not end, so one limit is required.
- OrgNames.OrgKv.DeletePage: the namespace is read consistently; Workers KV lists may lag.
- Other areas of the repository (agents, tools, models, members, the panel, infrastructure).
