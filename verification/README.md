# Verified model of the trading backend's protocols

This project models, in Dafny, the step-by-step protocols of a trading backend and proves what they
keep over whole runs. Each module is one component:

| module | component |
|---|---|
| `KeyedExecutor` | the executor that runs calls of one key in order on a shared thread pool |
| `TradeExecution` | trade intents: the risk gate, the write-ahead commit, the broker call, reconciliation, emergency closes |
| `ConnectionPool`, `PoolHandouts`, `PoolUse`, `PoolProgress` | the single-flight pool of streaming broker connections: the protocol, what it hands out and leaks, last use and eviction, progress |
| `ToolCache`, `ToolCacheMisses` | the tool-result cache keyed by per-account data versions, and exactly what it may miss |
| `Assembly` | which conversation a signal message belongs to |
| `Generations` | how the messages of one signal are merged |
| `Billing` | subscriptions, webhooks, grace periods and scheduled downgrades |
| `Affiliates` | commissions and their reversal by refunds and disputes |
| `JournalIngest` | reconciling stored trades with broker history |
| `Pagination` | keyset pagination |
| `Provisioning` | provisioning and deleting broker connections |
| `Prelude` | shared vocabulary |

Check the whole project with `dafny verify dfyconfig.toml`.

## How the protocols are modelled

A protocol is a state, a set of atomic steps with their enabling conditions, and runs over any
sequence of enabled steps. Concurrency is interleaving: a step is what the source does inside one
locked section, between two awaits, or in one Redis or database operation. A worker that may die is
a list of lasting effects (commits and calls to the outside), of which a delivery performs any
prefix. What the outside world answers (brokers, the payment provider, clocks, fresh identifiers) is
a parameter of the step, so that the theorems hold for all answers. Where the source changes objects
in place, a class has the same fields, and its methods are proved to perform exactly the step of the
transition system.

Where a property one would expect of the code does not hold, the code is kept as it is, and the
project states exactly when the property holds:

- Volume normalization raises a request below the broker's minimum after the risk gate has charged
  the smaller request, so the exposure bound holds for openings of safe size and for no others
  (`NormalizeRoundsUpExactly`, `OpeningSafeExactly`).
- An intent whose handler died between the write-ahead commit and the commit of the result is picked
  up by no later delivery; this is the only way to be left `submitted`, and every other intent can
  still be resolved (`StrandsExactly`, `StrandedExactly`, `ResolvableExactly`).
- An eviction whose `close` raises leaks the connections queued behind it, and nothing else leaks
  (`LeaksExactly`, `LeakHappens`). Between the end of an open and the resumption of a waiter another
  coroutine may take the connection and close it: the waiter is then handed a closed connection
  (`HandedOutExactly`, `TakenExactly`, `ClosedIsHandedOut`).
- A cache hit may miss a commit exactly when no increment of the account that the caller saw came after
  it (`MissedExactly`).
- A full close of several exact matches with a tied latest timestamp depends on the order of the
  candidates (`OrderFreeExactly`), and an opening action may select an already submitted conversation
  through an edit or reply (`OpeningRuleExactly`).
- A webhook brings a downgrade forward that was scheduled without a period end
  (`ScheduledWebhookExactly`).
- A redelivered delete that dies half-way leaves a deleted connection `deleting`
  (`DeletedStaysExactly`), and one that dies between removing the provider's account and its last
  commit can never be completed (`CutDeleteWedges`, `WedgedForever`). The provider keeps an account
  that no row records exactly when a new provisioning makes one silently or dies before recording it
  (`LeavesExactly`, `RecordedExactly`); a delete that comes then completes and leaves that account
  behind (`EarlyDeleteOrphans`).
- A page walk with limit zero stops at once (`Walk`).

## Model

| member | source | states |
|---|---|---|
| `KeyedExecutor.StepKeeps` | src/app/domains/copy_trading/delivery.py:48-75 | every submit, begin, peek, run and pop step of every interleaving keeps the queue/drain/future invariant |
| `KeyedExecutor.KeyOrderTheorem` | src/app/domains/copy_trading/delivery.py:48-75 | in every interleaving the calls of one key start in submission order, at most once each and never two at a time |
| `KeyedExecutor.OwnFutureTheorem` | src/app/domains/copy_trading/delivery.py:48-68 | a future is resolved exactly when its own call has finished, and with that call's outcome |
| `KeyedExecutor.NoTaskStranded` | src/app/domains/copy_trading/delivery.py:48-75 | whenever the lock is free a key is in the dictionary iff its queue is non-empty iff exactly one drain is scheduled or running, so an open future still has a drain coming |
| `KeyedExecutor.DrainStepProgress` | src/app/domains/copy_trading/delivery.py:57-75 | each drain step lowers a measure of the remaining work |
| `KeyedExecutor.DrainsTerminate` | src/app/domains/copy_trading/delivery.py:57-75 | once submissions stop, every interleaving of the drains is finite |
| `KeyedExecutor.RestMeansResolved` | src/app/domains/copy_trading/delivery.py:57-75 | with at least one pool thread, drains rest only when every queue is gone and every future resolved |
| `KeyedExecutor.RunningUnresolved` | src/app/domains/copy_trading/delivery.py:64-68 | the future of a running call is still open, so resolving it cannot raise |
| `KeyedExecutor.KeyedSerialExecutor.Submit` | src/app/domains/copy_trading/delivery.py:48-55 | performs exactly the submit step: fresh future, queue appended, a drain scheduled when the queue was empty |
| `KeyedExecutor.KeyedSerialExecutor.PeekHead` | src/app/domains/copy_trading/delivery.py:57-64 | performs exactly the peek step |
| `KeyedExecutor.KeyedSerialExecutor.RunHead` | src/app/domains/copy_trading/delivery.py:65-68 | performs exactly the run step and resolves the peeked call's own future |
| `KeyedExecutor.KeyedSerialExecutor.PopHead` | src/app/domains/copy_trading/delivery.py:69-75 | performs exactly the pop step: the head goes, and an emptied queue goes with its key |
| `KeyedExecutor.KeyedSerialExecutor.DrainAlone` | src/app/domains/copy_trading/delivery.py:57-75 | an undisturbed drain empties its queue and resolves every queued future with its own call's outcome |
| `TradeExecution.NormalizeRoundsUpExactly` | src/app/domains/copy_trading/symbols.py:37-41 | normalization exceeds the request exactly when the request is below the broker's minimum |
| `TradeExecution.NormalizeIsLargestStep` | src/app/domains/copy_trading/symbols.py:37-41 | a request within the broker's range becomes the largest whole step it covers, or the minimum |
| `TradeExecution.DeliverKeeps` | src/app/domains/copy_trading/metaapi_execution.py:512-918 | any delivery, cut short after any commit or call, keeps the intent invariant |
| `TradeExecution.BrokerCalledAtMostOnce` | src/app/domains/copy_trading/metaapi_execution.py:524-525 | over all repeated and cut-short deliveries the broker is called at most once per intent, only while the stored state is `submitted`, and at most one copied trade is recorded for it |
| `TradeExecution.RetriedAtMostOnce` | src/app/domains/copy_trading/metaapi_execution.py:624-629 | at most two attempts are counted and `retryable` is entered at most once, from `created` |
| `TradeExecution.RestingIntentNeverMoves` | src/app/domains/copy_trading/metaapi_execution.py:524-525 | no delivery ever writes an intent that is `confirmed`, `failed` or `submitted` at rest |
| `TradeExecution.StrandsExactly` | src/app/domains/copy_trading/metaapi_execution.py:702-787 | a delivery leaves an intent `submitted` iff it is an execution of it that passes every check and dies after the write-ahead commit and before the commit of the result |
| `TradeExecution.StrandedExactly` | src/app/domains/copy_trading/metaapi_execution.py:702-787 | in any run an intent ends `submitted` iff one of its executions was cut short there |
| `TradeExecution.ResolvableExactly` | src/app/domains/copy_trading/metaapi_execution.py:512-918 | some deliveries can still resolve an intent iff it is not `submitted` at rest |
| `TradeExecution.SubmissionOutcome` | src/app/domains/copy_trading/metaapi_execution.py:702-757 | an uninterrupted execution that passes every check ends `confirmed` iff the broker accepted, `failed` iff refused for good and `uncertain` otherwise, with one attempt counted and at most one call made |
| `TradeExecution.RefusedLeavesTrades` | src/app/domains/copy_trading/metaapi_execution.py:714-753 | an action that was not accepted leaves the trades alone |
| `TradeExecution.OpeningRecorded` | src/app/domains/copy_trading/metaapi_execution.py:757-778 | an accepted opening records one trade at the normalized size, pending for a pending order and open otherwise |
| `TradeExecution.ClosingRecorded` | src/app/domains/copy_trading/metaapi_execution.py:403-407 | a close or cancellation changes the matched trade alone: retired at size zero, or smaller by the asked share |
| `TradeExecution.GatePassesExactly` | src/app/domains/copy_trading/execution.py:95-153 | an opening passes the gate iff size, total, number, symbol lists, daily loss and drawdown allow it |
| `TradeExecution.StoppedOutcome` | src/app/domains/copy_trading/metaapi_execution.py:524-700 | an execution stopped before the write-ahead commit fails the intent, makes it retryable or leaves it waiting, as the reason says, without a broker call |
| `TradeExecution.EmergencyOutcome` | src/app/domains/copy_trading/metaapi_execution.py:833-886 | an emergency closes the open and cancels the pending trades in scope, as its kind says, and nothing else |
| `TradeExecution.ReconcileResolvesExactly` | src/app/domains/copy_trading/metaapi_execution.py:889-918 | a reconciliation that reaches the broker resolves the intent iff the broker knows the order or the maximum age is reached |
| `TradeExecution.ExposureTheorem` | src/app/domains/copy_trading/metaapi_execution.py:410-456 | over every run of safe deliveries, open and pending volume stays within `max_lot` and their number within `max_open_positions` |
| `TradeExecution.OpeningSafeExactly` | src/app/domains/copy_trading/execution.py:95-123 | an opening size keeps every policy's limits from every state within them iff it is positive and not below the broker's minimum |
| `TradeExecution.UnsafeVolumeBreaks` | src/app/domains/copy_trading/metaapi_execution.py:410-456 | for every other size a policy and a state whose limits the opening breaks |
| `TradeExecution.PeakIsLargestReading` | src/app/domains/copy_trading/metaapi_execution.py:410-424 | in every run, cut short anywhere, the stored peak equity mark is the largest equity whose reading was committed |
| `TradeExecution.DayMarkOpensDay` | src/app/domains/copy_trading/metaapi_execution.py:410-424 | in every chronological run the stored daily mark is the first equity committed on the latest day with a committed reading |
| `TradeExecution.ExecutionHandler.SubmitIntent` | src/app/domains/copy_trading/metaapi_execution.py:702-787 | performs exactly the effects of write-ahead commit, broker call and result commit, cut where the process dies |
| `TradeExecution.ExecutionHandler.HandleExecute` | src/app/domains/copy_trading/metaapi_execution.py:512-787 | performs exactly the effects of one execute delivery, cut where the process dies |
| `TradeExecution.ExecutionHandler.HandleReconcile` | src/app/domains/copy_trading/metaapi_execution.py:889-918 | performs exactly the effects of one reconcile delivery |
| `TradeExecution.ExecutionHandler.HandleEmergency` | src/app/domains/copy_trading/metaapi_execution.py:833-886 | performs exactly the effects of one emergency delivery, one commit per trade |
| `ConnectionPool.StepKeeps` | src/app/domains/copy_trading/metaapi_connections.py:43-111 | every step of acquire, open and evict, with failures at any await, keeps the ownership and registration invariant |
| `ConnectionPool.SingleFlight` | src/app/domains/copy_trading/metaapi_connections.py:43-85 | in every interleaving an account has at most one open task, the registered one, and while it is under way there is no entry it could overwrite |
| `ConnectionPool.ExactlyOneOwner` | src/app/domains/copy_trading/metaapi_connections.py:43-111 | every connection obtained is in exactly one place: its open task, the entries, one closer, closed, or dropped; none is closed twice |
| `PoolHandouts.LeaksExactly` | src/app/domains/copy_trading/metaapi_connections.py:100-111 | a connection is obtained, not closed and held by no task, entry, caller or evictor iff at some step an exception from `close` ended an eviction loop that had it queued behind |
| `PoolHandouts.LeakHappens` | src/app/domains/copy_trading/metaapi_connections.py:109-110 | a run with such a leak |
| `ConnectionPool.GrantsAgree` | src/app/domains/copy_trading/metaapi_connections.py:43-58 | callers get a connection of their own account, and all callers of one open get the same one |
| `PoolHandouts.HandedOutExactly` | src/app/domains/copy_trading/metaapi_connections.py:43-58 | in every interleaving the connection a waiter is about to be handed is closed, being closed or leaked iff it is no longer the account's entry |
| `PoolHandouts.TakenExactly` | src/app/domains/copy_trading/metaapi_connections.py:43-111 | from the end of an open on, its connection stays the entry iff no acquire finds it unhealthy and no eviction takes it |
| `PoolHandouts.ClosedIsHandedOut` | src/app/domains/copy_trading/metaapi_connections.py:50-58 | a run in which a waiter that discarded nothing is about to be handed a closed connection |
| `PoolUse.LastUsedTheorem` | src/app/domains/copy_trading/metaapi_connections.py:46-49 | in every interleaving an entry carries the time of the last successful open or warm acquire of its account |
| `PoolUse.EvictsExactly` | src/app/domains/copy_trading/metaapi_connections.py:100-108 | an eviction takes an account iff that last use lies before the cutoff |
| `PoolUse.CallerOutcome` | src/app/domains/copy_trading/metaapi_connections.py:56-58 | a closed stale connection leaves its caller waiting, an exception ends it, and a resumed caller gets its open's connection or nothing |
| `PoolUse.AcquiresAccounted` | src/app/domains/copy_trading/metaapi_connections.py:43-85 | in every interleaving each acquire was handed a connection, has failed or is still waiting |
| `PoolProgress.OpensTerminate` | src/app/domains/copy_trading/metaapi_connections.py:43-111 | once no new acquires and evictions begin, every interleaving of opens, closes and resumptions is finite |
| `PoolProgress.RestMeansServed` | src/app/domains/copy_trading/metaapi_connections.py:43-111 | it comes to rest only with no caller waiting, no open under way and nothing left to close |
| `ConnectionPool.ConnectionManager.Acquire` | src/app/domains/copy_trading/metaapi_connections.py:43-58 | performs exactly the locked section of acquire |
| `ConnectionPool.ConnectionManager.Publish` | src/app/domains/copy_trading/metaapi_connections.py:74-85 | performs exactly the end of a successful open: the connection becomes the entry and the task is unregistered |
| `ConnectionPool.ConnectionManager.Leave` | src/app/domains/copy_trading/metaapi_connections.py:83-85 | performs exactly the unconditional pop of the registration |
| `ConnectionPool.ConnectionManager.EvictIdle` | src/app/domains/copy_trading/metaapi_connections.py:100-111 | takes exactly the entries idle since before the cutoff out of the pool |
| `ConnectionPool.CollectIdle` | src/app/domains/copy_trading/metaapi_connections.py:100-107 | collects exactly the idle accounts with their connections |
| `ToolCache.SortsAlikeExactly` | src/app/domains/ai/cache.py:52-59 | the account part of two keys agrees iff the accounts agree up to order |
| `ToolCache.KeySeparatesExactly` | src/app/domains/ai/cache.py:52-59 | keys agree iff tool, arguments, versions in call order and, up to order, accounts agree |
| `ToolCache.SameKeySameVersions` | src/app/domains/ai/cache.py:52-69 | equal keys mean equal counters for every account although versions are listed in call order |
| `ToolCache.SameKeySameReading` | src/app/domains/ai/cache.py:115-143 | any two version reads of one run with the same key, of finished calls too, saw the same version of every account |
| `ToolCache.StepKeeps` | src/app/domains/ai/cache.py:115-143 | every commit, increment, version read, look-up, data read, store and expiry keeps the freshness invariant |
| `ToolCache.FreshnessTheorem` | src/app/domains/ai/cache.py:115-143 | in every interleaving every result, cached or not, includes everything committed before any increment of the account visible at the caller's version read |
| `ToolCache.ServedForOwnQuestion` | src/app/domains/ai/cache.py:115-143 | in every run a result, cached or not, was computed for the caller's own tool, arguments and accounts |
| `ToolCache.AgreesWithRerun` | src/app/tasks/journal_sync_tasks.py:214-222 | if all commits of its accounts came before some visible increment, a result is the answer that asking the caller's question again would give |
| `ToolCacheMisses.UnannouncedMayBeMissed` | src/app/tasks/journal_sync_tasks.py:219-222 | for every run: where no visible increment of the account follows a commit, a run with the same commits and increments serves a hit that misses it |
| `ToolCacheMisses.MissedExactly` | src/app/domains/ai/cache.py:115-143 | a hit may miss a commit iff no visible increment of the account follows it |
| `ToolCache.SharedStore.BumpDataVersion` | src/app/tasks/journal_sync_tasks.py:41-46 | performs exactly the increment of the account's counter after its commit |
| `ToolCache.SharedStore.ReadVersions` | src/app/domains/ai/cache.py:61-69 | reads the counters in call order, a missing one as zero |
| `ToolCache.SharedStore.Lookup` | src/app/domains/ai/cache.py:123-131 | returns the stored result exactly when the key is present |
| `ToolCache.SharedStore.StoreResult` | src/app/domains/ai/cache.py:133-143 | stores the result under the caller's key |
| `Assembly.RecentSorts` | src/app/domains/copy_trading/assembly.py:44 | ordering by recency is a permutation in descending order |
| `Assembly.OrderIrrelevant` | src/app/domains/copy_trading/assembly.py:44-169 | for every action but a full close the choice is the same for every permutation of the candidates |
| `Assembly.OrderFreeExactly` | src/app/domains/copy_trading/assembly.py:141-146 | for every action the choice is the same for every permutation iff the recency branch is not reached or its latest match is not tied |
| `Assembly.DistinctTimesOrderFree` | src/app/domains/copy_trading/assembly.py:44-169 | distinct timestamps make every choice independent of the order |
| `Assembly.TiedFullCloseDependsOnOrder` | src/app/domains/copy_trading/assembly.py:143-145 | two candidates whose order changes the answer of a full close |
| `Assembly.FullCloseTakesLatest` | src/app/domains/copy_trading/assembly.py:143-145 | where a full close has several exact matches it takes one than which none is more recent |
| `Assembly.SelectionMeetsRule` | src/app/domains/copy_trading/assembly.py:53-62 | a selection is unambiguous, a candidate, and meets the action's active-trade or not-yet-submitted rule |
| `Assembly.CompletionDecides` | src/app/domains/copy_trading/assembly.py:64-93 | an SL/TP line goes to the only unsubmitted opening it follows, else to the only one that fits; several that fit are ambiguous |
| `Assembly.FollowingDecides` | src/app/domains/copy_trading/assembly.py:95-100 | else a management message goes to the only eligible conversation it follows |
| `Assembly.LinkDecides` | src/app/domains/copy_trading/assembly.py:102-122 | else, for every action, the only eligible conversation the edited or else the quoted message points to is the answer, and several are ambiguous |
| `Assembly.SymbolDecides` | src/app/domains/copy_trading/assembly.py:124-160 | else a named symbol decides: the only match, for a full close a most recent one, else the only conversation without a symbol; several are ambiguous, none means none |
| `Assembly.OnlyPossibleDecides` | src/app/domains/copy_trading/assembly.py:162-169 | else the only possible conversation is the answer unless the direction differs; several are ambiguous |
| `Assembly.SqueezeJoins` | src/app/domains/copy_trading/assembly.py:6-9 | a symbol is normalized character by character |
| `Assembly.SqueezeOne` | src/app/domains/copy_trading/assembly.py:6-9 | letters become capitals, digits stay, everything else is dropped |
| `Prelude.StripExactly` | src/app/domains/copy_trading/assembly.py:12-13 | stripping cuts all white space off both ends and nothing else |
| `Prelude.LoweredExactly` | src/app/domains/copy_trading/assembly.py:12-13 | lowering changes capital letters only, each to its small one |
| `Assembly.OpeningRuleExactly` | src/app/domains/copy_trading/assembly.py:102-128 | an opening action selects a submitted conversation iff an edit or reply points to it alone |
| `Assembly.AmbiguousMeansSeveral` | src/app/domains/copy_trading/assembly.py:92-169 | an ambiguous answer means that several eligible conversations compete |
| `Generations.MergeContext` | src/app/domains/copy_trading/assembly.py:176-181 | the loop over the update's items gives the non-blank values of the update over the current ones |
| `Generations.DedupFirstOccurrences` | src/app/domains/copy_trading/generations.py:26-30 | deduplication keeps every element once, in the order of first occurrence |
| `Generations.TargetsTheorem` | src/app/domains/copy_trading/generations.py:16-30 | after any pre-submission updates from an empty context the targets are the first occurrences of all targets in arrival order |
| `Generations.RepeatIsIdempotent` | src/app/domains/copy_trading/generations.py:16-37 | the same update twice in a row equals once, from any context, before and after submission |
| `Generations.OpeningKeptExactly` | src/app/domains/copy_trading/generations.py:31-36 | an opening action stays iff the update carries none, the same or one of the six management actions, and gives way to any other |
| `Generations.SubmittedOverrides` | src/app/domains/copy_trading/generations.py:16-37 | after submission every value an update carries overrides |
| `Generations.OpeningSurvives` | src/app/domains/copy_trading/generations.py:31-36 | no number of management updates displaces the opening action |
| `Generations.ArrivalOrderTheorem` | src/app/domains/copy_trading/generations.py:16-37 | messages that do not contradict one another give the same signal in whatever order and however often they arrive |
| `Billing.CatalogRoundTrip` | src/app/domains/billing/catalog.py:34-49 | the product sold for a plan grants that plan and account limit |
| `Billing.ExactlyOnceTheorem` | src/app/domains/billing/service.py:283-385 | the state after any deliveries with repeats and failures is what the handlers give for the processed deliveries alone, each identifier once |
| `Billing.ChangesAtMostOnce` | src/app/domains/billing/repository.py:27-40 | after the first successful delivery of an identifier all others are duplicates that change nothing |
| `Billing.DeadlineRule` | src/app/domains/billing/service.py:251-263 | every way of changing a subscription follows one rule for the grace deadline |
| `Billing.GraceTheorem` | src/app/domains/billing/service.py:349-376 | in every reachable state an active subscription has no grace deadline and a past-due one has one |
| `Billing.GraceEndsTheorem` | src/app/domains/billing/entitlements.py:21-42 | a deadline set at time t, by a new subscription's first event too, is t plus the grace period and stays until a step makes the subscription active; without one there is no paid or copy access from then on |
| `Billing.GraceAccessExactly` | src/app/domains/billing/entitlements.py:21-29 | while a subscription stays past due, access is paid exactly until the deadline |
| `Billing.DowngradeOnTime` | src/app/domains/billing/service.py:163-184 | a downgrade asked for during a period with a known end takes effect at that end, neither before nor after, whatever webhooks for the new product arrive meanwhile |
| `Billing.ScheduledDowngradeTheorem` | src/app/domains/billing/service.py:237-250 | while a downgrade waits for a known time, webhooks for the scheduled product never change the effective plan and limit of any later moment |
| `Billing.ScheduledWebhookExactly` | src/app/domains/billing/service.py:49-58 | one such webhook leaves all later moments unchanged iff the change has a known time or grants what is held already |
| `Billing.UndatedDowngradeMovesForward` | src/app/domains/billing/service.py:237-250 | under a complete catalog, a downgrade without a known time that a webhook brings forward |
| `Billing.PayloadTakesEffect` | src/app/domains/billing/service.py:237-251 | a payload grants its product's plan from now on unless it confirms a change still waiting, and a deletion ends all access |
| `Billing.UniqueTheorem` | src/app/domains/billing/service.py:296-348 | no step gives two users the same provider subscription |
| `Billing.FailedPaymentOutcome` | src/app/domains/billing/service.py:349-356 | a failed payment makes the subscription past due with its old deadline or one grace period from now, changes nothing else, and leaves access until the deadline |
| `Billing.PaidInvoiceOutcome` | src/app/domains/billing/service.py:357-376 | a paid invoice makes a subscription that is not canceled active without a deadline, changes no other row, and leaves access until the period end |
| `Billing.UnlinkedInvoiceOutcome` | src/app/domains/billing/service.py:361-373 | an invoice of a canceled or unknown subscription is claimed and changes nothing |
| `Billing.OtherEventsOutcome` | src/app/domains/billing/service.py:377-380 | refunds and disputes change no subscription and reverse under their own name |
| `Billing.LinkedSubscriptionOutcome` | src/app/domains/billing/service.py:237-265 | a subscription event of a known subscription is processed iff its payload is valid and rewrites that row alone, as the payload says |
| `Billing.CreatedOutcome` | src/app/domains/billing/service.py:310-348 | a new subscription creates a row, takes over one that is over, and changes nothing beside a running one |
| `Billing.UnlinkedSubscriptionOutcome` | src/app/domains/billing/service.py:302-313 | an update of an unknown subscription changes nothing, and a new one of nobody known raises |
| `Billing.UpgradeOutcome` | src/app/domains/billing/service.py:101-110 | an upgrade takes effect at once with what the provider answered |
| `Billing.CancellationOutcome` | src/app/domains/billing/service.py:187-205 | a cancellation is recorded for the period end and changes nothing else |
| `Billing.BillingDatabase.ApplySubscriptionEvent` | src/app/domains/billing/service.py:297-348 | writes exactly the row that a subscription event is meant for, or raises |
| `Billing.BillingDatabase.SettleInvoice` | src/app/domains/billing/service.py:357-376 | makes a subscription that is not canceled active and creates its commission |
| `Billing.BillingDatabase.ProcessWebhook` | src/app/domains/billing/service.py:283-385 | claim and handler take effect together or, when the handler raises, not at all |
| `Affiliates.AmountWithinBase` | src/app/domains/affiliates/service.py:156-165 | for rates between 0 and 100 percent the commission lies between 0 and its base |
| `Affiliates.AmountIsShare` | src/app/domains/affiliates/service.py:164-165 | the commission is the rate's share of the base to the nearest cent |
| `Affiliates.InvoicedCents` | src/app/domains/affiliates/service.py:156-161 | the base is the first of the invoice's amounts that counts, to the nearest cent |
| `Affiliates.CreationOutcome` | src/app/domains/affiliates/service.py:152-181 | an invoice that earns adds one commission, for the referrer at the effective rate on the base, pending until the hold is over |
| `Affiliates.UnearnedCreatesNothing` | src/app/domains/affiliates/service.py:133-154 | an invoice that nobody is owed anything for changes nothing |
| `Affiliates.TakenMonotone` | src/app/domains/affiliates/service.py:194-197 | a larger refund takes back at least as much, and none more than the commission |
| `Affiliates.TakenProportional` | src/app/domains/affiliates/service.py:195-196 | a partial refund takes back its share to the nearest cent, up to what the decimal context rounds off the ratio and the product |
| `Affiliates.FullRefundReverses` | src/app/domains/affiliates/service.py:195-199 | among any events one refund of the base or more reverses the whole commission |
| `Affiliates.AmountlessReverses` | src/app/domains/affiliates/service.py:184-203 | an event without an amount, or with the number zero, reverses the whole commission it finds |
| `Affiliates.RefundedCents` | src/app/domains/affiliates/service.py:194 | the refund is the event's amount, or else its refund amount, to the nearest cent |
| `Affiliates.ReversalTargetExactly` | src/app/domains/affiliates/repository.py:69-82 | a reversal reaches the commission of its invoice, else the latest of its payment, and no other |
| `Affiliates.ReversalOutcome` | src/app/domains/affiliates/service.py:192-203 | a reversal takes the larger of old and new, marks a full one reversed and spares settled commissions |
| `Affiliates.ReleaseOutcome` | src/app/domains/affiliates/repository.py:85-95 | a release makes exactly the affiliate's due pending commissions available |
| `Affiliates.LargestRefundDecides` | src/app/domains/affiliates/service.py:184-203 | reversed amount and reversed status depend only on the largest refund, not on order or repetition |
| `Affiliates.RunDecidedByLargest` | src/app/domains/affiliates/service.py:184-203 | the same in any run that mixes invoices, refunds, disputes and releases of all commissions |
| `Affiliates.LedgerTheorem` | src/app/domains/affiliates/service.py:133-203 | in every run at most one commission per invoice, at most the agreed months of unreversed ones per referred user, and 0 <= reversed <= amount <= base |
| `Affiliates.StepKeeps` | src/app/domains/affiliates/service.py:133-203 | existing commissions stay in place, their reversed amount never falls and a reversed one never changes |
| `Affiliates.CommissionTable.CountQualifying` | src/app/domains/affiliates/repository.py:47-56 | counts the unreversed commissions of a referred user |
| `Affiliates.CommissionTable.CreateFromInvoice` | src/app/domains/affiliates/service.py:133-181 | adds exactly the commission of a paid invoice, or nothing, or raises |
| `Affiliates.CommissionTable.ReverseCommission` | src/app/domains/affiliates/service.py:184-203 | reverses exactly the commission found by invoice or latest payment |
| `Affiliates.CommissionTable.ReleaseDue` | src/app/domains/affiliates/repository.py:85-95 | makes exactly the affiliate's due pending commissions available, and counts them |
| `JournalIngest.CollectRows` | src/app/domains/accounts/sync.py:187-269 | one row per accepted deal in order, every deal accepted or counted as skipped once |
| `JournalIngest.UpsertAllAt` | src/app/domains/accounts/repository.py:587-607 | a listed trade holds its last row's values and the enrichment of all its rows over what was stored; an unlisted one is untouched |
| `JournalIngest.OnlyListedInWindow` | src/app/domains/accounts/sync.py:429-443 | after an authoritative ingest with a valid ticket the window holds listed tickets only |
| `JournalIngest.RestUntouched` | src/app/domains/accounts/repository.py:824-842 | other accounts and unlisted trades outside the window are unchanged |
| `JournalIngest.ListedStored` | src/app/domains/accounts/repository.py:590-601 | a listed trade is stored as reported, keeps its identifier, and no null erases its enrichment |
| `JournalIngest.StoredAsReported` | src/app/domains/accounts/sync.py:230-268 | a stored trade has the times, prices, net profit, duration and symbol that its last complete deal reports |
| `JournalIngest.Conservation` | src/app/domains/accounts/repository.py:602-608 | size after = size before - deleted + inserted, and every row is counted once |
| `JournalIngest.IngestIsIdempotent` | src/app/domains/accounts/sync.py:401-463 | a second ingest of the same history inserts and deletes nothing and leaves the table as it is |
| `JournalIngest.TradeTable.BulkUpsert` | src/app/domains/accounts/repository.py:578-608 | the chunked upserts equal one series of upserts, refused iff a ticket repeats inside a chunk of 500 |
| `JournalIngest.TradeTable.DeleteOutside` | src/app/domains/accounts/repository.py:824-842 | deletes exactly the account's unlisted trades in the window, and counts them |
| `JournalIngest.TradeTable.IngestHistory` | src/app/domains/accounts/sync.py:401-463 | performs exactly the ingest, or leaves the table as it was when it raises |
| `Pagination.PageIsSlice` | src/app/shared/repository.py:68-86 | the page at a cursor is the next slice of the whole ordered list, with a next cursor iff rows remain |
| `Pagination.StaleCursorStartsOver` | src/app/shared/repository.py:68-71 | a cursor whose row is gone gives the first page |
| `Pagination.Walk` | src/app/shared/repository.py:68-86 | following the next cursor ends, and the pages together are the whole list iff the limit is at least 1 or the list is empty |
| `Pagination.WholeListExactly` | src/app/shared/repository.py:68-86 | the whole list has every selected row once, in order, tied timestamps or not, in either direction |
| `Pagination.NewestFirst` | src/app/shared/repository.py:73-80 | descending is newest first and larger identifiers first among ties, ascending the reverse |
| `Provisioning.RowTheorem` | src/app/domains/copy_trading/metaapi_provisioning.py:112-187 | over all repeated and cut-short deliveries a connection in use has a provider account, and a deleted one has neither account nor password |
| `Provisioning.DeletedStaysExactly` | src/app/domains/copy_trading/metaapi_jobs.py:90-100 | after deletion any redelivered events end deleted iff the last delete that did anything was not cut after its first commit |
| `Provisioning.DeleteCompletesExactly` | src/app/domains/copy_trading/metaapi_provisioning.py:172-187 | an uninterrupted delete ends deleted iff there is no account or the provider still has it and answers; only the recorded account is removed |
| `Provisioning.CutDeleteWedges` | src/app/domains/copy_trading/metaapi_provisioning.py:183-187 | a delete that dies between removing the account and the last commit leaves a row naming a removed account |
| `Provisioning.WedgedForever` | src/app/domains/copy_trading/metaapi_provisioning.py:177-187 | from there no deliveries whatever bring the connection to deleted |
| `Provisioning.LeavesExactly` | src/app/domains/copy_trading/metaapi_provisioning.py:113-138 | a delivery leaves a provider account unrecorded iff it is a new provisioning in which the provider makes one silently or that dies between the call and the commit recording it |
| `Provisioning.RecordedExactly` | src/app/domains/copy_trading/metaapi_provisioning.py:105-187 | over any run the provider never has an account but the recorded one iff no delivery leaves one unrecorded |
| `Provisioning.DeletedLeavesNothing` | src/app/domains/copy_trading/metaapi_provisioning.py:172-187 | a connection that ends deleted after such a run leaves nothing with the provider |
| `Provisioning.EarlyDeleteOrphans` | src/app/domains/copy_trading/metaapi_provisioning.py:118-138 | a delete that overtakes the recording of a new account ends deleted and leaves the account with the provider |
| `Provisioning.ReadyMeansValidated` | src/app/domains/copy_trading/metaapi_jobs.py:154-170 | a delivery makes a connection ready only when the terminal is the requested account with trading allowed |
| `Provisioning.ProvisionOutcome` | src/app/domains/copy_trading/metaapi_provisioning.py:112-170 | an uninterrupted provisioning records its account and ends in the state of the first failing call or of the terminal's answer |
| `Provisioning.ReadyExactly` | src/app/domains/copy_trading/metaapi_jobs.py:47-70 | it ends ready iff every call succeeds and the terminal is the requested account and may trade |
| `Provisioning.NoAccountOutcome` | src/app/domains/copy_trading/metaapi_provisioning.py:113-134 | without an account made it ends provisioning or in the refusal's state, and without a password nothing happens |
| `Provisioning.RequestOutcome` | src/app/domains/copy_trading/service.py:151-184 | retries, deletion requests, new submissions and the end of the retries change the state of exactly the connections they may |
| `Provisioning.ProvisioningWorker.Provision` | src/app/domains/copy_trading/metaapi_provisioning.py:105-170 | performs exactly the effects of one provision delivery, cut where the process dies |
| `Provisioning.ProvisioningWorker.Cleanup` | src/app/domains/copy_trading/metaapi_provisioning.py:172-187 | performs exactly the effects of one delete delivery, cut where the process dies |
| `Provisioning.ProvisioningWorker.MarkRetriesExhausted` | src/app/domains/copy_trading/metaapi_jobs.py:176-195 | moves only a provisioning connection without an account to failed |

## Left out

- The message parser, the signal engine, health and status checks, routers, e-mail, storage, the language-model agent and analytics are not part of this model; their claims are easy or rest on libraries.
- Cancellation of futures by callers and shutdown of the thread pool are not part of the executor's runs.
- Deliveries of one intent are handled one at a time, as the state check before the connection lock requires; broker-drift updates of copied trades are not part of the exposure run.
- Broker calls, quality checks, symbol resolution and copy access are answers from outside; activity records, notifications and metrics are not modelled.
- Closing an account and shutting down the connection pool are not part of the pool's runs.
- A waiter in the pool resumes at any step after its open has ended; the source resumes a caller that finds its open already ended without suspending it.
- A tool's answer is taken not to depend on the order in which its accounts are listed, which the cache key does not keep.
- The hash and textual concatenation of cache keys are taken as injective; expiry may happen at any time, and a Redis failure that bypasses the cache is not a step.
- Text is ASCII where symbols, directions and tickets are normalized.
- Lock leases are taken to hold for their critical section, and every commit is atomic.
- Decimal arithmetic with 28 digits is any monotone rounding that is exact on 0, 1 and storable amounts.
- Checkout sessions, signature checks and the dashboard's balances over at most 100 rows are not part of the billing and affiliate models; no step of the source marks a commission paid.
- Trading sessions, touched dates, snapshots and the broker offset are not part of the ingest model; database times and money are integers.
- Pagination: the statement's order is taken to match the cursor's columns and direction, as its documentation demands of callers.
