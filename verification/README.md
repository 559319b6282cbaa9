# RestaurantOS: verified models of the event-driven core

RestaurantOS records business facts in an outbox, delivers them to consumers and keeps projections of
them. Around that core sit small concurrent protocols: telemetry pipelines that several owners share,
session renewal across browser tabs, a paced telemetry generator, a read-through cache, stock submissions
that may be repeated. This project models their behaviour in Dafny and proves what the code promises, over
every run and every interleaving. Where a promise does not hold of the code, the model keeps the code as it
is and proves exactly when the promise does hold, with an input or a run on which it fails.

`dafny verify dfyconfig.toml` checks everything.

| file | what it models |
|---|---|
| `SalesContributions.dfy`, `SalesProjection.dfy` | contributions, daily totals, one event, rebuild, reconciliation |
| `SalesConvergence.dfy` | duplicated and reordered delivery |
| `SalesSystem.dfy` | orders, outbox, deliveries and rebuilds together |
| `EventExecution.dfy`, `EventRetries.dfy` | one delivery: claims, leases, attempts, receipts, replays; what ends it and what brings it back |
| `SalesPipeline.dfy` | orders, execution and the projection in one machine |
| `LowStockEpisodes.dfy`, `InventoryWriter.dfy` | the episode table with its trigger, and the writer that feeds it |
| `AlertProjection.dfy`, `AlertSystem.dfy` | the alert projection, and its interleavings with inventory |
| `StockLedger.dfy`, `StockSubmission.dfy` | balances and movements; the inventory form's idempotency keys |
| `TelemetryLifecycle.dfy` | reference-counted owners, the retirement fence, the shutdown thread |
| `SessionRenewal.dfy`, `SessionOutcomes.dfy` | tabs, requests, the shared lock, the sticky failure; what a renewal's outcome means |
| `TelemetryBatches.dfy`, `TelemetryGenerator.dfy` | batching by size, pacing, exports, metrics |
| `EventFreshness.dfy`, `DashboardCache.dfy` | latency bracketing; bounded staleness |
| `Traceparent.dfy`, `MigrationAncestors.dfy`, `ClientAddress.dfy` | the header, the worklist, the forwarded-address walk |

A transaction is one atomic step over maps. Code that several parties run at once is a machine whose steps
are the stretches that nothing can interrupt; objects that one party updates in place are classes whose
methods are proved against the functions those machines use. Money is in minor units, stock quantities in
thousandths; clocks and latencies are reals of one monotone clock.

## What turned out not to hold

* Convergence for every set of completed and deleted events: a stored deletion is terminal even for a newer
  completion (`backend/app/modules/analytics/domain/projection.py:30-34`), so the outcome can depend on the
  order of delivery. `ConvergenceCondition` gives the exact condition, `NewerCompletionDiverges` an input;
  `OutboxAlwaysConverges` shows that the order service only appends sets that meet it.
* A state-change event making the alert row equal the live state: a rename and a maintenance baseline do not
  advance the revision, so the fence skips them. `RenamedWorldExists` and `BaselineIsMissedByEvents` reach
  such states, `StateEventShowsLive` gives the exact condition, and a rebuild repairs them.
* The sticky refresh failure binds one page only. Another tab refreshes all the same
  (`OneTabFailsAnotherRefreshes`), and so does the tab itself once reloaded (`ReloadForgetsFailure`); the
  exact condition is `RefreshPossibleIff`. A page closed with its refresh in flight gives up the lock, so a
  second refresh can overlap it (`ClosedPageOverlaps`); `RefreshesNeverOverlap` shows that nothing else can.
* A lost stock response followed by an unrelated successful save forgets the key, and the same receipt then
  counts twice (`ForgottenKeyRecordsTwice`); `ResubmissionSharesKey` gives the exact condition.
* An owner that releases twice retires a pipeline that another owner still holds
  (`DoubleReleaseRetiresSharedPipeline`): the lifecycle counts owners and does not know them.
  `HoldersAreServedIff` gives the exact condition on releases.
* A worker acknowledging only durable outcomes: one whose consumer does not subscribe and that finds no row
  to lock acknowledges too, and changes nothing (`AcknowledgedIsDurable`).

## Model

| member | source | states |
|---|---|---|
| SalesContributions.AggregateWithout | backend/alembic/versions/a936d8e4c021_analytics_projection.py:36-43 | a day's total, summed from scratch, does not depend on the order of summing |
| SalesContributions.AggregateStored | backend/app/modules/analytics/repo/projection.py:72-87 | storing one order's row moves the day's total by exactly that order's old and new share |
| SalesContributions.AggregateDependsOnShares | backend/app/modules/analytics/domain/projection.py:9-19 | two tables whose orders contribute alike have equal totals, whatever else they hold |
| SalesContributions.AggregateNonNegative | backend/alembic/versions/a936d8e4c021_analytics_projection.py:59-60 | with rows that meet the table's checks no day's count or sales is negative |
| SalesProjection.Projection.Delta | backend/app/modules/analytics/repo/projection.py:89-101 | one day changes by the given amounts, every other day and every contribution stays |
| SalesProjection.Projection.ApplyOrderEvent | backend/app/modules/analytics/service.py:187-221 | processed exactly when the event is news about its order; then the row tells what the event says, each day loses the order's old share and gains the event's own, and daily totals equal the aggregate again; otherwise nothing changes; no intermediate delta breaks a check |
| SalesProjection.EventMovesTotals | backend/app/modules/analytics/service.py:202-219 | a completion that is news puts one order and its own total into its own day, a deletion puts nothing, and either takes out exactly what was counted for the order before |
| SalesProjection.EventIsStored | backend/app/modules/analytics/service.py:202-219 | the row keeps the event's revision, day, state and total; other orders' rows stay |
| SalesProjection.DeletionStays | backend/app/modules/analytics/service.py:211-220 | the row a deletion leaves is never replaced, whatever is delivered later |
| SalesProjection.ReplacedAgrees | backend/app/modules/analytics/service.py:211-219 | accepting any contribution, whatever decides acceptance, keeps every day equal to the aggregate, also when date or total changes |
| SalesProjection.RunAgrees | backend/app/modules/analytics/service.py:187-221 | after every run of events each day equals the aggregate recomputed from the rows |
| SalesProjection.RunKeepsDailyChecks | backend/alembic/versions/a936d8e4c021_analytics_projection.py:59-60 | no run of events, in any order and with any repetition, makes a day negative |
| SalesProjection.WithdrawnNonNegative | backend/app/modules/analytics/service.py:215-216 | between the two deltas of one event the daily checks hold too |
| SalesProjection.Projection.Rebuild | backend/app/modules/analytics/service.py:298-320 | succeeds exactly when every row outside the baseline is a tombstone; then the rows are the baseline plus all tombstones and every day equals the aggregate; a refusal changes nothing |
| SalesProjection.WithTombstones | backend/app/modules/analytics/service.py:308-314 | the loop that adds held tombstones, refusing a counted order without its producer fact |
| SalesProjection.Projection.Seed | backend/app/modules/analytics/service.py:316-319 | one baseline value is credited to its day and no other |
| SalesProjection.RebuiltRows | backend/app/modules/analytics/service.py:305-317 | the rebuilt rows hold the baseline and the tombstones, nothing else, and a second rebuild is allowed and changes no row |
| SalesProjection.RebuiltDailyUnique | backend/app/modules/analytics/service.py:315-319 | the rebuilt days are determined by the rows, so rebuilding twice gives the same days |
| SalesProjection.QueuedEventHasNoEffect | backend/app/modules/analytics/service.py:213-214 | an event at or below the stored revision, or after a deletion, has no effect at once and none on anything delivered later |
| SalesProjection.Projection.Reconcile | backend/app/modules/analytics/service.py:264-294 | reports a match exactly when no day differs, an absent day counting as zero, and lists every differing day once, in order, with both totals |
| SalesProjection.Compare | backend/app/modules/analytics/service.py:271-283 | the loop behind it: exactly the differing days, in date order |
| SalesProjection.RebuiltMatches | backend/app/modules/analytics/service.py:298-320 | after a successful rebuild the days reconcile with given totals if and only if those are the totals of the baseline: tombstones add nothing |
| SalesProjection.Projection.RebuildThenReconcile | backend/app/modules/analytics/service.py:264-320 | an operator's rebuild followed by a reconciliation reports a match exactly when the baseline's completed orders add up to the authoritative totals, absent days counting as zero |
| SalesConvergence.DecidedOutcome | backend/app/modules/analytics/service.py:211-220 | an order with one strictly newest event, none of the others a deletion, ends with that event however often and in whatever order all are delivered |
| SalesConvergence.ConvergenceCondition | backend/app/modules/analytics/domain/projection.py:30-34 | all covering deliveries of a set of events end alike if and only if each order has such a deciding event |
| SalesConvergence.ConvergentDays | backend/app/modules/analytics/service.py:211-219 | then the rows are identical and every day's totals agree |
| SalesConvergence.DeletionNotResurrected | backend/app/modules/analytics/domain/projection.py:31 | a deciding deletion is the final row whatever is delivered around it |
| SalesConvergence.NewerCompletionDiverges | backend/app/modules/analytics/domain/projection.py:30-34 | a completion newer than a deletion: two orders of delivery end differently |
| SalesSystem.CollectBaseline | backend/app/modules/analytics/repo/projection.py:128-168 | the baseline loop: live orders, overridden by newer retained deletion facts |
| SalesSystem.EventsCarryFacts | backend/app/modules/orders/service.py:298-349 | the event the order service sends for a completion or deletion is read back by the consumer as that fact |
| SalesSystem.LiveTotals | backend/app/modules/analytics/repo/projection.py:114-126 | what live orders contribute to a day is the number of completed orders dated that day and the sum of their totals |
| SalesSystem.LiveAuthoritative | backend/app/modules/analytics/repo/projection.py:114-126 | hence totals are the authoritative query's exactly when they are those of the live contributions |
| SalesSystem.LifecycleIs | backend/app/modules/orders/domain/policies.py:13-80 | an open order can be cancelled or move on by one stage, and nothing else; completed and cancelled are final |
| SalesSystem.OrderStep | backend/app/modules/orders/service.py:224-351 | whatever happens to an order: its status follows the lifecycle, its day is fixed, its total is fixed once it has left draft, its revision counts its changes, and its completion is appended, with its own figures, exactly when it becomes completed |
| SalesSystem.UpdateTakesEffect | backend/app/modules/orders/service.py:241-254 | a move the lifecycle allows takes effect, any other changes nothing |
| SalesSystem.TotalEdit | backend/app/modules/orders/service.py:266-275 | only a draft's total can be edited |
| SalesSystem.DeleteAppends | backend/app/modules/orders/service.py:316-351 | a deletion removes the order and appends one fact newer than it |
| SalesSystem.EveryStagePassed | backend/app/modules/orders/service.py:241-254 | in every behaviour an order is in every stage between two of its stages: none is skipped |
| SalesSystem.TotalIsFixed | backend/app/modules/orders/service.py:266-277 | in every behaviour an order's total never changes after draft, its day never, and its revision rises with every change |
| SalesSystem.NewOrdersAreDrafts | backend/app/modules/orders/service.py:138-204 | every order that appears in a run was created as a draft at revision 1 with the given day and total |
| SalesSystem.BaselineAt | backend/app/modules/analytics/repo/projection.py:128-168 | in every reachable state the baseline is the live orders and the deletions of removed ones |
| SalesSystem.RebuildNeverRefused | backend/app/modules/analytics/service.py:306-314 | the missing-fact error cannot occur in any reachable state, and the rebuild loses no row |
| SalesSystem.NextInv | backend/app/modules/orders/service.py:224-351 | every order command, delivery and rebuild keeps facts, rows and orders consistent |
| SalesSystem.CaughtUpMatchesOrders | backend/app/modules/analytics/service.py:264-294 | in every behaviour, once every appended fact has been delivered, each day's totals are those of the live completed orders, and reconciliation reports a match exactly with the totals of those orders |
| SalesSystem.OutboxAlwaysConverges | backend/app/modules/orders/service.py:290-351 | the order service only ever appends sets of facts on which the projection converges |
| SalesSystem.WatermarkNeverFalls | backend/app/modules/analytics/service.py:306-317 | no step, not even a rebuild, lowers a stored revision or lifts a tombstone |
| EventExecution.NextInv | backend/app/modules/events/execution.py:239-511 | starting, committing, failing, recovering, publishing and replaying keep leases, attempts and receipts consistent; what each does to a delivery is in the EventRetries rows |
| EventExecution.EffectAtMostOnce | backend/app/modules/events/execution.py:391-428 | in every run the handler's effect is committed at most once, exactly when the delivery has succeeded with a receipt |
| EventExecution.AcknowledgedIsDurable | backend/app/modules/events/execution.py:239-300 | a worker is told to acknowledge only when the outcome is durable, or when its consumer does not subscribe and there is no row to lock, and then nothing changes |
| EventExecution.SuccessIsFinal | backend/app/modules/events/execution.py:278-290 | nothing after success changes what was committed |
| EventExecution.StoppedStaysStopped | backend/app/modules/events/execution.py:300-390 | an attempt that stopped running never runs again |
| EventExecution.StaleClaimIsInert | backend/app/modules/events/execution.py:391-470 | a worker whose attempt was interrupted, replaced or replayed can neither commit nor charge a failure, however late it returns |
| EventExecution.ConstraintsHold | backend/app/modules/events/repo/models.py:75-213 | the attempt limit, attempt numbering and receipt constraints hold throughout |
| EventRetries.AllowanceIsCharged | backend/app/modules/events/execution.py:345-470 | in every run the attempt count is the number of attempts of the current cycle that were not reported outages, and a delivery that waits has allowance left |
| EventRetries.BecomesFailedIff | backend/app/modules/events/execution.py:451-455 | in every run a delivery becomes failed in a step if and only if its holder reports a permanent failure, its contract is rejected, or its allowance is used up by failures that were not outages |
| EventRetries.StartClaimsIff | backend/app/modules/events/execution.py:239-389 | a worker is given the delivery if and only if its contract is accepted, the delivery is due and not held, and allowance is left; it then holds a lease of the given length and one running attempt, earlier ones being recorded as interrupted |
| EventRetries.RetryableComesBack | backend/app/modules/events/execution.py:446-466 | a retryable failure below the limit leaves a delivery that is due after its delay, charged, and can be published and started again |
| EventRetries.OutageIsFree | backend/app/modules/events/execution.py:449-466 | an outage gives its charge back and the delivery can be started again after its delay |
| EventRetries.OutageRestoresAllowance | backend/app/modules/events/execution.py:449-450 | between a start and the outage its holder reports nothing else changes the count, so it is what it was before the start |
| EventRetries.RecoveredComesBack | backend/app/modules/events/execution.py:478-511 | once a lease has expired, recovery makes a delivery with allowance left ready at once |
| EventRetries.ReplayedComesBack | backend/app/modules/events/operator.py:94-131 | a replay opens a new cycle with the whole allowance and keeps the history |
| EventRetries.EffectIsCommittedIff | backend/app/modules/events/execution.py:391-428 | an outcome becomes the receipt if and only if the claim holds the delivery and its lease has not expired; otherwise nothing changes |
| EventRetries.AcknowledgedIff | backend/app/modules/events/execution.py:239-469 | a worker that starts, or finishes an attempt it holds, is told to acknowledge if and only if the delivery is then succeeded or failed |
| EventRetries.RelayLeavesExecution | backend/app/modules/events/worker/service.py:32-66 | publishing touches only the lease and publication time of a delivery that waits |
| EventRetries.RelayClaimExcludes | backend/app/modules/events/worker/service.py:32-47 | until a relay's lease expires no other relay can claim the delivery |
| EventRetries.PublicationIsNoted | backend/app/modules/events/worker/service.py:49-51 | a publication is noted under the relay's own running lease only, ends that lease, and is repeated only after the republish interval |
| SalesPipeline.AllSucceededMatchesOrders | backend/app/modules/events/execution.py:391-428 | over orders, workers, crashes, recoveries, replays and rebuilds: when all deliveries have succeeded, the days are those of the live orders, reconciliation matches, and each fact took effect exactly once |
| SalesPipeline.RebuildMatchesOrders | backend/app/modules/analytics/service.py:298-320 | a rebuild brings the days in step whatever the deliveries' state, and reconciliation then matches |
| LowStockEpisodes.EpisodeTable.Insert | backend/alembic/versions/b8f34c2a91de_inventory_revisions_and_low_episodes.py:66-155 | accepted exactly when the checks and the open-episode index allow it; otherwise nothing changes |
| LowStockEpisodes.EpisodeTable.Update | backend/alembic/versions/b8f34c2a91de_inventory_revisions_and_low_episodes.py:168-212 | accepted exactly when it records the resolution of an open episode with unchanged opening facts |
| LowStockEpisodes.FactsAreRetained | backend/alembic/versions/b8f34c2a91de_inventory_revisions_and_low_episodes.py:148-212 | over every run of statements: no row lost, opening facts constant, resolved at most once and then final, one open episode per ingredient |
| LowStockEpisodes.ResolutionsAreReal | backend/alembic/versions/b8f34c2a91de_inventory_revisions_and_low_episodes.py:138-146 | every resolution is newer than its opening and closes a state that is not low |
| LowStockEpisodes.OpeningsAreReal | backend/alembic/versions/b8f34c2a91de_inventory_revisions_and_low_episodes.py:66-108 | every recorded opening was low and within range, and names an order exactly for an acceptance and maintenance when suppressed |
| LowStockEpisodes.ResolutionsAreWhole | backend/alembic/versions/b8f34c2a91de_inventory_revisions_and_low_episodes.py:109-137 | an open episode has no trace of a resolution; a resolved one has all of it |
| InventoryWriter.ChangeNeverRolledBack | backend/app/modules/inventory/service.py:120-250 | a validated change is never rolled back: neither the writer's error nor any constraint or trigger fires; what it records is in the next rows |
| InventoryWriter.CreationNeverRolledBack | backend/app/modules/inventory/service.py:120-250 | the same for a new ingredient |
| InventoryWriter.BaselineNeverRolledBack | backend/app/modules/inventory/service.py:323-368 | the same for a maintenance baseline |
| InventoryWriter.StoredItem | backend/app/modules/inventory/service.py:143-154 | the ingredient is stored as given, its revision advancing by one exactly when quantity, threshold or activity changed |
| InventoryWriter.BecomingLowOpens | backend/app/modules/inventory/service.py:156-182 | an ingredient that becomes low, or is created low, gets exactly one open episode, whose opening carries its place, name, quantity, threshold, new revision, time, source, actor and order |
| InventoryWriter.RecoveryResolves | backend/app/modules/inventory/service.py:183-204 | an ingredient that stops being low has its open episode resolved with the right reason, the closing state, the new revision and the change's source, and no other episode changes |
| InventoryWriter.QuietChangeKeepsEpisodes | backend/app/modules/inventory/service.py:205-208 | a change across no boundary leaves every episode alone |
| InventoryWriter.BaselineOpens | backend/app/modules/inventory/service.py:323-368 | a baseline gives a low ingredient without an open episode exactly one, suppressed and in maintenance's name, and does nothing otherwise |
| AlertProjection.Projection.ApplyStateChanged | backend/app/modules/alerts/service.py:129-172 | the row becomes the live state exactly when it is missing or behind, with the named episode synced |
| AlertProjection.Projection.Rebuild | backend/app/modules/alerts/service.py:186-233 | the two loops compute the specified episodes and rows |
| AlertProjection.StoreAllAt | backend/app/modules/alerts/service.py:199-200 | each episode after the first loop, key by key |
| AlertProjection.RebuildAllAt | backend/app/modules/alerts/service.py:202-233 | each row after the second loop, key by key, behind the strict fence |
| AlertSystem.SyncedEvolves | backend/app/modules/alerts/service.py:65-127 | storing the producer's facts of any episode an event names, a low event's too, never takes a projected episode back and keeps every one a version of its producer row |
| AlertSystem.NextInv | backend/app/modules/alerts/service.py:110-233 | every inventory change, event and rebuild keeps rows faithful, and nothing remembered is lost |
| AlertSystem.ProjectionFollowsInventory | backend/app/modules/alerts/service.py:143-172 | in every behaviour, ingredients older than the episode table included, a projected revision never falls, never passes the live one, and the row is the live core as it stood at that revision |
| AlertSystem.ProjectedEpisodesAreVersions | backend/app/modules/alerts/service.py:65-107 | in every behaviour, maintenance baselines included, each projected episode is an earlier-or-equal version of its producer row and never un-resolves |
| AlertSystem.StateEventShowsLive | backend/app/modules/alerts/service.py:129-172 | any state event, however old, brings revision, unit, quantity, threshold, activity and lowness up to date; name and episode too if and only if the row was missing, behind, or already right |
| AlertSystem.RebuildShowsEverything | backend/app/modules/alerts/service.py:186-233 | after a rebuild every row mirrors its ingredient and every episode its producer row |
| AlertSystem.EventSyncsEpisode | backend/app/modules/alerts/service.py:104-142 | an event that names an episode brings the projected copy up to the producer's row, and changes no other |
| AlertSystem.OccurrenceNeverFalls | backend/app/modules/alerts/service.py:156-171 | a delivered event never takes a row's time of occurrence back, and sets it to the later of its own and the row's |
| AlertSystem.LowIffOpen | backend/app/modules/inventory/service.py:156-208 | in every behaviour, from its creation, from any moment it is not low, or from its baseline, an ingredient has an open episode if and only if it is low |
| AlertSystem.BaselineStartsTracking | backend/app/modules/inventory/service.py:323-368 | after a baseline that holds of any ingredient |
| AlertSystem.RenameIsMissedByEvents | backend/app/modules/alerts/service.py:143-144 | after a rename alone no number of events changes the projected name |
| AlertSystem.RenamedWorldExists | backend/app/modules/inventory/domain/transitions.py:162-172 | such a state is reached by creating, projecting and renaming an ingredient |
| AlertSystem.BaselineIsMissedByEvents | backend/app/modules/inventory/service.py:323-368 | an ingredient that was low before episodes existed is projected and then given its baseline: a later event leaves the row without the episode |
| StockLedger.ChangedKeeps | backend/app/modules/inventory/service.py:561-640 | a stock command keeps each balance the sum of its movements, each version their number, and keys unique per ingredient |
| StockLedger.ChangedAnswers | backend/app/modules/inventory/service.py:561-604 | each answer, refusals and replays included, is given exactly for its stated reason |
| StockLedger.ChangedMeans | backend/app/modules/inventory/service.py:594-620 | a recorded count leaves what was counted, a receipt adds its quantity, waste takes its quantity away; version and movement follow and nothing else moves |
| StockLedger.CreatedKeeps | backend/app/modules/inventory/service.py:441-513 | so does creating an ingredient with its opening movement |
| StockLedger.CreatedMeans | backend/app/modules/inventory/service.py:441-495 | a creation is recorded exactly when it is well formed, its key opened nothing yet and its name is free; the ingredient then holds what was asked for |
| StockLedger.ConsumedKeeps | backend/app/modules/orders/service.py:364-401 | so does accepting an order, which takes all it needs or nothing |
| StockLedger.ConsumedMeans | backend/app/modules/orders/service.py:364-401 | an acceptance takes from each ingredient exactly what the order needs of it |
| StockLedger.ConsumedAnswers | backend/app/modules/orders/service.py:477-510 | it is recorded exactly when every ingredient needed is active, has enough, and gave this order nothing before; otherwise nothing is taken |
| StockLedger.EditedKeeps | backend/app/modules/inventory/service.py:515-559 | so does an edit; archived ingredients hold no stock |
| StockLedger.EditedMeans | backend/app/modules/inventory/service.py:515-545 | an edit takes effect exactly when the name is free and not blank, the threshold in range and no stock is left if it archives; stock stays as it is |
| StockLedger.Earlier | backend/app/modules/inventory/repo/queries.py:186-203 | finds a movement with this key for this request if and only if there is one |
| StockSubmission.FormState.Start | frontend/features/inventory/InventoryManager.tsx:227-233 | an unchanged pending payload keeps its key, anything else takes a new one |
| StockSubmission.FormState.Conclude | frontend/features/inventory/InventoryManager.tsx:235-257 | which outcomes clear the key and which keep it |
| StockSubmission.OutcomeForgetsKeyIff | frontend/features/inventory/InventoryManager.tsx:239-254 | the key is forgotten exactly on a success with access, or a status below 500 other than 401, 403 and 404 |
| StockSubmission.ExecutedEffect | backend/app/modules/inventory/service.py:583-592 | executing a sent request replays its movement or posts the first movement with its key |
| StockSubmission.EachKeyRecordsOnce | backend/alembic/versions/c48b7e02f315_inventory_management.py:90-92 | over any number of forms, lost responses and late or repeated executions, a key records at most one movement in the whole ledger, and balances are conserved |
| StockSubmission.KeysNeverConflict | backend/app/modules/inventory/service.py:586-590 | no form is ever told that its key was used for a different request |
| StockSubmission.SuccessIsRecordedOnce | frontend/features/inventory/InventoryManager.tsx:239-244 | a save reported as successful has exactly one movement, with its payload |
| StockSubmission.ResubmissionSharesKey | frontend/features/inventory/InventoryManager.tsx:227-257 | two submissions of one payload carry the same key if and only if in between every outcome was lost, 5xx or access loss and no other keyed payload was submitted |
| StockSubmission.ResubmissionsRecordOnce | frontend/features/inventory/InventoryManager.tsx:227-257 | however often a payload is submitted again under that condition, all those submissions together have at most one movement, then and later |
| StockSubmission.ForgottenKeyRecordsTwice | frontend/features/inventory/InventoryManager.tsx:259-283 | a lost receipt, a successful save of details, the same receipt again: stock counted twice |
| TelemetryLifecycle.StepInv | backend/app/core/telemetry.py:283-352 | every step of the callers and of the unlocked shutdown thread keeps the invariant |
| TelemetryLifecycle.MergedAccessesCommute | backend/app/core/telemetry.py:295-345 | merging the accesses that only lock holders make is sound: releases commute with the thread, and an acquire that finds the fence down has no thread beside it |
| TelemetryLifecycle.OnePipelineAtMost | backend/app/core/telemetry.py:286-333 | a runtime is set exactly while there are owners, and at most one pipeline is not fully shut down |
| TelemetryLifecycle.NeverBuiltBesideAnother | backend/app/core/telemetry.py:298-311 | nothing is built while an earlier pipeline is not shut down |
| TelemetryLifecycle.FailedShutdownBlocksForever | backend/app/core/telemetry.py:334-352 | once a retired pipeline's thread has failed or could not be started, every later acquire hands out nothing |
| TelemetryLifecycle.FailedReturnBlocks | backend/app/core/telemetry.py:337-352 | after a shutdown that returned false or raised, or a thread that did not start, no later acquire builds or hands out anything |
| TelemetryLifecycle.SuccessfulReturnReopens | backend/app/core/telemetry.py:337-342 | after a shutdown that returned true, at any later time the thread can make its remaining writes, and the next acquire then builds a new pipeline |
| TelemetryLifecycle.NoPipelineIsLost | backend/app/core/telemetry.py:300-352 | every pipeline ever constructed, wholly or in part, is running, being retired, or has had its shutdown thread |
| TelemetryLifecycle.FenceFallsWhenAllFinish | backend/app/core/telemetry.py:338-342 | the fence is down exactly when every retired pipeline's thread has finished |
| TelemetryLifecycle.HoldersAreServedIff | backend/app/core/telemetry.py:295-333 | in every state every holder has the running pipeline and the count is the number of holders, if and only if each release that names the running pipeline comes from an owner that still holds it |
| TelemetryLifecycle.HeldPipelineIsNotRetired | backend/app/core/telemetry.py:319-333 | when every effective release comes from an owner that still holds the handle, a pipeline that anybody holds is running and not retired |
| TelemetryLifecycle.DoubleReleaseRetiresSharedPipeline | backend/app/core/telemetry.py:319-333 | owner 0 releases twice: the pipeline is retired while owner 1 holds it, and the second release breaks that condition |
| TelemetryLifecycle.Lifecycle.AcquireRuntime | backend/app/core/telemetry.py:295-317 | the call is the specified run of steps and hands out what they hand out |
| TelemetryLifecycle.Lifecycle.ReleaseRuntime | backend/app/core/telemetry.py:319-332 | stale and foreign handles change nothing; the last owner's release retires |
| SessionRenewal.StepInv | frontend/lib/api/client.ts:45-113 | every step of every tab, request and reply, and every page that goes away, keeps the invariant |
| SessionRenewal.OneRenewalPerTab | frontend/lib/api/client.ts:51-82 | a tab never has two renewals pending |
| SessionRenewal.RefreshesNeverOverlap | frontend/lib/api/client.ts:45-49 | between two refresh requests, of whatever tabs, the first one ends or its page goes away |
| SessionRenewal.RefreshFollowsRefusal | frontend/lib/api/client.ts:55-65 | each refresh follows a 401 from `/auth/me` to the same tab in the same hold of the lock |
| SessionRenewal.FailureSticks | frontend/lib/api/client.ts:51-76 | a tab whose refresh failed sends no other until its login has succeeded or its page has gone away |
| SessionRenewal.AtMostOneRetry | frontend/lib/api/client.ts:84-101 | a request goes out at most twice, the second time only after a 401 and a renewal of its tab that succeeded |
| SessionOutcomes.SettledOkIff | frontend/lib/api/client.ts:54-79 | in every run a renewal has succeeded if and only if in its hold of the lock `/auth/me` answered 2xx or its refresh ended well |
| SessionOutcomes.ResumeSendsIff | frontend/lib/api/client.ts:84-101 | a request that waited is sent a second time if and only if the renewal it waited for succeeded in that sense; otherwise it ends |
| SessionOutcomes.FirstReply | frontend/lib/api/client.ts:51-54 | a first 401 ends the request if its page has failed before, and otherwise makes it wait for the tab's one renewal; any other reply ends it |
| SessionOutcomes.LocklessNeverRefreshes | frontend/lib/api/client.ts:45-49 | a page in a browser without locks never sends a refresh |
| SessionRenewal.RefreshPossibleIff | frontend/lib/api/client.ts:51-82 | from every reachable state, while its page stays and it does not sign in, a tab can still send a refresh if and only if it is open, can take locks and has not itself failed |
| SessionRenewal.OneTabFailsAnotherRefreshes | frontend/lib/api/client.ts:8-9 | a run in which tab 0 fails to refresh and tab 1 sends a refresh with no login in between |
| SessionRenewal.ReloadForgetsFailure | frontend/lib/api/client.ts:84-101 | a run in which a failed tab is reloaded, as the code does after a refused renewal, and sends another refresh with no login in between |
| SessionRenewal.ClosedPageOverlaps | frontend/lib/api/client.ts:45-49 | a run in which a page is closed with its refresh in flight and another tab sends one before that has ended |
| TelemetryBatches.Encode | scripts/generate-monitoring-telemetry.py:123-140 | batches are the records in order, each body the encoding of its batch within the limit; fails exactly when a record alone exceeds it; no split into fitting batches has fewer |
| TelemetryBatches.RecordsInPlace | scripts/generate-monitoring-telemetry.py:22-42 | a body is the envelope's opening, each record in its place with a comma and a space before the next, and the envelope's end |
| TelemetryBatches.PartFits | scripts/generate-monitoring-telemetry.py:24-42 | a contiguous part of a batch that fits also fits |
| TelemetryBatches.GreedyStaysAhead | scripts/generate-monitoring-telemetry.py:127-138 | the first k greedy batches cover at least as much as any k fitting batches |
| TelemetryGenerator.ClosedFormIsFold | scripts/generate-monitoring-telemetry.py:83-112 | the closed-form count, sum and buckets equal observing every operation one at a time |
| TelemetryGenerator.Bucket | scripts/generate-monitoring-telemetry.py:13 | the first bucket whose inclusive upper bound reaches the value |
| TelemetryGenerator.Run.Send | scripts/generate-monitoring-telemetry.py:171-186 | one request, counted once as acknowledged or failed, never repeated |
| TelemetryGenerator.Run.Flush | scripts/generate-monitoring-telemetry.py:165-188 | succeeds if and only if everything buffered and the metrics so far fit alone; then exactly these are sent and the buffers are empty |
| TelemetryGenerator.Generate | scripts/generate-monitoring-telemetry.py:143-230 | whatever the lags, replies or early end: fails if and only if a record of an operation reached, or the metrics of an export reached, does not fit alone; otherwise sent traces and logs are exactly those of operations 1..generated in order, the metrics sent last are those of observing every operation, requests are acknowledged plus failed, and `complete` means what it says |
| TelemetryGenerator.Loop | scripts/generate-monitoring-telemetry.py:190-217 | the loop produces the operations, misses and exports that the lags determine, or stops at the first export that cannot be sent |
| TelemetryGenerator.PlanIsPaced | scripts/generate-monitoring-telemetry.py:190-217 | every run, whatever its lags, keeps due times an interval apart and never before the operation before |
| TelemetryGenerator.DueSpacing | scripts/generate-monitoring-telemetry.py:216-217 | due times i and j are at least (j - i) / rate apart |
| TelemetryGenerator.NeverEarly | scripts/generate-monitoring-telemetry.py:190-194 | operation i is never before start + (i - 1) / rate |
| TelemetryGenerator.WindowBound | scripts/generate-monitoring-telemetry.py:190-217 | any window of length W holds at most rate * W + 2 operations |
| TelemetryGenerator.WindowBoundIsReached | scripts/generate-monitoring-telemetry.py:190-217 | and for every m some run of the generator reaches it, with m + 2 operations in a window that allows m + 2 |
| EventFreshness.Observe | scripts/benchmark-event-freshness.py:284-333 | every receipt some scan could see is kept with the readings around the first scan that saw it |
| EventFreshness.LatencyIsBracketed | scripts/benchmark-event-freshness.py:41-48 | the true latency lies between `lower_ms` and `upper_ms`, whose distance is at most the two brackets together, with equality exactly when the scan before began after the commit was acknowledged |
| EventFreshness.SortedKeepsBelow | scripts/benchmark-event-freshness.py:27-38 | raising every value raises every order statistic |
| EventFreshness.NearestRankIsPercentile | scripts/benchmark-event-freshness.py:27-38 | the reported percentile is a value with at least that share of values up to it and less than that share below it |
| EventFreshness.DistributedIs | scripts/benchmark-event-freshness.py:27-38 | count, p50, p95, p99, maximum and count over five seconds are those of the values, and nothing is made up for none |
| EventFreshness.DistributionIsBracketed | scripts/benchmark-event-freshness.py:27-38 | every reported percentile, maximum and count over five seconds brackets that of the true latencies |
| DashboardCache.HitsAreRecent | scripts/benchmark-dashboard-cache.py:46-59 | under any interleaving a hit returns rows the source held, for that key, less than ten seconds before the age check |
| DashboardCache.MissesAreLive | scripts/benchmark-dashboard-cache.py:60-75 | a miss returns rows the source held while the call was running |
| DashboardCache.SettledSourceIsServed | scripts/benchmark-dashboard-cache.py:46-59 | once the source has been still for ten seconds every hit returns what it holds |
| DashboardCache.FreshEntryIsServed | scripts/benchmark-dashboard-cache.py:46-57 | a stored entry is served exactly while it is under ten seconds old at the age check |
| DashboardCache.AbsentIsMissed | scripts/benchmark-dashboard-cache.py:46-59 | an absent key or a Redis failure is a miss |
| DashboardCache.StoredIff | scripts/benchmark-dashboard-cache.py:64-72 | rows are stored exactly when reading them took under ten seconds, and returned in any case |
| DashboardCache.StoreIsFound | scripts/benchmark-dashboard-cache.py:66-72 | a store is found under its own key, dated from the start of its reading, and disturbs no other |
| DashboardCache.FillIsExact | scripts/benchmark-dashboard-cache.py:62-75 | a miss returns what the source holds and leaves it in the cache dated from before the reading |
| Traceparent.PrintThenParse | backend/app/core/trace_context.py:10-33 | printing any valid context and parsing it returns it |
| Traceparent.ParseThenPrint | backend/app/core/trace_context.py:10-33 | parsing any accepted string and printing it returns the string |
| Traceparent.CaptureIsFaithful | backend/app/core/trace_context.py:23-36 | a span is captured if and only if it is recording, valid and its flags fit in a byte |
| Traceparent.EndsAgree | frontend/lib/telemetry/context.ts:10-33 | the frontend accepts exactly the headers the backend accepts with flags 00 or 01, and both read the same ids |
| Traceparent.HeaderIsAccepted | frontend/lib/telemetry/context.ts:35-42 | a header is emitted exactly for valid lower-case contexts, and both ends read back its ids and the sampled flag |
| MigrationAncestors.Ancestors | scripts/verify-migrations.py:46-64 | terminates on every finite graph; returns exactly the revisions reachable through down-revision links; fails if and only if one of them is unknown |
| ClientAddress.ClientIp | backend/app/modules/auth/dependencies.py:47-58 | the peer, or the canonical form of a hop such that it parses and the peer and every hop to its right parse and are trusted, as far as the walk can go |
| ClientAddress.SplitIsExact | backend/app/modules/auth/dependencies.py:51 | the pieces with commas between them are the header, and no piece has a comma |
| ClientAddress.LeadsToOne | backend/app/modules/auth/dependencies.py:51-57 | a header leads to one address only |
| ClientAddress.PrependingIsIgnored | backend/app/modules/auth/dependencies.py:50-57 | once the walk has stopped, whatever is written to the left leads to the same address |
| ClientAddress.PrependingIsBelieved | backend/app/modules/auth/dependencies.py:50-57 | a walk that used up the header on a trusted address does believe one more entry |
| ClientAddress.PrependingIsHarmlessIff | backend/app/modules/auth/dependencies.py:50-57 | no prefix can change the result if and only if the walk stopped: on an untrusted address or before an entry that does not parse |

## Left out

- SQL, ORM sessions, HTTP routing, cookies, tokens, password hashing: each transaction is one atomic step.
- Redis streams and the worker loops: a delivery may be started, crash, recover or be replayed at any time, which covers every behaviour of the transport.
- How an exception is classified as outage, permanent or retryable, and how long a retry is delayed: both are inputs of a failed attempt.
- Menu, recipe, payment, tenancy and rate-limit services, and the derived dashboard percentages: plain queries and single checks.
- OpenTelemetry construction and export: construction succeeds, fails with something to retire, or fails empty; shutdown succeeds, fails, or never starts.
- React rendering and the polling refresh in the inventory form; `logout`, which takes the shared lock and touches neither flag, as a failed login does in the model.
- What a browser does to a page beyond closing, reloading or navigating away: a frozen page is one whose replies come late.
- Rounding of clocks and latencies, backward steps of the wall clock, collisions of hashes, UUIDs and fingerprints.
- The contents of spans, logs and metrics: their JSON texts are inputs of the generator; the warm-up fields of its report are not modelled.
- The observer's stopping rule and its backlog samples: the bracketing holds after any number of scans.
- The conversion of cached decimals to text and back, and the Redis expiry time: an entry may disappear at any moment, and the age check alone gives the bound.
- Parsing of IP addresses: canonical forms come from a parameter.
- Decimals with more than three places or not finite, the unit of an ingredient in the ledger, and the format of keys, which the form always meets.
- SalesSystem.CaughtUpMatchesOrders: orders older than the outbox count only once a rebuild has seeded them, because the code never emits facts for them.
