# MeadowOps simulation core: model and proofs

A Dafny 4.11 model of the state machines at the heart of MeadowOps, and proofs
of what they keep over every run. `dafny verify dfyconfig.toml` checks
everything.

## What is modelled

**The daily supply-chain tick.** `FlowTables` holds the rows (ledger, purchase
orders, transfers, sales orders, shipments, snapshots) and the queries over
them. `FlowSpec` describes the seven passes of a day as functions on those
tables. `Flow.ScheduledFlow` is the service itself: loops that update rows in
place, append to the ledger and debit a local dictionary of positions; each
method is proved to leave exactly the tables `FlowSpec` describes. Every random
draw (partial receipts, lead times, delays, new orders) is an arbitrary value
in the range the domain functions allow. `FlowInvariants` and `FlowKeeps` prove
the invariant `Good` of every tick; `FlowGuarantees` proves what a tick achieves,
`SnapshotHistory` what its snapshots keep meaning, and `FlowTurns` and
`SalesTurns` what each pair and each order gets in its turn, in numbers.

**The tick as a transaction.** `Scheduler` and `SchedulerJob` put the flow
between the clock, the lagged reporting layer (`ReportingSync`), the exception
flags (`ExceptionFlags`, `ExceptionEngine`) and the commit, with a Python or a
database error possible at every step. `ExceptionOutcomes` says which flags a
call leaves open. `SchedulerJob.TickJob` runs the real
flow, sync and evaluation; in the specification the flow enters as the function
`passes` of a tick's environment, which the type `TickEnv` makes equal to
`FlowSpec.Tick`, so that proofs about runs need not look inside a tick.
`SchedulerRuns`, `SchedulerCommits`, `FlowRuns` and `LateShipments` hold
the theorems over whole runs, in which ticks, faults, pauses and threshold
changes come in any order.

**The query sandbox.** `Sandbox` interleaves any number of queries and
refreshes step by step, with a crash possible between any two steps;
`SandboxRefresh` shows what a refresh achieves, `SandboxRuns` holds the exact
condition for consistent reads.

**Workflows.** `Deadlines` (chat deadlines and notices), `Feed` (the
notification list), `Scenarios` (the approval gate), `Decisions` (the decision
ledger), `RateLimiter` and `RateLimiterRuns` (the login limiter).

`Sums` and `ReplenishmentPolicy` hold the arithmetic the others share.

## What the code does and its text does not say

- The docstring of `_run_tick` (backend/app/domain/scheduler.py:57-66) speaks of
  partial progress kept after a Python error. `run_scheduled_tick` itself rolls
  the session back (backend/app/services/scheduled_flow.py:781-807), the clock
  included, so an error inside the flow keeps nothing but the FAILED row. The
  model follows the code; errors in the later steps do keep the earlier ones.
- The partial-receipt fraction can reach its upper bound 0.9, because the draw
  is rounded to four digits (backend/app/domain/scheduled_flow.py:117-124).
- "A late flag never resolves" is false for a carrier that promises same-day
  transit under a grace of zero days: flagged the next day, delivered on its
  promised date, cleared. `LateShipments.PermanentIffSettled` gives the exact
  condition: promised transit or grace of at least one day.
- The rate limiter reads its clock outside the lock
  (backend/app/core/rate_limit.py:54-56), so readings may reach the table out of
  order. Its decisions then still agree with the plain attempt history unless a
  reading falls inside a window that an earlier reading had already left
  behind, and no window overflows unless such readings are less than a window
  apart; `RateLimiterRuns` proves both conditions exact.
- The advisory lock protects a submission only while its own statements leave
  the lock alone (backend/app/services/query_execution.py:169-185): they run on
  the connection that holds it. `SandboxRuns.OneGenerationIff` gives the exact
  condition.
- A decision accepted or rejected after it went stale keeps its stale stamp
  (backend/app/services/ledger.py:146-168); the stamp never coexists with an
  undecided status.

## Model

| member | source | states |
|---|---|---|
| ReplenishmentPolicy.ReorderThreshold | backend/app/domain/scheduled_flow.py:134-140 | the least level covering both the bootstrap minimum and the safety days of demand |
| ReplenishmentPolicy.ReorderQuantity | backend/app/domain/scheduled_flow.py:127-131 | the least order of at least the minimum that covers the target days of demand |
| ReplenishmentPolicy.WarehouseDeficit | backend/app/domain/scheduled_flow.py:151-159 | the least top-up reaching the threshold; positive exactly below the reorder point |
| ReplenishmentPolicy.TransferableSurplus | backend/app/domain/scheduled_flow.py:162-170 | the most a donor can give while its unallocated stock stays at its threshold |
| ReplenishmentPolicy.PickTransferDonor | backend/app/domain/scheduled_flow.py:173-181 | a candidate with the largest positive surplus, least id on ties; none exactly when no surplus is positive |
| ReplenishmentPolicy.ReceiveQuantity | backend/app/services/scheduled_flow.py:230-234 | the whole remainder on a full roll; otherwise the rolled fraction of it rounded down, between one half and nine tenths, and never zero units |
| Flow.ScheduledFlow.ReceiveLine | backend/app/services/scheduled_flow.py:213-249 | one line receives its rolled quantity and books exactly that receipt |
| Flow.ScheduledFlow.ReceiveOrderLines | backend/app/services/scheduled_flow.py:228-249 | the line loop books exactly the rolled receipts and knows whether every line is full |
| Flow.ScheduledFlow.ProgressPurchaseOrders | backend/app/services/scheduled_flow.py:189-277 | the loop over orders leaves pass 1 of the specification |
| Flow.ScheduledFlow.ProgressWarehouseTransfers | backend/app/services/scheduled_flow.py:344-377 | the loop over transfers leaves pass 2 of the specification |
| Flow.ScheduledFlow.ServeRecipient | backend/app/services/scheduled_flow.py:412-466 | serving one recipient from the debited dictionary equals serving it from the ledger, and the dictionary still mirrors the ledger |
| Flow.ScheduledFlow.CreateWarehouseTransfersIfNeeded | backend/app/services/scheduled_flow.py:380-467 | products times recipients, each donor debited locally, leaves pass 3 of the specification |
| Flow.ScheduledFlow.CreatePurchaseOrdersIfNeeded | backend/app/services/scheduled_flow.py:280-341 | the order loop leaves pass 4, or reports the raise for a product without supplier |
| Flow.ScheduledFlow.ProgressShipmentsPass | backend/app/services/scheduled_flow.py:591-618 | the shipment loop leaves every row one life-cycle step on |
| Flow.ScheduledFlow.ShipOrderLines | backend/app/services/scheduled_flow.py:530-554 | ships in full every outstanding line on hand, and changes nothing when there is none |
| Flow.ScheduledFlow.ProgressSalesOrder | backend/app/services/scheduled_flow.py:530-588 | line shipping, the new status and the shipment row of one allocated order |
| Flow.ScheduledFlow.ProgressSalesOrders | backend/app/services/scheduled_flow.py:479-588 | the same for every scanned order, in any scan order |
| Flow.ScheduledFlow.CreateSalesOrdersIfNeeded | backend/app/services/scheduled_flow.py:621-667 | the new orders are appended, submitted and unshipped |
| Flow.ScheduledFlow.SnapshotInventoryPositions | backend/app/services/scheduled_flow.py:670-761 | one grouped pass over the ledger writes the same rows as a sum per pair |
| Flow.ScheduledFlow.RunScheduledTick | backend/app/services/scheduled_flow.py:764-807 | all seven passes, or every table rolled back |
| FlowInvariants.StepPoGood | backend/app/services/scheduled_flow.py:206-254 | confirming or receiving an order keeps every invariant |
| FlowInvariants.NextPoRow | backend/app/services/scheduled_flow.py:206-254 | received stays within ordered, RECEIVED holds iff every line is full, and no order reopens |
| FlowInvariants.StepPoBooksReceipts | backend/app/services/scheduled_flow.py:229-249 | an order's receipt rows add up to its received quantity |
| FlowKeeps.StepTransferGood | backend/app/services/scheduled_flow.py:344-377 | dispatching or completing a transfer keeps every invariant; it credits its recipient once |
| FlowKeeps.AddTransferGood | backend/app/services/scheduled_flow.py:437-466 | creating a transfer debits the donor once and keeps every invariant |
| FlowKeeps.StepNewTransferGood | backend/app/services/scheduled_flow.py:412-466 | serving a recipient keeps every invariant, single replenishment included |
| FlowKeeps.StepNewPoGood | backend/app/services/scheduled_flow.py:294-340 | creating an order keeps every invariant, single replenishment included |
| FlowKeeps.ShipLineGood | backend/app/services/scheduled_flow.py:530-551 | shipping a line keeps every invariant; no position goes below zero |
| FlowKeeps.StepSaleGood | backend/app/services/scheduled_flow.py:505-588 | a whole sales-order step keeps every invariant |
| FlowKeeps.TickGood | backend/app/services/scheduled_flow.py:764-807 | every tick keeps: row ranges, no position below zero at any prefix of the ledger, booked receipts, booked transfers, unit conservation, single replenishment |
| FlowKeeps.EmptyWorldGood | backend/app/services/scheduled_flow.py:764-807 | the empty tables satisfy the invariant |
| FlowGuarantees.UnitsAreConserved | backend/app/services/scheduled_flow.py:229-249 | positions over all warehouses plus units on the road equal units received minus units shipped |
| FlowGuarantees.AddTransferSafe | backend/app/services/scheduled_flow.py:437-466 | one more transfer leaves every donor and recipient of the tick as safe as before |
| FlowGuarantees.DonorSafety | backend/app/services/scheduled_flow.py:397-466 | over all recipients of a tick every donor keeps its threshold, no warehouse gives and gets the same product, and giving never triggers an order |
| FlowGuarantees.CreatePosCovers | backend/app/services/scheduled_flow.py:280-341 | after the order pass every active pair that is short has a replenishment |
| FlowGuarantees.ReplenishmentUniqueAndComplete | backend/app/services/scheduled_flow.py:294-340 | after both creation passes every active pair below its threshold has exactly one open order or inbound transfer |
| FlowTurns.TransferPassTurns | backend/app/services/scheduled_flow.py:397-467 | turn by turn, against the tables just before: a short pair with nothing open gets a transfer exactly when some other active warehouse can give; it is the lesser of what the recipient lacks and the donor can spare, from the warehouse with most to spare |
| FlowTurns.OrderPassTurns | backend/app/services/scheduled_flow.py:294-340 | turn by turn: a short pair with nothing open gets one order, of its product's supplier, due after its lead time, for the least quantity of at least 20 covering 30 days of demand; the pass raises exactly where such a pair has no supplier |
| FlowTurns.OrderPassRaises | backend/app/services/scheduled_flow.py:294-306 | a pass that raised came to a short pair with nothing open and no supplier |
| FlowTurns.ThresholdIsRecentShipments | backend/app/domain/scheduled_flow.py:134-140 | the threshold is what the pair shipped in the last 14 days, or 10 if that is more |
| FlowTurns.DemandCounts | backend/app/services/scheduled_flow.py:125-137 | a ledger row counts as recent demand exactly when it ships the pair's product and is at most 14 days old |
| FlowRuns.EveryTransferArrives | backend/app/services/scheduled_flow.py:344-377 | in every run an open transfer is dispatched with the next committed date and completed exactly from its arrival date on, two days after it was made or as soon after as its steps allow |
| FlowRuns.OrdersTellInEveryRun | backend/app/services/scheduled_flow.py:188-252 | in every run nothing is received before the expected day; submitted and confirmed orders have received nothing, partially received ones something but not all, received ones all |
| SalesTurns.LineTurns | backend/app/services/scheduled_flow.py:530-551 | an outstanding line ships in full exactly when the position at its turn covers it |
| SalesTurns.SalesPassTurns | backend/app/services/scheduled_flow.py:502-588 | turn by turn: a submitted order is allocated exactly when all its lines are on hand, promised in two days; one whose lines shipped is SHIPPED exactly when all are full, with one shipment if there is a carrier, and PARTIALLY_SHIPPED otherwise |
| SalesTurns.TurnReserves | backend/app/services/scheduled_flow.py:172-186 | shipping takes exactly as much from the shelf as from the reservation; allocating reserves exactly the outstanding units |
| SalesTurns.NewOrdersAppended | backend/app/services/scheduled_flow.py:621-667 | each new order as asked, submitted, with nothing shipped |
| FlowRuns.StatusesTellInEveryRun | backend/app/services/scheduled_flow.py:502-588 | in every run: SHIPPED exactly when every line is full, PARTIALLY_SHIPPED only with some full and some outstanding, nothing shipped while SUBMITTED or ALLOCATED |
| FlowGuarantees.ReceivingHalves | backend/app/services/scheduled_flow.py:211-254 | each receiving tick at least halves what a line misses, whatever the roll |
| FlowGuarantees.StepOwesNoMore | backend/app/services/scheduled_flow.py:206-256 | any tick confirms a submitted order, and none makes an order owe more |
| FlowGuarantees.ReceivedWithin | backend/app/services/scheduled_flow.py:206-254 | a due order missing at most 2^n units per line is received within n + 1 receiving ticks |
| FlowGuarantees.ReceiptBoundIsTight | backend/app/domain/scheduled_flow.py:112-124 | rolling one half every time takes all n + 1 ticks |
| FlowGuarantees.TickFrame | backend/app/services/scheduled_flow.py:764-807 | what a tick may do to rows and snapshots it did not create |
| FlowGuarantees.SnapshotIsThePosition | backend/app/services/scheduled_flow.py:694-750 | the clamp at zero never changes a value: the day's snapshot is the ledger position |
| SnapshotHistory.TickKeepsSnapshotsExact | backend/app/services/scheduled_flow.py:670-761 | a tick leaves every stored snapshot equal to the ledger sum of the rows dated up to its day |
| ReportingSync.PickConflictEntity | backend/app/domain/reporting_sync.py:57-69 | the lexicographically least candidate |
| ReportingSync.ReportingLayer.SyncReportingLayer | backend/app/services/reporting_sync.py:83-199 | the day loop, the designation of the conflict entity and the row loop leave what Sync describes |
| ReportingSync.SyncContinues | backend/app/services/reporting_sync.py:106-199 | a sync that continues from an earlier horizon equals one sync at the larger target |
| ReportingSync.ScheduleIndependence | backend/app/services/reporting_sync.py:83-199 | any sequence of calls, each seeing only the past, leaves what one call at the largest target leaves |
| ReportingSync.IdealMirrors | backend/app/services/reporting_sync.py:93-102 | the replica is exactly the live rows up to the horizon, except one frozen entity with the single row of its first day, 25 too high |
| ReportingSync.VarianceIsConstant | backend/app/services/reporting_sync.py:221-271 | the conflict check finds the frozen entity with a variance of exactly 25, flagged exactly when that exceeds the tolerance |
| ReportingSync.LagAfterSync | backend/app/services/reporting_sync.py:104-131 | a synced layer is within its lag after the call, and the horizon never moves back |
| ExceptionFlags.FlagTable.ExistingOpen | backend/app/services/exception_engine.py:164-171 | the dictionary of open flags of a category, by entity |
| ExceptionFlags.FlagTable.SyncFlagsFor | backend/app/services/exception_engine.py:137-206 | the reconciliation loops leave what SyncFlags describes, with the right counts |
| ExceptionFlags.OpenSetAfterSync | backend/app/services/exception_engine.py:137-206 | open afterwards exactly: verdict true, or unknown and already open |
| ExceptionFlags.SyncKeepsOneOpen | backend/app/services/exception_engine.py:137-206 | never two open flags of a category on one entity |
| ExceptionFlags.SyncKeepsHistory | backend/app/services/exception_engine.py:172-206 | one call changes no threshold, entity or first-detected date, and no closed row |
| ExceptionFlags.OpenedMinusResolved | backend/app/services/exception_engine.py:173-206 | opened minus resolved is the change in the number of open flags |
| ExceptionFlags.RepeatChangesNoMembership | backend/app/services/exception_engine.py:137-206 | repeating the call opens and closes nothing |
| ExceptionEngine.EvaluationsWellFormed | backend/app/services/exception_engine.py:209-320 | every category's builder yields one verdict per entity |
| ExceptionEngine.ReconcileCategory | backend/app/services/exception_engine.py:329-348 | one category's builder and reconciliation: rows opened, flags resolved, inactive categories untouched |
| ExceptionEngine.EvaluateAll | backend/app/services/exception_engine.py:323-435 | all categories in order, with the three totals the call reports: rows opened, flags resolved, flags still open |
| ExceptionOutcomes.OpenAfterCall | backend/app/services/exception_engine.py:323-423 | which flags a call leaves open, per category and entity, in the numbers the category compares; unknown values and inactive categories keep theirs |
| ExceptionOutcomes.RecordedByCall | backend/app/services/exception_engine.py:183-204 | the measure a flag records, and on a new one the date and the threshold |
| ExceptionOutcomes.InactiveKept | backend/app/services/exception_engine.py:122-126 | the flags of an inactive category are all left as they were |
| ExceptionOutcomes.GraceIsRounded | backend/app/services/exception_engine.py:129-134 | the grace is the nearest whole number of days, the even one of two |
| ExceptionEngine.DuplicateRuleNeverFires | backend/app/services/exception_engine.py:271-320 | in every state the flow reaches the duplicate-order rule flags nothing, for any threshold |
| LateShipments.LateStaysLate | backend/app/domain/exception_engine.py:49-66 | one more daily tick never takes back a late verdict |
| LateShipments.PermanentIffSettled | backend/app/domain/exception_engine.py:49-66 | late verdicts are permanent for all delays if and only if the promised transit or the grace is at least a day |
| SchedulerJob.TickJob.RunFlow | backend/app/services/scheduled_flow.py:781-807 | the real passes; a raising flow rolls back, clock included, and writes its FAILED row, a finished one its SUCCESS row |
| SchedulerJob.TickJob.RunDerived | backend/app/domain/scheduler.py:80-106 | the real sync and the real evaluation up to the first error, and whether the session survives it |
| SchedulerJob.TickJob.RunTickJob | backend/app/domain/scheduler.py:46-125 | the whole job, on the flow, the reporting layer and the flag table, commits exactly what RunTick describes |
| SchedulerRuns.TickRowAppended | backend/app/services/simulation_clock_ops.py:118-126 | one more row keeps success dates consecutive up to the clock |
| SchedulerRuns.EveryRunOk | backend/app/domain/scheduler.py:46-125 | every run keeps the flow invariant, exactly-once dates, a reporting layer equal to one sync at its horizon, and single open flags |
| SchedulerCommits.CommitsDateIff | backend/app/domain/scheduler.py:68-125 | a tick commits its date exactly when it runs, the passes finish and the only error is a Python one in a later step; it then leaves the flow's tables, one SUCCESS row and the derived layers that ran, and otherwise nothing but a raising flow's FAILED row |
| SchedulerCommits.OutcomeIsTick | backend/app/domain/scheduler.py:75-85 | the passes raise where the fault says so and otherwise do what the flow's tick does |
| SchedulerCommits.ClockCountsCommits | backend/app/services/simulation_clock_ops.py:118-126 | over every run the clock and the success days count exactly the ticks that commit |
| SchedulerRuns.ConflictAfterEveryRun | backend/app/services/reporting_sync.py:221-271 | in every run a synced layer shows its one conflict, variance 25 |
| SchedulerRuns.NoDuplicatesInAnyRun | backend/app/services/exception_engine.py:271-320 | no run gives the duplicate-order rule anything to flag |
| SchedulerRuns.EveryOrderIsReceived | backend/app/services/scheduled_flow.py:206-254 | in every run an open order missing at most 2^(k-1) units per line is received within k committed dates, counted from its first date confirmed and due, whatever the rolls and the failures in between |
| SchedulerRuns.SnapshotsInEveryRun | backend/app/services/scheduled_flow.py:694-750 | in every run every stored snapshot is the ledger sum of its pair over the rows dated up to its day |
| SchedulerRuns.FlagHistoryInEveryRun | backend/app/services/exception_engine.py:157-163 | over every run a flag keeps category, entity, threshold and first-detected date, and a closed one never changes |
| SchedulerRuns.LateRuleKeepsFlags | backend/app/services/exception_engine.py:236-268 | the late rule resolves no flag that is still late |
| SchedulerRuns.LateFlagsArePermanent | backend/app/services/exception_engine.py:236-268 | no later tick, failure or delivery resolves an open late-shipment flag |
| SchedulerRuns.LateFlagsNeverResolve | backend/app/services/scheduled_flow.py:591-618 | the same for every run from the empty tables |
| Sandbox.EveryInterleavingSafe | backend/app/services/sandbox_refresh.py:229-268 | every interleaving of queries, refreshes, crashes, outside interference and statements that give up their own lock keeps the safety invariant |
| Sandbox.ConsistentReads | backend/app/services/query_execution.py:166-195 | while it holds its lock a submission sees the published generation only, and it sees one generation provided none of its statements gives the lock up before another runs |
| Sandbox.PublishedIsComplete | backend/app/services/sandbox_refresh.py:161-207 | the name `sandbox` is always bound to a complete generation |
| SandboxRuns.OneGenerationIff | backend/app/services/query_execution.py:166-195 | that proviso is exact: a submission reads one generation in every interleaving if and only if no lock-releasing statement is followed by another |
| SandboxRuns.OvertakenReadsTwo | backend/app/services/query_execution.py:178-185 | the run in which a submission that gave up its lock reads two generations |
| Sandbox.OnlyTheSwapRebinds | backend/app/services/sandbox_refresh.py:173-207 | only a committed swap rebinds the name, never while a query holds its lock |
| SandboxRefresh.RebuildStages | backend/app/services/sandbox_refresh.py:161-170 | an undisturbed rebuild stages a complete new generation |
| SandboxRefresh.RefreshPublishes | backend/app/services/sandbox_refresh.py:145-226 | from every reachable state a refresh that gets its lock and drops publishes a new complete generation |
| Deadlines.ChatDesk.GetOrCreateThread | backend/app/services/chat.py:87-107 | returns the live thread of the pair, creating it only when there is none |
| Deadlines.ChatDesk.SendMessage | backend/app/services/chat.py:165-268 | errors in the original's order; otherwise the message, the deadline and both flags |
| Deadlines.ChatDesk.DeleteThread | backend/app/services/chat.py:139-151 | hides a live thread, refuses a completed one |
| Deadlines.ChatDesk.CompleteThread | backend/app/services/evaluation.py:101-161 | completes a thread exactly when it is live, open, answered and its scenario not cancelled |
| Deadlines.ChatDesk.SweepThreadDeadlines | backend/app/services/notifications.py:207-274 | both loops leave what Sweep describes, with the right counts |
| Deadlines.EveryRunKeeps | backend/app/services/notifications.py:207-274 | in every run notices fall at most once per round, each in a round, and one live thread per pair |
| Deadlines.NeverDoubleFires | backend/app/services/notifications.py:247-272 | each user's missed, and approaching, notices on a thread are at most its Builder messages |
| Deadlines.ApproachingNeverFollowsMissed | backend/app/services/notifications.py:240-246 | an approaching notice after a missed one belongs to a later round |
| Deadlines.SweepMarks | backend/app/services/notifications.py:238-272 | a sweep marks exactly the overdue and the nearly due threads |
| Deadlines.SweepWritesWhatIsDue | backend/app/services/notifications.py:199-274 | a sweep writes exactly the notices owed to active users, and loses none |
| Deadlines.ResweepAddsNothing | backend/app/services/notifications.py:207-219 | sweeping again at the same instant changes nothing |
| Deadlines.DeadlineIffBuilderSpokeLast | backend/app/services/chat.py:243-253 | a thread carries a deadline exactly while the Builder spoke last |
| Deadlines.DeadlineIsLastWindow | backend/app/services/chat.py:248-251 | in every run the deadline is none after an Analyst's last message and the given number of days after a Builder's |
| Deadlines.SendAcceptedIff | backend/app/services/chat.py:192-229 | exactly which messages are taken, and that a refused one changes nothing |
| Deadlines.CompletedIff | backend/app/services/evaluation.py:104-160 | exactly which threads are completed |
| Deadlines.OpenedOnce | backend/app/services/chat.py:87-107 | afterwards the pair has exactly one live thread, the one it had or a new empty one, and opening again changes nothing |
| Deadlines.DeletedIff | backend/app/services/chat.py:139-151 | exactly which threads are hidden, and that nothing else changes |
| Deadlines.CompletedStays | backend/app/services/chat.py:147-150 | a completed thread is never reopened, hidden or moved |
| Feed.ListNotificationFeed | backend/app/services/notifications.py:135-169 | limit, merge, two sorts and second limit give the ideal feed: unread first, newest first within a read state, and nothing dropped that should have come before something shown |
| Feed.TwoPassesAreOne | backend/app/services/notifications.py:167-168 | two stable sorts are one by (unread first, newest first) |
| Feed.SortIsStable | backend/app/services/notifications.py:167-168 | ties keep their order |
| Feed.LimitFirst | backend/app/services/notifications.py:66-81 | limiting the notifications before the replies join loses nothing |
| Feed.NothingHiddenBehindLesser | backend/app/services/notifications.py:54-65 | no read item is shown while an unread one is dropped, no older one while a newer of the same read state is |
| Feed.OrderIsFields | backend/app/services/notifications.py:167-168 | the sort's order is exactly unread first and newest first |
| Feed.SmallFeedIsComplete | backend/app/services/notifications.py:135-169 | a feed that fits shows every item once |
| Scenarios.ScenarioService.ValidateForApproval | backend/app/domain/scenario.py:155-193 | the error loop; no errors exactly for a complete package |
| Scenarios.GateOpensIffComplete | backend/app/domain/scenario.py:155-193 | each error names a required field that is missing or empty, and conversely |
| Scenarios.CompleteMeans | backend/app/domain/scenario.py:49-58 | completeness field by field |
| Scenarios.RegeneratedReadsBack | backend/app/services/scenario_service.py:272-288 | the regenerated package reads back as the facts and the narrative it was made from |
| Scenarios.TransitionsIff | backend/app/domain/scenario.py:31-42 | exactly when approval, cancellation and an edit succeed |
| Scenarios.EditsReadBack | backend/app/services/scenario_service.py:309-370 | after an edit each field reads as written, or as before if it was not; nothing but the one package changes |
| Scenarios.DraftNeedsWork | backend/app/services/scenario_service.py:141-180 | a new scenario is appended as the draft of its flag and cannot be approved as it stands |
| Scenarios.ScenarioService.CreateFromExceptionFlag | backend/app/services/scenario_service.py:141-180 | a draft from an open flag, an error otherwise |
| Scenarios.ScenarioService.RegenerateScenario | backend/app/services/scenario_service.py:224-290 | a full overwrite in draft only, nothing on any failure |
| Scenarios.ScenarioService.RegenerateNote | backend/app/services/scenario_service.py:309-351 | one Builder note replaced unless cancelled |
| Scenarios.ScenarioService.EditGroundTruth | backend/app/services/scenario_service.py:301-370 | a merge in draft, or of Builder notes only |
| Scenarios.ScenarioService.ApproveScenario | backend/app/services/scenario_service.py:373-390 | transition check, then validation, then the status |
| Scenarios.ScenarioService.ActivateScenario | backend/app/services/scenario_service.py:393-445 | blocked by any other active scenario without a completed thread |
| Scenarios.ScenarioService.CancelScenario | backend/app/services/scenario_service.py:448-454 | any status but cancelled becomes cancelled |
| Scenarios.GradedContentIsFrozen | backend/app/services/scenario_service.py:293-370 | from approval on no run changes graded content or targeting or returns to draft; a cancelled scenario never changes |
| Scenarios.GateIsNeverBypassed | backend/app/services/scenario_service.py:354-390 | in every run an approved or active package passes validation |
| Scenarios.OnlyActivationStarts | backend/app/services/scenario_service.py:393-445 | nothing but an activation puts a scenario in flight |
| Scenarios.AtMostOneInFlight | backend/app/services/scenario_service.py:393-445 | in every run at most one active scenario has no completed thread |
| Scenarios.ActivationIffClear | backend/app/services/scenario_service.py:424-440 | activation succeeds exactly for an approved scenario with no other in flight |
| Scenarios.CancelledGoesQuiet | backend/app/services/notifications.py:225-235 | once a scenario is cancelled no sweep of any run writes a notice on its threads |
| Decisions.DecisionLedger.ProposeDecision | backend/app/services/ledger.py:96-122 | a new proposed row without stamps; no existing row is touched |
| Decisions.DecisionLedger.ApplyTransition | backend/app/services/ledger.py:88-93 | moves exactly along the table's edges |
| Decisions.DecisionLedger.TransitionDecision | backend/app/services/ledger.py:125-197 | each helper's status and stamp, or an error and no change |
| Decisions.DecisionLedger.FlagStaleDecisions | backend/app/services/ledger.py:200-236 | flags exactly the unlocked candidates past the period |
| Decisions.StampsMatchInEveryRun | backend/app/services/ledger.py:88-236 | in every run each stamp is present exactly for the statuses that imply it |
| Decisions.StampsAreWrittenOnce | backend/app/services/ledger.py:132-197 | no stamp is rewritten or erased, the proposal time never moves, the proposal loop is never re-entered |
| Decisions.StaleStampIffWasStale | backend/app/services/ledger.py:229-235 | a stale stamp is present exactly when the row was stale at some point |
| Decisions.TrailsArePaths | backend/app/domain/ledger.py:34-61 | every change of status is an edge of the table |
| Decisions.TableIff | backend/app/domain/ledger.py:34-61 | the table in words |
| Decisions.MovesAsNamed | backend/app/services/ledger.py:125-197 | where each helper takes a row and from which statuses; from any other it changes nothing |
| Decisions.StampsDateTheStep | backend/app/services/ledger.py:125-236 | a stamp that appears is the time of the step that wrote it, a new row is dated by its proposal, and a move touches no other row |
| Decisions.FlaggedExactlyWhenDue | backend/app/services/ledger.py:218-235 | a sweep flags exactly the unlocked, undecided decisions that are at least so many days old, and stamps them with its time |
| Decisions.AtMostFourAfterTheLoop | backend/app/domain/ledger.py:34-61 | at most four transitions follow the last visit to the proposal loop |
| Decisions.FourIsReached | backend/app/domain/ledger.py:34-61 | a run with exactly four |
| Decisions.NothingSitsPastThePeriod | backend/app/domain/ledger.py:75-85 | a sweep meeting no lock leaves no undecided decision past the period since its proposal |
| RateLimiter.LoginRateLimiter.CheckAndRecord | backend/app/core/rate_limit.py:52-65 | prunes, decides, records and may sweep |
| RateLimiter.LoginRateLimiter.Reset | backend/app/core/rate_limit.py:67-69 | forgets the key |
| RateLimiter.LoginRateLimiter.SweepStale | backend/app/core/rate_limit.py:71-82 | with the draw below 0.01, drops exactly the keys without a recent attempt |
| RateLimiterRuns.DecisionsFollowHistoryIff | backend/app/core/rate_limit.py:52-82 | pruning and sweeping change no decision, for any maximum, addresses, resets and draws, if and only if no clock reading falls inside a window that an earlier reading had left behind |
| RateLimiterRuns.DecisionsFollowHistory | backend/app/core/rate_limit.py:52-82 | in particular every decision follows the full history while readings keep order |
| RateLimiterRuns.AdmittedIsAccepted | backend/app/core/rate_limit.py:52-82 | a run that follows the history lets through exactly what the history accepts |
| RateLimiterRuns.BackwardClockBreaksIt | backend/app/core/rate_limit.py:52-56 | readings 0, 20 and 5 under a window of 10 admit a run that does not follow the history |
| RateLimiterRuns.NoWindowOverflowsIff | backend/app/core/rate_limit.py:52-82 | of the attempts the limiter itself admits for a key since its last reset no window holds more than the maximum, at any moment of any run, if and only if no two readings less than a window apart have one between them that left the first behind |
| RateLimiterRuns.NoWindowOverflows | backend/app/core/rate_limit.py:52-82 | in particular no window overflows while readings keep order |
| RateLimiterRuns.StoredIsShort | backend/app/core/rate_limit.py:52-65 | no stored list outgrows the maximum |
| RateLimiterRuns.SweepLeavesRecentKeys | backend/app/core/rate_limit.py:71-82 | a sweep forgets exactly the other keys without a recent attempt |

## Left out

- Lifecycle-event rows and the event counts the passes return: they repeat the status changes and nothing reads them back.
- Identifiers are numbers standing for their rank in the original's order; purchase orders, transfers and shipments are scanned in that order (their steps are independent), sales orders in an arbitrary one.
- Supplier keyword matching, carrier choice, lead-time jitter, demand and every other draw are arbitrary inputs; a product without supplier is modelled, the matching itself is not.
- Carrier ids and requested dates of orders and shipments, which no modelled decision reads.
- Demand is a real number; floating-point rounding is not modelled.
- Allocation does not reserve stock in the original either, so nothing is claimed about allocated stock being on hand.
- Integer columns are unbounded here; overflow of a 32-bit column is not modelled.
- Python errors in the middle of the reporting sync: the sync is one step that happens or does not. Errors in the exception evaluation may strike after any number of categories, not inside one.
- SchedulerJob.TickJob.RunTickJob: the committed tables do not include KPI snapshots, decisions and notices, so that the rows those three last steps write are not in the state; the steps appear as points of failure, and the stale sweep and the deadline sweep are modelled on their own.
- SchedulerJob.TickJob.RunDerived: the same three steps appear only as points of failure.
- `reset_simulation`, `rebase_clock` and world repopulation, which move the clock back; runs start from empty tables and dates only advance.
- Days of supply are arbitrary optional values given with each evaluation; the KPI queries are not part of this model.
- The duplicate-order builder's measured values and insertion order for orders of several lines follow one reading of the grouping; the theorem about it concerns which flags exist.
- Statements of a submission that take advisory locks of their own; a statement counts as releasing when the session no longer holds its shared lock after it.
- `Sandbox` models the two services as interleaved steps of a protocol and not as classes, because each of their transactions is one step and what matters is what happens between them. Result columns, rows, timers and the writes users make inside the sandbox are not in the model.
- `Deadlines`, `Scenarios` and `Decisions` treat each call as one atomic step; two concurrent activations, which the original admits can both pass, are outside the model, as are lost updates between a sweep and a send.
- Message bodies, drafts and attachments: an attachment claim is an input that succeeds or fails.
- Deriving unread replies from messages: the feed takes the replies as given, so the theorem holds for any.
- Language-model calls are inputs that succeed with any content or fail; the check of referenced ids is an input too.
- Key normalisation in the limiter is an arbitrary function of the address; threads appear only through the order of the readings.
- Routes, authentication, WebSocket delivery, storage backends, portfolio export, dashboards, master data and seeding: they read or wrap the state modelled here and keep no invariant of their own across calls.
