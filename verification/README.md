# Verification of the trading bot's money path

This project models how the bot turns intents into orders, orders into fills, and fills into
positions, lots and profit, and proves what those parts promise each other. It also covers three
self-contained algorithms beside that path: the bar cache, the backtest and the rate limiter.

Decimals and floats are exact reals, instants and dates are integers, and a UUID is an opaque token
drawn from a counter or passed in. Each public call of the order manager is one atomic call, because
the original holds a re-entrant lock; a broker that calls back from inside `submit_order` is modelled
as a nested method call.

## How the project is laid out

| files | what they hold |
|---|---|
| `Common`, `Orders` | shared shapes; orders, fills, the order state machine and its arc table |
| `OmsState`, `OmsStore` | the order manager's memory, live and replayed; the log and its encoding |
| `Broker`, `Trading`, `Ghosts` | the in-memory broker's book; every call as a script of micro steps; ghost orders |
| `Oms` | the order manager and the broker as objects that call each other, proved to carry out those scripts |
| `Recovery`, `CrashSafety`, `Restarts`, `Positions`, `Runs`, `Retries` | crash safety over whole runs, recovery, positions, retried submissions |
| `Reconciliation`, `Reconciler`, `Passes`, `KillSwitch` | the periodic reconciler, its passes among crash-safe runs, and the part of the kill switch it drives |
| `Lots`, `LotLedgers`, `Attribution`, `LedgerAgreement`, `DailyPnl` | tax lots, independent profit attribution, and when the two agree |
| `Sizing`, `Planner`, `PlannerSafety`, `ExecutionPlanners`, `Hysteresis` | leverage, planning, the gross cap, no re-buying, the drawdown ladder |
| `Market`, `BarCache`, `Backtest`, `WalkForward`, `RateLimiter` | bars and their cache, the backtest without lookahead, walk-forward folds, the limiter |

A class is proved against functions on values: each of its methods ensures that the abstract state
after the call is a function of the state before, and the lemmas are about that function.

## Where the code and its own comments differ

The model follows the code. Each difference is a lemma.

- Replay does not always rebuild the live orders: live code keeps the old state when the state machine
  has no arc, replay overwrites it. `OmsState.ReplayRebuildsIffLegal` gives the exact condition and
  `OmsState.RejectionAfterPartialFillDiverges` a case.
- Retrying a submit after a crash (execution/oms.py:14-17) does duplicate fills if the first attempt had
  any: `Retries.RetrySafeIffUnfilled`, and one share booked twice in `Retries.RetryDoublesOneShare`.
- Serialisation drops legs, trailing percentage and the leveraged-fund entry date:
  `OmsState.Persist`, `OmsStore.RowIsLosslessIff`. A dictionary that carries one of the encoder's own tags does
  not come back as it was: `OmsStore.RoundTripIffClean`, `OmsStore.TaggedDictionariesAreLost`.
- A fill missed on an order that then ended otherwise than filled is never made up by the reconciler, and a
  rejection after a partial fill never ends the order: `Reconciliation.FillsCoverIffNotEndedShort`,
  `Reconciliation.EndsIffArcExists`, `Passes.PassSettlesIff`, with one order of two shares for each in
  `Reconciliation.FillMissedBeforeCancelStaysMissing` and `Reconciliation.RejectedAfterFillStaysOpen`. A failed
  position query clears a break: `Reconciler.ReconcilerLoop.ReconcileOnce`.
- A position the broker does not report passes the one-dollar check whatever it is worth, as long as it is below
  the share tolerance: `Reconciler.ReconcilerLoop.UnreportedFoundIffLarge`, and three hundred dollars of a coin in
  `Reconciler.ReconcilerLoop.UnreportedCoinGoesUnnoticed`.
- Attribution and the lot ledger hold the same open purchases exactly when every sale is clean:
  `LedgerAgreement.BooksAgreeIffClean`. They part over a sale that leaves half a cent's worth
  (`LedgerAgreement.SliverPartsTheBooks`) and over a sale of more than is held (`LedgerAgreement.OversellPartsTheBooks`).
- A negative target weight plans a sale of shares that are not held: `PlannerSafety.SellCoveredIffHeld`,
  `PlannerSafety.NegativeWeightSellsUncovered`.
- The cache looks only at the last cached day, so a request from before the covered span can miss bars, whether it
  fetches or not: `BarCache.CachedMarketData.AnswerIsExactIff`, `BarCache.CachedMarketData.FetchingMissesAnEarlierBar`.
- An embargo can leave a fold of one day, which fails the whole walk-forward: `WalkForward.EmbargoLeavesOneDay`, and
  `WalkForward.AllFoldsRunIff` for when it does not.

## Model

| member | source | states |
|---|---|---|
| Orders.WalkClimbs | core/state_machine.py:145-167 | an order history never goes back down the life cycle, and none leaves a terminal state |
| Orders.FireWalks | core/state_machine.py:109-127 | a trigger extends a history that is a walk over arcs to one that is |
| Orders.StateMachine.Trigger | core/state_machine.py:109-127 | a trigger whose guard passes runs the arc's action, moves along it and records it; without an arc, or past a failing guard, it changes nothing and says so |
| Orders.StateMachine.Reset | core/state_machine.py:133-142 | a reset goes to any state and leaves an entry without an event |
| Orders.Wire | core/state_machine.py:72-88 | wiring fails exactly on a repeated arc, and otherwise holds the listed arcs |
| Orders.OrderTableIsNext | core/state_machine.py:145-167 | the machine wired from the order arcs moves exactly where the arc table says |
| OmsState.CellAgreesIffLegal | execution/oms.py:654-723 | for one order and one event, replay lands on the live order if and only if the event is legal |
| OmsState.StepAgreesIffLegal | execution/oms.py:624-723 | the same for the whole memory, where other orders must not move |
| OmsState.LegalLogReplays | execution/oms.py:649-723 | replaying a log of legal events gives back the live orders, machines, fills and broker ids |
| OmsState.ReplayRebuildsIffLegal | execution/oms.py:624-723 | replay rebuilds memory after every number of appends if and only if every event was legal when logged |
| OmsState.RejectionAfterPartialFillDiverges | core/state_machine.py:151-166 | a rejection of a partially filled order leaves live and replayed states different |
| OmsState.ScopedLogIsReadable | execution/oms.py:649-723 | what the running program logs can be read back: every line follows its order's intent |
| OmsState.LiveCellSound | execution/oms.py:501-641 | one event keeps an order's snapshot the ledger of its fills, on a walk of the machine, and never leaves a terminal state |
| OmsState.EveryLiveMemoryIsSound | execution/oms.py:501-563 | over every run of logged events: state equals machine state, filled quantity is the sum of fills, average times quantity is the notional |
| Reconciliation.EveryRunKeepsMemorySound | execution/oms.py:139-641 | the same over every run of log lines and forced closes; each order sits once under its own id and is accepted before it carries a broker id |
| Reconciliation.TerminalIsAbsorbing | core/state_machine.py:145-167 | over the rest of any run, forced closes included, a terminal order stays in its state unless it is submitted again |
| OmsStore.RoundTripIffClean | execution/oms_store.py:70-98 | decoding an encoded payload gives it back if and only if no dictionary in it carries an encoder tag |
| OmsStore.TaggedDictionariesAreLost | execution/oms_store.py:86-98 | a tagged dictionary that comes back as a bare number, and one that cannot be read at all |
| OmsStore.OrderSurvives | execution/oms.py:863-905 | an order read back from its payload is the order without the fields the log never stores |
| OmsStore.FillSurvives | execution/oms.py:908-936 | a fill read back from its payload is the same fill |
| OmsStore.RowRoundTrip | execution/oms_store.py:139-171 | a logged event survives being written as a row and read back, up to the fields the log never stores |
| OmsStore.RowIsLosslessIff | execution/oms.py:863-905 | an event comes back exactly as written if and only if its order carries none of those fields |
| OmsStore.EventStore.Append | execution/oms_store.py:139-155 | appending adds one row at the end and changes no other |
| OmsStore.EventStore.IterAll | execution/oms_store.py:158-171 | reading gives every event in order |
| Broker.RebookAdds | execution/fake_broker.py:419-454 | a recorded fill moves the holding of its symbol by its signed quantity and no other holding |
| Broker.ContributionsShift | execution/fake_broker.py:419-454 | the holdings explained by client orders move exactly with the order that moved |
| Oms.OrderManager.Transition | execution/oms.py:624-641 | drives the machine; the snapshot follows only along an arc |
| Oms.OrderManager.RecordAccepted | execution/oms.py:501-519 | logs and maps a new broker id once, idempotently |
| Oms.OrderManager.Aggregate | execution/oms.py:541-557 | adds the fill and reweights the order's filled quantity and average price |
| Oms.OrderManager.HandleFill | execution/oms.py:521-563 | logs the canonical fill before it changes memory |
| Oms.OrderManager.ForceCloseFilled | execution/oms.py:565-582 | closes an order at its filled quantity and logs nothing |
| Oms.OrderManager.HandleCancellation | execution/oms.py:584-595 | logs and applies a cancellation unless the order is over |
| Oms.OrderManager.HandleRejection | execution/oms.py:597-609 | logs and applies a rejection with its reason unless the order is over |
| Oms.OrderManager.HandleExpiry | execution/oms.py:611-622 | logs and applies an expiry unless the order is over |
| Oms.OrderManager.OnBrokerEvent | execution/oms.py:442-497 | reacts to each broker state with the matching script |
| Oms.OrderManager.Intend | execution/oms.py:151-167 | an intent starts the order over, logged before the broker is called |
| Oms.OrderManager.SubmitOrder | execution/oms.py:139-200 | carries out the submission script, nested broker callbacks included, with the same outcome |
| Oms.OrderManager.CancelOrder | execution/oms.py:202-239 | carries out the cancel script with the same outcome |
| Oms.OrderManager.ListOpenOrders | execution/oms.py:251-261 | lists the orders that are not over, oldest first |
| Oms.OrderManager.AdoptOrphanPosition | execution/oms.py:275-350 | books a ghost purchase: intent, acceptance, one fill; one that raises has written its first lines and no others |
| Oms.OrderManager.BookFeeOffset | execution/oms.py:352-426 | books a ghost sale the same way |
| Oms.OrderManager.ReadIntent | execution/oms.py:662-668 | replaying an intent starts the order over but keeps fills already read |
| Oms.OrderManager.ReadFill | execution/oms.py:683-708 | replaying a fill books it and then writes the target state |
| Oms.OrderManager.ApplyLoggedEvent | execution/oms.py:654-723 | one event read back changes memory as the replay function says |
| Oms.OrderManager.ReplayLog | execution/oms.py:649-652 | reading the whole log gives the replayed memory |
| Oms.OrderManager.CatchUpFromBroker | execution/oms.py:785-857 | carries out the catch-up script: id, missing quantity, final state, audit line |
| Oms.OrderManager.ReconcileOne | execution/oms.py:732-767 | one open order against the broker: abandon, match or catch up |
| Oms.OrderManager.Recover | execution/oms.py:430-438 | a restarted manager replays and then reconciles every order |
| Oms.FakeBroker.ApplyFillToAccount | execution/fake_broker.py:419-454 | moves cash and the holding by the signed fill, dropping a holding of zero |
| Oms.FakeBroker.RecordFill | execution/fake_broker.py:365-417 | records a fill and its account change before it calls back |
| Oms.FakeBroker.SubmitOrder | execution/fake_broker.py:205-290 | carries out the broker's submission script: injected failure, known id, reject mode, acceptance, automatic fills |
| Oms.FakeBroker.CancelOrder | execution/fake_broker.py:292-318 | carries out the broker's cancel script |
| Oms.FakeBroker.ForceFill | execution/fake_broker.py:132-160 | fills a known order, never past what remains |
| Oms.FakeBroker.ForceReject | execution/fake_broker.py:162-183 | rejects a known order and calls back |
| CrashSafety.SubmitSafe | execution/oms.py:139-200 | a submission keeps the crash invariant after every micro step and ends settled |
| CrashSafety.CancelSafe | execution/oms.py:202-239 | the same for a cancel request |
| CrashSafety.ForceFillSafe | execution/fake_broker.py:132-160 | the same for a forced fill of a working order |
| CrashSafety.ForceRejectSafe | execution/fake_broker.py:162-183 | the same for a forced rejection before any fill |
| Restarts.RestartKeepsMid | execution/oms.py:649-723 | the process may die wherever the invariant holds: the rebuilt memory is as good as the lost one |
| Restarts.CatchUpSafe | execution/oms.py:785-857 | catching up is itself crash safe and leaves the order in sync with its record |
| Restarts.ReconcileOneSafe | execution/oms.py:732-767 | reconciling one order is crash safe and leaves it caught up |
| Restarts.ReconcileAllSafe | execution/oms.py:725-775 | reconciling all orders is crash safe, leaves every one caught up and the broker untouched |
| Restarts.RestartRedoesTheClose | execution/oms.py:839-847 | an order forced closed below its quantity comes back open after a restart, and recovery closes it again at the same quantity |
| Runs.EveryRunSettles | execution/oms.py:139-438 | every run of allowed calls, ghost orders, reconciler passes after missed notices, crashes and interrupted recoveries included, stays settled |
| Runs.CrashAnywhereRecovers | execution/oms.py:430-438 | after a crash at any micro step of any run, reconciler passes included, with the broker moving on meanwhile, recovery reconciles every order, each ghost order is booked in full or not at all, and the fills explain the broker's positions plus what the ghost orders booked |
| Runs.SecondRecoveryChangesNothing | execution/oms.py:785-857 | recovering a recovered system only leaves audit lines |
| Positions.CellBooksItsRecord | execution/oms.py:81-87 | an order in sync books what its record contributed, short by less than the fill tolerance, and a ghost order what it invented |
| Positions.FillsExplainHoldings | execution/reconciler.py:345-356 | in a settled system the positions summed from fills are the broker's plus the ghost orders' signed quantities, exactly if no filled order is short |
| Retries.CatchUpAddsTheGap | execution/oms.py:785-857 | from any memory, catching up books what the snapshot is missing and no more |
| Retries.RetrySafeIffUnfilled | execution/oms.py:139-200 | retrying an id the broker knows agrees with the broker after a restart if and only if nothing had been filled |
| Retries.RetryDoublesOneShare | execution/oms.py:14-17 | one share submitted, filled, submitted again: after the restart the fills say two, the broker one |
| Ghosts.GhostClosesTheGap | execution/oms.py:275-350 | a ghost order moves the net position of its symbol by exactly its quantity and nothing else, and if the log rebuilt memory before, it still does |
| Ghosts.GhostSafe | execution/oms.py:275-426 | booking a ghost order among the broker's orders keeps the crash invariant after every line and the system settled |
| Ghosts.GhostIsAllOrNothing | execution/oms.py:275-426 | dying after any of its three log lines, a ghost order is booked in full or dropped without a fill |
| Reconciliation.PassIsPointwise | execution/reconciler.py:176-242 | a pass over the open orders checks each independently of the others |
| Reconciliation.TwoChecksSettleOne | execution/reconciler.py:176-242 | two checks of one order against an unchanged answer leave what a third leaves |
| Reconciliation.TwoPassesReachAFixpoint | execution/reconciler.py:176-242 | two passes reach a fixpoint of orders and fills in which every order the broker calls filled is filled and covered |
| Reconciliation.AnyRunSettlesInTwoPasses | execution/reconciler.py:176-242 | the same from every memory that any run of log lines and forced closes can reach |
| Reconciliation.FillsCoverIffNotEndedShort | execution/reconciler.py:205-240 | two passes bring an open order's fills to the broker's quantity if and only if nothing was missing, or something was and the broker calls the order filled or partially filled |
| Reconciliation.EndsIffArcExists | execution/reconciler.py:360-375 | an order the broker has ended ends locally unless it is rejected after a partial fill |
| Reconciliation.FillMissedBeforeCancelStaysMissing | execution/reconciler.py:205-240 | one of two shares filled unseen, then a cancellation: two passes end the order with no fill booked |
| Reconciliation.RejectedAfterFillStaysOpen | core/state_machine.py:151-166 | one of two shares filled, then a rejection: two passes leave the order open |
| Reconciliation.AdoptionClosesGaps | execution/reconciler.py:285-309 | from any memory, adopting orphans, in any order, moves each to the broker's quantity and touches nothing else |
| Reconciliation.NextPassAdoptsNothing | execution/reconciler.py:111-112 | over two whole passes, order checks included: the second finds no orphan and exactly the mismatches of the first |
| Passes.SettledPassIsIdle | execution/reconciler.py:176-242 | over a settled system, the broker answering for itself, an order pass does nothing at all |
| Passes.SettledPositionsAgree | execution/reconciler.py:266-282 | in a settled system with nothing short and no ghost order, every position agrees: nothing to adopt and nothing to page |
| Passes.PassSettlesIff | execution/reconciler.py:176-242 | after any fills, cancellations and rejections whose notices were lost, a pass settles the system if and only if no open order was cancelled after a fill nobody heard of |
| Passes.WholePassSafe | execution/reconciler.py:89-133 | a whole pass, order checks and then adoptions, keeps the crash invariant after every micro step and ends settled |
| Reconciler.ReconcilerLoop.UpdateOrder | execution/reconciler.py:198-240 | one differing order: synthesise the missing fill, force it closed, or forward the state |
| Reconciler.ReconcilerLoop.ReconcileOrders | execution/reconciler.py:176-242 | a pass carries out the check of every open order in turn and counts the updates |
| Reconciler.ReconcilerLoop.ComputeExpectedPositions | execution/reconciler.py:345-356 | holds exactly the symbols with a net position, each with its net quantity |
| Reconciler.ReconcilerLoop.CompareAll | execution/reconciler.py:266-316 | whatever order the symbols come in, adopts every orphan once and finds every mismatch once, with those whose adoption raised |
| Reconciler.ReconcilerLoop.Page | execution/reconciler.py:318-341 | pages for the first five mismatches not yet paged in this outage, up to one whose adoption raised, and forgets those that agree again |
| Reconciler.ReconcilerLoop.ReconcilePositions | execution/reconciler.py:246-342 | adopts every orphan, counts each mismatch and each adoption that raised once, pages, and trips the break exactly when there is one; a failed query finds nothing and changes nothing |
| Reconciler.ReconcilerLoop.ReconcileOnce | execution/reconciler.py:89-133 | after a pass the kill state is a reconciliation break if and only if the query succeeded and a symbol mismatches or its adoption raised; the orders, log and counts are those of the order pass followed by the adoptions, ready for the next pass |
| Reconciler.ReconcilerLoop.SecondPassAdoptsNothing | execution/reconciler.py:89-133 | two passes in a row over the same answers and positions, no adoption raising: the second adopts nothing, finds the same mismatches and judges the break the same |
| Reconciler.ReconcilerLoop.UnreportedFoundIffLarge | execution/reconciler.py:266-282 | over a whole set of positions, an unreported symbol is never adopted and is found exactly from the share tolerance on, whatever it is worth |
| Reconciler.ReconcilerLoop.UnreportedCoinGoesUnnoticed | execution/reconciler.py:266-282 | 0.005 of a coin at sixty thousand dollars, unreported, agrees; reported as zero it mismatches |
| Lots.SortSorts | execution/lots.py:281-284 | the sale order is by date, oldest booking first within a date for either method, and loses no lot |
| Lots.SaleSucceedsIffCovered | execution/lots.py:286-291 | a sale succeeds exactly when enough is open |
| Lots.SaleTakesAPrefix | execution/lots.py:293-321 | a covered sale sells out a prefix in method order, lowers the open quantity by what was sold plus at most one sliver under a cent, and leaves every other position alone |
| Lots.RepeatsAreBookedOnce | execution/lots.py:201-224 | booking a list of fills with repeats is booking each id once |
| Lots.BookKeepsSound | execution/lots.py:228-321 | a lot is closed exactly when nothing remains of it, whatever is booked |
| Lots.NormalizeTwice | core/types.py:37-48 | the canonical symbol form is canonical |
| LotLedgers.LotLedger.BookFill | execution/lots.py:201-224 | books a fill once; a shortfall is swallowed |
| LotLedgers.LotLedger.CloseLots | execution/lots.py:252-324 | carries out the sale, or reports the wrong side or a shortfall and changes nothing |
| LotLedgers.LotLedger.ConsumeInOrder | execution/lots.py:293-321 | the consuming loop, with its early exit, does what visiting the whole order would |
| LotLedgers.LotLedger.TotalOpenQty | execution/lots.py:347-350 | adds up the open quantity of one agent and symbol |
| LotLedgers.LotLedger.OpenQtyBySymbol | execution/lots.py:365-373 | holds exactly the symbols with a positive open quantity |
| Attribution.SaleConservesWorth | ops/attribution.py:96-113 | a sale moves worth from paper to realized profit, plus its margin over the mark on what it matched |
| Attribution.MatchTakes | ops/attribution.py:96-113 | matching consumes the front of the queue by exactly the matched quantity, and empties it on overselling |
| Attribution.ProfitIsCashFlowPlusPosition | ops/attribution.py:76-117 | per agent and symbol, for any mark and any log: realized plus paper profit is sale proceeds less purchase cost plus the marked position, counted without the queue; a sale counts for no more than was held, so without overselling the sums are plain |
| Attribution.QueueHoldsAvailable | ops/attribution.py:87-117 | the queue's total is what counting purchases and covered sales leaves |
| Attribution.CoveredSaleMatchesAll | ops/attribution.py:96-117 | a sale matches all of its quantity exactly when the queue covers it |
| Attribution.AgentProfitIsCashFlowPlusPosition | ops/attribution.py:68-117 | the identity in plain sums for a whole agent that never oversold, over all the symbols it traded |
| LedgerAgreement.LedgerStep | execution/lots.py:201-324 | booking a fill does to the ledger's open lots of every key what the queue function says |
| LedgerAgreement.CleanIffSameEffect | ops/attribution.py:91-113 | ledger and attribution change a queue alike if and only if the fill is clean |
| LedgerAgreement.BooksAgreeIffClean | ops/attribution.py:68-117 | open lots and queued purchases are equal, entry for entry, after every fill if and only if every sale was clean when booked |
| LedgerAgreement.SliverPartsTheBooks | execution/lots.py:286-320 | buy one at 100, sell 0.99995: the ledger drops the sliver, the queue keeps it |
| LedgerAgreement.OversellPartsTheBooks | ops/attribution.py:91-113 | buy one, sell two: the ledger refuses the sale and keeps its lot, the queue is emptied |
| DailyPnl.MatchSale | ops/attribution.py:98-113 | the matching loop computes the queue left and the gain of the recursive definition |
| DailyPnl.RealizedByAgent | ops/attribution.py:68-117 | the pass over the fills computes every agent's realized profit |
| DailyPnl.ComputeDailyPnl | ops/attribution.py:120-179 | one breakdown for each sleeve: realized, unrealized, total and lot counts |
| DailyPnl.LotsAreQueues | ops/attribution.py:61-65 | marking lots one by one is marking the queues symbol by symbol |
| DailyPnl.ReportedTotalIsCashFlowPlusPosition | ops/attribution.py:120-179 | over clean fills without overselling and known marks, the reported total is proceeds less cost plus the marked position, in plain sums |
| Sizing.CapIsBounded | execution/sizing.py:95-131 | the gross cap lies between zero and 4.5, fails exactly above the allowed capability, and is zero in forced cash |
| Sizing.TargetIsPositive | execution/sizing.py:220-235 | a sensible intent's target is not negative and at most 1.75 times its weight of the equity |
| Sizing.VarianceIsWeightedSum | execution/sizing.py:149-151 | the running variance equals its closed-form weighted sum |
| Sizing.VarianceBelowLargest | execution/sizing.py:149-151 | the variance never passes the largest squared return |
| Sizing.AnnualVolHasFloor | execution/sizing.py:153-162 | annual volatility never falls below eight percent |
| Sizing.EwmaVolEstimator.Update | execution/sizing.py:149-151 | after each return the stored variance is the closed form of all returns so far |
| Sizing.LeverageStaysInBand | execution/sizing.py:189-207 | leverage stays in its range and within ten percent of the day before |
| Sizing.GoalIsReachedAndKept | execution/sizing.py:189-207 | a constant goal is reached in finitely many days, from either side, and kept |
| Sizing.VolTargetSizer.TargetLeverage | execution/sizing.py:189-207 | today's leverage follows the goal within both caps |
| PlannerSafety.QtyFits | execution/planner.py:322-333 | rounding a quantity down leaves less than one grid step at the mark |
| PlannerSafety.SizedOrders | execution/planner.py:193-346 | what every sized order looks like: side by the gap, quantity rounded down, cap respected |
| PlannerSafety.SellCoveredIffHeld | execution/planner.py:335-358 | a planned sale is covered by the open lots if and only if something is open |
| PlannerSafety.SensibleSalesAreCovered | execution/planner.py:116-358 | with weights that are not negative, booking a planned sale never falls short |
| PlannerSafety.NegativeWeightSellsUncovered | execution/planner.py:180-217 | a concrete rebalance to a negative weight that sells shares not held |
| PlannerSafety.FillKeepsGrossCap | execution/planner.py:265-292 | plan and fill at the mark: the sleeve's gross ends no higher than it was or than its cap |
| PlannerSafety.CyclesKeepGrossCap | execution/planner.py:265-292 | the same over any number of cycles |
| PlannerSafety.FillClosesGap | execution/planner.py:193-333 | after a full fill the position is within one step and a sliver of its target |
| PlannerSafety.NoSecondOrder | execution/planner.py:193-318 | planning the same intent again after its order filled yields no order |
| ExecutionPlanners.ExecutionPlanner.SleeveGrossNotional | execution/planner.py:398-421 | adding up by symbol, in any order, gives the lot-by-lot gross exposure |
| ExecutionPlanners.ExecutionPlanner.Plan | execution/planner.py:116-396 | plans from the ledger and counts exactly the reason of a dropped intent |
| Hysteresis.DeeperIsTighter | execution/kill_switch.py:224-237 | a deeper drawdown never gets a milder bucket |
| Hysteresis.CounterMatchesHistory | execution/agent_state_tracker.py:299-359 | the recovery fields say exactly what the history of readings says |
| Hysteresis.LadderIsSafe | execution/agent_state_tracker.py:299-359 | sizing is never looser than the raw bucket, tightens at once, and loosens exactly when the trailing run of equal better readings covers five dates |
| Hysteresis.AgentRecord.ApplyBucketWithRecovery | execution/agent_state_tracker.py:299-359 | the fields after a reading are the function of the fields before |
| Hysteresis.AgentRecord.UpdateOnMark | execution/agent_state_tracker.py:177-222 | a new equity moves the peak up only and applies the bucket of its drawdown |
| BarCache.WriteKeepsCoherent | data/bar_cache.py:101-127 | a write that starts no later than the day after the last cached day leaves no hole and nothing from today on |
| BarCache.MergeIsExactIff | data/bar_cache.py:190-209 | cached bars overwritten by fresh ones are exactly upstream's bars of the range if and only if upstream has none there before both the covered start and the gap |
| BarCache.CachedMarketData.AnswerIsExactIff | data/bar_cache.py:154-209 | for every symbol of a request over a coherent cache, fetching or not: the answer is exact if and only if upstream has no bar in range before both the covered start and the gap |
| BarCache.CachedMarketData.FetchingMissesAnEarlierBar | data/bar_cache.py:163-180 | a cache and a request that fetches and still misses a bar |
| BarCache.TimePasses | data/bar_cache.py:6 | a coherent cache stays coherent while upstream grows and its past stays |
| BarCache.Store.ReadRange | data/bar_cache.py:55-84 | the cached bars of a range, oldest first, with a list for every symbol asked |
| BarCache.Store.LastCachedDate | data/bar_cache.py:86-99 | the latest cached day, if any |
| BarCache.Store.Write | data/bar_cache.py:101-127 | upserts one symbol's bars without those dated today or later |
| BarCache.CachedMarketData.EarliestGap | data/bar_cache.py:158-180 | finds the earliest day any symbol needs: none needs an earlier one, and one needs that day |
| BarCache.CachedMarketData.GetBarsBatch | data/bar_cache.py:142-209 | a successful request over a coherent cache returns exactly upstream's bars if and only if none was missed, and keeps it coherent when the spans reach back to the request; over any cache, what it fetches from the gap on is stored and wins over cached bars; a failed one serves the cache and stores nothing |
| Backtest.SlicedDates | backtest/engine.py:80-86 | the calendar of sliced bars is the calendar up to that day |
| Backtest.CloseMap | backtest/engine.py:69-77 | for bars in any order, every day has the close of its latest bar |
| Backtest.NoLookahead | backtest/engine.py:89-154 | two bar sets that agree up to a day give equal curves up to that day, for any strategy |
| Backtest.RunBacktest | backtest/engine.py:89-154 | the run computes the state and benchmark of every calendar day, or fails exactly when it cannot |
| Backtest.MaxDrawdown | backtest/engine.py:184-189 | the loop finds the deepest relative fall from any running peak above zero to a later point, of any curve |
| WalkForward.FoldsAreDisjoint | backtest/engine.py:252-302 | any two folds are disjoint and in time order |
| WalkForward.FoldSeesItsWindow | backtest/engine.py:284-290 | a fold is given exactly the bars dated inside its window |
| WalkForward.AdvanceTo | backtest/engine.py:274-276 | the loop past the embargo stops at the first day on or after it |
| WalkForward.Windows | backtest/engine.py:252-302 | the folds are ordered and disjoint; each is its share of the calendar cut to the first day past the embargo, and there are too few only when the embargo runs off the calendar |
| WalkForward.FoldsCoverTheCalendar | backtest/engine.py:255-282 | without an embargo the folds tile the calendar: every day lies in one |
| WalkForward.RunFolds | backtest/engine.py:228-308 | each fold's curves are those of a run on its own bars only, and all runs succeed if and only if the caller's check passes; too short a calendar falls back to one full run |
| WalkForward.FoldRunsIff | backtest/engine.py:89-110 | a fold runs if and only if it has two days and the benchmark's close on the first is not zero |
| WalkForward.AllFoldsRunIff | backtest/engine.py:252-302 | every fold runs if and only if, for each fold asked for, the first day past the embargo comes before its share's end and closes at other than zero |
| WalkForward.EmbargoLeavesOneDay | backtest/engine.py:272-282 | four days, two folds and a two-day embargo: the second fold is one day and the walk-forward fails |
| RateLimiter.Limiter.TryAcquire | data/news_fetcher.py:40-49 | a call is refused exactly when the limit-th last grant is still inside the window |
| RateLimiter.Limiter.Acquire | data/news_fetcher.py:37-50 | returns at the first clock reading that is granted; without a limit it never waits |
| RateLimiter.Limiter.MoreThanMaxSpanTheWindow | data/news_fetcher.py:23-50 | whatever readings a limiter has been given since its construction, any stretch of more grants than the limit spans more than the window, although old grants are discarded |

## Left out

- The state machine object inside the order manager is held as a value (state and history); `Orders.StateMachine` is the object itself.
- Every public call reads the clock once; the original may read it several times within a call.
- Event-bus messages, logging and submit results beyond the outcome are not modelled; the lots ledger hears of fills through the bus in the original and is fed fill lists here.
- Printing and parsing of decimals, dates and UUIDs are taken as exact inverses; the encoding's tagged dictionaries are modelled, its text is not.
- SQLite durability, row order and locking, and thread scheduling: the log is an append-only sequence and each call is atomic.
- Runs.CrashAnywhereRecovers: quantities agree, average prices need not, because a synthesised fill carries the broker's overall average; the drift of the broker while nobody listens is fills, cancellations and rejections before any fill.
- Runs.EveryRunSettles: a submission of an id the broker already knows, or of a ghost order's id, is outside the allowed runs; `Retries.RetrySafeIffUnfilled` says what happens then. The knobs act on working orders, and reject only before any fill. Lost notices are followed by a reconciler pass or a restart before the next call, and a cancellation after an unheard fill must be recovered by a restart; adoptions in a run do not raise.
- Reconciler.ReconcilerLoop.ReconcilePositions: an adoption that raises before its first log line leaves nothing behind in the model; the original has by then put the order in memory.
- Reconciler.ReconcilerLoop.ReconcileOnce: new order ids are passed in, one for each symbol that may need one.
- PlannerSafety.FillKeepsGrossCap: intents with option legs are outside, as the original exempts them from the cap.
- PlannerSafety.NoSecondOrder: an order still in flight is not counted, as the planner ignores it too; the first order is assumed filled in full at its mark.
- LedgerAgreement.BooksAgreeIffClean: fills are positive, carry fresh ids and canonical symbols, and come in date order.
- BarCache.CachedMarketData.GetBarsBatch: requests are in whole days; other timeframes and an empty symbol list pass straight through in the original.
- Backtest.RunBacktest: annualised figures, the Sharpe ratio and its deflated form are plain formulas and left out.
- WalkForward.Windows: at least one window is asked for.
- Square roots are parameters of the sizing model, and so is the calendar's month of a date.
- The kill switch's daily loss, portfolio drawdown and budget states, and the per-agent bench.
- `Lot.realized_pnl` and the tracker's realised total, which prices a whole lot at its last exit.
- The risk gate, taxes, the approval queue, the real brokers, news, agents, dashboard and alerts.
- The proofs are about this model; the original program was not executed.
