# Verified model of the trading executor

A Dafny model of the executor's run loop, its startup reconciliation, the asynchronous PostgreSQL journal, the strategy
manager with its SQLite command queue, and the accounting they rely on. `dafny verify dfyconfig.toml` checks everything.

## How it is built

The loop body of `run_baseline_loop_with_limits` is written twice. `RunLoop.dfy` gives one iteration as a function
`Iterate` of the state and of everything the world answers during it; `StrategyLoop.dfy` is the same loop as a class
that updates its fields, each method proved to end in the state the function gives. Theorems are then about `Run`, the
iterated function, so they hold for every sequence of answers: fills, partial fills, cancels and rejects between any two
calls, errors of any call, stop requests at any moment. The other imperative components (tracker, stores, bootstrap,
journal, command table, manager) follow the same pattern: a class or a loop proved against a function, and theorems
about runs of that function.

| file | about |
|---|---|
| `Common`, `PositionState`, `FeeEngine`, `TradeLifecycle` | positions, exit rules, maker prices, fees, the trade tracker |
| `Exchange`, `Store`, `RunLoop` | the world, the journal tables as a value, one iteration and the run |
| `OrderTracking`, `PositionLedger`, `RepriceLineage`, `EntryExposure`, `ExitLatch`, `Pacing`, `BoundedClose`, `BoundedDrain` | what holds in every reachable state, and in bounded time |
| `Reactions`, `TradeOutcome` | when the loop acts and with what, and what a fill or a close makes of the books |
| `Races` | two expected properties the code does not have, with exact conditions |
| `ExecutorStore`, `StrategyLoop`, `Startup`, `Bootstrapper` | the objects and loops, and how a run begins |
| `Journal`, `CommandQueue`, `StrategyManager` | the two queues and the task map |

Prices, sizes, rates and the tracker's numbers are exact reals; `quantize` is round-half-even on the grid of the tick's
last decimal. Times are whole seconds. History counters in `State.history` and in the stores are written and never read.

## What is assumed about the exchange

- A placement that is answered with an error created no order; an accepted one creates exactly one.
- A cancel that succeeds or answers 51400 leaves that order not working; a cancel that raises changed nothing.
- `get_order` reports the order's true state, or fails, or knows nothing of it. Position and open-order reports used by
  the loop are arbitrary; only the two equivalences about order tracking at startup need the open-order answer to be
  complete and client ids of working orders to be distinct.
- A finished order does not come back to work, and nobody else places orders in the executor's name.
- A database commit that fails has written nothing of its batch; writes to SQLite do not fail.

`BoundedClose` and `BoundedDrain` assume more, and say so in `Healthy`, `MarketFillsByPoll`, `Served` and `ServedDrain`.

## Where the code differs from its documentation

- `docs/reconciliation.md:63` says a close after a reduce-only reject is journalled as `sync_lost`. The code writes the
  recorded exit trigger, or `reconcile` when there is none (`Store.ReconciledCloseWritesTrigger`).
- The docstring of `is_exit_order_price_stale` speaks of an exit order hanging far from the touch; the code tests the
  opposite side (`PositionState.ExitStalenessIsReversed`).
- The handler for 51400 at `app/orchestrator.py:473-480` cannot run, because the cancel has already swallowed that
  answer at 1031-1033; a reprice that races a fill therefore places the full size again (`Races`, `EntryExposure`).
- "Stops the worker after flushing the queue" (`PostgresJournal.stop`) holds exactly when the queue had room for the
  sentinel (`Journal.StopWorksIffQueueHasRoom`).

## Model

| member | source | states |
|---|---|---|
| PositionState.BuildActivePositionFromOkx | app/position_state.py:81-110 | no position is restored exactly when the average price is missing or the quantity is zero; otherwise side and size are the sign and magnitude of the quantity, with the reported price and entry time, a fresh attempt count and a stable id |
| PositionState.RestoredPositionIsClosedByItsExit | app/position_state.py:81-110 | an order on side s of size q brings the signed exchange position to zero iff s is the exit side and q the size of the restored position |
| PositionState.TriggersAreGrossPnlThresholds | app/position_state.py:47-126 | before the timeout, take-profit fires iff gross PnL reaches tp_delta * size, stop-loss iff it is at or below -sl_delta * size and take-profit has not fired; both sides alike |
| PositionState.ExitChoicesAreLatched | app/position_state.py:113-140 | with time and attempts only growing, a timeout reason or a market exit stays chosen at any price |
| PositionState.RoundHalfEven | app/position_state.py:149-174 | the rounding of `quantize`: at most half a unit away, and even on a tie |
| PositionState.QuantizeIsNear | app/position_state.py:149-158 | a quantized price is on the grid and at most half a grid unit away |
| PositionState.QuantizeFixesGrid | app/position_state.py:149-174 | a price on the grid is a fixed point |
| PositionState.QuantizeMonotone | app/position_state.py:149-174 | quantizing keeps order |
| PositionState.ResolvedMakerPrice | app/orchestrator.py:978-1006 | the resolved price is on the grid, clamping it again changes nothing, it never passes an on-grid limit, and an unbound one is the touch within half a grid unit |
| PositionState.FreshPriceIsNotStale | app/position_state.py:177-221 | a fresh maker price whose limit does not bind, or could not be fetched, is stale against its own book neither as entry nor as exit |
| PositionState.ExitStalenessIsReversed | app/position_state.py:203-221 | an exit order is stale iff it stands through the touch by more than the gap; behind the touch it never is |
| TradeLifecycle.SlippageExplainsPnl | execution/trade_lifecycle.py:158-168 | gross PnL at the touches minus gross PnL at the fills = (entry + exit slippage ticks) * tick * size, both sides |
| TradeLifecycle.EntryLegOfATrade | execution/trade_lifecycle.py:56-103 | from signal to fill with any n reprices: n + 1 orders, n reprices and cancels; first price, touch and start time are the first submit's, the last price the last reprice's; the fill and position are bound |
| TradeLifecycle.ExitLegOfATrade | execution/trade_lifecycle.py:105-126 | after any exit submissions: their number, the first one's touch and time, the last one's price, order type and trigger; the fallback counts as used iff one of them was a market order |
| TradeLifecycle.TradeLifecycleTracker.OnEntrySubmit | execution/trade_lifecycle.py:65-71 | one more entry order; start time, first price and touch only at the first submit |
| TradeLifecycle.TradeLifecycleTracker.OnReprice | execution/trade_lifecycle.py:73-84 | the leg's reprices, cancels and orders each grow by one |
| TradeLifecycle.TradeLifecycleTracker.OnExitSubmit | execution/trade_lifecycle.py:109-126 | one more exit order; fallback use is remembered with its trigger |
| FeeEngine.SumFills | accounting/fee_engine.py:33-53 | the one-pass loop returns the sum of absolute fees, first non-empty currency, most frequent liquidity label (the first seen on a tie) and volume-weighted price |
| FeeEngine.FirstCcyIs | accounting/fee_engine.py:37-43 | the currency is the first non-empty one, and empty only when none is named |
| FeeEngine.SumIsAdditive | accounting/fee_engine.py:33-53 | every total over a concatenation is the sum of the totals |
| FeeEngine.AggregationIsOrderFree | accounting/fee_engine.py:33-53 | fee, size, notional and average price do not depend on the order of the fills, and split additively |
| FeeEngine.VwapIsBetween | accounting/fee_engine.py:49-53 | the average lies between the least and the greatest fill price |
| FeeEngine.FillsRefineEstimate | accounting/fee_engine.py:56-107 | fills charged at their leg's rate give exactly the estimate at the two average prices |
| FeeEngine.LiquidityRefinesEstimate | accounting/fee_engine.py:25-107 | fills that all carry the label their leg was charged by give the estimate's liquidity labels too |
| Store.ReconciledCloseWritesTrigger | execution/trade_finalize.py:204-235 | a close without a fill is written "reconcile" iff no exit had been triggered, otherwise with that trigger; net = gross - fees; other rows untouched |
| Store.OrdersAreInsertedOnce | persistence/executor_store.py:281-396 | a second "submitted" write of a client id is an update: the first one's parent and signal stay, and neither the last entry nor an exit order moves |
| Store.TradeRowAccounts | execution/trade_finalize.py:106-154 | a trade row's net result is the result at the touches, less both legs' slippage, less the fees |
| Store.RowPricesAllAtTheLastExit | execution/trade_finalize.py:56-123 | when a repriced exit filled in parts, the row's gross is the cash flow of all exit fills iff the earlier fills came to the last order's average (in particular when there are none), and its exit fee leaves out exactly the earlier fees |
| TradeOutcome.FinalizedTradeIs | execution/trade_finalize.py:157-201 | a finalized trade's row carries (exit price - entry price) * size with the side's sign, the fees of both legs by fills or else by rates, net = gross - fees, the holding time, the tracker's signal, attempts and slippages, and its trigger before the raw reason in the journal's spelling; the position row closes at that price; the journal gets the row iff the position has metadata; no other row moves |
| TradeOutcome.ReconciledTradeIs | execution/trade_finalize.py:204-235 | the same for a close without a fill, sourced to the reconcile, whose reason is the tracker's trigger or else the reconcile |
| TradeOutcome.FeesAreResolved | execution/trade_finalize.py:68-103 | with any fill listed both legs' fees and averages are those of the fills; otherwise the entry is charged at the maker rate and the exit at the taker rate iff it was a market order |
| TradeOutcome.EntryFillOpensAt | app/orchestrator.py:243-296 | a tracked entry found filled opens a position at the reported average, else the order's price, else the ticker (zero counts as missing), with the order's side and filled size, targets and deadline at their configured distances, journalled as such |
| TradeOutcome.ExitFillClosesAt | app/orchestrator.py:297-366 | a tracked exit found filled closes the held position at that price: both rows, gross, fees, exit slippage, reason and source, and the cooldown |
| TradeOutcome.SyncClosesAtTheTicker | app/orchestrator.py:866-888 | a close because the exchange is flat writes both rows at the last ticker price and starts the cooldown |
| TradeOutcome.RejectedExitClosesAtTheTicker | app/orchestrator.py:820-889 | whenever the exit branch ends with the position gone, its rows are those of such a close |
| TradeOutcome.RejectedRepriceClosesAtTheTicker | app/orchestrator.py:520-573 | whenever a reprice ends with the position gone, its rows are those of such a close |
| ExecutorStore.ExecutorStore.SaveOrder | persistence/executor_store.py:281-396 | the first "submitted" write of a client id inserts with its parent and signal, everything else updates, and only final statuses are terminal |
| ExecutorStore.ExecutorStore.SavePositionOpen | persistence/executor_store.py:398-443 | the row is (again) open, the metadata is fresh, the signal falls back to the last entry order |
| ExecutorStore.ExecutorStore.SavePositionClose | persistence/executor_store.py:445-473 | row and metadata get the exit, when they exist |
| ExecutorStore.ExecutorStore.SaveTradeResult | persistence/executor_store.py:475-517 | one result row; the journal's row is skipped and counted when metadata is missing |
| ExecutorStore.ExecutorStore.CloseOpenPositionReconciled | persistence/sqlite_store.py:309-324 | only an open row changes, closed at its entry price |
| ExecutorStore.ExecutorStore.BeginTradeLifecycle | persistence/executor_store.py:165-170 | a new tracker with the signal and tick is in the slot |
| ExecutorStore.ExecutorStore.FinalizeClosedTrade | execution/trade_finalize.py:157-201 | close row, trade row and empty lifecycle slot, with the tracker's trigger before the raw reason |
| ExecutorStore.ExecutorStore.FinalizeReconciledClose | execution/trade_finalize.py:204-235 | the same, after recording the reconcile in the tracker or in a new one |
| Exchange.Cancel | app/orchestrator.py:1013-1033 | after a cancel that does not raise no order with that client id works, and orders with other ids are untouched |
| RunLoop.LastRequestWins | app/orchestrator.py:34-47 | the last request decides the mode, any request forbids entries, none changes nothing |
| RunLoop.FirstForInstrumentIs | app/position_reconcile.py:153-179 | the report acted on is the first of the loop's instrument, or the very first when none is of it |
| StrategyLoop.StrategyLoop.Observe | app/orchestrator.py:193-238 | snapshots, sweep and restore refine `RunLoop.Observe` |
| StrategyLoop.StrategyLoop.OpenFromEntry | app/orchestrator.py:245-296 | an entry fill becomes the held position, journalled and bound to the tracker |
| StrategyLoop.StrategyLoop.CloseFromExit | app/orchestrator.py:297-352 | an exit fill finalizes the position and starts the cooldown |
| StrategyLoop.StrategyLoop.OnFilled | app/orchestrator.py:243-366 | one terminal order update and no tracked order after a fill |
| StrategyLoop.StrategyLoop.OnDead | app/orchestrator.py:367-415 | a dead exit counts a failed attempt on position and tracker, any other dead order clears the tracker |
| StrategyLoop.StrategyLoop.OnWorking | app/orchestrator.py:416-458 | reprice, expire or leave alone, by age and staleness |
| StrategyLoop.StrategyLoop.CancelBestEffort | app/orchestrator.py:1013-1033 | success and 51400 leave nothing working under the id, other errors come back |
| StrategyLoop.StrategyLoop.Reprice | app/orchestrator.py:459-616 | cancel, price and place, with every exit of the stretch |
| StrategyLoop.StrategyLoop.DropOrder | app/orchestrator.py:501-573 | a price-limit or reduce-only reject forgets the order without counting an attempt, and closes the position only if the exchange is flat |
| StrategyLoop.StrategyLoop.Replace | app/orchestrator.py:582-616 | the new order keeps purpose, side, size, reduce-only and creation time and links to its parent |
| StrategyLoop.StrategyLoop.Expire | app/orchestrator.py:617-645 | cancel, verify, retry, count the attempt, forget the order |
| StrategyLoop.StrategyLoop.Poll | app/orchestrator.py:240-645 | which of the above happens, by the order's reported state |
| StrategyLoop.StrategyLoop.Seek | app/orchestrator.py:651-682 | drain out, skip, or decide |
| StrategyLoop.StrategyLoop.Enter | app/orchestrator.py:685-763 | the entry submission with its rejects |
| StrategyLoop.StrategyLoop.Leave | app/orchestrator.py:777-890 | the exit submission, maker or market, with its rejects |
| StrategyLoop.StrategyLoop.TrackExit | app/orchestrator.py:891-934 | the tracked exit has the position's opposite side and size and is reduce-only |
| StrategyLoop.StrategyLoop.Iterate | app/orchestrator.py:159-957 | one pass of the loop ends in the state and by the way out of `RunLoop.Iterate` |
| StrategyLoop.StrategyLoop.RunLoops | app/orchestrator.py:158-957 | the loop as a whole refines `RunLoop.Run`; an object that starts with its orders tracked and its books in order ends so |
| OrderTracking.IterationKeepsStep | app/orchestrator.py:159-957 | every exit of an iteration, exceptions included, keeps each working executor order tracked |
| OrderTracking.EveryWorkingOrderIsTracked | app/orchestrator.py:240-955 | in every reachable state the executor's working orders are a subset of the single tracked order |
| OrderTracking.RepriceKeepsStep | app/orchestrator.py:467-601 | a reprice never leaves old and new order working together |
| OrderTracking.ExpireKeepsStep | app/orchestrator.py:617-645 | an expired order is forgotten only when it no longer works |
| PositionLedger.IterationKeepsBooks | app/orchestrator.py:159-957 | one iteration keeps everything the next row lists |
| PositionLedger.BooksHoldOverRuns | app/orchestrator.py:209-909 | in every reachable state: an exit order reduces exactly the held position and an entry order never reduces; tracker and position agree on failed attempts; maker exit submissions <= attempts + dropped chains (+1 while one works), and <= the configured maximum + dropped chains with fallback on; positions in = finalized + overwritten + held; each finalization made one close write, one result write and one cooldown; the held position has an open row and metadata, and no trade result ever lacked metadata |
| PositionLedger.FilledEntryIsClosedByItsExit | app/orchestrator.py:245-258 | the position opened by a fill has that order's filled side and size: its exit, and no other side or size, cancels that quantity |
| RepriceLineage.RowsHoldOverRuns | app/orchestrator.py:490-763 | in every reachable state: each client id is inserted once and before any update, gets at most one terminal update, and the working one none; n = reprices parent links lead from the working entry order to the signal and orders = n + 1; the held position traces back to its signal |
| RepriceLineage.PollCarries | app/orchestrator.py:582-616 | an order still tracked after a poll has the purpose, side, size, reduce-only flag and creation time of the one before it, and is it or its journalled child |
| RepriceLineage.RepricesKeepTerms | app/orchestrator.py:582-616 | over any run: if n parent links lead from the order tracked at the end to the one tracked at the start, the two have the same terms |
| RepriceLineage.AncestorsStay | persistence/executor_store.py:322-342 | later writes never break a parent chain |
| ExitLatch.RunAges | app/orchestrator.py:209-645 | while one position is held, no run changes any term of it, and its failed attempts never fall |
| ExitLatch.ExitChoicesStayLatched | app/orchestrator.py:778-790 | over any run of one position a timeout reason or market exit, once chosen, is chosen ever after |
| Reactions.LeaveSubmitsIff | app/orchestrator.py:777-934 | a held position without an order gets an exit order iff the deadline, take-profit or stop-loss is reached and the calls go through; it is the opposite side, whole size, reduce-only, at the resolved maker price or, iff the fallback is due by attempts or grace, without a limit; it is journalled without parent or signal, and the tracker has its order type, its price and the attempts so far; the trigger recorded is the first of the three in that order; the position closes without a fill iff the exit is due and the reduce is refused on a flat exchange |
| Reactions.IterationExitsIff | app/orchestrator.py:777-934 | the same for a whole iteration that starts with a held position and no order |
| Reactions.RepriceAnswers | app/orchestrator.py:459-616 | what a reprice leaves: accepted, the old order is cancelled and the new one stands at the freshly resolved price on the old terms with its clock restarted, journalled under the old one and, for an entry, under its trade's signal; the order is forgotten iff the placement hits a price limit, or is a refused reduce of an exit; the position closes iff that refusal meets a flat exchange; else order and position stay |
| Reactions.WorkingOrderIsRepricedIff | app/orchestrator.py:416-645 | with the calls going through, a working order past its maximum wait is given up; otherwise its client id changes iff its reprice interval has elapsed or its price is more than the gap behind the touch (entry) or through it (exit), and then it is replaced, else nothing changes |
| Reactions.PollRepricesIff | app/orchestrator.py:240-645 | the same through the poll, with the order's reported price, or else its average, as the price compared |
| Reactions.IterationRepricesIff | app/orchestrator.py:416-616 | the same for a whole iteration within the maximum wait |
| Reactions.ExpiryForgets | app/orchestrator.py:617-645 | an order given up is forgotten, its leg gets one cancel, and exactly an exit of a held position costs one attempt, on position and tracker |
| Reactions.DeadOrderIsForgotten | app/orchestrator.py:367-415 | an order found cancelled or rejected is forgotten with one more terminal update; exactly an exit of a held position costs an attempt, an entry ends the tracker |
| Reactions.IterationDecidesIff | app/orchestrator.py:651-763 | an iteration that starts flat decides iff no stop is asked, no limit reached, every snapshot is read and empty, the ticker is at most ten seconds old, the cooldown is over and a decision step has passed; an entry order then works at its end iff the placement went through, with the picked side, the configured size and the resolved price, tracked and recorded |
| Reactions.SeekDecidesIff | strategy/random_baseline/service.py:25-46 | the same for the entry branch alone: no decision with a position or order reported, a stale ticker, during the cooldown or within the step, and a decision in every other case |
| Reactions.BusyIterationDecidesNothing | app/orchestrator.py:193-763 | in every state in order, an iteration that starts with an order out or a position held makes no decision, given a positive cooldown, even when the poll frees both |
| Reactions.ObserveRestoresIff | app/orchestrator.py:193-238 | a position is taken over iff none is held and the first report of the instrument has an average price and a quantity, and then with that report's side, size, price, id and time, journalled as open with the last entry order as its signal and entry order; orders are swept iff nothing is tracked or held |
| Reactions.UnreadableSnapshotChangesNothing | app/orchestrator.py:173-195 | an iteration whose ticker, orders or positions cannot be read changes nothing but the loop count and obeyed requests |
| Reactions.IterationStopsAtLimits | app/orchestrator.py:159-172 | at a loop or time limit, or with a force request pending, the loop stops before doing anything else |
| Pacing.PaceHoldsOverRuns | strategy/random_baseline/service.py:25-65 | the strategy's two timestamps summarize all past decisions and closes, over any run |
| Pacing.DecisionsArePaced | strategy/random_baseline/service.py:25-65 | any two decisions i and j of a run are (j - i) steps apart at least, and none falls in the cooldown after any close |
| Pacing.DecisionsPerWindow | strategy/random_baseline/service.py:42-46 | a window of W seconds holds at most W / step + 1 decisions |
| Pacing.NoDecisionAfterStopRequest | app/orchestrator.py:651-668 | after a drain or force request no continuation decides again |
| Pacing.DrainedRunIsFlat | app/orchestrator.py:651-668 | a run without smoke limits that stops unforced ends with no local order, no local position and no executor order working on the exchange |
| BoundedClose.IterationHolds | app/orchestrator.py:416-901 | what an iteration, healthy or failing, does to a held position on either side of its deadline |
| BoundedClose.HeldPositionIsClosedInTime | app/orchestrator.py:416-901 | with fallback on and healthy iterations at most gap apart, a held position without an entry order is closed by max(start, timeout_at + grace) + maker wait + 2 * gap, whatever else happens |
| BoundedClose.BoundIsReached | app/orchestrator.py:617-645 | a run that meets every hypothesis, with positive grace and maker wait and a maker exit that expires, and closes exactly at that bound |
| BoundedDrain.FlatIteration | app/orchestrator.py:651-668 | while draining with nothing held or tracked an iteration keeps it so, and the first healthy one stops the loop |
| BoundedDrain.ExitFillEndsTheDrain | app/orchestrator.py:297-660 | while draining, the very iteration that finds the exit filled ends flat and stops the loop, even when its snapshots still report the position and the order |
| BoundedDrain.DrainStopsInTime | app/orchestrator.py:416-668 | after a drain request, with fallback on, healthy iterations at most gap apart and empty reports after the close, a held position without an entry order is closed and the loop stops by max(start, timeout_at + grace) + maker wait + 3 * gap, with nothing of the executor working |
| Races.RepriceCommitsOrderSizeIff | app/orchestrator.py:494-500 | one reprice of an entry: old and new order commit at most the order size iff the old one had no fill when the cancel took effect |
| EntryExposure.ChainCommitsOrderSizeIff | app/orchestrator.py:467-616 | in every reachable state with an entry order working, the order and all its predecessors along the parent links commit at least the order size, and no more than it iff no predecessor filled anything |
| EntryExposure.FilledEntryCoversItsChainIff | app/orchestrator.py:243-258 | when the tracked entry is found filled, its whole reprice chain has put at least the opened position on the exchange, and exactly that iff no predecessor filled anything; otherwise the exit leaves those fills open |
| EntryExposure.RunKeepsChained | app/orchestrator.py:467-763 | over any run: own client ids of the run are unique, every journalled entry row and its parent were placed, entry fills stay within the size, and the tracked entry order has the configured size |
| Races.EntryFillOverwritesIff | app/orchestrator.py:209-258 | in every reachable state, finding the entry order filled overwrites a position and leaves its row open iff one is already held or that iteration's snapshot reports a restorable one |
| Races.PartialFillOverwrites | app/orchestrator.py:209-258 | a run in which a half-filled entry is restored as a position and the second half overwrites it, with an empty snapshot |
| Races.RacedRepriceFillsTwice | app/orchestrator.py:467-500 | a run of two iterations that fills twice the order size, overwrites a restored position, and holds a position covering half of its chain |
| Startup.AdoptOpenExitOrder | app/position_reconcile.py:182-208 | an order on the exit side is adopted iff one is listed |
| Startup.AdoptsTheFirstExitOrder | app/position_reconcile.py:189-197 | it is the first such order in the exchange's answer |
| Startup.CloseRowsClosesExactly | persistence/sqlite_store.py:309-324 | exactly the listed open rows are closed, at their entry price |
| Startup.CancelStaleEffect | app/position_reconcile.py:211-242 | every listed order that is not spared and whose cancel goes through stops working |
| Startup.FlatStartup | app/position_reconcile.py:119-140 | with a flat exchange no open row of the strategy remains, all other rows are unchanged, and every listed order whose cancel does not fail has stopped working |
| Startup.HeldStartupRestores | app/position_reconcile.py:55-117 | a readable startup with a restorable report holds exactly that report's position under the oldest open row's id, or the exchange's when there is none, journalled as open; the adopted exit order is tracked with its side and the position's size |
| Startup.FailedStartupChangesNothing | app/position_reconcile.py:41-53 | a startup without snapshots changes nothing |
| Startup.StartupTracksIf | app/position_reconcile.py:41-140 | whatever fills or cancels happen between the open-order answer and the cancels, startup leaves every working executor order tracked if none was working, or the snapshots were read and either the exchange is flat and no cancel of ours failed, or its position is restorable and the adopted order is the only one of ours on the exit side or with a failed cancel |
| Startup.StartupTracksIff | app/position_reconcile.py:41-140 | with nobody else acting meanwhile, and whichever cancels fail, it does so exactly then |
| Startup.HeldStartupTracksIff | app/position_reconcile.py:219-226 | the held case with nobody else acting: tracked iff every working executor order on the exit side or with a failed cancel is the adopted one |
| Startup.SecondExitOrderIsNotTracked | app/position_reconcile.py:223-226 | two working exit orders left by an earlier process: the second stays alive and untracked |
| Startup.StartupEstablishesInvariants | app/orchestrator.py:145-157 | from such a startup, order tracking, the books and the rows hold in every reachable state |
| Startup.StartupBeginsChains | app/orchestrator.py:145-157 | every startup begins the invariants the exposure of entry chains rests on |
| Bootstrapper.ListOpenPositions | persistence/sqlite_store.py:283-307 | exactly this strategy's open rows, oldest entry first, each once |
| Bootstrapper.AdoptExitOrder | app/position_reconcile.py:182-208 | the loop adopts the first exit-side order, with the position's size |
| Bootstrapper.CancelStaleOpenOrders | app/position_reconcile.py:211-242 | the cancel loop refines `Startup.CancelStale` |
| Bootstrapper.CloseStaleRows | app/position_reconcile.py:119-131 | the row loop refines `Startup.CloseRows` |
| Bootstrapper.BootstrapPositionOnStartup | app/position_reconcile.py:23-140 | position, order, exchange and tables after startup are those of `Startup.Bootstrap` |
| Journal.QueueIsFifo | persistence/postgres_journal.py:483-505 | what the worker took and what still waits are exactly the items that met a queue with room, in the order of the calls; every other attempt is counted as dropped |
| Journal.OrderAndConservation | persistence/postgres_journal.py:483-529 | for every interleaving and failure pattern the committed log is a subsequence of the offered events in the order they were offered, and attempts = committed + lost + uncommitted + queued + dropped (+ the sentinel) |
| Journal.OneFailureLosesAtMostABatch | persistence/postgres_journal.py:503-524 | uncommitted <= pending_commits and <= 24 at the loop head, so one failing step loses at most 25 events; committed events stay committed |
| Journal.BusyWorkerCommitsInBatches | persistence/postgres_journal.py:511-522 | with nothing failing, n waiting events are taken and committed in batches of 25: (open + n) mod 25 stay open, all others reach the log |
| Journal.CleanStopLogsEverything | persistence/postgres_journal.py:498-529 | without failures the worker has stopped iff it took a sentinel, and then the log is exactly what was offered before it, in that order |
| Journal.StopWorksIffQueueHasRoom | persistence/postgres_journal.py:98-103 | draining stops the worker iff the queue had room for the sentinel; on a full queue no failure-free work ever stops it |
| Journal.FullQueueDropsTheSentinel | persistence/postgres_journal.py:483-489 | a reachable full queue where it does not |
| Journal.RunRowSurvivesIff | persistence/postgres_journal.py:511-536 | while the row of a published run id is uncommitted, any continuation keeps it iff no step rolls back before the first successful commit; the id stays published either way |
| Journal.RunIdNamesARowIff | persistence/postgres_journal.py:82-93 | the same from `start_run` on: the id it returns names a journalled row in the end iff that condition holds |
| Journal.RunIdCanOutliveItsRow | persistence/postgres_journal.py:519-536 | a run whose id is published while one failing write rolls its row back |
| Journal.PostgresJournal.Enqueue | persistence/postgres_journal.py:483-489 | a full bounded queue drops and counts, otherwise the item goes to the back |
| Journal.PostgresJournal.DispatchEvent | persistence/postgres_journal.py:513-522 | dispatch, batch commit at 25, and the rollback that forgets the batch but not the count |
| Journal.PostgresJournal.WorkerTurn | persistence/postgres_journal.py:501-524 | one turn of the worker, or its failure to connect, refines `Journal.Next` |
| Journal.PostgresJournal.StartRun | persistence/postgres_journal.py:82-93 | refused when started; otherwise the run id the worker set during the wait, or an exception |
| Journal.PostgresJournal.Stop | persistence/postgres_journal.py:98-103 | the sentinel, then whatever the worker still does |
| CommandQueue.PendingIds | persistence/sqlite_store.py:478-485 | exactly the pending ids, increasing |
| CommandQueue.CommandsAreClaimedExactlyOnce | persistence/sqlite_store.py:461-513 | with rows inserted at any moment, also between SELECT and UPDATE, all claims joined are strictly increasing, are exactly the non-pending rows, and each claimed row not on the to-do list is done or failed |
| CommandQueue.ClaimsNeverRepeatAcrossARestart | persistence/sqlite_store.py:477-496 | two manager processes, one after the other, never claim the same id, and pass none over |
| CommandQueue.StatusOnlyMovesForward | persistence/sqlite_store.py:491-512 | over every run, restarts included, a row keeps its command, never moves back along pending, processing, done or failed, and never leaves the last two |
| CommandQueue.FinishReportsItsCommand | persistence/sqlite_store.py:498-513 | finishing makes the oldest claimed command done iff it went well and failed iff not, and touches no other row |
| CommandQueue.RestartForgetsTheToDoList | app/strategy_manager.py:114-140 | after a restart at any moment a claimed command ends done or failed iff it was not on the to-do list then; the others stay "processing" in every continuation |
| CommandQueue.RestartLosesAClaimedCommand | persistence/sqlite_store.py:477-496 | a reachable command that is lost so |
| CommandQueue.StrategyCommands.ClaimPendingStrategyCommands | persistence/sqlite_store.py:477-496 | the ids pending at the SELECT come back and only those become "processing" |
| StrategyManager.AtMostOneTaskPerStrategy | app/strategy_manager.py:67-192 | any sequence of commands, syncs, shutdowns and task endings leaves at most one unfinished task per strategy, the one in `_runtimes` |
| StrategyManager.ShutdownEndsEverything | app/strategy_manager.py:168-192 | after shutdown, timed out or not, no task is unfinished, the map is empty, and each that was had been told not to enter and to drain, or to force-stop iff the wait timed out; tasks no longer in the map are unchanged |
| StrategyManager.DisableKeepsOne | app/strategy_manager.py:142-157 | after a disable no unfinished task of that name remains and only that name is out of the map; tasks of other names that did not end meanwhile are unchanged |
| StrategyManager.DisableCommandStops | app/strategy_manager.py:124-157 | a disable command is reported done, the strategy's task was told to force-stop iff the mode says "force" and else to drain, may not enter, has ended and is out of the map; tasks of other names that did not end meanwhile are unchanged |
| StrategyManager.EnableRunsIff | app/strategy_manager.py:67-88 | after enable the strategy runs iff it was known and not in the map, or its task in the map is unfinished |
| StrategyManager.EnableStartsAFreeTask | app/strategy_manager.py:67-88 | enable changes the state iff the name is known and not in the map, and then only by one new task that may enter and was asked for nothing; it is reported done iff the name is known or in the map |
| StrategyManager.SweepUnblocksEnable | app/strategy_manager.py:159-166 | the sweep keeps in the map exactly the names that run, and right after it an enable leaves any known strategy running |
| StrategyManager.UnknownCommandFails | app/strategy_manager.py:130-140 | an unknown command type is reported failed and does nothing |
| StrategyManager.EnableCanReportDoneWithoutRunning | app/strategy_manager.py:67-88 | a reachable state where a second enable reports done and the strategy does not run |
| StrategyManager.RestartAlwaysRuns | app/strategy_manager.py:127-129 | after restart of a known strategy there is one new task, free to enter, every old one of that name is finished, and the one that was in the map was told to force-stop; an unknown name fails |
| StrategyManager.BatchFinishesItsCommands | app/strategy_manager.py:114-140 | a claimed batch keeps one task per name, and each of its rows ends done or failed by its own execution in the state its predecessors left, other rows unchanged |
| StrategyManager.StrategyManager.Start | app/strategy_manager.py:67-88 | a name in the map is left alone, an unknown one raises, otherwise one new task |
| StrategyManager.StrategyManager.Disable | app/strategy_manager.py:142-157 | asked by mode, awaited to its end, removed from the map |
| StrategyManager.StrategyManager.ExecuteCommand | app/strategy_manager.py:114-140 | which of these a command does, and whether it reports done |
| StrategyManager.StrategyManager.SyncFinishedTasks | app/strategy_manager.py:159-166 | exactly the ended tasks leave the map |
| StrategyManager.StrategyManager.ShutdownStrategies | app/strategy_manager.py:168-192 | drain, wait, and after a timeout force, refine `ShutdownAll` |
| StrategyManager.StrategyManager.ProcessCommands | app/strategy_manager.py:114-140 | the loop refines the batch run `RunBatch` on map and table |
| TradeLifecycle.TradeLifecycleTracker.Begin | execution/trade_lifecycle.py:56-60 | the signal and tick are set and nothing else |
| TradeLifecycle.TradeLifecycleTracker.OnTimeoutCancel | execution/trade_lifecycle.py:86-90 | only the leg's cancel count grows |
| TradeLifecycle.TradeLifecycleTracker.OnEntryFill | execution/trade_lifecycle.py:92-103 | the entry leg's fill fields, the other leg untouched |
| TradeLifecycle.TradeLifecycleTracker.OnExitTrigger | execution/trade_lifecycle.py:105-107 | the last trigger, and whether it was the timeout |
| TradeLifecycle.TradeLifecycleTracker.OnExitFill | execution/trade_lifecycle.py:131-146 | the exit leg's fill fields and the close source |
| StrategyLoop.RandomBaselineStrategy.MakeDecision | strategy/random_baseline/service.py:48-61 | the decision time is recorded, the cooldown kept |
| StrategyLoop.RandomBaselineStrategy.OnPositionClosed | strategy/random_baseline/service.py:63-65 | the cooldown starts, the last decision time is kept |
| StrategyLoop.StrategyLoopControl.RequestDrainStop | app/orchestrator.py:41-43 | drain and no new entries |
| StrategyLoop.StrategyLoopControl.RequestForceStop | app/orchestrator.py:45-47 | force and no new entries |
| Journal.PostgresJournal.FinishRun | persistence/postgres_journal.py:95-96 | one more enqueue attempt |
| CommandQueue.StrategyCommands.EnqueueStrategyCommand | persistence/sqlite_store.py:461-475 | one pending row at the end |
| CommandQueue.StrategyCommands.FinishStrategyCommand | persistence/sqlite_store.py:498-513 | one row becomes done or failed |

## Left out

- HTTP, signing, JSON and error texts of `exchange/okx`: only the error classes 51006, 51169/51170 and 51400 remain.
- SQL text, schema migration, views, JSON payloads and most columns of trade rows; tables are maps and sequences.
- Service events, execution attempts, fill rows, signal rows and the registry's desired and runtime states: written, never read back by the modelled code.
- ExecutorStore.ExecutorStore.SaveOrder: states inserts, updates, terminal updates, parents and signals; the price, size, status and time columns are not kept.
- The waits of a leg (`entry_wait_sec`, `exit_wait_sec`): two subtractions that only feed a metrics column.
- A run without a PostgreSQL journal: order rows and metadata are modelled for a run whose journal is on and has a run id.
- Sleeps and back-off: an iteration's time is whatever its `now` says.
- Asyncio cancellation inside an await and a process crash in the middle of an iteration; a forced stop ends a run between iterations.
- Decimal context precision, float rounding and wall-clock jumps inside a run.
- The client-id prefix test of the sweep and client-id normalisation: the sweep may cancel any set of ids; `new_client_order_id` is taken never to repeat.
- The random side is any side, the fee-fetch timeout any failure of the fetch.
- The tick-size lookup before the loop, the CLI, settings, `control/app.py` and the scaffold packages: nothing hard to state.
- Journal.PostgresJournal.StartRun: a journal started a second time after `stop` is not modelled, because each run creates its own; the 30 s and 15 s waits are any number of worker turns.
- StrategyManager.StrategyManager.Start: the only name that raises is an unknown one; a context that cannot be built for a known strategy is not modelled.
- StrategyManager.StrategyManager.ExecuteCommand: command types are compared as already lower-cased.
- StrategyManager.StrategyManager.Disable: waits for the task to end; that a drained loop does end is `BoundedDrain.DrainStopsInTime`, for fallback on. With fallback off an exit that never fills keeps it going.
- BoundedClose.HeldPositionIsClosedInTime: is about a held position with no entry order out; where both coexist the entry fill can overwrite the position (`Races.EntryFillOverwritesIff`).
- Startup.StartupTracksIff: the "only if" half needs a quiet exchange, because a fill by others can end an order that startup left untracked; the "if" half does not (`StartupTracksIf`).
- Startup.HeldStartupTracksIff: needs a quiet exchange for the same reason.
- Fill prices on the exchange: its orders carry the limit they were placed at, but the loop takes average fill prices as answered; what repriced exits really paid is stated over their fill lists (`Store.RowPricesAllAtTheLastExit`).
