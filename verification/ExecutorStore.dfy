/** persistence/executor_store.py as an object: the tables and slots it updates, each method proved against
    the value-level store. Also the finalizers of execution/trade_finalize.py, which drive it. */
module ExecutorStore {
  import opened Common
  import opened PositionState
  import opened FeeEngine
  import opened TradeLifecycle
  import S = Store

  class ExecutorStore {
    const strategy: string
    var positions: map<Pid, S.PositionRow>
    var meta: map<Pid, S.PositionMeta>
    var results: map<Pid, S.TradeRow>
    var orders: map<Cid, S.OrderRow>
    var lastEntry: Option<Cid>
    var lifecycle: TradeLifecycleTracker?
    ghost var closeWrites: nat
    ghost var resultWrites: nat
    ghost var orphanResults: nat

    /** The tracker in the lifecycle slot, as a value. */
    ghost function Slot(): Option<Lifecycle>
      reads this, lifecycle
    {
      if lifecycle == null then None else Some(lifecycle.View())
    }

    ghost function View(): S.Store
      reads this, lifecycle
    {
      S.Store(strategy, positions, meta, results, orders, lastEntry, Slot(), closeWrites, resultWrites, orphanResults)
    }

    /** The lifecycle slot holds the tracker it held, a new one, or none. */
    twostate predicate KeepsTracker()
      reads this
    {
      lifecycle == null || lifecycle == old(lifecycle) || fresh(lifecycle)
    }

    constructor (strategy: string, positions: map<Pid, S.PositionRow>)
      ensures View() == S.Store(strategy, positions, map[], map[], map[], None, None, 0, 0, 0)
      ensures this.strategy == strategy && lifecycle == null
    {
      this.strategy := strategy;
      this.positions := positions;
      meta, results, orders, lastEntry, lifecycle := map[], map[], map[], None, null;
      closeWrites, resultWrites, orphanResults := 0, 0, 0;
    }

    method BeginTradeLifecycle(signal: Cid, tick: real)
      modifies this`lifecycle
      ensures View() == old(View()).BeginTradeLifecycle(signal, tick)
      ensures fresh(lifecycle)
    {
      lifecycle := new TradeLifecycleTracker();
      lifecycle.Begin(signal, tick);
    }

    method ClearTradeLifecycle()
      modifies this`lifecycle
      ensures View() == old(View()).ClearTradeLifecycle() && lifecycle == null
    {
      lifecycle := null;
    }

    /** A first "submitted" write inserts; everything else updates. */
    method SaveOrder(cid: Cid, status: S.OrderStatus, opens: bool, signal: Option<Cid>, parent: Option<Cid>,
                     position: Option<Pid>)
      modifies this`orders, this`lastEntry, this`meta
      ensures View() == if status.Submitted? then old(View()).SaveSubmitted(cid, opens, signal, parent, position)
                        else old(View()).SaveUpdate(cid, true)
      ensures lifecycle == old(lifecycle)
    {
      var row := if cid in orders then orders[cid] else S.NO_ROW;
      if status.Submitted? && row.inserts == 0 {
        var sig := signal;
        if sig.None? && opens { sig := Some(cid); }
        orders := orders[cid := row.(parent := parent, signal := sig, inserts := row.inserts + 1)];
        if opens {
          lastEntry := Some(cid);
        } else if position.Some? && position.value in meta {
          meta := meta[position.value := meta[position.value].(exitOrder := Some(cid))];
        }
      } else {
        var terminal := if status.Submitted? then 0 else 1;
        orders := orders[cid := row.(updates := row.updates + 1, terminals := row.terminals + terminal)];
      }
    }

    method SavePositionOpen(p: ActivePosition, signal: Option<Cid>, order: Option<Cid>)
      modifies this`positions, this`meta
      ensures View() == old(View()).SavePositionOpen(p, signal, order)
      ensures lifecycle == old(lifecycle)
    {
      positions := positions[p.id := S.PositionRow(strategy, p.side, p.entryPrice, p.entryTs, p.size, None)];
      var entrySignal := signal;
      if entrySignal.None? { entrySignal := lastEntry; }
      var entryOrder := order;
      if entryOrder.None? { entryOrder := entrySignal; }
      meta := meta[p.id := S.PositionMeta(p.side, p.entryPrice, entrySignal, entryOrder, None, None)];
    }

    method SavePositionClose(id: Pid, price: real, ts: int, reason: Reason)
      modifies this`positions, this`meta, this`closeWrites
      ensures View() == old(View()).SavePositionClose(id, price, ts, reason)
      ensures lifecycle == old(lifecycle)
    {
      var x := Some(S.RowExit(price, ts, reason));
      if id in positions { positions := positions[id := positions[id].(exit := x)]; }
      if id in meta { meta := meta[id := meta[id].(exit := x)]; }
      closeWrites := closeWrites + 1;
    }

    method SaveTradeResult(id: Pid, row: S.TradeRow)
      modifies this`results, this`resultWrites, this`orphanResults
      ensures View() == old(View()).SaveTradeResult(id, row)
      ensures lifecycle == old(lifecycle)
    {
      results := results[id := row];
      if id in meta { resultWrites := resultWrites + 1; } else { orphanResults := orphanResults + 1; }
    }

    method CloseOpenPositionReconciled(id: Pid, ts: int)
      modifies this`positions
      ensures View() == old(View()).CloseOpenPositionReconciled(id, ts)
      ensures lifecycle == old(lifecycle)
    {
      if id in positions && positions[id].exit.None? {
        positions := positions[id := positions[id].(exit := Some(S.RowExit(positions[id].entryPrice, ts,
            NoExchangePosition)))];
      }
    }

    // -------------------------------------------------------------- execution/trade_finalize.py

    /** Close row, trade row, empty slot, in this order. */
    method FinalizeClosedTrade(cfg: Config, p: ActivePosition, lc: TradeLifecycleTracker, exitPrice: real,
                               closedAt: int, fills: S.FillsReply, raw: Option<Reason>, source: CloseSource)
      modifies this
      ensures View() == S.FinalizeClosedTrade(cfg, old(View()), p, old(lc.View()), exitPrice, closedAt, fills, raw,
                source)
      ensures lifecycle == null
    {
      var reason := S.NormalizeExitReason(if lc.trigger.Some? then lc.trigger else raw);
      var estimate := EstimateFees(p.entryPrice, exitPrice, p.size, false, lc.exitMarket, cfg.makerRate, cfg.takerRate);
      var row := S.BuildTradeRow(p, lc.View(), exitPrice, closedAt, ResolveFees(fills, estimate), reason, source);
      SavePositionClose(p.id, exitPrice, closedAt, reason);
      SaveTradeResult(p.id, row);
      ClearTradeLifecycle();
    }

    method FinalizeReconciledClose(cfg: Config, p: ActivePosition, exitPrice: real, closedAt: int, fills: S.FillsReply)
      modifies this, lifecycle
      ensures View() == S.FinalizeReconciledClose(cfg, old(View()), p, exitPrice, closedAt, fills)
      ensures lifecycle == null
    {
      var lc := lifecycle;
      if lc == null { lc := new TradeLifecycleTracker(); }
      lc.closeSource := Some(OkxReconcile);
      if lc.trigger.None? { lc.trigger := Some(Reconcile); }
      lc.exit := lc.exit.(filledPx := Some(exitPrice), filledAt := Some(closedAt));
      FinalizeClosedTrade(cfg, p, lc, exitPrice, closedAt, fills, Some(Reconcile), OkxReconcile);
    }
  }
}
