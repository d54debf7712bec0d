/** persistence/executor_store.py and the tables of persistence/sqlite_store.py it writes, as a value:
    what each write leaves behind. Class `ExecutorStore` is the object that does the writing. */
module Store {
  import opened Common
  import opened PositionState
  import opened TradeLifecycle
  import opened FeeEngine

  datatype RowExit = RowExit(price: real, ts: int, reason: Reason)

  /** A row of `positions`; open while it has no exit. */
  datatype PositionRow = PositionRow(
    strategy: string, side: Side, entryPrice: real, entryTs: int, size: real, exit: Option<RowExit>)

  /** `PositionMeta`: what the journal needs to complete a trade row later. */
  datatype PositionMeta = PositionMeta(
    side: Side, entryPrice: real, entrySignal: Option<Cid>, entryOrder: Option<Cid>, exitOrder: Option<Cid>,
    exit: Option<RowExit>)

  /** What the journal holds about one client order id: its insert, and the updates that followed. */
  datatype OrderRow = OrderRow(parent: Option<Cid>, signal: Option<Cid>, inserts: nat, updates: nat, terminals: nat)

  const NO_ROW := OrderRow(None, None, 0, 0, 0)

  datatype OrderStatus = Submitted | OrderFilled | OrderCanceled | OrderRejected

  datatype TradeRow = TradeRow(
    side: Side, size: real, gross: real, fees: FeeBreakdown, net: real, holding: int,
    reason: Reason, source: CloseSource, signal: Option<Cid>, entrySlippage: Option<real>, exitSlippage: Option<real>,
    makerAttempts: nat)

  datatype Store = Store(
    strategy: string,
    positions: map<Pid, PositionRow>,
    meta: map<Pid, PositionMeta>,
    results: map<Pid, TradeRow>,
    orders: map<Cid, OrderRow>,
    lastEntry: Option<Cid>,
    lifecycle: Option<Lifecycle>,
    closeWrites: nat,
    resultWrites: nat,
    orphanResults: nat)
  {
    /** The held position is journalled: an open row and an entry in the metadata. */
    predicate Covers(id: Pid) {
      id in positions && positions[id].exit.None? && positions[id].strategy == strategy && id in meta
    }

    function BeginTradeLifecycle(signal: Cid, tick: real): Store {
      this.(lifecycle := Some(NEW_LIFECYCLE.Begin(signal, tick)))
    }

    function ClearTradeLifecycle(): Store { this.(lifecycle := None) }

    /** First submission of a client id: one insert. A second "submitted" write becomes an update. */
    function SaveSubmitted(cid: Cid, opens: bool, signal: Option<Cid>, parent: Option<Cid>,
                           position: Option<Pid>): Store
    {
      if cid in orders && orders[cid].inserts > 0 then SaveUpdate(cid, false)
      else
        var row := if cid in orders then orders[cid] else NO_ROW;
        var sig := if signal.Some? then signal else if opens then Some(cid) else None;
        var s := this.(orders := orders[cid := row.(parent := parent, signal := sig, inserts := row.inserts + 1)]);
        if opens then s.(lastEntry := Some(cid))
        else if position.Some? && position.value in meta then
          s.(meta := meta[position.value := meta[position.value].(exitOrder := Some(cid))])
        else s
    }

    function SaveUpdate(cid: Cid, terminal: bool): Store {
      var row := if cid in orders then orders[cid] else NO_ROW;
      this.(orders := orders[cid := row.(updates := row.updates + 1,
          terminals := row.terminals + if terminal then 1 else 0)])
    }

    /** `INSERT OR REPLACE`: a row with this id becomes open again; the metadata starts afresh. */
    function SavePositionOpen(p: ActivePosition, signal: Option<Cid>, order: Option<Cid>): Store {
      var entrySignal := if signal.Some? then signal else lastEntry;
      var entryOrder := if order.Some? then order else entrySignal;
      this.(positions := positions[p.id := PositionRow(strategy, p.side, p.entryPrice, p.entryTs, p.size, None)],
            meta := meta[p.id := PositionMeta(p.side, p.entryPrice, entrySignal, entryOrder, None, None)])
    }

    function SavePositionClose(id: Pid, price: real, ts: int, reason: Reason): Store {
      var x := Some(RowExit(price, ts, reason));
      this.(positions := if id in positions then positions[id := positions[id].(exit := x)] else positions,
            meta := if id in meta then meta[id := meta[id].(exit := x)] else meta,
            closeWrites := closeWrites + 1)
    }

    /** The journal's trade row is skipped when the position has no metadata. */
    function SaveTradeResult(id: Pid, row: TradeRow): Store {
      this.(results := results[id := row],
            resultWrites := resultWrites + if id in meta then 1 else 0,
            orphanResults := orphanResults + if id in meta then 0 else 1)
    }

    /** Startup close of a row the exchange knows nothing about: only an open row changes, at its entry price. */
    function CloseOpenPositionReconciled(id: Pid, ts: int): Store {
      if id in positions && positions[id].exit.None? then
        this.(positions := positions[id := positions[id].(exit := Some(RowExit(positions[id].entryPrice, ts,
            NoExchangePosition)))])
      else this
    }
  }

  /** Two "submitted" writes of one client id: the first one's parent and signal stay, the second is only an update and
      moves neither the last entry nor any position's exit order. */
  lemma OrdersAreInsertedOnce(s: Store, cid: Cid, opens: bool, signal: Option<Cid>, parent: Option<Cid>,
                              position: Option<Pid>, opens': bool, signal': Option<Cid>, parent': Option<Cid>,
                              position': Option<Pid>)
    requires cid !in s.orders
    ensures var once := s.SaveSubmitted(cid, opens, signal, parent, position);
            var twice := once.SaveSubmitted(cid, opens', signal', parent', position');
            var sig := if signal.None? && opens then Some(cid) else signal;
            && cid in once.orders && once.orders[cid] == OrderRow(parent, sig, 1, 0, 0)
            && cid in twice.orders && twice.orders[cid] == OrderRow(parent, sig, 1, 1, 0)
            && (once.lastEntry == if opens then Some(cid) else s.lastEntry) && once.lastEntry == twice.lastEntry
            && once.meta == twice.meta
  {
    assert s.SaveSubmitted(cid, opens, signal, parent, position).orders[cid].inserts == 1;
  }

  // ---------------------------------------------------------------- execution/trade_finalize.py

  function NormalizeExitReason(raw: Option<Reason>): Reason {
    match raw
    case None => Unknown
    case Some(SyncLost) => Reconcile
    case Some(Reconciled) => Reconcile
    case Some(MakerExit) => Unknown
    case Some(r) => r
  }

  function BuildTradeRow(p: ActivePosition, lc: Lifecycle, exitPrice: real, closedAt: int, fees: FeeBreakdown,
                         reason: Reason, source: CloseSource): TradeRow {
    var gross := GrossPnl(p.side, p.entryPrice, exitPrice, p.size);
    TradeRow(p.side, p.size, gross, fees, gross - fees.totalFee, closedAt - p.entryTs, reason, source, lc.entrySignal,
      SlippageTicks(lc.entry.filledPx, lc.entry.touchPx, lc.tick, Entry, p.side),
      SlippageTicks(lc.exit.filledPx, lc.exit.touchPx, lc.tick, Exit, p.side),
      lc.makerAttempts)
  }

  /** The numbers of a trade row account for each other: what the touches promised, less the slippage of both legs,
      less the fees, is the net result. */
  lemma TradeRowAccounts(p: ActivePosition, lc: Lifecycle, exitPrice: real, closedAt: int, fees: FeeBreakdown,
                         reason: Reason, source: CloseSource)
    requires lc.tick.Some? && lc.tick.value > 0.0 && lc.entry.touchPx.Some? && lc.exit.touchPx.Some?
    requires lc.entry.filledPx == Some(p.entryPrice) && lc.exit.filledPx == Some(exitPrice)
    ensures var row := BuildTradeRow(p, lc, exitPrice, closedAt, fees, reason, source);
            && row.entrySlippage.Some? && row.exitSlippage.Some?
            && row.net == GrossPnl(p.side, lc.entry.touchPx.value, lc.exit.touchPx.value, p.size)
                          - (row.entrySlippage.value + row.exitSlippage.value) * lc.tick.value * p.size - fees.totalFee
  {
    SlippageExplainsPnl(p.side, lc.entry.touchPx.value, p.entryPrice, lc.exit.touchPx.value, exitPrice, lc.tick.value,
        p.size);
  }

  /** What the exit fills of a position really paid, each at its own price. */
  function CashFlow(p: ActivePosition, fills: seq<OkxFill>): real {
    if fills == [] then 0.0
    else
      var n := |fills| - 1;
      CashFlow(p, fills[..n]) + GrossPnl(p.side, p.entryPrice, fills[n].px, fills[n].sz)
  }

  lemma {:induction false} CashFlowIs(p: ActivePosition, fills: seq<OkxFill>)
    ensures var moved := Notional(fills) - p.entryPrice * Size(fills);
            CashFlow(p, fills) == if p.side.Long? then moved else -moved
  {
    if fills != [] {
      var n := |fills| - 1;
      CashFlowIs(p, fills[..n]);
      assert p.entryPrice * Size(fills) == p.entryPrice * Size(fills[..n]) + p.entryPrice * fills[n].sz;
    }
  }

  lemma GrossAgainstCash(side: Side, entry: real, px: real, size1: real, paid1: real, size2: real, paid2: real)
    requires px * size2 == paid2
    ensures var moved := paid1 + paid2 - entry * (size1 + size2);
            var cash := if side.Long? then moved else -moved;
            GrossPnl(side, entry, px, size1 + size2) == cash <==> paid1 == px * size1
  {
    assert (px - entry) * (size1 + size2) == px * size1 + px * size2 - entry * (size1 + size2);
    assert (entry - px) * (size1 + size2) == entry * (size1 + size2) - px * size1 - px * size2;
  }

  lemma NothingEarlier(px: real)
    ensures Notional([]) == px * Size([])
  {
  }

  lemma LegAtAverage(fills: seq<OkxFill>)
    requires Vwap(fills).Some?
    ensures Vwap(fills).value * Size(fills) == Notional(fills)
  {
  }

  lemma GrossIsCashIff(p: ActivePosition, earlier: seq<OkxFill>, last: seq<OkxFill>)
    requires Vwap(last).Some? && p.size == Size(earlier + last)
    ensures var px := Vwap(last).value;
            GrossPnl(p.side, p.entryPrice, px, p.size) == CashFlow(p, earlier + last) <==>
              Notional(earlier) == px * Size(earlier)
  {
    hide GrossPnl, CashFlow, Vwap, Sum;
    SumIsAdditive(earlier, last, SizeOf);
    SumIsAdditive(earlier, last, ValueOf);
    CashFlowIs(p, earlier + last);
    LegAtAverage(last);
    var px := Vwap(last).value;
    GrossAgainstCash(p.side, p.entryPrice, px, Size(earlier), Notional(earlier), Size(last), Notional(last));
  }

  /** A repriced exit may have filled in parts, `earlier` on predecessors and `last` on the order that completed it. The
      row prices the whole position at the last order's average and asks for that order's fills only: its gross is the
      cash flow exactly when the earlier fills came to the same average, in particular when there are none, and its
      exit fee leaves out exactly the earlier fees. */
  lemma RowPricesAllAtTheLastExit(p: ActivePosition, lc: Lifecycle, entryFills: seq<OkxFill>, earlier: seq<OkxFill>,
                                  last: seq<OkxFill>, closedAt: int, reason: Reason, source: CloseSource)
    requires Vwap(last).Some? && p.size == Size(earlier + last)
    ensures var px := Vwap(last).value;
            var row := BuildTradeRow(p, lc, px, closedAt, FeesFromOkxFills(entryFills, last), reason, source);
            && (row.gross == CashFlow(p, earlier + last) <==> Notional(earlier) == px * Size(earlier))
            && (earlier == [] ==> row.gross == CashFlow(p, earlier + last))
            && row.fees.exitFee + TotalFee(earlier) == TotalFee(earlier + last)
  {
    hide SlippageTicks, Vwap, Sum, GrossPnl, CashFlow, MainLiquidity, FirstCcy;
    var px := Vwap(last).value;
    SumIsAdditive(earlier, last, FeeOf);
    GrossIsCashIff(p, earlier, last);
    if earlier == [] { NothingEarlier(px); }
  }

  /** The exchange's fills for both legs, or why they could not be had. */
  type FillsReply = Reply<(seq<OkxFill>, seq<OkxFill>)>

  function FinalizeClosedTrade(cfg: Config, s: Store, p: ActivePosition, lc: Lifecycle, exitPrice: real,
                               closedAt: int, fills: FillsReply, raw: Option<Reason>, source: CloseSource): Store {
    var reason := NormalizeExitReason(if lc.trigger.Some? then lc.trigger else raw);
    var estimate := EstimateFees(p.entryPrice, exitPrice, p.size, false, lc.exitMarket, cfg.makerRate, cfg.takerRate);
    var row := BuildTradeRow(p, lc, exitPrice, closedAt, ResolveFees(fills, estimate), reason, source);
    s.SavePositionClose(p.id, exitPrice, closedAt, reason).SaveTradeResult(p.id, row).ClearTradeLifecycle()
  }

  function FinalizeReconciledClose(cfg: Config, s: Store, p: ActivePosition, exitPrice: real, closedAt: int,
                                   fills: FillsReply): Store
  {
    var lc := if s.lifecycle.Some? then s.lifecycle.value else NEW_LIFECYCLE;
    FinalizeClosedTrade(cfg, s, p, lc.OnReconciledClose(exitPrice, closedAt), exitPrice, closedAt, fills,
        Some(Reconcile), OkxReconcile)
  }

  /** A close without a fill is written as "reconcile" only when no exit had been triggered before it: a
      recorded trigger survives as the written reason. The row is closed at the given price and time,
      the trade row carries net = gross - fees, and nothing else in the tables moves. */
  lemma ReconciledCloseWritesTrigger(cfg: Config, s: Store, p: ActivePosition, exitPrice: real, closedAt: int,
                                     fills: FillsReply)
    requires s.Covers(p.id)
    requires s.lifecycle.Some? && s.lifecycle.value.trigger.Some? ==>
               s.lifecycle.value.trigger.value in {Timeout, Tp, Sl}
    ensures var s' := FinalizeReconciledClose(cfg, s, p, exitPrice, closedAt, fills);
            var triggered := s.lifecycle.Some? && s.lifecycle.value.trigger.Some?;
            && s'.positions.Keys == s.positions.Keys
            && s'.positions[p.id].exit.Some? && p.id in s'.results
            && s'.results[p.id].reason == s'.positions[p.id].exit.value.reason
            && (s'.results[p.id].reason == Reconcile <==> !triggered)
            && (triggered ==> s'.results[p.id].reason == s.lifecycle.value.trigger.value)
            && s'.results[p.id].net == s'.results[p.id].gross - s'.results[p.id].fees.totalFee
            && s'.results[p.id].source == OkxReconcile
            && s'.lifecycle.None? && s'.orphanResults == s.orphanResults
            && (forall q :: q in s.positions && q != p.id ==> s'.positions[q] == s.positions[q])
  {
  }
}
