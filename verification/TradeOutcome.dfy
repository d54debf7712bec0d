/** What a fill makes of the books: the price it counts at, the position it opens, the rows a close writes and the fees
    it charges. */
module TradeOutcome {
  import opened Common
  import opened PositionState
  import opened Exchange
  import opened FeeEngine
  import opened TradeLifecycle
  import opened Store
  import opened RunLoop

  // ---------------------------------------------------------------- the row of a closed trade

  /** What the exit earned before fees. */
  predicate GrossOf(p: ActivePosition, exitPrice: real, gross: real) {
    if p.side.Long? then gross == exitPrice * p.size - p.entryPrice * p.size
    else gross == p.entryPrice * p.size - exitPrice * p.size
  }

  /** Both legs by their fills when the exchange lists any, else by the configured rates: the entry always as a maker,
      the exit as a taker when its last order was a market order. */
  predicate FeesOf(cfg: Config, p: ActivePosition, exitPrice: real, exitMarket: bool, fills: FillsReply,
                   fees: FeeBreakdown)
  {
    if fills.Ok? && (fills.value.0 != [] || fills.value.1 != []) then
      && fees.entryFee == TotalFee(fills.value.0) && fees.exitFee == TotalFee(fills.value.1) && fees.fromFills
      && fees.entryAvgPx == Vwap(fills.value.0) && fees.exitAvgPx == Vwap(fills.value.1)
    else
      && fees.entryFee == p.entryPrice * p.size * cfg.makerRate && !fees.fromFills
      && fees.exitFee == exitPrice * p.size * (if exitMarket then cfg.takerRate else cfg.makerRate)
      && fees.entryAvgPx == Some(p.entryPrice) && fees.exitAvgPx == Some(exitPrice)
  }

  /** Both rows of a closed trade: the position's exit at the price, time and reason, and the result that goes with
      it. */
  predicate ClosedAs(cfg: Config, s: Store, p: ActivePosition, exitPrice: real, now: int, exitMarket: bool,
                     fills: FillsReply, reason: Reason, source: CloseSource)
  {
    && p.id in s.positions && s.positions[p.id].exit == Some(RowExit(exitPrice, now, reason))
    && p.id in s.results
    && var row := s.results[p.id];
       && row.side == p.side && row.size == p.size && row.holding == now - p.entryTs
       && GrossOf(p, exitPrice, row.gross)
       && FeesOf(cfg, p, exitPrice, exitMarket, fills, row.fees)
       && row.fees.totalFee == row.fees.entryFee + row.fees.exitFee
       && row.net + row.fees.totalFee == row.gross
       && row.reason == reason && row.source == source
  }

  /** The reason as the journal spells it: both spellings of a lost synchronisation become a reconcile, a maker exit and
      a missing reason become unknown. */
  predicate SpelledAs(raw: Option<Reason>, written: Reason) {
    match raw
    case None => written == Unknown
    case Some(r) =>
      if r == SyncLost || r == Reconciled then written == Reconcile
      else if r == MakerExit then written == Unknown
      else written == r
  }

  function EntrySlippage(p: ActivePosition, lc: Lifecycle): Option<real> {
    SlippageTicks(lc.entry.filledPx, lc.entry.touchPx, lc.tick, Entry, p.side)
  }

  /** What the tracker adds to a closed trade: its signal, its attempts, the entry's slippage, and the exit's slippage
      at the price the close counts at. */
  predicate TrackedAs(row: TradeRow, p: ActivePosition, lc: Option<Lifecycle>, exitPrice: real) {
    match lc
    case None => row.signal.None? && row.makerAttempts == 0 && row.entrySlippage.None? && row.exitSlippage.None?
    case Some(t) =>
      && row.signal == t.entrySignal && row.makerAttempts == t.makerAttempts
      && row.entrySlippage == EntrySlippage(p, t)
      && row.exitSlippage == SlippageTicks(Some(exitPrice), t.exit.touchPx, t.tick, Exit, p.side)
  }

  lemma GrossPnlIs(p: ActivePosition, exitPrice: real)
    ensures GrossOf(p, exitPrice, GrossPnl(p.side, p.entryPrice, exitPrice, p.size))
  {
    assert (exitPrice - p.entryPrice) * p.size == exitPrice * p.size - p.entryPrice * p.size;
    assert (p.entryPrice - exitPrice) * p.size == p.entryPrice * p.size - exitPrice * p.size;
  }

  lemma FeesAreResolved(cfg: Config, p: ActivePosition, exitPrice: real, exitMarket: bool, fills: FillsReply)
    ensures var rates := (cfg.makerRate, cfg.takerRate);
            var estimate := EstimateFees(p.entryPrice, exitPrice, p.size, false, exitMarket, rates.0, rates.1);
            var fees := ResolveFees(fills, estimate);
            && FeesOf(cfg, p, exitPrice, exitMarket, fills, fees)
            && fees.totalFee == fees.entryFee + fees.exitFee
  {
  }

  /** A finalized trade: its trigger, if the tracker has one, decides the reason, and the journal gets its row exactly
      when the position has metadata. */
  lemma FinalizedTradeIs(cfg: Config, s: Store, p: ActivePosition, lc: Lifecycle, exitPrice: real, now: int,
                         fills: FillsReply, raw: Option<Reason>, source: CloseSource)
    requires p.id in s.positions
    ensures var s' := FinalizeClosedTrade(cfg, s, p, lc, exitPrice, now, fills, raw, source);
            var reason := s'.results[p.id].reason;
            && SpelledAs(if lc.trigger.Some? then lc.trigger else raw, reason)
            && ClosedAs(cfg, s', p, exitPrice, now, lc.exitMarket, fills, reason, source)
            && s'.results[p.id].signal == lc.entrySignal && s'.results[p.id].makerAttempts == lc.makerAttempts
            && s'.results[p.id].entrySlippage == EntrySlippage(p, lc)
            && s'.results[p.id].exitSlippage == SlippageTicks(lc.exit.filledPx, lc.exit.touchPx, lc.tick, Exit, p.side)
            && s'.lifecycle.None? && s'.closeWrites == s.closeWrites + 1
            && s'.resultWrites + s'.orphanResults == s.resultWrites + s.orphanResults + 1
            && (s'.resultWrites > s.resultWrites <==> p.id in s.meta)
            && (forall q :: q in s.positions && q != p.id ==> q in s'.positions && s'.positions[q] == s.positions[q])
            && (forall q :: q in s.results && q != p.id ==> q in s'.results && s'.results[q] == s.results[q])
  {
    hide GrossPnl, EstimateFees, ResolveFees, FeesOf, GrossOf, SlippageTicks;
    GrossPnlIs(p, exitPrice);
    FeesAreResolved(cfg, p, exitPrice, lc.exitMarket, fills);
  }

  /** A close without a fill: the same rows at the given price, sourced to the reconcile. */
  lemma ReconciledTradeIs(cfg: Config, s: Store, p: ActivePosition, exitPrice: real, now: int, fills: FillsReply)
    requires p.id in s.positions
    ensures var s' := FinalizeReconciledClose(cfg, s, p, exitPrice, now, fills);
            var lc := s.lifecycle;
            var reason := s'.results[p.id].reason;
            var market := lc.Some? && lc.value.exitMarket;
            && (if lc.Some? && lc.value.trigger.Some? then SpelledAs(lc.value.trigger, reason) else reason == Reconcile)
            && ClosedAs(cfg, s', p, exitPrice, now, market, fills, reason, OkxReconcile)
            && TrackedAs(s'.results[p.id], p, lc, exitPrice)
  {
    hide FinalizeClosedTrade, ClosedAs;
    var lc := if s.lifecycle.Some? then s.lifecycle.value else NEW_LIFECYCLE;
    var closing := lc.OnReconciledClose(exitPrice, now);
    FinalizedTradeIs(cfg, s, p, closing, exitPrice, now, fills, Some(Reconcile), OkxReconcile);
  }

  // ---------------------------------------------------------------- fills found by the poll

  /** The price a fill counts at: the reported average, else the order's own price, else the ticker; zero counts as
      missing. */
  function FillPrice(avgPx: Option<real>, px: Option<real>, last: real): real {
    if avgPx.Some? && avgPx.value != 0.0 then avgPx.value
    else if px.Some? && px.value != 0.0 then px.value
    else last
  }

  predicate FoundFilled(s: State, io: Io) {
    && s.order.Some? && io.poll.reply.PollFound?
    && var ex := Evolve(s.ex, io.poll.env);
       s.order.value.orderId < |ex.orders| && ex.orders[s.order.value.orderId].state.Filled?
  }

  function FilledOrder(s: State, io: Io): ExOrder
    requires FoundFilled(s, io)
  {
    Evolve(s.ex, io.poll.env).orders[s.order.value.orderId]
  }

  /** The position as a fill must have opened it: side and size of the order, the price, targets and deadline at their
      distances from it. */
  predicate OpenedBy(cfg: Config, p: ActivePosition, x: ExOrder, price: real, now: int) {
    && (p.side.Long? <==> x.side.Buy?)
    && p.size == (if x.filled > 0.0 then x.filled else cfg.orderSize)
    && p.entryPrice == price && p.entryTs == now && p.timeoutAt == now + cfg.timeoutSec && p.attempts == 0
    && var toTarget, toStop := cfg.tick * cfg.takeProfitTicks as real, cfg.tick * cfg.stopLossTicks as real;
       if p.side.Long? then p.tpPrice - price == toTarget && price - p.slPrice == toStop
       else price - p.tpPrice == toTarget && p.slPrice - price == toStop
  }

  /** An entry found filled: the position is opened at the fill's price and journalled with its order and signal. */
  lemma EntryFillOpensAt(cfg: Config, s: State, last: real, flags: Flags, io: Io)
    requires cfg.grid > 0.0 && FoundFilled(s, io) && s.order.value.purpose.Entry?
    ensures var o := s.order.value;
            var price := FillPrice(io.poll.reply.avgPx, io.poll.reply.px, last);
            var s' := Poll(cfg, s, last, flags, io).s;
            && s'.order.None? && s'.position.Some?
            && var p := s'.position.value;
               && p.id == Fresh(s.nextId) && OpenedBy(cfg, p, FilledOrder(s, io), price, io.now)
               && p.id in s'.store.positions
               && s'.store.positions[p.id] == PositionRow(s.store.strategy, p.side, price, io.now, p.size, None)
               && p.id in s'.store.meta && s'.store.meta[p.id].entryOrder == Some(o.clientId)
               && (s.store.lifecycle.Some? ==>
                     && s'.store.lifecycle.Some?
                     && s'.store.lifecycle.value.entry.filledPx == Some(price)
                     && s'.store.lifecycle.value.position == Some(p.id))
  {
    hide Evolve;
  }

  /** An exit found filled: the position is gone, its rows carry the fill's price and its gross, and the cooldown
      runs. */
  lemma ExitFillClosesAt(cfg: Config, s: State, last: real, flags: Flags, io: Io)
    requires cfg.grid > 0.0 && FoundFilled(s, io) && s.order.value.purpose.Exit?
    requires s.position.Some? && s.position.value.id in s.store.positions
    ensures var p := s.position.value;
            var lc := s.store.lifecycle;
            var price := FillPrice(io.poll.reply.avgPx, io.poll.reply.px, last);
            var s' := Poll(cfg, s, last, flags, io).s;
            && s'.order.None? && s'.position.None?
            && s'.timers.cooldownUntil == Some(io.now + cfg.cooldownSec)
            && p.id in s'.store.results
            && var reason := s'.store.results[p.id].reason;
               var source := if lc.Some? && lc.value.fallbackUsed then ExecutorMarketFallback else ExecutorMaker;
               && SpelledAs(if lc.Some? then lc.value.trigger else None, reason)
               && ClosedAs(cfg, s'.store, p, price, io.now, lc.Some? && lc.value.exitMarket, io.fills, reason, source)
               && TrackedAs(s'.store.results[p.id], p, lc, price)
  {
    hide Evolve, FinalizeClosedTrade, ClosedAs;
    var o := s.order.value;
    var aged := s.(ex := Evolve(s.ex, io.poll.env));
    var price := FillPrice(io.poll.reply.avgPx, io.poll.reply.px, last);
    assert price == Or(io.poll.reply.avgPx, Or(io.poll.reply.px, Some(last))).value;
    FilledExitCloses(cfg, aged, o, price, io);
    UpdateWritesNoTrade(cfg, OnExitFilled(cfg, aged, o, price, io).store, o.clientId, s.position.value, price, io);
  }

  lemma FilledExitCloses(cfg: Config, s: State, o: ActiveOrder, price: real, io: Io)
    requires s.position.Some? && s.position.value.id in s.store.positions
    ensures var p := s.position.value;
            var lc := s.store.lifecycle;
            var s' := OnExitFilled(cfg, s, o, price, io);
            && s'.position.None? && s'.timers.cooldownUntil == Some(io.now + cfg.cooldownSec)
            && p.id in s'.store.results
            && var reason := s'.store.results[p.id].reason;
               var source := if lc.Some? && lc.value.fallbackUsed then ExecutorMarketFallback else ExecutorMaker;
               && SpelledAs(if lc.Some? then lc.value.trigger else None, reason)
               && ClosedAs(cfg, s'.store, p, price, io.now, lc.Some? && lc.value.exitMarket, io.fills, reason, source)
               && TrackedAs(s'.store.results[p.id], p, lc, price)
  {
    hide FinalizeClosedTrade;
    var lc := if s.store.lifecycle.Some? then s.store.lifecycle.value else NEW_LIFECYCLE;
    var source := if lc.fallbackUsed then ExecutorMarketFallback else ExecutorMaker;
    var filled := lc.OnExitFill(price, o.orderId, o.clientId, io.now, source);
    FinalizedTradeIs(cfg, s.store, s.position.value, filled, price, io.now, io.fills, lc.trigger, source);
  }

  lemma UpdateWritesNoTrade(cfg: Config, st: Store, cid: Cid, p: ActivePosition, price: real, io: Io)
    ensures st.SaveUpdate(cid, true).results == st.results
    ensures forall market, reason, source ::
              ClosedAs(cfg, st, p, price, io.now, market, io.fills, reason, source) ==>
                ClosedAs(cfg, st.SaveUpdate(cid, true), p, price, io.now, market, io.fills, reason, source)
  {
  }

  /** A position closed because the exchange turned out flat, after a reject of its exit or of a reprice: its rows carry
      the last ticker price. */
  lemma SyncClosesAtTheTicker(cfg: Config, s: State, last: real, io: Io)
    requires s.position.Some? && s.position.value.id in s.store.positions
    ensures var p := s.position.value;
            var lc := s.store.lifecycle;
            var s' := CloseBySync(cfg, s, last, io);
            && s'.position.None? && s'.timers.cooldownUntil == Some(io.now + cfg.cooldownSec)
            && p.id in s'.store.results
            && ClosedAs(cfg, s'.store, p, last, io.now, lc.Some? && lc.value.exitMarket, io.fills,
                        s'.store.results[p.id].reason, OkxReconcile)
            && TrackedAs(s'.store.results[p.id], p, lc, last)
  {
    hide FinalizeReconciledClose, ClosedAs, SpelledAs;
    var p := s.position.value;
    var st := FinalizeReconciledClose(cfg, s.store, p, last, io.now, io.fills);
    ReconciledTradeIs(cfg, s.store, p, last, io.now, io.fills);
    ClosedHasResult(cfg, s, last, io);
    assert CloseBySync(cfg, s, last, io).store == st;
  }

  lemma ClosedHasResult(cfg: Config, s: State, last: real, io: Io)
    requires s.position.Some? && s.position.value.id in s.store.positions
    ensures var p := s.position.value;
            p.id in FinalizeReconciledClose(cfg, s.store, p, last, io.now, io.fills).results
  {
  }

  /** The rows of a position closed without a fill, whichever reject led to it: the ticker's price, and the trigger that
      was due as the reason. */
  predicate SyncClosed(cfg: Config, s: State, s': State, last: real, io: Io)
    requires s.position.Some?
  {
    var p := s.position.value;
    var market := s.store.lifecycle.Some? && s.store.lifecycle.value.exitMarket;
    && s'.position.None? && s'.timers.cooldownUntil == Some(io.now + cfg.cooldownSec)
    && p.id in s'.store.results
    && ClosedAs(cfg, s'.store, p, last, io.now, market, io.fills, s'.store.results[p.id].reason, OkxReconcile)
    && TrackedAs(s'.store.results[p.id], p, s.store.lifecycle, last)
  }

  lemma RejectedExitClosesAtTheTicker(cfg: Config, s: State, last: real, flags: Flags, io: Io)
    requires cfg.grid > 0.0 && s.position.Some? && s.position.value.id in s.store.positions
    ensures var s' := Leave(cfg, s, last, flags, io).s; s'.position.None? ==> SyncClosed(cfg, s, s', last, io)
  {
    hide Evolve, ResolveMakerPrice, CloseBySync, TrackExit, ClosedAs, CheckExitReason, ShouldUseMarketExit;
    var reason := CheckExitReason(s.position.value, last, io.now);
    if reason.Some? {
      var lc := s.store.lifecycle;
      var s1 := if lc.None? then s else WithLifecycle(s, Some(lc.value.OnExitTrigger(reason.value)));
      SyncClosesAtTheTicker(cfg, s1.(nextId := s.nextId + 1, ex := Evolve(s.ex, io.submit.env)), last, io);
      TrackedExitIsHeld(s1, io);
    }
  }

  lemma TrackedExitIsHeld(s: State, io: Io)
    requires s.position.Some?
    ensures forall s1: State, cid, price, market ::
              s1.position == s.position ==>
                TrackExit(s1, s.position.value, cid, price, market, io.now).position == s.position
  {
  }

  lemma RejectedRepriceClosesAtTheTicker(cfg: Config, s: State, o: ActiveOrder, last: real, flags: Flags, io: Io)
    requires cfg.grid > 0.0 && s.order == Some(o) && s.position.Some? && s.position.value.id in s.store.positions
    ensures var s' := Reprice(cfg, s, o, last, flags, io).s; s'.position.None? ==> SyncClosed(cfg, s, s', last, io)
  {
    hide Evolve, Cancel, ResolveMakerPrice, CloseBySync, ClosedAs;
    var cancelled := Cancel(Evolve(s.ex, io.work.cancelEnv), o.clientId);
    var placing := s.(nextId := s.nextId + 1, ex := Evolve(cancelled, io.reprice.env));
    SyncClosesAtTheTicker(cfg, DropOrder(placing, o), last, io);
  }
}
