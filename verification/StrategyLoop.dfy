/** app/orchestrator.py as it is written: a loop over fields, one method per stretch of its body, each proved to
    move the state as the corresponding function of module RunLoop does. */
module StrategyLoop {
  import opened Common
  import opened PositionState
  import opened Exchange
  import opened TradeLifecycle
  import opened RunLoop
  import opened ExecutorStore
  import OrderTracking
  import PositionLedger
  import S = Store

  /** strategy/random_baseline/service.py. */
  class RandomBaselineStrategy {
    var lastDecision: Option<int>
    var cooldownUntil: Option<int>

    function View(): Timers
      reads this
    {
      Timers(lastDecision, cooldownUntil)
    }

    constructor ()
      ensures View() == Timers(None, None)
    {
      lastDecision, cooldownUntil := None, None;
    }

    method MakeDecision(now: int)
      modifies this
      ensures View() == old(View()).(lastDecision := Some(now))
    {
      lastDecision := Some(now);
    }

    method OnPositionClosed(cfg: Config, now: int)
      modifies this
      ensures View() == old(View()).(cooldownUntil := Some(now + cfg.cooldownSec))
    {
      cooldownUntil := Some(now + cfg.cooldownSec);
    }
  }

  class StrategyLoopControl {
    var mode: StopMode
    var allowNew: bool

    function View(): Control
      reads this
    {
      Control(mode, allowNew)
    }

    constructor ()
      ensures View() == Control(NoStop, true)
    {
      mode, allowNew := NoStop, true;
    }

    method RequestDrainStop()
      modifies this
      ensures View() == Control(Drain, false)
    {
      mode, allowNew := Drain, false;
    }

    method RequestForceStop()
      modifies this
      ensures View() == Control(Force, false)
    {
      mode, allowNew := Force, false;
    }

    /** Requests that arrive from the manager while the loop waits. */
    method Receive(requests: seq<Request>)
      modifies this
      ensures View() == Obey(old(View()), requests)
    {
      var rest := requests;
      while rest != []
        invariant Obey(View(), rest) == Obey(old(View()), requests)
        decreases |rest|
      {
        if rest[0].RequestDrain? { RequestDrainStop(); } else { RequestForceStop(); }
        rest := rest[1..];
      }
    }
  }

  class StrategyLoop {
    const cfg: Config
    const store: ExecutorStore
    const strategy: RandomBaselineStrategy
    const control: StrategyLoopControl
    const startedAt: int
    var order: Option<ActiveOrder>
    var position: Option<ActivePosition>
    var hasOpenPosition: bool
    var hasActiveOrder: bool
    var nextId: nat
    var loops: nat
    var ex: Exchange
    ghost var history: History

    ghost function View(): State
      reads this, store, store.lifecycle, strategy, control
    {
      State(order, position, strategy.View(), control.View(), store.View(), nextId, startedAt, loops, ex, history)
    }

    function Flags(): Flags
      reads this
    {
      RunLoop.Flags(hasOpenPosition, hasActiveOrder)
    }

    /** The method ended as the phase did: same state, same way out, and the same flags where they are read again. */
    ghost predicate Did(out: Outcome, flow: Flow)
      reads this, store, store.lifecycle, strategy, control
    {
      View() == out.s && flow == out.flow && (flow.Proceed? ==> Flags() == out.flags)
    }

    constructor (cfg: Config, store: ExecutorStore, strategy: RandomBaselineStrategy, control: StrategyLoopControl,
                 s: State)
      requires s.timers == strategy.View() && s.control == control.View() && s.store == store.View()
      ensures View() == s
      ensures this.cfg == cfg && this.store == store && this.strategy == strategy && this.control == control
    {
      this.cfg, this.store, this.strategy, this.control := cfg, store, strategy, control;
      order, position, nextId, startedAt, loops, ex := s.order, s.position, s.nextId, s.startedAt, s.loops, s.ex;
      history := s.history;
      hasOpenPosition, hasActiveOrder := false, false;
    }

    method EndCycle(now: int)
      modifies this`position, this`history, strategy
      ensures View() == RunLoop.EndCycle(cfg, old(View()), now)
    {
      strategy.OnPositionClosed(cfg, now);
      position := None;
      history := history.(finalized := history.finalized + 1, marks := history.marks + [CycleClosed(now)]);
    }

    method CloseBySync(price: real, io: Io)
      requires position.Some?
      modifies this`position, this`history, strategy, store, store.lifecycle
      ensures View() == RunLoop.CloseBySync(cfg, old(View()), price, io)
      ensures store.KeepsTracker()
    {
      store.FinalizeReconciledClose(cfg, position.value, price, io.now, io.fills);
      EndCycle(io.now);
    }

    method Hold(p: ActivePosition, signal: Option<Cid>, entryOrder: Option<Cid>)
      modifies this`position, this`history, store
      ensures View() == RunLoop.Hold(old(View()), p, signal, entryOrder)
      ensures store.lifecycle == old(store.lifecycle)
    {
      position := Some(p);
      store.SavePositionOpen(p, signal, entryOrder);
      history := history.(submits := 0, drops := 0);
    }

    /** Snapshots, the sweep of untracked orders, and the restore of a position the exchange reports. */
    method Observe(io: Io) returns (flow: Flow)
      modifies this, store
      ensures Did(RunLoop.Observe(cfg, old(View()), io), flow)
      ensures store.lifecycle == old(store.lifecycle)
    {
      hide Evolve, CancelAll, FirstForInstrument, BuildActivePositionFromOkx;
      ex := Evolve(ex, io.observe.env);
      if io.observe.openOrders.Raises? || io.observe.positions.Raises? { return Failed; }
      var reported := io.observe.positions.value;
      hasActiveOrder := io.observe.openOrders.value > 0 || order.Some?;
      hasOpenPosition := reported != [] || position.Some?;
      if order.None? && position.None? { ex := CancelAll(ex, io.observe.swept); }
      var first := FirstForInstrument(reported);
      if first.Some? && position.None? {
        var restored := BuildActivePositionFromOkx(cfg, first.value, io.now, None);
        if restored.Some? {
          hasOpenPosition := true;
          Hold(restored.value, None, None);
          history := history.(restored := history.restored + 1);
        }
      }
      return Proceed;
    }

    method OpenFromEntry(o: ActiveOrder, x: ExOrder, price: real, now: int)
      modifies this`position, this`history, this`nextId, store, store.lifecycle
      ensures View() == OnEntryFilled(cfg, old(View()), o, x, price, now)
      ensures store.lifecycle == old(store.lifecycle)
    {
      hide BuildActivePosition, RunLoop.TrackEntryFill;
      history := history.(entered := history.entered + 1,
          overwritten := history.overwritten + if position.Some? then 1 else 0);
      var size := if x.filled > 0.0 then x.filled else cfg.orderSize;
      var p := BuildActivePosition(cfg, Fresh(nextId), if x.side.Buy? then Long else Short, price, now, size);
      nextId := nextId + 1;
      Hold(p, if store.lifecycle != null then store.lifecycle.entrySignal else Some(o.clientId), Some(o.clientId));
      TrackEntryFill(o, price, p.id, now);
    }

    method TrackEntryFill(o: ActiveOrder, price: real, pid: Pid, now: int)
      modifies store.lifecycle
      ensures View() == RunLoop.TrackEntryFill(old(View()), o, price, pid, now)
    {
      if store.lifecycle != null {
        store.lifecycle.OnEntryFill(price, o.orderId, o.clientId, now);
        store.lifecycle.BindPosition(pid);
      }
    }

    method CloseFromExit(o: ActiveOrder, price: real, io: Io)
      requires position.Some?
      modifies this`position, this`history, store, store.lifecycle, strategy
      ensures View() == OnExitFilled(cfg, old(View()), o, price, io)
      ensures store.KeepsTracker()
    {
      var lc := store.lifecycle;
      if lc == null { lc := new TradeLifecycleTracker(); }
      var source := if lc.fallbackUsed then ExecutorMarketFallback else ExecutorMaker;
      lc.OnExitFill(price, o.orderId, o.clientId, io.now, source);
      store.FinalizeClosedTrade(cfg, position.value, lc, price, io.now, io.fills, lc.trigger, source);
      EndCycle(io.now);
    }

    /** The tracked order was found filled: open or close the position, then forget the order. */
    method OnFilled(x: ExOrder, price: real, io: Io) returns (flow: Flow)
      requires order.Some?
      modifies this, store, store.lifecycle, strategy
      ensures Did(RunLoop.OnFilled(cfg, old(View()), old(order.value), x, price, old(Flags()), io), flow)
      ensures store.KeepsTracker()
    {
      hide OnEntryFilled, S.FinalizeClosedTrade;
      var o := order.value;
      if o.purpose.Entry? {
        OpenFromEntry(o, x, price, io.now);
        hasOpenPosition := true;
      } else if position.Some? {
        CloseFromExit(o, price, io);
        hasOpenPosition := false;
      }
      store.SaveOrder(o.clientId, S.OrderFilled, false, None, None, None);
      order := None;
      hasActiveOrder := false;
      return Proceed;
    }

    method CountFailedAttempt()
      requires position.Some?
      modifies this`position, store.lifecycle
      ensures View() == RunLoop.CountFailedAttempt(old(View()))
    {
      if store.lifecycle != null { store.lifecycle.OnExitMakerAttemptFailed(); }
      position := Some(position.value.(attempts := position.value.attempts + 1));
    }

    /** The tracked order was found canceled or rejected. */
    method OnDead(state: OrderState) returns (flow: Flow)
      requires order.Some?
      modifies this, store, store.lifecycle
      ensures Did(RunLoop.OnDead(old(View()), old(order.value), old(Flags())), flow)
      ensures store.KeepsTracker()
    {
      var o := order.value;
      if o.purpose.Exit? && position.Some? {
        CountFailedAttempt();
      } else {
        store.ClearTradeLifecycle();
      }
      store.SaveOrder(o.clientId, if state.Rejected? then S.OrderRejected else S.OrderCanceled, false, None, None,
          None);
      order := None;
      return Proceed;
    }

    /** `_cancel_order_best_effort`: 51400 is swallowed, any other error comes back. */
    method CancelBestEffort(cid: Cid, env: seq<EnvEvent>, fails: bool) returns (ok: bool)
      modifies this`ex
      ensures ok == !fails
      ensures ex == if fails then Evolve(old(ex), env) else Cancel(Evolve(old(ex), env), cid)
    {
      ex := Evolve(ex, env);
      if fails { return false; }
      ex := Cancel(ex, cid);
      return true;
    }

    method Reprice(last: real, io: Io) returns (flow: Flow)
      requires cfg.grid > 0.0 && order.Some?
      modifies this, store, store.lifecycle, strategy
      ensures Did(RunLoop.Reprice(cfg, old(View()), old(order.value), last, old(Flags()), io), flow)
      ensures store.KeepsTracker()
    {
      hide Evolve, Cancel, ResolveMakerPrice, RunLoop.CloseBySync, RunLoop.Replace;
      var o := order.value;
      var canceled := CancelBestEffort(o.clientId, io.work.cancelEnv, io.work.cancelFails);
      if !canceled || io.reprice.book.Raises? { return Failed; }
      var price := ResolveMakerPrice(o.side, io.reprice.book.value, io.reprice.limits, cfg.grid);
      var cid := nextId;
      nextId := nextId + 1;
      ex := Evolve(ex, io.reprice.env);
      if io.reprice.reply.PriceLimit? || (io.reprice.reply.ReduceSync? && o.purpose.Exit?) {
        flow := DropOrder(o, last, io);
        return;
      }
      if !io.reprice.reply.Accepted? { return Failed; }
      Replace(o, cid, price, io.now);
      return Proceed;
    }

    /** A reject of the replacement: the order is forgotten, and after a reduce-only reject the position too if the
        exchange turns out to be flat. */
    method DropOrder(o: ActiveOrder, last: real, io: Io) returns (flow: Flow)
      requires order == Some(o)
      requires io.reprice.reply.PriceLimit? || (io.reprice.reply.ReduceSync? && o.purpose.Exit?)
      modifies this, store, store.lifecycle, strategy
      ensures View() == if io.reprice.reply.PriceLimit? then RunLoop.DropOrder(old(View()), o)
                        else OnRepriceReduceReject(cfg, RunLoop.DropOrder(old(View()), o), last, old(Flags()), io).s
      ensures flow == NextIteration && store.KeepsTracker()
    {
      history := history.(drops := history.drops + if o.purpose.Exit? then 1 else 0);
      order := None;
      hasActiveOrder := false;
      if io.reprice.reply.ReduceSync? && position.Some? && io.reprice.sync.Ok? {
        if io.reprice.sync.value != [] {
          hasOpenPosition := true;
        } else {
          CloseBySync(last, io);
          hasOpenPosition := false;
        }
      }
      return NextIteration;
    }

    method Replace(o: ActiveOrder, cid: Cid, price: real, now: int)
      requires order == Some(o)
      modifies this`order, this`ex, store, store.lifecycle
      ensures View() == RunLoop.Replace(old(View()), o, cid, price, now)
      ensures store.lifecycle == old(store.lifecycle)
    {
      var newId := |ex.orders|;
      ex := Place(ex, cid, o.side, o.size, o.reduceOnly, Some(price));
      var signal: Option<Cid> := None;
      if store.lifecycle != null {
        store.lifecycle.OnReprice(o.purpose, price);
        if o.purpose.Entry? { signal := store.lifecycle.entrySignal; }
      }
      order := Some(ActiveOrder(newId, cid, o.side, o.purpose, o.createdAt, now, o.reduceOnly, o.size));
      store.SaveOrder(cid, S.Submitted, !o.reduceOnly, signal, Some(o.clientId),
          if position.Some? then Some(position.value.id) else None);
    }

    /** The maker chain has waited too long: cancel, verify, count the attempt, forget the order. */
    method Expire(io: Io) returns (flow: Flow)
      requires order.Some?
      modifies this, store.lifecycle
      ensures Did(RunLoop.Expire(old(View()), old(order.value), old(Flags()), io), flow)
    {
      hide Evolve, Cancel, RunLoop.GiveUp;
      var o := order.value;
      var canceled := CancelBestEffort(o.clientId, io.work.cancelEnv, io.work.cancelFails);
      if !canceled { return Failed; }
      ex := Evolve(ex, io.work.verifyEnv);
      if io.work.verifyRaises { return Failed; }
      if ex.Working(o.orderId) && !io.work.retryFails { ex := Cancel(ex, o.clientId); }
      GiveUp(o);
      return Proceed;
    }

    method GiveUp(o: ActiveOrder)
      modifies this`order, this`position, store.lifecycle
      ensures View() == RunLoop.GiveUp(old(View()), o)
    {
      if store.lifecycle != null { store.lifecycle.OnTimeoutCancel(o.purpose); }
      if o.purpose.Exit? && position.Some? { CountFailedAttempt(); }
      order := None;
    }

    method OnWorking(px: Option<real>, last: real, io: Io) returns (flow: Flow)
      requires cfg.grid > 0.0 && order.Some?
      modifies this, store, store.lifecycle, strategy
      ensures Did(RunLoop.OnWorking(cfg, old(View()), old(order.value), px, last, old(Flags()), io), flow)
      ensures store.KeepsTracker()
    {
      hide RunLoop.Reprice, RunLoop.Expire, IsEntryOrderPriceStale, IsExitOrderPriceStale;
      var o := order.value;
      var repriceElapsed := io.now - o.lastRepriceAt;
      var maxWaitElapsed := io.now - o.createdAt;
      var repriceSec := if o.purpose.Exit? then cfg.exitRepriceSec else cfg.makerRepriceSec;
      var maxWaitSec := if o.purpose.Exit? then cfg.exitMaxWaitSec else cfg.makerMaxWaitSec;
      var stale := false;
      if px.Some? {
        if io.work.touch.Raises? { return Failed; }
        if o.purpose.Exit? && position.Some? {
          stale := IsExitOrderPriceStale(cfg, position.value.side, o.side, px.value, io.work.touch.value);
        } else if o.purpose.Entry? {
          stale := IsEntryOrderPriceStale(cfg, o.side, px.value, io.work.touch.value);
        }
      }
      if (repriceElapsed >= repriceSec || stale) && maxWaitElapsed <= maxWaitSec {
        flow := Reprice(last, io);
      } else if maxWaitElapsed > maxWaitSec {
        flow := Expire(io);
      } else {
        flow := Proceed;
      }
    }

    method Poll(last: real, io: Io) returns (flow: Flow)
      requires cfg.grid > 0.0
      modifies this, store, store.lifecycle, strategy
      ensures Did(RunLoop.Poll(cfg, old(View()), last, old(Flags()), io), flow)
      ensures store.KeepsTracker()
    {
      hide RunLoop.OnFilled, RunLoop.OnDead, RunLoop.OnWorking, Evolve;
      if order.None? { return Proceed; }
      ex := Evolve(ex, io.poll.env);
      if io.poll.reply.PollRaises? { return Failed; }
      if io.poll.reply.PollMissing? || order.value.orderId >= |ex.orders| { return Proceed; }
      var x := ex.orders[order.value.orderId];
      match x.state {
        case Filled =>
          flow := OnFilled(x, Or(io.poll.reply.avgPx, Or(io.poll.reply.px, Some(last))).value, io);
        case Canceled =>
          flow := OnDead(x.state);
        case Rejected =>
          flow := OnDead(x.state);
        case Live =>
          flow := OnWorking(Or(io.poll.reply.px, io.poll.reply.avgPx), last, io);
        case PartiallyFilled =>
          flow := OnWorking(Or(io.poll.reply.px, io.poll.reply.avgPx), last, io);
      }
    }

    /** No order and no position: drain out, or decide and enter. */
    method Seek(ticker: Ticker, io: Io) returns (flow: Flow)
      requires cfg.grid > 0.0
      modifies this, store, store.lifecycle, strategy, control
      ensures Did(RunLoop.Seek(cfg, old(View()), ticker, old(Flags()), io), flow)
      ensures store.KeepsTracker()
    {
      hide RunLoop.Enter, Obey, ShouldDecide;
      control.Receive(io.lateRequests);
      if !control.allowNew {
        return if hasActiveOrder then NextIteration else Stopped;
      }
      if !ShouldDecide(cfg, strategy.View(), io.now, hasOpenPosition, hasActiveOrder, true,
          MarketDataFresh(ticker, io.now)) {
        return if cfg.stepSec == 0 then Failed else NextIteration;
      }
      var signal := nextId;
      nextId := nextId + 1;
      strategy.MakeDecision(io.now);
      store.BeginTradeLifecycle(signal, cfg.tick);
      history := history.(marks := history.marks + [Decided(io.now)]);
      flow := Enter(signal, io);
    }

    method Enter(signal: Cid, io: Io) returns (flow: Flow)
      requires cfg.grid > 0.0
      modifies this`order, this`ex, store, store.lifecycle
      ensures Did(RunLoop.Enter(cfg, old(View()), signal, old(Flags()), io), flow)
      ensures store.lifecycle == old(store.lifecycle)
    {
      hide Evolve, ResolveMakerPrice;
      if io.submit.book.Raises? { return Failed; }
      var side := if io.pick.Long? then Buy else Sell;
      var price := ResolveMakerPrice(side, io.submit.book.value, io.submit.limits, cfg.grid);
      ex := Evolve(ex, io.submit.env);
      if io.submit.reply.PriceLimit? { return NextIteration; }
      if !io.submit.reply.Accepted? { return Failed; }
      order := Some(ActiveOrder(|ex.orders|, signal, side, Entry, io.now, io.now, false, cfg.orderSize));
      ex := Place(ex, signal, side, cfg.orderSize, false, Some(price));
      if store.lifecycle != null { store.lifecycle.OnEntrySubmit(price, price, io.now); }
      store.SaveOrder(signal, S.Submitted, true, Some(signal), None, None);
      return NextIteration;
    }

    /** A held position without an order: submit its exit when a reason exists. */
    method Leave(last: real, io: Io) returns (flow: Flow)
      requires cfg.grid > 0.0 && position.Some?
      modifies this, store, store.lifecycle, strategy
      ensures Did(RunLoop.Leave(cfg, old(View()), last, old(Flags()), io), flow)
      ensures store.KeepsTracker()
    {
      hide Evolve, ResolveMakerPrice, RunLoop.CloseBySync, RunLoop.TrackExit, CheckExitReason, ShouldUseMarketExit;
      var reason := CheckExitReason(position.value, last, io.now);
      if reason.None? { return NextIteration; }
      if store.lifecycle != null { store.lifecycle.OnExitTrigger(reason.value); }
      var useMarket := ShouldUseMarketExit(cfg, position.value, io.now);
      var cid := nextId;
      nextId := nextId + 1;
      var price := last;
      if !useMarket {
        if io.submit.book.Raises? { return Failed; }
        price := ResolveMakerPrice(ExpectedExitSide(position.value.side), io.submit.book.value, io.submit.limits,
            cfg.grid);
      }
      ex := Evolve(ex, io.submit.env);
      if io.submit.reply.PriceLimit? || io.submit.reply.OtherError? { return Failed; }
      if io.submit.reply.ReduceSync? {
        if io.submit.sync.Ok? && io.submit.sync.value == [] { CloseBySync(last, io); }
        return NextIteration;
      }
      TrackExit(cid, price, useMarket, io.now);
      return NextIteration;
    }

    method TrackExit(cid: Cid, price: real, market: bool, now: int)
      requires position.Some?
      modifies this`order, this`ex, this`history, store, store.lifecycle
      ensures View() == RunLoop.TrackExit(old(View()), position.value, cid, price, market, now)
      ensures store.lifecycle == old(store.lifecycle)
    {
      var p := position.value;
      var side := ExpectedExitSide(p.side);
      order := Some(ActiveOrder(|ex.orders|, cid, side, Exit, now, now, true, p.size));
      ex := Place(ex, cid, side, p.size, true, if market then None else Some(price));
      history := history.(submits := history.submits + if market then 0 else 1);
      if store.lifecycle != null {
        store.lifecycle.OnExitSubmit(price, market, now);
        store.lifecycle.makerAttempts := p.attempts;
      }
      store.SaveOrder(cid, S.Submitted, false, None, None, Some(p.id));
    }

    /** One pass of `while True`. */
    method Iterate(io: Io) returns (flow: Flow)
      requires cfg.grid > 0.0
      modifies this, store, store.lifecycle, strategy, control
      ensures View() == RunLoop.Iterate(cfg, old(View()), io).s && flow == RunLoop.Iterate(cfg, old(View()), io).flow
      ensures store.KeepsTracker()
    {
      hide RunLoop.Observe, RunLoop.Poll, RunLoop.Seek, RunLoop.Leave, Obey;
      control.Receive(io.requests);
      loops := loops + 1;
      if (cfg.maxLoops.Some? && loops > cfg.maxLoops.value)
        || (cfg.runSeconds.Some? && io.now - startedAt >= cfg.runSeconds.value)
        || control.mode.Force? {
        return Stopped;
      }
      if io.ticker.Raises? { return NextIteration; }
      flow := Observe(io);
      if !flow.Proceed? { return; }
      flow := Poll(io.ticker.value.last, io);
      if !flow.Proceed? { return; }
      if order.Some? {
        flow := NextIteration;
      } else if position.None? {
        flow := Seek(io.ticker.value, io);
      } else {
        flow := Leave(io.ticker.value.last, io);
      }
    }

    /** The run: iterate until an iteration stops or the world has no more answers. */
    method RunLoops(ios: seq<Io>) returns (stopped: bool)
      requires cfg.grid > 0.0
      modifies this, store, store.lifecycle, strategy, control
      ensures View() == Run(cfg, old(View()), ios).s
      ensures stopped == Run(cfg, old(View()), ios).flow.Stopped?
      ensures old(OrderTracking.InStep(View())) ==> OrderTracking.InStep(View())
      ensures old(PositionLedger.Books(cfg, View())) ==> PositionLedger.Books(cfg, View())
    {
      hide RunLoop.Iterate, OrderTracking.InStep, PositionLedger.Books;
      ghost var start := View();
      if OrderTracking.InStep(start) { OrderTracking.EveryWorkingOrderIsTracked(cfg, start, ios); }
      if PositionLedger.Books(cfg, start) { PositionLedger.BooksHoldOverRuns(cfg, start, ios); }
      var rest := ios;
      stopped := false;
      while rest != [] && !stopped
        invariant store.KeepsTracker()
        invariant if stopped then View() == Run(cfg, old(View()), ios).s && Run(cfg, old(View()), ios).flow.Stopped?
                  else Run(cfg, View(), rest) == Run(cfg, old(View()), ios)
        decreases |rest|, !stopped
      {
        var flow := Iterate(rest[0]);
        stopped := flow.Stopped?;
        rest := rest[1..];
      }
    }
  }
}
