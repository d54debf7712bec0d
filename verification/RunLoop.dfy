/** app/orchestrator.py: one iteration of `run_baseline_loop_with_limits` as a function of the state and of
    everything the world answers during it. Each phase below is one stretch of the loop body; class
    `StrategyLoop` runs the same iteration by updating its fields. */
module RunLoop {
  import opened Common
  import opened PositionState
  import opened Exchange
  import opened TradeLifecycle
  import opened Store

  // ---------------------------------------------------------------- state

  datatype StopMode = NoStop | Drain | Force

  /** `StrategyLoopControl`. */
  datatype Control = Control(mode: StopMode, allowNew: bool)

  datatype Request = RequestDrain | RequestForce

  function Obey(c: Control, requests: seq<Request>): (c': Control)
    ensures !c.allowNew ==> !c'.allowNew
    decreases |requests|
  {
    if requests == [] then c
    else Obey(Control(if requests[0].RequestDrain? then Drain else Force, false), requests[1..])
  }

  /** The last request decides the mode, any request forbids entries, and none changes nothing. */
  lemma {:induction false} LastRequestWins(c: Control, requests: seq<Request>)
    ensures Obey(c, requests) ==
              if requests == [] then c
              else Control(if requests[|requests| - 1].RequestDrain? then Drain else Force, false)
    decreases |requests|
  {
    if requests != [] {
      LastRequestWins(Control(if requests[0].RequestDrain? then Drain else Force, false), requests[1..]);
    }
  }

  /** strategy/random_baseline: the two timestamps that pace decisions. */
  datatype Timers = Timers(lastDecision: Option<int>, cooldownUntil: Option<int>)

  predicate ShouldDecide(cfg: Config, t: Timers, now: int, openPosition: bool, activeOrder: bool, healthy: bool,
                         upToDate: bool)
  {
    && healthy && upToDate && !openPosition && !activeOrder
    && (t.cooldownUntil.Some? ==> now >= t.cooldownUntil.value)
    && (t.lastDecision.Some? ==> now - t.lastDecision.value >= cfg.stepSec)
  }

  datatype Mark = Decided(ts: int) | CycleClosed(ts: int)

  /** History of a run, written but never read by the loop: where positions came from and went, the maker
      exit submissions and dropped exit chains of the position now held, and the strategy's calls in order. */
  datatype History = History(
    adopted: nat, restored: nat, entered: nat, overwritten: nat, finalized: nat,
    submits: nat, drops: nat, marks: seq<Mark>)

  function Closings(marks: seq<Mark>): nat {
    if marks == [] then 0
    else Closings(marks[..|marks| - 1]) + if marks[|marks| - 1].CycleClosed? then 1 else 0
  }

  datatype State = State(
    order: Option<ActiveOrder>, position: Option<ActivePosition>,
    timers: Timers, control: Control, store: Store, nextId: nat,
    startedAt: int, loops: nat, ex: Exchange, history: History)

  /** The loop-local booleans `has_open_position` and `has_active_order`. */
  datatype Flags = Flags(openPosition: bool, activeOrder: bool)

  /** How a phase ends: fall through, `continue`, an exception for the outer handler, or `break`. */
  datatype Flow = Proceed | NextIteration | Failed | Stopped

  datatype Outcome = Outcome(s: State, flags: Flags, flow: Flow)

  // ---------------------------------------------------------------- what the world answers

  /** Last price and its timestamp in milliseconds. */
  datatype Ticker = Ticker(last: real, tsMs: int)

  predicate MarketDataFresh(t: Ticker, now: int) { now * 1000 - t.tsMs <= 10000 }

  /** The open-order snapshot enters the loop as a count; `swept` are the client ids the sweep of untracked
      orders cancels. */
  datatype ObserveIo = ObserveIo(
    env: seq<EnvEvent>, openOrders: Reply<nat>, positions: Reply<seq<OkxPosition>>, swept: seq<Cid>)

  datatype PollReply = PollRaises | PollMissing | PollFound(px: Option<real>, avgPx: Option<real>)

  datatype PollIo = PollIo(env: seq<EnvEvent>, reply: PollReply)

  datatype WorkIo = WorkIo(
    touch: Reply<Book>,
    cancelEnv: seq<EnvEvent>, cancelFails: bool,
    verifyEnv: seq<EnvEvent>, verifyRaises: bool, retryFails: bool)

  /** Pricing, placing, and the position check that follows a reduce-only reject. */
  datatype PlaceIo = PlaceIo(
    book: Reply<Book>, limits: Option<Limits>, env: seq<EnvEvent>, reply: PlaceReply, sync: Reply<seq<OkxPosition>>)

  datatype Io = Io(
    now: int, requests: seq<Request>, ticker: Reply<Ticker>, observe: ObserveIo, poll: PollIo,
    work: WorkIo, reprice: PlaceIo, lateRequests: seq<Request>, pick: Side, submit: PlaceIo, fills: FillsReply)

  // ---------------------------------------------------------------- steps shared by several phases

  /** `strategy.on_position_closed(now); active_position = None`. */
  function EndCycle(cfg: Config, s: State, now: int): State {
    s.(timers := s.timers.(cooldownUntil := Some(now + cfg.cooldownSec)),
       position := None,
       history := s.history.(finalized := s.history.finalized + 1, marks := s.history.marks + [CycleClosed(now)]))
  }

  /** `finalize_reconciled_close`, then the end of the cycle. */
  function CloseBySync(cfg: Config, s: State, price: real, io: Io): State
    requires s.position.Some?
  {
    EndCycle(cfg, s.(store := FinalizeReconciledClose(cfg, s.store, s.position.value, price, io.now, io.fills)), io.now)
  }

  /** A position is taken over or opened: it becomes the held one and its per-position history restarts. */
  function Hold(s: State, p: ActivePosition, signal: Option<Cid>, order: Option<Cid>): State {
    s.(position := Some(p), store := s.store.SavePositionOpen(p, signal, order),
       history := s.history.(submits := 0, drops := 0))
  }

  function WithLifecycle(s: State, lc: Option<Lifecycle>): State { s.(store := s.store.(lifecycle := lc)) }

  // ---------------------------------------------------------------- orchestrator.py:193-238

  function FirstForInstrument(ps: seq<OkxPosition>): (r: Option<OkxPosition>)
    ensures r.None? <==> ps == []
    ensures r.Some? ==> r.value in ps
  {
    if ps == [] then None
    else if ps[0].sameInstrument then Some(ps[0])
    else
      var rest := FirstForInstrument(ps[1..]);
      if rest.Some? && rest.value.sameInstrument then rest else Some(ps[0])
  }

  /** The first report of the loop's own instrument; the very first report only when there is none of it. */
  lemma {:induction false} FirstForInstrumentIs(ps: seq<OkxPosition>)
    requires ps != []
    ensures var r := FirstForInstrument(ps).value;
            if r.sameInstrument
            then exists k :: 0 <= k < |ps| && ps[k] == r && forall j :: 0 <= j < k ==> !ps[j].sameInstrument
            else r == ps[0] && forall j :: 0 <= j < |ps| ==> !ps[j].sameInstrument
  {
    if ps[0].sameInstrument {
      assert FirstForInstrument(ps).value == ps[0];
    } else if ps[1..] != [] {
      FirstForInstrumentIs(ps[1..]);
      var r := FirstForInstrument(ps[1..]).value;
      if r.sameInstrument {
        var k :| 0 <= k < |ps[1..]| && ps[1..][k] == r && forall j :: 0 <= j < k ==> !ps[1..][j].sameInstrument;
        assert ps[k + 1] == r;
        assert forall j :: 0 < j < k + 1 ==> ps[j] == ps[1..][j - 1];
      } else {
        assert forall j :: 0 < j < |ps| ==> ps[j] == ps[1..][j - 1];
      }
    }
  }

  function Observe(cfg: Config, s0: State, io: Io): Outcome {
    var s := s0.(ex := Evolve(s0.ex, io.observe.env));
    if io.observe.openOrders.Raises? || io.observe.positions.Raises? then Outcome(s, Flags(false, false), Failed)
    else
      var reported := io.observe.positions.value;
      var flags := Flags(reported != [] || s.position.Some?, io.observe.openOrders.value > 0 || s.order.Some?);
      var s := if s.order.None? && s.position.None? then s.(ex := CancelAll(s.ex, io.observe.swept)) else s;
      var first := FirstForInstrument(reported);
      var restored := if first.None? || s.position.Some? then None
                      else BuildActivePositionFromOkx(cfg, first.value, io.now, None);
      if restored.None? then Outcome(s, flags, Proceed)
      else
        var s := Hold(s, restored.value, None, None);
        Outcome(s.(history := s.history.(restored := s.history.restored + 1)), flags.(openPosition := true), Proceed)
  }

  // ---------------------------------------------------------------- orchestrator.py:240-365

  function OnEntryFilled(cfg: Config, s: State, o: ActiveOrder, x: ExOrder, price: real, now: int): State {
    var size := if x.filled > 0.0 then x.filled else cfg.orderSize;
    var p := BuildActivePosition(cfg, Fresh(s.nextId), if x.side.Buy? then Long else Short, price, now, size);
    var lc := s.store.lifecycle;
    var signal := if lc.Some? then lc.value.entrySignal else Some(o.clientId);
    var h := s.history.(entered := s.history.entered + 1,
                        overwritten := s.history.overwritten + if s.position.Some? then 1 else 0);
    TrackEntryFill(Hold(s.(nextId := s.nextId + 1, history := h), p, signal, Some(o.clientId)), o, price, p.id, now)
  }

  function TrackEntryFill(s: State, o: ActiveOrder, price: real, pid: Pid, now: int): State {
    var lc := s.store.lifecycle;
    if lc.None? then s
    else WithLifecycle(s, Some(lc.value.OnEntryFill(price, o.orderId, o.clientId, now).BindPosition(pid)))
  }

  function OnExitFilled(cfg: Config, s: State, o: ActiveOrder, price: real, io: Io): State {
    if s.position.None? then s
    else
      var lc := if s.store.lifecycle.Some? then s.store.lifecycle.value else NEW_LIFECYCLE;
      var source := if lc.fallbackUsed then ExecutorMarketFallback else ExecutorMaker;
      var lc := lc.OnExitFill(price, o.orderId, o.clientId, io.now, source);
      EndCycle(cfg, s.(store := FinalizeClosedTrade(cfg, s.store, s.position.value, lc, price, io.now, io.fills,
          lc.trigger, source)), io.now)
  }

  function OnFilled(cfg: Config, s: State, o: ActiveOrder, x: ExOrder, price: real, flags: Flags, io: Io): Outcome {
    var open := o.purpose.Entry? || (s.position.None? && flags.openPosition);
    var s := if o.purpose.Entry?
             then OnEntryFilled(cfg, s, o, x, price, io.now)
             else OnExitFilled(cfg, s, o, price, io);
    Outcome(s.(store := s.store.SaveUpdate(o.clientId, true), order := None), Flags(open, false), Proceed)
  }

  // ---------------------------------------------------------------- orchestrator.py:367-415

  /** `exit_maker_attempts += 1` on the position and on the tracker. */
  function CountFailedAttempt(s: State): State
    requires s.position.Some?
  {
    var s := s.(position := Some(s.position.value.(attempts := s.position.value.attempts + 1)));
    if s.store.lifecycle.None? then s
    else WithLifecycle(s, Some(s.store.lifecycle.value.OnExitMakerAttemptFailed()))
  }

  function OnDead(s: State, o: ActiveOrder, flags: Flags): Outcome {
    var s := if o.purpose.Exit? && s.position.Some? then CountFailedAttempt(s)
             else s.(store := s.store.ClearTradeLifecycle());
    Outcome(s.(store := s.store.SaveUpdate(o.clientId, true), order := None), flags, Proceed)
  }

  // ---------------------------------------------------------------- orchestrator.py:416-616

  predicate IsStale(cfg: Config, s: State, o: ActiveOrder, price: real, book: Book) {
    if o.purpose.Entry? then IsEntryOrderPriceStale(cfg, o.side, price, book)
    else s.position.Some? && IsExitOrderPriceStale(cfg, s.position.value.side, o.side, price, book)
  }

  function RepriceSec(cfg: Config, p: Purpose): int { if p.Exit? then cfg.exitRepriceSec else cfg.makerRepriceSec }

  function MaxWaitSec(cfg: Config, p: Purpose): int { if p.Exit? then cfg.exitMaxWaitSec else cfg.makerMaxWaitSec }

  /** A working order: reprice it, let it expire, or leave it alone. */
  function OnWorking(cfg: Config, s: State, o: ActiveOrder, px: Option<real>, last: real, flags: Flags, io: Io): Outcome
    requires cfg.grid > 0.0
  {
    if px.Some? && io.work.touch.Raises? then Outcome(s, flags, Failed)
    else
      var stale := px.Some? && IsStale(cfg, s, o, px.value, io.work.touch.value);
      var waited := io.now - o.createdAt;
      if (io.now - o.lastRepriceAt >= RepriceSec(cfg, o.purpose) || stale) && waited <= MaxWaitSec(cfg, o.purpose)
      then Reprice(cfg, s, o, last, flags, io)
      else if waited > MaxWaitSec(cfg, o.purpose) then Expire(s, o, flags, io)
      else Outcome(s, flags, Proceed)
  }

  /** The cancel swallows 51400, so a reprice goes on to place even when the old order has just filled. */
  function Reprice(cfg: Config, s0: State, o: ActiveOrder, last: real, flags: Flags, io: Io): Outcome
    requires cfg.grid > 0.0
  {
    var s := s0.(ex := Evolve(s0.ex, io.work.cancelEnv));
    if io.work.cancelFails then Outcome(s, flags, Failed)
    else
      var s := s.(ex := Cancel(s.ex, o.clientId));
      if io.reprice.book.Raises? then Outcome(s, flags, Failed)
      else
        var price := ResolveMakerPrice(o.side, io.reprice.book.value, io.reprice.limits, cfg.grid);
        var cid := s.nextId;
        var s := s.(nextId := cid + 1, ex := Evolve(s.ex, io.reprice.env));
        match io.reprice.reply
        case PriceLimit => Outcome(DropOrder(s, o), flags.(activeOrder := false), NextIteration)
        case ReduceSync =>
          if o.purpose.Entry? then Outcome(s, flags, Failed)
          else OnRepriceReduceReject(cfg, DropOrder(s, o), last, flags, io)
        case OtherError => Outcome(s, flags, Failed)
        case Accepted => Outcome(Replace(s, o, cid, price, io.now), flags, Proceed)
  }

  /** The local order is forgotten without a failed attempt being counted. */
  function DropOrder(s: State, o: ActiveOrder): State {
    s.(order := None, history := s.history.(drops := s.history.drops + if o.purpose.Exit? then 1 else 0))
  }

  function OnRepriceReduceReject(cfg: Config, s: State, last: real, flags: Flags, io: Io): Outcome {
    if s.position.None? || io.reprice.sync.Raises? then Outcome(s, flags.(activeOrder := false), NextIteration)
    else if io.reprice.sync.value != [] then Outcome(s, Flags(true, false), NextIteration)
    else Outcome(CloseBySync(cfg, s, last, io), Flags(false, false), NextIteration)
  }

  function Replace(s0: State, o: ActiveOrder, cid: Cid, price: real, now: int): State {
    var lc := s0.store.lifecycle;
    var s := s0.(ex := Place(s0.ex, cid, o.side, o.size, o.reduceOnly, Some(price)),
                 order := Some(o.(orderId := |s0.ex.orders|, clientId := cid, lastRepriceAt := now)));
    var s := if lc.None? then s else WithLifecycle(s, Some(lc.value.OnReprice(o.purpose, price)));
    var signal := if lc.Some? && o.purpose.Entry? then lc.value.entrySignal else None;
    var pid := if s.position.Some? then Some(s.position.value.id) else None;
    s.(store := s.store.SaveSubmitted(cid, !o.reduceOnly, signal, Some(o.clientId), pid))
  }

  // ---------------------------------------------------------------- orchestrator.py:617-645

  function Expire(s0: State, o: ActiveOrder, flags: Flags, io: Io): Outcome {
    var s := s0.(ex := Evolve(s0.ex, io.work.cancelEnv));
    if io.work.cancelFails then Outcome(s, flags, Failed)
    else
      var s := s.(ex := Evolve(Cancel(s.ex, o.clientId), io.work.verifyEnv));
      if io.work.verifyRaises then Outcome(s, flags, Failed)
      else
        var s := if s.ex.Working(o.orderId) && !io.work.retryFails then s.(ex := Cancel(s.ex, o.clientId)) else s;
        Outcome(GiveUp(s, o), flags, Proceed)
  }

  function GiveUp(s: State, o: ActiveOrder): State {
    var lc := s.store.lifecycle;
    var s := if lc.None? then s else WithLifecycle(s, Some(lc.value.OnTimeoutCancel(o.purpose)));
    var s := if o.purpose.Exit? && s.position.Some? then CountFailedAttempt(s) else s;
    s.(order := None)
  }

  // ---------------------------------------------------------------- orchestrator.py:240-645

  /** `get_order` tells the truth about the order's state; it may fail, or know nothing of the order. */
  function Poll(cfg: Config, s0: State, last: real, flags: Flags, io: Io): Outcome
    requires cfg.grid > 0.0
  {
    if s0.order.None? then Outcome(s0, flags, Proceed)
    else
      var o := s0.order.value;
      var s := s0.(ex := Evolve(s0.ex, io.poll.env));
      match io.poll.reply
      case PollRaises => Outcome(s, flags, Failed)
      case PollMissing => Outcome(s, flags, Proceed)
      case PollFound(px, avgPx) =>
        if o.orderId >= |s.ex.orders| then Outcome(s, flags, Proceed)
        else
          var x := s.ex.orders[o.orderId];
          match x.state
          case Filled =>
            OnFilled(cfg, s, o, x, Or(avgPx, Or(px, Some(last))).value, flags, io)
          case Canceled => OnDead(s, o, flags)
          case Rejected => OnDead(s, o, flags)
          case Live => OnWorking(cfg, s, o, Or(px, avgPx), last, flags, io)
          case PartiallyFilled => OnWorking(cfg, s, o, Or(px, avgPx), last, flags, io)
  }

  // ---------------------------------------------------------------- orchestrator.py:651-776

  function Seek(cfg: Config, s0: State, ticker: Ticker, flags: Flags, io: Io): Outcome
    requires cfg.grid > 0.0
  {
    var s := s0.(control := Obey(s0.control, io.lateRequests));
    if !s.control.allowNew then Outcome(s, flags, if flags.activeOrder then NextIteration else Stopped)
    else if !ShouldDecide(cfg, s.timers, io.now, flags.openPosition, flags.activeOrder, true,
        MarketDataFresh(ticker, io.now)) then
      Outcome(s, flags, if cfg.stepSec == 0 then Failed else NextIteration)
    else Enter(cfg, Decide(cfg, s, io.now), s.nextId, flags, io)
  }

  /** `make_decision`, the signal row, and a new tracker. */
  function Decide(cfg: Config, s: State, now: int): State {
    s.(timers := s.timers.(lastDecision := Some(now)), nextId := s.nextId + 1,
       store := s.store.BeginTradeLifecycle(s.nextId, cfg.tick),
       history := s.history.(marks := s.history.marks + [Decided(now)]))
  }

  function Enter(cfg: Config, s: State, cid: Cid, flags: Flags, io: Io): Outcome
    requires cfg.grid > 0.0
  {
    if io.submit.book.Raises? then Outcome(s, flags, Failed)
    else
      var side := if io.pick.Long? then Buy else Sell;
      var price := ResolveMakerPrice(side, io.submit.book.value, io.submit.limits, cfg.grid);
      var s := s.(ex := Evolve(s.ex, io.submit.env));
      match io.submit.reply
      case PriceLimit => Outcome(s, flags, NextIteration)
      case ReduceSync => Outcome(s, flags, Failed)
      case OtherError => Outcome(s, flags, Failed)
      case Accepted =>
        Outcome(TrackEntry(cfg, s, cid, side, price, io.now), flags, NextIteration)
  }

  function TrackEntry(cfg: Config, s0: State, cid: Cid, side: OrderSide, price: real, now: int): State {
    var lc := s0.store.lifecycle;
    var s := s0.(ex := Place(s0.ex, cid, side, cfg.orderSize, false, Some(price)),
                 order := Some(ActiveOrder(|s0.ex.orders|, cid, side, Entry, now, now, false, cfg.orderSize)));
    var s := if lc.None? then s else WithLifecycle(s, Some(lc.value.OnEntrySubmit(price, price, now)));
    s.(store := s.store.SaveSubmitted(cid, true, Some(cid), None, None))
  }

  // ---------------------------------------------------------------- orchestrator.py:777-934

  function Leave(cfg: Config, s: State, last: real, flags: Flags, io: Io): Outcome
    requires cfg.grid > 0.0 && s.position.Some?
  {
    var reason := CheckExitReason(s.position.value, last, io.now);
    if reason.None? then Outcome(s, flags, NextIteration)
    else
      var lc := s.store.lifecycle;
      var s := if lc.None? then s else WithLifecycle(s, Some(lc.value.OnExitTrigger(reason.value)));
      SubmitExit(cfg, s, ShouldUseMarketExit(cfg, s.position.value, io.now), last, flags, io)
  }

  function SubmitExit(cfg: Config, s0: State, market: bool, last: real, flags: Flags, io: Io): Outcome
    requires cfg.grid > 0.0 && s0.position.Some?
  {
    var p := s0.position.value;
    var side := ExpectedExitSide(p.side);
    var cid := s0.nextId;
    var s := s0.(nextId := cid + 1);
    if !market && io.submit.book.Raises? then Outcome(s, flags, Failed)
    else
      var price := if market then last
                   else ResolveMakerPrice(side, io.submit.book.value, io.submit.limits, cfg.grid);
      var s := s.(ex := Evolve(s.ex, io.submit.env));
      match io.submit.reply
      case PriceLimit => Outcome(s, flags, Failed)
      case OtherError => Outcome(s, flags, Failed)
      case ReduceSync =>
        if io.submit.sync.Raises? then Outcome(s, flags, NextIteration)
        else if io.submit.sync.value != [] then Outcome(s, flags.(openPosition := true), NextIteration)
        else Outcome(CloseBySync(cfg, s, last, io), flags.(openPosition := false), NextIteration)
      case Accepted =>
        Outcome(TrackExit(s, p, cid, price, market, io.now), flags, NextIteration)
  }

  function TrackExit(s0: State, p: ActivePosition, cid: Cid, price: real, market: bool, now: int): State {
    var side := ExpectedExitSide(p.side);
    var lc := s0.store.lifecycle;
    var s := s0.(ex := Place(s0.ex, cid, side, p.size, true, if market then None else Some(price)),
                 order := Some(ActiveOrder(|s0.ex.orders|, cid, side, Exit, now, now, true, p.size)),
                 history := s0.history.(submits := s0.history.submits + if market then 0 else 1));
    var s := if lc.None? then s
             else WithLifecycle(s, Some(lc.value.OnExitSubmit(price, market, now).(makerAttempts := p.attempts)));
    s.(store := s.store.SaveSubmitted(cid, false, None, None, Some(p.id)))
  }

  // ---------------------------------------------------------------- the iteration and the run

  predicate LimitReached(cfg: Config, s: State, now: int) {
    || (cfg.maxLoops.Some? && s.loops > cfg.maxLoops.value)
    || (cfg.runSeconds.Some? && now - s.startedAt >= cfg.runSeconds.value)
  }

  /** After the poll: an order still tracked ends the iteration, otherwise look for an entry or an exit. */
  function Act(cfg: Config, s: State, ticker: Ticker, flags: Flags, io: Io): Outcome
    requires cfg.grid > 0.0
  {
    if s.order.Some? then Outcome(s, flags, NextIteration)
    else if s.position.None? then Seek(cfg, s, ticker, flags, io)
    else Leave(cfg, s, ticker.last, flags, io)
  }

  function Work(cfg: Config, s: State, ticker: Ticker, io: Io): Outcome
    requires cfg.grid > 0.0
  {
    var seen := Observe(cfg, s, io);
    if !seen.flow.Proceed? then seen
    else
      var polled := Poll(cfg, seen.s, ticker.last, seen.flags, io);
      if !polled.flow.Proceed? then polled else Act(cfg, polled.s, ticker, polled.flags, io)
  }

  /** One pass of `while True`. The outer handler keeps the state the exception left behind. */
  function Iterate(cfg: Config, s0: State, io: Io): Outcome
    requires cfg.grid > 0.0
  {
    var s := s0.(control := Obey(s0.control, io.requests), loops := s0.loops + 1);
    var flags := Flags(false, false);
    if LimitReached(cfg, s, io.now) || s.control.mode.Force? then Outcome(s, flags, Stopped)
    else if io.ticker.Raises? then Outcome(s, flags, NextIteration)
    else Work(cfg, s, io.ticker.value, io)
  }

  /** The run goes on until an iteration stops; later answers of the world are then never asked for. */
  function Run(cfg: Config, s: State, ios: seq<Io>): Outcome
    requires cfg.grid > 0.0
    decreases |ios|
  {
    if ios == [] then Outcome(s, Flags(false, false), NextIteration)
    else
      var out := Iterate(cfg, s, ios[0]);
      if out.flow.Stopped? then out else Run(cfg, out.s, ios[1..])
  }

  /** The clock does not run backwards inside a run. */
  predicate ClockRuns(t: int, ios: seq<Io>)
    decreases |ios|
  {
    ios == [] || (t <= ios[0].now && ClockRuns(ios[0].now, ios[1..]))
  }
}
