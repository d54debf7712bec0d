/** When the loop acts and with what: exactly which situations make it exit, reprice, decide, enter or restore, each
    written out in prices, times and reports rather than in the loop's own tests. */
module Reactions {
  import opened Common
  import opened PositionState
  import opened Exchange
  import opened Store
  import opened RunLoop
  import opened PositionLedger
  import opened RepriceLineage
  import opened Pacing

  // ---------------------------------------------------------------- an order the loop puts on the exchange

  /** The newest order on the exchange is ours, working, and has these terms; it is the tracked one. */
  predicate PutOnExchange(s: State, before: Exchange, cid: Cid, side: OrderSide, size: real, reduceOnly: bool,
                          limit: Option<real>)
  {
    && |s.ex.orders| == |before.orders| + 1 && s.ex.orders[..|before.orders|] == before.orders
    && s.ex.orders[|before.orders|] == ExOrder(cid, side, size, 0.0, Live, reduceOnly, limit.None?, true, limit)
    && s.order.Some? && s.order.value.orderId == |before.orders| && s.order.value.clientId == cid
    && s.order.value.side == side && s.order.value.size == size && s.order.value.reduceOnly == reduceOnly
  }

  predicate PlacedAt(o: ActiveOrder, purpose: Purpose, now: int) {
    o.purpose == purpose && o.createdAt == now && o.lastRepriceAt == now
  }

  /** The order's journal row: inserted, under its parent and with its signal. */
  predicate JournalledAs(s: State, cid: Cid, parent: Option<Cid>, signal: Option<Cid>) {
    cid in s.store.orders && s.store.orders[cid] == OrderRow(parent, signal, 1, 0, 0)
  }

  // ---------------------------------------------------------------- exits

  predicate TakesProfit(p: ActivePosition, last: real) {
    (p.side.Long? && last >= p.tpPrice) || (p.side.Short? && last <= p.tpPrice)
  }

  predicate StopsLoss(p: ActivePosition, last: real) {
    (p.side.Long? && last <= p.slPrice) || (p.side.Short? && last >= p.slPrice)
  }

  predicate ExitDue(p: ActivePosition, last: real, now: int) {
    now >= p.timeoutAt || TakesProfit(p, last) || StopsLoss(p, last)
  }

  predicate MarketDue(cfg: Config, p: ActivePosition, now: int) {
    cfg.fallbackEnabled && (p.attempts >= cfg.maxAttempts || now - p.timeoutAt >= cfg.graceSec)
  }

  /** The exit of `p` as it must stand on the exchange: opposite side, whole size, reduce-only, at the resolved maker
      price or without a limit; in the journal, and on the tracker with its order type and the attempts so far. */
  predicate ExitPlaced(cfg: Config, s: State, before: Exchange, cid: Cid, p: ActivePosition, io: Io)
    requires cfg.grid > 0.0 && (MarketDue(cfg, p, io.now) || io.submit.book.Ok?)
  {
    var side := if p.side.Long? then Sell else Buy;
    var limit := if MarketDue(cfg, p, io.now) then None
                 else Some(ResolveMakerPrice(side, io.submit.book.value, io.submit.limits, cfg.grid));
    && PutOnExchange(s, before, cid, side, p.size, true, limit) && PlacedAt(s.order.value, Exit, io.now)
    && s.position == Some(p)
    && JournalledAs(s, cid, None, None)
    && (p.id in s.store.meta ==> s.store.meta[p.id].exitOrder == Some(cid))
    && (s.store.lifecycle.Some? ==>
          var lc := s.store.lifecycle.value;
          && lc.makerAttempts == p.attempts && (lc.exitMarket <==> MarketDue(cfg, p, io.now))
          && (limit.Some? ==> lc.exit.lastPx == limit))
  }

  /** The tracker names the trigger: the timeout before the take-profit, the take-profit before the stop-loss. */
  predicate TriggerNamed(s: State, p: ActivePosition, last: real, now: int) {
    s.store.lifecycle.Some? ==>
      var trigger := s.store.lifecycle.value.trigger;
      && trigger.Some?
      && (trigger.value == Timeout <==> now >= p.timeoutAt)
      && (trigger.value == Tp <==> now < p.timeoutAt && TakesProfit(p, last))
      && (trigger.value == Sl <==> now < p.timeoutAt && !TakesProfit(p, last))
  }

  predicate ExitReached(cfg: Config, p: ActivePosition, last: real, io: Io) {
    ExitDue(p, last, io.now) && (MarketDue(cfg, p, io.now) || io.submit.book.Ok?)
  }

  lemma TriggerIsNamed(s: State, p: ActivePosition, last: real, now: int)
    ensures CheckExitReason(p, last, now).Some? <==> ExitDue(p, last, now)
    ensures ExitDue(p, last, now) && s.store.lifecycle.Some? ==>
              var lc := s.store.lifecycle.value.OnExitTrigger(CheckExitReason(p, last, now).value);
              TriggerNamed(WithLifecycle(s, Some(lc)), p, last, now)
  {
  }

  lemma TrackExitPlaces(cfg: Config, base: nat, s: State, price: real, io: Io)
    requires cfg.grid > 0.0 && s.order.None? && s.position.Some? && RowsInOrder(base, s)
    requires var p := s.position.value;
             var side := ExpectedExitSide(p.side);
             || MarketDue(cfg, p, io.now)
             || (io.submit.book.Ok?
                 && price == ResolveMakerPrice(side, io.submit.book.value, io.submit.limits, cfg.grid))
    ensures var p := s.position.value;
            var placing := s.(nextId := s.nextId + 1, ex := Evolve(s.ex, io.submit.env));
            var s' := TrackExit(placing, p, s.nextId, price, MarketDue(cfg, p, io.now), io.now);
            && ExitPlaced(cfg, s', placing.ex, s.nextId, p, io) && s'.order.Some? && s'.position == s.position
            && s'.store.lifecycle.Some? == s.store.lifecycle.Some?
            && (s.store.lifecycle.Some? ==> s'.store.lifecycle.value.trigger == s.store.lifecycle.value.trigger)
  {
    hide Evolve, ResolveMakerPrice, MarketDue;
  }

  /** What the submission of a due exit does, by the exchange's answer. */
  lemma SubmitExitPlaces(cfg: Config, base: nat, s: State, last: real, flags: Flags, io: Io)
    requires cfg.grid > 0.0 && s.order.None? && s.position.Some? && RowsInOrder(base, s)
    ensures var p := s.position.value;
            var market := MarketDue(cfg, p, io.now);
            var s' := SubmitExit(cfg, s, market, last, flags, io).s;
            var asked := market || io.submit.book.Ok?;
            && (s'.order.Some? <==> asked && io.submit.reply.Accepted?)
            && (s'.order.Some? ==> ExitPlaced(cfg, s', Evolve(s.ex, io.submit.env), s.nextId, p, io))
            && (s'.position.None? <==> asked && io.submit.reply.ReduceSync? && io.submit.sync == Ok([]))
            && (s.store.lifecycle.Some? && s'.order.Some? ==>
                  && s'.store.lifecycle.Some?
                  && s'.store.lifecycle.value.trigger == s.store.lifecycle.value.trigger)
            && (s.store.lifecycle.None? && s'.order.Some? ==> s'.store.lifecycle.None?)
  {
    hide Evolve, ResolveMakerPrice, FinalizeReconciledClose, MarketDue, TrackExit, ExitPlaced, RowsInOrder;
    var p := s.position.value;
    if MarketDue(cfg, p, io.now) {
      TrackExitPlaces(cfg, base, s, last, io);
    } else if io.submit.book.Ok? {
      var px := ResolveMakerPrice(ExpectedExitSide(p.side), io.submit.book.value, io.submit.limits, cfg.grid);
      TrackExitPlaces(cfg, base, s, px, io);
    }
  }

  /** A held position without an order: its exit is submitted exactly when the timeout, the take-profit or the
      stop-loss is reached and the calls go through, as a market order exactly when the fallback is due; it is closed
      without one exactly when the exchange refuses to reduce and turns out flat. */
  lemma LeaveSubmitsIff(cfg: Config, base: nat, s: State, last: real, flags: Flags, io: Io)
    requires cfg.grid > 0.0 && s.order.None? && s.position.Some? && RowsInOrder(base, s)
    ensures var p := s.position.value;
            var s' := Leave(cfg, s, last, flags, io).s;
            && (s'.order.Some? <==> ExitReached(cfg, p, last, io) && io.submit.reply.Accepted?)
            && (s'.order.Some? ==>
                  && ExitPlaced(cfg, s', Evolve(s.ex, io.submit.env), s.nextId, p, io)
                  && TriggerNamed(s', p, last, io.now))
            && (s'.position.None? <==>
                  ExitReached(cfg, p, last, io) && io.submit.reply.ReduceSync? && io.submit.sync == Ok([]))
            && (!ExitDue(p, last, io.now) ==> s' == s)
  {
    hide Evolve, SubmitExit, CheckExitReason, ExitPlaced, RowsInOrder, ExitDue;
    var p := s.position.value;
    TriggerIsNamed(s, p, last, io.now);
    var reason := CheckExitReason(p, last, io.now);
    if reason.Some? {
      var lc := s.store.lifecycle;
      var s1 := if lc.None? then s else WithLifecycle(s, Some(lc.value.OnExitTrigger(reason.value)));
      TrackerIsNoRow(base, s, s1);
      SubmitExitPlaces(cfg, base, s1, last, flags, io);
    }
  }

  lemma TrackerIsNoRow(base: nat, s: State, s': State)
    requires RowsInOrder(base, s) && s' == s.(store := s.store.(lifecycle := s'.store.lifecycle))
    ensures RowsInOrder(base, s')
  {
  }

  /** The same for a whole iteration that starts with a held position and no order and reads its snapshots. */
  lemma IterationExitsIff(cfg: Config, base: nat, s: State, io: Io)
    requires cfg.grid > 0.0 && s.order.None? && s.position.Some? && RowsInOrder(base, s)
    requires io.ticker.Ok? && io.observe.openOrders.Ok? && io.observe.positions.Ok?
    requires !LimitReached(cfg, s.(loops := s.loops + 1), io.now) && !Obey(s.control, io.requests).mode.Force?
    ensures var p := s.position.value;
            var last := io.ticker.value.last;
            var s' := Iterate(cfg, s, io).s;
            && (s'.order.Some? <==> ExitReached(cfg, p, last, io) && io.submit.reply.Accepted?)
            && (s'.order.Some? ==>
                  && ExitPlaced(cfg, s', Evolve(Evolve(s.ex, io.observe.env), io.submit.env), s.nextId, p, io)
                  && TriggerNamed(s', p, last, io.now))
            && (s'.position.None? <==>
                  ExitReached(cfg, p, last, io) && io.submit.reply.ReduceSync? && io.submit.sync == Ok([]))
  {
    hide Evolve, Leave, Obey, ExitPlaced, TriggerNamed, ExitReached, RowsInOrder, ExitDue;
    var a := s.(control := Obey(s.control, io.requests), loops := s.loops + 1);
    var seen := Observe(cfg, a, io);
    OnlyTimePasses(base, s, seen.s);
    LeaveSubmitsIff(cfg, base, seen.s, io.ticker.value.last, seen.flags, io);
  }

  lemma OnlyTimePasses(base: nat, s: State, s': State)
    requires RowsInOrder(base, s) && s' == s.(ex := s'.ex, control := s'.control, loops := s'.loops)
    ensures RowsInOrder(base, s')
  {
  }

  // ---------------------------------------------------------------- working orders

  /** An entry left behind by the touch, or an exit the touch has gone through, by more than its gap. */
  predicate FarFromTouch(cfg: Config, s: State, o: ActiveOrder, px: real, book: Book) {
    if o.purpose.Entry? then
      && cfg.entryStaleTicks > 0
      && var gap := cfg.tick * cfg.entryStaleTicks as real;
         if o.side.Buy? then book.bid - px > gap else px - book.ask > gap
    else
      && s.position.Some? && cfg.exitStaleTicks > 0
      && var gap := cfg.tick * cfg.exitStaleTicks as real;
         || (s.position.value.side.Long? && o.side.Sell? && book.ask - px > gap)
         || (s.position.value.side.Short? && o.side.Buy? && px - book.bid > gap)
  }

  /** The interval of the order's purpose has gone by, or its price is too far off. */
  predicate RepriceDue(cfg: Config, s: State, o: ActiveOrder, px: Option<real>, io: Io)
    requires px.Some? ==> io.work.touch.Ok?
  {
    var interval := match o.purpose case Entry => cfg.makerRepriceSec case Exit => cfg.exitRepriceSec;
    io.now - o.lastRepriceAt >= interval || (px.Some? && FarFromTouch(cfg, s, o, px.value, io.work.touch.value))
  }

  predicate WaitedTooLong(cfg: Config, o: ActiveOrder, now: int) {
    now - o.createdAt > match o.purpose case Entry => cfg.makerMaxWaitSec case Exit => cfg.exitMaxWaitSec
  }

  /** The exchange just before the replacement is placed: the old order is cancelled. */
  function AtReplacement(s: State, o: ActiveOrder, io: Io): Exchange {
    Evolve(Cancel(Evolve(s.ex, io.work.cancelEnv), o.clientId), io.reprice.env)
  }

  /** The replacement on the exchange at the freshly resolved price, tracked on the old terms, its clock restarted. */
  predicate Replaced(cfg: Config, s: State, s': State, o: ActiveOrder, io: Io)
    requires cfg.grid > 0.0 && io.reprice.book.Ok?
  {
    var px := ResolveMakerPrice(o.side, io.reprice.book.value, io.reprice.limits, cfg.grid);
    && PutOnExchange(s', AtReplacement(s, o, io), s.nextId, o.side, o.size, o.reduceOnly, Some(px))
    && SameTerms(o, s'.order.value) && s'.order.value.lastRepriceAt == io.now
    && s'.position == s.position
    && (!o.reduceOnly ==> s'.store.lastEntry == Some(s.nextId))
    && JournalledAs(s', s.nextId, Some(o.clientId), SignalOfReplacement(s, o))
    && (s.store.lifecycle.Some? ==>
          && s'.store.lifecycle.Some?
          && var lc := s'.store.lifecycle.value;
             (if o.purpose.Entry? then lc.entry.lastPx else lc.exit.lastPx) == Some(px))
  }

  /** A repriced entry stays under its trade's signal; without one it is its own signal, and an exit has none. */
  function SignalOfReplacement(s: State, o: ActiveOrder): Option<Cid> {
    if o.purpose.Entry? && s.store.lifecycle.Some? && s.store.lifecycle.value.entrySignal.Some?
    then s.store.lifecycle.value.entrySignal
    else if o.reduceOnly then None
    else Some(s.nextId)
  }

  lemma ReplaceAnswers(cfg: Config, base: nat, s: State, o: ActiveOrder, io: Io)
    requires cfg.grid > 0.0 && s.order == Some(o) && RowsInOrder(base, s) && io.reprice.book.Ok?
    ensures var px := ResolveMakerPrice(o.side, io.reprice.book.value, io.reprice.limits, cfg.grid);
            var placing := s.(nextId := s.nextId + 1, ex := AtReplacement(s, o, io));
            var s' := Replace(placing, o, s.nextId, px, io.now);
            Replaced(cfg, s, s', o, io) && s'.order.Some? && s'.position == s.position
  {
    hide Evolve, Cancel, ResolveMakerPrice;
  }

  /** What a reprice does, by the exchange's answers. */
  lemma RepriceAnswers(cfg: Config, base: nat, s: State, o: ActiveOrder, last: real, flags: Flags, io: Io)
    requires cfg.grid > 0.0 && s.order == Some(o) && RowsInOrder(base, s)
    ensures var s' := Reprice(cfg, s, o, last, flags, io).s;
            var asked := !io.work.cancelFails && io.reprice.book.Ok?;
            && (asked && io.reprice.reply.Accepted? ==> Replaced(cfg, s, s', o, io))
            && (s'.order.None? <==>
                  asked && (io.reprice.reply.PriceLimit? || (io.reprice.reply.ReduceSync? && o.purpose.Exit?)))
            && (s'.order.Some? && !(asked && io.reprice.reply.Accepted?) ==> s'.order == s.order)
            && (s.position.Some? ==>
                  (s'.position.None? <==>
                     asked && io.reprice.reply.ReduceSync? && o.purpose.Exit? && io.reprice.sync == Ok([])))
            && (s'.position.Some? ==> s'.position == s.position)
  {
    hide Evolve, Cancel, ResolveMakerPrice, FinalizeReconciledClose, Replace, Replaced, RowsInOrder;
    if io.reprice.book.Ok? { ReplaceAnswers(cfg, base, s, o, io); }
  }

  /** A working order whose book is answered: past its maximum wait it is given up, otherwise it is repriced exactly
      when that is due, and else left alone. */
  lemma WorkingOrderIsRepricedIff(cfg: Config, base: nat, s: State, o: ActiveOrder, px: Option<real>, last: real,
                                  flags: Flags, io: Io)
    requires cfg.grid > 0.0 && s.order == Some(o) && RowsInOrder(base, s)
    requires (px.Some? ==> io.work.touch.Ok?) && !io.work.cancelFails && !io.work.verifyRaises
    requires io.reprice.book.Ok? && io.reprice.reply.Accepted?
    ensures var s' := OnWorking(cfg, s, o, px, last, flags, io).s;
            if WaitedTooLong(cfg, o, io.now) then s'.order.None?
            else
              && s'.order.Some?
              && (s'.order.value.clientId != o.clientId <==> RepriceDue(cfg, s, o, px, io))
              && (if RepriceDue(cfg, s, o, px, io) then Replaced(cfg, s, s', o, io) else s' == s)
  {
    hide Reprice, Expire, Replaced, RowsInOrder, SameTerms;
    RepriceAnswers(cfg, base, s, o, last, flags, io);
    ReplacedIsNew(cfg, base, s, Reprice(cfg, s, o, last, flags, io).s, o, io);
    ExpiryForgets(s, o, flags, io);
  }

  lemma ReplacedIsNew(cfg: Config, base: nat, s: State, s': State, o: ActiveOrder, io: Io)
    requires cfg.grid > 0.0 && io.reprice.book.Ok? && RowsInOrder(base, s) && s.order == Some(o)
    ensures Replaced(cfg, s, s', o, io) ==> s'.order.Some? && s'.order.value.clientId != o.clientId
  {
    hide Evolve, Cancel, ResolveMakerPrice;
  }

  /** Giving up: the order is forgotten and cancelled, and a failed exit attempt is counted on position and tracker. */
  lemma ExpiryForgets(s: State, o: ActiveOrder, flags: Flags, io: Io)
    requires s.order == Some(o) && !io.work.cancelFails && !io.work.verifyRaises
    ensures var out := Expire(s, o, flags, io);
            && out.s.order.None? && out.flow.Proceed?
            && AttemptCounted(s, out.s, o.purpose)
            && (s.store.lifecycle.Some? ==>
                  && out.s.store.lifecycle.Some?
                  && var was, isNow := s.store.lifecycle.value, out.s.store.lifecycle.value;
                     if o.purpose.Entry? then isNow.entry.cancels == was.entry.cancels + 1 && isNow.exit == was.exit
                     else isNow.exit.cancels == was.exit.cancels + 1 && isNow.entry == was.entry)
  {
    hide Evolve, Cancel;
  }

  /** Exactly an exit order that goes unfilled costs the held position one attempt. */
  predicate AttemptCounted(s: State, s': State, purpose: Purpose) {
    if purpose.Exit? && s.position.Some? then
      && s'.position == Some(s.position.value.(attempts := s.position.value.attempts + 1))
      && (s.store.lifecycle.Some? && s'.store.lifecycle.Some? ==>
            s'.store.lifecycle.value.makerAttempts == s.store.lifecycle.value.makerAttempts + 1)
    else s'.position == s.position
  }

  /** An order found cancelled or rejected is forgotten and finished in the journal; an exit costs an attempt, an entry
      ends the trade's tracker. */
  lemma DeadOrderIsForgotten(s: State, o: ActiveOrder, flags: Flags)
    requires s.order == Some(o)
    ensures var s' := OnDead(s, o, flags).s;
            && s'.order.None? && AttemptCounted(s, s', o.purpose)
            && (o.purpose.Entry? ==> s'.store.lifecycle.None?)
            && (o.purpose.Exit? && s.position.Some? ==> s'.store.lifecycle.Some? == s.store.lifecycle.Some?)
            && o.clientId in s'.store.orders
            && s'.store.orders[o.clientId].terminals ==
                 1 + if o.clientId in s.store.orders then s.store.orders[o.clientId].terminals else 0
  {
  }

  /** A price counts when it is given and not zero. */
  function FirstPrice(a: Option<real>, b: Option<real>): Option<real> {
    match a
    case Some(px) => if px != 0.0 then a else b
    case None => b
  }

  /** The same through the poll: the reported price of the order, or its average, is what the touch is compared with. */
  lemma PollRepricesIff(cfg: Config, base: nat, s: State, last: real, flags: Flags, io: Io)
    requires cfg.grid > 0.0 && s.order.Some? && RowsInOrder(base, s) && io.poll.reply.PollFound?
    requires Evolve(s.ex, io.poll.env).Working(s.order.value.orderId)
    requires FirstPrice(io.poll.reply.px, io.poll.reply.avgPx).Some? ==> io.work.touch.Ok?
    requires !io.work.cancelFails && !io.work.verifyRaises
    requires io.reprice.book.Ok? && io.reprice.reply.Accepted?
    ensures var o := s.order.value;
            var aged := s.(ex := Evolve(s.ex, io.poll.env));
            var px := FirstPrice(io.poll.reply.px, io.poll.reply.avgPx);
            var s' := Poll(cfg, s, last, flags, io).s;
            if WaitedTooLong(cfg, o, io.now) then s'.order.None?
            else
              && s'.order.Some?
              && (s'.order.value.clientId != o.clientId <==> RepriceDue(cfg, aged, o, px, io))
              && (if RepriceDue(cfg, aged, o, px, io) then Replaced(cfg, aged, s', o, io) else s' == aged)
  {
    hide Evolve, OnWorking, OnFilled, OnDead, Replaced, RepriceDue, RowsInOrder;
    var o := s.order.value;
    var aged := s.(ex := Evolve(s.ex, io.poll.env));
    ExchangeIsNoRow(base, s, aged);
    var px := Or(io.poll.reply.px, io.poll.reply.avgPx);
    assert px == FirstPrice(io.poll.reply.px, io.poll.reply.avgPx);
    WorkingOrderIsRepricedIff(cfg, base, aged, o, px, last, flags, io);
  }

  /** The same for a whole iteration that reads its snapshots: within the maximum wait the tracked client id changes
      exactly when a reprice is due. */
  lemma IterationRepricesIff(cfg: Config, base: nat, s: State, io: Io)
    requires cfg.grid > 0.0 && s.order.Some? && Rows(base, s) && io.poll.reply.PollFound?
    requires io.ticker.Ok? && io.observe.openOrders.Ok? && io.observe.positions.Ok?
    requires !LimitReached(cfg, s.(loops := s.loops + 1), io.now) && !Obey(s.control, io.requests).mode.Force?
    requires Evolve(Evolve(s.ex, io.observe.env), io.poll.env).Working(s.order.value.orderId)
    requires FirstPrice(io.poll.reply.px, io.poll.reply.avgPx).Some? ==> io.work.touch.Ok?
    requires !io.work.cancelFails && !io.work.verifyRaises
    requires io.reprice.book.Ok? && io.reprice.reply.Accepted? && !WaitedTooLong(cfg, s.order.value, io.now)
    ensures var o := s.order.value;
            var a := s.(control := Obey(s.control, io.requests), loops := s.loops + 1);
            var seen := Observe(cfg, a, io).s;
            var px := FirstPrice(io.poll.reply.px, io.poll.reply.avgPx);
            var s' := Iterate(cfg, s, io).s;
            && s'.order.Some?
            && (s'.order.value.clientId != o.clientId <==> RepriceDue(cfg, seen, o, px, io))
  {
    hide Evolve, Poll, Obey, RowsInOrder, EntryLineage, Traceable, Replaced;
    hide FirstForInstrument, BuildActivePositionFromOkx;
    var a := s.(control := Obey(s.control, io.requests), loops := s.loops + 1);
    RowsFrame(base, s, a);
    var seen := Observe(cfg, a, io);
    ObserveKeepsRows(cfg, base, a, io);
    PollRepricesIff(cfg, base, seen.s, io.ticker.value.last, seen.flags, io);
    DueIgnoresTheExchange(cfg, seen.s, Evolve(seen.s.ex, io.poll.env), s.order.value,
      FirstPrice(io.poll.reply.px, io.poll.reply.avgPx), io);
  }

  lemma DueIgnoresTheExchange(cfg: Config, s: State, ex: Exchange, o: ActiveOrder, px: Option<real>, io: Io)
    requires px.Some? ==> io.work.touch.Ok?
    ensures RepriceDue(cfg, s.(ex := ex), o, px, io) == RepriceDue(cfg, s, o, px, io)
  {
  }

  // ---------------------------------------------------------------- decisions and entries

  /** Everything a decision needs, of an iteration that starts with nothing held and nothing tracked: not stopped, every
      snapshot read, nothing open on the exchange, a ticker no older than ten seconds, the cooldown over, a step since
      the last decision, and nobody asking to stop. */
  predicate DecisionDue(cfg: Config, s: State, io: Io) {
    && s.control.allowNew && !s.control.mode.Force? && io.requests == [] && io.lateRequests == []
    && (cfg.maxLoops.Some? ==> s.loops < cfg.maxLoops.value)
    && (cfg.runSeconds.Some? ==> io.now - s.startedAt < cfg.runSeconds.value)
    && io.ticker.Ok? && io.now * 1000 - io.ticker.value.tsMs <= 10000
    && io.observe.openOrders == Ok(0) && io.observe.positions == Ok([])
    && (s.timers.cooldownUntil.Some? ==> io.now >= s.timers.cooldownUntil.value)
    && (s.timers.lastDecision.Some? ==> io.now >= s.timers.lastDecision.value + cfg.stepSec)
  }

  /** The decided entry on the exchange and in the books: the picked side, the configured size, the resolved price. */
  predicate EntryPlacedFor(cfg: Config, s: State, before: Exchange, cid: Cid, io: Io)
    requires cfg.grid > 0.0 && io.submit.book.Ok?
  {
    var side := if io.pick.Long? then Buy else Sell;
    var px := ResolveMakerPrice(side, io.submit.book.value, io.submit.limits, cfg.grid);
    && PutOnExchange(s, before, cid, side, cfg.orderSize, false, Some(px)) && PlacedAt(s.order.value, Entry, io.now)
    && s.store.lastEntry == Some(cid) && s.store.lifecycle.Some? && JournalledAs(s, cid, None, Some(cid))
    && var lc := s.store.lifecycle.value;
       && lc.entrySignal == Some(cid) && lc.tick == Some(cfg.tick)
       && lc.entry.orders == 1 && lc.entry.touchPx == lc.entry.firstPx == Some(px) && lc.entry.startedAt == Some(io.now)
  }

  /** An iteration that starts with nothing held and nothing tracked decides exactly when a decision is due, and has an
      entry order out at its end exactly when the placement then went through. */
  lemma IterationDecidesIff(cfg: Config, base: nat, s: State, io: Io)
    requires cfg.grid > 0.0 && s.order.None? && s.position.None? && RowsInOrder(base, s)
    ensures var s' := Iterate(cfg, s, io).s;
            var decided := Decisions(s'.history.marks);
            && decided == Decisions(s.history.marks) + (if DecisionDue(cfg, s, io) then [io.now] else [])
            && (EntryActive(s') <==> DecisionDue(cfg, s, io) && io.submit.book.Ok? && io.submit.reply.Accepted?)
            && (EntryActive(s') ==> EntryPlacedFor(cfg, s', BeforeEntry(s, io), s.nextId, io))
  {
    hide Evolve, CancelAll, Obey, Seek, Leave, Decisions, EntryPlacedFor, RowsInOrder, FirstForInstrument;
    hide BuildActivePositionFromOkx;
    var a := s.(control := Obey(s.control, io.requests), loops := s.loops + 1);
    LastRequestWins(s.control, io.requests);
    if io.ticker.Ok? && io.observe.openOrders.Ok? && io.observe.positions.Ok? {
      var seen := Observe(cfg, a, io);
      if seen.s.position.None? {
        OnlyTimePasses(base, s, seen.s);
        SeekDecidesIff(cfg, base, seen.s, io.ticker.value, seen.flags, io);
      } else {
        LeaveDecidesNothing(cfg, seen.s, io.ticker.value.last, seen.flags, io);
      }
    }
  }

  /** The exchange an entry is placed on: aged, swept of untracked orders, aged again. */
  function BeforeEntry(s: State, io: Io): Exchange {
    Evolve(CancelAll(Evolve(s.ex, io.observe.env), io.observe.swept), io.submit.env)
  }

  lemma SeekDecidesIff(cfg: Config, base: nat, s: State, ticker: Ticker, flags: Flags, io: Io)
    requires cfg.grid > 0.0 && s.order.None? && s.position.None? && RowsInOrder(base, s)
    ensures var s' := Seek(cfg, s, ticker, flags, io).s;
            var due := && s.control.allowNew && io.lateRequests == [] && !flags.openPosition && !flags.activeOrder
                       && io.now * 1000 - ticker.tsMs <= 10000
                       && (s.timers.cooldownUntil.Some? ==> io.now >= s.timers.cooldownUntil.value)
                       && (s.timers.lastDecision.Some? ==> io.now >= s.timers.lastDecision.value + cfg.stepSec);
            && Decisions(s'.history.marks) == Decisions(s.history.marks) + (if due then [io.now] else [])
            && (EntryActive(s') <==> due && io.submit.book.Ok? && io.submit.reply.Accepted?)
            && (EntryActive(s') ==> EntryPlacedFor(cfg, s', Evolve(s.ex, io.submit.env), s.nextId, io))
  {
    hide Evolve, ResolveMakerPrice, Obey, Decisions;
    LastRequestWins(s.control, io.lateRequests);
    DecisionsAppend(s.history.marks, Decided(io.now));
    assert Decisions(s.history.marks) + [] == Decisions(s.history.marks);
  }

  lemma LeaveDecidesNothing(cfg: Config, s: State, last: real, flags: Flags, io: Io)
    requires cfg.grid > 0.0 && s.position.Some? && s.order.None?
    ensures Decisions(Leave(cfg, s, last, flags, io).s.history.marks) == Decisions(s.history.marks)
    ensures !EntryActive(Leave(cfg, s, last, flags, io).s)
  {
    hide Decisions, Evolve, ResolveMakerPrice, FinalizeReconciledClose, CheckExitReason, ShouldUseMarketExit;
    LeaveClock(cfg, s, last, flags, io);
    DecisionsAppend(s.history.marks, CycleClosed(io.now));
    assert Decisions(s.history.marks) + [] == Decisions(s.history.marks);
  }

  /** A poll that leaves nothing held and nothing tracked has either kept the flag of the order it lost, or closed the
      position and started the cooldown. */
  lemma PollLeavesNoRoom(cfg: Config, s: State, last: real, flags: Flags, io: Io)
    requires cfg.grid > 0.0 && s.order.Some? && Coupled(cfg, s) && flags.activeOrder
    ensures var out := Poll(cfg, s, last, flags, io);
            out.flow.Proceed? && out.s.order.None? && out.s.position.None? ==>
              out.flags.activeOrder || out.s.timers.cooldownUntil == Some(io.now + cfg.cooldownSec)
  {
    hide Evolve, Cancel, ResolveMakerPrice, FinalizeClosedTrade, FinalizeReconciledClose, IsStale, BuildActivePosition;
  }

  /** An iteration that starts with an order out or a position held decides nothing, given a cooldown. */
  lemma BusyIterationDecidesNothing(cfg: Config, s: State, io: Io)
    requires cfg.grid > 0.0 && Books(cfg, s) && cfg.cooldownSec > 0 && (s.order.Some? || s.position.Some?)
    ensures Decisions(Iterate(cfg, s, io).s.history.marks) == Decisions(s.history.marks)
  {
    hide Observe, Poll, Seek, Leave, Obey, Books, Decisions, SameClock, ClosesAt;
    var a := s.(control := Obey(s.control, io.requests), loops := s.loops + 1);
    if io.ticker.Ok? {
      var ticker := io.ticker.value;
      var seen := Observe(cfg, a, io);
      BooksFrame(cfg, s, a);
      ObserveKeepsBooks(cfg, a, io);
      CoupledInBooks(cfg, seen.s);
      ObserveClock(cfg, a, io);
      QuietOrCloseDecidesNothing(cfg, a, seen.s, io.now);
      ObserveKeepsBusy(cfg, a, io);
      var polled := Poll(cfg, seen.s, ticker.last, seen.flags, io);
      PollClock(cfg, seen.s, ticker.last, seen.flags, io);
      QuietOrCloseDecidesNothing(cfg, seen.s, polled.s, io.now);
      if seen.s.order.None? {
        PollOfNothing(cfg, seen.s, ticker.last, seen.flags, io);
      } else if seen.flow.Proceed? {
        PollLeavesNoRoom(cfg, seen.s, ticker.last, seen.flags, io);
      }
      if seen.flow.Proceed? && polled.flow.Proceed? && polled.s.order.None? {
        if polled.s.position.Some? { LeaveDecidesNothing(cfg, polled.s, ticker.last, polled.flags, io); }
        else { SeekWithoutRoom(cfg, polled.s, ticker, polled.flags, io); }
      }
    }
  }

  lemma ObserveKeepsBusy(cfg: Config, s: State, io: Io)
    ensures var out := Observe(cfg, s, io);
            && out.s.order == s.order && (s.position.Some? ==> out.s.position == s.position)
            && (out.flow.Proceed? && s.order.Some? ==> out.flags.activeOrder)
  {
    hide Evolve, CancelAll;
  }

  lemma PollOfNothing(cfg: Config, s: State, last: real, flags: Flags, io: Io)
    requires cfg.grid > 0.0 && s.order.None?
    ensures Poll(cfg, s, last, flags, io).s == s
  {
  }

  lemma SeekWithoutRoom(cfg: Config, s: State, ticker: Ticker, flags: Flags, io: Io)
    requires cfg.grid > 0.0 && cfg.cooldownSec > 0
    requires flags.activeOrder || s.timers.cooldownUntil == Some(io.now + cfg.cooldownSec)
    ensures Decisions(Seek(cfg, s, ticker, flags, io).s.history.marks) == Decisions(s.history.marks)
  {
  }

  // ---------------------------------------------------------------- snapshots

  /** The snapshots of an iteration: a position is taken over exactly when none is held and the first report of the
      instrument has an average price and a quantity, and then as that report says; untracked orders are cancelled
      exactly when nothing is tracked and nothing held. */
  lemma ObserveRestoresIff(cfg: Config, s: State, io: Io)
    requires io.observe.openOrders.Ok? && io.observe.positions.Ok?
    ensures var out := Observe(cfg, s, io);
            var reports := io.observe.positions.value;
            var aged := Evolve(s.ex, io.observe.env);
            && out.flow.Proceed? && out.s.order == s.order && out.s.timers == s.timers
            && (s.position.Some? ==> out.s.position == s.position)
            && (s.position.None? && reports == [] ==> out.s.position.None?)
            && (s.position.None? && reports != [] ==>
                  var report := FirstForInstrument(reports).value;
                  && (out.s.position.Some? <==> report.avgPx.Some? && report.pos != 0.0)
                  && (out.s.position.Some? ==> RestoredAs(cfg, s, out.s, report, io.now)))
            && (out.flags.openPosition <==> reports != [] || s.position.Some?)
            && (out.flags.activeOrder <==> io.observe.openOrders.value > 0 || s.order.Some?)
            && out.s.ex == if s.order.None? && s.position.None? then CancelAll(aged, io.observe.swept) else aged
  {
    hide Evolve, CancelAll, BuildActivePosition;
  }

  /** Held and journalled as reported, under the exchange's own position id, with the last entry order as its origin. */
  predicate RestoredAs(cfg: Config, s: State, s': State, report: OkxPosition, now: int) {
    s'.position.Some?
    && var p := s'.position.value;
       && p.id == FromExchange(report.posId) && (p.side.Long? <==> report.pos > 0.0) && p.size == Abs(report.pos)
       && report.avgPx == Some(p.entryPrice) && p.attempts == 0
       && p.entryTs == (if report.createdAt.Some? then report.createdAt.value else now)
       && p.id in s'.store.positions
       && s'.store.positions[p.id] == PositionRow(s.store.strategy, p.side, p.entryPrice, p.entryTs, p.size, None)
       && p.id in s'.store.meta
       && s'.store.meta[p.id].entrySignal == s'.store.meta[p.id].entryOrder == s.store.lastEntry
  }

  /** A snapshot that cannot be read ends the iteration with nothing changed but the passage of time. */
  lemma UnreadableSnapshotChangesNothing(cfg: Config, s: State, io: Io)
    requires cfg.grid > 0.0
    requires io.ticker.Raises? || io.observe.openOrders.Raises? || io.observe.positions.Raises?
    ensures var s' := Iterate(cfg, s, io).s;
            s' == s.(ex := s'.ex, control := Obey(s.control, io.requests), loops := s.loops + 1)
  {
    hide Evolve, Obey;
  }

  /** At a limit, or with a force request, the loop stops before doing anything else. */
  lemma IterationStopsAtLimits(cfg: Config, s: State, io: Io)
    requires cfg.grid > 0.0
    requires (cfg.maxLoops.Some? && s.loops >= cfg.maxLoops.value)
             || (cfg.runSeconds.Some? && io.now - s.startedAt >= cfg.runSeconds.value)
             || (if io.requests == [] then s.control.mode.Force? else io.requests[|io.requests| - 1].RequestForce?)
    ensures var out := Iterate(cfg, s, io);
            && out.flow.Stopped?
            && out.s == s.(control := Obey(s.control, io.requests), loops := s.loops + 1)
  {
    hide Obey;
    LastRequestWins(s.control, io.requests);
  }
}
