/** A real time bound on every held position: closed by its deadline plus one maker chain plus two iterations,
    whatever mix of fills, partial fills, cancels, rejects, reprices and failed iterations happens. */
module BoundedClose {
  import opened Common
  import opened PositionState
  import opened Exchange
  import opened Store
  import opened RunLoop

  function MaxInt(a: int, b: int): int { if a >= b then a else b }

  /** From when on an exit can only be a market order: the grace deadline, or `start` if that is later. */
  function Deadline(cfg: Config, timeoutAt: int, start: int): int {
    MaxInt(start, timeoutAt + MaxInt(cfg.graceSec, 0))
  }

  function MakerWait(cfg: Config): int { MaxInt(cfg.exitMaxWaitSec, 0) }

  predicate MarketActive(s: State) {
    s.order.Some? && s.order.value.orderId < |s.ex.orders| && s.ex.orders[s.order.value.orderId].market
  }

  /** The position is held, no entry order is out, and a maker exit chain out there is no younger than `due`. */
  predicate Holding(s: State, pid: Pid, timeoutAt: int, due: int) {
    && s.position.Some? && s.position.value.id == pid && s.position.value.timeoutAt == timeoutAt && s.store.Covers(pid)
    && (s.order.Some? ==>
          && s.order.value.purpose.Exit? && s.order.value.orderId < |s.ex.orders|
          && (MarketActive(s) || s.order.value.createdAt <= due))
  }

  /** The position's row was closed at this time. */
  predicate ClosedAt(s: State, pid: Pid, now: int) {
    pid in s.store.positions && s.store.positions[pid].exit.Some? && s.store.positions[pid].exit.value.ts == now
  }

  // ---------------------------------------------------------------- hypotheses on the exchange

  /** The tracked order as the poll of this iteration would find it. */
  function Polled(s: State, io: Io): Exchange { Evolve(Evolve(s.ex, io.observe.env), io.poll.env) }

  /** A market order is found filled by the first poll that finds it. */
  predicate MarketFillsByPoll(s: State, io: Io) {
    MarketActive(s) && io.poll.reply.PollFound? && s.order.value.orderId < |Polled(s, io).orders| ==>
      Polled(s, io).orders[s.order.value.orderId].state.Filled?
  }

  /** A healthy iteration: no call fails, the tracked order is found, and the only rejects are the price limit
      on a reprice and the reduce-only reject of an exchange that has just become flat. */
  predicate Healthy(io: Io) {
    && io.ticker.Ok? && io.observe.openOrders.Ok? && io.observe.positions.Ok? && io.poll.reply.PollFound?
    && io.work.touch.Ok? && !io.work.cancelFails && !io.work.verifyRaises
    && io.reprice.book.Ok? && io.submit.book.Ok?
    && (io.reprice.reply.Accepted? || io.reprice.reply.PriceLimit? ||
        (io.reprice.reply.ReduceSync? && io.reprice.sync == Ok([])))
    && (io.submit.reply.Accepted? || (io.submit.reply.ReduceSync? && io.submit.sync == Ok([])))
  }

  /** The clock runs, no iteration stops the run, market orders fill by the poll, and every iteration starts at
      most `gap` after the last healthy one; the iterations in between may fail anywhere. `h` is the time of
      the last healthy iteration, and the last of the run comes later than `end`. */
  predicate Served(cfg: Config, s: State, h: int, now: int, gap: nat, end: int, ios: seq<Io>)
    requires cfg.grid > 0.0
    decreases |ios|
  {
    if ios == [] then h > end
    else
      var io := ios[0];
      && now <= io.now <= h + gap
      && !Iterate(cfg, s, io).flow.Stopped?
      && MarketFillsByPoll(s, io)
      && Served(cfg, Iterate(cfg, s, io).s, if Healthy(io) then io.now else h, io.now, gap, end, ios[1..])
  }

  // ---------------------------------------------------------------- one iteration

  lemma EvolveKeepsKind(ex: Exchange, env: seq<EnvEvent>, i: nat)
    requires i < |ex.orders|
    ensures i < |Evolve(ex, env).orders| && Evolve(ex, env).orders[i].market == ex.orders[i].market
  {
    assert AgedOrder(ex.orders[i], Evolve(ex, env).orders[i]);
  }

  lemma CancelKeepsKind(ex: Exchange, cid: Cid, i: nat)
    requires i < |ex.orders|
    ensures i < |Cancel(ex, cid).orders| && Cancel(ex, cid).orders[i].market == ex.orders[i].market
  {
    assert AgedOrder(ex.orders[i], Cancel(ex, cid).orders[i]);
  }

  lemma ObserveHolds(cfg: Config, s: State, pid: Pid, timeoutAt: int, due: int, io: Io)
    requires Holding(s, pid, timeoutAt, due)
    ensures var out := Observe(cfg, s, io);
            && out.s == s.(ex := Evolve(s.ex, io.observe.env))
            && Holding(out.s, pid, timeoutAt, due) && MarketActive(out.s) == MarketActive(s)
            && (Healthy(io) ==> out.flow.Proceed?)
  {
    if s.order.Some? && s.order.value.orderId < |s.ex.orders| {
      EvolveKeepsKind(s.ex, io.observe.env, s.order.value.orderId);
    }
  }

  lemma SyncCloses(cfg: Config, s: State, price: real, io: Io)
    requires s.position.Some? && s.store.Covers(s.position.value.id)
    ensures var s' := CloseBySync(cfg, s, price, io);
            s'.position.None? && ClosedAt(s', s.position.value.id, io.now)
  {
  }

  lemma ReplaceHolds(s: State, o: ActiveOrder, pid: Pid, timeoutAt: int, due: int, cid: Cid, price: real, now: int)
    requires Holding(s, pid, timeoutAt, due) && s.order == Some(o) && !MarketActive(s)
    ensures Holding(Replace(s, o, cid, price, now), pid, timeoutAt, due)
    ensures !MarketActive(Replace(s, o, cid, price, now))
  {
  }

  /** A maker chain is closed, dropped, given up, or kept at its age. */
  lemma RepriceHolds(cfg: Config, s: State, o: ActiveOrder, pid: Pid, timeoutAt: int, due: int, last: real,
                     flags: Flags, io: Io)
    requires cfg.grid > 0.0 && Holding(s, pid, timeoutAt, due) && s.order == Some(o) && !MarketActive(s)
    ensures var s' := Reprice(cfg, s, o, last, flags, io).s;
            if s'.position.None? then ClosedAt(s', pid, io.now)
            else Holding(s', pid, timeoutAt, due) && !MarketActive(s')
  {
    hide ResolveMakerPrice, Evolve, Cancel, CloseBySync, Replace, ClosedAt;
    var a := Evolve(s.ex, io.work.cancelEnv);
    EvolveKeepsKind(s.ex, io.work.cancelEnv, o.orderId);
    CancelKeepsKind(a, o.clientId, o.orderId);
    EvolveKeepsKind(Cancel(a, o.clientId), io.reprice.env, o.orderId);
    var placing := s.(nextId := s.nextId + 1, ex := Evolve(Cancel(a, o.clientId), io.reprice.env));
    SyncCloses(cfg, DropOrder(placing, o), last, io);
    if io.reprice.book.Ok? {
      var price := ResolveMakerPrice(o.side, io.reprice.book.value, io.reprice.limits, cfg.grid);
      ReplaceHolds(placing, o, pid, timeoutAt, due, s.nextId, price, io.now);
    }
  }

  lemma ExpireHolds(s: State, o: ActiveOrder, pid: Pid, timeoutAt: int, due: int, flags: Flags, io: Io)
    requires Holding(s, pid, timeoutAt, due) && s.order == Some(o) && !MarketActive(s)
    ensures var out := Expire(s, o, flags, io);
            && Holding(out.s, pid, timeoutAt, due) && !MarketActive(out.s)
            && (Healthy(io) ==> out.flow.Proceed? && out.s.order.None?)
  {
    hide Evolve, Cancel;
    var a := Evolve(s.ex, io.work.cancelEnv);
    EvolveKeepsKind(s.ex, io.work.cancelEnv, o.orderId);
    CancelKeepsKind(a, o.clientId, o.orderId);
    EvolveKeepsKind(Cancel(a, o.clientId), io.work.verifyEnv, o.orderId);
  }

  /** A filled exit closes the position; a dead one leaves it held without an order. */
  lemma FilledOrDeadHolds(cfg: Config, s: State, o: ActiveOrder, pid: Pid, timeoutAt: int, due: int, x: ExOrder,
                          price: real, flags: Flags, io: Io)
    requires Holding(s, pid, timeoutAt, due) && s.order == Some(o)
    ensures var out := OnFilled(cfg, s, o, x, price, flags, io);
            out.s.position.None? && out.s.order.None? && ClosedAt(out.s, pid, io.now)
    ensures var out := OnDead(s, o, flags);
            Holding(out.s, pid, timeoutAt, due) && out.s.order.None? && out.flow.Proceed?
  {
    hide BuildTradeRow;
  }

  /** What a poll leaves behind. A chain that is past its wait does not survive a healthy one. */
  lemma PollHolds(cfg: Config, s: State, pid: Pid, timeoutAt: int, due: int, last: real, flags: Flags, io: Io)
    requires cfg.grid > 0.0 && Holding(s, pid, timeoutAt, due)
    requires MarketActive(s) && io.poll.reply.PollFound? ==>
               && s.order.value.orderId < |Evolve(s.ex, io.poll.env).orders|
               && Evolve(s.ex, io.poll.env).orders[s.order.value.orderId].state.Filled?
    ensures var out := Poll(cfg, s, last, flags, io);
            && (if out.s.position.None? then ClosedAt(out.s, pid, io.now) && out.s.order.None?
                else
                  && Holding(out.s, pid, timeoutAt, due)
                  && (MarketActive(s) ==> out.s == s.(ex := out.s.ex) && MarketActive(out.s)))
            && (out.s.order.Some? && MarketActive(out.s) ==> MarketActive(s))
            && (Healthy(io) && MarketActive(s) ==> out.s.position.None?)
            && (Healthy(io) && io.now > due + MakerWait(cfg) && out.s.position.Some? ==>
                out.flow.Proceed? && out.s.order.None?)
  {
    hide OnWorking, Evolve, Cancel, ResolveMakerPrice, Reprice, Expire, OnFilled, OnDead, ClosedAt;
    if s.order.Some? {
      var o := s.order.value;
      var aged := s.(ex := Evolve(s.ex, io.poll.env));
      EvolveKeepsKind(s.ex, io.poll.env, o.orderId);
      if io.poll.reply.PollFound? {
        var price := Or(io.poll.reply.avgPx, Or(io.poll.reply.px, Some(last))).value;
        FilledOrDeadHolds(cfg, aged, o, pid, timeoutAt, due, aged.ex.orders[o.orderId], price, flags, io);
      }
      if !MarketActive(s) {
        RepriceHolds(cfg, aged, o, pid, timeoutAt, due, last, flags, io);
        ExpireHolds(aged, o, pid, timeoutAt, due, flags, io);
        RepriceForgets(cfg, aged, o, last, flags, io);
        WorkingCases(cfg, aged, o, last, flags, io);
      }
    }
  }

  lemma RepriceForgets(cfg: Config, s: State, o: ActiveOrder, last: real, flags: Flags, io: Io)
    requires cfg.grid > 0.0 && s.position.Some?
    ensures var s' := Reprice(cfg, s, o, last, flags, io).s; s'.position.None? ==> s'.order.None?
  {
    hide ResolveMakerPrice, Evolve, Cancel, FinalizeReconciledClose;
  }

  /** The three things that can happen to a working order, and which one a late healthy poll takes. */
  lemma WorkingCases(cfg: Config, s: State, o: ActiveOrder, last: real, flags: Flags, io: Io)
    requires cfg.grid > 0.0
    ensures forall px ::
              var out := OnWorking(cfg, s, o, px, last, flags, io);
              && (out == Reprice(cfg, s, o, last, flags, io) || out == Expire(s, o, flags, io) || out.s == s)
              && (Healthy(io) && io.now - o.createdAt > MaxWaitSec(cfg, o.purpose) ==> out == Expire(s, o, flags, io))
  {
    hide Reprice, Expire;
  }

  lemma SeekLeavesRows(cfg: Config, s: State, ticker: Ticker, flags: Flags, io: Io)
    requires cfg.grid > 0.0 && s.position.None?
    ensures var s' := Seek(cfg, s, ticker, flags, io).s; s'.store.positions == s.store.positions && s'.position.None?
  {
    hide ResolveMakerPrice, Evolve;
  }

  lemma TrackedExitHolds(s: State, pid: Pid, timeoutAt: int, due: int, cid: Cid, price: real, market: bool, now: int)
    requires Holding(s, pid, timeoutAt, due) && s.order.None? && (market || now <= due)
    ensures var s' := TrackExit(s, s.position.value, cid, price, market, now);
            Holding(s', pid, timeoutAt, due) && (market ==> MarketActive(s')) && s'.position.Some?
  {
  }

  lemma SubmitExitHolds(cfg: Config, s: State, pid: Pid, timeoutAt: int, due: int, market: bool, last: real,
                        flags: Flags, io: Io)
    requires cfg.grid > 0.0 && s.order.None? && Holding(s, pid, timeoutAt, due) && (market || io.now <= due)
    ensures var s' := SubmitExit(cfg, s, market, last, flags, io).s;
            && (if s'.position.None? then ClosedAt(s', pid, io.now) else Holding(s', pid, timeoutAt, due))
            && (Healthy(io) && market && s'.position.Some? ==> MarketActive(s'))
  {
    hide ResolveMakerPrice, Evolve, CloseBySync, TrackExit, ClosedAt;
    var a := s.(nextId := s.nextId + 1);
    var b := a.(ex := Evolve(s.ex, io.submit.env));
    SyncCloses(cfg, b, last, io);
    TrackedExitHolds(b, pid, timeoutAt, due, s.nextId, last, market, io.now);
    if io.submit.book.Ok? {
      var price := ResolveMakerPrice(ExpectedExitSide(s.position.value.side), io.submit.book.value, io.submit.limits,
          cfg.grid);
      TrackedExitHolds(b, pid, timeoutAt, due, s.nextId, price, market, io.now);
    }
  }

  /** With no order out, the exit phase closes, submits a maker order while the deadline is ahead, or submits a
      market order; past the deadline a healthy one never leaves the position without one of the last two. */
  lemma LeaveHolds(cfg: Config, s: State, pid: Pid, timeoutAt: int, start: int, last: real, flags: Flags, io: Io)
    requires cfg.grid > 0.0 && cfg.fallbackEnabled && s.order.None?
    requires Holding(s, pid, timeoutAt, Deadline(cfg, timeoutAt, start))
    ensures var s' := Leave(cfg, s, last, flags, io).s;
            && (if s'.position.None?
                then ClosedAt(s', pid, io.now)
                else Holding(s', pid, timeoutAt, Deadline(cfg, timeoutAt, start)))
            && (Healthy(io) && io.now > Deadline(cfg, timeoutAt, start) && s'.position.Some? ==> MarketActive(s'))
  {
    hide SubmitExit, ClosedAt;
    var reason := CheckExitReason(s.position.value, last, io.now);
    if reason.Some? {
      var lc := s.store.lifecycle;
      var s' := if lc.None? then s else WithLifecycle(s, Some(lc.value.OnExitTrigger(reason.value)));
      var market := ShouldUseMarketExit(cfg, s.position.value, io.now);
      SubmitExitHolds(cfg, s', pid, timeoutAt, Deadline(cfg, timeoutAt, start), market, last, flags, io);
    }
  }

  lemma IterationHolds(cfg: Config, s: State, pid: Pid, timeoutAt: int, start: int, io: Io)
    requires cfg.grid > 0.0 && cfg.fallbackEnabled
    requires Holding(s, pid, timeoutAt, Deadline(cfg, timeoutAt, start))
    requires MarketFillsByPoll(s, io) && !Iterate(cfg, s, io).flow.Stopped?
    ensures var s' := Iterate(cfg, s, io).s;
            && (ClosedAt(s', pid, io.now) || Holding(s', pid, timeoutAt, Deadline(cfg, timeoutAt, start)))
            && (MarketActive(s) ==> ClosedAt(s', pid, io.now) || MarketActive(s'))
            && (Healthy(io) && MarketActive(s) ==> ClosedAt(s', pid, io.now))
            && (Healthy(io) && io.now > Deadline(cfg, timeoutAt, start) + MakerWait(cfg) ==>
                ClosedAt(s', pid, io.now) || MarketActive(s'))
  {
    hide Observe, Poll, Seek, Leave;
    var due := Deadline(cfg, timeoutAt, start);
    var a := s.(control := Obey(s.control, io.requests), loops := s.loops + 1);
    if io.ticker.Ok? {
      var ticker := io.ticker.value;
      ObserveHolds(cfg, a, pid, timeoutAt, due, io);
      var seen := Observe(cfg, a, io);
      if s.order.Some? {
        EvolveKeepsKind(s.ex, io.observe.env, s.order.value.orderId);
        EvolveKeepsKind(seen.s.ex, io.poll.env, s.order.value.orderId);
      }
      PollHolds(cfg, seen.s, pid, timeoutAt, due, ticker.last, seen.flags, io);
      var polled := Poll(cfg, seen.s, ticker.last, seen.flags, io);
      if polled.s.order.None? {
        if polled.s.position.None? { SeekLeavesRows(cfg, polled.s, ticker, polled.flags, io); }
        else { LeaveHolds(cfg, polled.s, pid, timeoutAt, start, ticker.last, polled.flags, io); }
      }
    }
  }

  // ---------------------------------------------------------------- the whole run

  /** The bound, by induction on the run: `h` is the last healthy time so far. */
  lemma {:induction false} ClosesInTime(cfg: Config, s: State, pid: Pid, timeoutAt: int, start: int, h: int, now: int,
                                        gap: nat, ios: seq<Io>)
    returns (n: nat)
    requires cfg.grid > 0.0 && cfg.fallbackEnabled
    requires Holding(s, pid, timeoutAt, Deadline(cfg, timeoutAt, start))
    requires h <= Deadline(cfg, timeoutAt, start) + MakerWait(cfg) + if MarketActive(s) then gap else 0
    requires Served(cfg, s, h, now, gap, Deadline(cfg, timeoutAt, start) + MakerWait(cfg) + 2 * gap, ios)
    ensures 0 < n <= |ios| && ios[n - 1].now <= Deadline(cfg, timeoutAt, start) + MakerWait(cfg) + 2 * gap
    ensures ClosedAt(Run(cfg, s, ios[..n]).s, pid, ios[n - 1].now)
    decreases |ios|
  {
    hide Iterate, Holding, MarketActive, Healthy, MarketFillsByPoll, ClosedAt, Deadline;
    var io := ios[0];
    var s' := Iterate(cfg, s, io).s;
    IterationHolds(cfg, s, pid, timeoutAt, start, io);
    if ClosedAt(s', pid, io.now) {
      n := 1;
      assert Run(cfg, s', ios[..1][1..]).s == s';
    } else {
      var m := ClosesInTime(cfg, s', pid, timeoutAt, start, if Healthy(io) then io.now else h, io.now, gap, ios[1..]);
      n := m + 1;
      assert ios[..n][1..] == ios[1..][..m];
    }
  }

  /** Bounded close. A position held at `start` with no entry order out, and with any exit order created no later
      than `start`, is closed by max(start, timeout_at + grace) + maximum maker wait + 2 * gap, in every run in
      which the hypotheses above hold and which goes on for longer than that. */
  lemma HeldPositionIsClosedInTime(cfg: Config, s: State, start: int, gap: nat, ios: seq<Io>)
    requires cfg.grid > 0.0 && cfg.fallbackEnabled
    requires s.position.Some? && s.store.Covers(s.position.value.id)
    requires s.order.Some? ==>
               && s.order.value.purpose.Exit? && s.order.value.orderId < |s.ex.orders|
               && s.order.value.createdAt <= start
    requires Served(cfg, s, start, start, gap,
               Deadline(cfg, s.position.value.timeoutAt, start) + MakerWait(cfg) + 2 * gap, ios)
    ensures exists n: nat :: 0 < n <= |ios|
              && ios[n - 1].now <= Deadline(cfg, s.position.value.timeoutAt, start) + MakerWait(cfg) + 2 * gap
              && ClosedAt(Run(cfg, s, ios[..n]).s, s.position.value.id, ios[n - 1].now)
  {
    var n := ClosesInTime(cfg, s, s.position.value.id, s.position.value.timeoutAt, start, start, start, gap, ios);
  }

  // ---------------------------------------------------------------- the bound is tight

  const TIGHT := Config(1.0, 0, 10, 100, 8, 7, 3, 300, true, 5, 5, 3, 3, 30, 20, 0.0, 0.0, 1.0, 1.0, None, None)

  const HELD := ActivePosition(Fresh(0), Long, 1.0, -305, 1.0, 8.0, -2.0, -5, 0)

  const MAKER_EXIT := ExOrder(1, Sell, 1.0, 0.0, Live, true, false, true, Some(2.0))

  const MARKET_EXIT := ExOrder(2, Sell, 1.0, 0.0, Live, true, true, true, None)

  /** Held since long ago, its grace ending now, with a maker exit placed now. */
  const HELD_STATE :=
    State(Some(ActiveOrder(0, 1, Sell, Exit, 0, 0, true, 1.0)), Some(HELD), Timers(None, None), Control(NoStop, true),
      Store("demo", map[Fresh(0) := PositionRow("demo", Long, 1.0, -305, 1.0, None)],
        map[Fresh(0) := PositionMeta(Long, 1.0, None, None, Some(1), None)], map[],
        map[1 := OrderRow(None, None, 1, 0, 0)], None, None, 0, 0, 0),
      2, 0, 0, Exchange([MAKER_EXIT]), History(0, 0, 1, 0, 0, 1, 0, []))

  const NOTHING := PlaceIo(Ok(Book(1.0, 2.0)), None, [], Accepted, Ok([]))

  function HealthyIo(now: int, pollEnv: seq<EnvEvent>): (io: Io)
    ensures Healthy(io)
  {
    Io(now, [], Ok(Ticker(1.0, 1000 * now)), ObserveIo([], Ok(0), Ok([]), []), PollIo(pollEnv, PollFound(None, None)),
       WorkIo(Ok(Book(1.0, 2.0)), [], false, [], false, false), NOTHING, [], Long, NOTHING, Ok(([], [])))
  }

  const EXPIRED :=
    HELD_STATE.(order := None, position := Some(HELD.(attempts := 1)), loops := 2,
        ex := Exchange([MAKER_EXIT.(state := Canceled)]))

  const SUBMITTED :=
    EXPIRED.(order := Some(ActiveOrder(1, 2, Sell, Exit, 18, 18, true, 1.0)), nextId := 3,
             ex := Exchange([MAKER_EXIT.(state := Canceled), MARKET_EXIT]),
             store := HELD_STATE.store.SaveSubmitted(2, false, None, None, Some(Fresh(0))))

  lemma QuietEvolve(ex: Exchange)
    ensures Evolve(ex, []) == ex
  {
  }

  /** At its maximum wait exactly the maker order is still left alone. */
  lemma WaitStep()
    ensures var out := Iterate(TIGHT, HELD_STATE, HealthyIo(8, []));
            out.s == HELD_STATE.(loops := 1) && !out.flow.Stopped?
  {
    hide Reprice, Expire, OnFilled, OnDead, Evolve, CancelAll;
    QuietEvolve(HELD_STATE.ex);
  }

  /** Past it the order expires, and the exit goes out again as a market order. */
  lemma ExpireStep()
    ensures var out := Iterate(TIGHT, HELD_STATE.(loops := 1), HealthyIo(18, []));
            out.s == SUBMITTED && !out.flow.Stopped?
  {
    hide Reprice, OnFilled, OnDead, Evolve, CancelAll, ResolveMakerPrice;
    QuietEvolve(HELD_STATE.ex);
    QuietEvolve(EXPIRED.ex);
    var canceled := Cancel(HELD_STATE.ex, 1);
    assert canceled.orders == EXPIRED.ex.orders;
    var s := HELD_STATE.(loops := 2);
    var io := HealthyIo(18, []);
    var expired := Expire(s, s.order.value, Flags(true, true), io);
    assert expired.s == EXPIRED && expired.flow.Proceed?;
  }

  lemma FillStep()
    ensures var io := HealthyIo(28, [Fill(1, 1.0)]);
            var out := Iterate(TIGHT, SUBMITTED, io);
            && !out.flow.Stopped? && ClosedAt(out.s, Fresh(0), 28) && MarketFillsByPoll(SUBMITTED, io)
            && out.s.order.None? && out.s.position.None? && out.s.control == Control(NoStop, true)
            && out.s.timers == Timers(None, Some(48))
  {
    hide ResolveMakerPrice, BuildTradeRow, CancelAll, OnWorking, OnDead, Enter;
    QuietEvolve(SUBMITTED.ex);
    var full := Apply(SUBMITTED.ex, Fill(1, 1.0));
    assert [Fill(1, 1.0)][1..] == [];
    assert Evolve(SUBMITTED.ex, [Fill(1, 1.0)]) == full;
    assert full.orders == [MAKER_EXIT.(state := Canceled), MARKET_EXIT.(filled := 1.0, state := Filled)];
  }

  lemma IdleStep(s: State)
    requires s.order.None? && s.position.None? && s.control == Control(NoStop, true)
    requires s.timers == Timers(None, Some(48))
    ensures !Iterate(TIGHT, s, HealthyIo(38, [])).flow.Stopped?
  {
    hide ResolveMakerPrice, Evolve, CancelAll, Enter;
  }

  /** A run that meets every hypothesis of the bound, uses up the grace, the maximum maker wait and both gaps, and
      closes its position only at the last allowed moment. */
  lemma BoundIsReached() returns (ios: seq<Io>)
    ensures TIGHT.graceSec > 0 && MakerWait(TIGHT) > 0
    ensures var end := Deadline(TIGHT, HELD.timeoutAt, 0) + MakerWait(TIGHT) + 2 * 10;
            && Served(TIGHT, HELD_STATE, 0, 0, 10, end, ios) && |ios| >= 3
            && Run(TIGHT, HELD_STATE, ios[..2]).s.position == Some(HELD.(attempts := 1))
            && ClosedAt(Run(TIGHT, HELD_STATE, ios[..3]).s, HELD.id, end)
  {
    hide Iterate, ClosedAt, MarketFillsByPoll;
    var a, b, c, d := HealthyIo(8, []), HealthyIo(18, []), HealthyIo(28, [Fill(1, 1.0)]), HealthyIo(38, []);
    ios := [a, b, c, d];
    WaitStep();
    ExpireStep();
    FillStep();
    var waited := HELD_STATE.(loops := 1);
    var closed := Iterate(TIGHT, SUBMITTED, c).s;
    IdleStep(closed);
    NoMarketOrder(HELD_STATE, a); NoMarketOrder(waited, b); NoMarketOrder(closed, d);
    assert ios[1..] == [b, c, d] && [b, c, d][1..] == [c, d] && [c, d][1..] == [d] && [d][1..] == [];
    assert ios[..2] == [a, b] && [a, b][1..] == [b] && [b][1..] == [];
    assert ios[..3] == [a, b, c] && [a, b, c][1..] == [b, c] && [b, c][1..] == [c] && [c][1..] == [];
    assert Run(TIGHT, SUBMITTED, [c]).s == closed && Run(TIGHT, waited, [b, c]).s == closed;
    assert Run(TIGHT, waited, [b]).s == SUBMITTED;
    assert Served(TIGHT, closed, 28, 28, 10, 28, [d]);
    assert Served(TIGHT, SUBMITTED, 18, 18, 10, 28, [c, d]);
    assert Served(TIGHT, waited, 8, 8, 10, 28, [b, c, d]);
  }

  lemma NoMarketOrder(s: State, io: Io)
    requires !MarketActive(s)
    ensures MarketFillsByPoll(s, io)
  {
  }
}
