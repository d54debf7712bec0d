/** A real time bound on draining: after a drain request a held position is closed and the loop stops. */
module BoundedDrain {
  import opened Common
  import opened PositionState
  import opened Exchange
  import opened Store
  import opened RunLoop
  import opened OrderTracking
  import opened Pacing
  import opened BoundedClose

  predicate Flat(s: State) { s.order.None? && s.position.None? }

  /** Asked to drain, and not to stop by force. */
  predicate Draining(s: State) { !s.control.allowNew && !s.control.mode.Force? }

  predicate NoForce(requests: seq<Request>) { forall i :: 0 <= i < |requests| ==> !requests[i].RequestForce? }

  predicate NoSmokeLimits(cfg: Config) { cfg.maxLoops.None? && cfg.runSeconds.None? }

  /** Once the position is closed the exchange reports neither an open order nor a position, when it answers. */
  predicate FlatReports(s: State, io: Io) {
    s.position.None? ==>
      && (io.observe.openOrders.Ok? ==> io.observe.openOrders.value == 0)
      && (io.observe.positions.Ok? ==> io.observe.positions.value == [])
  }

  /** The hypotheses of the bounded close, without its "no iteration stops", and with the reports above; nobody asks for
      a force stop. The run goes on until an iteration stops or `end` is over. */
  predicate ServedDrain(cfg: Config, s: State, h: int, now: int, gap: nat, end: int, ios: seq<Io>)
    requires cfg.grid > 0.0
    decreases |ios|
  {
    if ios == [] then h > end
    else
      var io := ios[0];
      var out := Iterate(cfg, s, io);
      && now <= io.now <= h + gap
      && NoForce(io.requests) && NoForce(io.lateRequests) && FlatReports(s, io) && MarketFillsByPoll(s, io)
      && (out.flow.Stopped? || ServedDrain(cfg, out.s, if Healthy(io) then io.now else h, io.now, gap, end, ios[1..]))
  }

  lemma RequestsKeepDraining(c: Control, requests: seq<Request>)
    requires !c.allowNew && !c.mode.Force? && NoForce(requests)
    ensures !Obey(c, requests).allowNew && !Obey(c, requests).mode.Force?
  {
    LastRequestWins(c, requests);
  }

  // ---------------------------------------------------------------- while the position is held

  lemma LeaveClosesFlat(cfg: Config, s: State, last: real, flags: Flags, io: Io)
    requires cfg.grid > 0.0 && s.order.None? && s.position.Some?
    ensures var s' := Leave(cfg, s, last, flags, io).s;
            && (s'.position.None? ==> s'.order.None?) && s'.control == s.control
  {
    hide ResolveMakerPrice, Evolve, FinalizeReconciledClose, CheckExitReason, ShouldUseMarketExit;
  }

  lemma PollKeepsControl(cfg: Config, s: State, last: real, flags: Flags, io: Io)
    requires cfg.grid > 0.0
    ensures Poll(cfg, s, last, flags, io).s.control == s.control
  {
    hide Poll;
    PollClock(cfg, s, last, flags, io);
  }

  lemma SeekWhileDraining(cfg: Config, s: State, ticker: Ticker, flags: Flags, io: Io)
    requires cfg.grid > 0.0 && Draining(s) && NoForce(io.lateRequests)
    ensures var out := Seek(cfg, s, ticker, flags, io);
            && out.s == s.(control := Obey(s.control, io.lateRequests)) && Draining(out.s)
            && (out.flow.Stopped? <==> !flags.activeOrder)
  {
    hide Obey;
    RequestsKeepDraining(s.control, io.lateRequests);
  }

  /** An iteration ends with the position held, or with nothing held and nothing tracked. */
  lemma HeldIteration(cfg: Config, s: State, pid: Pid, timeoutAt: int, start: int, io: Io)
    requires cfg.grid > 0.0 && cfg.fallbackEnabled && NoSmokeLimits(cfg) && Draining(s)
    requires Holding(s, pid, timeoutAt, Deadline(cfg, timeoutAt, start))
    requires NoForce(io.requests) && NoForce(io.lateRequests) && MarketFillsByPoll(s, io)
    ensures var s' := Iterate(cfg, s, io).s;
            && Draining(s')
            && (if s'.position.None? then Flat(s') else Holding(s', pid, timeoutAt, Deadline(cfg, timeoutAt, start)))
  {
    hide Observe, Poll, Seek, Leave, Obey, Holding, MarketActive;
    var due := Deadline(cfg, timeoutAt, start);
    var a := s.(control := Obey(s.control, io.requests), loops := s.loops + 1);
    RequestsKeepDraining(s.control, io.requests);
    HoldingFrame(s, a, pid, timeoutAt, due);
    if io.ticker.Ok? {
      var ticker := io.ticker.value;
      ObserveHolds(cfg, a, pid, timeoutAt, due, io);
      ObserveClock(cfg, a, io);
      var seen := Observe(cfg, a, io);
      PolledMarketIsFilled(s, seen.s, io);
      PollHolds(cfg, seen.s, pid, timeoutAt, due, ticker.last, seen.flags, io);
      PollKeepsControl(cfg, seen.s, ticker.last, seen.flags, io);
      var polled := Poll(cfg, seen.s, ticker.last, seen.flags, io);
      if polled.s.order.None? {
        if polled.s.position.None? {
          SeekWhileDraining(cfg, polled.s, ticker, polled.flags, io);
        } else {
          LeaveHolds(cfg, polled.s, pid, timeoutAt, start, ticker.last, polled.flags, io);
          LeaveClosesFlat(cfg, polled.s, ticker.last, polled.flags, io);
        }
      }
    }
    HeldIsPosition(Iterate(cfg, s, io).s, pid, timeoutAt, due);
  }

  lemma HeldIsPosition(s: State, pid: Pid, timeoutAt: int, due: int)
    ensures Holding(s, pid, timeoutAt, due) ==> s.position.Some?
  {
  }

  lemma HoldingFrame(s: State, s': State, pid: Pid, timeoutAt: int, due: int)
    requires Holding(s, pid, timeoutAt, due) && s' == s.(control := s'.control, loops := s'.loops)
    ensures Holding(s', pid, timeoutAt, due) && MarketActive(s') == MarketActive(s)
  {
  }

  lemma PolledMarketIsFilled(s: State, seen: State, io: Io)
    requires MarketFillsByPoll(s, io) && seen.order == s.order && seen.ex == Evolve(s.ex, io.observe.env)
    ensures MarketActive(seen) && MarketActive(s) && io.poll.reply.PollFound? ==>
              var ex := Evolve(seen.ex, io.poll.env);
              s.order.value.orderId < |ex.orders| && ex.orders[s.order.value.orderId].state.Filled?
  {
    if s.order.Some? && s.order.value.orderId < |s.ex.orders| {
      EvolveKeepsKind(s.ex, io.observe.env, s.order.value.orderId);
      EvolveKeepsKind(seen.ex, io.poll.env, s.order.value.orderId);
    }
  }

  // ---------------------------------------------------------------- once it is closed

  /** The iteration that finds the exit filled is also the one that stops a draining loop, whatever the snapshots of the
      same iteration still report. */
  lemma ExitFillEndsTheDrain(cfg: Config, s: State, io: Io)
    requires cfg.grid > 0.0 && NoSmokeLimits(cfg) && Draining(s)
    requires s.position.Some? && s.order.Some? && s.order.value.purpose.Exit?
    requires NoForce(io.requests) && NoForce(io.lateRequests) && io.poll.reply.PollFound?
    requires io.ticker.Ok? && io.observe.openOrders.Ok? && io.observe.positions.Ok?
    requires var ex := Evolve(Evolve(s.ex, io.observe.env), io.poll.env);
             s.order.value.orderId < |ex.orders| && ex.orders[s.order.value.orderId].state.Filled?
    ensures var out := Iterate(cfg, s, io); out.flow.Stopped? && Flat(out.s)
  {
    hide Evolve, Obey, Seek, FinalizeClosedTrade;
    RequestsKeepDraining(s.control, io.requests);
    var a := s.(control := Obey(s.control, io.requests), loops := s.loops + 1);
    var seen := Observe(cfg, a, io);
    var polled := Poll(cfg, seen.s, io.ticker.value.last, seen.flags, io);
    SeekWhileDraining(cfg, polled.s, io.ticker.value, polled.flags, io);
  }

  /** With nothing left, an iteration keeps it so, and the first one whose calls succeed stops the loop. */
  lemma FlatIteration(cfg: Config, s: State, io: Io)
    requires cfg.grid > 0.0 && NoSmokeLimits(cfg) && Draining(s) && Flat(s)
    requires NoForce(io.requests) && NoForce(io.lateRequests) && FlatReports(s, io)
    ensures var out := Iterate(cfg, s, io);
            Draining(out.s) && Flat(out.s) && (Healthy(io) ==> out.flow.Stopped?)
  {
    hide Evolve, CancelAll, Obey, Seek;
    RequestsKeepDraining(s.control, io.requests);
    var a := s.(control := Obey(s.control, io.requests), loops := s.loops + 1);
    if io.ticker.Ok? {
      var seen := Observe(cfg, a, io);
      SeekWhileDraining(cfg, seen.s, io.ticker.value, seen.flags, io);
    }
  }

  // ---------------------------------------------------------------- the whole run

  lemma {:induction false} DrainStops(cfg: Config, s: State, pid: Pid, timeoutAt: int, start: int, h: int, now: int,
                                      gap: nat, ios: seq<Io>)
    returns (n: nat)
    requires cfg.grid > 0.0 && cfg.fallbackEnabled && NoSmokeLimits(cfg) && Draining(s)
    requires var late := Deadline(cfg, timeoutAt, start) + MakerWait(cfg);
             if s.position.None? then Flat(s) && h <= late + 2 * gap
             else
               && Holding(s, pid, timeoutAt, Deadline(cfg, timeoutAt, start))
               && h <= late + if MarketActive(s) then gap else 0
    requires ServedDrain(cfg, s, h, now, gap, Deadline(cfg, timeoutAt, start) + MakerWait(cfg) + 3 * gap, ios)
    ensures 0 < n <= |ios| && ios[n - 1].now <= Deadline(cfg, timeoutAt, start) + MakerWait(cfg) + 3 * gap
    ensures var out := Run(cfg, s, ios[..n]); out.flow.Stopped? && Flat(out.s) && Draining(out.s)
    decreases |ios|
  {
    hide Iterate, Holding, MarketActive, Healthy, MarketFillsByPoll, ClosedAt, Deadline;
    var io := ios[0];
    var out := Iterate(cfg, s, io);
    if s.position.Some? {
      HeldIteration(cfg, s, pid, timeoutAt, start, io);
      if !out.flow.Stopped? { IterationHolds(cfg, s, pid, timeoutAt, start, io); }
      ClosedIsNotHeld(out.s, pid, timeoutAt, Deadline(cfg, timeoutAt, start), io.now);
    } else {
      FlatIteration(cfg, s, io);
    }
    if out.flow.Stopped? {
      n := 1;
      if out.s.position.Some? { StoppedIsDrained(cfg, s, io); }
    } else {
      var m := DrainStops(cfg, out.s, pid, timeoutAt, start, if Healthy(io) then io.now else h, io.now, gap, ios[1..]);
      n := m + 1;
      assert ios[..n][1..] == ios[1..][..m];
    }
  }

  lemma ClosedIsNotHeld(s: State, pid: Pid, timeoutAt: int, due: int, now: int)
    ensures !(ClosedAt(s, pid, now) && Holding(s, pid, timeoutAt, due))
  {
  }

  lemma StoppedIsDrained(cfg: Config, s: State, io: Io)
    requires cfg.grid > 0.0 && NoSmokeLimits(cfg) && Draining(s) && NoForce(io.requests)
    requires Iterate(cfg, s, io).flow.Stopped?
    ensures Iterate(cfg, s, io).s.position.None?
  {
    hide Iterate;
    RequestsKeepDraining(s.control, io.requests);
    DrainStopIsFlat(cfg, s, io);
  }

  /** Bounded drain. After a drain request, a position held at `start` with no entry order out, and with any exit order
      created no later than `start`, is closed and the loop stops by max(start, timeout_at + grace) + maximum maker
      wait + 3 * gap: one gap after the bound on the close. Then nothing is held, nothing is tracked, and no executor
      order works on the exchange. */
  lemma DrainStopsInTime(cfg: Config, s: State, start: int, gap: nat, ios: seq<Io>)
    requires cfg.grid > 0.0 && cfg.fallbackEnabled && NoSmokeLimits(cfg) && Draining(s) && InStep(s)
    requires s.position.Some? && s.store.Covers(s.position.value.id)
    requires s.order.Some? ==>
               && s.order.value.purpose.Exit? && s.order.value.orderId < |s.ex.orders|
               && s.order.value.createdAt <= start
    requires ServedDrain(cfg, s, start, start, gap,
                         Deadline(cfg, s.position.value.timeoutAt, start) + MakerWait(cfg) + 3 * gap, ios)
    ensures exists n: nat ::
              && 0 < n <= |ios|
              && ios[n - 1].now <= Deadline(cfg, s.position.value.timeoutAt, start) + MakerWait(cfg) + 3 * gap
              && var out := Run(cfg, s, ios[..n]);
                 out.flow.Stopped? && Flat(out.s) && forall i: nat :: !out.s.ex.WorkingOurs(i)
  {
    hide Run, ServedDrain;
    var n := DrainStops(cfg, s, s.position.value.id, s.position.value.timeoutAt, start, start, start, gap, ios);
    DrainedRunIsFlat(cfg, s, ios[..n]);
  }
}
