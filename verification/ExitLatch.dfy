/** What stays fixed about one position while it is held, across any number of iterations. */
module ExitLatch {
  import opened Common
  import opened PositionState
  import opened Exchange
  import opened Store
  import opened RunLoop

  /** Nothing came in and nothing was finalized between the two states. */
  predicate SameCycle(s: State, s': State) {
    && s'.history.restored == s.history.restored && s'.history.entered == s.history.entered
    && s'.history.finalized == s.history.finalized
  }

  /** The counts of positions in and out never fall, and within one cycle the position keeps every term and its
      failed attempts never fall. */
  predicate Ages(s: State, s': State) {
    && s.history.restored <= s'.history.restored && s.history.entered <= s'.history.entered
    && s.history.finalized <= s'.history.finalized
    && (SameCycle(s, s') && s.position.Some? ==>
          && s'.position.Some? && s.position.value.attempts <= s'.position.value.attempts
          && s'.position.value == s.position.value.(attempts := s'.position.value.attempts))
  }

  lemma FilledAges(cfg: Config, s: State, o: ActiveOrder, x: ExOrder, price: real, flags: Flags, io: Io)
    ensures Ages(s, OnFilled(cfg, s, o, x, price, flags, io).s)
  {
    hide BuildActivePosition, FinalizeClosedTrade;
  }

  lemma DeadOrLateAges(s: State, o: ActiveOrder, flags: Flags, io: Io)
    ensures Ages(s, OnDead(s, o, flags).s) && Ages(s, Expire(s, o, flags, io).s)
  {
    hide Evolve, Cancel;
  }

  lemma PollAges(cfg: Config, s: State, last: real, flags: Flags, io: Io)
    requires cfg.grid > 0.0
    ensures Ages(s, Poll(cfg, s, last, flags, io).s)
  {
    hide Evolve, Cancel, Reprice, OnFilled, OnDead, Expire;
    if s.order.Some? {
      var aged := s.(ex := Evolve(s.ex, io.poll.env));
      RepriceAges(cfg, aged, s.order.value, last, flags, io);
      DeadOrLateAges(aged, s.order.value, flags, io);
      if io.poll.reply.PollFound? && s.order.value.orderId < |aged.ex.orders| {
        var price := Or(io.poll.reply.avgPx, Or(io.poll.reply.px, Some(last))).value;
        FilledAges(cfg, aged, s.order.value, aged.ex.orders[s.order.value.orderId], price, flags, io);
      }
    }
  }

  lemma RepriceAges(cfg: Config, s: State, o: ActiveOrder, last: real, flags: Flags, io: Io)
    requires cfg.grid > 0.0
    ensures Ages(s, Reprice(cfg, s, o, last, flags, io).s)
  {
    hide Evolve, Cancel, ResolveMakerPrice, FinalizeReconciledClose;
  }

  lemma ActAges(cfg: Config, s: State, ticker: Ticker, flags: Flags, io: Io)
    requires cfg.grid > 0.0
    ensures Ages(s, Act(cfg, s, ticker, flags, io).s)
  {
    hide Evolve, ResolveMakerPrice, FinalizeReconciledClose, CheckExitReason;
  }

  lemma IterationAges(cfg: Config, s: State, io: Io)
    requires cfg.grid > 0.0
    ensures Ages(s, Iterate(cfg, s, io).s)
  {
    hide Poll, Act, Evolve, CancelAll;
    var a := s.(control := Obey(s.control, io.requests), loops := s.loops + 1);
    if io.ticker.Ok? {
      var seen := Observe(cfg, a, io);
      PollAges(cfg, seen.s, io.ticker.value.last, seen.flags, io);
      var polled := Poll(cfg, seen.s, io.ticker.value.last, seen.flags, io);
      ActAges(cfg, polled.s, io.ticker.value, polled.flags, io);
    }
  }

  lemma {:induction false} RunAges(cfg: Config, s: State, ios: seq<Io>)
    requires cfg.grid > 0.0
    ensures Ages(s, Run(cfg, s, ios).s)
    decreases |ios|
  {
    hide Iterate;
    if ios != [] {
      IterationAges(cfg, s, ios[0]);
      RunAges(cfg, Iterate(cfg, s, ios[0]).s, ios[1..]);
    }
  }

  /** Latches over runs: while one position stays held, a timeout reason or a market exit selected at some time is
      selected at every later time of the run, whatever the prices did and however many iterations went by. */
  lemma ExitChoicesStayLatched(cfg: Config, s: State, ios: seq<Io>, price: real, price': real, now: int, now': int)
    requires cfg.grid > 0.0 && s.position.Some? && now <= now' && SameCycle(s, Run(cfg, s, ios).s)
    ensures var s' := Run(cfg, s, ios).s;
            && s'.position.Some? && s'.position.value.attempts >= s.position.value.attempts
            && (CheckExitReason(s.position.value, price, now) == Some(Timeout) ==>
                CheckExitReason(s'.position.value, price', now') == Some(Timeout))
            && (ShouldUseMarketExit(cfg, s.position.value, now) ==> ShouldUseMarketExit(cfg, s'.position.value, now'))
  {
    RunAges(cfg, s, ios);
    ExitChoicesAreLatched(cfg, s.position.value, Run(cfg, s, ios).s.position.value, price, price', now, now');
  }
}
