/** No executor order works on the exchange unless the loop tracks it: kept by every phase, every exit and
    every exception, whatever the exchange does between two calls. */
module OrderTracking {
  import opened Common
  import opened PositionState
  import opened Exchange
  import opened Store
  import opened RunLoop

  /** The executor's working orders are among the single tracked order. */
  ghost predicate Tracked(s: State) {
    forall i: nat :: s.ex.WorkingOurs(i) ==> s.order.Some? && s.order.value.orderId == i
  }

  /** The tracked order's exchange id and client id name the same order. */
  predicate Linked(s: State) {
    s.order.Some? ==>
      var o := s.order.value;
      o.orderId < |s.ex.orders| && s.ex.orders[o.orderId].cid == o.clientId && s.ex.orders[o.orderId].side == o.side
  }

  ghost predicate InStep(s: State) { Tracked(s) && Linked(s) }

  /** Time passing on the exchange keeps the two in step. */
  lemma TimeKeepsStep(s: State, ex: Exchange)
    requires InStep(s) && Later(s.ex, ex)
    ensures InStep(s.(ex := ex))
  {
    forall i: nat | ex.WorkingOurs(i) ensures s.order.Some? && s.order.value.orderId == i {
      assert i < |s.ex.orders|;
      assert AgedOrder(s.ex.orders[i], ex.orders[i]);
      assert s.ex.WorkingOurs(i);
    }
    if s.order.Some? { assert AgedOrder(s.ex.orders[s.order.value.orderId], ex.orders[s.order.value.orderId]); }
  }

  /** Once the tracked order has been cancelled nothing of ours works, now or later. */
  lemma CancelLeavesNothing(s: State, ex: Exchange)
    requires InStep(s) && s.order.Some? && Later(Cancel(s.ex, s.order.value.clientId), ex)
    ensures forall i: nat :: !ex.WorkingOurs(i)
  {
    var mid := Cancel(s.ex, s.order.value.clientId);
    TimeKeepsStep(s, mid);
    forall i: nat ensures !ex.WorkingOurs(i) {
      assert i < |mid.orders| ==> AgedOrder(mid.orders[i], ex.orders[i]);
      assert ex.WorkingOurs(i) ==> mid.WorkingOurs(i);
    }
  }

  /** Where nothing of ours worked, an accepted placement leaves exactly the placed order working. */
  lemma OnlyThePlacedWorks(ex: Exchange, cid: Cid, side: OrderSide, size: real, reduceOnly: bool)
    requires forall i: nat :: !ex.WorkingOurs(i)
    ensures forall limit, i: nat :: Place(ex, cid, side, size, reduceOnly, limit).WorkingOurs(i) ==> i == |ex.orders|
  {
    forall limit, i: nat
      ensures Place(ex, cid, side, size, reduceOnly, limit).WorkingOurs(i) ==> i == |ex.orders|
    {
      var placed := Place(ex, cid, side, size, reduceOnly, limit);
      assert i < |ex.orders| && placed.WorkingOurs(i) ==> ex.WorkingOurs(i);
    }
  }

  lemma ObserveKeepsStep(cfg: Config, s: State, io: Io)
    requires InStep(s)
    ensures InStep(Observe(cfg, s, io).s)
  {
    var aged := s.(ex := Evolve(s.ex, io.observe.env));
    TimeKeepsStep(s, aged.ex);
    TimeKeepsStep(aged, CancelAll(aged.ex, io.observe.swept));
  }

  lemma RepriceKeepsStep(cfg: Config, s: State, o: ActiveOrder, last: real, flags: Flags, io: Io)
    requires cfg.grid > 0.0 && InStep(s) && s.order == Some(o)
    ensures InStep(Reprice(cfg, s, o, last, flags, io).s)
  {
    hide Evolve, Cancel, ResolveMakerPrice, FinalizeReconciledClose;
    var a := s.(ex := Evolve(s.ex, io.work.cancelEnv));
    TimeKeepsStep(s, a.ex);
    var b := a.(ex := Cancel(a.ex, o.clientId));
    TimeKeepsStep(a, b.ex);
    var c := b.(ex := Evolve(b.ex, io.reprice.env));
    TimeKeepsStep(b, c.ex);
    LaterTransitive(a.ex, b.ex, c.ex);
    CancelLeavesNothing(a, c.ex);
    OnlyThePlacedWorks(c.ex, s.nextId, o.side, o.size, o.reduceOnly);
  }

  lemma ExpireKeepsStep(s: State, o: ActiveOrder, flags: Flags, io: Io)
    requires InStep(s) && s.order == Some(o)
    ensures InStep(Expire(s, o, flags, io).s)
  {
    var a := s.(ex := Evolve(s.ex, io.work.cancelEnv));
    TimeKeepsStep(s, a.ex);
    var b := a.(ex := Evolve(Cancel(a.ex, o.clientId), io.work.verifyEnv));
    LaterTransitive(a.ex, Cancel(a.ex, o.clientId), b.ex);
    TimeKeepsStep(a, b.ex);
    CancelLeavesNothing(a, b.ex);
    if b.ex.Working(o.orderId) {
      LaterTransitive(Cancel(a.ex, o.clientId), b.ex, Cancel(b.ex, o.clientId));
      CancelLeavesNothing(a, Cancel(b.ex, o.clientId));
    }
  }

  /** An order that is found filled, cancelled or rejected can be forgotten. */
  lemma ForgettingKeepsStep(s: State, s': State)
    requires InStep(s) && s.order.Some? && !s.ex.Working(s.order.value.orderId) && s'.ex == s.ex && s'.order.None?
    ensures InStep(s')
  {
    assert forall i: nat :: s'.ex.WorkingOurs(i) ==> s.ex.WorkingOurs(i);
  }

  lemma FilledForgets(cfg: Config, s: State, o: ActiveOrder, x: ExOrder, price: real, flags: Flags, io: Io)
    ensures var s' := OnFilled(cfg, s, o, x, price, flags, io).s; s'.ex == s.ex && s'.order.None?
    ensures var s' := OnDead(s, o, flags).s; s'.ex == s.ex && s'.order.None?
  {
    hide FinalizeClosedTrade, BuildActivePosition;
  }

  lemma PollKeepsStep(cfg: Config, s: State, last: real, flags: Flags, io: Io)
    requires cfg.grid > 0.0 && InStep(s)
    ensures InStep(Poll(cfg, s, last, flags, io).s)
  {
    hide Evolve, Reprice, Expire, OnFilled, OnDead, InStep;
    if s.order.Some? {
      var o := s.order.value;
      var aged := s.(ex := Evolve(s.ex, io.poll.env));
      TimeKeepsStep(s, aged.ex);
      if io.poll.reply.PollFound? && o.orderId < |aged.ex.orders| && !aged.ex.Working(o.orderId) {
        var x := aged.ex.orders[o.orderId];
        var price := Or(io.poll.reply.avgPx, Or(io.poll.reply.px, Some(last))).value;
        FilledForgets(cfg, aged, o, x, price, flags, io);
        ForgettingKeepsStep(aged, OnFilled(cfg, aged, o, x, price, flags, io).s);
        ForgettingKeepsStep(aged, OnDead(aged, o, flags).s);
      }
      RepriceKeepsStep(cfg, aged, o, last, flags, io);
      ExpireKeepsStep(aged, o, flags, io);
    }
  }

  lemma EnterKeepsStep(cfg: Config, s: State, cid: Cid, flags: Flags, io: Io)
    requires cfg.grid > 0.0 && InStep(s) && s.order.None?
    ensures InStep(Enter(cfg, s, cid, flags, io).s)
  {
    var aged := s.(ex := Evolve(s.ex, io.submit.env));
    TimeKeepsStep(s, aged.ex);
    assert forall i: nat :: !aged.ex.WorkingOurs(i);
    OnlyThePlacedWorks(aged.ex, cid, if io.pick.Long? then Buy else Sell, cfg.orderSize, false);
  }

  lemma SubmitExitKeepsStep(cfg: Config, s: State, market: bool, last: real, flags: Flags, io: Io)
    requires cfg.grid > 0.0 && InStep(s) && s.order.None? && s.position.Some?
    ensures InStep(SubmitExit(cfg, s, market, last, flags, io).s)
  {
    var aged := s.(ex := Evolve(s.ex, io.submit.env));
    TimeKeepsStep(s, aged.ex);
    assert forall i: nat :: !aged.ex.WorkingOurs(i);
    var p := s.position.value;
    OnlyThePlacedWorks(aged.ex, s.nextId, ExpectedExitSide(p.side), p.size, true);
  }

  lemma ActKeepsStep(cfg: Config, s: State, ticker: Ticker, flags: Flags, io: Io)
    requires cfg.grid > 0.0 && InStep(s)
    ensures InStep(Act(cfg, s, ticker, flags, io).s)
  {
    if s.order.None? {
      if s.position.None? {
        EnterKeepsStep(cfg, Decide(cfg, s.(control := Obey(s.control, io.lateRequests)), io.now), s.nextId, flags, io);
      } else {
        var reason := CheckExitReason(s.position.value, ticker.last, io.now);
        if reason.Some? {
          var lc := s.store.lifecycle;
          var s' := if lc.None? then s else WithLifecycle(s, Some(lc.value.OnExitTrigger(reason.value)));
          SubmitExitKeepsStep(cfg, s', ShouldUseMarketExit(cfg, s.position.value, io.now), ticker.last, flags, io);
        }
      }
    }
  }

  /** One iteration, through any of its exits, exceptions included. */
  lemma IterationKeepsStep(cfg: Config, s: State, io: Io)
    requires cfg.grid > 0.0 && InStep(s)
    ensures InStep(Iterate(cfg, s, io).s)
  {
    hide Observe, Poll, Act;
    var s' := s.(control := Obey(s.control, io.requests), loops := s.loops + 1);
    if io.ticker.Ok? {
      ObserveKeepsStep(cfg, s', io);
      var seen := Observe(cfg, s', io);
      PollKeepsStep(cfg, seen.s, io.ticker.value.last, seen.flags, io);
      var polled := Poll(cfg, seen.s, io.ticker.value.last, seen.flags, io);
      ActKeepsStep(cfg, polled.s, io.ticker.value, polled.flags, io);
    }
  }

  /** Order tracking over whole runs: in every state a run can reach, each working order the executor placed
      is the tracked one, so at most one works. */
  lemma {:induction false} EveryWorkingOrderIsTracked(cfg: Config, s: State, ios: seq<Io>)
    requires cfg.grid > 0.0 && InStep(s)
    ensures InStep(Run(cfg, s, ios).s)
    decreases |ios|
  {
    if ios != [] {
      IterationKeepsStep(cfg, s, ios[0]);
      EveryWorkingOrderIsTracked(cfg, Iterate(cfg, s, ios[0]).s, ios[1..]);
    }
  }
}
