/** The journal's order rows: every client id inserted once before any update and finished at most once,
    and parent links that lead from a repriced entry order back to the decision that started it. */
module RepriceLineage {
  import opened Common
  import opened PositionState
  import opened Exchange
  import opened Store
  import opened RunLoop
  import opened OrderTracking
  import opened PositionLedger

  /** The n-th parent of a client id. */
  function Ancestor(orders: map<Cid, OrderRow>, c: Cid, n: nat): Option<Cid>
    decreases n
  {
    if n == 0 then Some(c)
    else if c !in orders || orders[c].parent.None? then None
    else Ancestor(orders, orders[c].parent.value, n - 1)
  }

  ghost predicate KeepsParents(before: map<Cid, OrderRow>, after: map<Cid, OrderRow>) {
    forall c :: c in before ==> c in after && after[c].parent == before[c].parent
  }

  lemma {:induction false} AncestorsStay(before: map<Cid, OrderRow>, after: map<Cid, OrderRow>, c: Cid, n: nat)
    requires KeepsParents(before, after) && Ancestor(before, c, n).Some?
    ensures Ancestor(after, c, n) == Ancestor(before, c, n)
    decreases n
  {
    if n > 0 { AncestorsStay(before, after, before[c].parent.value, n - 1); }
  }

  /** Ids from `base` on are this run's; older ones can only be an order adopted at startup. Parents are older than
      their children, and every id in use is below the counter. */
  ghost predicate RowsInOrder(base: nat, s: State) {
    && base <= s.nextId
    && (forall c :: c in s.store.orders ==>
          && c < s.nextId && s.store.orders[c].terminals <= 1
          && s.store.orders[c].inserts == (if c >= base then 1 else 0)
          && (s.store.orders[c].parent.Some? ==> s.store.orders[c].parent.value < c))
    && (s.position.Some? && s.position.value.id.Fresh? ==> s.position.value.id.n < s.nextId)
    && (s.order.Some? ==>
          var c := s.order.value.clientId;
          && c < s.nextId
          && (c >= base ==> c in s.store.orders)
          && (c in s.store.orders ==> s.store.orders[c].terminals == 0))
  }

  /** n reprices after the decision, n parent links lead from the working entry order to the signal. */
  predicate EntryLineage(s: State) {
    EntryActive(s) ==>
      && s.store.lifecycle.Some?
      && var lc := s.store.lifecycle.value;
         && lc.entrySignal.Some?
         && Ancestor(s.store.orders, s.order.value.clientId, lc.entry.reprices) == lc.entrySignal
         && lc.entry.orders == lc.entry.reprices + 1 && lc.entry.cancels == lc.entry.reprices
  }

  /** A position this run opened by a fill can be traced from its journalled entry order to its signal. */
  ghost predicate Traceable(base: nat, s: State) {
    s.position.Some? && s.position.value.id.Fresh? && s.position.value.id.n >= base ==>
      var id := s.position.value.id;
      && id in s.store.meta && s.store.meta[id].entryOrder.Some? && s.store.meta[id].entrySignal.Some?
      && exists n: nat :: Ancestor(s.store.orders, s.store.meta[id].entryOrder.value, n) == s.store.meta[id].entrySignal
  }

  ghost predicate Rows(base: nat, s: State) { RowsInOrder(base, s) && EntryLineage(s) && Traceable(base, s) }

  /** Nothing the rows speak of depends on the exchange, the timers, the control or the history. */
  lemma RowsFrame(base: nat, s: State, s': State)
    requires Rows(base, s) && s.nextId <= s'.nextId
    requires s'.order == s.order && s'.store == s.store
    requires s'.position == s.position ||
               (s'.position.Some? && s.position.Some? && s'.position.value.id == s.position.value.id)
    ensures Rows(base, s')
  {
  }

  /** Writes that keep every parent link keep the trace of the held position. */
  lemma TraceStays(base: nat, s: State, s': State)
    requires Traceable(base, s) && KeepsParents(s.store.orders, s'.store.orders)
    requires s'.position.Some? && s.position.Some? && s'.position.value.id == s.position.value.id
    requires s.position.value.id in s.store.meta ==>
               var id := s.position.value.id;
               id in s'.store.meta && s'.store.meta[id].entryOrder == s.store.meta[id].entryOrder
               && s'.store.meta[id].entrySignal == s.store.meta[id].entrySignal
    ensures Traceable(base, s')
  {
    var id := s.position.value.id;
    if id.Fresh? && id.n >= base {
      var c := s.store.meta[id].entryOrder.value;
      var n: nat :| Ancestor(s.store.orders, c, n) == s.store.meta[id].entrySignal;
      AncestorsStay(s.store.orders, s'.store.orders, c, n);
    }
  }

  lemma ObserveKeepsRows(cfg: Config, base: nat, s: State, io: Io)
    requires Rows(base, s)
    ensures Rows(base, Observe(cfg, s, io).s)
  {
  }

  lemma OnEntryFilledKeepsRows(cfg: Config, base: nat, s: State, o: ActiveOrder, x: ExOrder, price: real, now: int)
    requires Rows(base, s) && s.order == Some(o) && o.purpose.Entry?
    ensures Rows(base, OnEntryFilled(cfg, s, o, x, price, now))
  {
    var s' := OnEntryFilled(cfg, s, o, x, price, now);
    var lc := s.store.lifecycle.value;
    assert Ancestor(s'.store.orders, o.clientId, lc.entry.reprices) == s'.store.meta[s'.position.value.id].entrySignal;
  }

  lemma OnFilledKeepsRows(cfg: Config, base: nat, s: State, o: ActiveOrder, x: ExOrder, price: real, flags: Flags,
                          io: Io)
    requires Rows(base, s) && s.order == Some(o)
    ensures Rows(base, OnFilled(cfg, s, o, x, price, flags, io).s)
  {
    var s' := if o.purpose.Entry?
              then OnEntryFilled(cfg, s, o, x, price, io.now)
              else OnExitFilled(cfg, s, o, price, io);
    if o.purpose.Entry? { OnEntryFilledKeepsRows(cfg, base, s, o, x, price, io.now); }
    var done := OnFilled(cfg, s, o, x, price, flags, io).s;
    if s'.position.Some? { TraceStays(base, s', done); }
  }

  lemma OnDeadKeepsRows(base: nat, s: State, o: ActiveOrder, flags: Flags)
    requires Rows(base, s) && s.order == Some(o)
    ensures Rows(base, OnDead(s, o, flags).s)
  {
    if s.position.Some? { TraceStays(base, s, OnDead(s, o, flags).s); }
  }

  /** A replacement is a new row under the old order, one more reprice on the tracker, and at most the exit order in
      the position's metadata. */
  lemma ReplaceWrites(cfg: Config, base: nat, s: State, o: ActiveOrder, price: real, now: int)
    requires RowsInOrder(base, s) && Coupled(cfg, s) && s.order == Some(o)
    ensures var s' := Replace(s.(nextId := s.nextId + 1), o, s.nextId, price, now);
            && s.nextId in s'.store.orders
            && s'.store.orders == s.store.orders[s.nextId := s'.store.orders[s.nextId]]
            && s'.store.orders[s.nextId] == OrderRow(Some(o.clientId), s'.store.orders[s.nextId].signal, 1, 0, 0)
            && s'.nextId == s.nextId + 1 && s'.position == s.position
            && s'.order == Some(o.(orderId := |s.ex.orders|, clientId := s.nextId, lastRepriceAt := now))
            && s'.store.lifecycle == (if s.store.lifecycle.None? then None
                                      else Some(s.store.lifecycle.value.OnReprice(o.purpose, price)))
            && (forall id :: id in s.store.meta ==>
                  && id in s'.store.meta
                  && s'.store.meta[id].entryOrder == s.store.meta[id].entryOrder
                  && s'.store.meta[id].entrySignal == s.store.meta[id].entrySignal)
  {
    hide Place;
  }

  lemma ReplaceKeepsRows(cfg: Config, base: nat, s: State, o: ActiveOrder, price: real, now: int)
    requires Rows(base, s) && Coupled(cfg, s) && s.order == Some(o)
    ensures Rows(base, Replace(s.(nextId := s.nextId + 1), o, s.nextId, price, now))
  {
    hide Replace, Traceable;
    var s' := Replace(s.(nextId := s.nextId + 1), o, s.nextId, price, now);
    ReplaceWrites(cfg, base, s, o, price, now);
    assert KeepsParents(s.store.orders, s'.store.orders);
    if o.purpose.Entry? {
      AncestorsStay(s.store.orders, s'.store.orders, o.clientId, s.store.lifecycle.value.entry.reprices);
    }
    if s.position.Some? { TraceStays(base, s, s'); } else { NoPositionNoTrace(base, s'); }
  }

  lemma NoPositionNoTrace(base: nat, s: State)
    requires s.position.None?
    ensures Traceable(base, s)
  {
  }

  lemma CloseBySyncKeepsRows(cfg: Config, base: nat, s: State, price: real, io: Io)
    requires Rows(base, s) && s.order.None? && s.position.Some?
    ensures Rows(base, CloseBySync(cfg, s, price, io))
  {
  }

  /** Forgetting the order asks nothing more of the rows. */
  lemma RowsWithoutOrder(base: nat, s: State, s': State)
    requires Rows(base, s) && s'.order.None? && s'.nextId == s.nextId
    requires s'.store.orders == s.store.orders && s'.store.meta == s.store.meta
    requires s.position.Some? == s'.position.Some?
    requires s.position.Some? ==> s'.position.value.id == s.position.value.id
    ensures Rows(base, s')
  {
  }

  lemma RepriceKeepsRows(cfg: Config, base: nat, s: State, o: ActiveOrder, last: real, flags: Flags, io: Io)
    requires cfg.grid > 0.0 && Rows(base, s) && Coupled(cfg, s) && s.order == Some(o)
    ensures Rows(base, Reprice(cfg, s, o, last, flags, io).s)
  {
    hide CloseBySync, Replace, ResolveMakerPrice, Evolve, Cancel, Rows;
    var a := s.(ex := Evolve(s.ex, io.work.cancelEnv));
    var b := a.(ex := Cancel(a.ex, o.clientId));
    var c := b.(ex := Evolve(b.ex, io.reprice.env));
    var d := c.(nextId := s.nextId + 1);
    RowsFrame(base, s, a); RowsFrame(base, s, b); RowsFrame(base, s, c); RowsFrame(base, s, d);
    RowsWithoutOrder(base, d, DropOrder(d, o));
    if io.reprice.book.Ok? {
      ReplaceKeepsRows(cfg, base, c, o, ResolveMakerPrice(o.side, io.reprice.book.value, io.reprice.limits, cfg.grid),
          io.now);
    }
    if s.position.Some? { CloseBySyncKeepsRows(cfg, base, DropOrder(d, o), last, io); }
  }

  lemma GiveUpKeepsRows(base: nat, s: State, o: ActiveOrder)
    requires Rows(base, s)
    ensures Rows(base, GiveUp(s, o))
  {
    hide Rows;
    RowsWithoutOrder(base, s, GiveUp(s, o));
  }

  lemma ExpireKeepsRows(base: nat, s: State, o: ActiveOrder, flags: Flags, io: Io)
    requires Rows(base, s) && s.order == Some(o)
    ensures Rows(base, Expire(s, o, flags, io).s)
  {
    hide Rows, Evolve, Cancel, GiveUp;
    var a := s.(ex := Evolve(s.ex, io.work.cancelEnv));
    var b := a.(ex := Evolve(Cancel(a.ex, o.clientId), io.work.verifyEnv));
    var c := b.(ex := Cancel(b.ex, o.clientId));
    RowsFrame(base, s, a); RowsFrame(base, s, b); RowsFrame(base, s, c);
    GiveUpKeepsRows(base, b, o);
    GiveUpKeepsRows(base, c, o);
  }

  lemma PollKeepsRows(cfg: Config, base: nat, s: State, last: real, flags: Flags, io: Io)
    requires cfg.grid > 0.0 && Rows(base, s) && Coupled(cfg, s)
    ensures Rows(base, Poll(cfg, s, last, flags, io).s)
  {
    hide OnFilled, OnDead, Reprice, Expire;
    if s.order.Some? {
      var o := s.order.value;
      var aged := s.(ex := Evolve(s.ex, io.poll.env));
      if io.poll.reply.PollFound? && o.orderId < |aged.ex.orders| {
        var price := Or(io.poll.reply.avgPx, Or(io.poll.reply.px, Some(last))).value;
        OnFilledKeepsRows(cfg, base, aged, o, aged.ex.orders[o.orderId], price, flags, io);
        OnDeadKeepsRows(base, aged, o, flags);
        RepriceKeepsRows(cfg, base, aged, o, last, flags, io);
        ExpireKeepsRows(base, aged, o, flags, io);
      }
    }
  }

  lemma DecideKeepsRows(cfg: Config, base: nat, s: State, now: int)
    requires Rows(base, s) && s.order.None? && s.position.None?
    ensures Rows(base, Decide(cfg, s, now))
  {
    hide Ancestor;
  }

  lemma TrackEntryKeepsRows(cfg: Config, base: nat, s: State, side: OrderSide, price: real, now: int)
    requires Rows(base, s) && s.order.None? && s.position.None?
    ensures Rows(base, TrackEntry(cfg, Decide(cfg, s, now), s.nextId, side, price, now))
  {
    var s' := TrackEntry(cfg, Decide(cfg, s, now), s.nextId, side, price, now);
    assert Ancestor(s'.store.orders, s.nextId, 0) == Some(s.nextId);
  }

  lemma SeekKeepsRows(cfg: Config, base: nat, s: State, ticker: Ticker, flags: Flags, io: Io)
    requires cfg.grid > 0.0 && Rows(base, s) && s.order.None? && s.position.None?
    ensures Rows(base, Seek(cfg, s, ticker, flags, io).s)
  {
    hide Rows, Evolve, Obey, ShouldDecide, ResolveMakerPrice, TrackEntry;
    var a := s.(control := Obey(s.control, io.lateRequests));
    var b := a.(ex := Evolve(a.ex, io.submit.env));
    RowsFrame(base, s, a);
    RowsFrame(base, s, b);
    DecideKeepsRows(cfg, base, a, io.now);
    DecideKeepsRows(cfg, base, b, io.now);
    if io.submit.book.Ok? {
      var side := if io.pick.Long? then Buy else Sell;
      var price := ResolveMakerPrice(side, io.submit.book.value, io.submit.limits, cfg.grid);
      TrackEntryKeepsRows(cfg, base, b, side, price, io.now);
    }
  }

  /** A tracked exit is a new row without a parent, and at most the exit order in the position's metadata. */
  lemma TrackExitWrites(base: nat, s: State, p: ActivePosition, price: real, market: bool, now: int)
    requires RowsInOrder(base, s) && s.position == Some(p)
    ensures var s' := TrackExit(s.(nextId := s.nextId + 1), p, s.nextId, price, market, now);
            && s'.store.orders == s.store.SaveSubmitted(s.nextId, false, None, None, Some(p.id)).orders
            && s'.store.meta == s.store.SaveSubmitted(s.nextId, false, None, None, Some(p.id)).meta
            && s'.nextId == s.nextId + 1 && s'.position == s.position
            && s'.order.Some? && s'.order.value.clientId == s.nextId && s'.order.value.purpose.Exit?
  {
    hide Place, ExpectedExitSide;
  }

  lemma ExitRowIsNew(base: nat, s: State, pid: Pid)
    requires RowsInOrder(base, s)
    ensures var st := s.store.SaveSubmitted(s.nextId, false, None, None, Some(pid));
            && st.orders == s.store.orders[s.nextId := OrderRow(None, None, 1, 0, 0)]
            && KeepsParents(s.store.orders, st.orders)
            && (pid in s.store.meta ==>
                  && pid in st.meta
                  && st.meta[pid].entryOrder == s.store.meta[pid].entryOrder
                  && st.meta[pid].entrySignal == s.store.meta[pid].entrySignal)
  {
  }

  lemma TrackExitKeepsRows(base: nat, s: State, p: ActivePosition, price: real, market: bool, now: int)
    requires Rows(base, s) && s.order.None? && s.position == Some(p)
    ensures Rows(base, TrackExit(s.(nextId := s.nextId + 1), p, s.nextId, price, market, now))
  {
    hide Ancestor, Place, ExpectedExitSide, Traceable, TrackExit;
    var s' := TrackExit(s.(nextId := s.nextId + 1), p, s.nextId, price, market, now);
    TrackExitWrites(base, s, p, price, market, now);
    ExitRowIsNew(base, s, p.id);
    TraceStays(base, s, s');
  }

  lemma SubmitExitKeepsRows(cfg: Config, base: nat, s: State, market: bool, last: real, flags: Flags, io: Io)
    requires cfg.grid > 0.0 && Rows(base, s) && s.order.None? && s.position.Some?
    ensures Rows(base, SubmitExit(cfg, s, market, last, flags, io).s)
  {
    hide ResolveMakerPrice, CloseBySync, TrackExit, Rows;
    var p := s.position.value;
    var a := s.(nextId := s.nextId + 1);
    var b := a.(ex := Evolve(a.ex, io.submit.env));
    RowsFrame(base, s, a);
    RowsFrame(base, s, b);
    RowsFrame(base, s, s.(ex := b.ex));
    CloseBySyncKeepsRows(cfg, base, b, last, io);
    TrackExitKeepsRows(base, s.(ex := b.ex), p, last, market, io.now);
    if io.submit.book.Ok? {
      var price := ResolveMakerPrice(ExpectedExitSide(p.side), io.submit.book.value, io.submit.limits, cfg.grid);
      TrackExitKeepsRows(base, s.(ex := b.ex), p, price, market, io.now);
    }
  }

  lemma LeaveKeepsRows(cfg: Config, base: nat, s: State, last: real, flags: Flags, io: Io)
    requires cfg.grid > 0.0 && Rows(base, s) && s.order.None? && s.position.Some?
    ensures Rows(base, Leave(cfg, s, last, flags, io).s)
  {
    hide SubmitExit;
    var reason := CheckExitReason(s.position.value, last, io.now);
    if reason.Some? {
      var lc := s.store.lifecycle;
      var s' := if lc.None? then s else WithLifecycle(s, Some(lc.value.OnExitTrigger(reason.value)));
      SubmitExitKeepsRows(cfg, base, s', ShouldUseMarketExit(cfg, s.position.value, io.now), last, flags, io);
    }
  }

  lemma IterationKeepsRows(cfg: Config, base: nat, s: State, io: Io)
    requires cfg.grid > 0.0 && Rows(base, s) && Books(cfg, s)
    ensures Rows(base, Iterate(cfg, s, io).s)
  {
    hide Observe, Poll, Seek, Leave;
    var s' := s.(control := Obey(s.control, io.requests), loops := s.loops + 1);
    RowsFrame(base, s, s');
    if io.ticker.Ok? {
      var ticker := io.ticker.value;
      ObserveKeepsRows(cfg, base, s', io);
      ObserveKeepsBooks(cfg, s', io);
      var seen := Observe(cfg, s', io);
      PollKeepsRows(cfg, base, seen.s, ticker.last, seen.flags, io);
      var polled := Poll(cfg, seen.s, ticker.last, seen.flags, io);
      if polled.s.order.None? {
        if polled.s.position.None? { SeekKeepsRows(cfg, base, polled.s, ticker, polled.flags, io); }
        else { LeaveKeepsRows(cfg, base, polled.s, ticker.last, polled.flags, io); }
      }
    }
  }

  /** Over whole runs: insert once, finish at most once, and a trace from order and position to the signal. */
  lemma {:induction false} RowsHoldOverRuns(cfg: Config, base: nat, s: State, ios: seq<Io>)
    requires cfg.grid > 0.0 && Rows(base, s) && Books(cfg, s)
    ensures Rows(base, Run(cfg, s, ios).s)
    decreases |ios|
  {
    if ios != [] {
      IterationKeepsRows(cfg, base, s, ios[0]);
      IterationKeepsBooks(cfg, s, ios[0]);
      RowsHoldOverRuns(cfg, base, Iterate(cfg, s, ios[0]).s, ios[1..]);
    }
  }

  // ---------------------------------------------------------------- what reprices never change

  predicate SameTerms(o: ActiveOrder, o': ActiveOrder) {
    && o'.purpose == o.purpose && o'.side == o.side && o'.size == o.size
    && o'.reduceOnly == o.reduceOnly && o'.createdAt == o.createdAt
  }

  /** The order tracked afterwards is the one tracked before or its child in the journal, on the same terms. */
  predicate Carried(s: State, s': State) {
    && s.order.Some? && s'.order.Some? && SameTerms(s.order.value, s'.order.value)
    && var c, c' := s.order.value.clientId, s'.order.value.clientId;
       c' == c || (c' >= s.nextId && c' in s'.store.orders && s'.store.orders[c'].parent == Some(c))
  }

  /** The order tracked afterwards is a new one without a parent. */
  predicate Begun(s: State, s': State) {
    && s'.order.Some?
    && var c' := s'.order.value.clientId;
       c' >= s.nextId && c' in s'.store.orders && s'.store.orders[c'].parent.None?
  }

  /** Old parent links stay, and a row that appears late for an old id has no parent. */
  ghost predicate KeepsLinks(s: State, s': State) {
    && s.nextId <= s'.nextId
    && KeepsParents(s.store.orders, s'.store.orders)
    && forall c :: c in s'.store.orders && c !in s.store.orders && c < s.nextId ==> s'.store.orders[c].parent.None?
  }

  lemma ObserveCarries(cfg: Config, s: State, io: Io)
    ensures var s' := Observe(cfg, s, io).s; KeepsLinks(s, s') && (s'.order.Some? ==> Carried(s, s'))
  {
    hide Evolve, CancelAll;
  }

  lemma ExchangeIsNoRow(base: nat, s: State, s': State)
    requires RowsInOrder(base, s) && s' == s.(ex := s'.ex)
    ensures RowsInOrder(base, s')
  {
  }

  /** Opening, closing and reconciling a position write no order row. */
  lemma FillsWriteNoOrders(cfg: Config, s: State, o: ActiveOrder, x: ExOrder, price: real, io: Io)
    ensures var s' := OnEntryFilled(cfg, s, o, x, price, io.now);
            s'.store.orders == s.store.orders && s'.nextId == s.nextId + 1
    ensures var s' := OnExitFilled(cfg, s, o, price, io);
            s'.store.orders == s.store.orders && s'.nextId == s.nextId
  {
    hide BuildActivePosition, BuildTradeRow;
  }

  lemma SyncWritesNoOrders(cfg: Config, s: State, price: real, io: Io)
    requires s.position.Some?
    ensures var s' := CloseBySync(cfg, s, price, io);
            s'.store.orders == s.store.orders && s'.nextId == s.nextId && s'.order == s.order && s'.ex == s.ex
  {
    hide BuildTradeRow;
  }

  lemma UpdateKeepsLinks(s: State, s': State, cid: Cid)
    requires s'.store.orders == s.store.SaveUpdate(cid, true).orders && s.nextId <= s'.nextId
    ensures KeepsLinks(s, s')
  {
  }

  lemma FilledOrDeadLinks(cfg: Config, s: State, o: ActiveOrder, x: ExOrder, price: real, flags: Flags, io: Io)
    ensures KeepsLinks(s, OnFilled(cfg, s, o, x, price, flags, io).s) && KeepsLinks(s, OnDead(s, o, flags).s)
  {
    hide OnEntryFilled, OnExitFilled, KeepsLinks;
    FillsWriteNoOrders(cfg, s, o, x, price, io);
    UpdateKeepsLinks(s, OnFilled(cfg, s, o, x, price, flags, io).s, o.clientId);
    UpdateKeepsLinks(s, OnDead(s, o, flags).s, o.clientId);
  }

  lemma ReplaceCarries(base: nat, s: State, o: ActiveOrder, price: real, now: int)
    requires RowsInOrder(base, s) && s.order == Some(o)
    ensures var s' := Replace(s.(nextId := s.nextId + 1), o, s.nextId, price, now); KeepsLinks(s, s') && Carried(s, s')
  {
  }

  lemma RepriceCarries(cfg: Config, base: nat, s: State, o: ActiveOrder, last: real, flags: Flags, io: Io)
    requires cfg.grid > 0.0 && RowsInOrder(base, s) && s.order == Some(o)
    ensures var s' := Reprice(cfg, s, o, last, flags, io).s; KeepsLinks(s, s') && (s'.order.Some? ==> Carried(s, s'))
  {
    hide Evolve, Cancel, ResolveMakerPrice, CloseBySync, Replace, RowsInOrder;
    var placed := s.(ex := Evolve(Cancel(Evolve(s.ex, io.work.cancelEnv), o.clientId), io.reprice.env));
    var dropped := DropOrder(placed.(nextId := s.nextId + 1), o);
    if s.position.Some? { SyncWritesNoOrders(cfg, dropped, last, io); }
    ExchangeIsNoRow(base, s, placed);
    if io.reprice.book.Ok? {
      ReplaceCarries(base, placed, o, ResolveMakerPrice(o.side, io.reprice.book.value, io.reprice.limits, cfg.grid),
          io.now);
    }
  }

  lemma ExpireCarries(s: State, o: ActiveOrder, flags: Flags, io: Io)
    requires s.order == Some(o)
    ensures var s' := Expire(s, o, flags, io).s; KeepsLinks(s, s') && (s'.order.Some? ==> Carried(s, s'))
  {
    hide Evolve, Cancel;
  }

  /** No reprice, and no poll, changes purpose, side, size, reduce-only flag or creation time: an order that is still
      tracked after the poll is the one tracked before, or replaces it as its child on the same terms. */
  lemma PollCarries(cfg: Config, base: nat, s: State, last: real, flags: Flags, io: Io)
    requires cfg.grid > 0.0 && RowsInOrder(base, s)
    ensures var s' := Poll(cfg, s, last, flags, io).s; KeepsLinks(s, s') && (s'.order.Some? ==> Carried(s, s'))
  {
    hide Evolve, Cancel, Reprice, Expire, OnFilled, OnDead, ResolveMakerPrice, RowsInOrder, IsStale;
    if s.order.Some? {
      var aged := s.(ex := Evolve(s.ex, io.poll.env));
      ExchangeIsNoRow(base, s, aged);
      RepriceCarries(cfg, base, aged, s.order.value, last, flags, io);
      ExpireCarries(aged, s.order.value, flags, io);
      if io.poll.reply.PollFound? && s.order.value.orderId < |aged.ex.orders| {
        var x := aged.ex.orders[s.order.value.orderId];
        var price := Or(io.poll.reply.avgPx, Or(io.poll.reply.px, Some(last))).value;
        FilledForgets(cfg, aged, s.order.value, x, price, flags, io);
        FilledOrDeadLinks(cfg, aged, s.order.value, x, price, flags, io);
      }
    }
  }

  lemma SeekBegins(cfg: Config, base: nat, s: State, ticker: Ticker, flags: Flags, io: Io)
    requires cfg.grid > 0.0 && RowsInOrder(base, s) && s.order.None?
    ensures var s' := Seek(cfg, s, ticker, flags, io).s; KeepsLinks(s, s') && (s'.order.Some? ==> Begun(s, s'))
  {
    hide Evolve, ResolveMakerPrice, Obey, ShouldDecide;
  }

  lemma TrackExitBegins(base: nat, s: State, p: ActivePosition, price: real, market: bool, now: int)
    requires RowsInOrder(base, s)
    ensures var s' := TrackExit(s.(nextId := s.nextId + 1), p, s.nextId, price, market, now);
            KeepsLinks(s, s') && Begun(s, s')
  {
  }

  lemma SubmitExitBegins(cfg: Config, base: nat, s: State, market: bool, last: real, flags: Flags, io: Io)
    requires cfg.grid > 0.0 && RowsInOrder(base, s) && s.order.None? && s.position.Some?
    ensures var s' := SubmitExit(cfg, s, market, last, flags, io).s;
            KeepsLinks(s, s') && (s'.order.Some? ==> Begun(s, s'))
  {
    hide Evolve, ResolveMakerPrice, CloseBySync, TrackExit, RowsInOrder;
    var p := s.position.value;
    var aged := s.(ex := Evolve(s.ex, io.submit.env));
    SyncWritesNoOrders(cfg, aged.(nextId := s.nextId + 1), last, io);
    ExchangeIsNoRow(base, s, aged);
    if market || io.submit.book.Ok? {
      var price := if market then last
                   else ResolveMakerPrice(ExpectedExitSide(p.side), io.submit.book.value, io.submit.limits, cfg.grid);
      TrackExitBegins(base, aged, p, price, market, io.now);
    }
  }

  lemma ActBegins(cfg: Config, base: nat, s: State, ticker: Ticker, flags: Flags, io: Io)
    requires cfg.grid > 0.0 && RowsInOrder(base, s)
    ensures var s' := Act(cfg, s, ticker, flags, io).s;
            KeepsLinks(s, s') && (s'.order.Some? ==> if s.order.Some? then Carried(s, s') else Begun(s, s'))
  {
    hide Seek, SubmitExit, CheckExitReason, ShouldUseMarketExit;
    if s.order.None? && s.position.None? {
      SeekBegins(cfg, base, s, ticker, flags, io);
    } else if s.order.None? {
      var reason := CheckExitReason(s.position.value, ticker.last, io.now);
      if reason.Some? {
        var lc := s.store.lifecycle;
        var s' := if lc.None? then s else WithLifecycle(s, Some(lc.value.OnExitTrigger(reason.value)));
        SubmitExitBegins(cfg, base, s', ShouldUseMarketExit(cfg, s.position.value, io.now), ticker.last, flags, io);
      }
    }
  }

  // ---------------------------------------------------------------- the same over runs, by lineage

  lemma {:induction false} AncestorsComeBack(before: map<Cid, OrderRow>, after: map<Cid, OrderRow>, limit: nat,
                                             c: Cid, n: nat)
    requires KeepsParents(before, after) && c < limit && Ancestor(after, c, n).Some?
    requires forall d :: d in before && before[d].parent.Some? ==> before[d].parent.value < d
    requires forall d :: d in after && d !in before && d < limit ==> after[d].parent.None?
    ensures Ancestor(before, c, n) == Ancestor(after, c, n)
    decreases n
  {
    if n > 0 { AncestorsComeBack(before, after, limit, before[c].parent.value, n - 1); }
  }

  /** Every descendant of client id `a` that is ever tracked has the terms of `o`. */
  ghost predicate KeepsTerms(a: Cid, o: ActiveOrder, s: State) {
    s.order.Some? ==> forall n: nat :: Ancestor(s.store.orders, s.order.value.clientId, n) == Some(a) ==>
        SameTerms(o, s.order.value)
  }

  lemma MoveKeepsTerms(base: nat, a: Cid, o: ActiveOrder, s: State, s': State)
    requires RowsInOrder(base, s) && KeepsLinks(s, s') && a < s.nextId && KeepsTerms(a, o, s)
    requires s'.order.Some? ==> Carried(s, s') || Begun(s, s')
    ensures KeepsTerms(a, o, s')
  {
    if s'.order.Some? {
      var c' := s'.order.value.clientId;
      forall n: nat | Ancestor(s'.store.orders, c', n) == Some(a) ensures SameTerms(o, s'.order.value) {
        if Carried(s, s') {
          var c := s.order.value.clientId;
          if c' == c {
            AncestorsComeBack(s.store.orders, s'.store.orders, s.nextId, c, n);
          } else if n > 0 {
            AncestorsComeBack(s.store.orders, s'.store.orders, s.nextId, c, n - 1);
          }
        }
      }
    }
  }

  lemma IterationKeepsTerms(cfg: Config, base: nat, a: Cid, o: ActiveOrder, s: State, io: Io)
    requires cfg.grid > 0.0 && Rows(base, s) && Books(cfg, s) && a < s.nextId && KeepsTerms(a, o, s)
    ensures s.nextId <= Iterate(cfg, s, io).s.nextId && KeepsTerms(a, o, Iterate(cfg, s, io).s)
  {
    hide Observe, Poll, Act, KeepsTerms, RowsInOrder, EntryLineage, Traceable, Books;
    var b := s.(control := Obey(s.control, io.requests), loops := s.loops + 1);
    ControlIsNoTerm(cfg, base, a, o, s, b);
    if io.ticker.Ok? {
      var ticker := io.ticker.value;
      var seen := Observe(cfg, b, io);
      ObserveCarries(cfg, b, io);
      MoveKeepsTerms(base, a, o, b, seen.s);
      ObserveKeepsRows(cfg, base, b, io);
      ObserveKeepsBooks(cfg, b, io);
      CoupledInBooks(cfg, seen.s);
      var polled := Poll(cfg, seen.s, ticker.last, seen.flags, io);
      PollCarries(cfg, base, seen.s, ticker.last, seen.flags, io);
      MoveKeepsTerms(base, a, o, seen.s, polled.s);
      PollKeepsRows(cfg, base, seen.s, ticker.last, seen.flags, io);
      ActBegins(cfg, base, polled.s, ticker, polled.flags, io);
      MoveKeepsTerms(base, a, o, polled.s, Act(cfg, polled.s, ticker, polled.flags, io).s);
    }
  }

  lemma ControlIsNoTerm(cfg: Config, base: nat, a: Cid, o: ActiveOrder, s: State, s': State)
    requires Rows(base, s) && Books(cfg, s) && KeepsTerms(a, o, s) && s' == s.(control := s'.control, loops := s'.loops)
    ensures Rows(base, s') && Books(cfg, s') && KeepsTerms(a, o, s')
  {
    BooksFrame(cfg, s, s');
    RowsFrame(base, s, s');
  }

  lemma CoupledInBooks(cfg: Config, s: State)
    requires Books(cfg, s)
    ensures Coupled(cfg, s)
  {
  }

  lemma {:induction false} RunKeepsTerms(cfg: Config, base: nat, a: Cid, o: ActiveOrder, s: State, ios: seq<Io>)
    requires cfg.grid > 0.0 && Rows(base, s) && Books(cfg, s) && a < s.nextId && KeepsTerms(a, o, s)
    ensures KeepsTerms(a, o, Run(cfg, s, ios).s)
    decreases |ios|
  {
    if ios != [] {
      hide Iterate, KeepsTerms, Rows, Books;
      IterationKeepsTerms(cfg, base, a, o, s, ios[0]);
      IterationKeepsRows(cfg, base, s, ios[0]);
      IterationKeepsBooks(cfg, s, ios[0]);
      RunKeepsTerms(cfg, base, a, o, Iterate(cfg, s, ios[0]).s, ios[1..]);
    }
  }

  /** Any number of reprices preserves purpose, side, size, reduce-only flag and creation time: whatever a run does,
      if n parent links lead from the order tracked at its end to the one tracked at its start, the two have the same
      terms. */
  lemma RepricesKeepTerms(cfg: Config, base: nat, s: State, ios: seq<Io>, n: nat)
    requires cfg.grid > 0.0 && Rows(base, s) && Books(cfg, s) && s.order.Some?
    ensures var s' := Run(cfg, s, ios).s;
            s'.order.Some? && Ancestor(s'.store.orders, s'.order.value.clientId, n) == Some(s.order.value.clientId) ==>
              SameTerms(s.order.value, s'.order.value)
  {
    hide Run, Books;
    RunKeepsTerms(cfg, base, s.order.value.clientId, s.order.value, s, ios);
  }
}
