/** What a chain of repriced entry orders can fill in all: the exposure the loop builds up towards one decision. */
module EntryExposure {
  import opened Common
  import opened PositionState
  import opened Exchange
  import opened Store
  import opened RunLoop
  import opened OrderTracking
  import opened PositionLedger
  import opened RepriceLineage

  // ---------------------------------------------------------------- what a chain commits

  predicate IsOwn(x: ExOrder, c: Cid) { x.ours && x.cid == c }

  /** The executor's order with this client id. */
  function OwnIndex(orders: seq<ExOrder>, c: Cid): (r: Option<nat>)
    ensures r.Some? ==> r.value < |orders| && IsOwn(orders[r.value], c)
    ensures r.None? ==> forall i :: 0 <= i < |orders| ==> !IsOwn(orders[i], c)
  {
    if orders == [] then None
    else
      var n := |orders| - 1;
      var before := OwnIndex(orders[..n], c);
      if before.Some? then before else if IsOwn(orders[n], c) then Some(n) else None
  }

  function CommittedBy(ex: Exchange, c: Cid): real {
    var i := OwnIndex(ex.orders, c);
    if i.None? then 0.0 else ex.orders[i.value].Committed()
  }

  function FilledBy(ex: Exchange, c: Cid): real {
    var i := OwnIndex(ex.orders, c);
    if i.None? then 0.0 else ex.orders[i.value].filled
  }

  /** The sum over a client id and its first n ancestors. */
  function ChainCommitted(ex: Exchange, rows: map<Cid, OrderRow>, c: Cid, n: nat): real
    decreases n
  {
    CommittedBy(ex, c) +
    if n == 0 || c !in rows || rows[c].parent.None? then 0.0 else ChainCommitted(ex, rows, rows[c].parent.value, n - 1)
  }

  // ---------------------------------------------------------------- what every iteration keeps

  /** Entry orders of the executor fill between nothing and their size, and a filled one has filled all of it. */
  ghost predicate Sane(ex: Exchange) {
    forall i :: 0 <= i < |ex.orders| && ex.orders[i].ours && !ex.orders[i].reduceOnly ==>
      && 0.0 <= ex.orders[i].filled <= ex.orders[i].size
      && (ex.orders[i].state.Filled? ==> ex.orders[i].filled == ex.orders[i].size)
  }

  /** Client ids below the counter, and no id of this run used twice. */
  ghost predicate OwnIds(base: nat, s: State) {
    && (forall i :: 0 <= i < |s.ex.orders| && s.ex.orders[i].ours ==> s.ex.orders[i].cid < s.nextId)
    && (forall i, j, c: Cid :: 0 <= i < j < |s.ex.orders| && IsOwn(s.ex.orders[i], c) && IsOwn(s.ex.orders[j], c) ==>
        c < base)
  }

  ghost predicate Placed(ex: Exchange, c: Cid) {
    exists i :: 0 <= i < |ex.orders| && IsOwn(ex.orders[i], c) && !ex.orders[i].reduceOnly
  }

  predicate IsEntryRow(rows: map<Cid, OrderRow>, c: Cid) { c in rows && rows[c].signal.Some? }

  /** A journalled entry order was placed in this run, and so was its parent. */
  ghost predicate EntryRows(base: nat, s: State) {
    forall c :: IsEntryRow(s.store.orders, c) ==>
      && base <= c && Placed(s.ex, c)
      && (s.store.orders[c].parent.Some? ==> IsEntryRow(s.store.orders, s.store.orders[c].parent.value))
  }

  /** The tracked entry order is journalled as one, and is the executor's own, of the configured size. */
  predicate EntryPlaced(cfg: Config, s: State) {
    EntryActive(s) ==>
      var o := s.order.value;
      && IsEntryRow(s.store.orders, o.clientId) && o.orderId < |s.ex.orders|
      && var x := s.ex.orders[o.orderId];
         IsOwn(x, o.clientId) && !x.reduceOnly && x.size == cfg.orderSize
  }

  ghost predicate Chained(cfg: Config, base: nat, s: State) {
    base <= s.nextId && Sane(s.ex) && OwnIds(base, s) && EntryRows(base, s) && EntryPlaced(cfg, s)
  }

  // ---------------------------------------------------------------- the exchange ages

  lemma {:induction false} EvolveKeepsSane(ex: Exchange, env: seq<EnvEvent>)
    requires Sane(ex)
    ensures Sane(Evolve(ex, env))
    decreases |env|
  {
    if env != [] {
      assert Sane(Apply(ex, env[0]));
      EvolveKeepsSane(Apply(ex, env[0]), env[1..]);
    }
  }

  lemma CancelKeepsSane(ex: Exchange, c: Cid)
    requires Sane(ex)
    ensures Sane(Cancel(ex, c))
  {
  }

  lemma {:induction false} CancelAllKeepsSane(ex: Exchange, cids: seq<Cid>)
    requires Sane(ex)
    ensures Sane(CancelAll(ex, cids))
    decreases |cids|
  {
    if cids != [] { CancelAllKeepsSane(Cancel(ex, cids[0]), cids[1..]); }
  }

  lemma AgeKeepsChained(cfg: Config, base: nat, s: State, ex: Exchange)
    requires Chained(cfg, base, s) && Later(s.ex, ex) && Sane(ex)
    ensures Chained(cfg, base, s.(ex := ex))
  {
    assert forall i :: 0 <= i < |s.ex.orders| ==> AgedOrder(s.ex.orders[i], ex.orders[i]);
    assert forall i, c: Cid :: 0 <= i < |ex.orders| && IsOwn(ex.orders[i], c) ==>
        i < |s.ex.orders| && IsOwn(s.ex.orders[i], c);
    forall c | IsEntryRow(s.store.orders, c) ensures Placed(ex, c) {
      var i :| 0 <= i < |s.ex.orders| && IsOwn(s.ex.orders[i], c) && !s.ex.orders[i].reduceOnly;
      assert IsOwn(ex.orders[i], c);
    }
  }

  // ---------------------------------------------------------------- nothing is placed

  /** Entry rows and their links are as before. */
  ghost predicate SameEntryRows(before: map<Cid, OrderRow>, after: map<Cid, OrderRow>) {
    forall c ::
      && (IsEntryRow(after, c) <==> IsEntryRow(before, c))
      && (IsEntryRow(before, c) && IsEntryRow(after, c) ==> after[c].parent == before[c].parent)
  }

  lemma QuietKeepsChained(cfg: Config, base: nat, s: State, s': State)
    requires Chained(cfg, base, s) && s'.ex == s.ex && s.nextId <= s'.nextId
    requires s'.order.None? || s'.order == s.order
    requires SameEntryRows(s.store.orders, s'.store.orders)
    ensures Chained(cfg, base, s')
  {
  }

  // ---------------------------------------------------------------- an order is placed

  /** An accepted placement under a fresh id, journalled and tracked. */
  ghost predicate PlacesOrder(cfg: Config, base: nat, s: State, s': State, cid: Cid, side: OrderSide, size: real,
                              reduceOnly: bool, limit: Option<real>)
  {
    && base <= cid < s'.nextId && s.nextId <= s'.nextId
    && cid !in s.store.orders
    && (forall i :: 0 <= i < |s.ex.orders| && s.ex.orders[i].ours ==> s.ex.orders[i].cid != cid)
    && s'.ex == Place(s.ex, cid, side, size, reduceOnly, limit)
    && cid in s'.store.orders && s'.store.orders == s.store.orders[cid := s'.store.orders[cid]]
    && s'.order.Some? && s'.order.value.clientId == cid && s'.order.value.orderId == |s.ex.orders|
    && s'.order.value.purpose.Exit? == reduceOnly
    && var row := s'.store.orders[cid];
       && row.signal.Some? == !reduceOnly
       && (!reduceOnly ==> size == cfg.orderSize && (row.parent.Some? ==> IsEntryRow(s.store.orders, row.parent.value)))
  }

  lemma PlacementKeepsIds(cfg: Config, base: nat, s: State, s': State, cid: Cid, side: OrderSide, size: real,
                          reduceOnly: bool, limit: Option<real>)
    requires OwnIds(base, s) && PlacesOrder(cfg, base, s, s', cid, side, size, reduceOnly, limit)
    ensures OwnIds(base, s')
  {
    assert forall i :: 0 <= i < |s.ex.orders| ==> s'.ex.orders[i] == s.ex.orders[i];
    forall i, j, c: Cid | 0 <= i < j < |s'.ex.orders| && IsOwn(s'.ex.orders[i], c) && IsOwn(s'.ex.orders[j], c)
      ensures c < base
    {
      assert IsOwn(s.ex.orders[i], c);
      if j < |s.ex.orders| { assert IsOwn(s.ex.orders[j], c); }
    }
  }

  lemma PlacementKeepsEntryRows(cfg: Config, base: nat, s: State, s': State, cid: Cid, side: OrderSide, size: real,
                                reduceOnly: bool, limit: Option<real>)
    requires EntryRows(base, s) && PlacesOrder(cfg, base, s, s', cid, side, size, reduceOnly, limit)
    ensures EntryRows(base, s')
  {
    forall c | IsEntryRow(s'.store.orders, c)
      ensures base <= c && Placed(s'.ex, c)
      ensures s'.store.orders[c].parent.Some? ==> IsEntryRow(s'.store.orders, s'.store.orders[c].parent.value)
    {
      if c == cid {
        assert IsOwn(s'.ex.orders[|s.ex.orders|], c);
      } else {
        assert IsEntryRow(s.store.orders, c);
        var i :| 0 <= i < |s.ex.orders| && IsOwn(s.ex.orders[i], c) && !s.ex.orders[i].reduceOnly;
        assert IsOwn(s'.ex.orders[i], c);
      }
    }
  }

  lemma PlacementKeepsChained(cfg: Config, base: nat, s: State, s': State, cid: Cid, side: OrderSide, size: real,
                              reduceOnly: bool, limit: Option<real>)
    requires Chained(cfg, base, s) && cfg.orderSize >= 0.0
    requires PlacesOrder(cfg, base, s, s', cid, side, size, reduceOnly, limit)
    ensures Chained(cfg, base, s')
  {
    hide OwnIds, EntryRows;
    PlacementKeepsIds(cfg, base, s, s', cid, side, size, reduceOnly, limit);
    PlacementKeepsEntryRows(cfg, base, s, s', cid, side, size, reduceOnly, limit);
    assert s'.ex.orders[|s.ex.orders|] == ExOrder(cid, side, size, 0.0, Live, reduceOnly, limit.None?, true, limit);
    assert Sane(s'.ex) && EntryPlaced(cfg, s');
  }

  // ---------------------------------------------------------------- the phases of an iteration

  lemma ObserveKeepsChained(cfg: Config, base: nat, s: State, io: Io)
    requires Chained(cfg, base, s)
    ensures Chained(cfg, base, Observe(cfg, s, io).s)
  {
    hide Evolve, CancelAll, Chained, Sane, BuildActivePositionFromOkx;
    SaneInChained(cfg, base, s);
    var a := s.(ex := Evolve(s.ex, io.observe.env));
    EvolveKeepsSane(s.ex, io.observe.env);
    AgeKeepsChained(cfg, base, s, a.ex);
    var b := a.(ex := CancelAll(a.ex, io.observe.swept));
    CancelAllKeepsSane(a.ex, io.observe.swept);
    AgeKeepsChained(cfg, base, a, b.ex);
    var s' := Observe(cfg, s, io).s;
    QuietKeepsChained(cfg, base, if s'.ex == a.ex then a else b, s');
  }

  lemma SaneInChained(cfg: Config, base: nat, s: State)
    requires Chained(cfg, base, s)
    ensures Sane(s.ex) && base <= s.nextId
  {
  }

  lemma UpdateKeepsEntryRows(st: Store, cid: Cid)
    ensures SameEntryRows(st.orders, st.SaveUpdate(cid, true).orders)
  {
  }

  lemma FilledOrDeadKeepsChained(cfg: Config, base: nat, s: State, o: ActiveOrder, x: ExOrder, price: real,
                                 flags: Flags, io: Io)
    requires Chained(cfg, base, s)
    ensures Chained(cfg, base, OnFilled(cfg, s, o, x, price, flags, io).s) && Chained(cfg, base, OnDead(s, o, flags).s)
  {
    hide Chained, SameEntryRows, OnEntryFilled, OnExitFilled;
    FilledForgets(cfg, s, o, x, price, flags, io);
    FillsWriteNoOrders(cfg, s, o, x, price, io);
    UpdateKeepsEntryRows(s.store, o.clientId);
    QuietKeepsChained(cfg, base, s, OnFilled(cfg, s, o, x, price, flags, io).s);
    QuietKeepsChained(cfg, base, s, OnDead(s, o, flags).s);
  }

  lemma ReplacePlaces(cfg: Config, base: nat, s: State, o: ActiveOrder, price: real, now: int)
    requires Chained(cfg, base, s) && Coupled(cfg, s) && RowsInOrder(base, s) && s.order == Some(o)
    ensures var s' := Replace(s.(nextId := s.nextId + 1), o, s.nextId, price, now);
            PlacesOrder(cfg, base, s, s', s.nextId, o.side, o.size, o.reduceOnly, Some(price))
  {
  }

  lemma RepriceKeepsChained(cfg: Config, base: nat, s: State, o: ActiveOrder, last: real, flags: Flags, io: Io)
    requires cfg.grid > 0.0 && cfg.orderSize >= 0.0
    requires Chained(cfg, base, s) && Coupled(cfg, s) && RowsInOrder(base, s) && s.order == Some(o)
    ensures Chained(cfg, base, Reprice(cfg, s, o, last, flags, io).s)
  {
    hide Evolve, Cancel, ResolveMakerPrice, CloseBySync, Replace, Chained, Sane, RowsInOrder, PlacesOrder;
    SaneInChained(cfg, base, s);
    var a := s.(ex := Evolve(s.ex, io.work.cancelEnv));
    EvolveKeepsSane(s.ex, io.work.cancelEnv);
    AgeKeepsChained(cfg, base, s, a.ex);
    var b := a.(ex := Cancel(a.ex, o.clientId));
    CancelKeepsSane(a.ex, o.clientId);
    AgeKeepsChained(cfg, base, a, b.ex);
    var c := b.(ex := Evolve(b.ex, io.reprice.env));
    EvolveKeepsSane(b.ex, io.reprice.env);
    AgeKeepsChained(cfg, base, b, c.ex);
    var d := c.(nextId := s.nextId + 1);
    QuietKeepsChained(cfg, base, c, d);
    QuietKeepsChained(cfg, base, d, DropOrder(d, o));
    if s.position.Some? {
      SyncWritesNoOrders(cfg, DropOrder(d, o), last, io);
      QuietKeepsChained(cfg, base, DropOrder(d, o), CloseBySync(cfg, DropOrder(d, o), last, io));
    }
    if io.reprice.book.Ok? {
      var price := ResolveMakerPrice(o.side, io.reprice.book.value, io.reprice.limits, cfg.grid);
      ExchangeIsNoRow(base, s, c);
      ReplacePlaces(cfg, base, c, o, price, io.now);
      PlacementKeepsChained(cfg, base, c, Replace(d, o, s.nextId, price, io.now), s.nextId, o.side, o.size,
          o.reduceOnly, Some(price));
    }
  }

  lemma ExpireKeepsChained(cfg: Config, base: nat, s: State, o: ActiveOrder, flags: Flags, io: Io)
    requires Chained(cfg, base, s) && s.order == Some(o)
    ensures Chained(cfg, base, Expire(s, o, flags, io).s)
  {
    hide Evolve, Cancel, Chained, Sane, SameEntryRows;
    SaneInChained(cfg, base, s);
    var a := s.(ex := Evolve(s.ex, io.work.cancelEnv));
    EvolveKeepsSane(s.ex, io.work.cancelEnv);
    AgeKeepsChained(cfg, base, s, a.ex);
    var canceled := Cancel(a.ex, o.clientId);
    CancelKeepsSane(a.ex, o.clientId);
    AgeKeepsChained(cfg, base, a, canceled);
    var b := a.(ex := Evolve(canceled, io.work.verifyEnv));
    EvolveKeepsSane(canceled, io.work.verifyEnv);
    AgeKeepsChained(cfg, base, a.(ex := canceled), b.ex);
    var c := b.(ex := Cancel(b.ex, o.clientId));
    CancelKeepsSane(b.ex, o.clientId);
    AgeKeepsChained(cfg, base, b, c.ex);
    GiveUpKeepsChained(cfg, base, b, o);
    GiveUpKeepsChained(cfg, base, c, o);
  }

  lemma GiveUpKeepsChained(cfg: Config, base: nat, s: State, o: ActiveOrder)
    requires Chained(cfg, base, s)
    ensures Chained(cfg, base, GiveUp(s, o))
  {
    hide Chained;
    QuietKeepsChained(cfg, base, s, GiveUp(s, o));
  }

  lemma PollKeepsChained(cfg: Config, base: nat, s: State, last: real, flags: Flags, io: Io)
    requires cfg.grid > 0.0 && cfg.orderSize >= 0.0 && Chained(cfg, base, s) && Coupled(cfg, s) && RowsInOrder(base, s)
    ensures Chained(cfg, base, Poll(cfg, s, last, flags, io).s)
  {
    hide Evolve, OnFilled, OnDead, Reprice, Expire, Chained, Sane, RowsInOrder, IsStale;
    if s.order.Some? {
      var o := s.order.value;
      SaneInChained(cfg, base, s);
      var aged := s.(ex := Evolve(s.ex, io.poll.env));
      EvolveKeepsSane(s.ex, io.poll.env);
      AgeKeepsChained(cfg, base, s, aged.ex);
      ExchangeIsNoRow(base, s, aged);
      if io.poll.reply.PollFound? && o.orderId < |aged.ex.orders| {
        var price := Or(io.poll.reply.avgPx, Or(io.poll.reply.px, Some(last))).value;
        FilledOrDeadKeepsChained(cfg, base, aged, o, aged.ex.orders[o.orderId], price, flags, io);
        RepriceKeepsChained(cfg, base, aged, o, last, flags, io);
        ExpireKeepsChained(cfg, base, aged, o, flags, io);
      }
    }
  }

  lemma EntryPlaces(cfg: Config, base: nat, s: State, side: OrderSide, price: real, now: int)
    requires Chained(cfg, base, s) && RowsInOrder(base, s) && s.order.None?
    ensures var s' := TrackEntry(cfg, Decide(cfg, s, now), s.nextId, side, price, now);
            PlacesOrder(cfg, base, s, s', s.nextId, side, cfg.orderSize, false, Some(price))
  {
  }

  lemma SeekKeepsChained(cfg: Config, base: nat, s: State, ticker: Ticker, flags: Flags, io: Io)
    requires cfg.grid > 0.0 && cfg.orderSize >= 0.0 && Chained(cfg, base, s) && RowsInOrder(base, s) && s.order.None?
    ensures Chained(cfg, base, Seek(cfg, s, ticker, flags, io).s)
  {
    hide Evolve, Obey, ShouldDecide, ResolveMakerPrice, Chained, Sane, RowsInOrder, TrackEntry, PlacesOrder;
    var a := s.(control := Obey(s.control, io.lateRequests));
    SaneInChained(cfg, base, s);
    QuietKeepsChained(cfg, base, s, a);
    QuietKeepsChained(cfg, base, a, Decide(cfg, a, io.now));
    var b := a.(ex := Evolve(a.ex, io.submit.env));
    EvolveKeepsSane(a.ex, io.submit.env);
    AgeKeepsChained(cfg, base, a, b.ex);
    QuietKeepsChained(cfg, base, b, Decide(cfg, b, io.now));
    if io.submit.book.Ok? {
      var side := if io.pick.Long? then Buy else Sell;
      var price := ResolveMakerPrice(side, io.submit.book.value, io.submit.limits, cfg.grid);
      RowsIgnoreControl(base, s, b);
      EntryPlaces(cfg, base, b, side, price, io.now);
      PlacementKeepsChained(cfg, base, b, TrackEntry(cfg, Decide(cfg, b, io.now), b.nextId, side, price, io.now),
          b.nextId, side, cfg.orderSize, false, Some(price));
    }
  }

  lemma RowsIgnoreControl(base: nat, s: State, s': State)
    requires RowsInOrder(base, s) && s' == s.(control := s'.control, ex := s'.ex)
    ensures RowsInOrder(base, s')
  {
  }

  lemma ExitPlaces(cfg: Config, base: nat, s: State, p: ActivePosition, price: real, market: bool, now: int)
    requires Chained(cfg, base, s) && RowsInOrder(base, s)
    ensures var s' := TrackExit(s.(nextId := s.nextId + 1), p, s.nextId, price, market, now);
            PlacesOrder(cfg, base, s, s', s.nextId, ExpectedExitSide(p.side), p.size, true,
              if market then None else Some(price))
  {
  }

  lemma SubmitExitKeepsChained(cfg: Config, base: nat, s: State, market: bool, last: real, flags: Flags, io: Io)
    requires cfg.grid > 0.0 && cfg.orderSize >= 0.0 && Chained(cfg, base, s) && RowsInOrder(base, s) && s.order.None?
    requires s.position.Some?
    ensures Chained(cfg, base, SubmitExit(cfg, s, market, last, flags, io).s)
  {
    hide Evolve, ResolveMakerPrice, Chained, Sane, RowsInOrder, TrackExit, PlacesOrder, CloseBySync;
    var p := s.position.value;
    var a := s.(ex := Evolve(s.ex, io.submit.env));
    SaneInChained(cfg, base, s);
    EvolveKeepsSane(s.ex, io.submit.env);
    AgeKeepsChained(cfg, base, s, a.ex);
    QuietKeepsChained(cfg, base, s, s.(nextId := s.nextId + 1));
    var b := a.(nextId := s.nextId + 1);
    QuietKeepsChained(cfg, base, a, b);
    SyncWritesNoOrders(cfg, b, last, io);
    QuietKeepsChained(cfg, base, b, CloseBySync(cfg, b, last, io));
    ExchangeIsNoRow(base, s, a);
    if market || io.submit.book.Ok? {
      var price := if market then last
                   else ResolveMakerPrice(ExpectedExitSide(p.side), io.submit.book.value, io.submit.limits, cfg.grid);
      ExitPlaces(cfg, base, a, p, price, market, io.now);
      PlacementKeepsChained(cfg, base, a, TrackExit(b, p, s.nextId, price, market, io.now), s.nextId,
          ExpectedExitSide(p.side), p.size, true, if market then None else Some(price));
    }
  }

  lemma ActKeepsChained(cfg: Config, base: nat, s: State, ticker: Ticker, flags: Flags, io: Io)
    requires cfg.grid > 0.0 && cfg.orderSize >= 0.0 && Chained(cfg, base, s) && RowsInOrder(base, s)
    ensures Chained(cfg, base, Act(cfg, s, ticker, flags, io).s)
  {
    hide Seek, SubmitExit, CheckExitReason, ShouldUseMarketExit, Chained, RowsInOrder;
    if s.order.None? && s.position.None? {
      SeekKeepsChained(cfg, base, s, ticker, flags, io);
    } else if s.order.None? {
      var reason := CheckExitReason(s.position.value, ticker.last, io.now);
      if reason.Some? {
        var lc := s.store.lifecycle;
        var s' := if lc.None? then s else WithLifecycle(s, Some(lc.value.OnExitTrigger(reason.value)));
        QuietKeepsChained(cfg, base, s, s');
        RowsIgnoreLifecycle(base, s, s');
        SubmitExitKeepsChained(cfg, base, s', ShouldUseMarketExit(cfg, s.position.value, io.now), ticker.last, flags,
            io);
      }
    }
  }

  lemma RowsIgnoreLifecycle(base: nat, s: State, s': State)
    requires RowsInOrder(base, s) && s' == s.(store := s.store.(lifecycle := s'.store.lifecycle))
    ensures RowsInOrder(base, s')
  {
  }

  lemma IterationKeepsChained(cfg: Config, base: nat, s: State, io: Io)
    requires cfg.grid > 0.0 && cfg.orderSize >= 0.0 && Chained(cfg, base, s) && Rows(base, s) && Books(cfg, s)
    ensures Chained(cfg, base, Iterate(cfg, s, io).s)
  {
    hide Observe, Poll, Act, Chained, RowsInOrder, EntryLineage, Traceable, Books;
    var b := s.(control := Obey(s.control, io.requests), loops := s.loops + 1);
    BooksFrame(cfg, s, b);
    RowsFrame(base, s, b);
    QuietKeepsChained(cfg, base, s, b);
    if io.ticker.Ok? {
      var ticker := io.ticker.value;
      var seen := Observe(cfg, b, io);
      ObserveKeepsChained(cfg, base, b, io);
      ObserveKeepsRows(cfg, base, b, io);
      ObserveKeepsBooks(cfg, b, io);
      CoupledInBooks(cfg, seen.s);
      var polled := Poll(cfg, seen.s, ticker.last, seen.flags, io);
      PollKeepsChained(cfg, base, seen.s, ticker.last, seen.flags, io);
      PollKeepsRows(cfg, base, seen.s, ticker.last, seen.flags, io);
      ActKeepsChained(cfg, base, polled.s, ticker, polled.flags, io);
    }
  }

  /** Every invariant the exposure rests on, over any run. */
  lemma {:induction false} RunKeepsChained(cfg: Config, base: nat, s: State, ios: seq<Io>)
    requires cfg.grid > 0.0 && cfg.orderSize >= 0.0
    requires InStep(s) && Books(cfg, s) && Rows(base, s) && Chained(cfg, base, s)
    ensures var s' := Run(cfg, s, ios).s; InStep(s') && Books(cfg, s') && Rows(base, s') && Chained(cfg, base, s')
    decreases |ios|
  {
    if ios != [] {
      hide Iterate, InStep, Books, Rows, Chained;
      IterationKeepsStep(cfg, s, ios[0]);
      IterationKeepsBooks(cfg, s, ios[0]);
      IterationKeepsRows(cfg, base, s, ios[0]);
      IterationKeepsChained(cfg, base, s, ios[0]);
      RunKeepsChained(cfg, base, Iterate(cfg, s, ios[0]).s, ios[1..]);
    }
  }

  // ---------------------------------------------------------------- the exposure of a chain

  /** The n-th ancestor of `c` filled nothing, for every n from 0 on. */
  ghost predicate NothingFilled(ex: Exchange, rows: map<Cid, OrderRow>, c: Cid, n: nat) {
    forall k: nat :: k <= n && Ancestor(rows, c, k).Some? ==> FilledBy(ex, Ancestor(rows, c, k).value) == 0.0
  }

  /** No predecessor of `c` in its chain of n reprices filled anything. */
  ghost predicate PredecessorsUnfilled(ex: Exchange, rows: map<Cid, OrderRow>, c: Cid, n: nat) {
    forall k: nat :: 1 <= k <= n && Ancestor(rows, c, k).Some? ==> FilledBy(ex, Ancestor(rows, c, k).value) == 0.0
  }

  lemma NothingFilledStep(ex: Exchange, rows: map<Cid, OrderRow>, c: Cid, n: nat)
    requires n > 0 && c in rows && rows[c].parent.Some?
    ensures NothingFilled(ex, rows, c, n) <==>
              FilledBy(ex, c) == 0.0 && NothingFilled(ex, rows, rows[c].parent.value, n - 1)
  {
    var p := rows[c].parent.value;
    if NothingFilled(ex, rows, c, n) {
      assert Ancestor(rows, c, 0) == Some(c);
      forall k: nat | k <= n - 1 && Ancestor(rows, p, k).Some? ensures FilledBy(ex, Ancestor(rows, p, k).value) == 0.0 {
        assert Ancestor(rows, c, k + 1) == Ancestor(rows, p, k);
      }
    }
    if FilledBy(ex, c) == 0.0 && NothingFilled(ex, rows, p, n - 1) {
      forall k: nat | k <= n && Ancestor(rows, c, k).Some? ensures FilledBy(ex, Ancestor(rows, c, k).value) == 0.0 {
        if k > 0 { assert Ancestor(rows, c, k) == Ancestor(rows, p, k - 1); }
      }
    }
  }

  /** An ancestor of the tracked order no longer works: what it commits is what it filled. */
  lemma AncestorIsDead(cfg: Config, base: nat, s: State, c: Cid)
    requires InStep(s) && Chained(cfg, base, s) && IsEntryRow(s.store.orders, c)
    requires s.order.Some? ==> c != s.order.value.clientId
    ensures CommittedBy(s.ex, c) == FilledBy(s.ex, c) >= 0.0
  {
    var i := OwnIndex(s.ex.orders, c);
    assert Placed(s.ex, c);
    assert base <= c;
    var k :| 0 <= k < |s.ex.orders| && IsOwn(s.ex.orders[k], c) && !s.ex.orders[k].reduceOnly;
    assert i.value == k;
    assert !s.ex.WorkingOurs(k);
  }

  lemma {:induction false} AncestorsCommitWhatTheyFilled(cfg: Config, base: nat, s: State, c: Cid, n: nat)
    requires InStep(s) && Chained(cfg, base, s) && RowsInOrder(base, s) && IsEntryRow(s.store.orders, c)
    requires s.order.Some? ==> c < s.order.value.clientId
    ensures var sum := ChainCommitted(s.ex, s.store.orders, c, n);
            sum >= 0.0 && (sum == 0.0 <==> NothingFilled(s.ex, s.store.orders, c, n))
    decreases n
  {
    hide InStep, Chained, RowsInOrder, NothingFilled, CommittedBy, FilledBy;
    AncestorIsDead(cfg, base, s, c);
    if n > 0 && s.store.orders[c].parent.Some? {
      ParentIsOlderEntry(cfg, base, s, c);
      AncestorsCommitWhatTheyFilled(cfg, base, s, s.store.orders[c].parent.value, n - 1);
      NothingFilledStep(s.ex, s.store.orders, c, n);
    } else {
      NoAncestor(s.ex, s.store.orders, c, n);
    }
  }

  lemma ParentIsOlderEntry(cfg: Config, base: nat, s: State, c: Cid)
    requires Chained(cfg, base, s) && RowsInOrder(base, s) && IsEntryRow(s.store.orders, c)
    requires s.store.orders[c].parent.Some?
    ensures s.store.orders[c].parent.value < c && IsEntryRow(s.store.orders, s.store.orders[c].parent.value)
  {
  }

  lemma NoAncestor(ex: Exchange, rows: map<Cid, OrderRow>, c: Cid, n: nat)
    requires n == 0 || c !in rows || rows[c].parent.None?
    ensures NothingFilled(ex, rows, c, n) <==> FilledBy(ex, c) == 0.0
  {
    assert Ancestor(rows, c, 0) == Some(c);
  }

  /** The exposure of a repriced entry, in every reachable state with an entry order working: the order and its n
      predecessors together commit at most the order size exactly when no predecessor filled anything, and never less
      than the order size. */
  lemma ChainCommitsOrderSizeIff(cfg: Config, base: nat, s0: State, ios: seq<Io>)
    requires cfg.grid > 0.0 && cfg.orderSize >= 0.0
    requires InStep(s0) && Books(cfg, s0) && Rows(base, s0) && Chained(cfg, base, s0)
    ensures var s := Run(cfg, s0, ios).s;
            EntryActive(s) && s.ex.Working(s.order.value.orderId) ==>
              && s.store.lifecycle.Some?
              && var c, n := s.order.value.clientId, s.store.lifecycle.value.entry.reprices;
              var sum := ChainCommitted(s.ex, s.store.orders, c, n);
              && sum >= cfg.orderSize
              && (sum <= cfg.orderSize <==> PredecessorsUnfilled(s.ex, s.store.orders, c, n))
  {
    hide Run, Books;
    RunKeepsChained(cfg, base, s0, ios);
    var s := Run(cfg, s0, ios).s;
    if EntryActive(s) && s.ex.Working(s.order.value.orderId) {
      ChainOfTracked(cfg, base, s, s.store.lifecycle.value.entry.reprices);
    }
  }

  lemma ShiftedByOne(ex: Exchange, rows: map<Cid, OrderRow>, c: Cid, n: nat)
    requires n > 0 && c in rows && rows[c].parent.Some?
    ensures NothingFilled(ex, rows, rows[c].parent.value, n - 1) <==> PredecessorsUnfilled(ex, rows, c, n)
  {
    hide FilledBy;
    var p := rows[c].parent.value;
    if NothingFilled(ex, rows, p, n - 1) {
      forall k: nat | 1 <= k <= n && Ancestor(rows, c, k).Some?
        ensures FilledBy(ex, Ancestor(rows, c, k).value) == 0.0
      {
        assert Ancestor(rows, c, k) == Ancestor(rows, p, k - 1);
      }
      assert PredecessorsUnfilled(ex, rows, c, n);
    }
    if PredecessorsUnfilled(ex, rows, c, n) {
      forall k: nat | k <= n - 1 && Ancestor(rows, p, k).Some? ensures FilledBy(ex, Ancestor(rows, p, k).value) == 0.0 {
        assert Ancestor(rows, c, k + 1) == Ancestor(rows, p, k);
      }
      assert NothingFilled(ex, rows, p, n - 1);
    }
  }

  /** The tracked entry order itself commits its whole size while it works and once it is found filled. */
  lemma TrackedCommits(cfg: Config, base: nat, s: State)
    requires Chained(cfg, base, s) && EntryActive(s)
    requires var x := s.ex.orders; var i := s.order.value.orderId; i < |x| && (x[i].Working() || x[i].state.Filled?)
    ensures IsEntryRow(s.store.orders, s.order.value.clientId)
    ensures CommittedBy(s.ex, s.order.value.clientId) == cfg.orderSize
  {
    var o := s.order.value;
    assert base <= o.clientId && OwnIndex(s.ex.orders, o.clientId) == Some(o.orderId);
  }

  lemma ChainOfTracked(cfg: Config, base: nat, s: State, n: nat)
    requires InStep(s) && RowsInOrder(base, s) && Chained(cfg, base, s) && EntryActive(s)
    requires var x := s.ex.orders; var i := s.order.value.orderId; i < |x| && (x[i].Working() || x[i].state.Filled?)
    ensures var c := s.order.value.clientId;
            var sum := ChainCommitted(s.ex, s.store.orders, c, n);
            && sum >= cfg.orderSize
            && (sum <= cfg.orderSize <==> PredecessorsUnfilled(s.ex, s.store.orders, c, n))
  {
    hide InStep, Chained, RowsInOrder, CommittedBy, FilledBy, NothingFilled;
    var c := s.order.value.clientId;
    var rows := s.store.orders;
    TrackedCommits(cfg, base, s);
    if n > 0 && rows[c].parent.Some? {
      var p := rows[c].parent.value;
      ParentIsOlderEntry(cfg, base, s, c);
      AncestorsCommitWhatTheyFilled(cfg, base, s, p, n - 1);
      ShiftedByOne(s.ex, rows, c, n);
    } else {
      assert forall k: nat :: 1 <= k <= n ==> Ancestor(rows, c, k).None?;
    }
  }

  /** What a finished entry leaves behind: in every state that keeps the invariants, the position opened by the fill of
      the tracked order is at most what its chain has put on the exchange, and all of it exactly when no predecessor
      filled anything. Otherwise the exit, sized by the position, leaves the predecessors' fills open. */
  lemma FilledEntryCoversItsChainIff(cfg: Config, base: nat, s: State, n: nat, price: real, now: int)
    requires InStep(s) && RowsInOrder(base, s) && Chained(cfg, base, s) && EntryActive(s)
    requires s.order.value.orderId < |s.ex.orders| && s.ex.orders[s.order.value.orderId].state.Filled?
    ensures var o := s.order.value;
            var p := OnEntryFilled(cfg, s, o, s.ex.orders[o.orderId], price, now).position;
            var sum := ChainCommitted(s.ex, s.store.orders, o.clientId, n);
            && p.Some? && sum >= p.value.size
            && (sum == p.value.size <==> PredecessorsUnfilled(s.ex, s.store.orders, o.clientId, n))
  {
    hide InStep, RowsInOrder, PredecessorsUnfilled, ChainCommitted;
    ChainOfTracked(cfg, base, s, n);
    OpenedSize(cfg, base, s, price, now);
  }

  lemma OpenedSize(cfg: Config, base: nat, s: State, price: real, now: int)
    requires Chained(cfg, base, s) && EntryActive(s)
    requires s.order.value.orderId < |s.ex.orders| && s.ex.orders[s.order.value.orderId].state.Filled?
    ensures var o := s.order.value;
            var p := OnEntryFilled(cfg, s, o, s.ex.orders[o.orderId], price, now).position;
            p.Some? && p.value.size == cfg.orderSize
  {
  }
}
