/** app/position_reconcile.py at startup: what the loop begins with after comparing its tables with the exchange. */
module Startup {
  import opened Common
  import opened PositionState
  import opened Exchange
  import opened Store
  import opened RunLoop
  import opened OrderTracking
  import opened PositionLedger
  import opened RepriceLineage
  import opened EntryExposure

  /** Both startup snapshots; an open order is listed by its exchange id, in the order of the answer. */
  datatype Snapshot = Snapshot(positions: seq<OkxPosition>, openOrders: seq<nat>)

  /** `list_open_positions`: the open rows of this strategy, oldest entry first. */
  ghost predicate IsOpenListing(s: Store, rows: seq<Pid>) {
    && (forall p :: p in rows <==>
        p in s.positions && s.positions[p].exit.None? && s.positions[p].strategy == s.strategy)
    && (forall i, j :: 0 <= i < j < |rows| ==> s.positions[rows[i]].entryTs <= s.positions[rows[j]].entryTs)
    && (forall i, j :: 0 <= i < j < |rows| ==> rows[i] != rows[j])
  }

  predicate IsExitSide(ex: Exchange, i: nat, p: ActivePosition) {
    i < |ex.orders| && ex.orders[i].side == ExpectedExitSide(p.side)
  }

  /** The first listed order on the exit side, whoever placed it. */
  function AdoptOpenExitOrder(ex: Exchange, listing: seq<nat>, p: ActivePosition): (r: Option<nat>)
    ensures r.None? ==> forall i :: i in listing ==> !IsExitSide(ex, i, p)
    ensures r.Some? ==> r.value in listing && IsExitSide(ex, r.value, p)
    decreases |listing|
  {
    if listing == [] then None
    else if IsExitSide(ex, listing[0], p) then Some(listing[0])
    else AdoptOpenExitOrder(ex, listing[1..], p)
  }

  /** The adopted order is the first exit-side one in the answer's order. */
  lemma {:induction false} AdoptsTheFirstExitOrder(ex: Exchange, listing: seq<nat>, p: ActivePosition) returns (k: nat)
    requires AdoptOpenExitOrder(ex, listing, p).Some?
    ensures k < |listing| && AdoptOpenExitOrder(ex, listing, p) == Some(listing[k])
    ensures IsExitSide(ex, listing[k], p) && forall j :: 0 <= j < k ==> !IsExitSide(ex, listing[j], p)
    decreases |listing|
  {
    if IsExitSide(ex, listing[0], p) {
      k := 0;
    } else {
      var m := AdoptsTheFirstExitOrder(ex, listing[1..], p);
      k := m + 1;
      assert forall j :: 0 < j < k ==> listing[j] == listing[1..][j - 1];
    }
  }

  /** The cancels of startup: those that fail, and what else happens on the exchange before the cancel of an order. */
  datatype CancelIo = CancelIo(failed: set<nat>, env: map<nat, seq<EnvEvent>>)
  {
    function Before(i: nat): seq<EnvEvent> { if i in env then env[i] else [] }

    /** Nobody else acts while startup cancels. */
    predicate Quiet() { env == map[] }
  }

  const QUIET := CancelIo({}, map[])

  /** Startup keeps the adopted order and every other order on the exit side. */
  predicate Spared(ex: Exchange, i: nat, p: Option<ActivePosition>, adopted: Option<nat>) {
    adopted == Some(i) || (p.Some? && IsExitSide(ex, i, p.value)) || i >= |ex.orders|
  }

  function CancelOne(ex: Exchange, i: nat, p: Option<ActivePosition>, adopted: Option<nat>, calls: CancelIo): Exchange {
    var aged := Evolve(ex, calls.Before(i));
    if Spared(aged, i, p, adopted) || i in calls.failed then aged else Cancel(aged, aged.orders[i].cid)
  }

  function CancelStale(ex: Exchange, listing: seq<nat>, p: Option<ActivePosition>, adopted: Option<nat>,
                       calls: CancelIo): (ex': Exchange)
    decreases |listing|
  {
    if listing == [] then ex
    else
      CancelStale(CancelOne(ex, listing[0], p, adopted, calls), listing[1..], p, adopted, calls)
  }

  function CloseRows(s: Store, rows: seq<Pid>, now: int): Store
    decreases |rows|
  {
    if rows == [] then s else CloseRows(s.CloseOpenPositionReconciled(rows[0], now), rows[1..], now)
  }

  /** The state the loop starts in. `s0` has no order, no position and an empty history. */
  function Bootstrap(cfg: Config, s0: State, snap: Reply<Snapshot>, rows: seq<Pid>, calls: CancelIo, now: int): State {
    if snap.Raises? then s0
    else
      var first := FirstForInstrument(snap.value.positions);
      if first.None? then
        s0.(store := CloseRows(s0.store, rows, now),
            ex := CancelStale(s0.ex, snap.value.openOrders, None, None, calls))
      else
        var restored := BuildActivePositionFromOkx(cfg, first.value, now, if rows == [] then None else Some(rows[0]));
        if restored.None? then s0
        else
          var p := restored.value;
          var adopted := AdoptOpenExitOrder(s0.ex, snap.value.openOrders, p);
          var s := Hold(s0, p, None, None);
          s.(history := s.history.(adopted := s.history.adopted + 1),
             order := if adopted.None? then None else Some(AdoptedOrder(s0.ex, adopted.value, p, now)),
             ex := CancelStale(s0.ex, snap.value.openOrders, Some(p), adopted, calls))
  }

  function AdoptedOrder(ex: Exchange, i: nat, p: ActivePosition, now: int): ActiveOrder
    requires i < |ex.orders|
  {
    ActiveOrder(i, ex.orders[i].cid, ex.orders[i].side, Exit, now, now, true, p.size)
  }

  // ---------------------------------------------------------------- the journal when the exchange is flat

  /** A row after the listed ones were closed: an open row in the list gets its entry price as exit. */
  function Closed(row: PositionRow, listed: bool, now: int): PositionRow {
    if listed && row.exit.None? then row.(exit := Some(RowExit(row.entryPrice, now, NoExchangePosition))) else row
  }

  lemma CloseOneRow(s: Store, id: Pid, now: int)
    ensures var s' := s.CloseOpenPositionReconciled(id, now);
            && s' == s.(positions := s'.positions) && s'.positions.Keys == s.positions.Keys
            && forall p :: p in s.positions ==> s'.positions[p] == Closed(s.positions[p], p == id, now)
  {
  }

  lemma {:induction false} CloseRowsClosesExactly(s: Store, rows: seq<Pid>, now: int)
    ensures var s' := CloseRows(s, rows, now);
            && s' == s.(positions := s'.positions) && s'.positions.Keys == s.positions.Keys
            && forall p :: p in s.positions ==> s'.positions[p] == Closed(s.positions[p], p in rows, now)
    decreases |rows|
  {
    if rows != [] {
      var mid := s.CloseOpenPositionReconciled(rows[0], now);
      CloseOneRow(s, rows[0], now);
      CloseRowsClosesExactly(mid, rows[1..], now);
      forall p | p in s.positions ensures p in rows <==> p == rows[0] || p in rows[1..] {}
    }
  }

  lemma CancelOneEffect(ex: Exchange, i: nat, p: Option<ActivePosition>, adopted: Option<nat>, calls: CancelIo)
    ensures var next := CancelOne(ex, i, p, adopted, calls);
            && Later(ex, next)
            && (i < |ex.orders| && !Spared(ex, i, p, adopted) && i !in calls.failed ==> !next.Working(i))
  {
    var aged := Evolve(ex, calls.Before(i));
    LaterTransitive(ex, aged, CancelOne(ex, i, p, adopted, calls));
    if i < |ex.orders| { assert AgedOrder(ex.orders[i], aged.orders[i]); }
  }

  lemma {:induction false} CancelStaleEffect(ex: Exchange, listing: seq<nat>, p: Option<ActivePosition>,
                                             adopted: Option<nat>, calls: CancelIo)
    ensures var ex' := CancelStale(ex, listing, p, adopted, calls);
            && Later(ex, ex')
            && (forall i :: i in listing && i < |ex.orders| && !Spared(ex, i, p, adopted) && i !in calls.failed ==>
                  !ex'.Working(i))
    decreases |listing|
  {
    if listing != [] {
      hide CancelOne;
      var i := listing[0];
      var next := CancelOne(ex, i, p, adopted, calls);
      CancelOneEffect(ex, i, p, adopted, calls);
      CancelStaleEffect(next, listing[1..], p, adopted, calls);
      var ex' := CancelStale(next, listing[1..], p, adopted, calls);
      LaterTransitive(ex, next, ex');
      forall j | j in listing && j < |ex.orders| && !Spared(ex, j, p, adopted) && j !in calls.failed
        ensures !ex'.Working(j)
      {
        assert AgedOrder(ex.orders[j], next.orders[j]) && AgedOrder(next.orders[j], ex'.orders[j]);
        assert j == i || j in listing[1..];
      }
    }
  }

  /** Exchange flat at startup: no open row of this strategy remains, each was closed at its entry price, every
      other row is untouched, and every listed order whose cancel went through has stopped working. */
  lemma FlatStartup(cfg: Config, s0: State, snap: Snapshot, rows: seq<Pid>, calls: CancelIo, now: int)
    requires IsOpenListing(s0.store, rows) && snap.positions == []
    ensures var s := Bootstrap(cfg, s0, Ok(snap), rows, calls, now);
            && s.position == s0.position && s.order == s0.order
            && s.store.positions.Keys == s0.store.positions.Keys
            && (forall p :: p in s.store.positions ==>
                  var was := s0.store.positions[p];
                  var isNow := s.store.positions[p];
                  if was.exit.None? && was.strategy == s0.store.strategy
                  then isNow == was.(exit := Some(RowExit(was.entryPrice, now, NoExchangePosition)))
                  else isNow == was)
            && IsOpenListing(s.store, [])
            && (forall i :: i in snap.openOrders && i < |s0.ex.orders| && i !in calls.failed ==> !s.ex.Working(i))
  {
    CloseRowsClosesExactly(s0.store, rows, now);
    CancelStaleEffect(s0.ex, snap.openOrders, None, None, calls);
  }

  /** A reported position at startup: it is restored exactly when it has an average price and a quantity, as reported,
      under the id of this strategy's oldest open row, or the exchange's when there is none; its row is open again, no
      other row changes, and an exit order is tracked exactly when one is listed. */
  lemma HeldStartupRestores(cfg: Config, s0: State, snap: Snapshot, rows: seq<Pid>, calls: CancelIo, now: int)
    requires s0.order.None? && s0.position.None? && IsOpenListing(s0.store, rows) && snap.positions != []
    ensures var s := Bootstrap(cfg, s0, Ok(snap), rows, calls, now);
            var report := FirstForInstrument(snap.positions).value;
            && (s.position.Some? <==> report.avgPx.Some? && report.pos != 0.0)
            && (s.position.None? ==> s == s0)
            && (s.position.Some? ==>
                  var p := s.position.value;
                  && (if rows == [] then p.id == FromExchange(report.posId) else p.id == rows[0])
                  && (forall q :: q in s0.store.positions && s0.store.positions[q].exit.None?
                                  && s0.store.positions[q].strategy == s0.store.strategy ==>
                        p.id in s0.store.positions && s0.store.positions[p.id].entryTs <= s0.store.positions[q].entryTs)
                  && (p.side.Long? <==> report.pos > 0.0) && p.size == Abs(report.pos)
                  && report.avgPx == Some(p.entryPrice)
                  && p.entryTs == (if report.createdAt.Some? then report.createdAt.value else now)
                  && p.id in s.store.positions
                  && s.store.positions[p.id] ==
                       PositionRow(s0.store.strategy, p.side, p.entryPrice, p.entryTs, p.size, None)
                  && p.id in s.store.meta
                  && s.store.meta[p.id].entrySignal == s.store.meta[p.id].entryOrder == s0.store.lastEntry
                  && (forall q :: q in s0.store.positions && q != p.id ==>
                        q in s.store.positions && s.store.positions[q] == s0.store.positions[q])
                  && (s.order.None? <==> forall i :: i in snap.openOrders ==> !IsExitSide(s0.ex, i, p))
                  && (s.order.Some? ==>
                        var o := s.order.value;
                        && o.orderId in snap.openOrders && IsExitSide(s0.ex, o.orderId, p)
                        && o.purpose.Exit? && o.reduceOnly && o.size == p.size && o.createdAt == now
                        && o.lastRepriceAt == now && o.clientId == s0.ex.orders[o.orderId].cid))
  {
    hide CancelStale, BuildActivePosition;
    if rows != [] { assert rows[0] in rows; }
    forall q | q in s0.store.positions && s0.store.positions[q].exit.None?
               && s0.store.positions[q].strategy == s0.store.strategy
      ensures rows != [] && s0.store.positions[rows[0]].entryTs <= s0.store.positions[q].entryTs
    {
      assert q in rows;
    }
  }

  /** A startup whose snapshots cannot be read changes nothing. */
  lemma FailedStartupChangesNothing(cfg: Config, s0: State, rows: seq<Pid>, calls: CancelIo, now: int)
    ensures Bootstrap(cfg, s0, Raises, rows, calls, now) == s0
  {
  }

  // ---------------------------------------------------------------- order tracking after startup

  /** Client ids of working orders are distinct, and the open-order answer lists exactly the working orders. */
  ghost predicate Truthful(ex: Exchange, listing: seq<nat>) {
    && (forall i: nat :: i in listing <==> ex.Working(i))
    && (forall i: nat, j: nat :: ex.Working(i) && ex.Working(j) && ex.orders[i].cid == ex.orders[j].cid ==> i == j)
  }

  /** With nobody else acting, a spared order, and one whose cancel fails, goes on working. */
  lemma {:induction false} KeptOrdersWork(ex0: Exchange, ex: Exchange, listing: seq<nat>, p: Option<ActivePosition>,
                                          adopted: Option<nat>, calls: CancelIo, i: nat)
    requires calls.Quiet() && Later(ex0, ex) && |ex.orders| == |ex0.orders| && ex.Working(i)
    requires Spared(ex0, i, p, adopted) || i in calls.failed
    requires forall k: nat, j: nat ::
               ex0.Working(k) && ex0.Working(j) && ex0.orders[k].cid == ex0.orders[j].cid ==> k == j
    requires forall k :: k in listing ==> ex0.Working(k)
    ensures CancelStale(ex, listing, p, adopted, calls).Working(i)
    decreases |listing|
  {
    if listing != [] {
      var k := listing[0];
      assert ex0.Working(k);
      assert AgedOrder(ex0.orders[k], ex.orders[k]) && AgedOrder(ex0.orders[i], ex.orders[i]);
      assert ex0.Working(i);
      var next := CancelOne(ex, k, p, adopted, calls);
      assert Evolve(ex, calls.Before(k)) == ex;
      LaterTransitive(ex0, ex, next);
      KeptOrdersWork(ex0, next, listing[1..], p, adopted, calls, i);
    }
  }

  /** What startup knows when it decides: the position it will restore, if any. */
  function Restorable(cfg: Config, snap: Snapshot, rows: seq<Pid>, now: int): Option<ActivePosition> {
    var first := FirstForInstrument(snap.positions);
    if first.None? then None
    else BuildActivePositionFromOkx(cfg, first.value, now, if rows == [] then None else Some(rows[0]))
  }

  /** The snapshots and the cancels let startup leave nothing of ours untracked: the snapshots were read, and either the
      exchange is flat and no cancel of ours failed, or its position can be restored and the adopted order is the only
      one of ours that is on the exit side or whose cancel failed. */
  ghost predicate StartupCanTrack(cfg: Config, ex: Exchange, snap: Reply<Snapshot>, rows: seq<Pid>, failed: set<nat>,
                                  now: int)
  {
    && snap.Ok?
    && if snap.value.positions == [] then forall i: nat :: ex.WorkingOurs(i) ==> i !in failed
       else
         var p := Restorable(cfg, snap.value, rows, now);
         && p.Some?
         && forall i: nat :: ex.WorkingOurs(i) && (IsExitSide(ex, i, p.value) || i in failed) ==>
              AdoptOpenExitOrder(ex, snap.value.openOrders, p.value) == Some(i)
  }

  /** Whatever else happens on the exchange between the open-order answer and the cancels, startup begins the
      order-tracking invariant when nothing of ours was working or the condition above holds. */
  lemma StartupTracksIf(cfg: Config, s0: State, snap: Reply<Snapshot>, rows: seq<Pid>, calls: CancelIo, now: int)
    requires s0.order.None? && s0.position.None?
    requires snap.Ok? ==> Truthful(s0.ex, snap.value.openOrders)
    requires (forall i: nat :: !s0.ex.WorkingOurs(i)) || StartupCanTrack(cfg, s0.ex, snap, rows, calls.failed, now)
    ensures Tracked(Bootstrap(cfg, s0, snap, rows, calls, now))
  {
    var s := Bootstrap(cfg, s0, snap, rows, calls, now);
    if snap.Ok? && (snap.value.positions == [] || Restorable(cfg, snap.value, rows, now).Some?) {
      var p := Restorable(cfg, snap.value, rows, now);
      var adopted := if p.None? then None else AdoptOpenExitOrder(s0.ex, snap.value.openOrders, p.value);
      CancelStaleEffect(s0.ex, snap.value.openOrders, p, adopted, calls);
      forall i: nat | s.ex.WorkingOurs(i) ensures s.order.Some? && s.order.value.orderId == i {
        assert i < |s0.ex.orders| ==> AgedOrder(s0.ex.orders[i], s.ex.orders[i]);
        assert s0.ex.WorkingOurs(i) && i in snap.value.openOrders;
      }
    }
  }

  /** With nobody else acting meanwhile it does so exactly then: a failed snapshot, a missing average price, a second
      exit-side order, or a failed cancel leave orders untracked. */
  lemma StartupTracksIff(cfg: Config, s0: State, snap: Reply<Snapshot>, rows: seq<Pid>, calls: CancelIo, now: int)
    requires s0.order.None? && s0.position.None? && calls.Quiet()
    requires snap.Ok? ==> Truthful(s0.ex, snap.value.openOrders)
    ensures Tracked(Bootstrap(cfg, s0, snap, rows, calls, now)) <==>
              (forall i: nat :: !s0.ex.WorkingOurs(i)) || StartupCanTrack(cfg, s0.ex, snap, rows, calls.failed, now)
  {
    var s := Bootstrap(cfg, s0, snap, rows, calls, now);
    if snap.Ok? && snap.value.positions == [] {
      CancelStaleEffect(s0.ex, snap.value.openOrders, None, None, calls);
      forall i: nat ensures s.ex.WorkingOurs(i) <==> s0.ex.WorkingOurs(i) && i in calls.failed {
        if i < |s0.ex.orders| {
          assert AgedOrder(s0.ex.orders[i], s.ex.orders[i]);
          if s0.ex.Working(i) && i in calls.failed {
            KeptOrdersWork(s0.ex, s0.ex, snap.value.openOrders, None, None, calls, i);
          }
        }
      }
    } else if snap.Ok? && s.position.Some? {
      HeldStartupTracksIff(cfg, s0, snap.value, rows, calls, now);
    } else {
      assert s.ex == s0.ex && s.order.None?;
    }
  }

  lemma HeldStartupTracksIff(cfg: Config, s0: State, snap: Snapshot, rows: seq<Pid>, calls: CancelIo, now: int)
    requires s0.order.None? && s0.position.None? && Truthful(s0.ex, snap.openOrders) && calls.Quiet()
    requires snap.positions != [] && Restorable(cfg, snap, rows, now).Some?
    ensures var p := Restorable(cfg, snap, rows, now).value;
            Tracked(Bootstrap(cfg, s0, Ok(snap), rows, calls, now)) <==>
              forall i: nat :: s0.ex.WorkingOurs(i) && (IsExitSide(s0.ex, i, p) || i in calls.failed) ==>
                AdoptOpenExitOrder(s0.ex, snap.openOrders, p) == Some(i)
  {
    var p := Restorable(cfg, snap, rows, now).value;
    var s := Bootstrap(cfg, s0, Ok(snap), rows, calls, now);
    var adopted := AdoptOpenExitOrder(s0.ex, snap.openOrders, p);
    CancelStaleEffect(s0.ex, snap.openOrders, Some(p), adopted, calls);
    assert forall i: nat :: s.order.Some? && s.order.value.orderId == i <==> adopted == Some(i);
    forall i: nat
      ensures s.ex.WorkingOurs(i) <==> s0.ex.WorkingOurs(i) && (IsExitSide(s0.ex, i, p) || i in calls.failed)
    {
      if i < |s0.ex.orders| {
        assert AgedOrder(s0.ex.orders[i], s.ex.orders[i]);
        if s0.ex.Working(i) && (IsExitSide(s0.ex, i, p) || i in calls.failed) {
          KeptOrdersWork(s0.ex, s0.ex, snap.openOrders, Some(p), adopted, calls, i);
        }
      }
    }
  }

  /** The failing case is reachable: of two working exit orders left by an earlier process the second stays alive on
      the exchange and is not tracked. */
  lemma SecondExitOrderIsNotTracked(cfg: Config, s0: State, now: int)
    requires s0.order.None? && s0.position.None?
    requires s0.ex == Exchange([ExOrder(1, Sell, 1.0, 0.0, Live, true, false, true, Some(2.0)),
               ExOrder(2, Sell, 1.0, 0.0, Live, true, false, true, Some(2.0))])
    ensures var snap := Snapshot([OkxPosition(true, 1.0, Some(1.0), None, None)], [0, 1]);
            var s := Bootstrap(cfg, s0, Ok(snap), [], QUIET, now);
            && Truthful(s0.ex, snap.openOrders) && !Tracked(s)
            && s.order.Some? && s.order.value.orderId == 0 && s.ex.WorkingOurs(1)
  {
    var report := [OkxPosition(true, 1.0, Some(1.0), None, None)];
    var snap := Snapshot(report, [0, 1]);
    assert FirstForInstrument(report) == Some(report[0]);
    var p := Restorable(cfg, snap, [], now).value;
    assert IsExitSide(s0.ex, 0, p) && IsExitSide(s0.ex, 1, p);
    KeptOrdersWork(s0.ex, s0.ex, snap.openOrders, Some(p), Some(0), QUIET, 1);
    assert Bootstrap(cfg, s0, Ok(snap), [], QUIET, now).ex.WorkingOurs(1) by {
      CancelStaleEffect(s0.ex, snap.openOrders, Some(p), Some(0), QUIET);
      assert AgedOrder(s0.ex.orders[1], CancelStale(s0.ex, snap.openOrders, Some(p), Some(0), QUIET).orders[1]);
    }
  }

  // ---------------------------------------------------------------- every invariant of the loop begins here

  /** A process that has just started: no order, no position, empty history, counters and slots. */
  predicate JustStarted(s: State) {
    && s.order.None? && s.position.None? && s.timers == Timers(None, None)
    && s.history == History(0, 0, 0, 0, 0, 0, 0, [])
    && s.store == Store(s.store.strategy, s.store.positions, map[], map[], map[], None, None, 0, 0, 0)
  }

  /** After a startup that tracks its orders, every invariant of the run holds, so it holds in every reachable state. */
  lemma StartupEstablishesInvariants(cfg: Config, s0: State, snap: Reply<Snapshot>, rows: seq<Pid>, calls: CancelIo,
                                     now: int, ios: seq<Io>)
    requires cfg.grid > 0.0 && JustStarted(s0)
    requires snap.Ok? ==> forall i :: i in snap.value.openOrders ==> i < |s0.ex.orders|
    requires forall i :: 0 <= i < |s0.ex.orders| ==> s0.ex.orders[i].cid < s0.nextId
    requires forall p :: p in rows ==> p.Fresh? ==> p.n < s0.nextId
    requires Tracked(Bootstrap(cfg, s0, snap, rows, calls, now))
    ensures var s := Run(cfg, Bootstrap(cfg, s0, snap, rows, calls, now), ios).s;
            InStep(s) && Books(cfg, s) && Rows(s0.nextId, s)
  {
    hide Run;
    var s := Bootstrap(cfg, s0, snap, rows, calls, now);
    if snap.Ok? {
      var first := FirstForInstrument(snap.value.positions);
      if first.Some? && s.order.Some? {
        var p := Restorable(cfg, snap.value, rows, now).value;
        var adopted := AdoptOpenExitOrder(s0.ex, snap.value.openOrders, p);
        CancelStaleEffect(s0.ex, snap.value.openOrders, Some(p), adopted, calls);
        assert AgedOrder(s0.ex.orders[adopted.value], s.ex.orders[adopted.value]);
      }
      CloseRowsClosesExactly(s0.store, rows, now);
    }
    assert Linked(s);
    assert Books(cfg, s);
    assert Rows(s0.nextId, s);
    EveryWorkingOrderIsTracked(cfg, s, ios);
    BooksHoldOverRuns(cfg, s, ios);
    RowsHoldOverRuns(cfg, s0.nextId, s, ios);
  }

  lemma {:induction false} CancelStaleKeepsSane(ex: Exchange, listing: seq<nat>, p: Option<ActivePosition>,
                                                adopted: Option<nat>, calls: CancelIo)
    requires Sane(ex)
    ensures Sane(CancelStale(ex, listing, p, adopted, calls))
    decreases |listing|
  {
    if listing != [] {
      EvolveKeepsSane(ex, calls.Before(listing[0]));
      CancelStaleKeepsSane(CancelOne(ex, listing[0], p, adopted, calls), listing[1..], p, adopted, calls);
    }
  }

  /** Startup places nothing and journals no entry order, so the exposure invariants begin there too. */
  lemma StartupBeginsChains(cfg: Config, s0: State, snap: Reply<Snapshot>, rows: seq<Pid>, calls: CancelIo, now: int)
    requires JustStarted(s0) && Sane(s0.ex)
    requires forall i :: 0 <= i < |s0.ex.orders| ==> s0.ex.orders[i].cid < s0.nextId
    ensures Chained(cfg, s0.nextId, Bootstrap(cfg, s0, snap, rows, calls, now))
  {
    var s := Bootstrap(cfg, s0, snap, rows, calls, now);
    if snap.Ok? {
      CloseRowsClosesExactly(s0.store, rows, now);
      var first := FirstForInstrument(snap.value.positions);
      var p := if first.None? then None else Restorable(cfg, snap.value, rows, now);
      var adopted := if p.None? then None else AdoptOpenExitOrder(s0.ex, snap.value.openOrders, p.value);
      CancelStaleKeepsSane(s0.ex, snap.value.openOrders, p, adopted, calls);
      CancelStaleEffect(s0.ex, snap.value.openOrders, p, adopted, calls);
      assert forall i :: 0 <= i < |s0.ex.orders| ==>
          AgedOrder(s0.ex.orders[i], CancelStale(s0.ex, snap.value.openOrders, p, adopted, calls).orders[i]);
    }
    assert OwnIds(s0.nextId, s);
  }
}
