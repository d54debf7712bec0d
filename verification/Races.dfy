/** Two properties one would expect of the loop that its code does not have, each with a run that breaks it and
    the exact condition under which it holds. */
module Races {
  import opened Common
  import opened PositionState
  import opened Exchange
  import opened TradeLifecycle
  import opened Store
  import opened RunLoop
  import opened OrderTracking
  import opened PositionLedger
  import opened RepriceLineage
  import opened EntryExposure

  // ---------------------------------------------------------------- exposure of a repriced entry

  /** A repriced entry places its full size again. The old and the new order together commit no more than the
      order size exactly when the old one had no fill at the moment the cancel took effect; the cancel's answer,
      success or 51400, does not tell. */
  lemma RepriceCommitsOrderSizeIff(cfg: Config, s: State, o: ActiveOrder, last: real, flags: Flags, io: Io)
    requires cfg.grid > 0.0 && InStep(s) && Coupled(cfg, s) && s.order == Some(o) && o.purpose.Entry?
    requires !io.work.cancelFails && io.reprice.book.Ok? && io.reprice.reply.Accepted?
    requires Evolve(s.ex, io.work.cancelEnv).orders[o.orderId].filled >= 0.0
    ensures var atCancel := Evolve(s.ex, io.work.cancelEnv).orders[o.orderId];
            var s' := Reprice(cfg, s, o, last, flags, io).s;
            && s'.order.Some? && o.orderId < s'.order.value.orderId < |s'.ex.orders|
            && var before := s'.ex.orders[o.orderId];
               var after := s'.ex.orders[s'.order.value.orderId];
               && before.filled == atCancel.filled && !before.Working() && after.Working()
               && (before.Committed() + after.Committed() <= cfg.orderSize <==> atCancel.filled == 0.0)
  {
    hide ResolveMakerPrice;
    var a := Evolve(s.ex, io.work.cancelEnv);
    assert AgedOrder(s.ex.orders[o.orderId], a.orders[o.orderId]);
    var b := Cancel(a, o.clientId);
    var c := Evolve(b, io.reprice.env);
    assert AgedOrder(a.orders[o.orderId], b.orders[o.orderId]);
    assert AgedOrder(b.orders[o.orderId], c.orders[o.orderId]);
    assert b.orders[o.orderId].filled == a.orders[o.orderId].filled;
  }

  // ---------------------------------------------------------------- overwriting a restored position

  /** The position the restore of this iteration would take over. */
  function Restorable(io: Io): Option<OkxPosition>
    requires io.observe.positions.Ok?
  {
    var report := FirstForInstrument(io.observe.positions.value);
    if report.Some? && report.value.avgPx.Some? && report.value.pos != 0.0 then report else None
  }

  /** In every reachable state with an entry order out, finding it filled overwrites a position, and leaves that
      position's row open, exactly when one is already held (restored earlier, while the order was partly filled) or
      the snapshot of this very iteration reports one that can be restored, because the restore runs first. */
  lemma EntryFillOverwritesIff(cfg: Config, base: nat, s: State, last: real, io: Io)
    requires cfg.grid > 0.0 && Books(cfg, s) && Rows(base, s) && EntryActive(s)
    requires io.observe.openOrders.Ok? && io.observe.positions.Ok? && io.poll.reply.PollFound?
    requires var ex := Evolve(Evolve(s.ex, io.observe.env), io.poll.env);
             s.order.value.orderId < |ex.orders| && ex.orders[s.order.value.orderId].state.Filled?
    ensures var seen := Observe(cfg, s, io);
            var polled := Poll(cfg, seen.s, last, seen.flags, io).s;
            var overwrites := s.position.Some? || Restorable(io).Some?;
            && polled.history.entered == s.history.entered + 1 && polled.position.Some?
            && polled.position.value.id == Fresh(s.nextId)
            && polled.history.overwritten == s.history.overwritten + (if overwrites then 1 else 0)
            && (overwrites ==>
                  var left := if s.position.Some?
                              then s.position.value.id
                              else FromExchange(Restorable(io).value.posId);
                  left != Fresh(s.nextId) && left in polled.store.positions && polled.store.positions[left].exit.None?)
  {
    hide OnFilled, Evolve, Books, Rows;
    var seen := Observe(cfg, s, io);
    var o := s.order.value;
    var aged := seen.s.(ex := Evolve(seen.s.ex, io.poll.env));
    var price := Or(io.poll.reply.avgPx, Or(io.poll.reply.px, Some(last))).value;
    ObserveBeforeFill(cfg, base, s, io);
    FillOpens(cfg, aged, o, aged.ex.orders[o.orderId], price, seen.flags, io);
  }

  lemma ObserveBeforeFill(cfg: Config, base: nat, s: State, io: Io)
    requires Books(cfg, s) && Rows(base, s) && EntryActive(s) && io.observe.openOrders.Ok? && io.observe.positions.Ok?
    ensures var seen := Observe(cfg, s, io);
            && seen.flow.Proceed? && seen.s.order == s.order && seen.s.ex == Evolve(s.ex, io.observe.env)
            && seen.s.nextId == s.nextId
            && seen.s.history.entered == s.history.entered && seen.s.history.overwritten == s.history.overwritten
            && (seen.s.position.Some? <==> s.position.Some? || Restorable(io).Some?)
            && (seen.s.position.Some? ==>
                  var left := if s.position.Some?
                              then s.position.value.id
                              else FromExchange(Restorable(io).value.posId);
                  seen.s.position.value.id == left && left != Fresh(s.nextId) && seen.s.store.Covers(left))
  {
    hide Evolve, CancelAll, BuildActivePosition;
  }

  lemma FillOpens(cfg: Config, s: State, o: ActiveOrder, x: ExOrder, price: real, flags: Flags, io: Io)
    requires o.purpose.Entry?
    requires s.position.Some? ==> s.store.Covers(s.position.value.id) && s.position.value.id != Fresh(s.nextId)
    ensures var s' := OnFilled(cfg, s, o, x, price, flags, io).s;
            && s'.history.entered == s.history.entered + 1 && s'.position.Some?
            && s'.position.value.id == Fresh(s.nextId)
            && s'.history.overwritten == s.history.overwritten + (if s.position.Some? then 1 else 0)
            && (s.position.Some? ==>
                  var left := s.position.value.id;
                  left in s'.store.positions && s'.store.positions[left].exit.None?)
  {
    hide BuildActivePosition;
  }

  // ---------------------------------------------------------------- a run with both

  const DEMO := Config(1.0, 0, 10, 0, 10, 7, 3, 300, true, 5, 30, 3, 3, 30, 20, 0.0, 0.0, 1.0, 1.0, None, None)

  const NO_WORK := WorkIo(Ok(Book(1.0, 2.0)), [], false, [], false, false)

  const NO_PLACE := PlaceIo(Ok(Book(1.0, 2.0)), None, [], Accepted, Ok([]))

  function DemoIo(now: int, pollEnv: seq<EnvEvent>, cancelEnv: seq<EnvEvent>, report: seq<OkxPosition>): Io {
    Io(now, [], Ok(Ticker(1.0, 1000 * now)), ObserveIo([], Ok(1), Ok(report), []),
       PollIo(pollEnv, PollFound(None, None)), NO_WORK.(cancelEnv := cancelEnv), NO_PLACE, [], Long, NO_PLACE,
           Ok(([], [])))
  }

  /** A state the loop is in after submitting an entry of size 1: one working order, tracked, and no position. */
  const DEMO_STATE :=
    State(Some(ActiveOrder(0, 0, Buy, Entry, 0, 0, false, 1.0)), None, Timers(Some(0), None), Control(NoStop, true),
      Store("demo", map[], map[], map[], map[0 := OrderRow(None, Some(0), 1, 0, 0)], Some(0),
        Some(NEW_LIFECYCLE.Begin(0, 1.0).OnEntrySubmit(1.0, 1.0, 0)), 0, 0, 0),
      1, 0, 1, Exchange([ExOrder(0, Buy, 1.0, 0.0, Live, false, false, true, Some(1.0))]),
          History(0, 0, 0, 0, 0, 0, 0, [Decided(0)]))

  lemma EvolveNone(ex: Exchange)
    ensures Evolve(ex, []) == ex
  {
  }

  lemma EvolveOne(ex: Exchange, e: EnvEvent)
    ensures Evolve(ex, [e]) == Apply(ex, e)
  {
    assert [e][1..] == [];
  }

  const REPRICED := ResolveMakerPrice(Buy, Book(1.0, 2.0), None, 1.0)

  const AFTER_RACE := Exchange([ExOrder(0, Buy, 1.0, 1.0, Filled, false, false, true, Some(1.0)),
            ExOrder(1, Buy, 1.0, 0.0, Live, false, false, true, Some(REPRICED))])

  lemma RaceStep()
    ensures var out := Iterate(DEMO, DEMO_STATE, DemoIo(1, [], [Fill(0, 1.0)], []));
            && out.s.ex == AFTER_RACE && !out.flow.Stopped?
            && out.s.order == Some(ActiveOrder(1, 1, Buy, Entry, 0, 1, false, 1.0)) && out.s.position.None?
            && out.s.control == Control(NoStop, true) && out.s.history == DEMO_STATE.history
            && 1 in out.s.store.orders && out.s.store.orders[1].parent == Some(0)
  {
    hide ResolveMakerPrice, CancelAll, Evolve;
    var io := DemoIo(1, [], [Fill(0, 1.0)], []);
    EvolveNone(DEMO_STATE.ex);
    EvolveOne(DEMO_STATE.ex, Fill(0, 1.0));
    var filled := Apply(DEMO_STATE.ex, Fill(0, 1.0));
    assert filled.orders == [ExOrder(0, Buy, 1.0, 1.0, Filled, false, false, true, Some(1.0))];
    assert Cancel(filled, 0).orders == filled.orders;
    EvolveNone(filled);
  }

  lemma FillStep(s: State)
    requires s.ex == AFTER_RACE && s.order == Some(ActiveOrder(1, 1, Buy, Entry, 0, 1, false, 1.0)) && s.position.None?
    requires s.control == Control(NoStop, true) && s.history == DEMO_STATE.history
    requires 1 in s.store.orders && s.store.orders[1].parent == Some(0)
    ensures var s' := Iterate(DEMO, s,
              DemoIo(2, [Fill(1, 1.0)], [], [OkxPosition(true, 1.0, Some(1.0), None, None)])).s;
            && s'.ex.orders == [AFTER_RACE.orders[0], AFTER_RACE.orders[1].(filled := 1.0, state := Filled)]
            && s'.history.restored == s'.history.overwritten == 1
            && s'.position.Some? && s'.position.value.size == 1.0
            && 1 in s'.store.orders && s'.store.orders[1].parent == Some(0)
  {
    hide ResolveMakerPrice, CancelAll, Evolve, SubmitExit, OnWorking, OnDead;
    EvolveNone(s.ex);
    EvolveOne(s.ex, Fill(1, 1.0));
    var full := Apply(s.ex, Fill(1, 1.0));
    assert full.orders == [AFTER_RACE.orders[0], AFTER_RACE.orders[1].(filled := 1.0, state := Filled)];
    EvolveNone(full);
  }

  lemma ChainOfTwo(ex: Exchange, rows: map<Cid, OrderRow>)
    requires 1 in rows && rows[1].parent == Some(0)
    requires ex.orders == [AFTER_RACE.orders[0], AFTER_RACE.orders[1].(filled := 1.0, state := Filled)]
    ensures ChainCommitted(ex, rows, 1, 1) == 2.0
  {
    var first, second := ex.orders[0], ex.orders[1];
    assert ex.orders[..1] == [first] && [first][..0] == [];
    assert OwnIndex([first], 0) == Some(0) && OwnIndex([first], 1) == None;
    assert OwnIndex(ex.orders, 0) == Some(0) && OwnIndex(ex.orders, 1) == Some(1);
    assert ChainCommitted(ex, rows, 0, 0) == 1.0;
  }

  /** The order fills between the poll and the cancel of a reprice, the cancel answers 51400, the reprice places
      the full size again, and that fills too: twice the order size on the exchange, a restored position overwritten,
      and a held position that covers only half. */
  lemma RacedRepriceFillsTwice() returns (ios: seq<Io>)
    ensures InStep(DEMO_STATE) && Books(DEMO, DEMO_STATE)
    ensures var s' := Run(DEMO, DEMO_STATE, ios).s;
            && |s'.ex.orders| > 1 && s'.ex.orders[0].ours && s'.ex.orders[1].ours
            && s'.ex.orders[0].filled + s'.ex.orders[1].filled == 2.0 * DEMO.orderSize
            && s'.history.restored == s'.history.overwritten == 1
            && s'.position.Some?
            && ChainCommitted(s'.ex, s'.store.orders, 1, 1) == s'.position.value.size + DEMO.orderSize
  {
    hide Iterate, Evolve;
    assert Closings([Decided(0)]) == 0;
    var io1 := DemoIo(1, [], [Fill(0, 1.0)], []);
    var io2 := DemoIo(2, [Fill(1, 1.0)], [], [OkxPosition(true, 1.0, Some(1.0), None, None)]);
    ios := [io1, io2];
    RaceStep();
    var s1 := Iterate(DEMO, DEMO_STATE, io1).s;
    FillStep(s1);
    assert ios[1..] == [io2] && [io2][1..] == [];
    assert Run(DEMO, s1, [io2]).s == Iterate(DEMO, s1, io2).s;
    var s2 := Iterate(DEMO, s1, io2).s;
    ChainOfTwo(s2.ex, s2.store.orders);
  }

  // ---------------------------------------------------------------- a partial fill is enough

  const PATIENT := DEMO.(makerRepriceSec := 5)

  /** Half of the order fills before an iteration's snapshots. */
  function HalfFillIo(now: int, report: seq<OkxPosition>): Io {
    DemoIo(now, [], [], report).(observe := ObserveIo([Fill(0, 0.5)], Ok(1), Ok(report), []))
  }

  const HALF_FILLED := Exchange([ExOrder(0, Buy, 1.0, 0.5, PartiallyFilled, false, false, true, Some(1.0))])

  lemma PartialFillStep()
    ensures var out := Iterate(PATIENT, DEMO_STATE, HalfFillIo(1, [OkxPosition(true, 0.5, Some(1.0), None, None)]));
            && out.s.ex == HALF_FILLED && !out.flow.Stopped? && out.s.order == DEMO_STATE.order
            && out.s.position.Some? && out.s.position.value.id == FromExchange(None)
            && out.s.store.Covers(FromExchange(None))
            && out.s.control == Control(NoStop, true) && out.s.nextId == 1
            && out.s.history.restored == 1 && out.s.history.overwritten == 0
  {
    hide ResolveMakerPrice, CancelAll, Evolve, Reprice, Expire, OnFilled, OnDead;
    EvolveOne(DEMO_STATE.ex, Fill(0, 0.5));
    var half := Apply(DEMO_STATE.ex, Fill(0, 0.5));
    assert half.orders == HALF_FILLED.orders;
    EvolveNone(half);
  }

  lemma AcceptedExitMovesNoPosition(cfg: Config, s: State, last: real, flags: Flags, io: Io)
    requires cfg.grid > 0.0 && s.position.Some? && io.submit.reply.Accepted?
    ensures var s' := Leave(cfg, s, last, flags, io).s;
            && s'.history == s.history.(submits := s'.history.submits) && s'.store.positions == s.store.positions
  {
    hide ResolveMakerPrice, Evolve, CheckExitReason, ShouldUseMarketExit;
  }

  lemma OnFilledProceeds(cfg: Config, s: State, o: ActiveOrder, x: ExOrder, price: real, flags: Flags, io: Io)
    ensures OnFilled(cfg, s, o, x, price, flags, io).flow.Proceed?
    ensures OnFilled(cfg, s, o, x, price, flags, io).s.history.restored == s.history.restored
  {
    hide BuildActivePosition, FinalizeClosedTrade;
  }

  lemma SecondHalfStep(s: State)
    requires s.ex == HALF_FILLED && s.order == DEMO_STATE.order && s.control == Control(NoStop, true) && s.nextId == 1
    requires s.position.Some? && s.position.value.id == FromExchange(None) && s.store.Covers(FromExchange(None))
    ensures var s' := Iterate(PATIENT, s, HalfFillIo(2, [])).s;
            && s'.history.overwritten == s.history.overwritten + 1 && s'.history.restored == s.history.restored
            && FromExchange(None) in s'.store.positions && s'.store.positions[FromExchange(None)].exit.None?
  {
    hide ResolveMakerPrice, CancelAll, Evolve, OnFilled, OnWorking, OnDead, Leave;
    EvolveOne(s.ex, Fill(0, 0.5));
    var full := Apply(s.ex, Fill(0, 0.5));
    assert full.orders == [ExOrder(0, Buy, 1.0, 1.0, Filled, false, false, true, Some(1.0))];
    EvolveNone(full);
    var io := HalfFillIo(2, []);
    var seen := Observe(PATIENT, s.(loops := s.loops + 1), io);
    var before := seen.s.(ex := full);
    FillOpens(PATIENT, before, s.order.value, full.orders[0], 1.0, seen.flags, io);
    var filled := OnFilled(PATIENT, before, s.order.value, full.orders[0], 1.0, seen.flags, io);
    FilledForgets(PATIENT, before, s.order.value, full.orders[0], 1.0, seen.flags, io);
    OnFilledProceeds(PATIENT, before, s.order.value, full.orders[0], 1.0, seen.flags, io);
    AcceptedExitMovesNoPosition(PATIENT, filled.s, 1.0, filled.flags, io);
  }

  /** The entry fills in two halves. After the first the snapshot restores a position while the order is still
      tracked; the second overwrites it although the snapshot of that iteration reports nothing. */
  lemma PartialFillOverwrites() returns (ios: seq<Io>)
    ensures |ios| == 2 && ios[1].observe.positions == Ok([])
    ensures var s' := Run(PATIENT, DEMO_STATE, ios).s;
            && s'.history.restored == s'.history.overwritten == 1
            && FromExchange(None) in s'.store.positions && s'.store.positions[FromExchange(None)].exit.None?
  {
    hide Iterate;
    var io1, io2 := HalfFillIo(1, [OkxPosition(true, 0.5, Some(1.0), None, None)]), HalfFillIo(2, []);
    ios := [io1, io2];
    PartialFillStep();
    var s1 := Iterate(PATIENT, DEMO_STATE, io1).s;
    SecondHalfStep(s1);
    assert ios[1..] == [io2] && [io2][1..] == [];
    assert Run(PATIENT, s1, [io2]).s == Iterate(PATIENT, s1, io2).s;
  }
}
