/** execution/trade_lifecycle.py: the tracker of one round trip, from signal to close. */
module TradeLifecycle {
  import opened Common
  import opened PositionState

  datatype CloseSource = ExecutorMaker | ExecutorMarketFallback | OkxReconcile

  /** One leg's numbers: entry and exit keep the same set. */
  datatype Leg = Leg(
    orders: nat, reprices: nat, cancels: nat,
    startedAt: Option<int>, filledAt: Option<int>,
    firstPx: Option<real>, lastPx: Option<real>, touchPx: Option<real>, filledPx: Option<real>,
    exchangeId: Option<nat>, clientId: Option<Cid>)

  const NO_LEG := Leg(0, 0, 0, None, None, None, None, None, None, None, None)

  /** The tracker's fields as a value; class `TradeLifecycleTracker` below is the object that updates them. */
  datatype Lifecycle = Lifecycle(
    entrySignal: Option<Cid>, position: Option<Pid>, tick: Option<real>,
    entry: Leg, exit: Leg, exitMarket: bool,
    makerAttempts: nat, fallbackUsed: bool, fallbackReason: Option<Reason>,
    trigger: Option<Reason>, timeoutTriggered: bool, closeSource: Option<CloseSource>)
  {
    function Begin(signal: Cid, tickSize: real): Lifecycle {
      this.(entrySignal := Some(signal), tick := Some(tickSize))
    }

    function BindPosition(id: Pid): Lifecycle { this.(position := Some(id)) }

    function OnEntrySubmit(px: real, touch: real, ts: int): Lifecycle {
      this.(entry := Submitted(entry, px, touch, ts))
    }

    function OnReprice(purpose: Purpose, px: real): Lifecycle {
      if purpose.Entry? then this.(entry := Repriced(entry, px)) else this.(exit := Repriced(exit, px))
    }

    function OnTimeoutCancel(purpose: Purpose): Lifecycle {
      if purpose.Entry? then this.(entry := entry.(cancels := entry.cancels + 1))
      else this.(exit := exit.(cancels := exit.cancels + 1))
    }

    function OnEntryFill(px: real, exchangeId: nat, clientId: Cid, ts: int): Lifecycle {
      this.(entry := entry.(filledPx := Some(px), filledAt := Some(ts), exchangeId := Some(exchangeId),
          clientId := Some(clientId)))
    }

    function OnExitTrigger(reason: Reason): Lifecycle {
      this.(trigger := Some(reason), timeoutTriggered := reason.Timeout?)
    }

    function OnExitSubmit(px: real, market: bool, ts: int): Lifecycle {
      this.(exit := Submitted(exit, px, px, ts), exitMarket := market,
            fallbackUsed := fallbackUsed || market,
            fallbackReason := if market then trigger else fallbackReason)
    }

    function OnExitMakerAttemptFailed(): Lifecycle { this.(makerAttempts := makerAttempts + 1) }

    function OnExitFill(px: real, exchangeId: nat, clientId: Cid, ts: int, source: CloseSource): Lifecycle {
      this.(exit := exit.(filledPx := Some(px), filledAt := Some(ts), exchangeId := Some(exchangeId),
          clientId := Some(clientId)),
            closeSource := Some(source))
    }

    /** What `finalize_reconciled_close` records for a close without a fill. */
    function OnReconciledClose(px: real, ts: int): Lifecycle {
      this.(closeSource := Some(OkxReconcile),
            trigger := if trigger.Some? then trigger else Some(Reconcile),
            exit := exit.(filledPx := Some(px), filledAt := Some(ts)))
    }
  }

  const NEW_LIFECYCLE :=
    Lifecycle(None, None, None, NO_LEG, NO_LEG, false, 0, false, None, None, false, None)

  function Submitted(leg: Leg, px: real, touch: real, ts: int): Leg {
    var first := leg.startedAt.None?;
    leg.(orders := leg.orders + 1, lastPx := Some(px),
         startedAt := if first then Some(ts) else leg.startedAt,
         firstPx := if first then Some(px) else leg.firstPx,
         touchPx := if first then Some(touch) else leg.touchPx)
  }

  function Repriced(leg: Leg, px: real): Leg {
    leg.(orders := leg.orders + 1, reprices := leg.reprices + 1, cancels := leg.cancels + 1, lastPx := Some(px))
  }

  /** Ticks lost against the touch at the first submit; positive is a worse price. */
  function SlippageTicks(filled: Option<real>, touch: Option<real>, tick: Option<real>, purpose: Purpose,
                         side: Side): Option<real>
  {
    if filled.None? || touch.None? || tick.None? || tick.value == 0.0 then None
    else if purpose.Entry? == side.Long? then Some((filled.value - touch.value) / tick.value)
    else Some((touch.value - filled.value) / tick.value)
  }

  /** Slippage accounts for the whole difference between the result at the first touches and the result
      at the fills: (entry + exit slippage) ticks, times tick, times size, for both sides. */
  lemma SlippageExplainsPnl(side: Side, touchIn: real, fillIn: real, touchOut: real, fillOut: real, tick: real,
                            size: real)
    requires tick > 0.0
    ensures var sIn := SlippageTicks(Some(fillIn), Some(touchIn), Some(tick), Entry, side);
            var sOut := SlippageTicks(Some(fillOut), Some(touchOut), Some(tick), Exit, side);
            && sIn.Some? && sOut.Some?
            && GrossPnl(side, touchIn, touchOut, size) - GrossPnl(side, fillIn, fillOut, size)
               == (sIn.value + sOut.value) * tick * size
  {
    var lossIn := if side.Long? then fillIn - touchIn else touchIn - fillIn;
    var lossOut := if side.Long? then touchOut - fillOut else fillOut - touchOut;
    DivMul(lossIn, tick);
    DivMul(lossOut, tick);
    assert (lossIn / tick + lossOut / tick) * tick == lossIn + lossOut;
    assert (lossIn + lossOut) * size == GrossPnl(side, touchIn, touchOut, size) - GrossPnl(side, fillIn, fillOut, size);
  }

  // ---------------------------------------------------------------- what a whole leg leaves on the tracker

  function RepriceAll(lc: Lifecycle, purpose: Purpose, pxs: seq<real>): Lifecycle {
    if pxs == [] then lc else RepriceAll(lc, purpose, pxs[..|pxs| - 1]).OnReprice(purpose, pxs[|pxs| - 1])
  }

  lemma {:induction false} RepricesCount(lc: Lifecycle, purpose: Purpose, pxs: seq<real>)
    ensures var done := RepriceAll(lc, purpose, pxs);
            var was := if purpose.Entry? then lc.entry else lc.exit;
            var leg := if purpose.Entry? then done.entry else done.exit;
            && done == (if purpose.Entry? then lc.(entry := leg) else lc.(exit := leg))
            && leg == was.(orders := was.orders + |pxs|, reprices := was.reprices + |pxs|,
                           cancels := was.cancels + |pxs|,
                           lastPx := if pxs == [] then was.lastPx else Some(pxs[|pxs| - 1]))
  {
    if pxs != [] { RepricesCount(lc, purpose, pxs[..|pxs| - 1]); }
  }

  /** An entry from its signal to its fill: the first price, touch and time are those of the first submit, whatever n
      reprices follow; the order count is n + 1, and the fill is bound to the position. */
  lemma EntryLegOfATrade(signal: Cid, tick: real, px: real, touch: real, submitted: int, pxs: seq<real>,
                         fillPx: real, exchangeId: nat, clientId: Cid, filled: int, pid: Pid)
    ensures var lc := RepriceAll(NEW_LIFECYCLE.Begin(signal, tick).OnEntrySubmit(px, touch, submitted), Entry, pxs)
                        .OnEntryFill(fillPx, exchangeId, clientId, filled).BindPosition(pid);
            && lc.entrySignal == Some(signal) && lc.tick == Some(tick) && lc.position == Some(pid)
            && lc.entry == Leg(|pxs| + 1, |pxs|, |pxs|, Some(submitted), Some(filled), Some(px),
                               if pxs == [] then Some(px) else Some(pxs[|pxs| - 1]), Some(touch), Some(fillPx),
                               Some(exchangeId), Some(clientId))
            && lc.exit == NO_LEG && lc.trigger.None?
  {
    RepricesCount(NEW_LIFECYCLE.Begin(signal, tick).OnEntrySubmit(px, touch, submitted), Entry, pxs);
  }

  /** One exit submission: at which price, as a market order or not, when, and for which trigger. */
  datatype Submission = Submission(px: real, market: bool, ts: int, trigger: Reason)

  function SubmitAll(lc: Lifecycle, exits: seq<Submission>): Lifecycle {
    if exits == [] then lc
    else
      var x := exits[|exits| - 1];
      SubmitAll(lc, exits[..|exits| - 1]).OnExitTrigger(x.trigger).OnExitSubmit(x.px, x.market, x.ts)
  }

  /** Any number of exit submissions: the touch is the first one's price, order type and trigger are the last one's, the
      fallback counts as used exactly when one of them was a market order, for the trigger of the last such one. */
  lemma {:induction false} ExitLegOfATrade(lc: Lifecycle, exits: seq<Submission>)
    requires exits != [] && lc.exit == NO_LEG && !lc.fallbackUsed
    ensures var done := SubmitAll(lc, exits);
            var first, last := exits[0], exits[|exits| - 1];
            && done.exit.orders == |exits| && done.exit.reprices == 0
            && done.exit.touchPx == done.exit.firstPx == Some(first.px) && done.exit.startedAt == Some(first.ts)
            && done.exit.lastPx == Some(last.px) && done.exitMarket == last.market
            && done.trigger == Some(last.trigger) && (done.timeoutTriggered <==> last.trigger == Timeout)
            && (done.fallbackUsed <==> exists i :: 0 <= i < |exits| && exits[i].market)
            && (last.market ==> done.fallbackReason == Some(last.trigger))
            && done.entry == lc.entry
  {
    var n := |exits| - 1;
    if n > 0 {
      ExitLegOfATrade(lc, exits[..n]);
      assert forall i :: 0 <= i < n ==> exits[..n][i] == exits[i];
    } else {
      assert exits[..n] == [];
    }
  }

  /** The mutable tracker. Each method's new state is the value-level update of the old one. */
  class TradeLifecycleTracker {
    var entrySignal: Option<Cid>
    var position: Option<Pid>
    var tick: Option<real>
    var entry: Leg
    var exit: Leg
    var exitMarket: bool
    var makerAttempts: nat
    var fallbackUsed: bool
    var fallbackReason: Option<Reason>
    var trigger: Option<Reason>
    var timeoutTriggered: bool
    var closeSource: Option<CloseSource>

    function View(): Lifecycle
      reads this
    {
      Lifecycle(entrySignal, position, tick, entry, exit, exitMarket, makerAttempts, fallbackUsed, fallbackReason,
                trigger, timeoutTriggered, closeSource)
    }

    constructor ()
      ensures View() == NEW_LIFECYCLE
    {
      entrySignal, position, tick, entry, exit := None, None, None, NO_LEG, NO_LEG;
      exitMarket, makerAttempts, fallbackUsed, fallbackReason := false, 0, false, None;
      trigger, timeoutTriggered, closeSource := None, false, None;
    }

    method Begin(signal: Cid, tickSize: real)
      modifies this
      ensures View() == old(View()).Begin(signal, tickSize)
    {
      entrySignal := Some(signal);
      tick := Some(tickSize);
    }

    method BindPosition(id: Pid)
      modifies this
      ensures View() == old(View()).BindPosition(id)
    {
      position := Some(id);
    }

    method OnEntrySubmit(px: real, touch: real, ts: int)
      modifies this
      ensures View() == old(View()).OnEntrySubmit(px, touch, ts)
    {
      entry := entry.(orders := entry.orders + 1);
      if entry.startedAt.None? {
        entry := entry.(startedAt := Some(ts), firstPx := Some(px), touchPx := Some(touch));
      }
      entry := entry.(lastPx := Some(px));
    }

    method OnReprice(purpose: Purpose, px: real)
      modifies this
      ensures View() == old(View()).OnReprice(purpose, px)
    {
      if purpose.Entry? {
        entry := entry.(reprices := entry.reprices + 1, cancels := entry.cancels + 1);
        entry := entry.(orders := entry.orders + 1, lastPx := Some(px));
      } else {
        exit := exit.(reprices := exit.reprices + 1, cancels := exit.cancels + 1);
        exit := exit.(orders := exit.orders + 1, lastPx := Some(px));
      }
    }

    method OnTimeoutCancel(purpose: Purpose)
      modifies this
      ensures View() == old(View()).OnTimeoutCancel(purpose)
    {
      if purpose.Entry? { entry := entry.(cancels := entry.cancels + 1); }
      else { exit := exit.(cancels := exit.cancels + 1); }
    }

    method OnEntryFill(px: real, exchangeId: nat, clientId: Cid, ts: int)
      modifies this
      ensures View() == old(View()).OnEntryFill(px, exchangeId, clientId, ts)
    {
      entry := entry.(filledPx := Some(px), filledAt := Some(ts));
      entry := entry.(exchangeId := Some(exchangeId), clientId := Some(clientId));
    }

    method OnExitTrigger(reason: Reason)
      modifies this
      ensures View() == old(View()).OnExitTrigger(reason)
    {
      trigger := Some(reason);
      timeoutTriggered := reason == Timeout;
    }

    method OnExitSubmit(px: real, market: bool, ts: int)
      modifies this
      ensures View() == old(View()).OnExitSubmit(px, market, ts)
    {
      exitMarket := market;
      exit := exit.(orders := exit.orders + 1);
      if exit.startedAt.None? {
        exit := exit.(startedAt := Some(ts), firstPx := Some(px), touchPx := Some(px));
      }
      exit := exit.(lastPx := Some(px));
      if market {
        fallbackUsed := true;
        fallbackReason := trigger;
      }
    }

    method OnExitMakerAttemptFailed()
      modifies this
      ensures View() == old(View()).OnExitMakerAttemptFailed()
    {
      makerAttempts := makerAttempts + 1;
    }

    method OnExitFill(px: real, exchangeId: nat, clientId: Cid, ts: int, source: CloseSource)
      modifies this
      ensures View() == old(View()).OnExitFill(px, exchangeId, clientId, ts, source)
    {
      exit := exit.(filledPx := Some(px), filledAt := Some(ts));
      exit := exit.(exchangeId := Some(exchangeId), clientId := Some(clientId));
      closeSource := Some(source);
    }
  }
}
