/** What every iteration keeps about the held position, its exit order, its tracker and its journal. */
module PositionLedger {
  import opened Common
  import opened PositionState
  import opened Exchange
  import opened RunLoop

  predicate ExitActive(s: State) { s.order.Some? && s.order.value.purpose.Exit? }

  predicate EntryActive(s: State) { s.order.Some? && s.order.value.purpose.Entry? }

  /** An exit order closes exactly the held position; an entry order never reduces. */
  predicate Coupled(cfg: Config, s: State) {
    s.order.Some? ==>
      var o := s.order.value;
      if o.purpose.Exit? then
        && s.position.Some? && o.reduceOnly
        && o.side == ExpectedExitSide(s.position.value.side) && o.size == s.position.value.size
      else !o.reduceOnly && o.size == cfg.orderSize
  }

  /** The tracker's failed-attempt count is the position's whenever both exist, and zero before a position does. */
  predicate TrackerAgrees(s: State) {
    && (s.store.lifecycle.Some? ==>
          s.store.lifecycle.value.makerAttempts == if s.position.Some? then s.position.value.attempts else 0)
    && (EntryActive(s) && s.position.Some? ==> s.position.value.attempts == 0)
  }

  /** Maker exit submissions for the held position, against failed attempts and dropped chains. */
  predicate Escalates(cfg: Config, s: State) {
    s.position.Some? ==>
      && s.history.submits <= s.position.value.attempts + s.history.drops + (if ExitActive(s) then 1 else 0)
      && (cfg.fallbackEnabled ==>
          s.history.submits <= (if cfg.maxAttempts > 0 then cfg.maxAttempts else 0) + s.history.drops)
  }

  /** Every position that came in has been finalized, overwritten by an entry fill, or is held. */
  predicate Conserved(s: State) {
    var h := s.history;
    h.adopted + h.restored + h.entered == h.finalized + h.overwritten + (if s.position.Some? then 1 else 0)
  }

  /** Each finalization made one close write, one trade-result write and one cooldown start; no trade result
      was ever skipped for want of metadata. */
  predicate Finalized(s: State) {
    var h := s.history;
    s.store.closeWrites == s.store.resultWrites == Closings(h.marks) == h.finalized && s.store.orphanResults == 0
  }

  predicate Covered(s: State) { s.position.Some? ==> s.store.Covers(s.position.value.id) }

  predicate Books(cfg: Config, s: State) {
    Coupled(cfg, s) && TrackerAgrees(s) && Escalates(cfg, s) && Conserved(s) && Finalized(s) && Covered(s)
  }

  lemma ClosingsAppend(marks: seq<Mark>, m: Mark)
    ensures Closings(marks + [m]) == Closings(marks) + if m.CycleClosed? then 1 else 0
  {
    assert (marks + [m])[..|marks|] == marks;
  }

  lemma ObserveKeepsBooks(cfg: Config, s: State, io: Io)
    requires Books(cfg, s)
    ensures Books(cfg, Observe(cfg, s, io).s)
  {
  }

  /** The position opened by an entry fill is what that order filled: its exit brings the order's signed quantity back
      to zero, so does no other side or size. */
  lemma FilledEntryIsClosedByItsExit(cfg: Config, s: State, o: ActiveOrder, x: ExOrder, price: real, now: int,
                                     side: OrderSide, size: real)
    requires x.filled > 0.0 && size > 0.0
    ensures var p := OnEntryFilled(cfg, s, o, x, price, now).position;
            && p.Some? && p.value.id == Fresh(s.nextId) && p.value.entryPrice == price
            && (SignedQty(x.side, x.filled) + SignedQty(side, size) == 0.0 <==>
                side == ExpectedExitSide(p.value.side) && size == p.value.size)
  {
  }

  lemma OnFilledKeepsBooks(cfg: Config, s: State, o: ActiveOrder, x: ExOrder, price: real, flags: Flags, io: Io)
    requires Books(cfg, s) && s.order == Some(o)
    ensures Books(cfg, OnFilled(cfg, s, o, x, price, flags, io).s)
  {
    ClosingsAppend(s.history.marks, CycleClosed(io.now));
  }

  lemma OnDeadKeepsBooks(cfg: Config, s: State, o: ActiveOrder, flags: Flags)
    requires Books(cfg, s) && s.order == Some(o)
    ensures Books(cfg, OnDead(s, o, flags).s)
  {
  }

  lemma CloseBySyncKeepsBooks(cfg: Config, s: State, price: real, io: Io)
    requires Books(cfg, s) && s.order.None? && s.position.Some?
    ensures Books(cfg, CloseBySync(cfg, s, price, io))
  {
    ClosingsAppend(s.history.marks, CycleClosed(io.now));
  }

  lemma ReplaceKeepsBooks(cfg: Config, s: State, o: ActiveOrder, cid: Cid, price: real, now: int)
    requires Books(cfg, s) && s.order == Some(o)
    ensures Books(cfg, Replace(s, o, cid, price, now))
  {
  }

  lemma DropKeepsBooks(cfg: Config, s: State, o: ActiveOrder)
    requires Books(cfg, s) && s.order == Some(o)
    ensures Books(cfg, DropOrder(s, o))
  {
  }

  /** The exchange, the id counter, the stop control and the loop count are not in the books. */
  lemma BooksFrame(cfg: Config, s: State, s': State)
    requires Books(cfg, s) && s' == s.(ex := s'.ex, nextId := s'.nextId, control := s'.control, loops := s'.loops)
    ensures Books(cfg, s')
  {
  }

  lemma RepriceKeepsBooks(cfg: Config, s: State, o: ActiveOrder, last: real, flags: Flags, io: Io)
    requires cfg.grid > 0.0 && Books(cfg, s) && s.order == Some(o)
    ensures Books(cfg, Reprice(cfg, s, o, last, flags, io).s)
  {
    hide CloseBySync, Replace, DropOrder, ResolveMakerPrice, Books;
    var a := s.(ex := Evolve(s.ex, io.work.cancelEnv));
    var b := a.(ex := Cancel(a.ex, o.clientId));
    var c := b.(nextId := s.nextId + 1, ex := Evolve(b.ex, io.reprice.env));
    BooksFrame(cfg, s, a); BooksFrame(cfg, s, b); BooksFrame(cfg, s, c);
    DropKeepsBooks(cfg, c, o);
    if io.reprice.book.Ok? {
      ReplaceKeepsBooks(cfg, c, o, s.nextId,
          ResolveMakerPrice(o.side, io.reprice.book.value, io.reprice.limits, cfg.grid), io.now);
    }
    var d := DropOrder(c, o);
    if d.order.None? && d.position.Some? { CloseBySyncKeepsBooks(cfg, d, last, io); }
    assert d.order.None? && d.position == s.position by { DropShape(c, o); }
  }

  lemma DropShape(s: State, o: ActiveOrder)
    ensures DropOrder(s, o).order.None? && DropOrder(s, o).position == s.position
  {
  }

  lemma GiveUpKeepsBooks(cfg: Config, s: State, o: ActiveOrder)
    requires Books(cfg, s) && s.order == Some(o)
    ensures Books(cfg, GiveUp(s, o))
  {
    hide Closings;
  }

  lemma ExpireKeepsBooks(cfg: Config, s: State, o: ActiveOrder, flags: Flags, io: Io)
    requires Books(cfg, s) && s.order == Some(o)
    ensures Books(cfg, Expire(s, o, flags, io).s)
  {
    hide Evolve, Cancel, GiveUp, Books;
    var a := s.(ex := Evolve(s.ex, io.work.cancelEnv));
    var b := a.(ex := Evolve(Cancel(a.ex, o.clientId), io.work.verifyEnv));
    var c := b.(ex := Cancel(b.ex, o.clientId));
    BooksFrame(cfg, s, a); BooksFrame(cfg, s, b); BooksFrame(cfg, s, c);
    GiveUpKeepsBooks(cfg, b, o);
    GiveUpKeepsBooks(cfg, c, o);
  }

  lemma PollKeepsBooks(cfg: Config, s: State, last: real, flags: Flags, io: Io)
    requires cfg.grid > 0.0 && Books(cfg, s)
    ensures Books(cfg, Poll(cfg, s, last, flags, io).s)
  {
    hide OnFilled, OnDead, Reprice, Expire;
    if s.order.Some? {
      var o := s.order.value;
      var aged := s.(ex := Evolve(s.ex, io.poll.env));
      if io.poll.reply.PollFound? && o.orderId < |aged.ex.orders| {
        var price := Or(io.poll.reply.avgPx, Or(io.poll.reply.px, Some(last))).value;
        OnFilledKeepsBooks(cfg, aged, o, aged.ex.orders[o.orderId], price, flags, io);
        OnDeadKeepsBooks(cfg, aged, o, flags);
        RepriceKeepsBooks(cfg, aged, o, last, flags, io);
        ExpireKeepsBooks(cfg, aged, o, flags, io);
      }
    }
  }

  lemma SeekKeepsBooks(cfg: Config, s: State, ticker: Ticker, flags: Flags, io: Io)
    requires cfg.grid > 0.0 && Books(cfg, s) && s.order.None? && s.position.None?
    ensures Books(cfg, Seek(cfg, s, ticker, flags, io).s)
  {
    ClosingsAppend(s.history.marks, Decided(io.now));
  }

  lemma TrackExitKeepsBooks(cfg: Config, s: State, cid: Cid, price: real, market: bool, now: int)
    requires Books(cfg, s) && s.order.None? && s.position.Some?
    requires !market && cfg.fallbackEnabled ==> s.position.value.attempts < cfg.maxAttempts
    ensures Books(cfg, TrackExit(s, s.position.value, cid, price, market, now))
  {
  }

  lemma SubmitExitKeepsBooks(cfg: Config, s: State, market: bool, last: real, flags: Flags, io: Io)
    requires cfg.grid > 0.0 && Books(cfg, s) && s.order.None? && s.position.Some?
    requires !market && cfg.fallbackEnabled ==> s.position.value.attempts < cfg.maxAttempts
    ensures Books(cfg, SubmitExit(cfg, s, market, last, flags, io).s)
  {
    hide CloseBySync, TrackExit, ResolveMakerPrice, Books;
    var a := s.(nextId := s.nextId + 1);
    var b := a.(ex := Evolve(a.ex, io.submit.env));
    BooksFrame(cfg, s, a); BooksFrame(cfg, s, b);
    CloseBySyncKeepsBooks(cfg, b, last, io);
    TrackExitKeepsBooks(cfg, b, s.nextId, last, market, io.now);
    if io.submit.book.Ok? {
      var price := ResolveMakerPrice(ExpectedExitSide(s.position.value.side), io.submit.book.value, io.submit.limits,
          cfg.grid);
      TrackExitKeepsBooks(cfg, b, s.nextId, price, market, io.now);
    }
  }

  lemma LeaveKeepsBooks(cfg: Config, s: State, last: real, flags: Flags, io: Io)
    requires cfg.grid > 0.0 && Books(cfg, s) && s.order.None? && s.position.Some?
    ensures Books(cfg, Leave(cfg, s, last, flags, io).s)
  {
    hide SubmitExit;
    var reason := CheckExitReason(s.position.value, last, io.now);
    if reason.Some? {
      var lc := s.store.lifecycle;
      var s' := if lc.None? then s else WithLifecycle(s, Some(lc.value.OnExitTrigger(reason.value)));
      SubmitExitKeepsBooks(cfg, s', ShouldUseMarketExit(cfg, s.position.value, io.now), last, flags, io);
    }
  }

  lemma IterationKeepsBooks(cfg: Config, s: State, io: Io)
    requires cfg.grid > 0.0 && Books(cfg, s)
    ensures Books(cfg, Iterate(cfg, s, io).s)
  {
    hide Observe, Poll, Seek, Leave;
    var s' := s.(control := Obey(s.control, io.requests), loops := s.loops + 1);
    if io.ticker.Ok? {
      var ticker := io.ticker.value;
      ObserveKeepsBooks(cfg, s', io);
      var seen := Observe(cfg, s', io);
      PollKeepsBooks(cfg, seen.s, ticker.last, seen.flags, io);
      var polled := Poll(cfg, seen.s, ticker.last, seen.flags, io);
      if polled.s.order.None? {
        if polled.s.position.None? { SeekKeepsBooks(cfg, polled.s, ticker, polled.flags, io); }
        else { LeaveKeepsBooks(cfg, polled.s, ticker.last, polled.flags, io); }
      }
    }
  }

  /** Over whole runs, through fills, cancels, rejects, syncs and exceptions: coupling, tracker agreement, the
      escalation bound, conservation of positions, and the journal's coverage of the held position. */
  lemma {:induction false} BooksHoldOverRuns(cfg: Config, s: State, ios: seq<Io>)
    requires cfg.grid > 0.0 && Books(cfg, s)
    ensures Books(cfg, Run(cfg, s, ios).s)
    decreases |ios|
  {
    if ios != [] {
      IterationKeepsBooks(cfg, s, ios[0]);
      BooksHoldOverRuns(cfg, Iterate(cfg, s, ios[0]).s, ios[1..]);
    }
  }
}
