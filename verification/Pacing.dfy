/** What the strategy's clock and the stop control guarantee over a whole run. */
module Pacing {
  import opened Common
  import opened PositionState
  import opened Exchange
  import opened Store
  import opened RunLoop
  import opened OrderTracking

  /** The times at which `make_decision` was called, in order. */
  function Decisions(marks: seq<Mark>): seq<int> {
    if marks == [] then []
    else Decisions(marks[..|marks| - 1]) + if marks[|marks| - 1].Decided? then [marks[|marks| - 1].ts] else []
  }

  lemma DecisionsAppend(marks: seq<Mark>, m: Mark)
    ensures Decisions(marks + [m]) == Decisions(marks) + if m.Decided? then [m.ts] else []
  {
    assert (marks + [m])[..|marks|] == marks;
  }

  // ---------------------------------------------------------------- what an iteration can add

  predicate SameClock(s: State, s': State) {
    s'.timers == s.timers && s'.history.marks == s.history.marks && s'.control == s.control
  }

  predicate ClosesAt(cfg: Config, s: State, s': State, now: int) {
    && s'.timers == s.timers.(cooldownUntil := Some(now + cfg.cooldownSec))
    && s'.history.marks == s.history.marks + [CycleClosed(now)] && s'.control == s.control
  }

  /** A decision is made only while entries are allowed and the strategy's pacing test passes. */
  predicate DecidesAt(cfg: Config, s: State, s': State, now: int) {
    && s.control.allowNew
    && (s.timers.cooldownUntil.Some? ==> now >= s.timers.cooldownUntil.value)
    && (s.timers.lastDecision.Some? ==> now - s.timers.lastDecision.value >= cfg.stepSec)
    && s'.timers == s.timers.(lastDecision := Some(now))
    && s'.history.marks == s.history.marks + [Decided(now)]
  }

  lemma ObserveClock(cfg: Config, s: State, io: Io)
    ensures SameClock(s, Observe(cfg, s, io).s)
  {
  }

  lemma RepriceClock(cfg: Config, s: State, o: ActiveOrder, last: real, flags: Flags, io: Io)
    requires cfg.grid > 0.0
    ensures var s' := Reprice(cfg, s, o, last, flags, io).s; SameClock(s, s') || ClosesAt(cfg, s, s', io.now)
  {
    hide ResolveMakerPrice, FinalizeReconciledClose, Evolve, Cancel;
  }

  lemma FilledClock(cfg: Config, s: State, o: ActiveOrder, x: ExOrder, price: real, flags: Flags, io: Io)
    ensures var s' := OnFilled(cfg, s, o, x, price, flags, io).s; SameClock(s, s') || ClosesAt(cfg, s, s', io.now)
  {
    hide BuildActivePosition, FinalizeClosedTrade;
  }

  lemma DeadOrLateClock(s: State, o: ActiveOrder, flags: Flags, io: Io)
    ensures SameClock(s, OnDead(s, o, flags).s) && SameClock(s, Expire(s, o, flags, io).s)
  {
    hide Evolve, Cancel;
  }

  lemma ExchangeIsNoClock(cfg: Config, s: State, aged: State, s': State, now: int)
    requires aged == s.(ex := aged.ex)
    ensures SameClock(s, s') == SameClock(aged, s') && ClosesAt(cfg, s, s', now) == ClosesAt(cfg, aged, s', now)
    ensures SameClock(s, aged)
  {
  }

  lemma PollClock(cfg: Config, s: State, last: real, flags: Flags, io: Io)
    requires cfg.grid > 0.0
    ensures var s' := Poll(cfg, s, last, flags, io).s; SameClock(s, s') || ClosesAt(cfg, s, s', io.now)
  {
    hide Evolve, Reprice, Expire, OnFilled, OnDead, SameClock, ClosesAt;
    ExchangeIsNoClock(cfg, s, s, s, io.now);
    if s.order.Some? {
      var aged := s.(ex := Evolve(s.ex, io.poll.env));
      var o := s.order.value;
      RepriceClock(cfg, aged, o, last, flags, io);
      DeadOrLateClock(aged, o, flags, io);
      if io.poll.reply.PollFound? && o.orderId < |aged.ex.orders| {
        var price := Or(io.poll.reply.avgPx, Or(io.poll.reply.px, Some(last))).value;
        FilledClock(cfg, aged, o, aged.ex.orders[o.orderId], price, flags, io);
      }
      ExchangeIsNoClock(cfg, s, aged, Poll(cfg, s, last, flags, io).s, io.now);
    }
  }

  lemma SeekClock(cfg: Config, s: State, ticker: Ticker, flags: Flags, io: Io)
    requires cfg.grid > 0.0
    ensures var s' := Seek(cfg, s, ticker, flags, io).s;
            var obeyed := s.(control := Obey(s.control, io.lateRequests));
            s'.control == obeyed.control && (SameClock(obeyed, s') || DecidesAt(cfg, obeyed, s', io.now))
  {
    hide ResolveMakerPrice, Evolve, Obey;
  }

  lemma LeaveClock(cfg: Config, s: State, last: real, flags: Flags, io: Io)
    requires cfg.grid > 0.0 && s.position.Some?
    ensures var s' := Leave(cfg, s, last, flags, io).s; SameClock(s, s') || ClosesAt(cfg, s, s', io.now)
  {
    hide ResolveMakerPrice, FinalizeReconciledClose, Evolve;
  }

  // ---------------------------------------------------------------- decision pacing

  function Steps(n: int, step: int): int { n * step }

  ghost predicate Spaced(d: seq<int>, step: int) {
    forall i, j :: 0 <= i <= j < |d| ==> d[j] - d[i] >= Steps(j - i, step)
  }

  /** No decision earlier than `cooldown` after a close that precedes it. */
  ghost predicate CooledDown(m: seq<Mark>, cooldown: int) {
    forall i, j :: 0 <= i < j < |m| && m[i].CycleClosed? && m[j].Decided? ==> m[j].ts >= m[i].ts + cooldown
  }

  ghost predicate Paced(cfg: Config, s: State, t: int) {
    var m := s.history.marks;
    var d := Decisions(m);
    && (forall i :: 0 <= i < |m| ==> m[i].ts <= t)
    && Spaced(d, cfg.stepSec) && CooledDown(m, cfg.cooldownSec)
    && s.timers.lastDecision == (if d == [] then None else Some(d[|d| - 1]))
    && (forall i :: 0 <= i < |m| && m[i].CycleClosed? ==>
          s.timers.cooldownUntil.Some? && m[i].ts + cfg.cooldownSec <= s.timers.cooldownUntil.value)
  }

  lemma QuietKeepsPace(cfg: Config, s: State, s': State, t: int, now: int)
    requires Paced(cfg, s, t) && t <= now && s'.timers == s.timers && s'.history.marks == s.history.marks
    ensures Paced(cfg, s', now)
  {
  }

  lemma CloseKeepsPace(cfg: Config, s: State, s': State, t: int, now: int)
    requires Paced(cfg, s, t) && t <= now && ClosesAt(cfg, s, s', now)
    ensures Paced(cfg, s', now)
  {
    DecisionsAppend(s.history.marks, CycleClosed(now));
  }

  lemma DecisionKeepsPace(cfg: Config, s: State, s': State, t: int, now: int)
    requires Paced(cfg, s, t) && t <= now && DecidesAt(cfg, s, s', now)
    ensures Paced(cfg, s', now)
  {
    hide Spaced, Steps;
    DecisionsAppend(s.history.marks, Decided(now));
    OneMoreDecision(Decisions(s.history.marks), cfg.stepSec, now);
  }

  lemma OneMoreDecision(d: seq<int>, step: int, now: int)
    requires Spaced(d, step) && (d != [] ==> now - d[|d| - 1] >= step)
    ensures Spaced(d + [now], step)
  {
    hide Steps;
    var d' := d + [now];
    forall i, j | 0 <= i <= j < |d'| ensures d'[j] - d'[i] >= Steps(j - i, step) {
      if j == |d| && i < j { StepMore(j - 1 - i, step); } else { StepMore(-1, step); }
    }
  }

  lemma StepMore(n: int, step: int)
    ensures Steps(n + 1, step) == Steps(n, step) + step && Steps(0, step) == 0
  {
  }

  lemma IterationKeepsPace(cfg: Config, s: State, t: int, io: Io)
    requires cfg.grid > 0.0 && Paced(cfg, s, t) && t <= io.now
    ensures Paced(cfg, Iterate(cfg, s, io).s, io.now)
  {
    hide Observe, Poll, Seek, Leave, Paced;
    var a := s.(control := Obey(s.control, io.requests), loops := s.loops + 1);
    QuietKeepsPace(cfg, s, a, t, io.now);
    if io.ticker.Ok? {
      var ticker := io.ticker.value;
      var seen := Observe(cfg, a, io);
      ObserveClock(cfg, a, io);
      QuietKeepsPace(cfg, a, seen.s, io.now, io.now);
      var polled := Poll(cfg, seen.s, ticker.last, seen.flags, io);
      PollClock(cfg, seen.s, ticker.last, seen.flags, io);
      if SameClock(seen.s, polled.s) { QuietKeepsPace(cfg, seen.s, polled.s, io.now, io.now); }
      else { CloseKeepsPace(cfg, seen.s, polled.s, io.now, io.now); }
      if polled.s.order.None? {
        if polled.s.position.None? {
          var b := polled.s.(control := Obey(polled.s.control, io.lateRequests));
          QuietKeepsPace(cfg, polled.s, b, io.now, io.now);
          SeekClock(cfg, polled.s, ticker, polled.flags, io);
          var c := Seek(cfg, polled.s, ticker, polled.flags, io).s;
          if SameClock(b, c) { QuietKeepsPace(cfg, b, c, io.now, io.now); } else {
            DecisionKeepsPace(cfg, b, c, io.now, io.now);
          }
        } else {
          LeaveClock(cfg, polled.s, ticker.last, polled.flags, io);
          var c := Leave(cfg, polled.s, ticker.last, polled.flags, io).s;
          if SameClock(polled.s, c) { QuietKeepsPace(cfg, polled.s, c, io.now, io.now); }
          else { CloseKeepsPace(cfg, polled.s, c, io.now, io.now); }
        }
      }
    }
  }

  lemma {:induction false} PaceHoldsOverRuns(cfg: Config, s: State, t: int, ios: seq<Io>) returns (t': int)
    requires cfg.grid > 0.0 && Paced(cfg, s, t) && ClockRuns(t, ios)
    ensures Paced(cfg, Run(cfg, s, ios).s, t')
    decreases |ios|
  {
    hide Iterate, Paced;
    t' := t;
    if ios != [] {
      IterationKeepsPace(cfg, s, t, ios[0]);
      t' := ios[0].now;
      if !Iterate(cfg, s, ios[0]).flow.Stopped? {
        t' := PaceHoldsOverRuns(cfg, Iterate(cfg, s, ios[0]).s, ios[0].now, ios[1..]);
      }
    }
  }

  lemma {:induction false} StepsGrow(a: int, b: int, step: int)
    requires a <= b && step >= 0
    ensures Steps(a, step) <= Steps(b, step)
    decreases b - a
  {
    if a < b {
      StepsGrow(a, b - 1, step);
      StepMore(b - 1, step);
    }
  }

  lemma StepsInWindow(k: int, step: int, window: int)
    requires step > 0 && Steps(k, step) <= window
    ensures k <= window / step
  {
    var q := window / step;
    assert window < Steps(q + 1, step) by { assert window == step * q + window % step; }
    hide Steps;
    if k > q { StepsGrow(q + 1, k, step); }
  }

  /** Decision pacing over any run that starts before its first decision: k decisions span at least (k - 1) steps, and
      none falls within the cooldown after a close, whichever of the three close paths made it. */
  lemma {:induction false} DecisionsArePaced(cfg: Config, s: State, t: int, ios: seq<Io>)
    requires cfg.grid > 0.0 && ClockRuns(t, ios) && s.timers == Timers(None, None) && s.history.marks == []
    ensures var marks := Run(cfg, s, ios).s.history.marks;
            Spaced(Decisions(marks), cfg.stepSec) && CooledDown(marks, cfg.cooldownSec)
  {
    hide Run;
    var _ := PaceHoldsOverRuns(cfg, s, t, ios);
  }

  /** So a window of W seconds holds at most W / step + 1 decisions. */
  lemma {:induction false} DecisionsPerWindow(cfg: Config, s: State, t: int, ios: seq<Io>, i: nat, j: nat, window: int)
    requires cfg.grid > 0.0 && ClockRuns(t, ios) && s.timers == Timers(None, None) && s.history.marks == []
    requires cfg.stepSec > 0
    ensures var d := Decisions(Run(cfg, s, ios).s.history.marks);
            i <= j < |d| && d[j] - d[i] <= window ==> j - i + 1 <= window / cfg.stepSec + 1
  {
    hide Run;
    DecisionsArePaced(cfg, s, t, ios);
    var d := Decisions(Run(cfg, s, ios).s.history.marks);
    if i <= j < |d| && d[j] - d[i] <= window { StepsInWindow(j - i, cfg.stepSec, window); }
  }

  // ---------------------------------------------------------------- drain

  predicate NoNewDecision(s: State, s': State) { Decisions(s'.history.marks) == Decisions(s.history.marks) }

  lemma QuietOrCloseDecidesNothing(cfg: Config, s: State, s': State, now: int)
    requires SameClock(s, s') || ClosesAt(cfg, s, s', now)
    ensures NoNewDecision(s, s') && s'.control == s.control
  {
    DecisionsAppend(s.history.marks, CycleClosed(now));
  }

  lemma IterationObeysDrain(cfg: Config, s: State, io: Io)
    requires cfg.grid > 0.0 && !s.control.allowNew
    ensures var s' := Iterate(cfg, s, io).s; !s'.control.allowNew && NoNewDecision(s, s')
  {
    hide Observe, Poll, Seek, Leave, SameClock, ClosesAt;
    var a := s.(control := Obey(s.control, io.requests), loops := s.loops + 1);
    if io.ticker.Ok? {
      var ticker := io.ticker.value;
      var seen := Observe(cfg, a, io);
      ObserveClock(cfg, a, io);
      QuietOrCloseDecidesNothing(cfg, a, seen.s, io.now);
      var polled := Poll(cfg, seen.s, ticker.last, seen.flags, io);
      PollClock(cfg, seen.s, ticker.last, seen.flags, io);
      QuietOrCloseDecidesNothing(cfg, seen.s, polled.s, io.now);
      if polled.s.order.None? {
        if polled.s.position.None? {
          var b := polled.s.(control := Obey(polled.s.control, io.lateRequests));
          SeekClock(cfg, polled.s, ticker, polled.flags, io);
          QuietOrCloseDecidesNothing(cfg, b, Seek(cfg, polled.s, ticker, polled.flags, io).s, io.now);
        } else {
          LeaveClock(cfg, polled.s, ticker.last, polled.flags, io);
          QuietOrCloseDecidesNothing(cfg, polled.s, Leave(cfg, polled.s, ticker.last, polled.flags, io).s, io.now);
        }
      }
    }
  }

  /** After a drain or force request no continuation of the run, however long, makes another decision. */
  lemma {:induction false} NoDecisionAfterStopRequest(cfg: Config, s: State, ios: seq<Io>)
    requires cfg.grid > 0.0 && !s.control.allowNew
    ensures Decisions(Run(cfg, s, ios).s.history.marks) == Decisions(s.history.marks)
    decreases |ios|
  {
    if ios != [] {
      IterationObeysDrain(cfg, s, ios[0]);
      NoDecisionAfterStopRequest(cfg, Iterate(cfg, s, ios[0]).s, ios[1..]);
    }
  }

  predicate Drained(s: State) { !s.control.allowNew && s.order.None? && s.position.None? }

  /** A stop that is neither a limit nor a force is the drain: entries forbidden, no local order, no local position. */
  lemma DrainStopIsFlat(cfg: Config, s: State, io: Io)
    requires cfg.grid > 0.0 && !LimitReached(cfg, s.(loops := s.loops + 1), io.now)
    requires Iterate(cfg, s, io).flow.Stopped? && !Obey(s.control, io.requests).mode.Force?
    ensures Drained(Iterate(cfg, s, io).s)
  {
    hide Observe, Poll, Leave;
    var a := s.(control := Obey(s.control, io.requests), loops := s.loops + 1);
    if io.ticker.Ok? {
      var ticker := io.ticker.value;
      var seen := Observe(cfg, a, io);
      var polled := Poll(cfg, seen.s, ticker.last, seen.flags, io);
      ObserveNeverStops(cfg, a, io);
      PollNeverStops(cfg, seen.s, ticker.last, seen.flags, io);
      if polled.s.position.Some? { LeaveNeverStops(cfg, polled.s, ticker.last, polled.flags, io); }
    }
  }

  /** Drain safety: a run without smoke limits that stops and was not forced leaves no local order, no local position,
      and no working order of the executor on the exchange. */
  lemma {:induction false} DrainedRunIsFlat(cfg: Config, s: State, ios: seq<Io>)
    requires cfg.grid > 0.0 && InStep(s) && cfg.maxLoops.None? && cfg.runSeconds.None?
    requires Run(cfg, s, ios).flow.Stopped? && !Run(cfg, s, ios).s.control.mode.Force?
    ensures var s' := Run(cfg, s, ios).s;
            Drained(s') && forall i: nat :: !s'.ex.WorkingOurs(i)
    decreases |ios|
  {
    hide Iterate;
    if ios != [] {
      IterationKeepsStep(cfg, s, ios[0]);
      if Iterate(cfg, s, ios[0]).flow.Stopped? {
        if Obey(s.control, ios[0].requests).mode.Force? { ForceStays(cfg, s, ios[0]); }
        DrainStopIsFlat(cfg, s, ios[0]);
      } else {
        DrainedRunIsFlat(cfg, Iterate(cfg, s, ios[0]).s, ios[1..]);
      }
    }
  }

  lemma ForceStays(cfg: Config, s: State, io: Io)
    requires cfg.grid > 0.0 && Obey(s.control, io.requests).mode.Force?
    ensures Iterate(cfg, s, io).s.control.mode.Force?
  {
  }

  lemma ObserveNeverStops(cfg: Config, s: State, io: Io)
    ensures !Observe(cfg, s, io).flow.Stopped?
  {
  }

  lemma PollNeverStops(cfg: Config, s: State, last: real, flags: Flags, io: Io)
    requires cfg.grid > 0.0
    ensures !Poll(cfg, s, last, flags, io).flow.Stopped?
  {
  }

  lemma LeaveNeverStops(cfg: Config, s: State, last: real, flags: Flags, io: Io)
    requires cfg.grid > 0.0 && s.position.Some?
    ensures !Leave(cfg, s, last, flags, io).flow.Stopped?
  {
  }
}
