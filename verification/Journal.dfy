/** persistence/postgres_journal.py: a bounded queue, a worker that batches commits, and everything that can fail
    between them. One action is one atomic step of a producer or of the worker thread, so a sequence of
    actions is an interleaving. */
module Journal {
  import opened Common

  datatype Event = StartRun | FinishRun | Write(n: nat)

  datatype Item = Op(event: Event) | Sentinel

  /** `WorkerTake` gets one item: whether the dispatch, the commit it may trigger, and the rollback after a failure
      succeed. `WorkerIdle` is a timed-out get. `ConnectFails` is the worker ending before its first get. */
  datatype Action =
    | Enqueue(item: Item)
    | WorkerIdle(commitOk: bool)
    | WorkerTake(dispatchOk: bool, commitOk: bool, rollbackOk: bool)
    | ConnectFails

  const BATCH: nat := 25

  /** `open` is the uncommitted batch on the connection, `taken` what the worker has got from the queue so far, `lost`
      counts events rolled back or never written. */
  datatype State = State(
    capacity: int, queue: seq<Item>, dropped: nat, alive: bool, connected: bool, pending: nat, runId: Option<nat>,
    open: seq<Event>, committed: seq<Event>, taken: seq<Item>, attempts: nat, lost: nat)
  {
    /** Everything the queue let in, in order. */
    function Accepted(): seq<Item> { taken + queue }

    predicate Full() { 0 < capacity <= |queue| }
  }

  function Started(capacity: int): State { State(capacity, [], 0, true, false, 0, None, [], [], [], 0, 0) }

  function Commit(s: State): State { s.(committed := s.committed + s.open, open := [], pending := 0) }

  /** The connection forgets the batch; the worker does not reset its count. A rollback that fails too kills it. */
  function Rollback(s: State, ok: bool): State { s.(lost := s.lost + |s.open|, open := [], alive := ok) }

  function Dispatch(s: State, e: Event, a: Action): State
    requires a.WorkerTake?
  {
    if !a.dispatchOk then Rollback(s, a.rollbackOk).(lost := s.lost + |s.open| + 1)
    else
      var s := s.(open := s.open + [e], pending := s.pending + 1,
                  runId := if e.StartRun? then Some(|s.committed| + |s.open|) else s.runId);
      if s.pending < BATCH then s
      else if a.commitOk then Commit(s)
      else Rollback(s, a.rollbackOk)
  }

  function Next(s: State, a: Action): State {
    match a
    case Enqueue(item) =>
      if s.Full() then s.(dropped := s.dropped + 1, attempts := s.attempts + 1)
      else s.(queue := s.queue + [item], attempts := s.attempts + 1)
    case ConnectFails => if s.connected then s else s.(alive := false)
    case _ => WorkerStep(if s.alive then s.(connected := true) else s, a)
  }

  /** What a connected worker does. */
  function WorkerStep(s: State, a: Action): State {
    if !s.alive then s
    else if a.WorkerIdle? then
      if s.queue != [] || s.pending == 0 then s
      else if a.commitOk then Commit(s)
      else Rollback(s, false)
    else if a.WorkerTake? && s.queue != [] then
      var rest := s.(queue := s.queue[1..], taken := s.taken + [s.queue[0]]);
      match s.queue[0]
      case Op(e) => Dispatch(rest, e, a)
      case Sentinel => (if s.pending == 0 || a.commitOk then Commit(rest) else Rollback(rest, false)).(alive := false)
    else s
  }

  function Run(s: State, actions: seq<Action>): State
    decreases |actions|
  {
    if actions == [] then s else Run(Next(s, actions[0]), actions[1..])
  }

  // ---------------------------------------------------------------- order and conservation

  function Events(items: seq<Item>): seq<Event> {
    if items == [] then []
    else
      var last := items[|items| - 1];
      Events(items[..|items| - 1]) + if last.Op? then [last.event] else []
  }

  lemma EventsAppend(items: seq<Item>, item: Item)
    ensures Events(items + [item]) == Events(items) + if item.Op? then [item.event] else []
  {
    assert (items + [item])[..|items|] == items;
  }

  /** `a` is what is left of `b` after leaving some elements out, in the same order. */
  predicate Subsequence(a: seq<Event>, b: seq<Event>)
    decreases |b|
  {
    if a == [] then true
    else if b == [] then false
    else
      || (a[|a| - 1] == b[|b| - 1] && Subsequence(a[..|a| - 1], b[..|b| - 1]))
      || Subsequence(a, b[..|b| - 1])
  }

  lemma SubsequenceAppend(a: seq<Event>, b: seq<Event>, e: Event)
    requires Subsequence(a, b)
    ensures Subsequence(a + [e], b + [e]) && Subsequence(a, b + [e])
  {
    assert (a + [e])[..|a|] == a && (b + [e])[..|b|] == b;
  }

  lemma {:induction false} SubsequenceDrop(a: seq<Event>, n: nat, b: seq<Event>)
    requires Subsequence(a, b) && n <= |a|
    ensures Subsequence(a[..n], b)
    decreases |b|
  {
    if n == |a| {
      assert a[..n] == a;
    } else if b != [] {
      var b' := b[..|b| - 1];
      if Subsequence(a, b') {
        SubsequenceDrop(a, n, b');
      } else {
        assert a[..n] == a[..|a| - 1][..n];
        SubsequenceDrop(a[..|a| - 1], n, b');
      }
    }
  }

  /** Every item a caller tried to enqueue, in the order of the calls. */
  function Attempted(actions: seq<Action>): seq<Item>
    decreases |actions|
  {
    if actions == [] then []
    else (if actions[0].Enqueue? then [actions[0].item] else []) + Attempted(actions[1..])
  }

  /** The attempted items that met a queue with room, in the order of the calls. */
  function Offered(s: State, actions: seq<Action>): seq<Item>
    decreases |actions|
  {
    if actions == [] then []
    else
      var rest := Offered(Next(s, actions[0]), actions[1..]);
      if actions[0].Enqueue? && !s.Full() then [actions[0].item] + rest else rest
  }

  lemma StepIsFifo(s: State, a: Action)
    ensures var s' := Next(s, a);
            && s'.Accepted() == s.Accepted() + (if a.Enqueue? && !s.Full() then [a.item] else [])
            && s'.attempts == s.attempts + (if a.Enqueue? then 1 else 0)
            && s'.dropped == s.dropped + (if a.Enqueue? && s.Full() then 1 else 0)
  {
    assert s.queue != [] ==> s.taken + s.queue == s.taken + [s.queue[0]] + s.queue[1..];
  }

  lemma {:induction false} QueueIsFifo(s: State, actions: seq<Action>)
    ensures Run(s, actions).Accepted() == s.Accepted() + Offered(s, actions)
    ensures Run(s, actions).attempts == s.attempts + |Attempted(actions)|
    ensures Run(s, actions).dropped == s.dropped + |Attempted(actions)| - |Offered(s, actions)|
    decreases |actions|
  {
    if actions != [] {
      hide Next;
      StepIsFifo(s, actions[0]);
      QueueIsFifo(Next(s, actions[0]), actions[1..]);
    } else {
      assert s.Accepted() + [] == s.Accepted();
    }
  }

  lemma {:induction false} SubsequenceOfLonger(a: seq<Event>, b: seq<Item>, c: seq<Item>)
    requires Subsequence(a, Events(b)) && b <= c
    ensures Subsequence(a, Events(c))
    decreases |c|
  {
    if b == c {
    } else {
      var n := |c| - 1;
      SubsequenceOfLonger(a, b, c[..n]);
      assert c == c[..n] + [c[n]];
      EventsAppend(c[..n], c[n]);
      if c[n].Op? { SubsequenceAppend(a, Events(c[..n]), c[n].event); } else { assert Events(c) == Events(c[..n]); }
    }
  }

  /** The log and the open batch are what is left of the events taken, in order, and nothing is unaccounted for. */
  predicate Logged(s: State) {
    && Subsequence(s.committed + s.open, Events(s.taken))
    && |s.committed| + |s.open| + s.lost == |Events(s.taken)|
  }

  predicate Consistent(s: State) {
    && s.attempts == |s.taken| + |s.queue| + s.dropped
    && (s.capacity > 0 ==> |s.queue| <= s.capacity)
    && Logged(s)
    && (s.alive ==> |Events(s.taken)| == |s.taken|)
    && |s.open| <= s.pending && (s.pending >= BATCH ==> s.open == [])
    && (!s.alive ==> s.open == [])
    && (!s.connected ==> s.taken == [] && s.open == [])
  }

  lemma CommitSplit(s: State)
    ensures Commit(s).committed + Commit(s).open == s.committed + s.open
  {
  }

  lemma RollbackKeeps(s: State, ok: bool, taken: seq<Event>)
    requires Subsequence(s.committed + s.open, taken)
    ensures Subsequence(Rollback(s, ok).committed + Rollback(s, ok).open, taken)
  {
    SubsequenceDrop(s.committed + s.open, |s.committed|, taken);
    assert (s.committed + s.open)[..|s.committed|] == s.committed == s.committed + [];
  }

  /** An event taken and appended to the batch, and an event taken and lost together with the batch. */
  lemma TakingKeepsLogged(s: State, taken: State, e: Event, full: State, lost: State)
    requires Logged(s) && taken.taken == s.taken + [Op(e)] && taken.committed == s.committed
    requires full == taken.(open := s.open + [e], lost := s.lost, pending := full.pending, runId := full.runId)
    requires lost == taken.(open := [], lost := s.lost + |s.open| + 1, alive := lost.alive)
    ensures Logged(full) && Logged(lost)
  {
    hide Subsequence, Events;
    EventsAppend(s.taken, Op(e));
    SubsequenceAppend(s.committed + s.open, Events(s.taken), e);
    assert full.committed + full.open == (s.committed + s.open) + [e];
    SubsequenceDrop(s.committed + s.open, |s.committed|, Events(s.taken) + [e]);
    assert (s.committed + s.open)[..|s.committed|] == s.committed == s.committed + [];
  }

  lemma EndingKeepsLogged(s: State, ok: bool)
    requires Logged(s)
    ensures Logged(Commit(s)) && Logged(Rollback(s, ok))
  {
    hide Subsequence, Events;
    CommitSplit(s);
    RollbackKeeps(s, ok, Events(s.taken));
  }

  lemma DispatchKeepsConsistent(s: State, rest: State, e: Event, a: Action)
    requires Consistent(s) && s.alive && a.WorkerTake?
    requires s.connected
    requires rest == s.(queue := rest.queue, taken := s.taken + [Op(e)]) && |rest.queue| + 1 == |s.queue|
    ensures Consistent(Dispatch(rest, e, a))
  {
    hide Logged, Events;
    EventsAppend(s.taken, Op(e));
    var full := rest.(open := s.open + [e], pending := s.pending + 1,
                      runId := if e.StartRun? then Some(|s.committed| + |s.open|) else s.runId);
    var lost := Rollback(rest, a.rollbackOk).(lost := s.lost + |s.open| + 1);
    TakingKeepsLogged(s, rest, e, full, lost);
    EndingKeepsLogged(full, a.rollbackOk);
  }

  lemma StopKeepsConsistent(s: State, a: Action)
    requires Consistent(s) && s.alive && s.connected && s.queue != [] && s.queue[0].Sentinel? && a.WorkerTake?
    ensures Consistent(WorkerStep(s, a))
  {
    hide Subsequence, Events;
    EventsAppend(s.taken, Sentinel);
    assert Events(s.taken) + [] == Events(s.taken);
    var rest := s.(queue := s.queue[1..], taken := s.taken + [Sentinel]);
    RollbackKeeps(rest, false, Events(rest.taken));
    CommitSplit(rest);
  }

  lemma WorkerKeepsConsistent(s: State, a: Action)
    requires Consistent(s) && (s.alive ==> s.connected)
    ensures Consistent(WorkerStep(s, a))
  {
    hide Subsequence, Events, Dispatch;
    if a.WorkerIdle? {
      RollbackKeeps(s, false, Events(s.taken));
      CommitSplit(s);
    } else if a.WorkerTake? && s.alive && s.queue != [] {
      var rest := s.(queue := s.queue[1..], taken := s.taken + [s.queue[0]]);
      if s.queue[0].Op? { DispatchKeepsConsistent(s, rest, s.queue[0].event, a); } else { StopKeepsConsistent(s, a); }
    }
  }

  lemma StepKeepsConsistent(s: State, a: Action)
    requires Consistent(s)
    ensures Consistent(Next(s, a))
  {
    hide Subsequence, Events, WorkerStep;
    WorkerKeepsConsistent(if s.alive then s.(connected := true) else s, a);
  }

  lemma {:induction false} RunKeepsConsistent(s: State, actions: seq<Action>)
    requires Consistent(s)
    ensures Consistent(Run(s, actions))
    decreases |actions|
  {
    if actions != [] {
      StepKeepsConsistent(s, actions[0]);
      RunKeepsConsistent(Next(s, actions[0]), actions[1..]);
    }
  }

  /** For every interleaving with every pattern of failures: what the worker has taken and what still waits are the
      offered items in the order they were offered, the committed log is a subsequence of their events in that order,
      and every enqueue attempt is accounted for: committed, lost, uncommitted, queued, dropped, or the sentinel that
      stopped the worker. */
  lemma OrderAndConservation(capacity: int, actions: seq<Action>)
    ensures var s := Run(Started(capacity), actions);
            var offered := Offered(Started(capacity), actions);
            && s.taken + s.queue == offered
            && Subsequence(s.committed, Events(offered))
            && |Attempted(actions)| ==
                 |s.committed| + s.lost + |s.open| + |s.queue| + s.dropped + (|s.taken| - |Events(s.taken)|)
            && (s.alive ==> |s.taken| == |Events(s.taken)|)
  {
    hide Subsequence, Run, Offered;
    RunKeepsConsistent(Started(capacity), actions);
    QueueIsFifo(Started(capacity), actions);
    var s := Run(Started(capacity), actions);
    SubsequenceDrop(s.committed + s.open, |s.committed|, Events(s.taken));
    assert (s.committed + s.open)[..|s.committed|] == s.committed;
    SubsequenceOfLonger(s.committed, s.taken, s.Accepted());
  }

  // ---------------------------------------------------------------- loss bound

  /** Some part of this step failed. */
  predicate Fails(s: State, a: Action) {
    match a
    case Enqueue(_) => false
    case WorkerIdle(commitOk) => !commitOk
    case WorkerTake(dispatchOk, commitOk, _) => !dispatchOk || !commitOk
    case ConnectFails => true
  }

  /** At the worker's loop head at most 24 events are uncommitted, however often commits failed before and although the
      count of pending writes is not reset; so one failing step loses at most 25, and a step without failure none.
      What is committed stays committed. */
  lemma OneFailureLosesAtMostABatch(capacity: int, actions: seq<Action>, a: Action)
    ensures var s := Run(Started(capacity), actions);
            var s' := Next(s, a);
            && |s.open| <= s.pending && |s.open| <= BATCH - 1
            && s.lost <= s'.lost <= s.lost + BATCH
            && (!Fails(s, a) ==> s'.lost == s.lost)
            && s.committed <= s'.committed
  {
    RunKeepsConsistent(Started(capacity), actions);
  }

  // ---------------------------------------------------------------- clean stop

  predicate NoFailure(actions: seq<Action>) {
    forall i :: 0 <= i < |actions| ==> !Fails(Started(0), actions[i])
  }

  /** Without failures nothing is left out, and the worker ends exactly by taking the first sentinel. */
  predicate Faithful(s: State) {
    && Consistent(s) && s.committed + s.open == Events(s.taken)
    && (s.alive ==> Sentinel !in s.taken)
    && (!s.alive ==> s.taken != [] && s.taken[|s.taken| - 1].Sentinel? && Sentinel !in s.taken[..|s.taken| - 1])
  }

  lemma StepKeepsFaithful(s: State, a: Action)
    requires Faithful(s) && !Fails(s, a)
    ensures Faithful(Next(s, a))
  {
    hide Subsequence, Events, Consistent;
    StepKeepsConsistent(s, a);
    if s.alive && s.queue != [] && a.WorkerTake? {
      var item := s.queue[0];
      EventsAppend(s.taken, item);
      if item.Op? { assert s.committed + (s.open + [item.event]) == s.committed + s.open + [item.event]; }
    }
  }

  lemma {:induction false} RunKeepsFaithful(s: State, actions: seq<Action>)
    requires Faithful(s) && forall i :: 0 <= i < |actions| ==> !Fails(s, actions[i])
    ensures Faithful(Run(s, actions))
    decreases |actions|
  {
    if actions != [] {
      StepKeepsFaithful(s, actions[0]);
      RunKeepsFaithful(Next(s, actions[0]), actions[1..]);
    }
  }

  /** What was accepted before the first sentinel. */
  function BeforeSentinel(items: seq<Item>): seq<Item>
    decreases |items|
  {
    if items == [] || items[0].Sentinel? then [] else [items[0]] + BeforeSentinel(items[1..])
  }

  lemma {:induction false} BeforeSentinelIs(prefix: seq<Item>, rest: seq<Item>)
    requires Sentinel !in prefix
    ensures BeforeSentinel(prefix + [Sentinel] + rest) == prefix
    decreases |prefix|
  {
    var all := prefix + [Sentinel] + rest;
    if prefix != [] {
      assert all[0] == prefix[0] && all[1..] == prefix[1..] + [Sentinel] + rest;
      BeforeSentinelIs(prefix[1..], rest);
    }
  }

  /** Without failures the worker has stopped exactly when it took a sentinel, and then the log is exactly the events
      offered before that sentinel, in the order they were offered. */
  lemma CleanStopLogsEverything(capacity: int, actions: seq<Action>)
    requires NoFailure(actions)
    ensures var s := Run(Started(capacity), actions);
            && (!s.alive <==> Sentinel in s.taken)
            && (!s.alive ==> s.committed == Events(BeforeSentinel(Offered(Started(capacity), actions))))
  {
    hide Run;
    RunKeepsFaithful(Started(capacity), actions);
    QueueIsFifo(Started(capacity), actions);
    var s := Run(Started(capacity), actions);
    assert s.Accepted() == [] + Offered(Started(capacity), actions) == Offered(Started(capacity), actions);
    if !s.alive { StoppedLog(s); }
  }

  lemma StoppedLog(s: State)
    requires Faithful(s) && !s.alive
    ensures s.committed == Events(BeforeSentinel(s.Accepted()))
  {
    hide Subsequence;
    var prefix := s.taken[..|s.taken| - 1];
    assert s.taken == prefix + [Sentinel];
    EventsAppend(prefix, Sentinel);
    BeforeSentinelIs(prefix, s.queue);
    assert s.Accepted() == prefix + [Sentinel] + s.queue;
    assert s.committed == s.committed + s.open == Events(prefix) + [] == Events(prefix);
  }

  /** Every queued item taken once, with nothing failing. */
  function DrainActions(n: nat): seq<Action> {
    if n == 0 then [] else [WorkerTake(true, true, true)] + DrainActions(n - 1)
  }

  lemma OneTake(s: State)
    requires s.alive && s.queue != [] && s.queue[0].Op? && s.pending == |s.open| < 25
    ensures var s' := Next(s, WorkerTake(true, true, true));
            && s'.alive && s'.queue == s.queue[1..]
            && s'.pending == |s'.open| == (if |s.open| == 24 then 0 else |s.open| + 1)
            && s'.committed == (if |s.open| == 24 then s.committed + s.open + [s.queue[0].event] else s.committed)
  {
  }

  /** A worker with nothing failing that finds `n` events waiting commits in batches of 25: what is then left open is
      the remainder, and everything else it had open or took is in the log. */
  lemma {:induction false} BusyWorkerCommitsInBatches(s: State, n: nat)
    requires s.alive && n <= |s.queue| && s.pending == |s.open| < 25
    requires forall i :: 0 <= i < n ==> s.queue[i].Op?
    ensures var s' := Run(s, DrainActions(n));
            && s'.alive && s'.queue == s.queue[n..] && s'.pending == |s'.open| == (|s.open| + n) % 25
            && |s'.committed| + |s'.open| == |s.committed| + |s.open| + n
            && s.committed <= s'.committed
    decreases n
  {
    hide Next;
    if n > 0 {
      var next := Next(s, WorkerTake(true, true, true));
      OneTake(s);
      assert DrainActions(n)[1..] == DrainActions(n - 1);
      BusyWorkerCommitsInBatches(next, n - 1);
      assert next.queue[n - 1..] == s.queue[n..];
    }
  }

  lemma {:induction false} DrainReachesSentinel(s: State)
    requires Faithful(s) && s.alive && Sentinel in s.queue
    ensures !Run(s, DrainActions(|s.queue|)).alive
    decreases |s.queue|
  {
    hide Faithful;
    var a := WorkerTake(true, true, true);
    var s' := Next(s, a);
    var actions := DrainActions(|s.queue|);
    assert actions[0] == a && actions[1..] == DrainActions(|s.queue| - 1);
    StepKeepsFaithful(s, a);
    if s.queue[0].Sentinel? { DeadStaysDead(s', actions[1..]); } else { DrainReachesSentinel(s'); }
  }

  lemma {:induction false} DeadStaysDead(s: State, actions: seq<Action>)
    requires !s.alive
    ensures !Run(s, actions).alive
    decreases |actions|
  {
    if actions != [] { DeadStaysDead(Next(s, actions[0]), actions[1..]); }
  }

  predicate WorkerOnly(actions: seq<Action>) { forall i :: 0 <= i < |actions| ==> !actions[i].Enqueue? }

  lemma {:induction false} NoSentinelNoStop(s: State, actions: seq<Action>)
    requires s.alive && Sentinel !in s.queue && WorkerOnly(actions) && NoFailure(actions)
    ensures Run(s, actions).alive
    decreases |actions|
  {
    if actions != [] {
      var s' := Next(s, actions[0]);
      assert s'.alive && Sentinel !in s'.queue;
      assert WorkerOnly(actions[1..]) && NoFailure(actions[1..]);
      NoSentinelNoStop(s', actions[1..]);
    }
  }

  /** `stop()` on a live worker with no sentinel queued: draining the queue stops the worker exactly when the queue had
      room for the sentinel. On a full queue the sentinel is dropped and no failure-free work ever stops it. */
  lemma StopWorksIffQueueHasRoom(s: State, actions: seq<Action>)
    requires Faithful(s) && s.alive && Sentinel !in s.queue && WorkerOnly(actions) && NoFailure(actions)
    ensures var s' := Next(s, Enqueue(Sentinel));
            && (!s.Full() ==> !Run(s', DrainActions(|s'.queue|)).alive)
            && (s.Full() ==> s'.dropped == s.dropped + 1 && Run(s', actions).alive)
  {
    StepKeepsFaithful(s, Enqueue(Sentinel));
    var s' := Next(s, Enqueue(Sentinel));
    if s.Full() { NoSentinelNoStop(s', actions); }
    else {
      assert s'.queue[|s.queue|] == Sentinel;
      DrainReachesSentinel(s');
    }
  }

  /** The failing case is reachable: a queue of one with one write waiting drops the sentinel, and draining it leaves
      the worker running. */
  lemma FullQueueDropsTheSentinel()
    ensures var s := Run(Started(1), [Enqueue(Op(Write(1)))]);
            && Faithful(s) && s.alive && Sentinel !in s.queue && s.Full()
            && Run(Next(s, Enqueue(Sentinel)), DrainActions(1)).alive
  {
    var actions := [Enqueue(Op(Write(1)))];
    assert actions[1..] == [];
    var s := Next(Started(1), actions[0]);
    assert Run(Started(1), actions) == s && s.queue == [Op(Write(1))];
    RunKeepsFaithful(Started(1), actions);
    assert DrainActions(1) == [WorkerTake(true, true, true)] + DrainActions(0);
    NoSentinelNoStop(Next(s, Enqueue(Sentinel)), DrainActions(1));
  }

  // ---------------------------------------------------------------- the run id and its row

  /** This step commits the open batch. */
  predicate Commits(s: State, a: Action) {
    s.alive && match a
               case Enqueue(_) => false
               case ConnectFails => false
               case WorkerIdle(commitOk) => s.queue == [] && s.pending > 0 && commitOk
               case WorkerTake(dispatchOk, commitOk, _) =>
                 s.queue != [] && commitOk && (s.queue[0].Sentinel? || (dispatchOk && s.pending + 1 >= BATCH))
  }

  /** This step rolls the open batch back, or loses the connection that holds it. */
  predicate Aborts(s: State, a: Action) {
    s.alive && match a
               case Enqueue(_) => false
               case ConnectFails => false
               case WorkerIdle(commitOk) => s.queue == [] && s.pending > 0 && !commitOk
               case WorkerTake(dispatchOk, commitOk, _) =>
                 s.queue != [] && if s.queue[0].Op? then !dispatchOk ||
                     (s.pending + 1 >= BATCH && !commitOk) else s.pending > 0 && !commitOk
  }

  predicate AbortsBeforeCommit(s: State, actions: seq<Action>)
    decreases |actions|
  {
    && actions != [] && !Commits(s, actions[0])
    && (Aborts(s, actions[0]) || AbortsBeforeCommit(Next(s, actions[0]), actions[1..]))
  }

  predicate StartsNoRun(actions: seq<Action>) {
    forall i :: 0 <= i < |actions| ==> actions[i] != Enqueue(Op(StartRun))
  }

  predicate Recorded(s: State) { StartRun in s.committed || StartRun in s.open }

  /** No second `start_run` is waiting, and the connection still knows the run. */
  predicate RunOpen(s: State) {
    && s.alive && s.connected && s.pending > 0 && s.runId.Some?
    && StartRun in s.open && StartRun !in s.committed && Op(StartRun) !in s.queue
  }

  lemma RunOpenStep(s: State, a: Action)
    requires RunOpen(s) && a != Enqueue(Op(StartRun))
    ensures var s' := Next(s, a);
            && s'.runId == s.runId && Op(StartRun) !in s'.queue
            && (Commits(s, a) ==> StartRun in s'.committed)
            && (Aborts(s, a) && !Commits(s, a) ==> !Recorded(s'))
            && (!Aborts(s, a) && !Commits(s, a) ==> RunOpen(s'))
  {
    assert s.queue != [] ==> s.queue[0] in s.queue;
  }

  lemma SettledStep(s: State, a: Action)
    requires Op(StartRun) !in s.queue && a != Enqueue(Op(StartRun))
    ensures var s' := Next(s, a);
            && s'.runId == s.runId && Op(StartRun) !in s'.queue && s.committed <= s'.committed
            && (!Recorded(s) ==> !Recorded(s'))
  {
    assert s.queue != [] ==> s.queue[0] in s.queue;
  }

  /** Once committed the row stays, and once gone it does not come back. */
  lemma {:induction false} SettledRun(s: State, actions: seq<Action>)
    requires Op(StartRun) !in s.queue && StartsNoRun(actions)
    ensures var s' := Run(s, actions);
            && s'.runId == s.runId
            && (StartRun in s.committed ==> StartRun in s'.committed)
            && (!Recorded(s) ==> !Recorded(s'))
    decreases |actions|
  {
    if actions != [] {
      hide Next;
      SettledStep(s, actions[0]);
      SettledRun(Next(s, actions[0]), actions[1..]);
    }
  }

  /** While the row of a published run id is uncommitted, any continuation keeps it, committed or open, exactly when
      no step rolls a batch back before the first successful commit; the id stays published either way. */
  lemma {:induction false} RunRowSurvivesIff(s: State, actions: seq<Action>)
    requires RunOpen(s) && StartsNoRun(actions)
    ensures var s' := Run(s, actions);
            s'.runId == s.runId && (Recorded(s') <==> !AbortsBeforeCommit(s, actions))
    decreases |actions|
  {
    if actions != [] {
      hide Next, Commits, Aborts, RunOpen, Recorded;
      var s1 := Next(s, actions[0]);
      RunOpenStep(s, actions[0]);
      if Commits(s, actions[0]) {
        SettledRun(s1, actions[1..]);
        CommittedIsRecorded(Run(s1, actions[1..]));
      } else if Aborts(s, actions[0]) {
        SettledRun(s1, actions[1..]);
      } else {
        RunRowSurvivesIff(s1, actions[1..]);
      }
    } else {
      assert Recorded(s);
    }
  }

  lemma CommittedIsRecorded(s: State)
    requires StartRun in s.committed
    ensures Recorded(s)
  {
  }

  /** The protocol of `start_run` from the beginning: the caller enqueues it and waits, the worker dispatches it, and
      only then does anything else happen. The run id names a journalled row at the end exactly under that condition. */
  lemma RunIdNamesARowIff(capacity: int, commitOk: bool, rollbackOk: bool, actions: seq<Action>)
    requires StartsNoRun(actions)
    ensures var s := Next(Next(Started(capacity), Enqueue(Op(StartRun))), WorkerTake(true, commitOk, rollbackOk));
            var s' := Run(s, actions);
            && s.runId.Some? && s'.runId == s.runId
            && (Recorded(s') <==> !AbortsBeforeCommit(s, actions))
  {
    hide Run, AbortsBeforeCommit;
    var s0 := Next(Started(capacity), Enqueue(Op(StartRun)));
    assert s0.queue == [Op(StartRun)];
    var s := Next(s0, WorkerTake(true, commitOk, rollbackOk));
    assert s.queue == [] && s.open == [StartRun];
    RunRowSurvivesIff(s, actions);
  }

  /** The condition does fail: one failing write in the batch of the run row rolls the row back while its id stays
      published. */
  lemma RunIdCanOutliveItsRow()
    ensures var s := Run(Started(0), [Enqueue(Op(StartRun)), WorkerTake(true, true, true), Enqueue(Op(Write(1))),
              WorkerTake(false, true, true)]);
            s.runId.Some? && s.alive && !Recorded(s) && s.lost == 2
  {
    var ok, bad := WorkerTake(true, true, true), WorkerTake(false, true, true);
    var start, write := Enqueue(Op(StartRun)), Enqueue(Op(Write(1)));
    var s1 := Next(Next(Started(0), start), ok);
    assert s1.queue == [] && s1.open == [StartRun];
    var s2 := Next(s1, write);
    assert s2.queue == [Op(Write(1))];
    var s3 := Next(s2, bad);
    assert s3.open == [] && s3.lost == 2;
    assert [start, ok, write, bad][1..] == [ok, write, bad];
    assert [ok, write, bad][1..] == [write, bad] && [write, bad][1..] == [bad];
    assert Run(s2, [bad]) == s3 && Run(s1, [write, bad]) == Run(s2, [bad]);
    assert Run(Next(Started(0), start), [ok, write, bad]) == Run(s1, [write, bad]);
  }

  // ---------------------------------------------------------------- the object

  /** `PostgresJournal`, its queue, and what its worker's connection holds. */
  class PostgresJournal {
    const capacity: int
    var queue: seq<Item>
    var dropped: nat
    var started: bool
    var runId: Option<nat>
    var alive: bool
    var connected: bool
    var pendingCommits: nat
    var open: seq<Event>
    var committed: seq<Event>
    ghost var taken: seq<Item>
    ghost var attempts: nat
    ghost var lost: nat

    ghost function View(): State
      reads this
    {
      State(capacity, queue, dropped, alive, connected, pendingCommits, runId, open, committed, taken, attempts, lost)
    }

    constructor (capacity: int)
      ensures View() == Started(capacity) && !started
    {
      this.capacity := capacity;
      queue, dropped, started, runId, alive, connected, pendingCommits := [], 0, false, None, true, false, 0;
      open, committed, taken, attempts, lost := [], [], [], 0, 0;
    }

    method Enqueue(item: Item)
      modifies this
      ensures View() == Next(old(View()), Action.Enqueue(item)) && started == old(started)
    {
      attempts := attempts + 1;
      if 0 < capacity <= |queue| {
        dropped := dropped + 1;
      } else {
        queue := queue + [item];
      }
    }

    method CommitBatch()
      modifies this`committed, this`open, this`pendingCommits
      ensures View() == Commit(old(View()))
    {
      committed := committed + open;
      open := [];
      pendingCommits := 0;
    }

    method RollbackBatch(ok: bool)
      modifies this`open, this`lost, this`alive
      ensures View() == Rollback(old(View()), ok)
    {
      lost := lost + |open|;
      open := [];
      alive := ok;
    }

    /** `_dispatch`, the batch commit it may trigger, and the rollback when either raises. */
    method DispatchEvent(e: Event, a: Action)
      requires a.WorkerTake?
      modifies this`open, this`committed, this`pendingCommits, this`runId, this`alive, this`lost
      ensures View() == Dispatch(old(View()), e, a)
    {
      if a.dispatchOk {
        if e.StartRun? { runId := Some(|committed| + |open|); }
        open := open + [e];
        pendingCommits := pendingCommits + 1;
        if pendingCommits >= BATCH {
          if a.commitOk { CommitBatch(); } else { RollbackBatch(a.rollbackOk); }
        }
      } else {
        RollbackBatch(a.rollbackOk);
        lost := lost + 1;
      }
    }

    /** One pass of the worker's `while True`, or the failure to connect before the first one. */
    method WorkerTurn(a: Action)
      requires !a.Enqueue?
      modifies this
      ensures View() == Next(old(View()), a) && started == old(started)
    {
      hide Dispatch;
      if !alive { return; }
      if a.ConnectFails? {
        if !connected { alive := false; }
        return;
      }
      connected := true;
      if a.WorkerIdle? {
        if queue == [] && pendingCommits > 0 {
          if a.commitOk { CommitBatch(); } else { RollbackBatch(false); }
        }
        return;
      }
      if queue == [] { return; }
      var item := queue[0];
      queue := queue[1..];
      taken := taken + [item];
      if item.Sentinel? {
        if pendingCommits > 0 && !a.commitOk { RollbackBatch(false); } else { CommitBatch(); }
        alive := false;
      } else {
        DispatchEvent(item.event, a);
      }
    }

    /** The worker runs while a caller waits. */
    method Work(turns: seq<Action>)
      requires WorkerOnly(turns)
      modifies this
      ensures View() == Run(old(View()), turns) && started == old(started)
    {
      var rest := turns;
      while rest != []
        invariant WorkerOnly(rest) && Run(View(), rest) == Run(old(View()), turns) && started == old(started)
        decreases |rest|
      {
        WorkerTurn(rest[0]);
        rest := rest[1..];
      }
    }

    /** `start_run`: refused when already started; otherwise the run id the worker has set by the end of the wait, or an
        exception when there is none. */
    method StartRun(turns: seq<Action>) returns (r: Reply<nat>)
      requires WorkerOnly(turns)
      modifies this
      ensures old(started) ==> r.Raises? && View() == old(View())
      ensures !old(started) ==> View() == Run(Next(old(View()), Action.Enqueue(Op(Event.StartRun))), turns)
      ensures !old(started) ==> r == if View().runId.Some? then Ok(View().runId.value) else Raises
      ensures started
    {
      if started { return Raises; }
      started := true;
      Enqueue(Op(Event.StartRun));
      Work(turns);
      if runId.None? { return Raises; }
      return Ok(runId.value);
    }

    method FinishRun()
      modifies this
      ensures View() == Next(old(View()), Action.Enqueue(Op(Event.FinishRun))) && started == old(started)
    {
      Enqueue(Op(Event.FinishRun));
    }

    /** `stop`: the sentinel, then whatever the worker does before the join times out. */
    method Stop(turns: seq<Action>)
      requires WorkerOnly(turns)
      modifies this
      ensures View() == Run(Next(old(View()), Action.Enqueue(Sentinel)), turns) && !started
    {
      Enqueue(Sentinel);
      Work(turns);
      started := false;
    }
  }
}
