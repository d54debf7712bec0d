/** app/strategy_manager.py: the map of asyncio tasks, and what each command does to it while tasks may end at any
    moment the manager waits. */
module StrategyManager {
  import opened Common
  import RunLoop
  import Q = CommandQueue

  /** An asyncio task running one strategy's loop, with the control object the loop reads. */
  datatype Task = Task(name: string, control: RunLoop.Control, finished: bool)

  /** `tasks` are all tasks ever created, `runtimes` the manager's map from name to task. */
  datatype State = State(known: set<string>, tasks: seq<Task>, runtimes: map<string, nat>)

  datatype Command = Command(name: string, kind: string, mode: Option<string>)

  /** Tasks that end while the manager waits. */
  function FinishTasks(s: State, ids: set<nat>): State {
    s.(tasks := seq(|s.tasks|,
        i requires 0 <= i < |s.tasks| => if i in ids then s.tasks[i].(finished := true) else s.tasks[i]))
  }

  /** A name already in the map is left alone, also when its task has ended; an unknown name raises. */
  function StartStrategy(s: State, name: string): Option<State> {
    if name in s.runtimes then Some(s)
    else if name !in s.known then None
    else
      Some(s.(tasks := s.tasks + [Task(name, RunLoop.Control(RunLoop.NoStop, true), false)],
              runtimes := s.runtimes[name := |s.tasks|]))
  }

  function Requested(mode: string): RunLoop.Control {
    RunLoop.Control(if mode == "force" then RunLoop.Force else RunLoop.Drain, false)
  }

  /** A strategy is asked to stop, awaited to its end, and forgotten; other strategies may end meanwhile. */
  function DisableStrategy(s: State, name: string, mode: string, meanwhile: set<nat>): State {
    if name !in s.runtimes || s.runtimes[name] >= |s.tasks| then s
    else
      var id := s.runtimes[name];
      var asked := s.(tasks := s.tasks[id := s.tasks[id].(control := Requested(mode))]);
      FinishTasks(asked, meanwhile + {id}).(runtimes := s.runtimes - {name})
  }

  /** The new state and whether the command is reported done; a command that raises keeps what it did before. */
  function Execute(s: State, c: Command, meanwhile: set<nat>): (State, bool) {
    if c.kind == "enable" then
      var started := StartStrategy(s, c.name);
      if started.None? then (s, false) else (started.value, true)
    else if c.kind == "disable" then
      (DisableStrategy(s, c.name, if c.mode.None? || c.mode.value == "" then "drain" else c.mode.value, meanwhile),
          true)
    else if c.kind == "restart" then
      var stopped := DisableStrategy(s, c.name, "force", meanwhile);
      var started := StartStrategy(stopped, c.name);
      if started.None? then (stopped, false) else (started.value, true)
    else (s, false)
  }

  predicate Ended(s: State, i: nat) { i < |s.tasks| && s.tasks[i].finished }

  /** `_sync_finished_tasks`: ended tasks leave the map. */
  function SyncFinished(s: State): State {
    s.(runtimes := map name | name in s.runtimes && !Ended(s, s.runtimes[name]) :: s.runtimes[name])
  }

  datatype Action =
    | TasksEnd(ids: set<nat>)
    | Sync
    | Run(command: Command, meanwhile: set<nat>)
    | Shutdown(timedOut: bool)

  function InMap(s: State): set<nat> {
    set name | name in s.runtimes :: s.runtimes[name]
  }

  /** `_shutdown_all`: drain everything and wait; on a timeout the wait cancels what is left and each is
      force-stopped. */
  function ShutdownAll(s: State, timedOut: bool): State {
    var control := Requested(if timedOut then "force" else "drain");
    var tasks := seq(|s.tasks|, i requires 0 <= i < |s.tasks| =>
      if i in InMap(s) then s.tasks[i].(control := control, finished := true) else s.tasks[i]);
    s.(tasks := tasks, runtimes := map[])
  }

  function Next(s: State, a: Action): State {
    match a
    case TasksEnd(ids) => FinishTasks(s, ids)
    case Sync => SyncFinished(s)
    case Run(c, meanwhile) => Execute(s, c, meanwhile).0
    case Shutdown(timedOut) => ShutdownAll(s, timedOut)
  }

  function RunAll(s: State, actions: seq<Action>): State
    decreases |actions|
  {
    if actions == [] then s else RunAll(Next(s, actions[0]), actions[1..])
  }

  // ---------------------------------------------------------------- at most one unfinished task per name

  predicate Unfinished(s: State, i: nat) { i < |s.tasks| && !s.tasks[i].finished }

  /** The map points at existing tasks of the right name, and every unfinished task is the one in the map. */
  ghost predicate OneTaskPerName(s: State) {
    && (forall name :: name in s.runtimes ==> s.runtimes[name] < |s.tasks| && s.tasks[s.runtimes[name]].name == name)
    && (forall i: nat :: Unfinished(s, i) ==> s.tasks[i].name in s.runtimes && s.runtimes[s.tasks[i].name] == i)
  }

  lemma EndKeepsOne(s: State, ids: set<nat>)
    requires OneTaskPerName(s)
    ensures OneTaskPerName(FinishTasks(s, ids))
  {
    var s' := FinishTasks(s, ids);
    forall i: nat | Unfinished(s', i) ensures s'.tasks[i].name in s'.runtimes && s'.runtimes[s'.tasks[i].name] == i {
      assert Unfinished(s, i);
    }
  }

  lemma StartKeepsOne(s: State, name: string)
    requires OneTaskPerName(s) && StartStrategy(s, name).Some?
    ensures OneTaskPerName(StartStrategy(s, name).value)
  {
    var s' := StartStrategy(s, name).value;
    forall i: nat | Unfinished(s', i) ensures s'.tasks[i].name in s'.runtimes && s'.runtimes[s'.tasks[i].name] == i {
      if i < |s.tasks| { assert Unfinished(s, i); }
    }
  }

  lemma DisableKeepsOne(s: State, name: string, mode: string, meanwhile: set<nat>)
    requires OneTaskPerName(s)
    ensures var s' := DisableStrategy(s, name, mode, meanwhile);
            && OneTaskPerName(s') && s'.runtimes == s.runtimes - {name}
            && (forall i: nat :: Unfinished(s', i) ==> s'.tasks[i].name != name)
            && (forall i: nat :: Unfinished(s, i) && s.tasks[i].name != name && i !in meanwhile ==>
                Unfinished(s', i) && s'.tasks[i] == s.tasks[i])
  {
    var s' := DisableStrategy(s, name, mode, meanwhile);
    forall i: nat | Unfinished(s', i)
      ensures s'.tasks[i].name in s'.runtimes && s'.runtimes[s'.tasks[i].name] == i && s'.tasks[i].name != name
    {
      assert Unfinished(s, i);
    }
  }

  lemma SyncKeepsOne(s: State)
    requires OneTaskPerName(s)
    ensures OneTaskPerName(SyncFinished(s))
  {
    var s' := SyncFinished(s);
    forall i: nat | Unfinished(s', i) ensures s'.tasks[i].name in s'.runtimes && s'.runtimes[s'.tasks[i].name] == i {
      assert Unfinished(s, i);
    }
  }

  /** After a shutdown no task is unfinished, drained or not. */
  lemma ShutdownEndsEverything(s: State, timedOut: bool)
    requires OneTaskPerName(s)
    ensures var s' := ShutdownAll(s, timedOut);
            && s'.runtimes == map[]
            && (forall i: nat :: !Unfinished(s', i))
            && (forall i: nat :: Unfinished(s, i) ==>
                  s'.tasks[i].control == RunLoop.Control(if timedOut then RunLoop.Force else RunLoop.Drain, false))
            && (forall i: nat :: i < |s.tasks| && i !in InMap(s) ==> s'.tasks[i] == s.tasks[i])
  {
    var s' := ShutdownAll(s, timedOut);
    assert forall i: nat :: Unfinished(s, i) ==> s.runtimes[s.tasks[i].name] == i && i in InMap(s);
  }

  lemma StepKeepsOne(s: State, a: Action)
    requires OneTaskPerName(s)
    ensures OneTaskPerName(Next(s, a))
  {
    hide OneTaskPerName, DisableStrategy, StartStrategy, FinishTasks, SyncFinished;
    match a
    case TasksEnd(ids) => EndKeepsOne(s, ids);
    case Sync => SyncKeepsOne(s);
    case Run(c, meanwhile) =>
      if StartStrategy(s, c.name).Some? { StartKeepsOne(s, c.name); }
      DisableKeepsOne(s, c.name, if c.mode.None? || c.mode.value == "" then "drain" else c.mode.value, meanwhile);
      DisableKeepsOne(s, c.name, "force", meanwhile);
      var stopped := DisableStrategy(s, c.name, "force", meanwhile);
      if StartStrategy(stopped, c.name).Some? { StartKeepsOne(stopped, c.name); }
    case Shutdown(timedOut) =>
      ShutdownEndsEverything(s, timedOut);
      NothingRunning(ShutdownAll(s, timedOut));
  }

  lemma NothingRunning(s: State)
    requires s.runtimes == map[] && forall i: nat :: !Unfinished(s, i)
    ensures OneTaskPerName(s)
  {
  }

  /** Any sequence of commands, syncs and task endings leaves at most one unfinished task per strategy, always the one
      the manager's map points at. */
  lemma {:induction false} AtMostOneTaskPerStrategy(s: State, actions: seq<Action>)
    requires OneTaskPerName(s)
    ensures var s' := RunAll(s, actions);
            && OneTaskPerName(s')
            && forall i: nat, j: nat ::
                 Unfinished(s', i) && Unfinished(s', j) && s'.tasks[i].name == s'.tasks[j].name ==> i == j
    decreases |actions|
  {
    if actions != [] {
      StepKeepsOne(s, actions[0]);
      AtMostOneTaskPerStrategy(Next(s, actions[0]), actions[1..]);
    }
  }

  // ---------------------------------------------------------------- what a command achieves

  ghost predicate IsRunning(s: State, name: string) { exists i: nat :: Unfinished(s, i) && s.tasks[i].name == name }

  /** "done" after enable does not mean running: an ended task that has not been swept yet still blocks the start. After
      enable the strategy runs exactly when it was not in the map but is known, or its task in the map is unfinished. */
  lemma EnableRunsIff(s: State, name: string, meanwhile: set<nat>)
    requires OneTaskPerName(s)
    ensures IsRunning(Execute(s, Command(name, "enable", None), meanwhile).0, name) <==>
              if name in s.runtimes then Unfinished(s, s.runtimes[name]) else name in s.known
  {
    var s' := Execute(s, Command(name, "enable", None), meanwhile).0;
    if StartStrategy(s, name).Some? { StartKeepsOne(s, name); }
    if name in s'.runtimes {
      var i := s'.runtimes[name];
      assert Unfinished(s', i) ==> IsRunning(s', name);
    }
  }

  /** The failing case is reachable: a task that ended and was not swept keeps a second enable from starting one, and
      the command is reported done. */
  lemma EnableCanReportDoneWithoutRunning(known: set<string>, name: string)
    requires name in known
    ensures var enable := Command(name, "enable", None);
            var s := RunAll(State(known, [], map[]), [Run(enable, {}), TasksEnd({0})]);
            && OneTaskPerName(s) && Execute(s, enable, {}).1 && !IsRunning(Execute(s, enable, {}).0, name)
  {
    var enable := Command(name, "enable", None);
    var s0 := State(known, [], map[]);
    var actions := [Run(enable, {}), TasksEnd({0})];
    assert actions[1..] == [TasksEnd({0})] && actions[1..][1..] == [];
    var s1 := Next(s0, actions[0]);
    assert RunAll(s0, actions) == RunAll(s1, actions[1..]) == Next(s1, TasksEnd({0}));
    AtMostOneTaskPerStrategy(s0, actions);
    EnableRunsIff(RunAll(s0, actions), name, {});
  }

  /** A task that the enable command starts is allowed to enter and asked for nothing. */
  lemma EnableStartsAFreeTask(s: State, name: string, meanwhile: set<nat>)
    requires OneTaskPerName(s)
    ensures var (s', done) := Execute(s, Command(name, "enable", None), meanwhile);
            && (done <==> name in s.runtimes || name in s.known)
            && (s' == s || s'.tasks == s.tasks + [Task(name, RunLoop.Control(RunLoop.NoStop, true), false)])
            && (s' != s <==> name !in s.runtimes && name in s.known)
  {
    assert name in s.known && name !in s.runtimes ==>
      StartStrategy(s, name).value.tasks[|s.tasks|] == Task(name, RunLoop.Control(RunLoop.NoStop, true), false);
  }

  /** A disable command is reported done, and done: the strategy's task was told to stop in the mode asked for and not
      to enter, it has ended, and the name is out of the map. Tasks of other names that did not end meanwhile are as
      they were. Any mode but "force" drains. */
  lemma DisableCommandStops(s: State, name: string, mode: Option<string>, meanwhile: set<nat>)
    requires OneTaskPerName(s)
    ensures var (s', done) := Execute(s, Command(name, "disable", mode), meanwhile);
            && done && s'.runtimes == s.runtimes - {name} && !IsRunning(s', name)
            && |s'.tasks| == |s.tasks|
            && (name in s.runtimes ==>
                  var task := s'.tasks[s.runtimes[name]];
                  && task.finished && !task.control.allowNew
                  && task.control.mode == if mode == Some("force") then RunLoop.Force else RunLoop.Drain)
            && (forall i: nat :: i < |s.tasks| && s.tasks[i].name != name && i !in meanwhile ==>
                  s'.tasks[i] == s.tasks[i])
  {
    DisableKeepsOne(s, name, if mode.None? || mode.value == "" then "drain" else mode.value, meanwhile);
  }

  /** An unknown kind of command is reported failed and does nothing. */
  lemma UnknownCommandFails(s: State, c: Command, meanwhile: set<nat>)
    requires c.kind != "enable" && c.kind != "disable" && c.kind != "restart"
    ensures Execute(s, c, meanwhile) == (s, false)
  {
  }

  /** The sweep removes what blocks an enable: right after it, enable leaves every known strategy running, and no task
      that was running was touched. */
  lemma SweepUnblocksEnable(s: State, name: string, meanwhile: set<nat>)
    requires OneTaskPerName(s) && name in s.known
    ensures var swept := SyncFinished(s);
            && (forall n :: n in swept.runtimes <==> n in s.runtimes && IsRunning(s, n))
            && swept.tasks == s.tasks
            && IsRunning(Execute(swept, Command(name, "enable", None), meanwhile).0, name)
  {
    var swept := SyncFinished(s);
    SyncKeepsOne(s);
    forall n ensures n in swept.runtimes <==> n in s.runtimes && IsRunning(s, n) {
      if n in s.runtimes {
        var i := s.runtimes[n];
        assert Unfinished(s, i) ==> IsRunning(s, n);
      }
    }
    if name in swept.runtimes { assert Unfinished(swept, swept.runtimes[name]); }
    EnableRunsIff(swept, name, meanwhile);
  }

  /** Restart, by contrast, ends with a new unfinished task for every known name, whatever state its old task was in,
      and the old one is finished; for an unknown name it reports failure. */
  lemma RestartAlwaysRuns(s: State, name: string, meanwhile: set<nat>)
    requires OneTaskPerName(s)
    ensures var (s', done) := Execute(s, Command(name, "restart", None), meanwhile);
            && (done <==> name in s.known)
            && (done ==> |s'.tasks| == |s.tasks| + 1
                         && s'.tasks[|s.tasks|] == Task(name, RunLoop.Control(RunLoop.NoStop, true), false)
                         && (name in s.runtimes ==>
                               s'.tasks[s.runtimes[name]].control == RunLoop.Control(RunLoop.Force, false))
                         && forall i: nat :: i < |s.tasks| && s'.tasks[i].name == name ==> s'.tasks[i].finished)
  {
    DisableKeepsOne(s, name, "force", meanwhile);
    var stopped := DisableStrategy(s, name, "force", meanwhile);
    var s' := Execute(s, Command(name, "restart", None), meanwhile).0;
    assert |stopped.tasks| == |s.tasks| && stopped.known == s.known;
    forall i: nat | name in s.known && i < |s.tasks| ensures Unfinished(stopped, i) == !s'.tasks[i].finished {}
  }

  // ---------------------------------------------------------------- a claimed batch

  function Decode(row: Q.Row): Command { Command(row.name, row.kind, row.mode) }

  /** The claimed commands run and finished in order; `meanwhile(k)` are the tasks that end while the k-th one waits. */
  function RunBatch(s: State, table: seq<Q.Row>, ids: seq<nat>, meanwhile: nat -> set<nat>): (State, seq<Q.Row>)
    requires forall k :: 0 <= k < |ids| ==> ids[k] < |table|
    ensures |RunBatch(s, table, ids, meanwhile).1| == |table|
    decreases |ids|
  {
    if ids == [] then (s, table)
    else
      var n := |ids| - 1;
      var (s', table') := RunBatch(s, table, ids[..n], meanwhile);
      var (s'', ok) := Execute(s', Decode(table'[ids[n]]), meanwhile(n));
      (s'', Q.SetStatus(table', [ids[n]], if ok then Q.Done else Q.Failed))
  }

  /** One more command of the batch. */
  lemma BatchStep(s: State, table: seq<Q.Row>, ids: seq<nat>, meanwhile: nat -> set<nat>, k: nat)
    requires k < |ids| && forall j :: 0 <= j < |ids| ==> ids[j] < |table|
    ensures var (s', table') := RunBatch(s, table, ids[..k], meanwhile);
            var (s'', ok) := Execute(s', Decode(table'[ids[k]]), meanwhile(k));
            var done := Q.SetStatus(table', [ids[k]], if ok then Q.Done else Q.Failed);
            RunBatch(s, table, ids[..k + 1], meanwhile) == (s'', done)
  {
    hide Execute, Q.SetStatus;
    assert ids[..k + 1][..k] == ids[..k];
  }

  lemma BatchOfNone(s: State, table: seq<Q.Row>, meanwhile: nat -> set<nat>)
    ensures RunBatch(s, table, [], meanwhile) == (s, table)
  {
  }

  lemma SetOneStatus(table: seq<Q.Row>, id: nat, st: Q.Status)
    requires id < |table|
    ensures Q.SetStatus(table, [id], st) == table[id := table[id].(status := st)]
  {
  }

  /** The k-th command's row ends as the command's own execution went, in the state its predecessors left. */
  ghost predicate FinishedAt(s: State, table: seq<Q.Row>, ids: seq<nat>, meanwhile: nat -> set<nat>,
                             table': seq<Q.Row>, k: nat)
    requires k < |ids| && |table'| == |table| && forall j :: 0 <= j < |ids| ==> ids[j] < |table|
  {
    var before := RunBatch(s, table, ids[..k], meanwhile).0;
    var ok := Execute(before, Decode(table[ids[k]]), meanwhile(k)).1;
    table'[ids[k]] == table[ids[k]].(status := if ok then Q.Done else Q.Failed)
  }

  /** The first k commands of a batch have been run: one task per name, theirs are the only rows that changed. */
  ghost predicate BatchDone(s: State, table: seq<Q.Row>, ids: seq<nat>, meanwhile: nat -> set<nat>, k: nat)
    requires k <= |ids| && forall j :: 0 <= j < |ids| ==> ids[j] < |table|
  {
    var (s', table') := RunBatch(s, table, ids[..k], meanwhile);
    && OneTaskPerName(s')
    && (forall id: nat :: id < |table| && id !in ids[..k] ==> table'[id] == table[id])
    && (forall j: nat :: j < k ==> FinishedAt(s, table, ids, meanwhile, table', j))
  }

  lemma BatchGoesOn(s: State, table: seq<Q.Row>, ids: seq<nat>, meanwhile: nat -> set<nat>, k: nat)
    requires k < |ids| && forall j :: 0 <= j < |ids| ==> ids[j] < |table|
    requires forall i, j :: 0 <= i < j < |ids| ==> ids[i] < ids[j]
    requires BatchDone(s, table, ids, meanwhile, k)
    ensures BatchDone(s, table, ids, meanwhile, k + 1)
  {
    hide OneTaskPerName, Execute, RunBatch, Q.SetStatus;
    var (s', table') := RunBatch(s, table, ids[..k], meanwhile);
    StepKeepsOne(s', Run(Decode(table'[ids[k]]), meanwhile(k)));
    BatchStep(s, table, ids, meanwhile, k);
    var ok := Execute(s', Decode(table'[ids[k]]), meanwhile(k)).1;
    SetOneStatus(table', ids[k], if ok then Q.Done else Q.Failed);
    var table'' := RunBatch(s, table, ids[..k + 1], meanwhile).1;
    assert ids[k] !in ids[..k] && ids[..k + 1] == ids[..k] + [ids[k]];
    forall j: nat | j < k + 1 ensures FinishedAt(s, table, ids, meanwhile, table'', j) {
      if j < k { assert FinishedAt(s, table, ids, meanwhile, table', j); }
    }
  }

  lemma {:induction false} BatchDoneUpTo(s: State, table: seq<Q.Row>, ids: seq<nat>, meanwhile: nat -> set<nat>, k: nat)
    requires OneTaskPerName(s)
    requires k <= |ids| && forall j :: 0 <= j < |ids| ==> ids[j] < |table|
    requires forall i, j :: 0 <= i < j < |ids| ==> ids[i] < ids[j]
    ensures BatchDone(s, table, ids, meanwhile, k)
    decreases k
  {
    if k == 0 {
      hide OneTaskPerName;
    } else {
      hide BatchDone, OneTaskPerName;
      BatchDoneUpTo(s, table, ids, meanwhile, k - 1);
      BatchGoesOn(s, table, ids, meanwhile, k - 1);
    }
  }

  /** A batch keeps one task per name and finishes exactly the commands it claimed: each ends "done" or "failed" by its
      own outcome, and no other row changes. */
  lemma BatchFinishesItsCommands(s: State, table: seq<Q.Row>, ids: seq<nat>, meanwhile: nat -> set<nat>)
    requires OneTaskPerName(s)
    requires forall k :: 0 <= k < |ids| ==> ids[k] < |table|
    requires forall j, k :: 0 <= j < k < |ids| ==> ids[j] < ids[k]
    ensures var (s', table') := RunBatch(s, table, ids, meanwhile);
            && OneTaskPerName(s')
            && (forall id: nat :: id < |table| && id !in ids ==> table'[id] == table[id])
            && (forall k: nat :: k < |ids| ==> FinishedAt(s, table, ids, meanwhile, table', k))
  {
    hide OneTaskPerName, RunBatch, FinishedAt;
    BatchDoneUpTo(s, table, ids, meanwhile, |ids|);
    assert ids[..|ids|] == ids;
  }

  lemma InMapIsImage(s: State)
    ensures forall name :: name in s.runtimes ==> s.runtimes[name] in InMap(s)
    ensures forall i :: i in InMap(s) ==> exists name :: name in s.runtimes && s.runtimes[name] == i
  {
  }

  lemma DisableTouchesOneTask(s: State, name: string, mode: string)
    requires name in s.runtimes && s.runtimes[name] < |s.tasks|
    ensures var id := s.runtimes[name];
            DisableStrategy(s, name, mode, {}) ==
            s.(tasks := s.tasks[id := s.tasks[id].(control := Requested(mode), finished := true)],
                runtimes := s.runtimes - {name})
  {
    var id := s.runtimes[name];
    var ended := s.tasks[id].(control := Requested(mode), finished := true);
    assert DisableStrategy(s, name, mode, {}).tasks == s.tasks[id := ended];
  }

  // ---------------------------------------------------------------- the manager as an object

  class StrategyManager {
    const known: set<string>
    const commands: Q.StrategyCommands
    var tasks: seq<Task>
    var runtimes: map<string, nat>

    function View(): State
      reads this
    {
      State(known, tasks, runtimes)
    }

    constructor (known: set<string>, commands: Q.StrategyCommands)
      ensures View() == State(known, [], map[]) && this.commands == commands
    {
      this.known, this.commands, tasks, runtimes := known, commands, [], map[];
    }

    /** The manager gives up control; these tasks end. */
    method Await(ids: set<nat>)
      modifies this`tasks
      ensures View() == FinishTasks(old(View()), ids)
    {
      var i := 0;
      while i < |tasks|
        invariant |tasks| == |old(tasks)| && i <= |tasks|
        invariant forall k :: 0 <= k < |tasks| ==>
          tasks[k] == if k < i && k in ids then old(tasks)[k].(finished := true) else old(tasks)[k]
      {
        if i in ids { tasks := tasks[i := tasks[i].(finished := true)]; }
        i := i + 1;
      }
    }

    method Start(name: string) returns (ok: bool)
      modifies this`tasks, this`runtimes
      ensures ok <==> StartStrategy(old(View()), name).Some?
      ensures View() == if ok then StartStrategy(old(View()), name).value else old(View())
    {
      if name in runtimes { return true; }
      if name !in known { return false; }
      runtimes := runtimes[name := |tasks|];
      tasks := tasks + [Task(name, RunLoop.Control(RunLoop.NoStop, true), false)];
      return true;
    }

    method Disable(name: string, mode: string, meanwhile: set<nat>)
      modifies this`tasks, this`runtimes
      ensures View() == DisableStrategy(old(View()), name, mode, meanwhile)
    {
      if name !in runtimes || runtimes[name] >= |tasks| { return; }
      var id := runtimes[name];
      tasks := tasks[id := tasks[id].(control := Requested(mode))];
      Await(meanwhile + {id});
      runtimes := runtimes - {name};
    }

    method ExecuteCommand(c: Command, meanwhile: set<nat>) returns (done: bool)
      modifies this`tasks, this`runtimes
      ensures (View(), done) == Execute(old(View()), c, meanwhile)
    {
      if c.kind == "enable" {
        done := Start(c.name);
      } else if c.kind == "disable" {
        Disable(c.name, if c.mode.None? || c.mode.value == "" then "drain" else c.mode.value, meanwhile);
        done := true;
      } else if c.kind == "restart" {
        Disable(c.name, "force", meanwhile);
        done := Start(c.name);
      } else {
        done := false;
      }
    }

    /** `_sync_finished_tasks`. */
    method SyncFinishedTasks()
      requires OneTaskPerName(View())
      modifies this`runtimes
      ensures View() == SyncFinished(old(View()))
    {
      var todo := runtimes.Keys;
      while todo != {}
        invariant todo <= old(runtimes).Keys
        invariant runtimes ==
                    map name | name in old(runtimes) && (name in todo || !Ended(View(), old(runtimes)[name]))
                      :: old(runtimes)[name]
        decreases |todo|
      {
        var name :| name in todo;
        if tasks[runtimes[name]].finished { runtimes := runtimes - {name}; }
        todo := todo - {name};
      }
    }

    method RequestDrainOfAll()
      requires OneTaskPerName(View())
      modifies this`tasks
      ensures |tasks| == |old(tasks)|
      ensures forall i :: 0 <= i < |tasks| ==>
                tasks[i] == if i in InMap(old(View()))
                            then old(tasks)[i].(control := Requested("drain"))
                            else old(tasks)[i]
    {
      var todo := runtimes.Keys;
      while todo != {}
        invariant todo <= runtimes.Keys && |tasks| == |old(tasks)|
        invariant forall i :: 0 <= i < |tasks| ==>
          tasks[i] == if i in InMap(old(View())) && old(tasks)[i].name !in todo
                      then old(tasks)[i].(control := Requested("drain"))
                      else old(tasks)[i]
        decreases |todo|
      {
        var name :| name in todo;
        var id := runtimes[name];
        tasks := tasks[id := tasks[id].(control := Requested("drain"))];
        todo := todo - {name};
      }
    }

    method ForceStopAll()
      requires forall name :: name in runtimes ==> runtimes[name] < |tasks| && tasks[runtimes[name]].name == name
      modifies this`tasks, this`runtimes
      ensures runtimes == map[] && |tasks| == |old(tasks)|
      ensures forall i :: 0 <= i < |tasks| ==>
                tasks[i] == if i in InMap(old(View()))
                            then old(tasks)[i].(control := Requested("force"), finished := true)
                            else old(tasks)[i]
    {
      hide InMap, DisableStrategy;
      ghost var live := InMap(View());
      InMapIsImage(View());
      while runtimes != map[]
        invariant |tasks| == |old(tasks)| && runtimes.Keys <= old(runtimes).Keys
        invariant forall name :: name in runtimes ==> runtimes[name] == old(runtimes)[name]
        invariant forall i :: 0 <= i < |tasks| ==>
          tasks[i] == if i in live && old(tasks)[i].name !in runtimes
                      then old(tasks)[i].(control := Requested("force"), finished := true)
                      else old(tasks)[i]
        decreases runtimes.Keys
      {
        var name :| name in runtimes;
        DisableTouchesOneTask(View(), name, "force");
        Disable(name, "force", {});
      }
    }

    /** `_shutdown_all`: the wait returns when every task has ended, by itself or, at the time limit, by
        cancellation. */
    method ShutdownStrategies(timedOut: bool)
      requires OneTaskPerName(View())
      modifies this`tasks, this`runtimes
      ensures View() == ShutdownAll(old(View()), timedOut)
    {
      RequestDrainOfAll();
      Await(set name | name in runtimes :: runtimes[name]);
      if !timedOut {
        runtimes := map[];
        return;
      }
      ForceStopAll();
    }

    /** `_process_commands`: claim a batch, then run and finish its commands in order, while other processes may insert
        rows between the claim's read and its update. */
    method ProcessCommands(between: seq<Q.Row>, meanwhile: nat -> set<nat>)
      modifies this`tasks, this`runtimes, commands
      ensures var ids := Q.PendingIds(old(commands.table));
              var claimed := Q.SetStatus(old(commands.table) + between, ids, Q.Processing);
              (View(), commands.table) == RunBatch(old(View()), claimed, ids, meanwhile)
    {
      hide Execute, RunBatch, Q.SetStatus, Q.PendingIds;
      var ids := commands.ClaimPendingStrategyCommands(between);
      ghost var claimed := commands.table;
      BatchOfNone(View(), claimed, meanwhile);
      for k := 0 to |ids|
        invariant (View(), commands.table) == RunBatch(old(View()), claimed, ids[..k], meanwhile)
      {
        BatchStep(old(View()), claimed, ids, meanwhile, k);
        var done := ExecuteCommand(Decode(commands.table[ids[k]]), meanwhile(k));
        commands.FinishStrategyCommand(ids[k], done);
      }
      assert ids[..|ids|] == ids;
    }
  }
}
