/** The `strategy_commands` table of persistence/sqlite_store.py, filled by other processes while the manager claims
    and finishes its rows. A row's id is its index: AUTOINCREMENT ids only grow and rows are never deleted. */
module CommandQueue {
  import opened Common

  datatype Status = Pending | Processing | Done | Failed

  datatype Row = Row(name: string, kind: string, mode: Option<string>, status: Status)

  /** One step: another process enqueues; the manager reads the pending rows, marks those rows, finishes the next
      claimed command; or the manager's process is restarted. The claim's SELECT and UPDATE are separate steps. */
  datatype Action =
    | Enqueue(name: string, kind: string, mode: Option<string>)
    | ClaimSelect
    | ClaimUpdate
    | Finish(ok: bool)
    | Restart

  /** `selected` is the batch read and not yet marked, `todo` the claimed commands not yet finished, `claims` all
      claimed batches of this manager process, oldest first, joined. */
  datatype State = State(table: seq<Row>, selected: Option<seq<nat>>, todo: seq<nat>, claims: seq<nat>)

  /** `SELECT id ... WHERE status = 'pending' ORDER BY id ASC`. */
  function PendingIds(table: seq<Row>): (ids: seq<nat>)
    ensures forall i :: i in ids <==> 0 <= i < |table| && table[i].status.Pending?
    ensures forall k :: 0 <= k < |ids| ==> ids[k] < |table|
    ensures forall j, k :: 0 <= j < k < |ids| ==> ids[j] < ids[k]
  {
    if table == [] then []
    else
      var n := |table| - 1;
      PendingIds(table[..n]) + if table[n].status.Pending? then [n] else []
  }

  function SetStatus(table: seq<Row>, ids: seq<nat>, status: Status): (table': seq<Row>)
    ensures |table'| == |table|
  {
    seq(|table|, i requires 0 <= i < |table| => if i in ids then table[i].(status := status) else table[i])
  }

  function Next(s: State, a: Action): State {
    match a
    case Enqueue(name, kind, mode) => s.(table := s.table + [Row(name, kind, mode, Pending)])
    case ClaimSelect => if s.todo != [] || s.selected.Some? then s else s.(selected := Some(PendingIds(s.table)))
    case ClaimUpdate =>
      if s.selected.None? then s
      else
        var ids := s.selected.value;
        s.(table := SetStatus(s.table, ids, Processing), selected := None, todo := ids, claims := s.claims + ids)
    case Finish(ok) =>
      if s.todo == [] then s
      else s.(table := SetStatus(s.table, [s.todo[0]], if ok then Done else Failed), todo := s.todo[1..])
    case Restart => s.(selected := None, todo := [])
  }

  function Run(s: State, actions: seq<Action>): State
    decreases |actions|
  {
    if actions == [] then s else Run(Next(s, actions[0]), actions[1..])
  }

  /** The ids from `lo` up to `hi`. */
  function Range(lo: nat, hi: nat): (r: seq<nat>)
    requires lo <= hi
    ensures |r| == hi - lo && forall k :: 0 <= k < |r| ==> r[k] == lo + k
  {
    seq(hi - lo, k requires 0 <= k < hi - lo => lo + k)
  }

  lemma RangeMembers(lo: nat, hi: nat)
    requires lo <= hi
    ensures forall i: nat :: i in Range(lo, hi) <==> lo <= i < hi
  {
    forall i: nat | lo <= i < hi ensures i in Range(lo, hi) { assert Range(lo, hi)[i - lo] == i; }
  }

  // ---------------------------------------------------------------- exactly once

  /** The claimed ids are exactly the oldest ones in the table, each once and in order; everything younger is pending,
      everything claimed is not, and only what is on the to-do list is still processing in this process. */
  predicate ClaimsArePrefix(base: nat, s: State) {
    var n := base + |s.claims|;
    && n <= |s.table|
    && s.claims == Range(base, n)
    && (forall i :: 0 <= i < |s.table| ==> (s.table[i].status.Pending? <==> i >= n))
    && (s.selected.Some? ==>
          && s.todo == [] && n + |s.selected.value| <= |s.table|
          && s.selected.value == Range(n, n + |s.selected.value|))
    && |s.todo| <= |s.claims| && s.todo == Range(n - |s.todo|, n)
    && (forall i :: base <= i < n ==> (s.table[i].status.Processing? ==> i >= n - |s.todo|))
    && (forall i :: 0 <= i < |s.todo| ==> s.table[s.todo[i]].status.Processing?)
  }

  lemma {:induction false} NonePending(table: seq<Row>)
    requires forall i :: 0 <= i < |table| ==> !table[i].status.Pending?
    ensures PendingIds(table) == [] == Range(|table|, |table|)
  {
    if table != [] { NonePending(table[..|table| - 1]); }
  }

  lemma PendingUnfolds(table: seq<Row>)
    requires table != []
    ensures var m := |table| - 1;
            PendingIds(table) == PendingIds(table[..m]) + if table[m].status.Pending? then [m] else []
  {
  }

  lemma RangeGrows(lo: nat, hi: nat)
    requires lo <= hi
    ensures Range(lo, hi) + [hi] == Range(lo, hi + 1)
  {
  }

  lemma {:induction false} PendingSuffix(table: seq<Row>, n: nat)
    requires n <= |table| && forall i :: 0 <= i < |table| ==> (table[i].status.Pending? <==> i >= n)
    ensures PendingIds(table) == Range(n, |table|)
  {
    hide Range, PendingIds;
    if n == |table| {
      NonePending(table);
    } else {
      var m := |table| - 1;
      PendingSuffix(table[..m], n);
      PendingUnfolds(table);
      RangeGrows(n, m);
    }
  }

  lemma UpdateKeepsPrefix(base: nat, s: State)
    requires ClaimsArePrefix(base, s) && s.selected.Some?
    ensures ClaimsArePrefix(base, Next(s, ClaimUpdate))
  {
    var n := base + |s.claims|;
    RangeMembers(n, n + |s.selected.value|);
  }

  lemma FinishKeepsPrefix(base: nat, s: State, ok: bool)
    requires ClaimsArePrefix(base, s) && s.todo != []
    ensures ClaimsArePrefix(base, Next(s, Finish(ok)))
  {
    var n := base + |s.claims|;
    assert s.todo[1..] == Range(n - |s.todo| + 1, n);
  }

  lemma EnqueueKeepsPrefix(base: nat, s: State, row: Row)
    requires ClaimsArePrefix(base, s) && row.status.Pending?
    ensures ClaimsArePrefix(base, s.(table := s.table + [row]))
  {
    hide Range;
  }

  lemma SelectKeepsPrefix(base: nat, s: State)
    requires ClaimsArePrefix(base, s) && s.todo == [] && s.selected.None?
    ensures ClaimsArePrefix(base, Next(s, ClaimSelect))
  {
    PendingSuffix(s.table, base + |s.claims|);
  }

  lemma StepKeepsPrefix(base: nat, s: State, a: Action)
    requires ClaimsArePrefix(base, s) && !a.Restart?
    ensures ClaimsArePrefix(base, Next(s, a))
  {
    hide ClaimsArePrefix, SetStatus, PendingIds;
    match a
    case Enqueue(name, kind, mode) => EnqueueKeepsPrefix(base, s, Row(name, kind, mode, Pending));
    case ClaimSelect =>
      if s.todo == [] && s.selected.None? { SelectKeepsPrefix(base, s); }
    case ClaimUpdate =>
      if s.selected.Some? { UpdateKeepsPrefix(base, s); }
    case Finish(ok) =>
      if s.todo != [] { FinishKeepsPrefix(base, s, ok); }
  }

  lemma {:induction false} RunKeepsPrefix(base: nat, s: State, actions: seq<Action>)
    requires ClaimsArePrefix(base, s) && forall i :: 0 <= i < |actions| ==> !actions[i].Restart?
    ensures ClaimsArePrefix(base, Run(s, actions))
    decreases |actions|
  {
    hide ClaimsArePrefix;
    if actions != [] {
      StepKeepsPrefix(base, s, actions[0]);
      RunKeepsPrefix(base, Next(s, actions[0]), actions[1..]);
    }
  }

  /** A manager that starts on a table whose pending rows are its youngest. */
  predicate FreshManager(base: nat, s: State) {
    && s.selected.None? && s.todo == [] && s.claims == [] && base <= |s.table|
    && forall i :: 0 <= i < |s.table| ==> (s.table[i].status.Pending? <==> i >= base)
  }

  /** Exactly once, with any number of rows enqueued at any moment, also between the claim's SELECT and UPDATE: all
      claimed batches joined are strictly increasing, hold no id twice, and miss no id older than one they hold. */
  lemma CommandsAreClaimedExactlyOnce(base: nat, s: State, actions: seq<Action>)
    requires FreshManager(base, s) && forall i :: 0 <= i < |actions| ==> !actions[i].Restart?
    ensures var s' := Run(s, actions);
            && (forall i, j :: 0 <= i < j < |s'.claims| ==> s'.claims[i] < s'.claims[j])
            && (forall id: nat :: id in s'.claims <==> base <= id < |s'.table| && !s'.table[id].status.Pending?)
            && (forall id: nat :: id in s'.claims && id !in s'.todo ==>
                s'.table[id].status.Done? || s'.table[id].status.Failed?)
  {
    RunKeepsPrefix(base, s, actions);
    var s' := Run(s, actions);
    forall id: nat ensures id in s'.claims <==> base <= id < |s'.table| && !s'.table[id].status.Pending? {
      if base <= id < base + |s'.claims| { assert s'.claims[id - base] == id; }
    }
    RangeMembers(base + |s'.claims| - |s'.todo|, base + |s'.claims|);
  }

  /** Across a restart of the manager: no id is claimed by both processes, and none is passed over by both. */
  lemma ClaimsNeverRepeatAcrossARestart(base: nat, s: State, before: seq<Action>, after: seq<Action>)
    requires FreshManager(base, s)
    requires forall i :: 0 <= i < |before| ==> !before[i].Restart?
    requires forall i :: 0 <= i < |after| ==> !after[i].Restart?
    ensures var first := Run(s, before);
            var second := Run(Next(first, Restart).(claims := []), after);
            && (forall id: nat :: !(id in first.claims && id in second.claims))
            && (forall id: nat :: base <= id < |second.table| && !second.table[id].status.Pending? ==>
                id in first.claims || id in second.claims)
  {
    hide Run;
    var first := Run(s, before);
    RunKeepsPrefix(base, s, before);
    CommandsAreClaimedExactlyOnce(base, s, before);
    var n := base + |first.claims|;
    RangeMembers(base, n);
    assert FreshManager(n, Next(first, Restart).(claims := []));
    CommandsAreClaimedExactlyOnce(n, Next(first, Restart).(claims := []), after);
  }

  // ---------------------------------------------------------------- status only moves forward

  function Rank(st: Status): nat {
    match st case Pending => 0 case Processing => 1 case Done => 2 case Failed => 2
  }

  /** Each row keeps its command, its rank never falls, and done and failed are final. */
  predicate Forward(t: seq<Row>, t': seq<Row>) {
    && |t| <= |t'|
    && forall i :: 0 <= i < |t| ==>
         && t'[i] == t[i].(status := t'[i].status)
         && Rank(t[i].status) <= Rank(t'[i].status)
         && (Rank(t[i].status) == 2 ==> t'[i] == t[i])
  }

  /** What any manager process keeps, restarted or not: the to-do list holds processing rows, each once, and a batch
      read and not yet marked is still pending. */
  predicate Orderly(s: State) {
    && (forall i :: 0 <= i < |s.todo| ==> s.todo[i] < |s.table| && s.table[s.todo[i]].status.Processing?)
    && (forall i, j :: 0 <= i < j < |s.todo| ==> s.todo[i] != s.todo[j])
    && (s.selected.Some? ==>
          var ids := s.selected.value;
          && s.todo == []
          && (forall i :: 0 <= i < |ids| ==> ids[i] < |s.table| && s.table[ids[i]].status.Pending?)
          && (forall i, j :: 0 <= i < j < |ids| ==> ids[i] != ids[j]))
  }

  lemma SelectStaysOrderly(s: State)
    requires Orderly(s)
    ensures Orderly(Next(s, ClaimSelect))
  {
    var ids := PendingIds(s.table);
    assert forall i :: 0 <= i < |ids| ==> ids[i] in ids;
  }

  lemma UpdateMovesForward(s: State)
    requires Orderly(s)
    ensures Orderly(Next(s, ClaimUpdate)) && Forward(s.table, Next(s, ClaimUpdate).table)
  {
    hide PendingIds;
    if s.selected.Some? {
      var ids := s.selected.value;
      assert forall i :: 0 <= i < |ids| ==> ids[i] in ids;
    }
  }

  lemma FinishMovesForward(s: State, ok: bool)
    requires Orderly(s)
    ensures Orderly(Next(s, Finish(ok))) && Forward(s.table, Next(s, Finish(ok)).table)
  {
    hide PendingIds;
  }

  lemma StepMovesForward(s: State, a: Action)
    requires Orderly(s)
    ensures Orderly(Next(s, a)) && Forward(s.table, Next(s, a).table)
  {
    hide PendingIds, SetStatus;
    match a
    case Enqueue(_, _, _) =>
    case ClaimSelect => SelectStaysOrderly(s);
    case ClaimUpdate => UpdateMovesForward(s);
    case Finish(ok) => FinishMovesForward(s, ok);
    case Restart =>
  }

  /** Over every run, restarts included, no row changes its command, moves back, or leaves done or failed. */
  lemma {:induction false} StatusOnlyMovesForward(s: State, actions: seq<Action>)
    requires Orderly(s)
    ensures Forward(s.table, Run(s, actions).table)
    decreases |actions|
  {
    hide Orderly;
    if actions != [] {
      StepMovesForward(s, actions[0]);
      StatusOnlyMovesForward(Next(s, actions[0]), actions[1..]);
    }
  }

  /** Finishing reports on the oldest claimed command only: done exactly when it went well, failed exactly when not. */
  lemma FinishReportsItsCommand(base: nat, s: State, ok: bool)
    requires ClaimsArePrefix(base, s) && s.todo != []
    ensures var s' := Next(s, Finish(ok));
            && (s'.table[s.todo[0]].status.Done? <==> ok) && (s'.table[s.todo[0]].status.Failed? <==> !ok)
            && (forall id: nat :: id < |s.table| && id != s.todo[0] ==> s'.table[id] == s.table[id])
            && s'.todo == s.todo[1..]
  {
  }

  /** A row that is not pending and on neither list stays exactly as it is in every continuation. */
  lemma {:induction false} SettledRowsStay(s: State, actions: seq<Action>, id: nat)
    requires id < |s.table| && !s.table[id].status.Pending? && id !in s.todo
    requires s.selected.Some? ==> id !in s.selected.value
    ensures var s' := Run(s, actions); id < |s'.table| && s'.table[id] == s.table[id]
    decreases |actions|
  {
    if actions != [] { SettledRowsStay(Next(s, actions[0]), actions[1..], id); }
  }

  /** Restarting the manager at any moment: a command it had claimed is done or failed in the end exactly when it was
      not on the to-do list at that moment; the others stay processing in every continuation. */
  lemma RestartForgetsTheToDoList(base: nat, s: State, before: seq<Action>, after: seq<Action>, id: nat)
    requires FreshManager(base, s) && forall i :: 0 <= i < |before| ==> !before[i].Restart?
    requires id in Run(s, before).claims
    ensures var first := Run(s, before);
            var s' := Run(Next(first, Restart), after);
            && id < |s'.table|
            && (s'.table[id].status.Done? || s'.table[id].status.Failed? <==> id !in first.todo)
            && (s'.table[id].status.Processing? <==> id in first.todo)
  {
    hide Run;
    var first := Run(s, before);
    CommandsAreClaimedExactlyOnce(base, s, before);
    RunKeepsPrefix(base, s, before);
    assert id in first.todo ==> first.table[id].status.Processing?;
    SettledRowsStay(Next(first, Restart), after, id);
  }

  /** Such a command exists: claimed, then a restart before it is finished. */
  lemma RestartLosesAClaimedCommand(after: seq<Action>)
    ensures var s := Run(State([], None, [], []), [Enqueue("a", "enable", None), ClaimSelect, ClaimUpdate]);
            && s.claims == s.todo == [0]
            && var s' := Run(Next(s, Restart), after); |s'.table| > 0 && s'.table[0].status.Processing?
  {
    hide PendingIds;
    var enqueue := Enqueue("a", "enable", None);
    var s0 := State([], None, [], []);
    var s1 := Next(s0, enqueue);
    assert s1.table == [Row("a", "enable", None, Pending)];
    PendingSuffix(s1.table, 0);
    var s2 := Next(s1, ClaimSelect);
    assert Range(0, 1) == [0] && s2.selected == Some([0]);
    var s3 := Next(s2, ClaimUpdate);
    assert [enqueue, ClaimSelect, ClaimUpdate][1..] == [ClaimSelect, ClaimUpdate];
    assert [ClaimSelect, ClaimUpdate][1..] == [ClaimUpdate];
    assert [ClaimUpdate][1..] == [];
    assert Run(s2, [ClaimUpdate]) == s3 && Run(s1, [ClaimSelect, ClaimUpdate]) == s3;
    SettledRowsStay(Next(s3, Restart), after, 0);
  }

  // ---------------------------------------------------------------- the table as an object

  class StrategyCommands {
    var table: seq<Row>

    constructor ()
      ensures table == []
    {
      table := [];
    }

    method EnqueueStrategyCommand(name: string, kind: string, mode: Option<string>)
      modifies this
      ensures table == old(table) + [Row(name, kind, mode, Pending)]
    {
      table := table + [Row(name, kind, mode, Pending)];
    }

    method UpdateStatus(ids: seq<nat>, status: Status)
      modifies this
      ensures table == SetStatus(old(table), ids, status)
    {
      var i := 0;
      while i < |table|
        invariant |table| == |old(table)| && i <= |table|
        invariant forall k :: 0 <= k < |table| ==>
          table[k] == if k < i && k in ids then old(table)[k].(status := status) else old(table)[k]
      {
        if i in ids { table := table[i := table[i].(status := status)]; }
        i := i + 1;
      }
    }

    /** The claim, with the rows another process inserts between its SELECT and its UPDATE. */
    method ClaimPendingStrategyCommands(between: seq<Row>) returns (ids: seq<nat>)
      modifies this
      ensures ids == PendingIds(old(table))
      ensures table == SetStatus(old(table) + between, ids, Processing)
    {
      ids := [];
      for i := 0 to |table|
        invariant ids == PendingIds(table[..i])
      {
        assert table[..i + 1][..i] == table[..i];
        if table[i].status.Pending? { ids := ids + [i]; }
      }
      assert table[..|table|] == table;
      table := table + between;
      if ids == [] {
        assert table == SetStatus(table, ids, Processing);
        return;
      }
      UpdateStatus(ids, Processing);
    }

    method FinishStrategyCommand(id: nat, ok: bool)
      modifies this
      ensures table == SetStatus(old(table), [id], if ok then Done else Failed)
    {
      UpdateStatus([id], if ok then Done else Failed);
    }
  }
}
