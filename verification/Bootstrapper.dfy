/** app/position_reconcile.py as it is written: loops over rows and open orders, proved to leave what the functions
    of module Startup say. */
module Bootstrapper {
  import opened Common
  import opened PositionState
  import opened Exchange
  import opened RunLoop
  import opened ExecutorStore
  import opened Startup
  import S = Store

  predicate OldestFirst(table: map<Pid, S.PositionRow>, rows: seq<Pid>)
    requires forall p :: p in rows ==> p in table
  {
    forall i, j :: 0 <= i < j < |rows| ==> rows[i] != rows[j] && table[rows[i]].entryTs <= table[rows[j]].entryTs
  }

  lemma InsertedHolds(rows: seq<Pid>, p: Pid, k: nat)
    requires k <= |rows|
    ensures forall q :: q in rows[..k] + [p] + rows[k..] <==> q in rows || q == p
  {
    assert rows == rows[..k] + rows[k..];
  }

  /** Inserting a new row between the rows that are no later and the rows that are no earlier keeps the order. */
  lemma InsertedIsOrdered(table: map<Pid, S.PositionRow>, rows: seq<Pid>, p: Pid, k: nat)
    requires p in table && p !in rows && (forall q :: q in rows ==> q in table) && OldestFirst(table, rows)
    requires k <= |rows| && forall i :: 0 <= i < k ==> table[rows[i]].entryTs <= table[p].entryTs
    requires k < |rows| ==> table[p].entryTs <= table[rows[k]].entryTs
    ensures var rows' := rows[..k] + [p] + rows[k..];
            (forall q :: q in rows' ==> q in table) && OldestFirst(table, rows')
  {
    InsertedHolds(rows, p, k);
    var rows' := rows[..k] + [p] + rows[k..];
    forall i, j | 0 <= i < j < |rows'|
      ensures rows'[i] != rows'[j] && table[rows'[i]].entryTs <= table[rows'[j]].entryTs
    {
      if j < k {
        assert rows'[i] == rows[i] && rows'[j] == rows[j];
      } else if i < k && j == k {
        assert rows'[i] == rows[i] && rows'[j] == p;
      } else if i < k {
        assert rows'[i] == rows[i] && rows'[j] == rows[j - 1];
      } else if i == k {
        assert rows'[i] == p && rows'[j] == rows[j - 1];
        assert j - 1 > k ==> table[rows[k]].entryTs <= table[rows[j - 1]].entryTs;
      } else {
        assert rows'[i] == rows[i - 1] && rows'[j] == rows[j - 1];
      }
    }
  }

  method InsertByEntryTs(table: map<Pid, S.PositionRow>, rows: seq<Pid>, p: Pid) returns (rows': seq<Pid>)
    requires p in table && p !in rows && (forall q :: q in rows ==> q in table) && OldestFirst(table, rows)
    ensures forall q :: q in rows' <==> q in rows || q == p
    ensures OldestFirst(table, rows')
  {
    var k := 0;
    while k < |rows| && table[rows[k]].entryTs <= table[p].entryTs
      invariant k <= |rows|
      invariant forall i :: 0 <= i < k ==> table[rows[i]].entryTs <= table[p].entryTs
    {
      k := k + 1;
    }
    rows' := rows[..k] + [p] + rows[k..];
    InsertedHolds(rows, p, k);
    InsertedIsOrdered(table, rows, p, k);
  }

  /** `SELECT ... WHERE exit_ts IS NULL AND strategy_name = ? ORDER BY entry_ts ASC`. */
  method ListOpenPositions(store: ExecutorStore) returns (rows: seq<Pid>)
    ensures IsOpenListing(store.View(), rows)
  {
    rows := [];
    var rest := store.positions.Keys;
    while rest != {}
      invariant rest <= store.positions.Keys
      invariant forall p :: p in rows <==>
        && p in store.positions && p !in rest
        && store.positions[p].exit.None? && store.positions[p].strategy == store.strategy
      invariant OldestFirst(store.positions, rows)
      decreases rest
    {
      var p :| p in rest;
      rest := rest - {p};
      if store.positions[p].exit.None? && store.positions[p].strategy == store.strategy {
        rows := InsertByEntryTs(store.positions, rows, p);
      }
    }
  }

  method AdoptExitOrder(ex: Exchange, listing: seq<nat>, p: ActivePosition, now: int)
    returns (order: Option<ActiveOrder>)
    ensures var adopted := AdoptOpenExitOrder(ex, listing, p);
            order == if adopted.None? then None else Some(AdoptedOrder(ex, adopted.value, p, now))
  {
    for k := 0 to |listing|
      invariant AdoptOpenExitOrder(ex, listing, p) == AdoptOpenExitOrder(ex, listing[k..], p)
    {
      var i := listing[k];
      if i < |ex.orders| && ex.orders[i].side == ExpectedExitSide(p.side) {
        return Some(ActiveOrder(i, ex.orders[i].cid, ex.orders[i].side, Exit, now, now, true, p.size));
      }
    }
    return None;
  }

  method CancelStaleOpenOrders(ex0: Exchange, listing: seq<nat>, p: Option<ActivePosition>,
                               adopted: Option<ActiveOrder>, calls: CancelIo)
    returns (ex: Exchange)
    ensures ex == CancelStale(ex0, listing, p, if adopted.None? then None else Some(adopted.value.orderId), calls)
  {
    ex := ex0;
    ghost var adoptedId := if adopted.None? then None else Some(adopted.value.orderId);
    for k := 0 to |listing|
      invariant CancelStale(ex0, listing, p, adoptedId, calls) == CancelStale(ex, listing[k..], p, adoptedId, calls)
    {
      var i := listing[k];
      ex := Evolve(ex, calls.Before(i));
      if adopted.Some? && i == adopted.value.orderId { continue; }
      if i >= |ex.orders| { continue; }
      if p.Some? && ex.orders[i].side == ExpectedExitSide(p.value.side) { continue; }
      if i !in calls.failed { ex := Cancel(ex, ex.orders[i].cid); }
    }
  }

  method CloseStaleRows(store: ExecutorStore, rows: seq<Pid>, now: int)
    modifies store`positions
    ensures store.View() == CloseRows(old(store.View()), rows, now)
  {
    for k := 0 to |rows|
      invariant store.lifecycle == old(store.lifecycle)
      invariant CloseRows(old(store.View()), rows, now) == CloseRows(store.View(), rows[k..], now)
    {
      store.CloseOpenPositionReconciled(rows[k], now);
    }
  }

  /** `bootstrap_position_on_startup`; `s0` is the just-started state whose store and exchange these are. */
  method BootstrapPositionOnStartup(cfg: Config, store: ExecutorStore, ghost s0: State, ex0: Exchange,
                                    snap: Reply<Snapshot>, calls: CancelIo, now: int)
    returns (position: Option<ActivePosition>, order: Option<ActiveOrder>, ex: Exchange, rows: seq<Pid>)
    requires s0.position.None? && s0.order.None? && s0.store == store.View() && s0.ex == ex0
    modifies store
    ensures snap.Ok? ==> IsOpenListing(old(store.View()), rows)
    ensures var s := Bootstrap(cfg, s0, snap, rows, calls, now);
            position == s.position && order == s.order && ex == s.ex && store.View() == s.store
  {
    if snap.Raises? { return None, None, ex0, []; }
    rows := ListOpenPositions(store);
    var first := FirstForInstrument(snap.value.positions);
    if first.None? {
      CloseStaleRows(store, rows, now);
      ex := CancelStaleOpenOrders(ex0, snap.value.openOrders, None, None, calls);
      return None, None, ex, rows;
    }
    position := BuildActivePositionFromOkx(cfg, first.value, now, if rows == [] then None else Some(rows[0]));
    if position.None? { return None, None, ex0, rows; }
    store.SavePositionOpen(position.value, None, None);
    order := AdoptExitOrder(ex0, snap.value.openOrders, position.value, now);
    ex := CancelStaleOpenOrders(ex0, snap.value.openOrders, position, order, calls);
  }
}
