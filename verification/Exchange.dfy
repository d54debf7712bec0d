/** The exchange as the loop sees it: orders that other parties may fill, cancel or reject at any
    moment between two calls. An order's exchange id is its index in placement order. */
module Exchange {
  import opened Common

  datatype OrderState = Live | PartiallyFilled | Filled | Canceled | Rejected

  /** `ours` marks orders this executor placed; `market` marks market orders, the others rest at their `limit`. */
  datatype ExOrder = ExOrder(
    cid: Cid, side: OrderSide, size: real, filled: real, state: OrderState,
    reduceOnly: bool, market: bool, ours: bool, limit: Option<real>)
  {
    predicate Working() { state.Live? || state.PartiallyFilled? }

    /** What the order has filled or can still fill. */
    function Committed(): real { if Working() then size else filled }
  }

  datatype Exchange = Exchange(orders: seq<ExOrder>) {
    predicate Working(i: nat) { i < |orders| && orders[i].Working() }

    predicate WorkingOurs(i: nat) { Working(i) && orders[i].ours }
  }

  /** What the rest of the market can do between two calls of the executor. */
  datatype EnvEvent =
    | Fill(ord: nat, qty: real)
    | Kill(ord: nat, rejected: bool)
    | Foreign(cid: Cid, side: OrderSide, size: real)

  datatype PlaceReply = Accepted | PriceLimit | ReduceSync | OtherError

  function Apply(ex: Exchange, e: EnvEvent): Exchange {
    match e
    case Fill(i, qty) =>
      if !ex.Working(i) || qty <= 0.0 then ex
      else
        var o := ex.orders[i];
        var filled := Min(o.size, o.filled + qty);
        ex.(orders := ex.orders[i := o.(filled := filled,
            state := if filled >= o.size then Filled else PartiallyFilled)])
    case Kill(i, rejected) =>
      if !ex.Working(i) then ex
      else ex.(orders := ex.orders[i := ex.orders[i].(state := if rejected then Rejected else Canceled)])
    case Foreign(cid, side, size) =>
      ex.(orders := ex.orders + [ExOrder(cid, side, size, 0.0, Live, false, false, false, None)])
  }

  /** Everything the loop's safety needs from the passage of time: no order of ours appears, none comes
      back to work, none changes its terms, and a finished order stays as it is. */
  ghost predicate Later(x: Exchange, y: Exchange) {
    && |x.orders| <= |y.orders|
    && (forall i :: 0 <= i < |x.orders| ==> AgedOrder(x.orders[i], y.orders[i]))
    && (forall i :: |x.orders| <= i < |y.orders| ==> !y.orders[i].ours)
  }

  ghost predicate AgedOrder(a: ExOrder, b: ExOrder) {
    && b == a.(filled := b.filled, state := b.state)
    && (!a.Working() ==> b == a)
  }

  function Evolve(ex: Exchange, env: seq<EnvEvent>): (ex': Exchange)
    ensures Later(ex, ex')
    decreases |env|
  {
    if env == [] then ex else Evolve(Apply(ex, env[0]), env[1..])
  }

  /** Cancel by client id. A call that fails changes nothing; one that succeeds, or answers 51400
      because nothing was left to cancel, leaves no working order with that client id. */
  function Cancel(ex: Exchange, cid: Cid): (ex': Exchange)
    ensures Later(ex, ex')
    ensures forall i :: 0 <= i < |ex.orders| && ex.orders[i].cid == cid ==> !ex'.orders[i].Working()
    ensures forall i :: 0 <= i < |ex.orders| && ex.orders[i].cid != cid ==> ex'.orders[i] == ex.orders[i]
    ensures |ex'.orders| == |ex.orders|
  {
    Exchange(seq(|ex.orders|, i requires 0 <= i < |ex.orders| =>
      if ex.orders[i].cid == cid && ex.orders[i].Working() then ex.orders[i].(state := Canceled) else ex.orders[i]))
  }

  function CancelAll(ex: Exchange, cids: seq<Cid>): (ex': Exchange)
    ensures Later(ex, ex')
    ensures |ex'.orders| == |ex.orders|
    ensures forall i :: 0 <= i < |ex.orders| && ex.orders[i].cid in cids ==> !ex'.orders[i].Working()
    ensures forall i :: 0 <= i < |ex.orders| && ex.orders[i].cid !in cids ==> ex'.orders[i] == ex.orders[i]
    decreases |cids|
  {
    if cids == [] then ex else CancelAll(Cancel(ex, cids[0]), cids[1..])
  }

  /** A placement the exchange accepts appends one working order of ours, a market order when it names no limit; any
      other answer creates none. */
  function Place(ex: Exchange, cid: Cid, side: OrderSide, size: real, reduceOnly: bool, limit: Option<real>): Exchange {
    ex.(orders := ex.orders + [ExOrder(cid, side, size, 0.0, Live, reduceOnly, limit.None?, true, limit)])
  }

  lemma LaterTransitive(x: Exchange, y: Exchange, z: Exchange)
    requires Later(x, y) && Later(y, z)
    ensures Later(x, z)
  {
  }
}
