/** Small value types shared by every part of the executor model. */
module Common {

  datatype Option<+T> = None | Some(value: T)

  /** What an exchange call gives back: an answer, or an exception that unwinds to the caller. */
  datatype Reply<+T> = Ok(value: T) | Raises

  /** Position side. */
  datatype Side = Long | Short

  /** Order side. */
  datatype OrderSide = Buy | Sell

  /** Client order ids and signal ids: `new_client_order_id` never repeats one, so a counter stands for it. */
  type Cid = nat

  /** Position ids: generated ones, and the stable ids built from the exchange's own position id. */
  datatype Pid = Fresh(n: nat) | FromExchange(posId: Option<nat>)

  function Abs(x: real): (r: real)
    ensures r >= 0.0
    ensures r == x || r == -x
  {
    if x < 0.0 then -x else x
  }

  function Min(a: real, b: real): real { if a <= b then a else b }

  function Max(a: real, b: real): real { if a >= b then a else b }

  /** Python's `a or b` on optional decimals: zero counts as missing. */
  function Or(a: Option<real>, b: Option<real>): (r: Option<real>)
    ensures r == a || r == b
    ensures b.Some? ==> r.Some?
  {
    if a.Some? && a.value != 0.0 then a else b
  }
}
