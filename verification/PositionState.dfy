/** app/position_state.py: in-memory position and order, exit rules, maker prices. */
module PositionState {
  import opened Common

  datatype ActivePosition = ActivePosition(
    id: Pid, side: Side, entryPrice: real, entryTs: int, size: real,
    tpPrice: real, slPrice: real, timeoutAt: int, attempts: nat)

  datatype Purpose = Entry | Exit

  datatype ActiveOrder = ActiveOrder(
    orderId: nat, clientId: Cid, side: OrderSide, purpose: Purpose,
    createdAt: int, lastRepriceAt: int, reduceOnly: bool, size: real)

  /** One row of the exchange's position report. */
  datatype OkxPosition = OkxPosition(
    sameInstrument: bool, pos: real, avgPx: Option<real>, posId: Option<nat>, createdAt: Option<int>)

  datatype Book = Book(bid: real, ask: real)

  datatype Limits = Limits(buyLmt: real, sellLmt: real)

  /** Deployment and strategy parameters the loop reads. Prices live on the grid of `grid`, the
      power of ten of the tick's last decimal. */
  datatype Config = Config(
    orderSize: real, makerRepriceSec: int, makerMaxWaitSec: int,
    exitRepriceSec: int, exitMaxWaitSec: int,
    takeProfitTicks: int, stopLossTicks: int, timeoutSec: int,
    fallbackEnabled: bool, maxAttempts: int, graceSec: int,
    entryStaleTicks: int, exitStaleTicks: int,
    stepSec: int, cooldownSec: int,
    makerRate: real, takerRate: real,
    tick: real, grid: real,
    maxLoops: Option<int>, runSeconds: Option<int>)
  {
    ghost predicate Valid() { tick > 0.0 && OnGrid(tick, grid) }
  }

  // ---------------------------------------------------------------- positions

  function BuildActivePosition(cfg: Config, id: Pid, side: Side, entryPrice: real, entryTs: int, size: real)
    : (p: ActivePosition)
    ensures p.id == id && p.side == side && p.size == size && p.attempts == 0
    ensures p.entryPrice == entryPrice && p.entryTs == entryTs && p.timeoutAt - entryTs == cfg.timeoutSec
  {
    var tpDelta := cfg.tick * cfg.takeProfitTicks as real;
    var slDelta := cfg.tick * cfg.stopLossTicks as real;
    var tp := if side.Long? then entryPrice + tpDelta else entryPrice - tpDelta;
    var sl := if side.Long? then entryPrice - slDelta else entryPrice + slDelta;
    ActivePosition(id, side, entryPrice, entryTs, size, tp, sl, entryTs + cfg.timeoutSec, 0)
  }

  /** No position comes back exactly when the average price is missing or the quantity is zero. */
  function BuildActivePositionFromOkx(cfg: Config, okx: OkxPosition, now: int, id: Option<Pid>)
    : (r: Option<ActivePosition>)
    ensures r.None? <==> okx.avgPx.None? || okx.pos == 0.0
    ensures r.Some? ==>
              && (r.value.side.Long? <==> okx.pos > 0.0) && (r.value.size == okx.pos || r.value.size == -okx.pos)
              && r.value.size > 0.0
              && okx.avgPx == Some(r.value.entryPrice) && r.value.attempts == 0
              && r.value.timeoutAt - r.value.entryTs == cfg.timeoutSec
              && (if okx.createdAt.Some? then okx.createdAt == Some(r.value.entryTs) else r.value.entryTs == now)
              && (if id.Some? then id == Some(r.value.id) else r.value.id == FromExchange(okx.posId))
  {
    if okx.avgPx.None? || okx.pos == 0.0 then None
    else
      var side := if okx.pos > 0.0 then Long else Short;
      var entryTs := if okx.createdAt.Some? then okx.createdAt.value else now;
      var pid := if id.Some? then id.value else FromExchange(okx.posId);
      Some(BuildActivePosition(cfg, pid, side, okx.avgPx.value, entryTs, Abs(okx.pos)))
  }

  function ExpectedExitSide(side: Side): OrderSide { if side.Long? then Sell else Buy }

  /** Signed quantity a filled order of this side adds to the exchange position. */
  function SignedQty(side: OrderSide, size: real): real { if side.Buy? then size else -size }

  /** What is restored from a report encodes the signed exchange position: an exit of the restored
      size on the restored side brings that position to exactly zero, and no other side or size does. */
  lemma RestoredPositionIsClosedByItsExit(cfg: Config, okx: OkxPosition, now: int, id: Option<Pid>, side: OrderSide,
                                          size: real)
    requires okx.avgPx.Some? && okx.pos != 0.0 && size > 0.0
    ensures var p := BuildActivePositionFromOkx(cfg, okx, now, id).value;
            okx.pos + SignedQty(side, size) == 0.0 <==> side == ExpectedExitSide(p.side) && size == p.size
  {
    var p := BuildActivePositionFromOkx(cfg, okx, now, id).value;
    assert p.size == Abs(okx.pos);
  }

  // ---------------------------------------------------------------- exit rules

  /** The exit reasons the code writes as strings; the last three only ever reach the normalizer. */
  datatype Reason = Timeout | Tp | Sl | Reconcile | Unknown | NoExchangePosition | SyncLost | Reconciled | MakerExit

  function CheckExitReason(p: ActivePosition, price: real, now: int): Option<Reason> {
    if now >= p.timeoutAt then Some(Timeout)
    else if p.side.Long? then
      if price >= p.tpPrice then Some(Tp)
      else if price <= p.slPrice then Some(Sl)
      else None
    else if price <= p.tpPrice then Some(Tp)
    else if price >= p.slPrice then Some(Sl)
    else None
  }

  predicate ShouldUseMarketExit(cfg: Config, p: ActivePosition, now: int) {
    cfg.fallbackEnabled && (p.attempts >= cfg.maxAttempts || now >= p.timeoutAt + cfg.graceSec)
  }

  /** Gross result of closing at `price`; `pnl_engine.calc_gross_pnl` and the position-level helper agree on it. */
  function GrossPnl(side: Side, entryPrice: real, exitPrice: real, size: real): real {
    if side.Long? then (exitPrice - entryPrice) * size else (entryPrice - exitPrice) * size
  }

  lemma ScaledOrder(a: real, b: real, size: real)
    requires size > 0.0
    ensures a >= b <==> a * size >= b * size
  {
    if a < b { assert (b - a) * size > 0.0; } else { assert (a - b) * size >= 0.0; }
  }

  /** Before the timeout the take-profit trigger fires exactly when the gross result reaches
      tp_delta * size, and the stop-loss trigger exactly when it is at or below -sl_delta * size and the
      take-profit has not fired: the same statement for both sides. */
  lemma TriggersAreGrossPnlThresholds(cfg: Config, id: Pid, side: Side, entry: real, ts: int, size: real, price: real,
                                      now: int)
    requires size > 0.0 && now < ts + cfg.timeoutSec
    ensures var p := BuildActivePosition(cfg, id, side, entry, ts, size);
            var gross := GrossPnl(side, entry, price, size);
            var tp := cfg.tick * cfg.takeProfitTicks as real * size;
            var sl := cfg.tick * cfg.stopLossTicks as real * size;
            var reason := CheckExitReason(p, price, now);
            && (reason == Some(Tp) <==> gross >= tp)
            && (reason == Some(Sl) <==> gross <= -sl && gross < tp)
            && reason != Some(Timeout)
  {
    var move := if side.Long? then price - entry else entry - price;
    var tpDelta := cfg.tick * cfg.takeProfitTicks as real;
    var slDelta := cfg.tick * cfg.stopLossTicks as real;
    ScaledOrder(move, tpDelta, size);
    ScaledOrder(-slDelta, move, size);
    assert -slDelta * size == -(slDelta * size);
  }

  /** Latches: for one position, once the timeout reason or the market exit is selected it stays
      selected at every later time, whatever the price does and however many attempts are added. */
  lemma ExitChoicesAreLatched(cfg: Config, p: ActivePosition, q: ActivePosition, price: real, price': real, now: int,
                              now': int)
    requires now <= now' && q == p.(attempts := q.attempts) && p.attempts <= q.attempts
    ensures CheckExitReason(p, price, now) == Some(Timeout) ==> CheckExitReason(q, price', now') == Some(Timeout)
    ensures ShouldUseMarketExit(cfg, p, now) ==> ShouldUseMarketExit(cfg, q, now')
  {
  }

  // ---------------------------------------------------------------- maker prices

  function GridPoint(k: int, grid: real): real { k as real * grid }

  ghost predicate OnGrid(x: real, grid: real) {
    grid > 0.0 && exists k :: x == GridPoint(k, grid)
  }

  /** Round half to even, as `Decimal.quantize` does by default. */
  function RoundHalfEven(x: real): (k: int)
    ensures -0.5 <= x - k as real <= 0.5
    ensures x - k as real == 0.5 || x - k as real == -0.5 ==> k % 2 == 0
  {
    var f := x.Floor;
    var d := x - f as real;
    if d < 0.5 then f else if d > 0.5 then f + 1 else if f % 2 == 0 then f else f + 1
  }

  function Quantize(x: real, grid: real): real
    requires grid > 0.0
  {
    GridPoint(RoundHalfEven(x / grid), grid)
  }

  function MakerPriceForSide(side: OrderSide, book: Book, grid: real): real
    requires grid > 0.0
  {
    Quantize(if side.Buy? then book.bid else book.ask, grid)
  }

  function ClampMakerPriceToLimits(side: OrderSide, price: real, limits: Limits, grid: real): real
    requires grid > 0.0
  {
    Quantize(if side.Buy? then Min(price, limits.buyLmt) else Max(price, limits.sellLmt), grid)
  }

  /** `_resolve_maker_price` (app/orchestrator.py): a failed price-limit fetch is skipped. */
  function ResolveMakerPrice(side: OrderSide, book: Book, limits: Option<Limits>, grid: real): real
    requires grid > 0.0
  {
    var price := MakerPriceForSide(side, book, grid);
    if limits.None? then price else ClampMakerPriceToLimits(side, price, limits.value, grid)
  }

  predicate IsEntryOrderPriceStale(cfg: Config, side: OrderSide, orderPrice: real, book: Book) {
    var gap := cfg.tick * cfg.entryStaleTicks as real;
    && cfg.entryStaleTicks > 0
    && if side.Buy? then book.bid - orderPrice > gap else orderPrice - book.ask > gap
  }

  predicate IsExitOrderPriceStale(cfg: Config, posSide: Side, side: OrderSide, orderPrice: real, book: Book) {
    var gap := cfg.tick * cfg.exitStaleTicks as real;
    && cfg.exitStaleTicks > 0
    && ((posSide.Long? && side.Sell? && book.ask - orderPrice > gap)
        || (posSide.Short? && side.Buy? && orderPrice - book.bid > gap))
  }

  lemma DivMul(x: real, grid: real)
    requires grid > 0.0
    ensures x / grid * grid == x
  {
  }

  /** Quantizing moves a price by at most half a grid unit and lands on the grid. */
  lemma QuantizeIsNear(x: real, grid: real)
    requires grid > 0.0
    ensures OnGrid(Quantize(x, grid), grid)
    ensures -grid <= 2.0 * (Quantize(x, grid) - x) <= grid
  {
    var k := RoundHalfEven(x / grid);
    var e := x / grid - k as real;
    DivMul(x, grid);
    assert x - Quantize(x, grid) == e * grid;
    assert -0.5 * grid <= e * grid <= 0.5 * grid;
  }

  /** A price already on the grid is a fixed point of quantizing. */
  lemma QuantizeFixesGrid(x: real, grid: real)
    requires OnGrid(x, grid)
    ensures Quantize(x, grid) == x
  {
    var k :| x == GridPoint(k, grid);
    DivMul(x, grid);
    var q := x / grid;
    assert (q - k as real) * grid == 0.0;
    assert q == k as real;
  }

  lemma RoundMonotone(x: real, y: real)
    requires x <= y
    ensures RoundHalfEven(x) <= RoundHalfEven(y)
  {
  }

  lemma QuantizeMonotone(x: real, y: real, grid: real)
    requires grid > 0.0 && x <= y
    ensures Quantize(x, grid) <= Quantize(y, grid)
  {
    DivMul(x, grid); DivMul(y, grid);
    RoundMonotone(x / grid, y / grid);
    assert (RoundHalfEven(y / grid) - RoundHalfEven(x / grid)) as real * grid >= 0.0;
  }

  /** The whole pricing pipeline: the resolved price is on the grid, clamping it again changes nothing,
      it never passes an on-grid price limit, and when the limit does not bind it is the touch
      moved by at most half a grid unit. */
  lemma ResolvedMakerPrice(side: OrderSide, book: Book, limits: Limits, grid: real)
    requires grid > 0.0
    ensures var px := ResolveMakerPrice(side, book, Some(limits), grid);
            var touch := if side.Buy? then book.bid else book.ask;
            var lmt := if side.Buy? then limits.buyLmt else limits.sellLmt;
            && OnGrid(px, grid)
            && (OnGrid(lmt, grid) ==> ClampMakerPriceToLimits(side, px, limits, grid) == px)
            && (OnGrid(lmt, grid) && side.Buy? ==> px <= limits.buyLmt)
            && (OnGrid(lmt, grid) && side.Sell? ==> px >= limits.sellLmt)
            && ((if side.Buy? then Quantize(touch, grid) <= lmt else Quantize(touch, grid) >= lmt) ==>
                  px == Quantize(touch, grid) && -grid <= 2.0 * (px - touch) <= grid)
  {
    var px := ResolveMakerPrice(side, book, Some(limits), grid);
    var touch := if side.Buy? then book.bid else book.ask;
    var lmt := if side.Buy? then limits.buyLmt else limits.sellLmt;
    var base := MakerPriceForSide(side, book, grid);
    var clamped := if side.Buy? then Min(base, lmt) else Max(base, lmt);
    QuantizeIsNear(touch, grid);
    QuantizeIsNear(clamped, grid);
    QuantizeFixesGrid(base, grid);
    if OnGrid(lmt, grid) {
      QuantizeFixesGrid(lmt, grid);
      if side.Buy? { QuantizeMonotone(clamped, lmt, grid); } else { QuantizeMonotone(lmt, clamped, grid); }
      QuantizeFixesGrid(px, grid);
    }
  }

  /** The grid unit is never coarser than the tick. */
  lemma GridWithinTick(cfg: Config)
    requires cfg.Valid()
    ensures 0.0 < cfg.grid <= cfg.tick
  {
    var k :| cfg.tick == GridPoint(k, cfg.grid);
    assert (k - 1) as real * cfg.grid >= 0.0;
  }

  lemma NearTouchIsNotStale(cfg: Config, side: OrderSide, posSide: Side, book: Book, px: real)
    requires cfg.Valid()
    requires -cfg.grid <= 2.0 * (px - if side.Buy? then book.bid else book.ask) <= cfg.grid
    ensures !IsEntryOrderPriceStale(cfg, side, px, book) && !IsExitOrderPriceStale(cfg, posSide, side, px, book)
  {
    GridWithinTick(cfg);
    if cfg.entryStaleTicks > 0 { assert cfg.tick * (cfg.entryStaleTicks - 1) as real >= 0.0; }
    if cfg.exitStaleTicks > 0 { assert cfg.tick * (cfg.exitStaleTicks - 1) as real >= 0.0; }
  }

  /** The price limit leaves the quantized touch alone, or could not be fetched. */
  predicate LimitDoesNotBind(side: OrderSide, book: Book, limits: Option<Limits>, grid: real)
    requires grid > 0.0
  {
    limits.Some? ==>
      var touch := MakerPriceForSide(side, book, grid);
      if side.Buy? then touch <= limits.value.buyLmt else touch >= limits.value.sellLmt
  }

  /** A freshly resolved price whose limit does not bind, or could not be fetched, is never stale against the same
      book, for entries and exits alike. */
  lemma FreshPriceIsNotStale(cfg: Config, side: OrderSide, posSide: Side, book: Book, limits: Option<Limits>)
    requires cfg.Valid() && LimitDoesNotBind(side, book, limits, cfg.grid)
    ensures var px := ResolveMakerPrice(side, book, limits, cfg.grid);
            !IsEntryOrderPriceStale(cfg, side, px, book) && !IsExitOrderPriceStale(cfg, posSide, side, px, book)
  {
    hide Quantize, IsEntryOrderPriceStale, IsExitOrderPriceStale;
    if limits.Some? { ResolvedMakerPrice(side, book, limits.value, cfg.grid); }
    QuantizeIsNear(if side.Buy? then book.bid else book.ask, cfg.grid);
    NearTouchIsNotStale(cfg, side, posSide, book, ResolveMakerPrice(side, book, limits, cfg.grid));
  }

  /** The exit test looks the other way from the entry test. The code's comment promises "the exit order
      hangs far from touch", but an exit order on the passive side of the touch is never stale, however
      far away it hangs; it is stale exactly when it stands through the touch by more than the gap. */
  lemma ExitStalenessIsReversed(cfg: Config, posSide: Side, orderPrice: real, book: Book)
    requires cfg.exitStaleTicks > 0
    ensures var side := ExpectedExitSide(posSide);
            var behind := if side.Sell? then orderPrice - book.ask else book.bid - orderPrice;
            IsExitOrderPriceStale(cfg, posSide, side, orderPrice, book) <==>
                behind < -(cfg.tick * cfg.exitStaleTicks as real)
    ensures cfg.entryStaleTicks > 0 ==>
            var side := ExpectedExitSide(posSide);
            var behind := if side.Sell? then orderPrice - book.ask else book.bid - orderPrice;
            IsEntryOrderPriceStale(cfg, side, orderPrice, book) <==> behind > cfg.tick * cfg.entryStaleTicks as real
  {
  }
}
