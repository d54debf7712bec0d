/** accounting/fee_engine.py: fees and average prices from the exchange's fills, or from configured rates. */
module FeeEngine {
  import opened Common

  datatype ExecType = MakerFill | TakerFill | Unlabelled

  datatype OkxFill = OkxFill(px: real, sz: real, fee: real, ccy: string, execType: ExecType)

  datatype Liquidity = Maker | Taker

  datatype FeeBreakdown = FeeBreakdown(
    entryFee: real, exitFee: real, totalFee: real,
    ccy: Option<string>, entryLiquidity: Option<Liquidity>, exitLiquidity: Option<Liquidity>,
    entryAvgPx: Option<real>, exitAvgPx: Option<real>, fromFills: bool)

  function LiquidityLabel(e: ExecType): Option<Liquidity> {
    match e
    case MakerFill => Some(Maker)
    case TakerFill => Some(Taker)
    case Unlabelled => None
  }

  // ---------------------------------------------------------------- what the sums are

  function Sum(fills: seq<OkxFill>, amount: OkxFill -> real): real {
    if fills == [] then 0.0 else Sum(fills[..|fills| - 1], amount) + amount(fills[|fills| - 1])
  }

  function FeeOf(f: OkxFill): real { Abs(f.fee) }

  function ValueOf(f: OkxFill): real { f.px * f.sz }

  function SizeOf(f: OkxFill): real { f.sz }

  function TotalFee(fills: seq<OkxFill>): real { Sum(fills, FeeOf) }

  function Notional(fills: seq<OkxFill>): real { Sum(fills, ValueOf) }

  function Size(fills: seq<OkxFill>): real { Sum(fills, SizeOf) }

  function CountLabel(fills: seq<OkxFill>, l: Liquidity): nat {
    if fills == [] then 0
    else CountLabel(fills[..|fills| - 1], l) + if LiquidityLabel(fills[|fills| - 1].execType) == Some(l) then 1 else 0
  }

  /** The label seen first, which Python's `max` over the counting dictionary prefers on a tie. */
  function FirstLabel(fills: seq<OkxFill>): Option<Liquidity> {
    if fills == [] then None
    else
      var before := FirstLabel(fills[..|fills| - 1]);
      if before.Some? then before else LiquidityLabel(fills[|fills| - 1].execType)
  }

  /** Volume-weighted average price, undefined when no quantity was filled. */
  function Vwap(fills: seq<OkxFill>): Option<real> {
    if Size(fills) > 0.0 then Some(Notional(fills) / Size(fills)) else None
  }

  function FirstCcy(fills: seq<OkxFill>): Option<string> {
    if fills == [] then None
    else
      var before := FirstCcy(fills[..|fills| - 1]);
      if before.Some? && before.value != "" then before else Some(fills[|fills| - 1].ccy)
  }

  /** It is the first currency that is not empty; an empty one comes back only when none is named. */
  lemma {:induction false} FirstCcyIs(fills: seq<OkxFill>)
    ensures FirstCcy(fills).None? <==> fills == []
    ensures fills != [] ==>
              var c := FirstCcy(fills).value;
              if c == "" then forall k :: 0 <= k < |fills| ==> fills[k].ccy == ""
              else exists k :: 0 <= k < |fills| && fills[k].ccy == c && forall j :: 0 <= j < k ==> fills[j].ccy == ""
  {
    if fills != [] {
      var rest := fills[..|fills| - 1];
      FirstCcyIs(rest);
      if rest != [] && FirstCcy(rest).value != "" {
        var c := FirstCcy(rest).value;
        var k :| 0 <= k < |rest| && rest[k].ccy == c && forall j :: 0 <= j < k ==> rest[j].ccy == "";
        assert fills[k].ccy == c && forall j :: 0 <= j < k ==> fills[j] == rest[j];
      } else {
        assert forall j :: 0 <= j < |rest| ==> fills[j] == rest[j];
        assert fills[|rest|].ccy == FirstCcy(fills).value;
      }
    }
  }

  /** The most frequent liquidity label; on a tie the one that came first. */
  function MainLiquidity(fills: seq<OkxFill>): Option<Liquidity> {
    var m, t := CountLabel(fills, Maker), CountLabel(fills, Taker);
    if m > t then Some(Maker) else if t > m then Some(Taker) else FirstLabel(fills)
  }

  lemma {:induction false} FirstLabelIsCounted(fills: seq<OkxFill>)
    ensures FirstLabel(fills).None? <==> CountLabel(fills, Maker) == 0 && CountLabel(fills, Taker) == 0
    ensures FirstLabel(fills).Some? ==> CountLabel(fills, FirstLabel(fills).value) > 0
  {
    if fills != [] { FirstLabelIsCounted(fills[..|fills| - 1]); }
  }

  /** `_sum_fills`: one pass over the fills with running totals and an insertion-ordered count dictionary. */
  method SumFills(fills: seq<OkxFill>)
    returns (totalFee: real, ccy: Option<string>, liquidity: Option<Liquidity>, avgPx: Option<real>)
    ensures totalFee == TotalFee(fills)
    ensures ccy == FirstCcy(fills)
    ensures liquidity == MainLiquidity(fills)
    ensures avgPx == Vwap(fills)
  {
    totalFee, ccy, liquidity, avgPx := 0.0, None, None, None;
    if fills == [] { return; }
    var counts: map<Liquidity, nat>, keys: seq<Liquidity> := map[], [];
    var notional, size := 0.0, 0.0;
    for i := 0 to |fills|
      invariant totalFee == TotalFee(fills[..i]) && notional == Notional(fills[..i]) && size == Size(fills[..i])
      invariant ccy == FirstCcy(fills[..i])
      invariant forall l :: (l in counts <==> l in keys) && (l in counts <==> CountLabel(fills[..i], l) > 0)
      invariant forall l :: l in counts ==> counts[l] == CountLabel(fills[..i], l)
      invariant FirstLabel(fills[..i]) == if keys == [] then None else Some(keys[0])
    {
      var fill := fills[i];
      assert fills[..i + 1][..i] == fills[..i];
      FirstLabelIsCounted(fills[..i]);
      totalFee := totalFee + Abs(fill.fee);
      ccy := if ccy.Some? && ccy.value != "" then ccy else Some(fill.ccy);
      var kind := LiquidityLabel(fill.execType);
      if kind.Some? {
        if kind.value !in counts { keys := keys + [kind.value]; }
        counts := counts[kind.value := (if kind.value in counts then counts[kind.value] else 0) + 1];
      }
      notional := notional + fill.px * fill.sz;
      size := size + fill.sz;
    }
    assert fills[..|fills|] == fills;
    if keys != [] {
      var best := keys[0];
      var other := if best.Maker? then Taker else Maker;
      if other in counts && counts[other] > counts[best] { best := other; }
      liquidity := Some(best);
    }
    avgPx := if size > 0.0 then Some(notional / size) else None;
  }

  // ---------------------------------------------------------------- properties of the aggregation

  lemma {:induction false} SumIsAdditive(a: seq<OkxFill>, b: seq<OkxFill>, amount: OkxFill -> real)
    ensures Sum(a + b, amount) == Sum(a, amount) + Sum(b, amount)
  {
    if b == [] {
      assert a + b == a;
    } else {
      var n := |b| - 1;
      assert (a + b)[..|a + b| - 1] == a + b[..n];
      SumIsAdditive(a, b[..n], amount);
    }
  }

  lemma SumWithoutFill(b: seq<OkxFill>, k: nat, amount: OkxFill -> real)
    requires k < |b|
    ensures Sum(b, amount) == Sum(b[..k] + b[k + 1..], amount) + amount(b[k])
  {
    assert b == b[..k + 1] + b[k + 1..];
    assert b[..k + 1][..k] == b[..k];
    SumIsAdditive(b[..k + 1], b[k + 1..], amount);
    SumIsAdditive(b[..k], b[k + 1..], amount);
  }

  lemma MultisetWithoutFill(b: seq<OkxFill>, k: nat)
    requires k < |b|
    ensures multiset(b[..k] + b[k + 1..]) == multiset(b) - multiset{b[k]}
  {
    assert b == b[..k] + [b[k]] + b[k + 1..];
  }

  lemma {:induction false} SumIgnoresOrder(a: seq<OkxFill>, b: seq<OkxFill>, amount: OkxFill -> real)
    requires multiset(a) == multiset(b)
    ensures Sum(a, amount) == Sum(b, amount)
    decreases |a|
  {
    if a == [] {
      assert |multiset(b)| == |b|;
    } else {
      var n := |a| - 1;
      assert a[n] in multiset(b);
      var k :| 0 <= k < |b| && b[k] == a[n];
      MultisetWithoutFill(a, n);
      MultisetWithoutFill(b, k);
      SumWithoutFill(b, k, amount);
      assert a[..n] + a[n + 1..] == a[..n];
      SumIgnoresOrder(a[..n], b[..k] + b[k + 1..], amount);
    }
  }

  /** Splitting the fills of an order changes no total, and the order in which the exchange lists them
      changes neither fee nor size nor average price. */
  lemma AggregationIsOrderFree(a: seq<OkxFill>, b: seq<OkxFill>, c: seq<OkxFill>)
    requires multiset(c) == multiset(a + b)
    ensures TotalFee(c) == TotalFee(a) + TotalFee(b)
    ensures Size(c) == Size(a) + Size(b)
    ensures Notional(c) == Notional(a) + Notional(b)
    ensures Vwap(c) == Vwap(a + b)
  {
    SumIgnoresOrder(c, a + b, FeeOf); SumIsAdditive(a, b, FeeOf);
    SumIgnoresOrder(c, a + b, ValueOf); SumIsAdditive(a, b, ValueOf);
    SumIgnoresOrder(c, a + b, SizeOf); SumIsAdditive(a, b, SizeOf);
  }

  lemma QuotientBetween(lo: real, hi: real, n: real, d: real)
    requires d > 0.0 && lo * d <= n <= hi * d
    ensures lo <= n / d <= hi
  {
    var v := n / d;
    assert v * d == n;
    assert v < lo ==> (lo - v) * d > 0.0;
    assert v > hi ==> (v - hi) * d > 0.0;
  }

  lemma OneMoreFillBetween(f: OkxFill, lo: real, hi: real, n: real, d: real)
    requires f.sz >= 0.0 && lo <= f.px <= hi && lo * d <= n <= hi * d
    ensures lo * (d + f.sz) <= n + f.px * f.sz <= hi * (d + f.sz)
  {
    assert (f.px - lo) * f.sz >= 0.0 && (hi - f.px) * f.sz >= 0.0;
  }

  ghost predicate PricedWithin(fills: seq<OkxFill>, lo: real, hi: real) {
    forall i :: 0 <= i < |fills| ==> fills[i].sz >= 0.0 && lo <= fills[i].px <= hi
  }

  lemma {:induction false} NotionalIsBetween(fills: seq<OkxFill>, lo: real, hi: real)
    requires PricedWithin(fills, lo, hi)
    ensures lo * Size(fills) <= Notional(fills) <= hi * Size(fills)
  {
    if fills != [] {
      var rest := fills[..|fills| - 1];
      NotionalIsBetween(rest, lo, hi);
      OneMoreFillBetween(fills[|fills| - 1], lo, hi, Notional(rest), Size(rest));
    }
  }

  /** The average lies between the cheapest and the dearest fill. */
  lemma VwapIsBetween(fills: seq<OkxFill>, lo: real, hi: real)
    requires PricedWithin(fills, lo, hi) && Size(fills) > 0.0
    ensures Vwap(fills).Some? && lo <= Vwap(fills).value <= hi
  {
    NotionalIsBetween(fills, lo, hi);
    QuotientBetween(lo, hi, Notional(fills), Size(fills));
  }

  // ---------------------------------------------------------------- breakdowns

  function FeesFromOkxFills(entryFills: seq<OkxFill>, exitFills: seq<OkxFill>): FeeBreakdown {
    var e, x := TotalFee(entryFills), TotalFee(exitFills);
    var entryCcy := FirstCcy(entryFills);
    FeeBreakdown(e, x, e + x,
      if entryCcy.Some? && entryCcy.value != "" then entryCcy else FirstCcy(exitFills),
      MainLiquidity(entryFills), MainLiquidity(exitFills), Vwap(entryFills), Vwap(exitFills), true)
  }

  function LegFee(px: real, size: real, rate: real): real { px * size * rate }

  /** `market` says which leg was a market order: it pays the taker rate. */
  function EstimateFees(entryPx: real, exitPx: real, size: real, entryMarket: bool, exitMarket: bool, makerRate: real,
                        takerRate: real): FeeBreakdown {
    var e := LegFee(entryPx, size, if entryMarket then takerRate else makerRate);
    var x := LegFee(exitPx, size, if exitMarket then takerRate else makerRate);
    FeeBreakdown(e, x, e + x, Some("USDT"),
      Some(if entryMarket then Taker else Maker), Some(if exitMarket then Taker else Maker),
      Some(entryPx), Some(exitPx), false)
  }

  /** `resolve_fee_breakdown` (execution/trade_finalize.py): fills when the exchange lists any for either
      leg, the configured estimate when it lists none, cannot list them, or the fetch fails. */
  function ResolveFees(fills: Reply<(seq<OkxFill>, seq<OkxFill>)>, estimate: FeeBreakdown): FeeBreakdown {
    if fills.Ok? && (fills.value.0 != [] || fills.value.1 != []) then FeesFromOkxFills(fills.value.0, fills.value.1)
    else estimate
  }

  ghost predicate ChargedAt(fills: seq<OkxFill>, rate: real) {
    forall f :: f in fills ==> Abs(f.fee) == rate * f.px * f.sz
  }

  lemma {:induction false} FeeIsRateTimesNotional(fills: seq<OkxFill>, rate: real)
    requires ChargedAt(fills, rate)
    ensures TotalFee(fills) == rate * Notional(fills)
  {
    if fills != [] {
      var n := |fills| - 1;
      FeeIsRateTimesNotional(fills[..n], rate);
      assert rate * Notional(fills) == rate * Notional(fills[..n]) + rate * (fills[n].px * fills[n].sz);
    }
  }

  predicate Labelled(fills: seq<OkxFill>, l: Liquidity) {
    forall i :: 0 <= i < |fills| ==> LiquidityLabel(fills[i].execType) == Some(l)
  }

  lemma {:induction false} LabelsCount(fills: seq<OkxFill>, l: Liquidity)
    requires Labelled(fills, l)
    ensures CountLabel(fills, l) == |fills|
    ensures CountLabel(fills, if l.Maker? then Taker else Maker) == 0
  {
    if fills != [] { LabelsCount(fills[..|fills| - 1], l); }
  }

  /** A leg whose fills all carry the label of its order type gets that label from the fills and from the estimate. */
  lemma LiquidityRefinesEstimate(entryFills: seq<OkxFill>, exitFills: seq<OkxFill>, entryPx: real, exitPx: real,
                                 size: real, entryMarket: bool, exitMarket: bool, makerRate: real, takerRate: real)
    requires entryFills != [] && Labelled(entryFills, if entryMarket then Taker else Maker)
    requires exitFills != [] && Labelled(exitFills, if exitMarket then Taker else Maker)
    ensures var f := FeesFromOkxFills(entryFills, exitFills);
            var e := EstimateFees(entryPx, exitPx, size, entryMarket, exitMarket, makerRate, takerRate);
            f.entryLiquidity == e.entryLiquidity && f.exitLiquidity == e.exitLiquidity
  {
    LabelsCount(entryFills, if entryMarket then Taker else Maker);
    LabelsCount(exitFills, if exitMarket then Taker else Maker);
  }

  lemma LegFeeAtAverage(fills: seq<OkxFill>, size: real, rate: real)
    requires size > 0.0 && Size(fills) == size && ChargedAt(fills, rate)
    ensures Vwap(fills).Some? && LegFee(Vwap(fills).value, size, rate) == TotalFee(fills)
  {
    FeeIsRateTimesNotional(fills, rate);
    var v := Notional(fills) / size;
    assert v * size == Notional(fills);
  }

  /** The estimate is refined by the fills: when each fill was charged at the configured rate of its leg
      and both legs filled `size`, the two breakdowns agree on every amount and average price. */
  lemma FillsRefineEstimate(entryFills: seq<OkxFill>, exitFills: seq<OkxFill>, size: real, entryMarket: bool,
                            exitMarket: bool, makerRate: real, takerRate: real)
    requires size > 0.0 && Size(entryFills) == size && Size(exitFills) == size
    requires ChargedAt(entryFills, if entryMarket then takerRate else makerRate)
    requires ChargedAt(exitFills, if exitMarket then takerRate else makerRate)
    ensures var f := FeesFromOkxFills(entryFills, exitFills);
            && f.entryAvgPx.Some? && f.exitAvgPx.Some?
            && var e := EstimateFees(f.entryAvgPx.value, f.exitAvgPx.value, size, entryMarket, exitMarket, makerRate,
                takerRate);
               && f.entryFee == e.entryFee && f.exitFee == e.exitFee && f.totalFee == e.totalFee
               && f.entryAvgPx == e.entryAvgPx && f.exitAvgPx == e.exitAvgPx
  {
    LegFeeAtAverage(entryFills, size, if entryMarket then takerRate else makerRate);
    LegFeeAtAverage(exitFills, size, if exitMarket then takerRate else makerRate);
  }
}
