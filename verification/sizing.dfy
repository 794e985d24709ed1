/** Spread and quantity arithmetic of bot.py: `round_down`,
    `calculate_spread`, `compute_amount_for_notional`,
    `match_base_exposure_per_exchange` and the amount guard of
    `safe_create_order`. Prices, amounts and spreads are exact reals. */
module Sizing {
  import opened Common

  /** The scanner reports a spread only above this many percent. */
  const SPREAD_FLOOR: real := 0.01

  /** `10 ** p`, the scale factor of `p` decimal places. */
  function Scale(p: nat): (f: real)
    ensures f >= 1.0
  {
    if p == 0 then 1.0 else 10.0 * Scale(p - 1)
  }

  /** One unit in the last decimal place of precision `p`. */
  function Step(p: nat): real {
    1.0 / Scale(p)
  }

  /** The largest multiple of `1/f` not above `v`. */
  function FloorTo(v: real, f: real): real
    requires f > 0.0
  {
    (v * f).Floor as real / f
  }

  /** `x` is a multiple of `1/f`. */
  predicate Grid(x: real, f: real)
    requires f > 0.0
  {
    (x * f).Floor as real == x * f
  }

  /** `round_down(value, precision)`: floor to `precision` decimal places;
      a missing precision leaves the value as it is. */
  function RoundDown(value: real, precision: Option<nat>): real {
    match precision
    case None => value
    case Some(p) => FloorTo(value, Scale(p))
  }

  /** `x` has at most `p` decimal places. */
  predicate OnGrid(x: real, p: nat) {
    Grid(x, Scale(p))
  }

  lemma MulLe(a: real, b: real, c: real)
    requires a <= b && c >= 0.0
    ensures a * c <= b * c
  {}

  lemma MulLt(a: real, b: real, c: real)
    requires a < b && c > 0.0
    ensures a * c < b * c
  {}

  lemma MulLtCancel(a: real, b: real, c: real)
    requires c > 0.0 && a * c < b * c
    ensures a < b
  {}

  lemma MulLeCancel(a: real, b: real, c: real)
    requires c > 0.0 && a * c <= b * c
    ensures a <= b
  {}

  lemma DivMul(a: real, c: real)
    requires c != 0.0
    ensures a / c * c == a
  {}

  lemma MulDiv(a: real, c: real)
    requires c != 0.0
    ensures a * c / c == a
  {}

  lemma MulMulDivDiv(a: real, k: real, c: real)
    requires k != 0.0 && c != 0.0
    ensures a * k * c / c / k == a
  {}

  lemma GridOfWhole(r: real, f: real, n: int)
    requires f > 0.0 && r * f == n as real
    ensures Grid(r, f)
  {}

  /** Flooring to a grid of step `1/f` lands on the grid, at most one step
      below the value. */
  lemma FloorToBounds(v: real, f: real)
    requires f > 0.0
    ensures FloorTo(v, f) <= v
    ensures (v - FloorTo(v, f)) * f < 1.0
    ensures FloorTo(v, f) * f == (v * f).Floor as real
    ensures Grid(FloorTo(v, f), f)
  {
    var n := (v * f).Floor;
    var r := FloorTo(v, f);
    DivMul(n as real, f);
    GridOfWhole(r, f, n);
    MulLeCancel(r, v, f);
  }

  lemma FloorToLargest(v: real, f: real, x: real)
    requires f > 0.0 && Grid(x, f) && x <= v
    ensures x <= FloorTo(v, f)
  {
    FloorToBounds(v, f);
    MulLe(x, v, f);
    assert (x * f).Floor <= (v * f).Floor;
    MulLeCancel(x, FloorTo(v, f), f);
  }

  lemma FloorToGridPoint(x: real, f: real)
    requires f > 0.0 && Grid(x, f)
    ensures FloorTo(x, f) == x
  {
    DivMul(x, f);
  }

  /** The floor lies below the value, less than one step below it, and on
      the grid of `p` decimal places. */
  lemma RoundDownBounds(value: real, p: nat)
    ensures RoundDown(value, Some(p)) <= value
    ensures value - RoundDown(value, Some(p)) < Step(p)
    ensures OnGrid(RoundDown(value, Some(p)), p)
  {
    var f := Scale(p);
    FloorToBounds(value, f);
    DivMul(1.0, f);
    MulLtCancel(value - RoundDown(value, Some(p)), Step(p), f);
  }

  /** Both cases of the precision at once: never above the value, and less
      than one step below it, on the grid, when the precision is known. */
  lemma RoundDownBelow(value: real, precision: Option<nat>)
    ensures RoundDown(value, precision) <= value
    ensures precision.Some? ==> value - RoundDown(value, precision) < Step(precision.value)
    ensures precision.Some? ==> OnGrid(RoundDown(value, precision), precision.value)
  {
    if precision.Some? { RoundDownBounds(value, precision.value); }
  }

  /** Every value with at most `p` decimals that does not exceed `value` is
      at most its floor: the floor is the largest such value. */
  lemma RoundDownIsLargestGridPoint(value: real, p: nat, x: real)
    requires OnGrid(x, p) && x <= value
    ensures x <= RoundDown(value, Some(p))
  {
    FloorToLargest(value, Scale(p), x);
  }

  /** Flooring a value that is already on the grid changes nothing. */
  lemma RoundDownOfGridPoint(x: real, p: nat)
    requires OnGrid(x, p)
    ensures RoundDown(x, Some(p)) == x
  {
    FloorToGridPoint(x, Scale(p));
  }

  /** Flooring twice is flooring once, which is why re-flooring an amount in
      `safe_create_order` is harmless. */
  lemma RoundDownIdempotent(value: real, precision: Option<nat>)
    ensures RoundDown(RoundDown(value, precision), precision) == RoundDown(value, precision)
  {
    if precision.Some? {
      RoundDownBounds(value, precision.value);
      RoundDownOfGridPoint(RoundDown(value, precision), precision.value);
    }
  }

  lemma RoundDownNonNegative(value: real, precision: Option<nat>)
    requires value >= 0.0
    ensures RoundDown(value, precision) >= 0.0
  {
    if precision.Some? {
      var f := Scale(precision.value);
      assert value * f >= 0.0;
    }
  }

  /** `calculate_spread`: the percentage by which the KuCoin bid exceeds the
      Binance ask, reported only when every price is non-zero, both Binance
      prices are positive and the spread is above 0.01%. A reported spread
      gives back the KuCoin bid from the Binance ask. */
  function CalculateSpread(binBid: real, binAsk: real, kuBid: real, kuAsk: real): (r: Option<real>)
    ensures r.Some? <==>
      binBid > 0.0 && binAsk > 0.0 && kuBid != 0.0 && kuAsk != 0.0 && kuBid - binAsk > binAsk * SPREAD_FLOOR / 100.0
    ensures r.Some? ==> r.value > SPREAD_FLOOR && kuBid == binAsk * (1.0 + r.value / 100.0)
  {
    if binBid == 0.0 || binAsk == 0.0 || kuBid == 0.0 || kuAsk == 0.0 || binAsk <= 0.0 || binBid <= 0.0 then None
    else
      var pos := PercentAbove(kuBid, binAsk);
      assert pos * binAsk == (kuBid - binAsk) * 100.0;
      if pos > SPREAD_FLOOR then Some(pos) else None
  }

  /** What ccxt's market description says about amounts: the precision in
      decimal places (if any) and the contract size, both at the top level and
      under `info`. */
  datatype Market = Market(amountPrecision: Option<nat>, contractSize: Option<real>, infoContractSize: Option<real>)

  function PrecisionOf(market: Option<Market>): Option<nat> {
    if market.Some? then market.value.amountPrecision else None
  }

  /** `contractSize or info.contractSize or 1.0`, and 1.0 without a market. */
  function ContractSizeOf(market: Option<Market>): (cs: real)
    ensures cs != 0.0
  {
    if market.Some? then OrElse(market.value.contractSize, OrElse(market.value.infoContractSize, 1.0)) else 1.0
  }

  /** The notional of a base amount at a price. */
  function BaseNotional(amount: real, price: real): real {
    amount * price
  }

  /** The notional of a contract count: contracts times contract size times
      price. */
  function ContractNotional(contracts: real, cs: real, price: real): real {
    contracts * cs * price
  }

  /** The four results of `compute_amount_for_notional`. */
  datatype Sizing = Sizing(amount: real, implied: real, contractSize: real, precision: Option<nat>)

  /** The unrounded size of `compute_amount_for_notional`: base units on
      Binance, contracts (base units over the contract size) on KuCoin. */
  function Units(venue: Venue, market: Option<Market>, desired: real, price: real): real
    requires price > 0.0
  {
    if venue == Binance then desired / price
    else if ContractSizeOf(market) != 0.0 then desired / price / ContractSizeOf(market)
    else desired / price
  }

  /** `compute_amount_for_notional` with trading enabled: a base amount on
      Binance, a contract count on KuCoin, floored to the market's precision,
      and the notional that amount implies; nothing for a non-positive price.
      The amount is on the precision grid and never costs more than the
      request; it falls short by less than one step when there is a
      precision, and not at all when there is none. */
  function ComputeAmountForNotional(venue: Venue, market: Option<Market>, desired: real, price: real): (s: Sizing)
    ensures s.contractSize == ContractSizeOf(market) && s.precision == PrecisionOf(market)
    ensures s.implied == ContractNotional(s.amount, s.contractSize, price)
    ensures price <= 0.0 ==> s.amount == 0.0
    ensures price > 0.0 && desired >= 0.0 && (venue == Binance || s.contractSize > 0.0) ==> s.amount >= 0.0
    ensures price > 0.0 && s.precision.Some? ==> OnGrid(s.amount, s.precision.value)
    ensures venue == Binance && price > 0.0 ==>
      && BaseNotional(s.amount, price) <= desired
      && (s.precision.Some? ==> desired - BaseNotional(s.amount, price) < Step(s.precision.value) * price)
      && (s.precision.None? ==> BaseNotional(s.amount, price) == desired)
    ensures venue == KuCoin && price > 0.0 && s.contractSize > 0.0 ==>
      && s.implied <= desired
      && (s.precision.Some? ==> desired - s.implied < Step(s.precision.value) * s.contractSize * price)
      && (s.precision.None? ==> s.implied == desired)
  {
    var cs, prec := ContractSizeOf(market), PrecisionOf(market);
    if price <= 0.0 then Sizing(0.0, 0.0, cs, prec)
    else
      var amt := RoundDown(Units(venue, market, desired, price), prec);
      SizedAmountFacts(venue == Binance, cs, prec, desired, price, amt);
      Sizing(amt, ContractNotional(amt, cs, price), cs, prec)
  }

  /** Scaling a floor gap by a positive factor. */
  lemma ScaleGap(x: real, a: real, k: real, step: real, total: real)
    requires k > 0.0 && a <= x && x * k == total
    ensures a * k <= total
    ensures x - a < step ==> total - a * k < step * k
  {
    MulLe(a, x, k);
    if x - a < step { MulLt(x - a, step, k); }
  }

  /** The facts behind `ComputeAmountForNotional`, over plain numbers:
      `amt` is the floored base amount (`base`) or contract count. */
  lemma SizedAmountFacts(base: bool, cs: real, prec: Option<nat>, desired: real, price: real, amt: real)
    requires price > 0.0 && cs != 0.0
    requires amt == RoundDown(if base then desired / price else desired / price / cs, prec)
    ensures prec.Some? ==> OnGrid(amt, prec.value)
    ensures desired >= 0.0 && (base || cs > 0.0) ==> amt >= 0.0
    ensures base ==>
      && BaseNotional(amt, price) <= desired
      && (prec.Some? ==> desired - BaseNotional(amt, price) < Step(prec.value) * price)
      && (prec.None? ==> BaseNotional(amt, price) == desired)
    ensures !base && cs > 0.0 ==>
      && ContractNotional(amt, cs, price) <= desired
      && (prec.Some? ==> desired - ContractNotional(amt, cs, price) < Step(prec.value) * cs * price)
      && (prec.None? ==> ContractNotional(amt, cs, price) == desired)
  {
    var x := if base then desired / price else desired / price / cs;
    if prec.Some? { RoundDownBounds(x, prec.value); }
    if desired >= 0.0 && (base || cs > 0.0) {
      assert desired / price >= 0.0;
      if !base { assert desired / price / cs >= 0.0; }
      RoundDownNonNegative(x, prec);
    }
    if base {
      BaseWithinNotional(desired, price, amt, prec);
    } else if cs > 0.0 {
      ContractsWithinNotional(desired, price, cs, amt, prec);
    }
  }

  /** A base amount floored from `desired / price` is worth at most
      `desired` at that price, less than one step below it, and exactly
      `desired` without a precision. */
  lemma BaseWithinNotional(desired: real, price: real, a: real, precision: Option<nat>)
    requires price > 0.0 && a == RoundDown(desired / price, precision)
    ensures BaseNotional(a, price) <= desired
    ensures precision.Some? ==> desired - BaseNotional(a, price) < Step(precision.value) * price
    ensures precision.None? ==> BaseNotional(a, price) == desired
  {
    RoundDownBelow(desired / price, precision);
    DivMul(desired, price);
    if precision.Some? {
      ScaleGap(desired / price, a, price, Step(precision.value), desired);
    } else {
      ScaleGap(desired / price, a, price, 0.0, desired);
    }
  }

  /** Contracts floored from `desired / price / cs` are worth at most
      `desired` at that price, and less than one step of contracts below. */
  lemma ContractsWithinNotional(desired: real, price: real, cs: real, c: real, precision: Option<nat>)
    requires price > 0.0 && cs > 0.0 && c == RoundDown(desired / price / cs, precision)
    ensures ContractNotional(c, cs, price) <= desired
    ensures precision.Some? ==> desired - ContractNotional(c, cs, price) < Step(precision.value) * cs * price
    ensures precision.None? ==> ContractNotional(c, cs, price) == desired
  {
    var base := desired / price;
    ContractsWithinBase(base, cs, c, precision);
    DivMul(desired, price);
    if precision.Some? {
      ScaleGap(base, c * cs, price, Step(precision.value) * cs, desired);
    } else {
      ScaleGap(base, c * cs, price, 0.0, desired);
    }
  }

  /** The amount guard of `safe_create_order`: recompute the amount, floor it
      again, and place no order unless it is positive. The second floor
      changes nothing, so an order goes out exactly when the computed amount
      is positive, and for that very amount. */
  function OrderAmount(venue: Venue, market: Option<Market>, notional: real, price: real): (r: Option<real>)
    ensures var s := ComputeAmountForNotional(venue, market, notional, price);
      r == if s.amount > 0.0 then Some(s.amount) else None
  {
    var s := ComputeAmountForNotional(venue, market, notional, price);
    var amt := if s.precision.Some? then RoundDown(s.amount, s.precision) else s.amount;
    assert amt == s.amount by {
      if price > 0.0 {
        RoundDownIdempotent(Units(venue, market, notional, price), s.precision);
      } else {
        RoundDownIdempotent(0.0, s.precision);
      }
    }
    if amt <= 0.0 then None else Some(amt)
  }

  /** The quantities `match_base_exposure_per_exchange` returns: the two
      notionals, the Binance base amount and the KuCoin contract count. */
  datatype Exposure = Exposure(notionalBin: real, notionalKc: real, binAmount: real, kcContracts: real)

  /** The reference price: the mean of the two prices when it is positive,
      else the first non-zero price, else 1.0. It is never zero. */
  function RefPrice(binPrice: real, kcPrice: real): (r: real)
    ensures r != 0.0
    ensures (binPrice + kcPrice) / 2.0 > 0.0 ==> r == (binPrice + kcPrice) / 2.0
    ensures (binPrice + kcPrice) / 2.0 <= 0.0 ==> r == binPrice || r == kcPrice || r == 1.0
  {
    var mean := (binPrice + kcPrice) / 2.0;
    if mean > 0.0 then mean
    else if binPrice != 0.0 then binPrice
    else if kcPrice != 0.0 then kcPrice
    else 1.0
  }

  /** The common base amount both legs aim at. */
  function TargetBase(desired: real, binPrice: real, kcPrice: real): real {
    desired / RefPrice(binPrice, kcPrice)
  }

  /** The Binance base amount before any fallback. */
  function InitialBinAmount(binMarket: Option<Market>, target: real): real {
    RoundDown(target, PrecisionOf(binMarket))
  }

  /** The target in KuCoin contracts: over the contract size when it is
      positive. */
  function TargetContracts(kcMarket: Option<Market>, target: real): real {
    if ContractSizeOf(kcMarket) > 0.0 then target / ContractSizeOf(kcMarket) else target
  }

  /** The KuCoin contract count before any fallback. */
  function InitialKcContracts(kcMarket: Option<Market>, target: real): real {
    RoundDown(TargetContracts(kcMarket, target), PrecisionOf(kcMarket))
  }

  /** `step_bin`: the notional of one Binance contract, or a thousandth of
      the request when the contract size or the price is zero. */
  function StepBin(binMarket: Option<Market>, desired: real, binPrice: real): real {
    if ContractSizeOf(binMarket) != 0.0 && binPrice != 0.0 then ContractSizeOf(binMarket) * binPrice else desired * 0.001
  }

  /** `step_kc`, the same for KuCoin. */
  function StepKc(kcMarket: Option<Market>, desired: real, kcPrice: real): real {
    if ContractSizeOf(kcMarket) != 0.0 && kcPrice != 0.0 then ContractSizeOf(kcMarket) * kcPrice else desired * 0.001
  }

  /** The unrounded Binance fallback, `step_bin / bin_price`. */
  function BinFallbackUnits(binMarket: Option<Market>, desired: real, binPrice: real): real
    requires binPrice != 0.0
  {
    StepBin(binMarket, desired, binPrice) / binPrice
  }

  /** The unrounded KuCoin fallback as written, `step_kc / kc_contract_size`,
      where `step_kc` is already the notional of one contract. */
  function KcFallbackUnits(kcMarket: Option<Market>, desired: real, kcPrice: real): real {
    if ContractSizeOf(kcMarket) != 0.0 then StepKc(kcMarket, desired, kcPrice) / ContractSizeOf(kcMarket)
    else StepKc(kcMarket, desired, kcPrice)
  }

  /** The Binance amount the matcher settles on: the floored target, or the
      floored fallback when the target floors to zero. */
  function MatchedBinAmount(binMarket: Option<Market>, desired: real, binPrice: real, target: real): real
    requires InitialBinAmount(binMarket, target) > 0.0 || binPrice != 0.0
  {
    if InitialBinAmount(binMarket, target) > 0.0 then InitialBinAmount(binMarket, target)
    else RoundDown(BinFallbackUnits(binMarket, desired, binPrice), PrecisionOf(binMarket))
  }

  /** The KuCoin contract count the matcher settles on. */
  function MatchedKcContracts(kcMarket: Option<Market>, desired: real, kcPrice: real, target: real): real {
    if InitialKcContracts(kcMarket, target) > 0.0 then InitialKcContracts(kcMarket, target)
    else RoundDown(KcFallbackUnits(kcMarket, desired, kcPrice), PrecisionOf(kcMarket))
  }

  /** `x` is at most `target` and, with a precision, less than one step of
      `unit` below it. */
  predicate WithinStepBelow(x: real, target: real, unit: real, prec: Option<nat>) {
    x <= target && (prec.Some? ==> target - x < Step(prec.value) * unit)
  }

  /** `c` contracts of size `cs` are worth at most `target` base units and,
      with a precision, less than one step of contracts below it. */
  predicate ContractsWithinStepBelow(c: real, cs: real, target: real, prec: Option<nat>) {
    WithinStepBelow(c * cs, target, cs, prec)
  }

  /** `match_base_exposure_per_exchange` with trading enabled. `None` is the
      ZeroDivisionError raised when the Binance side floors to zero and the
      Binance price is zero. Each notional is its leg's amount at its price;
      each amount is on its precision grid; a leg that does not fall back is
      at most the common target and within one step of it; a leg that falls
      back orders one contract (Binance) or, as written, `kc_price`
      contracts (KuCoin). */
  function MatchBaseExposure(binMarket: Option<Market>, kcMarket: Option<Market>, desired: real, binPrice: real, kcPrice: real)
    : (r: Option<Exposure>)
    ensures r.None? <==> binPrice == 0.0 && InitialBinAmount(binMarket, TargetBase(desired, binPrice, kcPrice)) <= 0.0
    ensures r.Some? ==> r.value.notionalBin == BaseNotional(r.value.binAmount, binPrice)
    ensures r.Some? ==> r.value.notionalKc == ContractNotional(r.value.kcContracts, ContractSizeOf(kcMarket), kcPrice)
    ensures r.Some? ==> RoundDown(r.value.binAmount, PrecisionOf(binMarket)) == r.value.binAmount
    ensures r.Some? ==> RoundDown(r.value.kcContracts, PrecisionOf(kcMarket)) == r.value.kcContracts
    ensures var t := TargetBase(desired, binPrice, kcPrice);
      r.Some? && InitialBinAmount(binMarket, t) > 0.0 ==> WithinStepBelow(r.value.binAmount, t, 1.0, PrecisionOf(binMarket))
    ensures var t := TargetBase(desired, binPrice, kcPrice);
      r.Some? && ContractSizeOf(kcMarket) > 0.0 && InitialKcContracts(kcMarket, t) > 0.0 ==>
        ContractsWithinStepBelow(r.value.kcContracts, ContractSizeOf(kcMarket), t, PrecisionOf(kcMarket))
    ensures var t := TargetBase(desired, binPrice, kcPrice);
      r.Some? && InitialBinAmount(binMarket, t) <= 0.0 ==>
        r.value.binAmount == RoundDown(ContractSizeOf(binMarket), PrecisionOf(binMarket))
    ensures var t := TargetBase(desired, binPrice, kcPrice);
      r.Some? && InitialKcContracts(kcMarket, t) <= 0.0 && kcPrice != 0.0 ==>
        r.value.kcContracts == RoundDown(kcPrice, PrecisionOf(kcMarket))
  {
    var t := TargetBase(desired, binPrice, kcPrice);
    if InitialBinAmount(binMarket, t) <= 0.0 && binPrice == 0.0 then None
    else
      var binAmount, kcContracts := MatchedBinAmount(binMarket, desired, binPrice, t), MatchedKcContracts(kcMarket, desired, kcPrice, t);
      MatchedLegFacts(binMarket, kcMarket, desired, binPrice, kcPrice, t);
      Some(Exposure(BaseNotional(binAmount, binPrice), ContractNotional(kcContracts, ContractSizeOf(kcMarket), kcPrice), binAmount, kcContracts))
  }

  /** The facts behind `MatchBaseExposure`, about the matched legs at a
      given target. */
  lemma MatchedLegFacts(binMarket: Option<Market>, kcMarket: Option<Market>, desired: real, binPrice: real, kcPrice: real, t: real)
    requires InitialBinAmount(binMarket, t) > 0.0 || binPrice != 0.0
    ensures RoundDown(MatchedBinAmount(binMarket, desired, binPrice, t), PrecisionOf(binMarket)) == MatchedBinAmount(binMarket, desired, binPrice, t)
    ensures RoundDown(MatchedKcContracts(kcMarket, desired, kcPrice, t), PrecisionOf(kcMarket)) == MatchedKcContracts(kcMarket, desired, kcPrice, t)
    ensures InitialBinAmount(binMarket, t) > 0.0 ==>
      WithinStepBelow(MatchedBinAmount(binMarket, desired, binPrice, t), t, 1.0, PrecisionOf(binMarket))
    ensures ContractSizeOf(kcMarket) > 0.0 && InitialKcContracts(kcMarket, t) > 0.0 ==>
      ContractsWithinStepBelow(MatchedKcContracts(kcMarket, desired, kcPrice, t), ContractSizeOf(kcMarket), t, PrecisionOf(kcMarket))
    ensures InitialBinAmount(binMarket, t) <= 0.0 ==>
      MatchedBinAmount(binMarket, desired, binPrice, t) == RoundDown(ContractSizeOf(binMarket), PrecisionOf(binMarket))
    ensures InitialKcContracts(kcMarket, t) <= 0.0 && kcPrice != 0.0 ==>
      MatchedKcContracts(kcMarket, desired, kcPrice, t) == RoundDown(kcPrice, PrecisionOf(kcMarket))
  {
    MatchedBinAmountIsFloored(binMarket, desired, binPrice, t);
    MatchedKcContractsAreFloored(kcMarket, desired, kcPrice, t);
    if InitialBinAmount(binMarket, t) > 0.0 {
      BinanceMatchWithinTarget(binMarket, desired, binPrice, t);
    } else {
      BinanceFallbackOrdersOneContract(binMarket, desired, binPrice);
    }
    if ContractSizeOf(kcMarket) > 0.0 && InitialKcContracts(kcMarket, t) > 0.0 {
      KucoinMatchWithinTarget(kcMarket, desired, kcPrice, t);
    }
    if kcPrice != 0.0 {
      KucoinFallbackOrdersPriceContracts(kcMarket, desired, kcPrice);
    }
  }

  /** When the Binance target does not floor to zero, the Binance leg holds
      at most the target base amount, within one precision step of it. */
  lemma BinanceMatchWithinTarget(binMarket: Option<Market>, desired: real, binPrice: real, target: real)
    requires InitialBinAmount(binMarket, target) > 0.0
    ensures MatchedBinAmount(binMarket, desired, binPrice, target) <= target
    ensures PrecisionOf(binMarket).Some? ==>
      target - MatchedBinAmount(binMarket, desired, binPrice, target) < Step(PrecisionOf(binMarket).value)
  {
    RoundDownBelow(target, PrecisionOf(binMarket));
  }

  /** When the KuCoin target does not floor to zero, the KuCoin contracts are
      worth at most the target base amount, within one step of contracts. */
  lemma KucoinMatchWithinTarget(kcMarket: Option<Market>, desired: real, kcPrice: real, target: real)
    requires ContractSizeOf(kcMarket) > 0.0 && InitialKcContracts(kcMarket, target) > 0.0
    ensures MatchedKcContracts(kcMarket, desired, kcPrice, target) * ContractSizeOf(kcMarket) <= target
    ensures PrecisionOf(kcMarket).Some? ==>
      target - MatchedKcContracts(kcMarket, desired, kcPrice, target) * ContractSizeOf(kcMarket)
      < Step(PrecisionOf(kcMarket).value) * ContractSizeOf(kcMarket)
  {
    ContractsWithinBase(target, ContractSizeOf(kcMarket), MatchedKcContracts(kcMarket, desired, kcPrice, target), PrecisionOf(kcMarket));
  }

  /** Contracts floored from `base / cs` are worth at most `base`, and less
      than one step of contracts below it. */
  lemma ContractsWithinBase(base: real, cs: real, c: real, precision: Option<nat>)
    requires cs > 0.0 && c == RoundDown(base / cs, precision)
    ensures c * cs <= base
    ensures precision.Some? ==> base - c * cs < Step(precision.value) * cs
    ensures precision.None? ==> c * cs == base
  {
    RoundDownBelow(base / cs, precision);
    DivMul(base, cs);
    if precision.Some? {
      ScaleGap(base / cs, c, cs, Step(precision.value), base);
    } else {
      ScaleGap(base / cs, c, cs, 0.0, base);
    }
  }

  /** As written, the KuCoin fallback divides `kc_contract_size * kc_price`
      by the contract size again, so it orders `kc_price` contracts (floored)
      rather than one contract. */
  lemma KucoinFallbackOrdersPriceContracts(kcMarket: Option<Market>, desired: real, kcPrice: real)
    requires kcPrice != 0.0
    ensures KcFallbackUnits(kcMarket, desired, kcPrice) == kcPrice
  {
    MulDiv(kcPrice, ContractSizeOf(kcMarket));
  }

  /** The Binance fallback orders one contract's worth of base amount. */
  lemma BinanceFallbackOrdersOneContract(binMarket: Option<Market>, desired: real, binPrice: real)
    requires binPrice != 0.0
    ensures BinFallbackUnits(binMarket, desired, binPrice) == ContractSizeOf(binMarket)
  {
    MulDiv(ContractSizeOf(binMarket), binPrice);
  }

  /** Matching equal base amounts at the mean price does not cap each leg's
      notional at the target: with $50, Binance at 100 and KuCoin at 106
      (three decimals, contract size 1) the KuCoin leg is worth $51.41. */
  lemma MatchedNotionalCanExceedTarget()
    ensures var m := Some(Market(Some(3), None, None));
      var r := MatchBaseExposure(m, m, 50.0, 100.0, 106.0);
      r.Some? && r.value.notionalKc > 50.0
  {
    var m := Some(Market(Some(3), None, None));
    assert Scale(3) == 1000.0;
    var target := TargetBase(50.0, 100.0, 106.0);
    assert target == 50.0 / 103.0;
    assert (target * 1000.0).Floor == 485 by {
      assert 485.0 <= target * 1000.0 < 486.0;
    }
    assert InitialKcContracts(m, target) == 0.485;
  }

  /** A Binance amount already floored to the market's precision survives
      the amount guard unchanged when it is ordered at its own notional. */
  lemma BinanceOrderOfFlooredAmount(market: Option<Market>, a: real, price: real)
    requires price > 0.0 && RoundDown(a, PrecisionOf(market)) == a
    ensures OrderAmount(Binance, market, BaseNotional(a, price), price) == if a > 0.0 then Some(a) else None
  {
    MulDiv(a, price);
    assert Units(Binance, market, BaseNotional(a, price), price) == a;
  }

  /** The same for a KuCoin contract count ordered at its own notional. */
  lemma KucoinOrderOfFlooredContracts(market: Option<Market>, c: real, price: real)
    requires price > 0.0 && RoundDown(c, PrecisionOf(market)) == c
    ensures OrderAmount(KuCoin, market, ContractNotional(c, ContractSizeOf(market), price), price) == if c > 0.0 then Some(c) else None
  {
    var cs := ContractSizeOf(market);
    MulMulDivDiv(c, cs, price);
    assert ContractNotional(c, cs, price) == c * cs * price;
    assert Units(KuCoin, market, c * cs * price, price) == c * cs * price / price / cs;
  }

  /** The Binance amount the matcher settles on is already floored to the
      market's precision. */
  lemma MatchedBinAmountIsFloored(binMarket: Option<Market>, desired: real, binPrice: real, target: real)
    requires InitialBinAmount(binMarket, target) > 0.0 || binPrice != 0.0
    ensures RoundDown(MatchedBinAmount(binMarket, desired, binPrice, target), PrecisionOf(binMarket))
      == MatchedBinAmount(binMarket, desired, binPrice, target)
  {
    RoundDownIdempotent(target, PrecisionOf(binMarket));
    if binPrice != 0.0 {
      RoundDownIdempotent(BinFallbackUnits(binMarket, desired, binPrice), PrecisionOf(binMarket));
    }
  }

  /** The KuCoin contract count the matcher settles on is already floored to
      the market's precision. */
  lemma MatchedKcContractsAreFloored(kcMarket: Option<Market>, desired: real, kcPrice: real, target: real)
    ensures RoundDown(MatchedKcContracts(kcMarket, desired, kcPrice, target), PrecisionOf(kcMarket))
      == MatchedKcContracts(kcMarket, desired, kcPrice, target)
  {
    RoundDownIdempotent(TargetContracts(kcMarket, target), PrecisionOf(kcMarket));
    RoundDownIdempotent(KcFallbackUnits(kcMarket, desired, kcPrice), PrecisionOf(kcMarket));
  }

  /** The Binance leg's amount guard gives back the matched amount. */
  lemma BinanceLegMatches(binMarket: Option<Market>, desired: real, binPrice: real, target: real)
    requires binPrice > 0.0
    ensures OrderAmount(Binance, binMarket, BaseNotional(MatchedBinAmount(binMarket, desired, binPrice, target), binPrice), binPrice)
      == if MatchedBinAmount(binMarket, desired, binPrice, target) > 0.0
         then Some(MatchedBinAmount(binMarket, desired, binPrice, target)) else None
  {
    MatchedBinAmountIsFloored(binMarket, desired, binPrice, target);
    BinanceOrderOfFlooredAmount(binMarket, MatchedBinAmount(binMarket, desired, binPrice, target), binPrice);
  }

  /** The KuCoin leg's amount guard gives back the matched contract count. */
  lemma KucoinLegMatches(kcMarket: Option<Market>, desired: real, kcPrice: real, target: real)
    requires kcPrice > 0.0
    ensures OrderAmount(KuCoin, kcMarket, ContractNotional(MatchedKcContracts(kcMarket, desired, kcPrice, target), ContractSizeOf(kcMarket), kcPrice), kcPrice)
      == if MatchedKcContracts(kcMarket, desired, kcPrice, target) > 0.0
         then Some(MatchedKcContracts(kcMarket, desired, kcPrice, target)) else None
  {
    MatchedKcContractsAreFloored(kcMarket, desired, kcPrice, target);
    KucoinOrderOfFlooredContracts(kcMarket, MatchedKcContracts(kcMarket, desired, kcPrice, target), kcPrice);
  }

  /** Both legs' amount guards give back the matched amounts: an order goes
      out on a leg exactly when its matched amount is positive, and for that
      amount. */
  predicate LegOrdersMatch(binMarket: Option<Market>, kcMarket: Option<Market>, binPrice: real, kcPrice: real, m: Exposure) {
    && OrderAmount(Binance, binMarket, m.notionalBin, binPrice) == (if m.binAmount > 0.0 then Some(m.binAmount) else None)
    && OrderAmount(KuCoin, kcMarket, m.notionalKc, kcPrice) == (if m.kcContracts > 0.0 then Some(m.kcContracts) else None)
  }

  /** Each leg's `safe_create_order` recomputes its amount from the matched
      notional and price; in exact arithmetic that gives back the matched
      amount. */
  lemma LegAmountsMatchMatcher(binMarket: Option<Market>, kcMarket: Option<Market>, desired: real, binPrice: real, kcPrice: real)
    requires binPrice > 0.0 && kcPrice > 0.0
    ensures MatchBaseExposure(binMarket, kcMarket, desired, binPrice, kcPrice).Some?
    ensures LegOrdersMatch(binMarket, kcMarket, binPrice, kcPrice, MatchBaseExposure(binMarket, kcMarket, desired, binPrice, kcPrice).value)
  {
    BinanceLegMatches(binMarket, desired, binPrice, TargetBase(desired, binPrice, kcPrice));
    KucoinLegMatches(kcMarket, desired, kcPrice, TargetBase(desired, binPrice, kcPrice));
  }
}
