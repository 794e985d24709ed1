/** The order decision of `close_all_and_wait` in bot.py: how a reported
    position becomes a reduce-only market order on its own venue. */
module Flatten {
  import opened Common
  import opened Sizing

  /** A Binance position as reported by `fetch_positions`, with the amount
      precision of its market (`None` when the market or its precision is
      missing). */
  datatype BinancePosition = BinancePosition(
    symbol: string,
    positionAmt: Option<real>,
    contracts: Option<real>,
    precision: Option<nat>)

  /** A KuCoin position: `currentQty` comes from the raw `info` record
      (`None` when it is missing or `info` is not a record); `size`,
      `contracts` and `positionAmt` are the unified fields. */
  datatype KucoinPosition = KucoinPosition(
    symbol: string,
    currentQty: Option<real>,
    size: Option<real>,
    contracts: Option<real>,
    positionAmt: Option<real>,
    side: string,
    precision: Option<nat>)

  /** The signed Binance amount: `positionAmt`, else `contracts`, else 0. */
  function BinanceSignedQty(p: BinancePosition): real {
    OrElse(p.positionAmt, OrElse(p.contracts, 0.0))
  }

  /** The unsigned size KuCoin reports when `currentQty` is missing or 0. */
  function KucoinSize(p: KucoinPosition): real {
    OrElse(p.size, OrElse(p.contracts, OrElse(p.positionAmt, 0.0)))
  }

  /** The signed KuCoin amount: `currentQty` when nonzero, else a positive
      size, negated for a `short` position; anything else counts as flat. */
  function KucoinSignedQty(p: KucoinPosition): (q: real)
    ensures OrElse(p.currentQty, 0.0) != 0.0 ==> q == OrElse(p.currentQty, 0.0)
    ensures OrElse(p.currentQty, 0.0) == 0.0 && KucoinSize(p) <= 0.0 ==> q == 0.0
    ensures OrElse(p.currentQty, 0.0) == 0.0 && KucoinSize(p) > 0.0 ==>
      Abs(q) == KucoinSize(p) && (q < 0.0 <==> p.side == "short")
  {
    var current := OrElse(p.currentQty, 0.0);
    if current != 0.0 then current
    else if KucoinSize(p) > 0.0 then (if p.side == "short" then -KucoinSize(p) else KucoinSize(p))
    else 0.0
  }

  /** The closing order for a signed position: the opposite side, the
      absolute amount floored to the market precision, and no order when
      the position is flat or floors to zero. */
  function CloseOrderFor(venue: Venue, symbol: string, signed: real, precision: Option<nat>): (r: Option<Order>)
    ensures r.Some? ==> r.value.venue == venue && r.value.symbol == symbol
    ensures r.Some? ==> 0.0 < r.value.qty <= Abs(signed)
    ensures r.Some? && precision.None? ==> r.value.qty == Abs(signed)
    ensures r.Some? && precision.Some? ==>
      OnGrid(r.value.qty, precision.value) && Abs(signed) - r.value.qty < Step(precision.value)
    ensures r.Some? ==> (r.value.side == Sell <==> signed > 0.0)
    ensures r.None? <==> RoundDown(Abs(signed), precision) <= 0.0
  {
    RoundDownBelow(Abs(signed), precision);
    if Abs(signed) > 0.0 then
      var qty := RoundDown(Abs(signed), precision);
      if qty > 0.0 then Some(Order(venue, symbol, if signed > 0.0 then Sell else Buy, qty)) else None
    else
      RoundDownNonNegative(Abs(signed), precision);
      None
  }

  /** The position left once a close order (or none) has filled. */
  function AfterClose(signed: real, o: Option<Order>): real {
    if o.None? then signed
    else if o.value.side == Sell then signed - o.value.qty
    else signed + o.value.qty
  }

  /** A close never reverses a position and leaves at most dust below one
      precision step; without a precision it closes the position exactly. */
  lemma CloseLeavesDust(venue: Venue, symbol: string, signed: real, precision: Option<nat>)
    ensures signed >= 0.0 ==> 0.0 <= AfterClose(signed, CloseOrderFor(venue, symbol, signed, precision)) <= signed
    ensures signed <= 0.0 ==> signed <= AfterClose(signed, CloseOrderFor(venue, symbol, signed, precision)) <= 0.0
    ensures precision.None? ==> AfterClose(signed, CloseOrderFor(venue, symbol, signed, precision)) == 0.0
    ensures precision.Some? ==> Abs(AfterClose(signed, CloseOrderFor(venue, symbol, signed, precision))) < Step(precision.value)
  {
    RoundDownBelow(Abs(signed), precision);
    if precision.Some? {
      RoundDownBounds(Abs(signed), precision.value);
    }
  }

  function BinanceCloseOrder(p: BinancePosition): Option<Order> {
    CloseOrderFor(Binance, p.symbol, BinanceSignedQty(p), p.precision)
  }

  function KucoinCloseOrder(p: KucoinPosition): Option<Order> {
    CloseOrderFor(KuCoin, p.symbol, KucoinSignedQty(p), p.precision)
  }

  /** The orders the Binance loop sends, in position order. */
  function BinanceCloseOrders(ps: seq<BinancePosition>): (os: seq<Order>)
    ensures |os| <= |ps|
  {
    if ps == [] then []
    else
      var rest := BinanceCloseOrders(ps[..|ps| - 1]);
      match BinanceCloseOrder(ps[|ps| - 1])
      case Some(o) => rest + [o]
      case None => rest
  }

  /** The orders the KuCoin loop sends, in position order. */
  function KucoinCloseOrders(ps: seq<KucoinPosition>): (os: seq<Order>)
    ensures |os| <= |ps|
  {
    if ps == [] then []
    else
      var rest := KucoinCloseOrders(ps[..|ps| - 1]);
      match KucoinCloseOrder(ps[|ps| - 1])
      case Some(o) => rest + [o]
      case None => rest
  }

  /** Every Binance order closes a reported position, and every reported
      position that needs closing gets its order. */
  lemma {:induction false} BinanceOrdersMatchPositions(ps: seq<BinancePosition>)
    ensures forall o :: o in BinanceCloseOrders(ps) ==> exists p :: p in ps && BinanceCloseOrder(p) == Some(o)
    ensures forall p :: p in ps && BinanceCloseOrder(p).Some? ==> BinanceCloseOrder(p).value in BinanceCloseOrders(ps)
  {
    if ps != [] {
      var init := ps[..|ps| - 1];
      BinanceOrdersMatchPositions(init);
      assert forall p :: p in init ==> p in ps;
      assert forall p :: p in ps ==> p == ps[|ps| - 1] || p in init;
    }
  }

  /** The same for the KuCoin orders. */
  lemma {:induction false} KucoinOrdersMatchPositions(ps: seq<KucoinPosition>)
    ensures forall o :: o in KucoinCloseOrders(ps) ==> exists p :: p in ps && KucoinCloseOrder(p) == Some(o)
    ensures forall p :: p in ps && KucoinCloseOrder(p).Some? ==> KucoinCloseOrder(p).value in KucoinCloseOrders(ps)
  {
    if ps != [] {
      var init := ps[..|ps| - 1];
      KucoinOrdersMatchPositions(init);
      assert forall p :: p in init ==> p in ps;
      assert forall p :: p in ps ==> p == ps[|ps| - 1] || p in init;
    }
  }
}
