/** Values shared by every part of the bot: optional values, the two venues,
    order sides, price snapshots and the orders the bot sends. */
module Common {

  /** A value that may be missing (Python's `None`). */
  datatype Option<+T> = None | Some(value: T)

  /** The two exchanges the bot trades on. */
  datatype Venue = Binance | KuCoin

  /** The side of a market order. */
  datatype Side = Buy | Sell

  /** The best bid and ask of one symbol on one venue. */
  datatype Tick = Tick(bid: real, ask: real)

  /** One poll of both venues for one symbol: Binance bid/ask, KuCoin bid/ask. */
  datatype Quote = Quote(binBid: real, binAsk: real, kuBid: real, kuAsk: real)

  /** A market order handed to an exchange. */
  datatype Order = Order(venue: Venue, symbol: string, side: Side, qty: real)

  /** A tick a price fetcher can return: the fetchers give back
      `(None, None)` unless both prices are positive. */
  predicate Live(t: Tick) {
    t.bid > 0.0 && t.ask > 0.0
  }

  /** The price fetchers give back `(None, None)` unless both prices are
      positive, so a poll is usable exactly when all four prices are positive. */
  predicate Positive(q: Quote) {
    q.binBid > 0.0 && q.binAsk > 0.0 && q.kuBid > 0.0 && q.kuAsk > 0.0
  }

  /** A poll of the feed that returned four prices (`all([b_bid, b_ask, k_bid, k_ask])`). */
  predicate Usable(p: Option<Quote>) {
    p.Some? && Positive(p.value)
  }

  /** Python's `a or b` on an optional number: `a` unless it is missing or zero. */
  function OrElse(a: Option<real>, b: real): real {
    if a.Some? && a.value != 0.0 then a.value else b
  }

  /** By how many percent `ku` exceeds `bin`, the formula every spread of
      the bot uses. */
  function PercentAbove(ku: real, bin: real): real
    requires bin != 0.0
  {
    (ku - bin) / bin * 100.0
  }

  function Abs(x: real): real {
    if x < 0.0 then -x else x
  }
}
