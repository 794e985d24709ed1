/** The single-trade life cycle of bot.py: `trade_lock`, the `active_trade`
    record, `attempt_entry_and_trade`, `monitor_exit_for_active_trade` and
    the `closing_in_progress` flag of `close_all_and_wait`. The pure
    transitions `Entry`, `Exit` and `CloseAll` specify the methods of
    `TradeEngine`, which update the same state in place. */
module Lifecycle {
  import opened Common
  import opened Sizing
  import opened Flatten
  import opened Debounce

  /** The USD notional each entry aims at. */
  const NOTIONAL: real := 50.0
  /** The default `timeout_s` of `close_all_and_wait`. */
  const CLOSE_TIMEOUT: real := 20.0

  /** A pair of prices, one per venue. */
  datatype Prices = Prices(binance: real, kucoin: real)

  /** What the exchanges report when asked: the two markets traded and the
      open positions `fetch_positions` returns on each venue. */
  datatype Venues = Venues(
    binMarket: Option<Market>,
    kcMarket: Option<Market>,
    binPositions: seq<BinancePosition>,
    kcPositions: seq<KucoinPosition>)

  /** What `safe_create_order` reports for an order that went out: success
      and the executed price, if one could be found. */
  datatype Reply = Reply(ok: bool, price: Option<real>)

  datatype AttemptResult =
    | Skipped          // the lock was already held
    | StillConfirming  // the feed ran out before a decision
    | Abandoned        // the spread fell below the abort threshold
    | Entered          // both legs filled; the trade is recorded
    | Flattened        // a leg failed; everything was closed
    | Failed           // the entry spread could not be computed (zero Binance fill price)

  datatype MonitorResult =
    | NoTrade          // no symbol recorded; the lock is released
    | StillOpen        // the feed ran out before the exit fired
    | TradeClosed      // the exit fired; everything was closed and reset
    | MonitorFailed    // the record has no entry prices

  /** The state the two procedures share: the lock, the closing flag, the
      fields of `active_trade` (the trigger time and the monitor thread
      left out) and every order sent so far. */
  datatype EngineState = EngineState(
    locked: bool,
    closingInProgress: bool,
    symbol: Option<string>,
    kuSym: Option<string>,
    positionCase: Option<string>,
    entryPrices: Option<Prices>,
    entryBasis: Option<real>,
    triggerPrices: Option<Prices>,
    entryConfirmCount: nat,
    exitConfirmCount: nat,
    sent: seq<Order>)

  /** The orders of one `close_all_and_wait`: Binance first, then KuCoin. */
  function CloseOrders(v: Venues): seq<Order> {
    BinanceCloseOrders(v.binPositions) + KucoinCloseOrders(v.kcPositions)
  }

  /** `close_all_and_wait` on the state: the close orders go out and the
      closing flag is down again on return. */
  function CloseAll(s: EngineState, v: Venues): EngineState {
    s.(closingInProgress := false, sent := s.sent + CloseOrders(v))
  }

  /** The `finally` of `attempt_entry_and_trade`: the lock is released
      unless a trade was recorded. */
  function Finally(s: EngineState): EngineState {
    if s.symbol.None? then s.(locked := false) else s
  }

  /** `active_trade` reset after an exit, with the lock released. */
  function Cleared(s: EngineState): EngineState {
    s.(locked := false, symbol := None, kuSym := None, positionCase := None, entryPrices := None,
       entryBasis := None, triggerPrices := None, entryConfirmCount := 0, exitConfirmCount := 0)
  }

  /** The matched exposure at the trigger prices: Binance ask, KuCoin bid. */
  function Matched(v: Venues, q: Quote): Exposure
    requires q.binAsk > 0.0
  {
    MatchBaseExposure(v.binMarket, v.kcMarket, NOTIONAL, q.binAsk, q.kuBid).value
  }

  /** The KuCoin leg: sell the KuCoin notional at the KuCoin bid. */
  function KcLegOrder(kuSym: string, v: Venues, q: Quote): Option<Order>
    requires q.binAsk > 0.0
  {
    var amt := OrderAmount(KuCoin, v.kcMarket, Matched(v, q).notionalKc, q.kuBid);
    if amt.Some? then Some(Order(KuCoin, kuSym, Sell, amt.value)) else None
  }

  /** The Binance leg: buy the Binance notional at the Binance ask. */
  function BinLegOrder(sym: string, v: Venues, q: Quote): Option<Order>
    requires q.binAsk > 0.0
  {
    var amt := OrderAmount(Binance, v.binMarket, Matched(v, q).notionalBin, q.binAsk);
    if amt.Some? then Some(Order(Binance, sym, Buy, amt.value)) else None
  }

  function OrderList(o: Option<Order>): seq<Order> {
    if o.Some? then [o.value] else []
  }

  /** What a leg reports: the exchange's reply if an order went out, a
      failure if the amount guard stopped it. */
  function Fill(o: Option<Order>, reply: Reply): Reply {
    if o.Some? then reply else Reply(false, None)
  }

  predicate Succeeded(kc: Reply, bin: Reply) {
    kc.ok && bin.ok && kc.price.Some? && bin.price.Some?
  }

  /** The spread of a pair of prices (a Binance and a KuCoin price), in
      percent of the Binance price: the spread obtained at the fills, or the
      spread at the trigger prices. */
  function SpreadOf(p: Prices): real
    requires p.binance != 0.0
  {
    PercentAbove(p.kucoin, p.binance)
  }

  /** The profit basis of a trade: the lesser of the obtained and the
      triggering spread. */
  function EntryBasis(realSpread: real, triggerSpread: real): (b: real)
    ensures b <= realSpread && b <= triggerSpread
    ensures b == realSpread || b == triggerSpread
  {
    if realSpread >= triggerSpread then triggerSpread else realSpread
  }

  /** The execution after three confirmations at the trigger quote `q`,
      with the two leg orders (each `None` when its amount guard stopped
      it): both go out, then the trade is recorded if both filled with
      prices, and everything is closed otherwise. The lock is still held;
      `Finally` follows. */
  function Execute(s: EngineState, sym: string, kuSym: string, q: Quote, kcOrder: Option<Order>, binOrder: Option<Order>,
                   v: Venues, kcReply: Reply, binReply: Reply): (EngineState, AttemptResult)
    requires Positive(q)
  {
    var s1 := s.(sent := s.sent + OrderList(kcOrder) + OrderList(binOrder));
    var kc, bin := Fill(kcOrder, kcReply), Fill(binOrder, binReply);
    if !Succeeded(kc, bin) then (CloseAll(s1, v), Flattened)
    else if bin.price.value == 0.0 then (s1, Failed)
    else
      (Recorded(s1, sym, kuSym, Prices(bin.price.value, kc.price.value), q), Entered)
  }

  /** The trade record written once both legs filled: the symbols, the
      fill prices, the conservative entry basis and the trigger prices,
      with the confirmation counters reset. */
  function Recorded(s: EngineState, sym: string, kuSym: string, fills: Prices, q: Quote): EngineState
    requires fills.binance != 0.0 && Positive(q)
  {
    s.(symbol := Some(sym), kuSym := Some(kuSym), positionCase := Some("caseA"), entryPrices := Some(fills),
       entryBasis := Some(EntryBasis(SpreadOf(fills), EntrySpread(q))),
       triggerPrices := Some(Prices(q.binAsk, q.kuBid)), entryConfirmCount := 0, exitConfirmCount := 0)
  }

  /** The entry legs carry the matcher's amounts: the KuCoin leg sells the
      matched contract count and the Binance leg buys the matched base
      amount, each only when that amount is positive. */
  lemma EntryLegsAreMatched(sym: string, kuSym: string, v: Venues, q: Quote)
    requires Positive(q)
    ensures KcLegOrder(kuSym, v, q) ==
      if Matched(v, q).kcContracts > 0.0 then Some(Order(KuCoin, kuSym, Sell, Matched(v, q).kcContracts)) else None
    ensures BinLegOrder(sym, v, q) ==
      if Matched(v, q).binAmount > 0.0 then Some(Order(Binance, sym, Buy, Matched(v, q).binAmount)) else None
  {
    LegAmountsMatchMatcher(v.binMarket, v.kcMarket, NOTIONAL, q.binAsk, q.kuBid);
  }

  /** `attempt_entry_and_trade` over the polls of `feed`: skipped when the
      lock is held; otherwise the lock is taken, the entry loop runs, and
      the outcome decides what is sent and whether the lock stays held. */
  function Entry(s: EngineState, sym: string, kuSym: string, feed: seq<Option<Quote>>, v: Venues, kcReply: Reply, binReply: Reply)
    : (EngineState, AttemptResult)
  {
    if s.locked then (s, Skipped)
    else
      var held := s.(locked := true);
      match EntryAfter(feed)
      case Confirming(_) => (held, StillConfirming)
      case Aborted(_) => (Finally(held), Abandoned)
      case Fired(k) =>
        FiredAfterThreeHighs(feed);
        var q := feed[k].value;
        var (t, r) := Execute(held, sym, kuSym, q, KcLegOrder(kuSym, v, q), BinLegOrder(sym, v, q), v, kcReply, binReply);
        (Finally(t), r)
  }

  /** The Binance entry price the exit spread is measured against. */
  function EntryBin(s: EngineState): real {
    if s.entryPrices.Some? then s.entryPrices.value.binance else 0.0
  }

  predicate AnyUsable(feed: seq<Option<Quote>>) {
    exists j :: 0 <= j < |feed| && Usable(feed[j])
  }

  /** `monitor_exit_for_active_trade` over the polls of `feed`: with no
      symbol it only releases the lock; otherwise the exit loop runs from
      the stored count, and when it fires everything is closed, the record
      is reset and the lock released. */
  function Exit(s: EngineState, feed: seq<Option<Quote>>, v: Venues): (EngineState, MonitorResult) {
    if s.symbol.None? || s.symbol.value == "" then (s.(locked := false), NoTrade)
    else if s.entryPrices.None? && AnyUsable(feed) then (s.(locked := false), MonitorFailed)
    else
      match ExitAfter(s.exitConfirmCount, OrElse(s.entryBasis, 0.0), EntryBin(s), feed)
      case Open(c) => (s.(exitConfirmCount := c), StillOpen)
      case Closed(_) => (Cleared(CloseAll(s, v)), TradeClosed)
  }

  /** The state between calls: a recorded trade has a name and holds the lock, the
      record's fields are all set or all unset, the counters are in range,
      and the basis is never above the triggering spread. */
  predicate Valid(s: EngineState) {
    && !s.closingInProgress
    && (s.symbol.Some? ==> s.symbol.value != "" && s.locked)
    && (s.symbol.Some? <==> s.kuSym.Some?)
    && (s.symbol.Some? <==> s.positionCase.Some?)
    && (s.symbol.Some? <==> s.entryPrices.Some?)
    && (s.symbol.Some? <==> s.entryBasis.Some?)
    && (s.symbol.Some? <==> s.triggerPrices.Some?)
    && s.entryConfirmCount == 0
    && s.exitConfirmCount < CONFIRMATIONS
    && (s.symbol.None? ==> s.exitConfirmCount == 0)
    && (s.symbol.Some? ==>
          s.entryPrices.value.binance != 0.0 && s.triggerPrices.value.binance > 0.0 &&
          s.entryBasis.value <= SpreadOf(s.triggerPrices.value))
  }

  /** The state at start-up: nothing recorded, lock free, nothing sent. */
  function Initial(): (s: EngineState)
    ensures Valid(s) && !s.locked && s.sent == []
  {
    EngineState(false, false, None, None, None, None, None, None, 0, 0, [])
  }

  /** Entry attempts for a named symbol keep the state valid. */
  lemma EntryKeepsValid(s: EngineState, sym: string, kuSym: string, feed: seq<Option<Quote>>, v: Venues, kcReply: Reply, binReply: Reply)
    requires Valid(s) && sym != ""
    ensures Valid(Entry(s, sym, kuSym, feed, v, kcReply, binReply).0)
  {
    if !s.locked && EntryAfter(feed).Fired? {
      FiredAfterThreeHighs(feed);
    }
  }

  /** So does the exit monitor. */
  lemma ExitKeepsValid(s: EngineState, feed: seq<Option<Quote>>, v: Venues)
    requires Valid(s)
    ensures Valid(Exit(s, feed, v).0)
  {
  }

  /** The lock discipline of an entry attempt: with the lock held nothing
      happens; otherwise the lock stays held exactly when a trade was
      recorded or the attempt is still confirming, and a recorded trade is
      the one asked for. */
  lemma EntryLockDiscipline(s: EngineState, sym: string, kuSym: string, feed: seq<Option<Quote>>, v: Venues, kcReply: Reply, binReply: Reply)
    requires Valid(s)
    ensures s.locked ==> Entry(s, sym, kuSym, feed, v, kcReply, binReply) == (s, Skipped)
    ensures !s.locked ==>
      var (t, r) := Entry(s, sym, kuSym, feed, v, kcReply, binReply);
      (t.locked <==> r == Entered || r == StillConfirming) &&
      (t.symbol.Some? <==> r == Entered) &&
      (r == Entered ==> t.symbol == Some(sym) && t.kuSym == Some(kuSym))
  {
    if !s.locked && EntryAfter(feed).Fired? {
      FiredAfterThreeHighs(feed);
    }
  }

  /** Orders go out only after three consecutive polls at the entry spread
      with no poll below the abort threshold before them; an abandoned or
      unfinished attempt sends nothing. */
  lemma OrdersOnlyAfterThreeHighs(s: EngineState, sym: string, kuSym: string, feed: seq<Option<Quote>>, v: Venues, kcReply: Reply, binReply: Reply)
    ensures var (t, r) := Entry(s, sym, kuSym, feed, v, kcReply, binReply);
      r == Skipped || r == StillConfirming || r == Abandoned ==> t.sent == s.sent
    ensures Entry(s, sym, kuSym, feed, v, kcReply, binReply).0.sent != s.sent ==>
      EntryAfter(feed).Fired? &&
      var k := EntryAfter(feed).at;
      2 <= k && High(feed[k - 2]) && High(feed[k - 1]) && High(feed[k]) &&
      forall j :: 0 <= j <= k ==> !Low(feed[j])
  {
    if EntryAfter(feed).Fired? {
      FiredAfterThreeHighs(feed);
    }
  }

  /** A recorded trade has both legs' fill prices, the trigger prices, and
      as profit basis the lesser of the obtained and the trigger spread. */
  lemma EnteredBasisIsConservative(s: EngineState, sym: string, kuSym: string, feed: seq<Option<Quote>>, v: Venues, kcReply: Reply, binReply: Reply)
    requires Entry(s, sym, kuSym, feed, v, kcReply, binReply).1 == Entered
    ensures EntryAfter(feed).Fired? && High(feed[EntryAfter(feed).at])
    ensures var t := Entry(s, sym, kuSym, feed, v, kcReply, binReply).0;
      var q := feed[EntryAfter(feed).at].value;
      kcReply.ok && binReply.ok && kcReply.price.Some? && binReply.price.Some? && binReply.price.value != 0.0 &&
      t.entryPrices == Some(Prices(binReply.price.value, kcReply.price.value)) &&
      t.triggerPrices == Some(Prices(q.binAsk, q.kuBid)) &&
      t.entryBasis.Some? &&
      t.entryBasis.value <= EntrySpread(q) &&
      t.entryBasis.value <= SpreadOf(t.entryPrices.value) &&
      (t.entryBasis.value == EntrySpread(q) || t.entryBasis.value == SpreadOf(t.entryPrices.value))
  {
    FiredAfterThreeHighs(feed);
  }

  /** When a leg fails, both legs' orders are followed by the close orders,
      nothing is recorded and the lock is released. */
  lemma FailedLegsCloseAll(s: EngineState, sym: string, kuSym: string, feed: seq<Option<Quote>>, v: Venues, kcReply: Reply, binReply: Reply)
    requires Valid(s)
    requires Entry(s, sym, kuSym, feed, v, kcReply, binReply).1 == Flattened
    ensures EntryAfter(feed).Fired? && High(feed[EntryAfter(feed).at])
    ensures var t := Entry(s, sym, kuSym, feed, v, kcReply, binReply).0;
      var q := feed[EntryAfter(feed).at].value;
      t.sent == s.sent + OrderList(KcLegOrder(kuSym, v, q)) + OrderList(BinLegOrder(sym, v, q)) + CloseOrders(v) &&
      !t.locked && t.symbol.None? && !t.closingInProgress
  {
    FiredAfterThreeHighs(feed);
  }

  /** Once the entry fires, the legs' replies decide the outcome: the
      trade is recorded exactly when both legs filled with prices and the
      Binance fill price is not zero, everything is closed exactly when a
      leg failed or its amount guard stopped it, and the attempt fails on
      the division by a zero Binance fill price otherwise. */
  lemma EntryOutcomeOfLegs(s: EngineState, sym: string, kuSym: string, feed: seq<Option<Quote>>, v: Venues, kcReply: Reply, binReply: Reply)
    requires !s.locked && EntryAfter(feed).Fired?
    ensures Usable(feed[EntryAfter(feed).at])
    ensures var q := feed[EntryAfter(feed).at].value;
      var kcOrder, binOrder := KcLegOrder(kuSym, v, q), BinLegOrder(sym, v, q);
      var kc, bin := Fill(kcOrder, kcReply), Fill(binOrder, binReply);
      var r := Entry(s, sym, kuSym, feed, v, kcReply, binReply).1;
      && (r == Flattened <==> !Succeeded(kc, bin))
      && (r == Entered <==> Succeeded(kc, bin) && bin.price.value != 0.0)
      && (r == Failed <==> Succeeded(kc, bin) && bin.price.value == 0.0)
      && (kcOrder.None? || binOrder.None? || !kcReply.ok || !binReply.ok ==> r == Flattened)
      && (kcOrder.Some? && binOrder.Some? ==> (r == Entered <==> Succeeded(kcReply, binReply) && binReply.price.value != 0.0))
  {
    FiredAfterThreeHighs(feed);
  }

  /** While a trade is open, entry attempts are skipped and an
      unfinished exit monitor keeps the lock and the record. */
  lemma OpenTradeHoldsLock(s: EngineState, sym: string, kuSym: string, feed: seq<Option<Quote>>, v: Venues, kcReply: Reply, binReply: Reply)
    requires Valid(s) && s.symbol.Some?
    ensures Entry(s, sym, kuSym, feed, v, kcReply, binReply).1 == Skipped
    ensures Exit(s, feed, v).1 == StillOpen ==>
      Exit(s, feed, v).0.locked && Exit(s, feed, v).0.symbol == s.symbol && Exit(s, feed, v).0.sent == s.sent
  {
  }

  /** The exit fires only at a poll meeting the exit condition, once the
      plain count of such polls since the last miss reaches three; it then
      sends the close orders, clears the record and releases the lock. */
  lemma ExitClosesAndReleases(s: EngineState, feed: seq<Option<Quote>>, v: Venues)
    requires Exit(s, feed, v).1 == TradeClosed
    ensures var basis, bin := OrElse(s.entryBasis, 0.0), EntryBin(s);
      var out := ExitAfter(s.exitConfirmCount, basis, bin, feed);
      out.Closed? && Meets(basis, bin, feed[out.at]) &&
      ExitCount(s.exitConfirmCount, basis, bin, feed[..out.at + 1]) >= CONFIRMATIONS
    ensures var t := Exit(s, feed, v).0;
      !t.locked && t.symbol.None? && t.kuSym.None? && t.positionCase.None? && t.entryPrices.None? &&
      t.entryBasis.None? && t.triggerPrices.None? && t.entryConfirmCount == 0 && t.exitConfirmCount == 0 &&
      !t.closingInProgress && t.sent == s.sent + CloseOrders(v)
  {
    ExitClosesOnThirdMeet(s.exitConfirmCount, OrElse(s.entryBasis, 0.0), EntryBin(s), feed);
  }

  /** The bot's two procedures over the shared `active_trade` record. */
  class TradeEngine {
    var locked: bool
    var closingInProgress: bool
    var symbol: Option<string>
    var kuSym: Option<string>
    var positionCase: Option<string>
    var entryPrices: Option<Prices>
    var entryBasis: Option<real>
    var triggerPrices: Option<Prices>
    var entryConfirmCount: nat
    var exitConfirmCount: nat
    var sent: seq<Order>

    function State(): EngineState
      reads this
    {
      EngineState(locked, closingInProgress, symbol, kuSym, positionCase, entryPrices, entryBasis,
                  triggerPrices, entryConfirmCount, exitConfirmCount, sent)
    }

    constructor ()
      ensures State() == Initial()
    {
      locked, closingInProgress := false, false;
      symbol, kuSym, positionCase := None, None, None;
      entryPrices, entryBasis, triggerPrices := None, None, None;
      entryConfirmCount, exitConfirmCount := 0, 0;
      sent := [];
    }

    /** `close_all_and_wait`: raise the flag, send a reduce-only close
        order for every open position, lower the flag; the wait reports
        success whenever the timeout is positive. */
    method CloseAllAndWait(v: Venues, timeoutS: real) returns (allClosed: bool)
      modifies this
      ensures State() == CloseAll(old(State()), v)
      ensures allClosed == (timeoutS > 0.0)
    {
      closingInProgress := true;
      var bin := v.binPositions;
      var binOrders: seq<Order> := [];
      var i := 0;
      while i < |bin|
        invariant 0 <= i <= |bin|
        invariant binOrders == BinanceCloseOrders(bin[..i])
      {
        assert bin[..i + 1][..i] == bin[..i];
        var o := BinanceCloseOrder(bin[i]);
        if o.Some? {
          binOrders := binOrders + [o.value];
        }
        i := i + 1;
      }
      assert bin[..i] == bin;
      var kc := v.kcPositions;
      var kcOrders: seq<Order> := [];
      var j := 0;
      while j < |kc|
        invariant 0 <= j <= |kc|
        invariant kcOrders == KucoinCloseOrders(kc[..j])
      {
        assert kc[..j + 1][..j] == kc[..j];
        var o := KucoinCloseOrder(kc[j]);
        if o.Some? {
          kcOrders := kcOrders + [o.value];
        }
        j := j + 1;
      }
      assert kc[..j] == kc;
      sent := sent + binOrders + kcOrders;
      allClosed := timeoutS > 0.0;
      closingInProgress := false;
    }

    /** The `finally` block: release the lock unless a trade is recorded. */
    method ReleaseUnlessRecorded()
      modifies this
      ensures State() == Finally(old(State()))
    {
      if symbol.None? {
        locked := false;
      }
    }

    /** Records an entered trade. */
    method RecordEntry(sym: string, kuSym: string, fills: Prices, q: Quote)
      requires fills.binance != 0.0 && Positive(q)
      modifies this
      ensures State() == Recorded(old(State()), sym, kuSym, fills, q)
    {
      symbol, this.kuSym, positionCase := Some(sym), Some(kuSym), Some("caseA");
      entryPrices := Some(fills);
      entryBasis := Some(EntryBasis(SpreadOf(fills), EntrySpread(q)));
      triggerPrices := Some(Prices(q.binAsk, q.kuBid));
      entryConfirmCount, exitConfirmCount := 0, 0;
    }

    /** The two legs and the bookkeeping after three confirmations. */
    method ExecuteEntry(sym: string, kuSym: string, q: Quote, kcOrder: Option<Order>, binOrder: Option<Order>,
                        v: Venues, kcReply: Reply, binReply: Reply) returns (r: AttemptResult)
      requires Positive(q)
      modifies this
      ensures (State(), r) == Execute(old(State()), sym, kuSym, q, kcOrder, binOrder, v, kcReply, binReply)
    {
      sent := sent + OrderList(kcOrder) + OrderList(binOrder);
      var kc, bin := Fill(kcOrder, kcReply), Fill(binOrder, binReply);
      if !Succeeded(kc, bin) {
        var _ := CloseAllAndWait(v, CLOSE_TIMEOUT);
        r := Flattened;
      } else if bin.price.value == 0.0 {
        r := Failed;
      } else {
        RecordEntry(sym, kuSym, Prices(bin.price.value, kc.price.value), q);
        r := Entered;
      }
    }

    /** `attempt_entry_and_trade` over the polls of `feed`. */
    method AttemptEntry(sym: string, kuSym: string, feed: seq<Option<Quote>>, v: Venues, kcReply: Reply, binReply: Reply)
      returns (r: AttemptResult)
      modifies this
      ensures (State(), r) == Entry(old(State()), sym, kuSym, feed, v, kcReply, binReply)
    {
      if locked {
        return Skipped;
      }
      locked := true;
      var count: nat := 0;
      var i := 0;
      while i < |feed|
        invariant 0 <= i <= |feed|
        invariant EntryAfter(feed[..i]) == Confirming(count)
        invariant State() == old(State()).(locked := true)
      {
        assert feed[..i + 1][..i] == feed[..i];
        var p := feed[i];
        if !Usable(p) {
          count := 0;
        } else {
          var spread := EntrySpread(p.value);
          if spread < ENTRY_ABORT_THRESHOLD {
            EntryDecisionIsFinal(feed, i + 1);
            ReleaseUnlessRecorded();
            return Abandoned;
          }
          if spread >= ENTRY_SPREAD {
            count := count + 1;
          } else {
            count := 0;
          }
          if count == CONFIRMATIONS {
            EntryDecisionIsFinal(feed, i + 1);
            var q := p.value;
            var kcOrder, binOrder := KcLegOrder(kuSym, v, q), BinLegOrder(sym, v, q);
            r := ExecuteEntry(sym, kuSym, q, kcOrder, binOrder, v, kcReply, binReply);
            ReleaseUnlessRecorded();
            return;
          }
        }
        i := i + 1;
      }
      assert feed[..i] == feed;
      r := StillConfirming;
    }

    /** Taking the trade off: close everything, reset every field of the
        record and release the lock. */
    method CloseTrade(v: Venues)
      modifies this
      ensures State() == Cleared(CloseAll(old(State()), v))
    {
      var _ := CloseAllAndWait(v, CLOSE_TIMEOUT);
      symbol, kuSym, positionCase := None, None, None;
      entryPrices, entryBasis, triggerPrices := None, None, None;
      entryConfirmCount, exitConfirmCount := 0, 0;
      locked := false;
    }

    /** `monitor_exit_for_active_trade` over the polls of `feed`. */
    method MonitorExit(feed: seq<Option<Quote>>, v: Venues) returns (r: MonitorResult)
      modifies this
      ensures (State(), r) == Exit(old(State()), feed, v)
    {
      if symbol.None? || symbol.value == "" {
        locked := false;
        return NoTrade;
      }
      var basis := OrElse(entryBasis, 0.0);
      var entryBin := EntryBin(State());
      var i := 0;
      while i < |feed|
        invariant 0 <= i <= |feed|
        invariant ExitAfter(old(exitConfirmCount), basis, entryBin, feed[..i]) == Open(exitConfirmCount)
        invariant State() == old(State()).(exitConfirmCount := exitConfirmCount)
        invariant entryPrices.None? ==> exitConfirmCount == old(exitConfirmCount)
        invariant entryPrices.None? ==> forall j :: 0 <= j < i ==> !Usable(feed[j])
      {
        assert feed[..i + 1][..i] == feed[..i];
        var p := feed[i];
        if Usable(p) {
          if entryPrices.None? {
            locked := false;
            return MonitorFailed;
          }
          if ExitCondition(basis, entryBin, p.value) {
            exitConfirmCount := exitConfirmCount + 1;
            if exitConfirmCount >= CONFIRMATIONS {
              ExitDecisionIsFinal(old(exitConfirmCount), basis, entryBin, feed, i + 1);
              CloseTrade(v);
              return TradeClosed;
            }
          } else {
            exitConfirmCount := 0;
          }
        }
        i := i + 1;
      }
      assert feed[..i] == feed;
      r := StillOpen;
    }
  }
}
