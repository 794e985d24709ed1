# Spread-arbitrage bot core, modelled in Dafny

This project models the decision logic of `bot.py`, a bot that watches
perpetual futures on Binance and KuCoin for a positive spread (KuCoin bid
above Binance ask). When it finds one, it buys on Binance and sells on
KuCoin with matched base exposure, and it takes the trade off once enough
of the spread has been captured. Every price, exchange answer and clock
reading is an input of the model. The model proves properties of what the
bot does with those inputs.

The modules follow the program's parts:

- `Common` (common.dfy): options, venues, sides, quotes and orders.
- `Symbols` (symbols.dfy): `normalize`, and the pairing of the two symbol
  lists in `get_common_symbols`.
- `Sizing` (sizing.dfy): `round_down`, `calculate_spread`,
  `compute_amount_for_notional`, the amount guard of `safe_create_order`,
  and `match_base_exposure_per_exchange`.
- `Flatten` (flatten.dfy): how `close_all_and_wait` turns each reported
  position into a reduce-only close order.
- `Debounce` (debounce.dfy): the confirmation counters.
  - Entry needs three consecutive polls at 5% or more, and any poll below
    2% abandons the attempt.
  - Exit needs three polls meeting the exit condition: captured spread of
    at least 2.5%, or an exit spread within 0.02 of zero.
- `Lifecycle` (lifecycle.dfy): `trade_lock`, the `active_trade` record,
  `attempt_entry_and_trade`, `monitor_exit_for_active_trade` and the
  `closing_in_progress` flag.
  - The pure transitions `Entry`, `Exit` and `CloseAll` are the
    specification.
  - The class `TradeEngine` updates the same fields in place, and each of
    its methods is proved equal to its transition.
- `Scanner` (scanner.dfy): the bookkeeping of the scanner loop in `main`.
  - A candidate is shortlisted at a spread of 0.25% or more.
  - Each candidate tracks its maximum and minimum spread.
  - A symbol may alert again only after a 60-second cooldown.
  - An alert is confirmed by one of two fast rechecks.
  - The window ends with a summary of the extremes.

A feed of price polls is a sequence of `Option<Quote>`. `None` is a fetch
that failed. A quote counts only when all four prices are positive,
because the price fetchers return nothing otherwise. The same holds for
the ticks of a scanner round and of a recheck. The Binance book of the
start-of-window snapshot is taken as it is, without that filter, as in
the source.

Two behaviours of the code are modelled as written and proved as lemmas:

- **KuCoin fallback.** When the KuCoin target floors to zero, the fallback
  divides `kc_contract_size * kc_price` by the contract size again. It
  therefore orders `kc_price` contracts, where the Binance side orders one
  contract (`KucoinFallbackOrdersPriceContracts`).
- **Notional not capped.** Matching equal base amounts at the mean price
  does not cap a leg's notional at the $50 target
  (`MatchedNotionalCanExceedTarget`).

## Model

| member | source | states |
|---|---|---|
| Symbols.NormalizeDropsAtMostLast | bot.py:76-86 | the name is the upper-cased symbol, less its last character exactly when it ends in `M` (which covers `USDTM`) or `USDTP` |
| Symbols.KucoinAndBinanceNamesMeet | bot.py:76-86 | a KuCoin `<base>USDTM` contract and a Binance `<base>USDT` contract get the same name `<BASE>USDT` |
| Symbols.ScanUpToKeys | bot.py:131-136 | after any prefix of the KuCoin list, the map's keys are exactly the names seen |
| Symbols.ScanUpToValues | bot.py:131-136 | each key maps to the first KuCoin symbol carrying that name |
| Symbols.ScanUpToCountsDuplicates | bot.py:131-136 | the counter equals the number of later, different symbols whose name was already taken |
| Symbols.KeepFirst | bot.py:129-136 | the loop over the KuCoin symbols: keys are all names, each maps to its first symbol, and the counter counts the duplicates |
| Symbols.CommonSymbols | bot.py:125-139 | the common names are the intersection of both venues' normalised names; every common name has a KuCoin symbol that normalises to it, and it is the first such symbol |
| Symbols.DupCountZeroIffInjective | bot.py:129-137 | the duplicate count is zero exactly when no two different KuCoin symbols share a name |
| Sizing.RoundDownBounds | bot.py:302-305 | with a precision, the floored value is at most the value, less than one step below it, and on the precision grid |
| Sizing.RoundDownBelow | bot.py:302-305 | for any precision or none, the floored value never exceeds the value, and with a precision it is on the grid and less than one step below it |
| Sizing.RoundDownIsLargestGridPoint | bot.py:302-305 | every grid point at or below the value is at or below its floor |
| Sizing.RoundDownOfGridPoint | bot.py:302-305 | a value already on the grid is left unchanged |
| Sizing.RoundDownIdempotent | bot.py:302-305 | flooring twice is flooring once |
| Sizing.RoundDownNonNegative | bot.py:302-305 | a non-negative value floors to a non-negative value |
| Sizing.CalculateSpread | bot.py:223-235 | a spread is reported exactly when all prices are non-zero, the Binance prices are positive, and the KuCoin bid beats the Binance ask by more than 0.01%; the reported spread turns the Binance ask back into the KuCoin bid |
| Sizing.ContractSizeOf | bot.py:313-318 | the contract size read from a market is never zero (it falls back to 1) |
| Sizing.ComputeAmountForNotional | bot.py:307-330 | a non-positive price gives nothing; otherwise the amount is on the precision grid and not negative for a non-negative request; on Binance the base amount never costs more than the request, falls short of it by less than one step with a precision and matches it exactly without one; on KuCoin (positive contract size) the same holds for the implied notional of the contracts, with one step of contracts |
| Sizing.OrderAmount | bot.py:406-412 | the guard's second floor changes nothing: an order goes out exactly when the computed amount is positive, and for that amount |
| Sizing.RefPrice | bot.py:471-475 | the reference price is the mean when that is positive, else one of the prices or 1, and is never zero |
| Sizing.MatchBaseExposure | bot.py:450-505 | the matcher fails (the division by a zero Binance price) exactly when the Binance target floors to zero and the Binance price is zero; otherwise each notional is its leg's amount (times the contract size on KuCoin) at its price, each amount is on its precision grid, a leg that does not fall back is at most the common target base amount and within one step of it, and a leg that falls back orders one contract on Binance and, as written, `kc_price` contracts on KuCoin |
| Sizing.BinanceMatchWithinTarget | bot.py:477-479 | when the Binance target does not floor to zero, the Binance leg is at most the target base amount and within one step of it |
| Sizing.KucoinMatchWithinTarget | bot.py:481-485 | when the KuCoin target does not floor to zero, the KuCoin contracts are worth at most the target base amount, and within one step of contracts of it |
| Sizing.BinanceFallbackOrdersOneContract | bot.py:490-496 | the Binance fallback, before flooring, is one contract's base amount |
| Sizing.KucoinFallbackOrdersPriceContracts | bot.py:497-503 | the KuCoin fallback, before flooring, is `kc_price` contracts |
| Sizing.MatchedNotionalCanExceedTarget | bot.py:471-488 | with $50, Binance at 100, KuCoin at 106 and three decimals, the KuCoin leg's notional exceeds $50 |
| Sizing.MatchedBinAmountIsFloored | bot.py:479-495 | the matched Binance amount is already on its precision grid |
| Sizing.MatchedKcContractsAreFloored | bot.py:481-502 | the matched KuCoin contract count is already on its precision grid |
| Sizing.LegAmountsMatchMatcher | bot.py:716-724 | at positive prices the matcher succeeds, and each leg's amount guard gives back exactly the matched amount (an order only when it is positive) |
| Flatten.KucoinSignedQty | bot.py:598-605 | a non-zero `currentQty` is used as is; otherwise a positive size is taken, negative exactly for a `short` position; anything else is flat |
| Flatten.CloseOrderFor | bot.py:573-580 | the close order is on the position's venue and symbol, sells exactly a long position, is positive and at most the position, and is absent exactly when the floored size is zero; its quantity is the whole position without a precision, and with one it is on the precision grid and less than one step below the position, which makes it the position floored to the precision |
| Flatten.CloseLeavesDust | bot.py:606-613 | a close never reverses the position; without a precision it closes it exactly, with one it leaves less than one step |
| Flatten.BinanceOrdersMatchPositions | bot.py:572-585 | every Binance close order comes from a reported position, and every position that needs closing gets its order |
| Flatten.KucoinOrdersMatchPositions | bot.py:596-618 | the same for KuCoin |
| Debounce.EntryStep | bot.py:683-710 | a failed fetch or a middling spread resets the count; a spread below 2% aborts; a spread at 5% counts, and fires on the third count |
| Debounce.EntryAfter | bot.py:675-710 | while undecided the count stays below three; a decision names a poll of the feed |
| Debounce.EntryCountIsHighStreak | bot.py:675-710 | while undecided, the count is the run of high polls at the end of the feed, and no poll so far was low |
| Debounce.EntryDecisionIsFinal | bot.py:698-711 | once the attempt fires or aborts, later polls change nothing |
| Debounce.FiredAfterThreeHighs | bot.py:677-710 | the entry fires only at the third of three consecutive high polls, with no low poll up to it |
| Debounce.AbortedAtFirstLow | bot.py:698-701 | the attempt is abandoned at the first low poll, and only there |
| Debounce.ThreeHighsFire | bot.py:677-710 | conversely, three consecutive high polls with no earlier low poll fire the entry, at the third of them at the latest |
| Debounce.ExitStep | bot.py:790-833 | a failed fetch changes nothing; a poll that misses the condition resets the count; closing happens exactly at a meeting poll that brings the count to three |
| Debounce.ExitAfter | bot.py:783-834 | a close names a poll of the feed, and an open monitor keeps its count below three |
| Debounce.ExitCountIsStreak | bot.py:803-833 | while open, the count is the stored count (if nothing missed since) plus the meeting polls since the last miss |
| Debounce.ExitClosesOnThirdMeet | bot.py:803-806 | the trade is taken off exactly at the poll where that count reaches three, and that poll meets the condition |
| Debounce.ExitDecisionIsFinal | bot.py:806-829 | once the exit fires, later polls are not looked at |
| Debounce.ExitIgnoresFailedFetch | bot.py:790-793 | a failed fetch leaves the exit loop where it was |
| Lifecycle.EntryBasis | bot.py:731-733 | the profit basis is at most both the obtained and the trigger spread, and equals one of them |
| Lifecycle.Initial | bot.py:636-650 | at start-up the state is valid, the lock is free and nothing has been sent |
| Lifecycle.EntryLegsAreMatched | bot.py:716-727 | the KuCoin leg sells the matched contract count and the Binance leg buys the matched base amount, each only when that amount is positive |
| Lifecycle.EntryKeepsValid | bot.py:652-763 | an entry attempt keeps the state invariant: a recorded trade holds the lock, its fields are all set, counters are in range, and the basis is at most the trigger spread |
| Lifecycle.ExitKeepsValid | bot.py:765-840 | so does the exit monitor |
| Lifecycle.EntryLockDiscipline | bot.py:661-763 | with the lock held nothing happens; otherwise the lock stays held exactly when a trade was recorded or the attempt is still confirming, a trade is recorded only when entered, and it is the one asked for |
| Lifecycle.OrdersOnlyAfterThreeHighs | bot.py:675-727 | skipped, unfinished and abandoned attempts send nothing; orders go out only after three consecutive high polls with no low poll before them |
| Lifecycle.EnteredBasisIsConservative | bot.py:728-744 | an entered trade records both fill prices and the trigger prices, and its basis is the lesser of the obtained and the trigger spread |
| Lifecycle.EntryOutcomeOfLegs | bot.py:712-752 | once the entry fires, the trade is recorded exactly when both legs filled with prices and the Binance fill price is non-zero, everything is closed exactly when a leg failed or its amount guard stopped it, and the zero Binance fill price fails the attempt otherwise |
| Lifecycle.FailedLegsCloseAll | bot.py:728-763 | an attempt that closed everything fired on a high poll; its legs are followed by every close order, nothing is recorded, the lock is released and the closing flag is down |
| Lifecycle.OpenTradeHoldsLock | bot.py:661-664 | while a trade is open, entry attempts are skipped, and an unfinished monitor keeps the lock, the record and the orders sent |
| Lifecycle.ExitClosesAndReleases | bot.py:803-829 | the exit fires only at a meeting poll once the count reaches three; it then sends the close orders, clears the whole record and releases the lock |
| Lifecycle.TradeEngine.constructor | bot.py:636-650 | the engine starts in the initial state |
| Lifecycle.TradeEngine.CloseAllAndWait | bot.py:542-633 | the Binance close orders, then the KuCoin ones, are appended to the orders sent; the closing flag is down on return; the result is whether the wait had any time |
| Lifecycle.TradeEngine.ReleaseUnlessRecorded | bot.py:756-763 | the lock is released unless a trade was recorded |
| Lifecycle.TradeEngine.RecordEntry | bot.py:735-744 | writes the trade record: symbols, fill prices, conservative basis, trigger prices, zeroed counters |
| Lifecycle.TradeEngine.ExecuteEntry | bot.py:711-753 | sends both legs, then records the trade or closes everything, as the transition `Execute` says |
| Lifecycle.TradeEngine.AttemptEntry | bot.py:652-763 | the in-place entry attempt ends in the state and result of the transition `Entry` |
| Lifecycle.TradeEngine.CloseTrade | bot.py:815-828 | closes everything, resets the record and releases the lock |
| Lifecycle.TradeEngine.MonitorExit | bot.py:765-840 | the in-place exit monitor ends in the state and result of the transition `Exit` |
| Scanner.Track | bot.py:931-934 | the maximum takes in the new spread and the minimum too; the symbol, first spread and alert mark are kept |
| Scanner.TrackedExtremes | bot.py:877-934 | over any run of polls, a candidate's maximum and minimum bracket its first spread and every spread seen, and each is one of them |
| Scanner.ConfirmAlert | bot.py:946-958 | an alert is confirmed exactly when one of the first two rechecks got four positive prices from the fetchers and shows a spread of 5% or more, and the first such recheck is returned |
| Scanner.VerdictFor | bot.py:937-962 | an alert-level spread is suppressed exactly in the cooldown, and confirmed exactly outside it when a recheck confirms |
| Scanner.Observe | bot.py:923-967 | a candidate leaves the window exactly on a confirmed alert outside its cooldown; one that stays keeps its extremes around the new spread and marks whether the alert fell in the cooldown |
| Scanner.Scanner.StartWindow | bot.py:867-883 | the candidates are exactly the common symbols whose start spread reaches 0.25%, each fresh with that spread as start, maximum and minimum |
| Scanner.Scanner.ObserveOne | bot.py:919-977 | one candidate's turn updates it, or drops it and stamps its alert time, as `Observe` says, and starts an entry only if the lock is free |
| Scanner.Scanner.PollRound | bot.py:919-977 | after a round, the candidates, the alert times and the entries started are exactly those `Observe` gives each candidate; the extremes still bracket the start spread |
| Scanner.Scanner.WindowSummary | bot.py:989-995 | the summary names the first candidate with the largest maximum and the first with the smallest minimum, over an order that lists every candidate, and nothing exactly when there are no candidates |

## Left out

- Network access, ccxt calls, retries and sleeps are left out. Prices,
  positions, markets and order replies are inputs.
- Threads are left out. The two entry legs run in parallel in the source;
  here they are appended in a fixed order, KuCoin then Binance. The monitor
  runs in its own thread; here it is a separate call on the shared state.
  Interleavings of the scanner, the entry attempt and the monitor are not
  modelled.
- Floating point is left out. All prices and amounts are exact reals, so
  the leg-matching lemmas hold in exact arithmetic only.
- The dry-run branches of `compute_amount_for_notional`,
  `match_base_exposure_per_exchange`, `safe_create_order` and
  `close_all_and_wait` are left out. The model follows trading mode.
- Symbol resolution for ccxt (`resolve_kucoin_trade_symbol`) and market
  lookup are left out. Markets are inputs.
- The entry trigger time, slippage and latency reporting, and the
  monitor-thread field of `active_trade` are left out. They only feed
  logs.
- `Lifecycle.TradeEngine.CloseAllAndWait`: the wait loop is reduced to its
  result, because it only sleeps and reads balances for a log line. The
  result is true iff `timeout_s > 0`. `has_open_positions` always answers
  false and is not part of this model.
- Exceptions are not modelled except three. `Sizing.MatchBaseExposure`
  models the division by a zero Binance price in the matcher's fallback
  as a failure, but an entry cannot reach it: the trigger quote has
  positive prices. A zero Binance fill price in the entry spread ends the
  entry attempt, and its `finally` releases the lock. A record without
  entry prices makes the exit monitor fail at its first usable poll
  (bot.py:797); the monitor catches this and releases the lock
  (`MonitorFailed`).
- Feeds are finite. An entry attempt whose feed runs out is
  `StillConfirming` and keeps the lock. A monitor whose feed runs out is
  `StillOpen`. The source loops forever instead.
- `Lifecycle.EntryKeepsValid`: it requires a non-empty symbol. The
  monitor treats an empty symbol as "no trade" (`if not sym`), while the
  entry's `finally` checks `is None`. After an entry with an empty symbol,
  the `finally` keeps the lock. The monitor it starts releases the lock at
  once and leaves the record in place, so the state no longer satisfies
  `Valid`. `normalize` maps the name `M` to the empty name (bot.py:84-85),
  so the scanner could ask for it if both venues listed `M`; in practice
  no listed symbol normalises to the empty name.
- Quantities read from position records are numbers or missing. Values
  that are strings or of other types are not modelled.
- `Scanner.Scanner.PollRound`:
  - one clock reading `now` per round serves both the cooldown test and
    the new alert time; the source reads the clock again after the
    rechecks;
  - the lock state is fixed for the round, although an entry thread
    started in the round may take the lock before a later candidate;
  - the order in which candidates are visited is left open, and so is the
    order of iteration over `common_symbols`;
  - the timing of the window and of the polls is not modelled.
- `Scanner.Scanner.WindowSummary` takes the candidates' iteration order as
  an input. The log output of the summary is left out.
- Upper-casing in `normalize` covers ASCII letters only.
- The liquidation watcher, rebalancing, balances and logging are not part
  of this model.
