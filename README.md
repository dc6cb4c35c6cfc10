# Minesweeper trading bot: strategies, exit-order adapters and trade closure

This project models the parts of the bot's scan-and-trade engine that exist
as code, and proves properties about them:

- **Strategy decisions** (`strategies.py`). These cover:
  - the `find_col` prefix search;
  - the pivot scan and level clustering of `find_support_resistance` and `cluster_levels`;
  - the entry predicates of the momentum-breakout, breakout-squeeze, sniper, whale-radar and support-rebound evaluators;
  - the `SCANNERS` registry.

  Candles are records of exact reals. Indicator columns come in as one reading per candle. An auxiliary fetch (hourly candles, order book) comes in as an `Option`, where `None` means the fetch failed.
- **Exit-order adapters** (`exchanges.py`). There are two exit-order families behind one interface. The OCO family places one combined order. The dual family places a separate limit take-profit and a stop-triggered market stop-loss.
  - A client is a `class Exchange` over an abstract order book: the accepted orders, the set of live ids and a supply of fresh ids.
  - Which calls fail with an error other than "order not found" is fixed by a set of call numbers, `failingCalls`. This lets the contracts state every failure path.
  - The module also covers the exchange-id-to-family map, `get_real_balance`, and the valuation, sorting and 60-second ticker cache of `calculate_full_portfolio` (module `Portfolio`).
- **Trade closure** (`core_logic.py`, `process_trade_closure`). This covers:
  - realized PnL;
  - the three closing statuses;
  - the trade-table close request;
  - the virtual balance;
  - the PnL percentage, the day/hour/minute split and the template choice of the notification.

  The bot state it touches is a `class BotState`.

Modules, one per file: `Wrappers` (Option, Result, Outcome), `Stats` (sum, mean, max, min), `Sorting` (a stable key-ordered sort standing in for `list.sort`), `Trades`, `Levels`, `Strategies`, `Exchanges`, `Portfolio`, `TradeClosure`.

Behaviours of the code that the model keeps:

- `cluster_levels` compares `(level - prev) / prev * 100 < tolerance`. With a zero previous level, numpy's division yields inf or nan and the comparison is false. The model therefore starts a new cluster there (`Levels.Joins`). With a negative previous level the division flips the inequality, and the model keeps that too.
- `analyze_support_rebound` tests `if not closest_support`, so a closest support of exactly 0.0 counts as missing, like no support at all (`Strategies.NearSupport`).
- `analyze_breakout_squeeze_pro` searches the upper Keltner column with the prefix `KCUe_` but the lower one with `KCLEe_`. When the frame has no column starting with `KCLEe_`, the readings are missing (`None`) and no squeeze signal is possible.
- `process_trade_closure` reads `trade.get('entry_value_usdt', 0) > 0`. The row always carries that key, so a NULL entry value compares `None > 0` and raises `TypeError`. By then the trade-table close and the virtual balance update have already happened, and no notification is sent (`TradeClosure.ClosureNotice`, `TradeClosure.BotState.ProcessTradeClosure`).
- A stop exit exactly at the entry price has PnL 0. It gets the stop-loss status (`pnl > 0` fails) but the profit template (`pnl >= 0` holds). See `TradeClosure.BreakEvenStopUsesProfitTemplate`.
- `get_exchange_adapter` and `get_real_balance` look the client up by the lower-cased id. The model lower-cases ASCII only.

## Model

| member | source | states |
|---|---|---|
| Stats.SeqMaxIsMaximum | strategies.py:103 | `max` of a non-empty window is one of its elements and no element exceeds it |
| Stats.SeqMinIsMinimum | strategies.py:105 | `min` of a non-empty window is one of its elements and no element is below it |
| Stats.MeanBounds | strategies.py:120 | the mean of values in [lo, hi] lies in [lo, hi], so a cluster's mean lies within the cluster |
| Stats.RelativeGapBelow | strategies.py:117 | for a non-zero base, "relative gap in percent below tol" is the same as a raw difference below tol% of the base, with the inequality flipped for a negative base |
| Sorting.Sort | strategies.py:114 | the sorted list is ordered by the key and is a permutation of the input (same multiset, same length) |
| Sorting.SortStable | exchanges.py:246 | the sort is stable: for every key, the elements with that key come out in their input order |
| Levels.ResistancesStep | strategies.py:103-104 | examining index i appends `high[i]` to the resistances exactly when it is the maximum of its window |
| Levels.SupportsStep | strategies.py:105-106 | examining index i appends `low[i]` to the supports exactly when it is the minimum of its window |
| Levels.ScanPivots | strategies.py:102-106 | the loop over window <= i < len-window collects exactly the recorded supports and resistances, in index order |
| Levels.ClusterLevels | strategies.py:111-124 | the sort-then-chain loop emits exactly the cluster means defined by the joining rule |
| Levels.FindSupportResistance | strategies.py:96-126 | returns the clustered supports and clustered resistances of the series, including both empty early returns |
| Levels.ShortSeriesHasNoLevels | strategies.py:99-100 | fewer than 2*window+1 candles give ([], []) |
| Levels.ResistanceIsWindowMaximum | strategies.py:103-104 | index i is a resistance iff no high within `window` candles on either side exceeds `high[i]` |
| Levels.SupportIsWindowMinimum | strategies.py:105-106 | index i is a support iff no low within `window` candles on either side is below `low[i]` |
| Levels.RecordedMembership | strategies.py:102-106 | a value is recorded iff some examined index window <= i < n is marked and holds it |
| Levels.ResistancesRecorded | strategies.py:102-104 | a value is a recorded resistance iff some examined index holds it as its window maximum |
| Levels.SupportsRecorded | strategies.py:105-106 | a value is a recorded support iff some examined index holds it as its window minimum |
| Levels.RecordedCountBound | strategies.py:102-106 | at most one level is recorded per examined index |
| Levels.ClusterFromShape | strategies.py:116-123 | chaining a sorted run emits at least one and at most len+1 means, non-decreasing, each between the run's first and last level |
| Levels.ClusteredShape | strategies.py:111-124 | `cluster_levels` is empty iff its input is; it emits no more values than it gets; the output is non-decreasing and lies between the input's min and max |
| Levels.ClusterCount | strategies.py:116-121 | the number of clusters is one more than the number of sorted neighbours that fail to join |
| Levels.Joins | strategies.py:117 | a level joins the current cluster iff the previous level is positive and the rise is below tolerance% of it, or negative and the rise is above tolerance% of it; never after a zero level |
| Strategies.FindCol | strategies.py:28-33 | the index of the first column, in order, starting with the prefix; None iff no column does |
| Strategies.FindColName | strategies.py:28-33 | the name returned is the column at the first matching index (`FindCol`), so a column starting with the prefix with none before it; None iff no column does |
| Strategies.RollingMeanAtPrevious | strategies.py:86 | the 20-candle rolling mean at the closed candle exists iff there are at least 21 values |
| Strategies.AnalyzeMomentumBreakout | strategies.py:39-64 | any signal is tagged momentum_breakout, long |
| Strategies.MomentumSignalMeans | strategies.py:52-61 | a momentum signal iff all columns are present, the MACD crosses from at-or-below to above its signal, the close is strictly above both the upper band and VWAP, RSI is below the ceiling and relative volume reaches the minimum |
| Strategies.AnalyzeBreakoutSqueezePro | strategies.py:66-94 | any signal is tagged breakout_squeeze_pro, long |
| Strategies.SqueezeSignalMeans | strategies.py:78-90 | a squeeze signal iff all four columns are present, there are three candles, the previous Bollinger band sat strictly inside the Keltner channel, the closed candle's close broke the upper band, OBV rose, relative volume reached the minimum, and either volume confirmation is off or there are 21 candles and the closed volume exceeds 1.5 times the 20-candle mean |
| Strategies.SqueezeBandNarrower | strategies.py:82 | a Bollinger band strictly inside the Keltner channel is strictly narrower than it |
| Strategies.SqueezeVolumeConfirmed | strategies.py:86 | with confirmation on by default, a signal needs 21 candles and a volume above 1.5 times the 20-candle mean |
| Strategies.SqueezeConfirmationOnlyFilters | strategies.py:86 | turning volume confirmation off never removes a signal |
| Strategies.AnalyzeSniperProAsWritten | strategies.py:128-149 | as written, any signal is tagged sniper_pro, long, and needs positive compression hours, at least cc+2 candles, and a tested candle whose close is above its own high |
| Strategies.BreaksOutOfCompression | strategies.py:136-145 | a breakout needs a non-empty window of positive lows, a tested close above every high of the window, and a tested volume above twice the window's mean volume |
| Strategies.SniperAsWrittenNeverFires | strategies.py:131-146 | as written, the sniper returns None for every series of well-formed candles |
| Strategies.AnalyzeSniperPro | strategies.py:128-149 | with the corrected window, a signal needs at least cc+2 candles, and the tested close lies above every high of the cc candles before it |
| Strategies.SniperCanFire | strategies.py:135-146 | a concrete series on which the corrected sniper fires and the as-written one does not |
| Strategies.AnalyzeWhaleRadar | strategies.py:151-166 | any signal is tagged whale_radar, long |
| Strategies.NotionalSumIsNumericSum | strategies.py:160 | the summed bid value is the sum of price*qty over the numeric levels only |
| Strategies.WhaleRadarFiresIff | strategies.py:154-163 | the radar fires iff the book has bids and the numeric price*qty of at most the first ten strictly exceeds the threshold (30000 by default) |
| Strategies.WhaleRadarIgnoresDeepBook | strategies.py:160 | levels below the tenth never change the decision |
| Strategies.ClosestSupportBelow | strategies.py:182 | None iff no support is below the price; otherwise the greatest support strictly below it |
| Strategies.NearSupport | strategies.py:183-187 | a price is near a support iff the support is positive and the price is below 1.01 times it, or negative and the price is above 1.01 times it; a zero support is never near |
| Strategies.AnalyzeSupportRebound | strategies.py:168-196 | any signal is tagged support_rebound, long |
| Strategies.ReboundAtMeans | strategies.py:179-193 | a positive decision means a greatest support strictly below the price, within 1% of it when positive, and a bullish closed candle with volume above 1.5 times the 20-candle mean |
| Strategies.ReboundSignalMeans | strategies.py:171-193 | a rebound signal needs at least 50 hourly candles and the conditions above on the clustered hourly supports and the last hourly close |
| Strategies.ScannerByName | strategies.py:204-210 | a lookup succeeds exactly for the five registry keys, and returns the strategy of that key |
| Strategies.ScannerNameRoundTrip | strategies.py:204-210 | every strategy is found again under its own key |
| Strategies.Evaluate | strategies.py:204-210 | each registry entry runs its own evaluator, so any signal carries that entry's reason; the sniper_pro entry runs the corrected sniper (see Findings) |
| Exchanges.Exchange.CreateOrder | exchanges.py:72-75 | an accepted order gets a fresh id, is recorded and live; a failing call changes nothing |
| Exchanges.Exchange.CancelOrder | exchanges.py:86-89 | a live order stops being live; an unknown one is not found; a failing call changes nothing |
| Exchanges.LowerIdempotent | exchanges.py:158 | lower-casing twice is lower-casing once |
| Exchanges.AdapterFamily | exchanges.py:150-164 | binance, bybit, gate and okx map to the OCO family; kucoin and mexc to the dual family; nothing else maps |
| Exchanges.GetExchangeAdapter | exchanges.py:157-170 | an adapter iff there is a client under the lower-cased id and that id is in the map; it wraps that client with that family |
| Exchanges.AdapterLookupIgnoresCase | exchanges.py:157-165 | looking up an id gives the same result as looking up its lower-case form |
| Exchanges.GetRealBalance | exchanges.py:205-216 | 0.0 without an authenticated client or when the fetch fails; otherwise the free balance of the currency, 0.0 when absent |
| Exchanges.OcoPlaceExitOrders | exchanges.py:64-76 | one OCO sell at the rounded take-profit and stop is created and its fresh id returned as oco_id; binance alone gets the stop as stopLimitPrice |
| Exchanges.OcoUpdateTrailingStopLoss | exchanges.py:78-103 | a missing oco_id fails before any call; otherwise exactly the stored id is cancelled (not-found tolerated, other errors propagate and nothing is created), then one OCO with the trade's quantity and take-profit and the new stop is created under a fresh id |
| Exchanges.DualPlaceExitOrders | exchanges.py:107-121 | a limit sell at the take-profit, then a stop-triggered market sell at the stop, same quantity; both fresh ids are returned |
| Exchanges.DualUpdateTrailingStopLoss | exchanges.py:123-148 | a missing tp_id or sl_id fails before any call; otherwise both stored ids are cancelled independently (not-found tolerated), then both orders are recreated with the trade's quantity and take-profit and the new stop; each failure point is stated |
| Exchanges.PlaceExitOrders | exchanges.py:56-57 | a successful placement returns oco_id for the OCO family, tp_id and sl_id for the dual family, all fresh |
| Exchanges.UpdateTrailingStopLoss | exchanges.py:59-60 | a successful update returns fresh ids under the family's keys, and every stored id that named an existing order is no longer live |
| Portfolio.ValueAssets | exchanges.py:232-244 | the loop keeps exactly the included assets, in balance order, and accumulates their total |
| Portfolio.UsdtValue | exchanges.py:235-240 | USDT is valued at its amount; another currency at amount times the last price of its USDT pair, and at 0 when the pair or its last price is missing |
| Portfolio.Included | exchanges.py:235-242 | an asset is listed iff its amount is positive and its value (1:1 for USDT, amount times a non-zero last price otherwise) exceeds one USDT |
| Portfolio.CalculateFullPortfolio | exchanges.py:218-250 | a zero report without a client or key (the client is then untouched), or when a fetch fails; the cache is refreshed iff absent or older than 60 s at the time of the test, and is stamped with the clock after the ticker fetch; the assets are a permutation of the included ones, sorted by value descending, with equal values in balance order, and the total is their sum |
| Portfolio.HoldingsMembership | exchanges.py:234-243 | an asset is reported iff some balance entry holds a positive amount worth more than one USDT, valued 1:1 for USDT and at amount*last otherwise |
| Portfolio.HoldingsWorthMoreThanOne | exchanges.py:242-244 | every reported value exceeds one USDT, so the total is at least the number of assets |
| Portfolio.TotalValuePermutation | exchanges.py:246 | reordering the assets does not change their total |
| Portfolio.ReportTotalsItsAssets | exchanges.py:244-247 | the total equals the sum of the listed values, and the list runs from the largest value down |
| Portfolio.TiedAssetsKeepBalanceOrder | exchanges.py:246 | two assets both worth 5 USDT are listed in balance order, USDT before XRP |
| TradeClosure.RealizedPnl | core_logic.py:126 | the PnL divided by the quantity is the move from entry to exit; an exit at the entry, or a zero quantity, gives 0 |
| TradeClosure.ClosureStatus | core_logic.py:128-135 | a win is a target hit whatever the PnL; otherwise a profit by stop iff PnL > 0 and a stop loss iff PnL <= 0 |
| TradeClosure.PnlPercent | core_logic.py:154 | with a positive (non-NULL) entry value, percent times entry value is 100 times PnL; otherwise 0 |
| TradeClosure.SplitDuration | core_logic.py:148-150 | days*86400 + hours*3600 + minutes*60 + seconds is the total, with hours < 24 and minutes, seconds < 60 |
| TradeClosure.SplitDurationUnique | core_logic.py:148-150 | that split is the only one with those bounds |
| TradeClosure.FormatDuration | core_logic.py:151 | days are shown iff there is at least one; hours and minutes always |
| TradeClosure.ClosureNotice | core_logic.py:146-166 | fails iff the entry value is NULL (the `None > 0` comparison raises); otherwise the trade id and symbol, the PnL, the computed status, the profit template iff PnL >= 0, the real-trade label iff the trade is real, the percentage `PnlPercent` of the PnL over the entry value, and the day/hour/minute text of the split elapsed time |
| TradeClosure.BotState.ProcessTradeClosure | core_logic.py:124-168 | exactly one trade-table close with the status, exit price and PnL; the virtual balance grows by the PnL and settings are saved only for virtual trades; then one notification, or, for a NULL entry value, a failure with no notification after the close and balance update |
| TradeClosure.StopExitAboveEntryIsProfit | core_logic.py:126-135 | a stop exit above the entry of a long position is a profit by stop |
| TradeClosure.StopExitAtOrBelowEntryIsLoss | core_logic.py:126-135 | a stop exit at or below the entry is a stop loss |
| TradeClosure.BreakEvenStopUsesProfitTemplate | core_logic.py:126-166 | with a non-NULL entry value, a stop exit exactly at the entry gets the stop-loss status and the profit template |
| TradeClosure.ProfitByStopUsesProfitTemplate | core_logic.py:128-166 | a profit by stop is always announced with the profit template |
| TradeClosure.PnlPercentIsPriceReturn | core_logic.py:154 | when the entry value is entry price times quantity, the percentage is the price return of the exit over the entry |
| TradeClosure.PnlPercentSign | core_logic.py:154 | with a positive entry value, the percentage is positive iff the PnL is, and zero iff the PnL is |
| TradeClosure.DurationExample | core_logic.py:148-151 | 90000 s are 1 day 1 hour; 3725 s are shown as 1 h 2 m without days |

## Left out

- The placeholder engine functions of core_logic.py (aggregator, worker, scan, tracking, trailing-stop handling, real-trade placement, market regime, news, Fear & Greed). They hold no logic.
- Indicator computation (VWAP, Bollinger, MACD, RSI, Keltner, OBV) by pandas_ta. The readings are inputs. A missing indicator column is a `None` readings argument. NaN readings are not modelled.
- Network and client calls: `create_order` and `cancel_order` become the order-book methods. `fetch_order_book`, `fetch_ohlcv`, `fetch_balance` and `fetch_tickers` become `Option` arguments. `price_to_precision` is an opaque function field of the client.
- `asyncio.sleep`, `initialize_exchanges`, the scan and report locks, and `get_total_real_portfolio_value_usdt`. These are concurrency and connection bootstrap.
- database.py, the Telegram layer in binance_trader.py, and config.py. The trade-table close and the notification are recorded requests. The message is a structured value, not formatted text.
- Floating point: every quantity is an exact real. Number formatting in messages is not modelled.
- The wall clock and time zone of the duration. The elapsed time arrives as a whole number of seconds.
- `analyze_sentiment_of_headlines`, which depends on NLTK.
- Strategies.Evaluate: the sniper_pro entry runs the corrected sniper, `Strategies.AnalyzeSniperPro`, whereas `SCANNERS` at strategies.py:209 holds the as-written one, modelled separately as `Strategies.AnalyzeSniperProAsWritten`, which never fires.
- Strategies.AnalyzeSniperPro: `int(compression_hours * 4)` for fractional hours is not modelled. Compression hours are a natural number.
- Exchanges.Lower: lower-cases ASCII letters only, not the full Unicode mapping of `str.lower`.
- Exchanges.OcoUpdateTrailingStopLoss: the stored ids are a parsed map. A malformed or absent `exit_order_ids_json` and a falsy id such as 0 are not modelled.
- Exchanges.DualUpdateTrailingStopLoss: the same limits on the stored ids as the OCO update.
- Exchanges.UpdateTrailingStopLoss: the "no longer live" guarantee covers only stored ids that named orders of this client before the call.
- Portfolio.CalculateFullPortfolio: the sort is modelled on values, not in place. A balance read or ticker fetch that fails is an `Option` argument, not an exception.
- Levels.FindSupportResistance: requires equally long high and low series, as the hourly candle frame always provides.
- TradeClosure.BotState.ProcessTradeClosure: the trade mode is virtual or real. Any other stored mode is not modelled.

## Findings

| source | as written | input that shows it | evidently intended | confidence | as-written member | corrected member |
|---|---|---|---|---|---|---|
| strategies.py:135-143 | the compression window `df.iloc[-cc-1:-1]` ends with `df.iloc[-2]`, the candle then tested with `close > highest_high`; since a candle's close never exceeds its own high, the sniper never fires | any well-formed series, e.g. four candles high 100 low 99 close 99.5 volume 10, then high 102 low 100 close 101 volume 30, then one more candle, with compression_hours 1 | the window is the cc candles before the tested one, `df.iloc[-cc-2:-2]`, so a close above the compression range fires | not executed | Strategies.SniperAsWrittenNeverFires | Strategies.SniperCanFire |
