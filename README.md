# A verified model of a paper-trading bot

This project models the core of a small paper-trading system in Dafny and proves
properties of that model. The system has four core pieces:

- **The portfolio ledger** (`engine.py`). A simulated account holds cash, one position per
  symbol and an append-only trade history. It buys with volume-weighted averaging, sells in
  full or in part, marks positions to market with a high-water mark, and summarises itself
  (value, profit, win rate). It saves its state, reloads it, and keeps a throttled equity
  curve.
- **The bot** (`bot.py`). It scores a symbol from the latest two rows of indicator values
  (RSI, MACD, Bollinger bands, volume, moving averages, momentum) into BUY, SELL or HOLD.
  It checks exits for held positions: stop loss, take profit, trailing stop, then a
  technical SELL. It sizes orders, scans its watchlist and executes, selling first and then
  buying strongest first, up to a cap on the number of positions.
- **The live trader** (`live_trader.py`). It runs one cycle: refresh prices, scan, and
  execute unless scan-only, in crypto-only mode outside market hours. Its session loop
  follows the US market calendar:
  - a full cycle in market hours;
  - a crypto cycle after hours on weekdays;
  - otherwise a wait for the opening with occasional crypto cycles.

  It keeps a session log capped at 500 entries.
- **The arena** (`multi_trader.py`). Five bots, each with its own directory, run one cycle
  each in roster order. A bot whose directory fails to load gets a placeholder result. A
  leaderboard ranks the bots by return. The main loop runs rounds in market hours, or once
  with `--once`, and polls every 30 seconds while the market is closed.

## How the model is organised

Each module follows one part of the source:

- `Common` holds shared datatypes.
- `Ledger` holds the ledger as values: the `LedgerState` record, and `ApplyBuy`,
  `ApplySell` and `UpdatePrices` as functions with their accounting lemmas.
- `Engine.Portfolio` is a class whose fields are the attributes the source mutates. Its
  methods are proved to move the object's `State()` exactly as the `Ledger` functions say.
- `EquityHistory` holds the equity-curve throttle and `Assets` holds `classify_asset`.
- `Signals`, `Risk` and `Bot` cover the bot. `Bot.OpenClawBot` is a class with the
  `watchlist` and `signals_log` fields. Its scanning and execution methods are proved
  against the functions `ExitSignals`, `ScanEntries` and `Execute`.
- `Ranking` is the stable sort by descending strength or return. `TextOrder` is the
  symbol order of `get_summary`.
- `MarketClock` is the calendar on a simulated clock. An instant is an integer number of
  seconds of Eastern time; day 0 is a Monday.
- `LiveTrader` and `MultiTrader` are the two loops.

Market data comes in as a `Feed`: a price per symbol and an indicator table per symbol. The
loops read it at instant `t` as `feedAt(t)`. Shutdown becomes an instant `stopAt` after
which the running flag is down. Each cycle takes `cycleSecs` seconds of simulated time.

## Model

| member | source | states |
|---|---|---|
| Assets.Contains | engine.py:429 | the substring test is true exactly when `sub` occurs at some index of `s` |
| Assets.OccursInTail | engine.py:429 | past a mismatch at index 0, `sub` occurs in `s` exactly when it occurs in `s[1..]` |
| Assets.Upper | engine.py:434 | `upper()` keeps the length and upper-cases each character at its index |
| Assets.ClassifyAsset | engine.py:427-436 | crypto exactly when the symbol contains `-USD` or `-usd`; ETF exactly when it is not crypto and its upper-cased form is in the ETF set; stock otherwise |
| Assets.UpperIdempotent | engine.py:434 | upper-casing twice is upper-casing once |
| Assets.EtfIgnoresCase | engine.py:432-435 | a non-crypto symbol and its upper-cased form get the same class |
| Assets.ClassifyCryptoExample | engine.py:429-430 | `BTC-USD` and `eth-usd` are crypto |
| Assets.ClassifyEtfExample | engine.py:432-435 | `spy` is an ETF, case ignored |
| Assets.ClassifyStockExample | engine.py:436 | `AAPL` is a stock |
| Ledger.PnlRatio | engine.py:45-48 | the profit over the cost basis is the price change over the entry price |
| Ledger.UnrealizedPnlPct | engine.py:44-48 | 0 when the cost basis is 0; otherwise (current − entry) / entry × 100 for a held position |
| Ledger.MarketValue | engine.py:32-34 | quantity × mark; characterised by `Ledger.SoldAtMarkKeepsTotal` and `Ledger.UnrealizedIsValueLessCost` |
| Ledger.CostBasis | engine.py:36-38 | quantity × entry price; characterised by `Ledger.ReaverageCost` and `Ledger.UnrealizedPnlPct` |
| Ledger.UnrealizedPnl | engine.py:40-42 | market value − cost basis; summed by `Ledger.UnrealizedIsValueLessCost` |
| Ledger.TotalValue | engine.py:89-95 | cash plus the positions' market values; characterised by `Ledger.SoldAtMarkKeepsTotal` and `Ledger.GetSummary` |
| Ledger.TotalPnl | engine.py:97-99 | total value − starting cash; characterised by `Ledger.TotalReturnPct` and `Ledger.BalancedPnl` |
| Ledger.FromRecord | engine.py:61-72 | `from_dict` fails exactly when symbol, quantity, entry price or date is missing; otherwise it copies them, defaults the asset type to stock and the current price and high-water mark to the entry price |
| Ledger.ToRecord | engine.py:50-59 | `from_dict(to_dict(p))` succeeds and gives back `p` for every position, and `to_dict` writes every optional key |
| Ledger.HasRequiredKeys | engine.py:64-67 | the keys `from_dict` indexes without a default: symbol, quantity, entry price, entry date; its failure case is stated by `Ledger.FromRecord` |
| Ledger.Find | engine.py:119 | the index found holds the symbol; nothing is found exactly when no position has it |
| Ledger.FindUnique | engine.py:119 | with distinct symbols, the lookup finds the one index that holds the symbol |
| Ledger.Remove | engine.py:188 | deleting a position keeps the others in order |
| Ledger.TotalReturnPct | engine.py:101-105 | 0 when the starting cash is 0; otherwise the return times the starting cash is 100 × total profit |
| Ledger.ReaverageBetween | engine.py:122-123 | the averaged entry price lies between the old entry price and the new price |
| Ledger.ApplyBuy | engine.py:111-150 | a buy fails exactly when q × p exceeds the cash, with that error; on success cash drops by exactly q × p, the ledger stays valid, one record is appended and a new symbol adds one position |
| Ledger.BuyKeepsValid | engine.py:119-134 | re-averaging into a held position and opening a new one both keep symbols distinct and positions sound |
| Ledger.BuyAppendsRecord | engine.py:136-147 | a successful buy appends exactly one BUY record, with `total` = q × p, `cash_after` = the new cash and no pnl, and keeps the old history as a prefix |
| Ledger.BuyIntoHeld | engine.py:119-126 | buying a held symbol adds the quantity, sets the entry price to (oq·oe + q·p)/(oq + q), which lies between old entry and p, marks it at p, keeps entry date, high-water mark and asset type, and touches no other position |
| Ledger.BuyOpensNew | engine.py:127-134 | a new symbol is appended with current price = high-water mark = entry price = p, and the total value is unchanged |
| Ledger.ApplySell | engine.py:152-194 | selling an unheld symbol fails with "no position"; a success keeps the ledger valid, does not lower cash and appends one record |
| Ledger.SoldValid | engine.py:167-190 | selling at most the held quantity at a non-negative price keeps the ledger valid, does not lower cash and appends one record |
| Ledger.SellUnheldRejected | engine.py:154-155 | an unheld symbol is rejected whatever the quantity and price |
| Ledger.SellRejectsOversize | engine.py:158-162 | a held symbol is rejected exactly when the quantity (default: the whole holding) exceeds the holding, with that error |
| Ledger.SellSucceeds | engine.py:157-194 | otherwise the sell goes through at the quantity given, or the whole holding by default, and at the price given, or the current price by default |
| Ledger.SoldAccounting | engine.py:167-185 | cash rises by exactly q × price and one SELL record is appended; starting cash and creation time are kept |
| Ledger.SellRecordContents | engine.py:172-184 | the SELL record has `total` = q × price, pnl = (price − entry) × q and pnl% = (price − entry)/entry × 100 |
| Ledger.SoldCloses | engine.py:187-190 | a full sell removes the position, which is then no longer held; a partial sell shrinks only its quantity |
| Ledger.SoldAtMarkKeepsTotal | engine.py:164-170 | selling at the current price leaves the total value unchanged |
| Ledger.MarkPrices | engine.py:196-202 | every position is marked with the map by itself, in order |
| Ledger.MarkOne | engine.py:198-202 | a present, non-null price becomes the mark and raises the high-water mark to it; characterised by `Ledger.MarkPricesEffect` |
| Ledger.MarkPricesEffect | engine.py:196-202 | only positions with a non-null price change: their mark becomes that price and the high-water mark never drops and ends at least at it; symbol, quantity, entry price, date and type are untouched |
| Ledger.MarkPricesUnheld | engine.py:196-202 | a map that names no held symbol (the empty map, for one) changes no position |
| Ledger.UpdatePrices | engine.py:196-203 | `update_prices` keeps the ledger valid and leaves cash, history, starting cash and the number of positions as they were |
| Ledger.WinsPlusLosses | engine.py:225-227 | wins and losses together are the SELL records |
| Ledger.AppendTally | engine.py:222-226 | one more record adds its own realized pnl, win, loss and sell to the tallies |
| Ledger.RealizedPnl | engine.py:222 | the SELL records' `pnl`, a missing one read as 0; characterised by `Ledger.AppendTally` and `Ledger.BalancedPnl` |
| Ledger.WinRate | engine.py:239 | 0 with no SELL records; otherwise rate × sells = wins × 100; always within [0, 100] |
| Ledger.Percent | engine.py:239 | a part over a whole times 100 lies in [0, 100] and times the whole gives 100 × the part |
| Ledger.SoldTallies | engine.py:168-185 | a sell adds its pnl to the realized profit, one sell, and one win or one loss by the sign of its pnl |
| Ledger.BuyKeepsTallies | engine.py:136-147 | a buy leaves realized profit, sells, wins and the win rate unchanged |
| Ledger.Views | engine.py:209-220 | one summary row per position, at its index |
| Ledger.GetSummary | engine.py:205-244 | positions value, realized pnl, return % and win rate are the ledger's own figures; total = cash + positions value; total pnl = total − starting cash; unrealized = value − cost; the counts; rows sorted by symbol and a permutation of the positions' rows; win rate in [0, 100] |
| Ledger.BalancedPnl | engine.py:222-233 | on a balanced ledger the total pnl is the realized pnl plus the unrealized pnl |
| Ledger.ReaverageCost | engine.py:122-125 | re-averaging adds exactly q × p to the position's cost basis |
| Ledger.Reaverage | engine.py:119-126 | the volume-weighted re-average of a held position; characterised by `Ledger.ReaverageBetween` and `Ledger.ReaverageCost` |
| Ledger.BuyKeepsBalanced | engine.py:111-150 | a buy keeps cash + cost basis = starting cash + realized pnl |
| Ledger.SoldKeepsBalanced | engine.py:152-194 | a sell keeps the same identity |
| Ledger.SoldCost | engine.py:187-190 | closing or shrinking a position lowers the total cost basis by q × entry price |
| Ledger.UpdateKeepsBalanced | engine.py:196-203 | marking prices keeps the identity |
| Ledger.FreshLedger | engine.py:78-84 | a new portfolio has all its cash, no positions and no trades, and is valid and balanced |
| Ledger.ToRecords | engine.py:254 | one stored record per position, in order |
| Ledger.FromRecords | engine.py:313-314 | fails exactly when some stored record lacks a required key; otherwise one position per stored record, in order |
| Ledger.Readable | engine.py:308-314 | `cash` is present and every stored position has its required keys; `Ledger.Decode` succeeds exactly on these |
| Ledger.Snapshot | engine.py:246-258 | every key written; characterised by `Ledger.SaveLoadRoundTrip` and `MultiTrader.SnapshotLoadable` |
| Ledger.Decode | engine.py:303-314 | decoding fails exactly when `cash` is missing or a stored position lacks a required key; otherwise it reads cash, the dates and the history, defaulting starting cash, the dates to now and positions and history to empty, and decodes every stored position in order |
| Ledger.LoadLedger | engine.py:294-321 | a missing or unreadable file, or one `load` cannot read (no `cash`, or a position without a required key), gives a fresh ledger and a save; otherwise the decoded state |
| Ledger.SaveLoadRoundTrip | engine.py:246-316 | loading what `save` wrote gives back the same ledger, with no fresh start |
| Ledger.UnrealizedIsValueLessCost | engine.py:223 | total unrealized pnl = positions value − positions cost |
| EquityHistory.ShouldRecord | engine.py:282-288 | a snapshot is taken exactly when the history is empty, at least 3600 s have passed since the last one, or the value moved by at least 1 |
| EquityHistory.Record | engine.py:282-290 | the snapshot is appended when it should be, and the history is left as it is otherwise |
| EquityHistory.RecordKeepsSpaced | engine.py:263-292 | recording keeps consecutive snapshots an hour or a dollar apart, and only ever extends the history by at most one |
| EquityHistory.RecordAllSpaced | engine.py:263-292 | the same over any number of saves |
| EquityHistory.RecordIdempotent | engine.py:282-290 | offering the same snapshot twice records it once |
| Engine.EquityPoint | engine.py:273-279 | the snapshot's total is cash + positions value, with the number of positions |
| Engine.Portfolio.constructor | engine.py:78-87 | a new portfolio object holds the fresh ledger |
| Engine.Portfolio.Load | engine.py:294-321 | the object holds `LoadLedger`'s state; when it started afresh, the file holds its snapshot and the equity curve was offered a point; otherwise nothing was written |
| Engine.Portfolio.Save | engine.py:246-261 | the state is unchanged, the file holds its snapshot, and the equity curve is offered a point |
| Engine.Portfolio.Buy | engine.py:111-150 | on rejection nothing changes and the error is returned; on success the state is `ApplyBuy`'s, the last record is returned, and the state is saved |
| Engine.Portfolio.Sell | engine.py:152-194 | the same against `ApplySell` |
| Engine.Portfolio.Dispose | engine.py:167-190 | the success path of a sell moves the state to `Sold` and returns the appended record |
| Engine.Portfolio.UpdatePrices | engine.py:196-203 | the loop over positions moves the state to `Ledger.UpdatePrices` and keeps the object valid |
| Signals.RsiVote | bot.py:92-105 | the RSI test feeds one side at most, by at most 1.5, with one reason exactly when it adds weight |
| Signals.MacdBullVote | bot.py:113-120 | the bullish MACD test feeds only the buy side, by at most 1.5 |
| Signals.MacdBearVote | bot.py:122-128 | the bearish MACD test feeds only the sell side, by at most 1.5 |
| Signals.BbVote | bot.py:131-147 | the Bollinger test feeds one side at most, by at most 1.0 |
| Signals.VolumeVote | bot.py:150-161 | the volume test feeds one side at most, by at most 0.75 |
| Signals.TrendVote | bot.py:164-174 | the trend test feeds one side at most, by at most 0.5 |
| Signals.EmaCrossVote | bot.py:176-186 | the EMA crossover test feeds one side at most, by at most 0.75 |
| Signals.MomentumVote | bot.py:189-198 | the momentum test feeds one side at most, by at most 0.5 |
| Signals.Votes | bot.py:91-198 | the eight tests each feed one side at most |
| Signals.ReasonsIffWeight | bot.py:86-198 | both strengths are non-negative, and a side has reasons exactly when it has strength |
| Signals.HoldReasons | bot.py:207-214 | a HOLD lists "Bullish: …" first when there are buy reasons and "Bearish: …" last when there are sell reasons, or "No significant signals" when there are none |
| Signals.AnalyzeSymbol | bot.py:73-215 | under 30 rows or no table: HOLD, strength 0, "Insufficient data", no price; otherwise at the latest close, BUY exactly when net ≥ min with the buy strength and reasons, SELL exactly when net ≤ −min with the sell ones, HOLD with abs(net) otherwise |
| Signals.Decide | bot.py:200-215 | the BUY/SELL/HOLD choice on the net vote; characterised by `Signals.AnalyzeSymbol`'s contract |
| Signals.StrengthBounds | bot.py:91-198 | buy and sell strength each stay within [0, 6.5] |
| Signals.ActionableSignal | bot.py:200-206 | with a positive minimum, a BUY or SELL has strength at least the minimum, some reason and a price |
| Signals.MacdOneSided | bot.py:113-128 | the two MACD tests never both fire |
| Signals.AveragesCanFeedBothSides | bot.py:163-186 | the moving-average family can feed both sides at once: a rising trend on the buy side and an EMA cross below on the sell side |
| Signals.OversoldReversalBuys | bot.py:94-138 | RSI 25, MACD histogram −0.1 → 0.2 and BB% 0.03 give a BUY of strength 4.0 with those three reasons |
| Risk.ExitRules | bot.py:225-242 | at most three exit reasons fire |
| Risk.ExitSignal | bot.py:221-255 | an exit is a SELL of strength 5 at the current price; it carries the rules' reasons when one fired, and otherwise fires exactly on a technical SELL of at least the minimum strength, with its reasons |
| Risk.RulesPreemptAnalysis | bot.py:244-249 | when a rule fired the indicators are not consulted: any two tables give the same exit |
| Risk.ExitRulesMeaning | bot.py:225-242 | stop loss fires exactly when pnl ≤ −stop%; take profit exactly when pnl ≥ take%; trailing stop exactly when the drawdown from the high is ≤ −trail% and pnl > 0 |
| Risk.StopLossExample | bot.py:225-230 | entry 100, now 94, high 100 under the defaults gives a stop-loss exit at 94 |
| Risk.Round4 | bot.py:272 | the rounding to four places is within 1/20000 of its argument |
| Risk.PositionSize | bot.py:259-274 | 0 when min(total × max%, 0.9 × cash) is under the price; otherwise the budget over the price rounded to four places when that order is worth at least $10, and 0 when it is not |
| Risk.MaxSpend | bot.py:261-262 | min(total × max position %, 0.9 × cash); characterised by `Risk.PositionSize` and `Risk.PositionSizeAffordable` |
| Risk.PositionSizeAffordable | bot.py:259-274 | a positive size costs no more than the cash, and no more than the budget plus the rounding |
| Risk.PositionSizeExample | bot.py:259-274 | total 10000, cash 10000, price 100 under the defaults gives 15.0 |
| Bot.Tagged | bot.py:65-70 | each symbol of a list becomes an item tagged with the list's class, in order |
| Bot.BuildWatchlist | bot.py:62-71 | `_build_watchlist` gives the stocks, then the ETFs, then the cryptos, each tagged |
| Bot.Watchlist | bot.py:62-71 | stocks, then ETFs, then cryptos, each tagged; characterised by `Bot.BuildWatchlist` and `Bot.WatchlistCrypto` |
| Bot.CryptoItems | live_trader.py:183 | the crypto filter keeps only crypto items of the watchlist |
| Bot.CryptoItemsAppend | live_trader.py:183 | filtering distributes over concatenation |
| Bot.CryptoItemsOfTagged | live_trader.py:183 | a tagged list passes the filter whole when crypto, and not at all otherwise |
| Bot.WatchlistCrypto | live_trader.py:183 | the crypto items of a built watchlist are exactly its crypto list |
| Bot.ExitSignalsSnoc | bot.py:221-255 | one more position adds its own exit, if any, at the end |
| Bot.ExitSignalsSound | bot.py:221-255 | at most one exit per position, each a SELL of strength 5 at the price of a held position |
| Bot.ExitOfRules | bot.py:251-255 | a position whose rules fired gets exactly one exit, with those reasons |
| Bot.ExitSignalsAppend | bot.py:221 | the exits of two position lists in turn are the first list's exits, then the second's |
| Bot.ExitSignalsAround | bot.py:221-255 | the exits split around any position: those of the positions before it, its own, then those after it |
| Bot.ExitSignalsComplete | bot.py:221-255 | every position whose rules fired has an exit with those reasons |
| Bot.ExitOf | bot.py:221-255 | the zero or one exit of one position; characterised by `Bot.ExitOfRules` |
| Bot.ExitSignals | bot.py:217-257 | `check_exit_conditions`; characterised by `Bot.ExitSignalsSound`, `Bot.ExitSignalsComplete`, `Bot.ExitSignalsSnoc` and `Bot.ExitSignalsAppend` |
| Bot.StrongBuys | bot.py:316-317 | the buys kept are BUYs of at least the minimum strength, taken from the scan |
| Bot.EntrySignalsSnoc | bot.py:300-314 | one more watchlist item adds its own analysis, if scanned, at the end |
| Bot.StrongBuysSnoc | bot.py:316-317 | one more signal is kept exactly when it is a strong BUY |
| Bot.EntrySignalsSound | bot.py:300-314 | every entry is the analysis of some watchlist item whose symbol is not held |
| Bot.EntrySignalsComplete | bot.py:300-314 | every watchlist item whose symbol is not held is analysed |
| Bot.EntryNotHeld | bot.py:304-306 | held symbols are never scanned |
| Bot.EntryOf | bot.py:300-314 | no analysis for a held symbol, otherwise its analysis; characterised by `Bot.EntrySignalsSnoc` and `Bot.EntryNotHeld` |
| Bot.EntrySignals | bot.py:299-314 | the analyses of the unheld watchlist items in order; characterised by `Bot.EntrySignalsSound` and `Bot.EntrySignalsComplete` |
| Bot.ScanEntries | bot.py:299-324 | nothing analysed once the cap on positions is reached, otherwise the entry signals; characterised by `Bot.RankedBuys` and `Bot.StrongBuysPriced` |
| Bot.WatchlistSellsIgnored | bot.py:319-320 | no watchlist signal is among the exits: watchlist SELLs never become sell signals |
| Bot.RankedBuys | bot.py:316-327 | the ranked buys are the strong BUYs of unheld symbols, sorted by non-increasing strength, a permutation of them, with ties kept in scan order |
| Bot.StrongBuysPriced | bot.py:316-317 | every strong BUY carries a positive price |
| Bot.SellOne | bot.py:342-351 | one sell leaves the ledger valid |
| Bot.BuyOne | bot.py:359-373 | one buy leaves the ledger valid |
| Bot.ExecuteSells | bot.py:342-351 | the sell loop leaves the ledger valid |
| Bot.ExecuteBuys | bot.py:354-373 | the buy loop leaves the ledger valid |
| Bot.Execute | bot.py:334-375 | `execute_signals` leaves the ledger valid |
| Bot.RemoveHolds | bot.py:343 | a symbol held after a deletion was held before |
| Bot.SellOneEffect | bot.py:342-351 | a sell signal for an unheld symbol changes nothing; a held one is sold whole, removed and reported as a SELL; the held symbols shrink, and the ledger identity, equity-curve spacing and starting cash are kept |
| Bot.SellOneHeld | bot.py:343-350 | for a held symbol the sell is the whole holding at the signal's price, with its first three reasons, saved and reported |
| Bot.SellOneCloses | bot.py:343-350 | that sell removes the position and appends one SELL to what was executed |
| Bot.SellOneKeeps | bot.py:343-350 | that sell keeps the ledger identity, the spacing of the equity curve and the starting cash, and holds nothing new |
| Bot.BuyOneEffect | bot.py:359-373 | a zero size changes nothing; otherwise one BUY of that size and of at least $10 is reported; at most one position is added; the invariants are kept |
| Bot.ExecuteSellsEffect | bot.py:342-351 | the sells append only SELL trades of symbols held before, one position closed per trade, and keep the invariants |
| Bot.ExecuteBuysEffect | bot.py:354-373 | the buys append only BUY trades of positive size and at least $10; nothing is bought at the cap; the cap is never exceeded by buying; the invariants are kept |
| Bot.ExecuteDisabled | bot.py:338-339 | with auto execution off nothing changes |
| Bot.ExecuteOrder | bot.py:341-373 | every sell comes before every buy, sells are of held symbols only, and each buy is at least $10 |
| Bot.ExecuteKeepsInvariants | bot.py:334-375 | executing keeps the position count within the cap (or where it was), the ledger identity, the curve's spacing and the starting cash |
| Bot.OpenClawBot.constructor | bot.py:50-60 | the bot holds its configuration, the built watchlist and an empty log |
| Bot.OpenClawBot.CheckExitConditions | bot.py:217-257 | the loop over positions returns exactly `ExitSignals` |
| Bot.OpenClawBot.ScanItem | bot.py:300-317 | one watchlist step: stop exactly at the cap for an unheld symbol; otherwise add the item's entry, and the strong buys follow |
| Bot.OpenClawBot.ScanWatchlist | bot.py:299-324 | the watchlist loop returns exactly `ScanEntries` and its strong buys |
| Bot.OpenClawBot.RunScan | bot.py:276-332 | sells are the exits; buys are the strong entries ranked; all signals are the exits then the entries; the log is set to them; the watchlist is kept |
| Bot.OpenClawBot.SellStep | bot.py:342-351 | one pass of the sell loop moves the portfolio as `SellOne` |
| Bot.OpenClawBot.BuyStep | bot.py:359-373 | one pass of the buy loop moves the portfolio as `BuyOne` |
| Bot.OpenClawBot.ExecuteSignals | bot.py:334-375 | the two loops move the portfolio as `Execute` and return what it reports |
| Ranking.Insert | bot.py:327 | inserting adds one item |
| Ranking.SortDesc | bot.py:327 | sorting keeps the length |
| Ranking.InsertSorted | bot.py:327 | inserting into a sorted list keeps it sorted |
| Ranking.InsertPermutes | bot.py:327 | inserting adds exactly the item |
| Ranking.InsertKeepsTies | bot.py:327 | inserting in front of its ties keeps equal keys in arrival order |
| Ranking.SortDescSorted | bot.py:327 | the result is sorted by non-increasing key |
| Ranking.SortDescPermutes | bot.py:327 | the result is a permutation of the input |
| Ranking.SortDescStable | bot.py:327 | items with equal keys keep their input order |
| Ranking.RankingCorrect | bot.py:327 | `sort(key, reverse=True)`: sorted non-increasing, a permutation, and stable |
| Ranking.SortDescMembers | bot.py:327 | every item of the result is an item of the input |
| TextOrder.StrLeTotal | engine.py:208 | any two symbols are ordered one way or the other |
| TextOrder.StrLeTrans | engine.py:208 | the symbol order is transitive |
| TextOrder.InsertBy | engine.py:208 | inserting adds one item |
| TextOrder.SortBy | engine.py:208 | sorting keeps the length |
| TextOrder.InsertByPermutes | engine.py:208 | inserting adds exactly the item |
| TextOrder.InsertBySorted | engine.py:208 | inserting into a sorted list keeps it sorted |
| TextOrder.InsertByBound | engine.py:208 | a lower bound of the item and of the list bounds the result |
| TextOrder.SortBySorted | engine.py:208 | `sorted(positions.items())` orders by symbol |
| TextOrder.SortByPermutes | engine.py:208 | it is a permutation |
| TextOrder.SortByCorrect | engine.py:208 | sorted by symbol and a permutation |
| MarketClock.Split | live_trader.py:97 | an instant is its day plus its time of day, which is within the day |
| MarketClock.DayOf | live_trader.py:97 | `replace(hour, minute)` lands on the same day at that time |
| MarketClock.NoLongWeekend | live_trader.py:105-106 | of three consecutive days one is a weekday |
| MarketClock.ClosedAtWeekends | live_trader.py:77-78 | no instant on a Saturday or Sunday is in market hours |
| MarketClock.IsWeekday | live_trader.py:66-70 | Monday to Friday; characterised by `MarketClock.ClosedAtWeekends` and `MarketClock.NoOpeningBefore` |
| MarketClock.IsMarketHours | live_trader.py:73-87 | a weekday, within the session's open and close, both included; characterised by `MarketClock.ClosedAtWeekends`, `MarketClock.RegularWithinExtended` and `MarketClock.OpenForHalfAMinute` |
| MarketClock.RegularWithinExtended | live_trader.py:80-87 | the regular session lies within the extended one |
| MarketClock.TimeUntilMarketOpen | live_trader.py:90-109 | the opening returned is strictly after now, on a weekday at the session's open, with no opening in between, at most three days away, and the seconds are the difference |
| MarketClock.NoOpeningBefore | live_trader.py:99-108 | with only weekend days in between, no session opens before the opening of that day |
| MarketClock.ClosedUntilOpening | live_trader.py:347 | from a closed instant the market stays closed until the next opening |
| MarketClock.OpenForHalfAMinute | multi_trader.py:400-401 | the 30 seconds after an opening are in market hours |
| MarketClock.FormatDuration | live_trader.py:112-118 | whole hours and minutes past them, minutes within [0, 59], hours shown exactly when there is at least one |
| MarketClock.ShortDuration | multi_trader.py:87-90 | under an hour only the minutes are shown |
| MarketClock.WeekendDurationExample | live_trader.py:112-118 | 65 h 30 min 59 s is shown as 65 h 30 m |
| LiveTrader.RefreshSymbols | live_trader.py:161-165 | the symbols priced are exactly the held ones of the mode (all, or the crypto ones) |
| LiveTrader.Quotes | engine.py:328-366 | `get_current_prices` gives one entry per symbol asked, read from the feed (`None` for a symbol it has no quote for), none negative |
| LiveTrader.Refresh | live_trader.py:160-177 | the refresh step keeps the ledger valid and reports no trades |
| LiveTrader.RefreshEffect | live_trader.py:160-177 | in crypto-only mode only crypto positions are marked; all positions otherwise; cash and history are kept |
| LiveTrader.RefreshedOne | live_trader.py:161-171 | a position is marked with the feed's price exactly when it is in the mode |
| LiveTrader.RefreshSymbolsMode | live_trader.py:165 | a held symbol is priced exactly when its position is in the mode |
| LiveTrader.QuotedMark | live_trader.py:169-171 | a symbol asked is marked with the feed's price, and one not asked is left alone |
| LiveTrader.KeepsTransitive | live_trader.py:279-361 | what a cycle keeps composes over cycles |
| LiveTrader.RefreshKeeps | live_trader.py:160-177 | refreshing keeps the ledger identity, the spacing of the equity curve and the cap |
| LiveTrader.ScanPriced | bot.py:292-332 | the scan's sells and buys carry the prices execution needs |
| LiveTrader.ExitsPriced | bot.py:252-255 | exits carry the non-negative current price |
| LiveTrader.RankedBuysPriced | bot.py:327 | ranked buys carry positive prices |
| LiveTrader.Cycle | live_trader.py:145-216 | a cycle leaves the ledger valid |
| LiveTrader.CycleKeeps | live_trader.py:145-216 | a cycle keeps the ledger identity, the curve's spacing, the starting cash and the cap |
| LiveTrader.ScanOnlyTradesNothing | live_trader.py:191-196 | a scan-only cycle executes nothing, leaving trade history and cash as refreshed |
| LiveTrader.CryptoScanIsCrypto | live_trader.py:180-185 | in crypto-only mode every watchlist signal and every buy is crypto |
| LiveTrader.CryptoScan | live_trader.py:180-185 | a scan over crypto entries gives only crypto entries and buys |
| LiveTrader.RankedCrypto | bot.py:316-327 | ranking crypto signals keeps them crypto |
| LiveTrader.CryptoEntries | live_trader.py:183 | the entries of the filtered watchlist are crypto |
| LiveTrader.RunCycle | live_trader.py:145-216 | `run_cycle` moves the portfolio as `Cycle`, returns its trade count, restores the watchlist, and leaves as log the scan of the mode's watchlist over the refreshed positions |
| LiveTrader.RefreshPortfolio | live_trader.py:160-177 | step 1 moves the portfolio as `Refresh` |
| LiveTrader.ScanFor | live_trader.py:180-187 | step 2 scans the mode's watchlist and then restores the original one |
| LiveTrader.ScanList | live_trader.py:180-185 | the crypto items only in crypto mode, otherwise the whole watchlist; characterised by `LiveTrader.CryptoScanIsCrypto` |
| LiveTrader.ScanOf | bot.py:276-332 | `run_scan`'s ranked buys, exits and log; characterised by `LiveTrader.ScanPriced`, `LiveTrader.CryptoScanIsCrypto` and `LiveTrader.ScanFor` |
| LiveTrader.InterruptibleWait | live_trader.py:303-305 | the wait never overshoots its deadline, moves in 5-second steps, and ends within one step of shutdown |
| LiveTrader.SaveSessionLog | live_trader.py:219-233 | an unreadable file is left alone |
| LiveTrader.SessionLogNewestKept | live_trader.py:227-229 | the saved log keeps min(500, old + new) entries and ends with the newest: all of this session's when they fit, and the whole old file besides when both fit |
| LiveTrader.TraceStep | live_trader.py:285-294 | a cycle adds its trades to the total and its log entry to the log |
| LiveTrader.ProgressStep | live_trader.py:283-361 | a scheduled cycle that keeps the invariants extends the session's bookkeeping: cycles + 1, trades + its trades, its log entry |
| LiveTrader.SessionCycle | live_trader.py:285-319 | one cycle and its counters, at the current instant, in the mode of the branch |
| LiveTrader.RunSession | live_trader.py:236-379 | the session ends at shutdown; every cycle ran where the calendar allows it; the counters count the cycles and their trades; the log holds one entry per logged cycle; a scan-only session traded nothing; without crypto 24/7 only market cycles ran; the log file is saved once at the end |
| LiveTrader.ProgressLater | live_trader.py:345-355 | waiting keeps the bookkeeping |
| LiveTrader.CryptoNaps | live_trader.py:352-355 | the naps end after four intervals, at the opening or at shutdown |
| LiveTrader.WaitForOpen | live_trader.py:332-361 | the closed branch ends in market hours or at shutdown, and its crypto cycles keep the bookkeeping |
| MultiTrader.RosterDistinct | multi_trader.py:36-42 | every competitor is on the roster once, under a distinct id |
| MultiTrader.LoadableWhateverDefaults | engine.py:303-314 | whether a stored state is well-formed does not depend on the defaults |
| MultiTrader.SnapshotLoadable | engine.py:246-258 | a saved valid ledger loads back valid |
| MultiTrader.SellOneLoadable | engine.py:193 | what a sell saves loads back |
| MultiTrader.BuyOneLoadable | engine.py:149 | what a buy saves loads back |
| MultiTrader.ExecuteSellsLoadable | bot.py:342-351 | what the sell loop saves loads back |
| MultiTrader.ExecuteBuysLoadable | bot.py:354-373 | what the buy loop saves loads back |
| MultiTrader.CycleLoadable | multi_trader.py:119-132 | what a bot's cycle saves loads back on its next cycle |
| MultiTrader.PlaceholderLooksFresh | multi_trader.py:159-162 | the fallback summary is that of an untouched $10,000 portfolio |
| MultiTrader.FiguresOf | multi_trader.py:134-162 | the summary's figures, or the placeholder's; characterised by `MultiTrader.PlaceholderLooksFresh` |
| MultiTrader.ReturnPct | multi_trader.py:185 | the figure the leaderboard sorts on; characterised by `MultiTrader.BotReport` and `MultiTrader.LeaderboardRanked` |
| MultiTrader.Fails | multi_trader.py:107-116 | loading raises: no configuration, or no starting cash in it; characterised by `MultiTrader.BotReport` and `MultiTrader.BotRun` |
| MultiTrader.Loaded | multi_trader.py:116 | a bot's cycle starts from `Portfolio.load` of its directory |
| MultiTrader.LoadedValid | multi_trader.py:116 | the loaded ledger is valid |
| MultiTrader.LoadedLoadable | multi_trader.py:116 | what loading writes loads back |
| MultiTrader.BotRun | multi_trader.py:113-132 | a bot's cycle leaves its ledger valid |
| MultiTrader.BotRunLoadable | multi_trader.py:113-132 | and saves a loadable state |
| MultiTrader.BotReport | multi_trader.py:107-166 | the result names its bot; it is the placeholder exactly when the directory fails to load, with no trades, no signals and a 0% return |
| MultiTrader.BotStep | multi_trader.py:107-166 | a failed bot's directory is untouched; every directory stays ready for the next round |
| MultiTrader.ScanOnlyBotTradesNothing | multi_trader.py:130-132 | a scan-only bot reports no trades and the loaded cash and trade count |
| MultiTrader.BotRunKeeps | multi_trader.py:119-132 | a bot's cycle keeps the ledger identity, the curve's spacing, the starting cash and the cap |
| MultiTrader.RunSingleBot | multi_trader.py:107-166 | `run_single_bot` returns `BotReport` and leaves `BotStep` |
| MultiTrader.RoundResults | multi_trader.py:179-182 | one result per bot run |
| MultiTrader.RoundDirs | multi_trader.py:179-182 | one directory per bot run, each ready |
| MultiTrader.ResultsSeparately | multi_trader.py:179-182 | the k-th result is the k-th roster bot's own report, naming it |
| MultiTrader.DirsSeparately | multi_trader.py:179-182 | the k-th directory is what the k-th bot's own cycle left |
| MultiTrader.Leaderboard | multi_trader.py:185 | the leaderboard has one row per result |
| MultiTrader.LeaderboardRanked | multi_trader.py:185 | the leaderboard is a permutation of the results, ordered by non-increasing return, ties in roster order |
| MultiTrader.RunAllBots | multi_trader.py:169-198 | every roster bot runs once, in order; the results, in roster order, are returned unranked, and the leaderboard ranks them |
| MultiTrader.WaitForOpen | multi_trader.py:391-401 | the closed branch polls every 30 s and ends in market hours or at shutdown, within 30 s after the next opening, and not before it unless shut down |
| MultiTrader.ArenaStep | multi_trader.py:356-401 | a round runs exactly with `--once` or in market hours, followed unless `--once` by the interval's wait; otherwise only the wait, with nothing run |
| MultiTrader.RunArena | multi_trader.py:353-401 | with `--once` exactly one round at the start, unless already shut down; otherwise rounds only in market hours, until shutdown, at least one round's length apart, every directory staying ready |

## Left out

- Network and file I/O. Prices and indicator tables come in as a `Feed`. Tables are taken as
  given: the pandas numerics of `get_technical_data` are not modelled. Files are values
  (`StoredFile`, `LogFile`) that the model reads and replaces. `_save_value_snapshot`
  replaces an unreadable `value_history.json` with an empty list; the model's equity
  history is always readable, so that case is not modelled.
- The dashboards, deployment, `seed_data.py`, `run.py`, and all printing and formatting.
  `get_signals_summary` is the signal log itself.
- Floating point. Quantities and prices are `real`. `round(x, 4)` is a function within
  1/20000 of `x`; Python's tie-breaking is not modelled.
- The wall clock. `datetime.now()` becomes an integer instant. Time has whole seconds only.
  The eastern offset is built into the simulated clock. Timestamps are instants, not ISO
  strings.
- Signal handlers and the global `running` flag. They become the instant `stopAt`.
- Every cycle takes `cycleSecs` ≥ 1 seconds of simulated time. The model assumes this so
  that the loops end. `time.sleep` is an advance of the clock.
- In the closed-market branch of `live_trader.py`, the 60-second poll is taken whole. A
  shutdown during it is seen after it.
- `time_until_market_open` is only used for printing in the source's loops. It is modelled
  and proved (`MarketClock.TimeUntilMarketOpen`).
  - multi_trader's wait uses it to bound its polling.
  - live_trader's wait does not call it.
- `run_scan` catches exceptions per symbol. The model has none to catch, because tables
  have positive closes. `run_single_bot` catches any exception. It is modelled for the two
  ways loading fails: no configuration, and no `starting_cash`. Other failures are not
  modelled.
- `Portfolio.load` is modelled for stored states that decode to a valid ledger
  (non-negative cash, distinct symbols, sound positions). The key each position is stored
  under is taken to be its own symbol. `Portfolio.Load` also requires a non-negative
  starting cash.
- `Portfolio.buy` requires a positive quantity and price. These are what `execute_signals`
  passes it.
- Ledger.ApplySell: requires a non-negative quantity and price, although `sell` accepts any
  number. `execute_signals` passes the position's own quantity and its non-negative mark.
- Ledger.UpdatePrices, Engine.Portfolio.UpdatePrices and LiveTrader.Quotes: quotes are taken
  to be non-negative. A zero close from the fallback path of `get_current_prices` is
  covered; a negative one is not. The ledger invariant needs non-negative marks.
- `upper()` upper-cases ASCII letters only.
- `BB_Lower` and `BB_Upper` are read by the source but unused, so the model leaves them out.
- The executed messages are modelled as `Executed` records carrying the trade. The bots'
  emoji, colour and description fields are not modelled.
- `--interval` parsing and the arena's `--reset`, `--status`, `--test` and `--deploy` modes
  are not modelled. `--interval` is the `intervalMin` option.
- RunArena: states the rounds' times and that every directory stays ready. It does not
  relate the final directories to the sequence of rounds. Each round is stated by
  `MultiTrader.ArenaStep`.
- BotResult: carries the competitor rather than its id, name, emoji and colour. Id and name
  are functions of the competitor.

## Where the code differs from its description

The model follows the code:

- The moving-average family can add to both sides in one evaluation: a rising trend on the
  buy side and an EMA cross below on the sell side (`Signals.AveragesCanFeedBothSides`).
- Re-averaging into a held position keeps `high_since_entry` and `entry_date` unchanged.
- Crypto-only cycles still check exits over all positions, not only the crypto ones.
- The crypto cycles of the closed-market branch are counted in the cycles and trades but
  are not added to the session log. That branch is entered on weekends when trading crypto
  around the clock, and it stays in its polling loop until the market opens, so these
  unlogged cycles go on through a Monday morning before the opening.
- With a zero or negative interval the waits are empty.
- The session log is written once, at shutdown.
- `run_all_bots` returns the results in roster order, not ranked. Only the leaderboard
  printout is ranked.
- multi_trader's `is_market_hours` is the regular session only.
