/**
 * bot.py `OpenClawBot`: the watchlist it is built with, and the two halves of a trading
 * cycle.  `run_scan` turns the held positions into exit signals and the watchlist into
 * ranked entry signals; `execute_signals` carries out every exit before any entry and
 * stops buying at the position cap.
 */
module Bot {
  import opened Common
  import opened Signals
  import opened Risk
  import opened Ledger
  import Engine
  import EquityHistory
  import Ranking

  // ---------------------------------------------------------------- watchlist

  /** The `watchlist` section of the configuration; an absent key is an empty list. */
  datatype WatchlistConfig = WatchlistConfig(stocks: seq<string>, etfs: seq<string>, crypto: seq<string>)

  /** One entry of the flat watchlist: a symbol and the asset class it was listed under. */
  datatype WatchItem = WatchItem(symbol: string, assetType: AssetType)

  function Tagged(symbols: seq<string>, t: AssetType): (r: seq<WatchItem>)
    ensures |r| == |symbols| && forall k :: 0 <= k < |symbols| ==> r[k] == WatchItem(symbols[k], t)
  {
    seq(|symbols|, k requires 0 <= k < |symbols| => WatchItem(symbols[k], t))
  }

  /** The flat watchlist: the stocks, then the ETFs, then the crypto symbols. */
  function Watchlist(lists: WatchlistConfig): seq<WatchItem> {
    Tagged(lists.stocks, Stock) + Tagged(lists.etfs, Etf) + Tagged(lists.crypto, Crypto)
  }

  /** `_build_watchlist`: appends each list's symbols in turn, tagged with their class. */
  method BuildWatchlist(lists: WatchlistConfig) returns (items: seq<WatchItem>)
    ensures items == Watchlist(lists)
  {
    items := [];
    for k := 0 to |lists.stocks|
      invariant items == Tagged(lists.stocks, Stock)[..k]
    {
      items := items + [WatchItem(lists.stocks[k], Stock)];
    }
    ghost var stocks := items;
    for k := 0 to |lists.etfs|
      invariant items == stocks + Tagged(lists.etfs, Etf)[..k]
    {
      items := items + [WatchItem(lists.etfs[k], Etf)];
    }
    ghost var listed := items;
    for k := 0 to |lists.crypto|
      invariant items == listed + Tagged(lists.crypto, Crypto)[..k]
    {
      items := items + [WatchItem(lists.crypto[k], Crypto)];
    }
  }

  /** The crypto entries of a watchlist, in order. */
  function CryptoItems(wl: seq<WatchItem>): (r: seq<WatchItem>)
    ensures forall k :: 0 <= k < |r| ==> r[k].assetType == Crypto && r[k] in wl
    decreases |wl|
  {
    if |wl| == 0 then []
    else CryptoItems(wl[..|wl| - 1]) + (if wl[|wl| - 1].assetType == Crypto then [wl[|wl| - 1]] else [])
  }

  lemma {:induction false} CryptoItemsAppend(a: seq<WatchItem>, b: seq<WatchItem>)
    ensures CryptoItems(a + b) == CryptoItems(a) + CryptoItems(b)
    decreases |b|
  {
    if |b| == 0 {
      assert a + b == a;
    } else {
      assert (a + b)[..|a + b| - 1] == a + b[..|b| - 1];
      CryptoItemsAppend(a, b[..|b| - 1]);
    }
  }

  lemma {:induction false} CryptoItemsOfTagged(symbols: seq<string>, t: AssetType)
    ensures CryptoItems(Tagged(symbols, t)) == if t == Crypto then Tagged(symbols, t) else []
    decreases |symbols|
  {
    if |symbols| > 0 {
      var init := symbols[..|symbols| - 1];
      var all, front := Tagged(symbols, t), Tagged(init, t);
      var last := WatchItem(symbols[|symbols| - 1], t);
      assert all == front + [last];
      assert all[..|all| - 1] == front;
      assert CryptoItems(all) == CryptoItems(front) + (if t == Crypto then [last] else []);
      CryptoItemsOfTagged(init, t);
    }
  }

  /** The crypto entries of the built watchlist are exactly the configured crypto symbols. */
  lemma WatchlistCrypto(lists: WatchlistConfig)
    ensures CryptoItems(Watchlist(lists)) == Tagged(lists.crypto, Crypto)
  {
    var stocks, etfs, crypto := Tagged(lists.stocks, Stock), Tagged(lists.etfs, Etf), Tagged(lists.crypto, Crypto);
    CryptoItemsAppend(stocks + etfs, crypto);
    CryptoItemsAppend(stocks, etfs);
    CryptoItemsOfTagged(lists.stocks, Stock);
    CryptoItemsOfTagged(lists.etfs, Etf);
    CryptoItemsOfTagged(lists.crypto, Crypto);
    assert CryptoItems(stocks + etfs) == [];
  }

  // ---------------------------------------------------------------- exits

  /** The exit signal for one position, as a list of zero or one. */
  function ExitOf(cfg: BotConfig, p: Position, feed: Feed): seq<Signal>
    requires ValidFeed(feed)
  {
    match ExitSignal(cfg, p, Table(feed, p.symbol))
    case Some(s) => [s]
    case None => []
  }

  /** `check_exit_conditions`: the exits of the positions, in the positions' order. */
  function ExitSignals(cfg: BotConfig, ps: seq<Position>, feed: Feed): seq<Signal>
    requires ValidFeed(feed)
    decreases |ps|
  {
    if |ps| == 0 then [] else ExitSignals(cfg, ps[..|ps| - 1], feed) + ExitOf(cfg, ps[|ps| - 1], feed)
  }

  /** One more position adds its own exit, if any, at the end. */
  lemma ExitSignalsSnoc(cfg: BotConfig, ps: seq<Position>, k: nat, feed: Feed)
    requires ValidFeed(feed) && k < |ps|
    ensures ExitSignals(cfg, ps[..k + 1], feed) == ExitSignals(cfg, ps[..k], feed) + ExitOf(cfg, ps[k], feed)
  {
    assert ps[..k + 1][..k] == ps[..k];
  }

  /** Every exit is a strength-5 SELL of a held symbol at its marked price. */
  predicate ExitFor(ps: seq<Position>, s: Signal) {
    exists i :: 0 <= i < |ps| && ps[i].symbol == s.symbol && s.price == Some(ps[i].currentPrice)
                && s.action == Sell && s.strength == ExitStrength && s.assetType == ps[i].assetType
  }

  lemma {:induction false} ExitSignalsSound(cfg: BotConfig, ps: seq<Position>, feed: Feed)
    requires ValidFeed(feed)
    ensures var r := ExitSignals(cfg, ps, feed);
            |r| <= |ps| && forall j :: 0 <= j < |r| ==> ExitFor(ps, r[j])
    decreases |ps|
  {
    if |ps| > 0 {
      var init := ps[..|ps| - 1];
      ExitSignalsSound(cfg, init, feed);
      var r := ExitSignals(cfg, ps, feed);
      forall j | 0 <= j < |r| ensures ExitFor(ps, r[j]) {
        if j < |ExitSignals(cfg, init, feed)| {
          var i :| 0 <= i < |init| && init[i].symbol == r[j].symbol && r[j].price == Some(init[i].currentPrice)
                   && r[j].action == Sell && r[j].strength == ExitStrength && r[j].assetType == init[i].assetType;
          assert ps[i] == init[i];
        } else {
          assert ps[|ps| - 1].symbol == r[j].symbol;
        }
      }
    }
  }

  /** A position on which a stop, target or trailing rule fires gets an exit carrying exactly those rules. */
  lemma ExitOfRules(cfg: BotConfig, p: Position, feed: Feed)
    requires ValidFeed(feed) && ExitRules(cfg, p) != []
    ensures ExitOf(cfg, p, feed) == [Signal(Sell, p.symbol, ExitStrength, ExitRules(cfg, p), Some(p.currentPrice), p.assetType)]
  {
  }

  /** Some signal in `r` is for `symbol` and carries `reasons`. */
  predicate HasSignal(r: seq<Signal>, symbol: string, reasons: seq<Reason>) {
    exists j :: 0 <= j < |r| && r[j].symbol == symbol && r[j].reasons == reasons
  }

  /** The exits of two position lists in turn are the exits of the first, then those of the second. */
  lemma {:induction false} ExitSignalsAppend(cfg: BotConfig, a: seq<Position>, b: seq<Position>, feed: Feed)
    requires ValidFeed(feed)
    ensures ExitSignals(cfg, a + b, feed) == ExitSignals(cfg, a, feed) + ExitSignals(cfg, b, feed)
    decreases |b|
  {
    if |b| == 0 {
      assert a + b == a;
    } else {
      var init := b[..|b| - 1];
      assert (a + b)[..|a + b| - 1] == a + init && (a + b)[|a + b| - 1] == b[|b| - 1];
      ExitSignalsAppend(cfg, a, init, feed);
      ConcatAssoc(ExitSignals(cfg, a, feed), ExitSignals(cfg, init, feed), ExitOf(cfg, b[|b| - 1], feed));
    }
  }

  /** Every position on which a rule fires has an exit in the scan, carrying those rules. */
  lemma ExitSignalsComplete(cfg: BotConfig, ps: seq<Position>, feed: Feed, i: nat)
    requires ValidFeed(feed) && i < |ps| && ExitRules(cfg, ps[i]) != []
    ensures HasSignal(ExitSignals(cfg, ps, feed), ps[i].symbol, ExitRules(cfg, ps[i]))
  {
    ExitSignalsAround(cfg, ps, feed, i);
    ExitOfRules(cfg, ps[i], feed);
    var r := ExitSignals(cfg, ps, feed);
    var r0 := ExitSignals(cfg, ps[..i], feed);
    assert r[|r0|] == ExitOf(cfg, ps[i], feed)[0];
  }

  /** The exits split around any position: those of the positions before it, its own, those after it. */
  lemma ExitSignalsAround(cfg: BotConfig, ps: seq<Position>, feed: Feed, i: nat)
    requires ValidFeed(feed) && i < |ps|
    ensures ExitSignals(cfg, ps, feed)
              == ExitSignals(cfg, ps[..i], feed) + ExitOf(cfg, ps[i], feed) + ExitSignals(cfg, ps[i + 1..], feed)
  {
    assert ps == ps[..i + 1] + ps[i + 1..];
    ExitSignalsAppend(cfg, ps[..i + 1], ps[i + 1..], feed);
    ExitSignalsSnoc(cfg, ps, i, feed);
  }

  // ---------------------------------------------------------------- entries

  /** The entry analysis of one watchlist item: none for a held symbol. */
  function EntryOf(cfg: BotConfig, ps: seq<Position>, feed: Feed, item: WatchItem): seq<Signal>
    requires ValidFeed(feed)
  {
    if Holds(ps, item.symbol) then []
    else [AnalyzeSymbol(cfg.strategy, item.symbol, item.assetType, Table(feed, item.symbol))]
  }

  function EntrySignals(cfg: BotConfig, wl: seq<WatchItem>, ps: seq<Position>, feed: Feed): seq<Signal>
    requires ValidFeed(feed)
    decreases |wl|
  {
    if |wl| == 0 then [] else EntrySignals(cfg, wl[..|wl| - 1], ps, feed) + EntryOf(cfg, ps, feed, wl[|wl| - 1])
  }

  /**
   * The watchlist part of `run_scan`: held symbols are skipped, and once the portfolio
   * holds the maximum number of positions the scan stops at the first symbol not held,
   * so nothing is analyzed at all.
   */
  function ScanEntries(cfg: BotConfig, wl: seq<WatchItem>, ps: seq<Position>, feed: Feed): seq<Signal>
    requires ValidFeed(feed)
  {
    if |ps| >= cfg.maxPositions then [] else EntrySignals(cfg, wl, ps, feed)
  }

  /** The BUY signals of at least the minimum strength, in order. */
  function StrongBuys(st: Strategy, sigs: seq<Signal>): (r: seq<Signal>)
    ensures forall k :: 0 <= k < |r| ==> r[k] in sigs && r[k].action == Buy && r[k].strength >= st.minSignalStrength
    decreases |sigs|
  {
    if |sigs| == 0 then []
    else
      var s := sigs[|sigs| - 1];
      StrongBuys(st, sigs[..|sigs| - 1]) + (if s.action == Buy && s.strength >= st.minSignalStrength then [s] else [])
  }

  function Strength(s: Signal): real { s.strength }

  /** One more watchlist item adds its own entry analysis at the end. */
  lemma EntrySignalsSnoc(cfg: BotConfig, wl: seq<WatchItem>, k: nat, ps: seq<Position>, feed: Feed)
    requires ValidFeed(feed) && k < |wl|
    ensures EntrySignals(cfg, wl[..k + 1], ps, feed) == EntrySignals(cfg, wl[..k], ps, feed) + EntryOf(cfg, ps, feed, wl[k])
  {
    assert wl[..k + 1][..k] == wl[..k];
  }

  /** One more signal is kept at the end exactly when it is a strong BUY. */
  lemma StrongBuysSnoc(st: Strategy, sigs: seq<Signal>, s: Signal)
    ensures StrongBuys(st, sigs + [s])
            == StrongBuys(st, sigs) + (if s.action == Buy && s.strength >= st.minSignalStrength then [s] else [])
  {
    assert (sigs + [s])[..|sigs|] == sigs;
  }

  /** Entry signals name watchlist symbols that are not held, each one that symbol's analysis. */
  lemma {:induction false} EntrySignalsSound(cfg: BotConfig, wl: seq<WatchItem>, ps: seq<Position>, feed: Feed)
    requires ValidFeed(feed)
    ensures forall j :: 0 <= j < |EntrySignals(cfg, wl, ps, feed)| ==>
              && !Holds(ps, EntrySignals(cfg, wl, ps, feed)[j].symbol)
              && exists k :: 0 <= k < |wl| && EntrySignals(cfg, wl, ps, feed)[j]
                                               == AnalyzeSymbol(cfg.strategy, wl[k].symbol, wl[k].assetType, Table(feed, wl[k].symbol))
    decreases |wl|
  {
    if |wl| > 0 {
      var init := wl[..|wl| - 1];
      var last := wl[|wl| - 1];
      EntrySignalsSound(cfg, init, ps, feed);
      var r := EntrySignals(cfg, wl, ps, feed);
      var r0 := EntrySignals(cfg, init, ps, feed);
      assert r == r0 + EntryOf(cfg, ps, feed, last);
      forall j | 0 <= j < |r|
        ensures !Holds(ps, r[j].symbol)
        ensures exists k :: 0 <= k < |wl| && r[j] == AnalyzeSymbol(cfg.strategy, wl[k].symbol, wl[k].assetType, Table(feed, wl[k].symbol))
      {
        if j < |r0| {
          assert r[j] == r0[j];
          var k :| 0 <= k < |init| && r0[j] == AnalyzeSymbol(cfg.strategy, init[k].symbol, init[k].assetType, Table(feed, init[k].symbol));
          assert wl[k] == init[k];
        } else {
          assert r[j] == AnalyzeSymbol(cfg.strategy, last.symbol, last.assetType, Table(feed, last.symbol));
        }
      }
    }
  }

  /** Every watchlist symbol that is not held has its analysis among the entry signals. */
  lemma {:induction false} EntrySignalsComplete(cfg: BotConfig, wl: seq<WatchItem>, ps: seq<Position>, feed: Feed)
    requires ValidFeed(feed)
    ensures forall k :: 0 <= k < |wl| && !Holds(ps, wl[k].symbol) ==>
              AnalyzeSymbol(cfg.strategy, wl[k].symbol, wl[k].assetType, Table(feed, wl[k].symbol)) in EntrySignals(cfg, wl, ps, feed)
    decreases |wl|
  {
    if |wl| > 0 {
      var init := wl[..|wl| - 1];
      var last := wl[|wl| - 1];
      EntrySignalsComplete(cfg, init, ps, feed);
      var r := EntrySignals(cfg, wl, ps, feed);
      var r0 := EntrySignals(cfg, init, ps, feed);
      assert r == r0 + EntryOf(cfg, ps, feed, last);
      forall k | 0 <= k < |wl| && !Holds(ps, wl[k].symbol)
        ensures AnalyzeSymbol(cfg.strategy, wl[k].symbol, wl[k].assetType, Table(feed, wl[k].symbol)) in r
      {
        if k < |init| {
          assert init[k] == wl[k];
        } else {
          assert r[|r0|] == AnalyzeSymbol(cfg.strategy, last.symbol, last.assetType, Table(feed, last.symbol));
        }
      }
    }
  }

  lemma EntryNotHeld(cfg: BotConfig, wl: seq<WatchItem>, ps: seq<Position>, feed: Feed, k: nat)
    requires ValidFeed(feed) && k < |EntrySignals(cfg, wl, ps, feed)|
    ensures !Holds(ps, EntrySignals(cfg, wl, ps, feed)[k].symbol)
  {
    EntrySignalsSound(cfg, wl, ps, feed);
  }

  /**
   * A SELL found while scanning the watchlist is never an exit: exits name held symbols
   * and the watchlist scan skips them.
   */
  lemma WatchlistSellsIgnored(cfg: BotConfig, wl: seq<WatchItem>, ps: seq<Position>, feed: Feed)
    requires ValidFeed(feed)
    ensures forall s :: s in ScanEntries(cfg, wl, ps, feed) ==> s !in ExitSignals(cfg, ps, feed)
  {
    var exits := ExitSignals(cfg, ps, feed);
    var entries := EntrySignals(cfg, wl, ps, feed);
    ExitSignalsSound(cfg, ps, feed);
    forall s | s in ScanEntries(cfg, wl, ps, feed) ensures s !in exits {
      assert s in entries;
      var k :| 0 <= k < |entries| && entries[k] == s;
      EntryNotHeld(cfg, wl, ps, feed, k);
    }
  }

  /** The ranked buys are the strong BUYs of the scan, largest strength first, ties in scan order. */
  lemma RankedBuys(cfg: BotConfig, wl: seq<WatchItem>, ps: seq<Position>, feed: Feed)
    requires ValidFeed(feed)
    ensures var strong := StrongBuys(cfg.strategy, ScanEntries(cfg, wl, ps, feed));
            var buys := Ranking.SortDesc(strong, Strength);
            && Ranking.SortedDesc(buys, Strength)
            && multiset(buys) == multiset(strong)
            && (forall v :: Ranking.WithKey(buys, Strength, v) == Ranking.WithKey(strong, Strength, v))
            && (forall k :: 0 <= k < |buys| ==> buys[k].action == Buy && buys[k].strength >= cfg.strategy.minSignalStrength
                                                && !Holds(ps, buys[k].symbol))
  {
    var entries := ScanEntries(cfg, wl, ps, feed);
    var strong := StrongBuys(cfg.strategy, entries);
    Ranking.RankingCorrect(strong, Strength);
    EntrySignalsSound(cfg, wl, ps, feed);
    var buys := Ranking.SortDesc(strong, Strength);
    forall k | 0 <= k < |buys|
      ensures buys[k].action == Buy && buys[k].strength >= cfg.strategy.minSignalStrength && !Holds(ps, buys[k].symbol)
    {
      assert buys[k] in multiset(strong);
      var j :| 0 <= j < |strong| && strong[j] == buys[k];
      assert strong[j] in entries;
    }
  }

  /** A strong BUY from the scan is priced at a positive close. */
  lemma StrongBuysPriced(cfg: BotConfig, wl: seq<WatchItem>, ps: seq<Position>, feed: Feed)
    requires ValidFeed(feed)
    ensures AllBuyPriced(StrongBuys(cfg.strategy, ScanEntries(cfg, wl, ps, feed)))
  {
    var entries := ScanEntries(cfg, wl, ps, feed);
    var strong := StrongBuys(cfg.strategy, entries);
    EntrySignalsSound(cfg, wl, ps, feed);
    forall k | 0 <= k < |strong| ensures BuyPriced(strong[k]) {
      var j :| 0 <= j < |entries| && entries[j] == strong[k];
      var i :| 0 <= i < |wl| && entries[j] == AnalyzeSymbol(cfg.strategy, wl[i].symbol, wl[i].assetType, Table(feed, wl[i].symbol));
      var t := Table(feed, wl[i].symbol);
      assert Sufficient(t);
      assert ValidTable(t.value);
      assert Latest(t.value).close > 0.0;
    }
  }

  // ---------------------------------------------------------------- execution

  /** What `execute_signals` reports for a trade it made. */
  datatype Executed = Executed(action: Action, symbol: string, trade: Trade)

  /** A portfolio as `execute_signals` sees it: the ledger, its two files, and the trades made so far. */
  datatype Run = Run(ledger: LedgerState, file: StoredFile, history: seq<EquityHistory.EquitySnapshot>, executed: seq<Executed>)

  /** A sell signal's price, if it has one, is not negative. */
  predicate SellPriced(s: Signal) { s.price.Some? ==> s.price.value >= 0.0 }

  /** A buy signal carries a positive price. */
  predicate BuyPriced(s: Signal) { s.price.Some? && s.price.value > 0.0 }

  /** `" | ".join(reasons[:3])`: the first three reasons go on the trade. */
  function Reasons3(r: seq<Reason>): seq<Reason> { r[..Min(3, |r|)] }

  /** A trade went through: the ledger is saved, the equity curve offered a point, the trade reported. */
  function Committed(r: Run, l: LedgerState, action: Action, symbol: string, now: int): Run
    requires |l.tradeHistory| > 0
  {
    Run(l, Stored(Snapshot(l)), EquityHistory.Record(r.history, Engine.EquityPoint(l, now)),
        r.executed + [Executed(action, symbol, l.tradeHistory[|l.tradeHistory| - 1])])
  }

  /** One sell signal: a held symbol is sold in full at the signal's price; anything else is passed over. */
  function SellOne(r: Run, s: Signal, now: int): (x: Run)
    requires ValidLedger(r.ledger) && SellPriced(s)
    ensures ValidLedger(x.ledger)
  {
    if !Holds(r.ledger.positions, s.symbol) then r
    else match ApplySell(r.ledger, s.symbol, None, s.price, Reasons3(s.reasons), now)
      case Failure(_) => r
      case Success(l) => Committed(r, l, Sell, s.symbol, now)
  }

  /** One buy signal: sized by the risk policy, skipped when the size is zero. */
  function BuyOne(cfg: BotConfig, r: Run, s: Signal, now: int): (x: Run)
    requires ValidLedger(r.ledger) && BuyPriced(s)
    ensures ValidLedger(x.ledger)
  {
    var price := s.price.value;
    var q := PositionSize(cfg, TotalValue(r.ledger), r.ledger.cash, price);
    if q <= 0.0 then r
    else match ApplyBuy(r.ledger, s.symbol, q, price, s.assetType, Reasons3(s.reasons), now)
      case Failure(_) => r
      case Success(l) => Committed(r, l, Buy, s.symbol, now)
  }

  predicate AllSellPriced(sells: seq<Signal>) { forall k :: 0 <= k < |sells| ==> SellPriced(sells[k]) }
  predicate AllBuyPriced(buys: seq<Signal>) { forall k :: 0 <= k < |buys| ==> BuyPriced(buys[k]) }

  /** The sell loop of `execute_signals`. */
  function ExecuteSells(r: Run, sells: seq<Signal>, now: int): (x: Run)
    requires ValidLedger(r.ledger) && AllSellPriced(sells)
    ensures ValidLedger(x.ledger)
    decreases |sells|
  {
    if |sells| == 0 then r else ExecuteSells(SellOne(r, sells[0], now), sells[1..], now)
  }

  /** The buy loop of `execute_signals`: it ends for good once the position cap is reached. */
  function ExecuteBuys(cfg: BotConfig, r: Run, buys: seq<Signal>, now: int): (x: Run)
    requires ValidLedger(r.ledger) && AllBuyPriced(buys)
    ensures ValidLedger(x.ledger)
    decreases |buys|
  {
    if |buys| == 0 then r
    else if |r.ledger.positions| >= cfg.maxPositions then r
    else ExecuteBuys(cfg, BuyOne(cfg, r, buys[0], now), buys[1..], now)
  }

  /** `execute_signals`: nothing when automatic execution is off, else every sell and then the buys. */
  function Execute(cfg: BotConfig, r: Run, buys: seq<Signal>, sells: seq<Signal>, auto: bool, now: int): (x: Run)
    requires ValidLedger(r.ledger) && AllSellPriced(sells) && AllBuyPriced(buys)
    ensures ValidLedger(x.ledger)
  {
    if !auto then r else ExecuteBuys(cfg, ExecuteSells(r, sells, now), buys, now)
  }

  /** Taking one thing out of the positions leaves only symbols that were held. */
  lemma RemoveHolds(ps: seq<Position>, i: nat, sym: string)
    requires i < |ps| && Holds(Remove(ps, i), sym)
    ensures Holds(ps, sym)
  {
    var rest := Remove(ps, i);
    var k :| 0 <= k < |rest| && rest[k].symbol == sym;
    if k < i { assert ps[k].symbol == sym; } else { assert ps[k + 1].symbol == sym; }
  }

  /**
   * A sell signal for a held symbol always goes through: it closes that position, books
   * one SELL and holds nothing new.  One for a symbol not held changes nothing.
   */
  lemma SellOneEffect(r: Run, s: Signal, now: int)
    requires ValidLedger(r.ledger) && SellPriced(s)
    ensures var x := SellOne(r, s, now);
            && (!Holds(r.ledger.positions, s.symbol) ==> x == r)
            && (Holds(r.ledger.positions, s.symbol) ==>
                  && x.executed == r.executed + [x.executed[|x.executed| - 1]]
                  && x.executed[|x.executed| - 1].action == Sell
                  && x.executed[|x.executed| - 1].symbol == s.symbol
                  && x.executed[|x.executed| - 1].trade.action == SellTrade
                  && |x.ledger.positions| == |r.ledger.positions| - 1
                  && !Holds(x.ledger.positions, s.symbol))
            && (forall sym :: Holds(x.ledger.positions, sym) ==> Holds(r.ledger.positions, sym))
            && (Balanced(r.ledger) ==> Balanced(x.ledger))
            && (EquityHistory.Spaced(r.history) ==> EquityHistory.Spaced(x.history))
            && x.ledger.startingCash == r.ledger.startingCash
  {
    var l := r.ledger;
    if Holds(l.positions, s.symbol) {
      var i :| 0 <= i < |l.positions| && l.positions[i].symbol == s.symbol;
      SellOneCloses(r, s, now, i);
      SellOneKeeps(r, s, now, i);
    }
  }

  /** Selling a held symbol commits the full sale of its position at the signal's price. */
  lemma SellOneHeld(r: Run, s: Signal, now: int, i: nat)
    requires ValidLedger(r.ledger) && SellPriced(s)
    requires i < |r.ledger.positions| && r.ledger.positions[i].symbol == s.symbol
    ensures var pos := r.ledger.positions[i];
            var n := Sold(r.ledger, i, pos.quantity, s.price.GetOr(pos.currentPrice), Reasons3(s.reasons), now);
            |n.tradeHistory| > 0 && SellOne(r, s, now) == Committed(r, n, Sell, s.symbol, now)
  {
    var pos := r.ledger.positions[i];
    SellSucceeds(r.ledger, s.symbol, None, s.price, Reasons3(s.reasons), now, i);
  }

  /** The sale of a held symbol is recorded as one executed SELL and closes its position. */
  lemma SellOneCloses(r: Run, s: Signal, now: int, i: nat)
    requires ValidLedger(r.ledger) && SellPriced(s)
    requires i < |r.ledger.positions| && r.ledger.positions[i].symbol == s.symbol
    ensures var x := SellOne(r, s, now);
            && x.executed == r.executed + [x.executed[|x.executed| - 1]]
            && x.executed[|x.executed| - 1].action == Sell
            && x.executed[|x.executed| - 1].symbol == s.symbol
            && x.executed[|x.executed| - 1].trade.action == SellTrade
            && |x.ledger.positions| == |r.ledger.positions| - 1
            && !Holds(x.ledger.positions, s.symbol)
  {
    var l := r.ledger;
    var pos := l.positions[i];
    var p := s.price.GetOr(pos.currentPrice);
    var n := Sold(l, i, pos.quantity, p, Reasons3(s.reasons), now);
    SellOneHeld(r, s, now, i);
    SoldCloses(l, i, pos.quantity, p, Reasons3(s.reasons), now);
    SoldAccounting(l, i, pos.quantity, p, Reasons3(s.reasons), now);
    SellRecordContents(pos, pos.quantity, p, Reasons3(s.reasons), n.cash, now);
    var x := Committed(r, n, Sell, s.symbol, now);
    assert x.executed == r.executed + [Executed(Sell, s.symbol, n.tradeHistory[|n.tradeHistory| - 1])];
    assert n.tradeHistory[|n.tradeHistory| - 1] == SellRecord(pos, pos.quantity, p, Reasons3(s.reasons), n.cash, now);
  }

  /** The sale of a held symbol keeps the accounting identity, the spacing and the starting cash, and holds nothing new. */
  lemma SellOneKeeps(r: Run, s: Signal, now: int, i: nat)
    requires ValidLedger(r.ledger) && SellPriced(s)
    requires i < |r.ledger.positions| && r.ledger.positions[i].symbol == s.symbol
    ensures var x := SellOne(r, s, now);
            && (forall sym :: Holds(x.ledger.positions, sym) ==> Holds(r.ledger.positions, sym))
            && (Balanced(r.ledger) ==> Balanced(x.ledger))
            && (EquityHistory.Spaced(r.history) ==> EquityHistory.Spaced(x.history))
            && x.ledger.startingCash == r.ledger.startingCash
  {
    var l := r.ledger;
    var pos := l.positions[i];
    var p := s.price.GetOr(pos.currentPrice);
    var n := Sold(l, i, pos.quantity, p, Reasons3(s.reasons), now);
    SellOneHeld(r, s, now, i);
    SoldCloses(l, i, pos.quantity, p, Reasons3(s.reasons), now);
    SoldAccounting(l, i, pos.quantity, p, Reasons3(s.reasons), now);
    var x := Committed(r, n, Sell, s.symbol, now);
    assert x.ledger == n && x.history == EquityHistory.Record(r.history, Engine.EquityPoint(n, now));
    if Balanced(l) {
      SoldKeepsBalanced(l, i, pos.quantity, p, Reasons3(s.reasons), now);
    }
    if EquityHistory.Spaced(r.history) {
      EquityHistory.RecordKeepsSpaced(r.history, Engine.EquityPoint(n, now));
    }
    forall sym | Holds(n.positions, sym) ensures Holds(l.positions, sym) {
      RemoveHolds(l.positions, i, sym);
    }
  }

  /**
   * A buy signal with a nonzero size always goes through, since the size never costs more
   * than the cash: it books one BUY of at least the minimum order and adds at most one position.
   */
  lemma BuyOneEffect(cfg: BotConfig, r: Run, s: Signal, now: int)
    requires ValidLedger(r.ledger) && BuyPriced(s)
    ensures var x := BuyOne(cfg, r, s, now);
            var q := PositionSize(cfg, TotalValue(r.ledger), r.ledger.cash, s.price.value);
            && (q <= 0.0 ==> x == r)
            && (q > 0.0 ==>
                  && x.executed == r.executed + [x.executed[|x.executed| - 1]]
                  && var e := x.executed[|x.executed| - 1];
                     e.action == Buy && e.symbol == s.symbol && e.trade.action == BuyTrade
                     && e.trade.quantity == q && e.trade.quantity > 0.0 && e.trade.total >= MinOrder)
            && |x.ledger.positions| <= |r.ledger.positions| + 1
            && (Balanced(r.ledger) ==> Balanced(x.ledger))
            && (EquityHistory.Spaced(r.history) ==> EquityHistory.Spaced(x.history))
            && x.ledger.startingCash == r.ledger.startingCash
  {
    var l := r.ledger;
    var price := s.price.value;
    var q := PositionSize(cfg, TotalValue(l), l.cash, price);
    if q > 0.0 {
      PositionSizeAffordable(cfg, TotalValue(l), l.cash, price);
      var reasons := Reasons3(s.reasons);
      BuyAppendsRecord(l, s.symbol, q, price, s.assetType, reasons, now);
      if Balanced(l) {
        BuyKeepsBalanced(l, s.symbol, q, price, s.assetType, reasons, now);
      }
      var n := ApplyBuy(l, s.symbol, q, price, s.assetType, reasons, now).value;
      if EquityHistory.Spaced(r.history) {
        EquityHistory.RecordKeepsSpaced(r.history, Engine.EquityPoint(n, now));
      }
    }
  }

  /** What the sell loop as a whole does: only SELLs of held symbols, each closing a position. */
  lemma {:induction false} ExecuteSellsEffect(r: Run, sells: seq<Signal>, now: int)
    requires ValidLedger(r.ledger) && AllSellPriced(sells)
    ensures var x := ExecuteSells(r, sells, now);
            && |x.executed| >= |r.executed| && x.executed[..|r.executed|] == r.executed
            && (forall i :: |r.executed| <= i < |x.executed| ==>
                  x.executed[i].action == Sell && x.executed[i].trade.action == SellTrade
                  && Holds(r.ledger.positions, x.executed[i].symbol))
            && |x.ledger.positions| + (|x.executed| - |r.executed|) == |r.ledger.positions|
            && (Balanced(r.ledger) ==> Balanced(x.ledger))
            && (EquityHistory.Spaced(r.history) ==> EquityHistory.Spaced(x.history))
            && x.ledger.startingCash == r.ledger.startingCash
    decreases |sells|
  {
    if |sells| > 0 {
      var y := SellOne(r, sells[0], now);
      SellOneEffect(r, sells[0], now);
      ExecuteSellsEffect(y, sells[1..], now);
      var x := ExecuteSells(r, sells, now);
      assert x == ExecuteSells(y, sells[1..], now);
      assert x.executed[..|y.executed|] == y.executed;
      assert x.executed[..|r.executed|] == x.executed[..|y.executed|][..|r.executed|];
      forall i | |r.executed| <= i < |x.executed|
        ensures x.executed[i].action == Sell && x.executed[i].trade.action == SellTrade
             && Holds(r.ledger.positions, x.executed[i].symbol)
      {
        if i < |y.executed| {
          assert x.executed[i] == y.executed[i];
        }
      }
    }
  }

  /**
   * What the buy loop as a whole does: only BUYs of at least the minimum order, and no
   * buy at all once the portfolio is at the cap, which it never goes beyond.
   */
  lemma {:induction false} ExecuteBuysEffect(cfg: BotConfig, r: Run, buys: seq<Signal>, now: int)
    requires ValidLedger(r.ledger) && AllBuyPriced(buys)
    ensures var x := ExecuteBuys(cfg, r, buys, now);
            && |x.executed| >= |r.executed| && x.executed[..|r.executed|] == r.executed
            && (forall i :: |r.executed| <= i < |x.executed| ==>
                  x.executed[i].action == Buy && x.executed[i].trade.action == BuyTrade
                  && x.executed[i].trade.quantity > 0.0 && x.executed[i].trade.total >= MinOrder)
            && (|r.ledger.positions| >= cfg.maxPositions ==> x == r)
            && |x.ledger.positions| <= Max(|r.ledger.positions|, cfg.maxPositions)
            && (Balanced(r.ledger) ==> Balanced(x.ledger))
            && (EquityHistory.Spaced(r.history) ==> EquityHistory.Spaced(x.history))
            && x.ledger.startingCash == r.ledger.startingCash
    decreases |buys|
  {
    if |buys| > 0 && |r.ledger.positions| < cfg.maxPositions {
      var y := BuyOne(cfg, r, buys[0], now);
      BuyOneEffect(cfg, r, buys[0], now);
      ExecuteBuysEffect(cfg, y, buys[1..], now);
      var x := ExecuteBuys(cfg, r, buys, now);
      assert x == ExecuteBuys(cfg, y, buys[1..], now);
      assert x.executed[..|y.executed|] == y.executed;
      assert x.executed[..|r.executed|] == x.executed[..|y.executed|][..|r.executed|];
      forall i | |r.executed| <= i < |x.executed|
        ensures x.executed[i].action == Buy && x.executed[i].trade.action == BuyTrade
             && x.executed[i].trade.quantity > 0.0 && x.executed[i].trade.total >= MinOrder
      {
        if i < |y.executed| {
          assert x.executed[i] == y.executed[i];
        }
      }
    }
  }

  /** With automatic execution off nothing is traded, saved or recorded. */
  lemma ExecuteDisabled(cfg: BotConfig, r: Run, buys: seq<Signal>, sells: seq<Signal>, now: int)
    requires ValidLedger(r.ledger) && AllSellPriced(sells) && AllBuyPriced(buys)
    ensures Execute(cfg, r, buys, sells, false, now) == r
  {
  }

  /**
   * `execute_signals` reports every SELL before any BUY; the sales name symbols held at
   * the start, and every purchase is of at least the minimum order.
   */
  lemma ExecuteOrder(cfg: BotConfig, r: Run, buys: seq<Signal>, sells: seq<Signal>, auto: bool, now: int)
    requires ValidLedger(r.ledger) && AllSellPriced(sells) && AllBuyPriced(buys) && r.executed == []
    ensures var x := Execute(cfg, r, buys, sells, auto, now);
            && (forall i, j :: 0 <= i < j < |x.executed| && x.executed[i].action == Buy ==> x.executed[j].action == Buy)
            && (forall i :: 0 <= i < |x.executed| && x.executed[i].action == Sell ==> Holds(r.ledger.positions, x.executed[i].symbol))
            && (forall i :: 0 <= i < |x.executed| && x.executed[i].action == Buy ==> x.executed[i].trade.total >= MinOrder)
  {
    if auto {
      var y := ExecuteSells(r, sells, now);
      var x := ExecuteBuys(cfg, y, buys, now);
      assert x == Execute(cfg, r, buys, sells, auto, now);
      ExecuteSellsEffect(r, sells, now);
      ExecuteBuysEffect(cfg, y, buys, now);
      var e := x.executed;
      var m := |y.executed|;
      assert forall i :: 0 <= i < m ==> e[i] == y.executed[i];
      assert forall i :: 0 <= i < m ==> e[i].action == Sell && Holds(r.ledger.positions, e[i].symbol);
      assert forall i :: m <= i < |e| ==> e[i].action == Buy && e[i].trade.total >= MinOrder;
    }
  }

  /**
   * `execute_signals` never takes the portfolio past the position cap, or above its
   * count on entry when that was already over it, and keeps the ledger balanced and
   * the equity curve spaced.
   */
  lemma ExecuteKeepsInvariants(cfg: BotConfig, r: Run, buys: seq<Signal>, sells: seq<Signal>, auto: bool, now: int)
    requires ValidLedger(r.ledger) && AllSellPriced(sells) && AllBuyPriced(buys)
    ensures var x := Execute(cfg, r, buys, sells, auto, now);
            && |x.ledger.positions| <= Max(|r.ledger.positions|, cfg.maxPositions)
            && (Balanced(r.ledger) ==> Balanced(x.ledger))
            && (EquityHistory.Spaced(r.history) ==> EquityHistory.Spaced(x.history))
            && x.ledger.startingCash == r.ledger.startingCash
  {
    if auto {
      ExecuteSellsEffect(r, sells, now);
      ExecuteBuysEffect(cfg, ExecuteSells(r, sells, now), buys, now);
    }
  }

  // ---------------------------------------------------------------- the bot object

  /** The run a portfolio is in, with the trades reported so far. */
  function RunOf(p: Engine.Portfolio, executed: seq<Executed>): Run
    reads p
  {
    Run(p.State(), p.savedFile, p.valueHistory, executed)
  }

  class OpenClawBot {
    const config: BotConfig
    var watchlist: seq<WatchItem>
    /** The signals of the last scan. */
    var signalsLog: seq<Signal>

    /** `OpenClawBot.__init__`: the settings, the flat watchlist, an empty signal log. */
    constructor (config: BotConfig, lists: WatchlistConfig)
      ensures this.config == config && watchlist == Watchlist(lists) && signalsLog == []
    {
      this.config := config;
      var items := BuildWatchlist(lists);
      watchlist := items;
      signalsLog := [];
    }

    /** `check_exit_conditions`: one pass over the positions in order. */
    method CheckExitConditions(portfolio: Engine.Portfolio, feed: Feed) returns (exits: seq<Signal>)
      requires ValidFeed(feed)
      ensures exits == ExitSignals(config, portfolio.positions, feed)
    {
      var ps := portfolio.positions;
      exits := [];
      for k := 0 to |ps|
        invariant exits == ExitSignals(config, ps[..k], feed)
      {
        ExitSignalsSnoc(config, ps, k, feed);
        var e := ExitSignal(config, ps[k], Table(feed, ps[k].symbol));
        if e.Some? {
          exits := exits + [e.value];
        }
      }
      assert ps[..|ps|] == ps;
    }

    /**
     * One watchlist item of `run_scan`: a held symbol is skipped, a symbol not held
     * stops the scan once at the cap, and any other symbol is analyzed, its signal
     * logged and, when it is a strong BUY, kept aside.
     */
    method ScanItem(ps: seq<Position>, feed: Feed, item: WatchItem, entries: seq<Signal>, strong: seq<Signal>)
      returns (entries': seq<Signal>, strong': seq<Signal>, stop: bool)
      requires ValidFeed(feed) && strong == StrongBuys(config.strategy, entries)
      ensures stop <==> !Holds(ps, item.symbol) && |ps| >= config.maxPositions
      ensures entries' == if stop then entries else entries + EntryOf(config, ps, feed, item)
      ensures strong' == StrongBuys(config.strategy, entries')
    {
      entries', strong', stop := entries, strong, false;
      if Find(ps, item.symbol).Some? {
        return;
      }
      if |ps| >= config.maxPositions {
        stop := true;
        return;
      }
      var signal := AnalyzeSymbol(config.strategy, item.symbol, item.assetType, Table(feed, item.symbol));
      StrongBuysSnoc(config.strategy, entries, signal);
      entries' := entries + [signal];
      if signal.action == Buy && signal.strength >= config.strategy.minSignalStrength {
        strong' := strong + [signal];
      }
    }

    /**
     * The watchlist loop of `run_scan`: held symbols are skipped, the loop stops at the
     * first symbol not held once at the cap, every other symbol is analyzed, and the
     * strong BUYs are kept aside in order.
     */
    method ScanWatchlist(ps: seq<Position>, feed: Feed) returns (entries: seq<Signal>, strong: seq<Signal>)
      requires ValidFeed(feed)
      ensures entries == ScanEntries(config, watchlist, ps, feed)
      ensures strong == StrongBuys(config.strategy, entries)
    {
      entries := [];
      strong := [];
      var k := 0;
      while k < |watchlist|
        invariant 0 <= k <= |watchlist|
        invariant entries == (if |ps| >= config.maxPositions then [] else EntrySignals(config, watchlist[..k], ps, feed))
        invariant strong == StrongBuys(config.strategy, entries)
      {
        EntrySignalsSnoc(config, watchlist, k, ps, feed);
        var stop;
        entries, strong, stop := ScanItem(ps, feed, watchlist[k], entries, strong);
        if stop {
          break;
        }
        k := k + 1;
      }
      assert watchlist[..|watchlist|] == watchlist;
    }

    /**
     * `run_scan`: the exits are the sell signals; the watchlist's entry analyses follow
     * them in the log; the strong BUYs among those, ranked, are the buy signals.
     */
    method RunScan(portfolio: Engine.Portfolio, feed: Feed) returns (buys: seq<Signal>, sells: seq<Signal>, all: seq<Signal>)
      requires ValidFeed(feed)
      modifies this
      ensures sells == ExitSignals(config, portfolio.positions, feed)
      ensures buys == Ranking.SortDesc(StrongBuys(config.strategy, ScanEntries(config, watchlist, portfolio.positions, feed)), Strength)
      ensures all == sells + ScanEntries(config, watchlist, portfolio.positions, feed)
      ensures signalsLog == all && watchlist == old(watchlist)
    {
      sells := CheckExitConditions(portfolio, feed);
      var entries, strong := ScanWatchlist(portfolio.positions, feed);
      buys := Ranking.SortDesc(strong, Strength);
      all := sells + entries;
      signalsLog := all;
    }

    /** One exit of `execute_signals`: a sell of the whole position when it is still held. */
    method SellStep(portfolio: Engine.Portfolio, executed: seq<Executed>, signal: Signal, now: int)
      returns (done: seq<Executed>)
      requires portfolio.Valid() && SellPriced(signal)
      modifies portfolio
      ensures portfolio.Valid()
      ensures RunOf(portfolio, done) == SellOne(old(RunOf(portfolio, executed)), signal, now)
    {
      done := executed;
      if Find(portfolio.positions, signal.symbol).Some? {
        var outcome := portfolio.Sell(signal.symbol, None, signal.price, Reasons3(signal.reasons), now);
        if outcome.Success? {
          done := done + [Executed(Sell, signal.symbol, outcome.value)];
        }
      }
    }

    /** One entry of `execute_signals` below the cap: sized by the risk policy, skipped at size zero. */
    method BuyStep(portfolio: Engine.Portfolio, executed: seq<Executed>, signal: Signal, now: int)
      returns (done: seq<Executed>)
      requires portfolio.Valid() && BuyPriced(signal)
      modifies portfolio
      ensures portfolio.Valid()
      ensures RunOf(portfolio, done) == BuyOne(config, old(RunOf(portfolio, executed)), signal, now)
    {
      done := executed;
      var price := signal.price.value;
      var quantity := PositionSize(config, TotalValue(portfolio.State()), portfolio.cash, price);
      if quantity <= 0.0 {
        return;
      }
      var outcome := portfolio.Buy(signal.symbol, quantity, price, signal.assetType, Reasons3(signal.reasons), now);
      if outcome.Success? {
        done := done + [Executed(Buy, signal.symbol, outcome.value)];
      }
    }

    /**
     * `execute_signals`: the portfolio ends where `Execute` says, its files and equity
     * curve included, and the reported trades are those `Execute` lists.
     */
    method ExecuteSignals(portfolio: Engine.Portfolio, buys: seq<Signal>, sells: seq<Signal>, auto: bool, now: int)
      returns (executed: seq<Executed>)
      requires portfolio.Valid() && AllSellPriced(sells) && AllBuyPriced(buys)
      modifies portfolio
      ensures portfolio.Valid()
      ensures RunOf(portfolio, executed) == Execute(config, old(RunOf(portfolio, [])), buys, sells, auto, now)
    {
      executed := [];
      if !auto {
        return;
      }
      ghost var start := RunOf(portfolio, []);
      var k := 0;
      while k < |sells|
        invariant 0 <= k <= |sells| && portfolio.Valid()
        invariant ExecuteSells(RunOf(portfolio, executed), sells[k..], now) == ExecuteSells(start, sells, now)
      {
        assert sells[k..][0] == sells[k] && sells[k..][1..] == sells[k + 1..];
        executed := SellStep(portfolio, executed, sells[k], now);
        k := k + 1;
      }
      ghost var mid := RunOf(portfolio, executed);
      k := 0;
      while k < |buys|
        invariant 0 <= k <= |buys| && portfolio.Valid()
        invariant ExecuteBuys(config, RunOf(portfolio, executed), buys[k..], now) == ExecuteBuys(config, mid, buys, now)
      {
        assert buys[k..][0] == buys[k] && buys[k..][1..] == buys[k + 1..];
        if |portfolio.positions| >= config.maxPositions {
          break;
        }
        executed := BuyStep(portfolio, executed, buys[k], now);
        k := k + 1;
      }
    }
  }
}
