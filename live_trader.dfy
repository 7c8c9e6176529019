/**
 * live_trader.py: one trading cycle (`run_cycle`) and the session loop of `main`, which
 * runs cycles by the market calendar until shutdown is requested.  Time is the
 * simulated clock of module MarketClock; the shutdown flag is down from `stopAt` on,
 * and every cycle takes `cycleSecs` seconds of it.  The market data at instant `t` is
 * `feedAt(t)`.
 */
module LiveTrader {
  import opened Common
  import opened Signals
  import opened Risk
  import opened Ledger
  import opened Bot
  import Engine
  import EquityHistory
  import Ranking
  import MarketClock

  // ---------------------------------------------------------------- refreshing prices

  /** Whether a cycle in this mode refreshes the position: every one, or only crypto ones. */
  predicate InMode(p: Position, cryptoOnly: bool) { !cryptoOnly || p.assetType == Crypto }

  /** The symbols step 1 of `run_cycle` asks prices for, in the positions' order. */
  function RefreshSymbols(ps: seq<Position>, cryptoOnly: bool): (r: seq<string>)
    ensures forall s :: s in r <==> exists i :: 0 <= i < |ps| && ps[i].symbol == s && InMode(ps[i], cryptoOnly)
    decreases |ps|
  {
    if |ps| == 0 then []
    else
      var init := ps[..|ps| - 1];
      var p := ps[|ps| - 1];
      assert forall i :: 0 <= i < |init| ==> init[i] == ps[i];
      RefreshSymbols(init, cryptoOnly) + (if InMode(p, cryptoOnly) then [p.symbol] else [])
  }

  /** `get_current_prices`: an entry for every symbol asked for, `None` where there is no quote. */
  function Quotes(feed: Feed, symbols: seq<string>): (m: map<string, Option<real>>)
    requires ValidFeed(feed)
    ensures forall s :: s in m <==> s in symbols
    ensures forall s :: s in m ==> m[s] == if s in feed.quotes then feed.quotes[s] else None
    ensures ValidQuotes(m)
  {
    map s | s in symbols :: if s in feed.quotes then feed.quotes[s] else None
  }

  /**
   * Step 1 of `run_cycle`: when there is anything to refresh, the quotes mark the
   * positions and the portfolio is saved; otherwise nothing happens.
   */
  function Refresh(r: Run, feed: Feed, cryptoOnly: bool, now: int): (x: Run)
    requires ValidLedger(r.ledger) && ValidFeed(feed)
    ensures ValidLedger(x.ledger) && x.executed == r.executed
  {
    var symbols := RefreshSymbols(r.ledger.positions, cryptoOnly);
    if symbols == [] then r
    else
      var l := UpdatePrices(r.ledger, Quotes(feed, symbols), now);
      Run(l, Stored(Snapshot(l)), EquityHistory.Record(r.history, Engine.EquityPoint(l, now)), r.executed)
  }

  /**
   * The refresh marks exactly the positions of the cycle's mode that have a quote, as
   * `update_prices` marks them; in crypto mode stocks and ETFs keep their old marks.
   * Cash and the trade history are untouched.
   */
  lemma RefreshEffect(r: Run, feed: Feed, cryptoOnly: bool, now: int)
    requires ValidLedger(r.ledger) && ValidFeed(feed)
    ensures var x := Refresh(r, feed, cryptoOnly, now);
            var ps := r.ledger.positions;
            && |x.ledger.positions| == |ps|
            && x.ledger.cash == r.ledger.cash && x.ledger.tradeHistory == r.ledger.tradeHistory
            && forall i :: 0 <= i < |ps| ==>
                 x.ledger.positions[i]
                 == (if InMode(ps[i], cryptoOnly) then MarkOne(ps[i], feed.quotes) else ps[i])
  {
    var ps := r.ledger.positions;
    var symbols := RefreshSymbols(ps, cryptoOnly);
    var x := Refresh(r, feed, cryptoOnly, now);
    if symbols == [] {
      assert x == r;
      forall i | 0 <= i < |ps| ensures !InMode(ps[i], cryptoOnly) {
        assert ps[i].symbol !in symbols;
      }
    } else {
      var m := Quotes(feed, symbols);
      assert x.ledger == UpdatePrices(r.ledger, m, now);
      assert x.ledger.positions == MarkPrices(ps, m);
      forall i | 0 <= i < |ps|
        ensures x.ledger.positions[i] == (if InMode(ps[i], cryptoOnly) then MarkOne(ps[i], feed.quotes) else ps[i])
      {
        RefreshedOne(ps, cryptoOnly, feed, i);
      }
    }
  }

  /** One position's mark under the refresh: the feed's quote in the cycle's mode, its old mark otherwise. */
  lemma RefreshedOne(ps: seq<Position>, cryptoOnly: bool, feed: Feed, i: nat)
    requires ValidFeed(feed) && DistinctSymbols(ps) && i < |ps|
    ensures var m := Quotes(feed, RefreshSymbols(ps, cryptoOnly));
            MarkOne(ps[i], m) == if InMode(ps[i], cryptoOnly) then MarkOne(ps[i], feed.quotes) else ps[i]
  {
    var symbols := RefreshSymbols(ps, cryptoOnly);
    RefreshSymbolsMode(ps, cryptoOnly, i);
    QuotedMark(ps[i], feed, symbols);
  }

  /** With one position per symbol, a position's symbol is refreshed exactly when it is in the cycle's mode. */
  lemma RefreshSymbolsMode(ps: seq<Position>, cryptoOnly: bool, i: nat)
    requires DistinctSymbols(ps) && i < |ps|
    ensures ps[i].symbol in RefreshSymbols(ps, cryptoOnly) <==> InMode(ps[i], cryptoOnly)
  {
    var sym := ps[i].symbol;
    if sym in RefreshSymbols(ps, cryptoOnly) {
      var j :| 0 <= j < |ps| && ps[j].symbol == sym && InMode(ps[j], cryptoOnly);
      assert j == i;
    }
  }

  /** Marking with the quotes of `symbols` is marking with the feed for those symbols, and nothing for the rest. */
  lemma QuotedMark(p: Position, feed: Feed, symbols: seq<string>)
    requires ValidFeed(feed)
    ensures p.symbol in symbols ==> MarkOne(p, Quotes(feed, symbols)) == MarkOne(p, feed.quotes)
    ensures p.symbol !in symbols ==> MarkOne(p, Quotes(feed, symbols)) == p
  {
    var m := Quotes(feed, symbols);
    if p.symbol in symbols {
      assert m[p.symbol] == if p.symbol in feed.quotes then feed.quotes[p.symbol] else None;
    } else {
      assert p.symbol !in m;
    }
  }

  // ---------------------------------------------------------------- what a cycle keeps

  /**
   * What holds from one state of the session to a later one: the ledger invariant, the
   * starting cash, the accounting identity and a spaced equity curve when they held
   * before, and no more positions than the cap (or than before, when already over it).
   */
  predicate Keeps(cfg: BotConfig, before: Run, after: Run) {
    && ValidLedger(after.ledger)
    && after.ledger.startingCash == before.ledger.startingCash
    && (Balanced(before.ledger) ==> Balanced(after.ledger))
    && (EquityHistory.Spaced(before.history) ==> EquityHistory.Spaced(after.history))
    && |after.ledger.positions| <= Max(|before.ledger.positions|, cfg.maxPositions)
  }

  lemma KeepsTransitive(cfg: BotConfig, a: Run, b: Run, c: Run)
    requires Keeps(cfg, a, b) && Keeps(cfg, b, c)
    ensures Keeps(cfg, a, c)
  {
  }

  lemma RefreshKeeps(cfg: BotConfig, r: Run, feed: Feed, cryptoOnly: bool, now: int)
    requires ValidLedger(r.ledger) && ValidFeed(feed)
    ensures Keeps(cfg, r, Refresh(r, feed, cryptoOnly, now))
  {
    var symbols := RefreshSymbols(r.ledger.positions, cryptoOnly);
    if symbols != [] {
      var m := Quotes(feed, symbols);
      var l := UpdatePrices(r.ledger, m, now);
      if Balanced(r.ledger) {
        UpdateKeepsBalanced(r.ledger, m, now);
      }
      if EquityHistory.Spaced(r.history) {
        EquityHistory.RecordKeepsSpaced(r.history, Engine.EquityPoint(l, now));
      }
    }
  }

  // ---------------------------------------------------------------- one cycle

  /** Step 2's watchlist: the crypto entries only, in crypto mode. */
  function ScanList(wl: seq<WatchItem>, cryptoOnly: bool): seq<WatchItem> {
    if cryptoOnly then CryptoItems(wl) else wl
  }

  /** What `run_scan` returns: the ranked buys, the exits, and every signal of the scan. */
  datatype Scan = Scan(buys: seq<Signal>, sells: seq<Signal>, log: seq<Signal>)

  function ScanOf(cfg: BotConfig, wl: seq<WatchItem>, ps: seq<Position>, feed: Feed): Scan
    requires ValidFeed(feed)
  {
    var entries := ScanEntries(cfg, wl, ps, feed);
    var sells := ExitSignals(cfg, ps, feed);
    Scan(Ranking.SortDesc(StrongBuys(cfg.strategy, entries), Strength), sells, sells + entries)
  }

  /** The scan's exits carry the positions' non-negative marks and its buys the positive closes, as execution needs. */
  lemma ScanPriced(cfg: BotConfig, wl: seq<WatchItem>, l: LedgerState, feed: Feed)
    requires ValidLedger(l) && ValidFeed(feed)
    ensures AllSellPriced(ScanOf(cfg, wl, l.positions, feed).sells)
    ensures AllBuyPriced(ScanOf(cfg, wl, l.positions, feed).buys)
  {
    ExitsPriced(cfg, l, feed);
    RankedBuysPriced(cfg, wl, l.positions, feed);
  }

  lemma ExitsPriced(cfg: BotConfig, l: LedgerState, feed: Feed)
    requires ValidLedger(l) && ValidFeed(feed)
    ensures AllSellPriced(ExitSignals(cfg, l.positions, feed))
  {
    var ps := l.positions;
    var sells := ExitSignals(cfg, ps, feed);
    ExitSignalsSound(cfg, ps, feed);
    forall k | 0 <= k < |sells| ensures SellPriced(sells[k]) {
      assert ExitFor(ps, sells[k]);
      var i :| 0 <= i < |ps| && ps[i].symbol == sells[k].symbol && sells[k].price == Some(ps[i].currentPrice);
      assert SoundPosition(ps[i]);
    }
  }

  lemma RankedBuysPriced(cfg: BotConfig, wl: seq<WatchItem>, ps: seq<Position>, feed: Feed)
    requires ValidFeed(feed)
    ensures AllBuyPriced(Ranking.SortDesc(StrongBuys(cfg.strategy, ScanEntries(cfg, wl, ps, feed)), Strength))
  {
    var strong := StrongBuys(cfg.strategy, ScanEntries(cfg, wl, ps, feed));
    var buys := Ranking.SortDesc(strong, Strength);
    StrongBuysPriced(cfg, wl, ps, feed);
    assert AllBuyPriced(strong);
    Ranking.SortDescMembers(strong, Strength);
    forall k | 0 <= k < |buys| ensures BuyPriced(buys[k]) {
      var j :| 0 <= j < |strong| && strong[j] == buys[k];
      assert BuyPriced(strong[j]);
    }
  }

  /**
   * `run_cycle`: refresh, scan (the crypto watchlist only in crypto mode, but the exits
   * of every position), then execute when not scan-only and there is a signal.
   */
  function Cycle(cfg: BotConfig, wl: seq<WatchItem>, r: Run, feed: Feed, scanOnly: bool, cryptoOnly: bool, now: int): (x: Run)
    requires ValidLedger(r.ledger) && ValidFeed(feed)
    ensures ValidLedger(x.ledger)
  {
    var r1 := Refresh(r, feed, cryptoOnly, now);
    var scan := ScanOf(cfg, ScanList(wl, cryptoOnly), r1.ledger.positions, feed);
    ScanPriced(cfg, ScanList(wl, cryptoOnly), r1.ledger, feed);
    if !scanOnly && (scan.buys != [] || scan.sells != []) then Execute(cfg, r1, scan.buys, scan.sells, true, now)
    else r1
  }

  lemma CycleKeeps(cfg: BotConfig, wl: seq<WatchItem>, r: Run, feed: Feed, scanOnly: bool, cryptoOnly: bool, now: int)
    requires ValidLedger(r.ledger) && ValidFeed(feed)
    ensures Keeps(cfg, r, Cycle(cfg, wl, r, feed, scanOnly, cryptoOnly, now))
  {
    var r1 := Refresh(r, feed, cryptoOnly, now);
    RefreshKeeps(cfg, r, feed, cryptoOnly, now);
    var scan := ScanOf(cfg, ScanList(wl, cryptoOnly), r1.ledger.positions, feed);
    ScanPriced(cfg, ScanList(wl, cryptoOnly), r1.ledger, feed);
    ExecuteKeepsInvariants(cfg, r1, scan.buys, scan.sells, true, now);
    KeepsTransitive(cfg, r, r1, Cycle(cfg, wl, r, feed, scanOnly, cryptoOnly, now));
  }

  /** A scan-only cycle trades nothing: the trade history and cash stay as they were. */
  lemma ScanOnlyTradesNothing(cfg: BotConfig, wl: seq<WatchItem>, r: Run, feed: Feed, cryptoOnly: bool, now: int)
    requires ValidLedger(r.ledger) && ValidFeed(feed)
    ensures var x := Cycle(cfg, wl, r, feed, true, cryptoOnly, now);
            x.executed == r.executed && x.ledger.tradeHistory == r.ledger.tradeHistory && x.ledger.cash == r.ledger.cash
  {
    RefreshEffect(r, feed, cryptoOnly, now);
  }

  /**
   * A crypto-only cycle analyzes only crypto watchlist entries, so every signal after
   * the exits, and every buy, is for a crypto asset.
   */
  lemma CryptoScanIsCrypto(cfg: BotConfig, wl: seq<WatchItem>, ps: seq<Position>, feed: Feed)
    requires ValidFeed(feed)
    ensures var scan := ScanOf(cfg, ScanList(wl, true), ps, feed);
            && (forall k :: |scan.sells| <= k < |scan.log| ==> scan.log[k].assetType == Crypto)
            && (forall k :: 0 <= k < |scan.buys| ==> scan.buys[k].assetType == Crypto)
  {
    CryptoEntries(cfg, wl, ps, feed);
    CryptoScan(cfg, CryptoItems(wl), ps, feed);
  }

  /** A scan whose watchlist entries are all crypto logs crypto after the exits and buys crypto only. */
  lemma CryptoScan(cfg: BotConfig, wl: seq<WatchItem>, ps: seq<Position>, feed: Feed)
    requires ValidFeed(feed) && AllCrypto(ScanEntries(cfg, wl, ps, feed))
    ensures var scan := ScanOf(cfg, wl, ps, feed);
            && (forall k :: |scan.sells| <= k < |scan.log| ==> scan.log[k].assetType == Crypto)
            && AllCrypto(scan.buys)
  {
    var scan := ScanOf(cfg, wl, ps, feed);
    var entries := ScanEntries(cfg, wl, ps, feed);
    var sells := ExitSignals(cfg, ps, feed);
    assert scan.sells == sells && scan.log == sells + entries;
    forall k | |sells| <= k < |scan.log| ensures scan.log[k].assetType == Crypto {
      assert scan.log[k] == entries[k - |sells|];
    }
    RankedCrypto(cfg.strategy, entries);
  }

  /** The ranked strong BUYs of crypto signals are crypto signals. */
  lemma RankedCrypto(st: Strategy, entries: seq<Signal>)
    requires AllCrypto(entries)
    ensures AllCrypto(Ranking.SortDesc(StrongBuys(st, entries), Strength))
  {
    var strong := StrongBuys(st, entries);
    var buys := Ranking.SortDesc(strong, Strength);
    Ranking.SortDescMembers(strong, Strength);
    forall k | 0 <= k < |buys| ensures buys[k].assetType == Crypto {
      var j :| 0 <= j < |strong| && strong[j] == buys[k];
      assert strong[j] in entries;
    }
  }

  predicate AllCrypto(sigs: seq<Signal>) { forall k :: 0 <= k < |sigs| ==> sigs[k].assetType == Crypto }

  lemma CryptoEntries(cfg: BotConfig, wl: seq<WatchItem>, ps: seq<Position>, feed: Feed)
    requires ValidFeed(feed)
    ensures AllCrypto(ScanEntries(cfg, CryptoItems(wl), ps, feed))
  {
    var cl := CryptoItems(wl);
    var es := EntrySignals(cfg, cl, ps, feed);
    EntrySignalsSound(cfg, cl, ps, feed);
    forall j | 0 <= j < |es| ensures es[j].assetType == Crypto {
      var k :| 0 <= k < |cl| && es[j] == AnalyzeSymbol(cfg.strategy, cl[k].symbol, cl[k].assetType, Table(feed, cl[k].symbol));
      assert cl[k].assetType == Crypto;
    }
  }

  /**
   * `run_cycle` on the objects: the portfolio ends where `Cycle` says, the bot's
   * watchlist is restored, its signal log holds the cycle's scan, and the count of
   * trades executed is returned.
   */
  method RunCycle(portfolio: Engine.Portfolio, bot: OpenClawBot, feed: Feed, scanOnly: bool, cryptoOnly: bool, now: int)
    returns (trades: int)
    requires portfolio.Valid() && ValidFeed(feed)
    modifies portfolio, bot
    ensures portfolio.Valid() && bot.watchlist == old(bot.watchlist)
    ensures var x := Cycle(bot.config, old(bot.watchlist), old(RunOf(portfolio, [])), feed, scanOnly, cryptoOnly, now);
            RunOf(portfolio, x.executed) == x && trades == |x.executed|
    ensures bot.signalsLog
            == ScanOf(bot.config, ScanList(old(bot.watchlist), cryptoOnly),
                      Refresh(old(RunOf(portfolio, [])), feed, cryptoOnly, now).ledger.positions, feed).log
  {
    ghost var r := RunOf(portfolio, []);
    RefreshPortfolio(portfolio, feed, cryptoOnly, now);
    ghost var r1 := RunOf(portfolio, []);
    var buys, sells, all := ScanFor(bot, portfolio, feed, cryptoOnly);
    ghost var scan := ScanOf(bot.config, ScanList(bot.watchlist, cryptoOnly), r1.ledger.positions, feed);
    ScanPriced(bot.config, ScanList(bot.watchlist, cryptoOnly), r1.ledger, feed);
    var executed: seq<Executed> := [];
    if !scanOnly && (buys != [] || sells != []) {
      executed := bot.ExecuteSignals(portfolio, buys, sells, true, now);
    } else {
      assert RunOf(portfolio, executed) == r1;
    }
    trades := |executed|;
  }

  /** Step 1 of `run_cycle`: the positions of the cycle's mode marked and the portfolio saved, when there are any. */
  method RefreshPortfolio(portfolio: Engine.Portfolio, feed: Feed, cryptoOnly: bool, now: int)
    requires portfolio.Valid() && ValidFeed(feed)
    modifies portfolio
    ensures portfolio.Valid()
    ensures RunOf(portfolio, []) == Refresh(old(RunOf(portfolio, [])), feed, cryptoOnly, now)
  {
    var symbols := RefreshSymbols(portfolio.positions, cryptoOnly);
    if symbols != [] {
      var prices := Quotes(feed, symbols);
      portfolio.UpdatePrices(prices, now);
      portfolio.Save(now);
    }
  }

  /**
   * Step 2 of `run_cycle`: the scan, over the crypto entries only in crypto mode, with the
   * full watchlist put back afterwards.
   */
  method ScanFor(bot: OpenClawBot, portfolio: Engine.Portfolio, feed: Feed, cryptoOnly: bool)
    returns (buys: seq<Signal>, sells: seq<Signal>, all: seq<Signal>)
    requires ValidFeed(feed)
    modifies bot
    ensures bot.watchlist == old(bot.watchlist)
    ensures Scan(buys, sells, all) == ScanOf(bot.config, ScanList(bot.watchlist, cryptoOnly), portfolio.positions, feed)
    ensures bot.signalsLog == all
  {
    if cryptoOnly {
      var original := bot.watchlist;
      bot.watchlist := CryptoItems(original);
      buys, sells, all := bot.RunScan(portfolio, feed);
      bot.watchlist := original;
    } else {
      buys, sells, all := bot.RunScan(portfolio, feed);
    }
  }

  // ---------------------------------------------------------------- waiting

  /**
   * The waits after a cycle: sleep in steps of at most five seconds until `until`,
   * looking at the shutdown flag before each step.  The wait never overshoots `until`
   * and ends within one step of a shutdown request.
   */
  method InterruptibleWait(now: int, until: int, stopAt: int) returns (t: int)
    ensures t >= until || t >= stopAt
    ensures now >= until || now >= stopAt ==> t == now
    ensures now < until && now < stopAt ==> now < t <= until && t < stopAt + 5
    ensures t == until || (t - now) % 5 == 0
  {
    t := now;
    while t < stopAt && t < until
      invariant now <= t && (now < until ==> t <= until)
      invariant t == now || t < stopAt + 5
      invariant now >= until || now >= stopAt ==> t == now
      invariant t == until || (t - now) % 5 == 0
      decreases until - t
    {
      t := t + Min(5, until - t);
    }
  }

  // ---------------------------------------------------------------- the session log

  /** The mode a session log entry records. */
  datatype Mode = MarketMode | CryptoOnlyMode

  datatype LogEntry = LogEntry(timestamp: int, mode: Mode, tradesExecuted: int, portfolioValue: real)

  /** `session_log.json`: absent, not a readable list, or a list of entries. */
  datatype LogFile = NoLog | CorruptLog | LogOf(entries: seq<LogEntry>)

  /** How many entries the log file keeps. */
  const MaxLogEntries: int := 500

  /**
   * `save_session_log`: the file's entries and the session's, keeping the last 500; a
   * file that cannot be read is left as it is.
   */
  function SaveSessionLog(file: LogFile, entries: seq<LogEntry>): (r: LogFile)
    ensures file.CorruptLog? <==> r.CorruptLog?
    ensures file.CorruptLog? ==> r == file
  {
    match file
    case CorruptLog => file
    case NoLog => LogOf(entries[|entries| - Min(MaxLogEntries, |entries|)..])
    case LogOf(existing) =>
      var all := existing + entries;
      LogOf(all[|all| - Min(MaxLogEntries, |all|)..])
  }

  /**
   * The saved log holds at most 500 entries and ends with the newest ones: all of this
   * session's when there are no more than 500, and the whole old file besides when
   * both fit.
   */
  lemma SessionLogNewestKept(file: LogFile, entries: seq<LogEntry>)
    requires !file.CorruptLog?
    ensures var r := SaveSessionLog(file, entries);
            var existing := if file.LogOf? then file.entries else [];
            && |r.entries| == Min(MaxLogEntries, |existing| + |entries|)
            && (|entries| <= MaxLogEntries ==> r.entries[|r.entries| - |entries|..] == entries)
            && (|existing| + |entries| <= MaxLogEntries ==> r.entries == existing + entries)
            && (forall k :: 0 <= k < |r.entries| ==> r.entries[k] in existing + entries)
  {
    var existing := if file.LogOf? then file.entries else [];
    var all := existing + entries;
    assert SaveSessionLog(file, entries).entries == all[|all| - Min(MaxLogEntries, |all|)..];
  }

  // ---------------------------------------------------------------- the session

  /** The command-line options of `main`. */
  datatype Options = Options(intervalMin: int, scanOnly: bool, extended: bool, crypto247: bool)

  /** The three places the session loop runs a cycle. */
  datatype CycleKind = InMarket | CryptoAfterHours | CryptoWhileClosed

  /** One cycle of the session: when it ran, where, its trades, and the clock and value after it. */
  datatype CycleEvent = CycleEvent(at: int, kind: CycleKind, trades: int, endsAt: int, valueAfter: real)

  function TotalTrades(trace: seq<CycleEvent>): int
    decreases |trace|
  {
    if |trace| == 0 then 0 else TotalTrades(trace[..|trace| - 1]) + trace[|trace| - 1].trades
  }

  /** The log entry of a cycle: market and weekday crypto cycles are logged, the others not. */
  function LoggedEntry(e: CycleEvent): seq<LogEntry> {
    match e.kind
    case InMarket => [LogEntry(e.endsAt, MarketMode, e.trades, e.valueAfter)]
    case CryptoAfterHours => [LogEntry(e.endsAt, CryptoOnlyMode, e.trades, e.valueAfter)]
    case CryptoWhileClosed => []
  }

  function SessionEntries(trace: seq<CycleEvent>): seq<LogEntry>
    decreases |trace|
  {
    if |trace| == 0 then [] else SessionEntries(trace[..|trace| - 1]) + LoggedEntry(trace[|trace| - 1])
  }

  /** Where a cycle at instant `t` is allowed by the calendar and the options. */
  predicate Scheduled(opts: Options, e: CycleEvent) {
    match e.kind
    case InMarket => MarketClock.IsMarketHours(e.at, opts.extended)
    case CryptoAfterHours => opts.crypto247 && !MarketClock.IsMarketHours(e.at, opts.extended) && MarketClock.IsWeekday(e.at)
    case CryptoWhileClosed => opts.crypto247 && !MarketClock.IsMarketHours(e.at, opts.extended)
  }

  /** A cycle and its bookkeeping appended to the trace. */
  lemma TraceStep(trace: seq<CycleEvent>, e: CycleEvent)
    ensures TotalTrades(trace + [e]) == TotalTrades(trace) + e.trades
    ensures SessionEntries(trace + [e]) == SessionEntries(trace) + LoggedEntry(e)
  {
    assert (trace + [e])[..|trace|] == trace;
  }

  /**
   * What the session loop keeps between cycles: the portfolio keeps what every cycle
   * keeps, the counters and the log agree with the cycles run, every cycle ran where the
   * calendar and the options allow it, and a scan-only session has traded nothing.
   */
  ghost predicate Progress(opts: Options, cfg: BotConfig, r0: Run, cur: Run, trace: seq<CycleEvent>, start: int,
                           clock: int, cycles: int, totalTrades: int, log: seq<LogEntry>)
  {
    && start <= clock
    && Keeps(cfg, r0, cur)
    && cycles == |trace| && totalTrades == TotalTrades(trace) && log == SessionEntries(trace)
    && (forall k :: 0 <= k < |trace| ==> Scheduled(opts, trace[k]) && start <= trace[k].at < clock)
    && (opts.scanOnly ==> totalTrades == 0 && cur.ledger.tradeHistory == r0.ledger.tradeHistory)
  }

  /** A cycle that keeps what cycles keep, run where it is scheduled, extends the session's progress. */
  lemma ProgressStep(opts: Options, cfg: BotConfig, r0: Run, before: Run, after: Run, trace: seq<CycleEvent>,
                     e: CycleEvent, start: int, clock: int, cycles: int, totalTrades: int, log: seq<LogEntry>)
    requires Progress(opts, cfg, r0, before, trace, start, clock, cycles, totalTrades, log)
    requires Keeps(cfg, before, after) && Scheduled(opts, e) && e.at == clock < e.endsAt
    requires opts.scanOnly ==> e.trades == 0 && after.ledger.tradeHistory == before.ledger.tradeHistory
    ensures Progress(opts, cfg, r0, after, trace + [e], start, e.endsAt, cycles + 1, totalTrades + e.trades, log + LoggedEntry(e))
  {
    TraceStep(trace, e);
    KeepsTransitive(cfg, r0, before, after);
  }

  /**
   * One cycle of the session: `run_cycle` at the current instant, the counters bumped,
   * the log entry appended where the loop appends one, and the cycle's time spent.
   */
  method SessionCycle(portfolio: Engine.Portfolio, bot: OpenClawBot, feedAt: int -> Feed, opts: Options,
                      kind: CycleKind, cycleSecs: int, ghost r0: Run, ghost start: int, clock: int,
                      cycles: int, totalTrades: int, log: seq<LogEntry>, ghost trace: seq<CycleEvent>)
    returns (clockAfter: int, cyclesAfter: int, tradesAfter: int, logAfter: seq<LogEntry>, ghost traceAfter: seq<CycleEvent>)
    requires portfolio.Valid() && (forall t :: ValidFeed(feedAt(t))) && cycleSecs >= 1
    requires Progress(opts, bot.config, r0, RunOf(portfolio, []), trace, start, clock, cycles, totalTrades, log)
    requires Scheduled(opts, CycleEvent(clock, kind, 0, clock, 0.0))
    modifies portfolio, bot
    ensures portfolio.Valid() && bot.watchlist == old(bot.watchlist)
    ensures clockAfter == clock + cycleSecs
    ensures Progress(opts, bot.config, r0, RunOf(portfolio, []), traceAfter, start, clockAfter, cyclesAfter, tradesAfter, logAfter)
  {
    ghost var before := RunOf(portfolio, []);
    ghost var wl := bot.watchlist;
    var feed := feedAt(clock);
    var cryptoOnly := kind != InMarket;
    var trades := RunCycle(portfolio, bot, feed, opts.scanOnly, cryptoOnly, clock);
    ghost var x := Cycle(bot.config, wl, before, feed, opts.scanOnly, cryptoOnly, clock);
    CycleKeeps(bot.config, wl, before, feed, opts.scanOnly, cryptoOnly, clock);
    if opts.scanOnly {
      ScanOnlyTradesNothing(bot.config, wl, before, feed, cryptoOnly, clock);
    }
    ghost var after := RunOf(portfolio, []);
    assert after.ledger == x.ledger && after.history == x.history;
    clockAfter := clock + cycleSecs;
    var e := CycleEvent(clock, kind, trades, clockAfter, TotalValue(portfolio.State()));
    ProgressStep(opts, bot.config, r0, before, after, trace, e, start, clock, cycles, totalTrades, log);
    traceAfter := trace + [e];
    cyclesAfter := cycles + 1;
    tradesAfter := totalTrades + trades;
    logAfter := log + LoggedEntry(e);
  }

  /**
   * The loop of `main`, from `start` until shutdown: in market hours a full cycle, logged,
   * then a wait of one interval; out of hours on a weekday with crypto 24/7 a crypto
   * cycle, logged, then a wait of two intervals; otherwise waiting for the open in
   * 60-second polls, during which crypto 24/7 runs an unlogged crypto cycle after every
   * four intervals of 30-second naps.  At shutdown the session's entries go to the log file.
   */
  method RunSession(portfolio: Engine.Portfolio, bot: OpenClawBot, feedAt: int -> Feed, opts: Options,
                    start: int, stopAt: int, cycleSecs: int, logFile: LogFile)
    returns (cycles: int, totalTrades: int, clock: int, savedLog: LogFile, ghost trace: seq<CycleEvent>)
    requires portfolio.Valid() && (forall t :: ValidFeed(feedAt(t))) && cycleSecs >= 1
    modifies portfolio, bot
    ensures portfolio.Valid() && bot.watchlist == old(bot.watchlist)
    ensures clock >= stopAt && clock >= start
    ensures Progress(opts, bot.config, old(RunOf(portfolio, [])), RunOf(portfolio, []), trace, start, clock, cycles, totalTrades, SessionEntries(trace))
    ensures savedLog == SaveSessionLog(logFile, SessionEntries(trace))
    ensures !opts.crypto247 ==> forall k :: 0 <= k < |trace| ==> trace[k].kind == InMarket
  {
    ghost var r0 := RunOf(portfolio, []);
    ghost var wl := bot.watchlist;
    var intervalSec := opts.intervalMin * 60;
    var log: seq<LogEntry> := [];
    cycles, totalTrades, clock, trace := 0, 0, start, [];
    while clock < stopAt
      invariant portfolio.Valid() && bot.watchlist == wl
      invariant Progress(opts, bot.config, r0, RunOf(portfolio, []), trace, start, clock, cycles, totalTrades, log)
      decreases stopAt - clock
    {
      var inMarket := MarketClock.IsMarketHours(clock, opts.extended);
      var weekday := MarketClock.IsWeekday(clock);
      if inMarket {
        clock, cycles, totalTrades, log, trace :=
          SessionCycle(portfolio, bot, feedAt, opts, InMarket, cycleSecs, r0, start, clock, cycles, totalTrades, log, trace);
        if clock < stopAt {
          clock := InterruptibleWait(clock, clock + intervalSec, stopAt);
        }
      } else if opts.crypto247 && weekday {
        clock, cycles, totalTrades, log, trace :=
          SessionCycle(portfolio, bot, feedAt, opts, CryptoAfterHours, cycleSecs, r0, start, clock, cycles, totalTrades, log, trace);
        if clock < stopAt {
          clock := InterruptibleWait(clock, clock + intervalSec * 2, stopAt);
        }
      } else {
        clock, cycles, totalTrades, log, trace :=
          WaitForOpen(portfolio, bot, feedAt, opts, intervalSec, stopAt, cycleSecs, r0, start, clock, cycles, totalTrades, log, trace);
      }
    }
    savedLog := SaveSessionLog(logFile, log);
  }

  /** The clock moving on keeps the session's bookkeeping. */
  lemma ProgressLater(opts: Options, cfg: BotConfig, r0: Run, cur: Run, trace: seq<CycleEvent>, start: int,
                      clock: int, later: int, cycles: int, totalTrades: int, log: seq<LogEntry>)
    requires Progress(opts, cfg, r0, cur, trace, start, clock, cycles, totalTrades, log) && clock <= later
    ensures Progress(opts, cfg, r0, cur, trace, start, later, cycles, totalTrades, log)
  {
  }

  /**
   * The crypto naps of the closed-market branch: 30-second sleeps (shorter for the last)
   * until four intervals are counted, the market opens or shutdown is requested.  Each
   * nap counts as 30 seconds however long it was.
   */
  method CryptoNaps(now: int, stopAt: int, intervalSec: int, extended: bool) returns (t: int)
    ensures t >= now
    ensures now < stopAt && 0 < intervalSec && !MarketClock.IsMarketHours(now, extended) ==> t > now
    ensures t >= stopAt || MarketClock.IsMarketHours(t, extended) || t >= now + intervalSec * 4 || intervalSec <= 0
  {
    t := now;
    var elapsed := 0;
    while t < stopAt && elapsed < intervalSec * 4 && !MarketClock.IsMarketHours(t, extended)
      invariant now <= t && 0 <= elapsed && t - now <= elapsed
      invariant elapsed == 0 ==> t == now
      invariant elapsed > 0 ==> t - now == Min(elapsed, intervalSec * 4) && t > now
      decreases intervalSec * 4 - elapsed
    {
      t := t + Min(30, intervalSec * 4 - elapsed);
      elapsed := elapsed + 30;
    }
  }

  /**
   * The closed-market branch of the loop: poll every 60 seconds until the market opens
   * or shutdown is requested; with crypto 24/7, after each poll nap for four intervals
   * and then, still closed and still running, run a crypto cycle that is not logged.
   */
  method WaitForOpen(portfolio: Engine.Portfolio, bot: OpenClawBot, feedAt: int -> Feed, opts: Options,
                     intervalSec: int, stopAt: int, cycleSecs: int, ghost r0: Run, ghost start: int, clock: int,
                     cycles: int, totalTrades: int, log: seq<LogEntry>, ghost trace: seq<CycleEvent>)
    returns (clockAfter: int, cyclesAfter: int, tradesAfter: int, logAfter: seq<LogEntry>, ghost traceAfter: seq<CycleEvent>)
    requires portfolio.Valid() && (forall t :: ValidFeed(feedAt(t))) && cycleSecs >= 1
    requires clock < stopAt && !MarketClock.IsMarketHours(clock, opts.extended)
    requires Progress(opts, bot.config, r0, RunOf(portfolio, []), trace, start, clock, cycles, totalTrades, log)
    modifies portfolio, bot
    ensures portfolio.Valid() && bot.watchlist == old(bot.watchlist)
    ensures clockAfter > clock && (clockAfter >= stopAt || MarketClock.IsMarketHours(clockAfter, opts.extended))
    ensures Progress(opts, bot.config, r0, RunOf(portfolio, []), traceAfter, start, clockAfter, cyclesAfter, tradesAfter, logAfter)
  {
    clockAfter, cyclesAfter, tradesAfter, logAfter, traceAfter := clock, cycles, totalTrades, log, trace;
    while clockAfter < stopAt && !MarketClock.IsMarketHours(clockAfter, opts.extended)
      invariant portfolio.Valid() && bot.watchlist == old(bot.watchlist)
      invariant Progress(opts, bot.config, r0, RunOf(portfolio, []), traceAfter, start, clockAfter, cyclesAfter, tradesAfter, logAfter)
      invariant clock <= clockAfter
      invariant clockAfter == clock ==> clockAfter < stopAt && !MarketClock.IsMarketHours(clockAfter, opts.extended)
      decreases stopAt - clockAfter
    {
      var polled := clockAfter + 60;
      ProgressLater(opts, bot.config, r0, RunOf(portfolio, []), traceAfter, start, clockAfter, polled, cyclesAfter, tradesAfter, logAfter);
      clockAfter := polled;
      if opts.crypto247 && clockAfter < stopAt {
        var napped := CryptoNaps(clockAfter, stopAt, intervalSec, opts.extended);
        ProgressLater(opts, bot.config, r0, RunOf(portfolio, []), traceAfter, start, clockAfter, napped, cyclesAfter, tradesAfter, logAfter);
        clockAfter := napped;
        if clockAfter < stopAt && !MarketClock.IsMarketHours(clockAfter, opts.extended) {
          clockAfter, cyclesAfter, tradesAfter, logAfter, traceAfter :=
            SessionCycle(portfolio, bot, feedAt, opts, CryptoWhileClosed, cycleSecs, r0, start, clockAfter,
                         cyclesAfter, tradesAfter, logAfter, traceAfter);
        }
      }
    }
  }
}
