/**
 * multi_trader.py: the arena in which five bots, each with its own configuration and
 * its own data directory, trade side by side.  A round runs one cycle of every bot in
 * roster order and ranks them by return; the main loop runs rounds in market hours and
 * polls every thirty seconds while the market is closed.  The clock is the simulated one
 * of module MarketClock, on the regular session, and the market data at instant `t` is
 * `feedAt(t)`.
 */
module MultiTrader {
  import opened Common
  import opened Signals
  import opened Risk
  import opened Ledger
  import opened Bot
  import Engine
  import EquityHistory
  import Ranking
  import MarketClock
  import LiveTrader
  import TextOrder

  // ---------------------------------------------------------------- the roster

  /** The competitors of `BOT_ROSTER`. */
  datatype Competitor = MomentumPete | CautiousCarl | MeanReversionMary | VolumeVictor | YoloYolanda

  /** The name of a competitor's data directory, which its result reports as `bot_id`. */
  function Id(c: Competitor): string {
    match c
    case MomentumPete => "momentum_pete"
    case CautiousCarl => "cautious_carl"
    case MeanReversionMary => "mean_reversion_mary"
    case VolumeVictor => "volume_victor"
    case YoloYolanda => "yolo_yolanda"
  }

  /** The name a competitor is shown under, which its result reports as `bot_name`. */
  function Name(c: Competitor): string {
    match c
    case MomentumPete => "Momentum Pete"
    case CautiousCarl => "Cautious Carl"
    case MeanReversionMary => "Mean Reversion Mary"
    case VolumeVictor => "Volume Victor"
    case YoloYolanda => "YOLO Yolanda"
  }

  /** `BOT_ROSTER`, in the order the bots run. */
  const Roster: seq<Competitor> := [MomentumPete, CautiousCarl, MeanReversionMary, VolumeVictor, YoloYolanda]

  /** Every competitor is on the roster once, under a directory of its own. */
  lemma RosterDistinct()
    ensures forall c: Competitor :: c in Roster
    ensures forall i, j :: 0 <= i < j < |Roster| ==> Roster[i] != Roster[j] && Id(Roster[i]) != Id(Roster[j])
  {
    forall c: Competitor ensures c in Roster {
      match c
      case MomentumPete => assert Roster[0] == c;
      case CautiousCarl => assert Roster[1] == c;
      case MeanReversionMary => assert Roster[2] == c;
      case VolumeVictor => assert Roster[3] == c;
      case YoloYolanda => assert Roster[4] == c;
    }
    assert Id(MomentumPete)[0] == 'm' && Id(CautiousCarl)[0] == 'c' && Id(VolumeVictor)[0] == 'v';
    assert Id(YoloYolanda)[0] == 'y' && Id(MeanReversionMary)[1] == 'e' && Id(MomentumPete)[1] == 'o';
  }

  // ---------------------------------------------------------------- a bot's directory

  /**
   * What a bot's `config.json` gives: its risk settings and strategy, its watchlists, and
   * the `starting_cash` key (`None` when the key is absent).
   */
  datatype BotSetup = BotSetup(config: BotConfig, lists: WatchlistConfig, startingCash: Option<real>)

  /**
   * A bot's data directory: its configuration (`None` when the file is missing or not
   * readable), its `portfolio.json` and its `value_history.json`.
   */
  datatype BotDir = BotDir(setup: Option<BotSetup>, file: StoredFile, history: seq<EquityHistory.EquitySnapshot>)

  /** A portfolio file that, when it holds a state `load` can read, holds a well-formed one. */
  predicate Loadable(file: StoredFile) {
    file.Stored? && Readable(file.state) ==> ValidLedger(Decode(file.state, 0.0, 0).value)
  }

  /** A directory a cycle can run on: a loadable file, and no negative starting cash. */
  predicate Ready(d: BotDir) {
    && Loadable(d.file)
    && (d.setup.Some? && d.setup.value.startingCash.Some? ==> d.setup.value.startingCash.value >= 0.0)
  }

  predicate AllReady(dirs: seq<BotDir>) {
    |dirs| == |Roster| && forall k :: 0 <= k < |dirs| ==> Ready(dirs[k])
  }

  /** Whether a stored state is well-formed does not depend on the defaults `load` fills in. */
  lemma LoadableWhateverDefaults(file: StoredFile, startingCash: real, now: int)
    requires Loadable(file)
    ensures file.Stored? && Decode(file.state, startingCash, now).Some? ==>
              ValidLedger(Decode(file.state, startingCash, now).value)
  {
  }

  /** What `save` writes of a well-formed ledger loads back. */
  lemma SnapshotLoadable(l: LedgerState)
    requires ValidLedger(l)
    ensures Loadable(Stored(Snapshot(l)))
  {
    SaveLoadRoundTrip(l, 0.0, 0);
  }

  // ---------------------------------------------------------------- the saved file stays loadable

  lemma SellOneLoadable(r: Run, s: Signal, now: int)
    requires ValidLedger(r.ledger) && SellPriced(s) && Loadable(r.file)
    ensures Loadable(SellOne(r, s, now).file)
  {
    var x := SellOne(r, s, now);
    if x.file != r.file {
      SnapshotLoadable(x.ledger);
    }
  }

  lemma BuyOneLoadable(cfg: BotConfig, r: Run, s: Signal, now: int)
    requires ValidLedger(r.ledger) && BuyPriced(s) && Loadable(r.file)
    ensures Loadable(BuyOne(cfg, r, s, now).file)
  {
    var x := BuyOne(cfg, r, s, now);
    if x.file != r.file {
      SnapshotLoadable(x.ledger);
    }
  }

  lemma {:induction false} ExecuteSellsLoadable(r: Run, sells: seq<Signal>, now: int)
    requires ValidLedger(r.ledger) && AllSellPriced(sells) && Loadable(r.file)
    ensures Loadable(ExecuteSells(r, sells, now).file)
    decreases |sells|
  {
    if |sells| > 0 {
      SellOneLoadable(r, sells[0], now);
      assert AllSellPriced(sells[1..]);
      ExecuteSellsLoadable(SellOne(r, sells[0], now), sells[1..], now);
    }
  }

  lemma {:induction false} ExecuteBuysLoadable(cfg: BotConfig, r: Run, buys: seq<Signal>, now: int)
    requires ValidLedger(r.ledger) && AllBuyPriced(buys) && Loadable(r.file)
    ensures Loadable(ExecuteBuys(cfg, r, buys, now).file)
    decreases |buys|
  {
    if |buys| > 0 && |r.ledger.positions| < cfg.maxPositions {
      BuyOneLoadable(cfg, r, buys[0], now);
      assert AllBuyPriced(buys[1..]);
      ExecuteBuysLoadable(cfg, BuyOne(cfg, r, buys[0], now), buys[1..], now);
    }
  }

  /**
   * Every file a cycle writes is a snapshot of a well-formed ledger, so a directory that
   * loaded before a cycle loads after it.
   */
  lemma CycleLoadable(cfg: BotConfig, wl: seq<WatchItem>, r: Run, feed: Feed, scanOnly: bool, now: int)
    requires ValidLedger(r.ledger) && ValidFeed(feed) && Loadable(r.file)
    ensures Loadable(LiveTrader.Cycle(cfg, wl, r, feed, scanOnly, false, now).file)
  {
    var r1 := LiveTrader.Refresh(r, feed, false, now);
    if r1.file != r.file {
      SnapshotLoadable(r1.ledger);
    }
    var scan := LiveTrader.ScanOf(cfg, LiveTrader.ScanList(wl, false), r1.ledger.positions, feed);
    LiveTrader.ScanPriced(cfg, LiveTrader.ScanList(wl, false), r1.ledger, feed);
    ExecuteSellsLoadable(r1, scan.sells, now);
    ExecuteBuysLoadable(cfg, ExecuteSells(r1, scan.sells, now), scan.buys, now);
  }

  // ---------------------------------------------------------------- one bot

  /** The figures a bot's result reports about its portfolio. */
  datatype Figures = Figures(
    totalValue: real,
    totalPnl: real,
    totalReturnPct: real,
    numPositions: nat,
    numTrades: nat,
    winRate: real,
    cash: real,
    positionsValue: real,
    realizedPnl: real,
    unrealizedPnl: real,
    positions: seq<PositionView>,
    startingCash: real)

  /** What a result reports: the portfolio's summary, or the stand-in of a bot that failed. */
  datatype Report = Reported(summary: Summary) | Placeholder

  /** The figures a failed bot is shown with. */
  const PlaceholderFigures: Figures :=
    Figures(10000.0, 0.0, 0.0, 0, 0, 0.0, 10000.0, 0.0, 0.0, 0.0, [], 10000.0)

  function FiguresOf(rep: Report): Figures {
    match rep
    case Placeholder => PlaceholderFigures
    case Reported(s) =>
      Figures(s.totalValue, s.totalPnl, s.totalReturnPct, s.numPositions, s.numTrades, s.winRate,
              s.cash, s.positionsValue, s.realizedPnl, s.unrealizedPnl, s.positions, s.startingCash)
  }

  /** A failed bot is shown as an untouched portfolio of ten thousand dollars would be. */
  lemma PlaceholderLooksFresh(now: int)
    ensures FiguresOf(Placeholder) == FiguresOf(Reported(GetSummary(FreshLedger(10000.0, now))))
  {
    var l := FreshLedger(10000.0, now);
    assert PositionsValue(l.positions) == 0.0;
    assert TextOrder.SortBy(Views(l.positions), ViewSymbol) == [];
  }

  /** What `run_single_bot` returns. */
  datatype BotResult = BotResult(bot: Competitor, report: Report, tradesThisCycle: int, signals: seq<Signal>)

  function ReturnPct(r: BotResult): real { FiguresOf(r.report).totalReturnPct }

  /** Whether loading this directory raises: no configuration, or no `starting_cash` in it. */
  predicate Fails(d: BotDir) {
    d.setup.None? || d.setup.value.startingCash.None?
  }

  /** The run `Portfolio.load` starts a cycle in, with what it wrote when it started afresh. */
  function Loaded(d: BotDir, startingCash: real, now: int): (r: Run)
    ensures r.ledger == LoadLedger(d.file, startingCash, now).0 && r.executed == []
  {
    var loaded := LoadLedger(d.file, startingCash, now);
    var l := loaded.0;
    if loaded.1 then Run(l, Stored(Snapshot(l)), EquityHistory.Record(d.history, Engine.EquityPoint(l, now)), [])
    else Run(l, d.file, d.history, [])
  }

  /** A loadable file loads a well-formed ledger. */
  lemma LoadedValid(d: BotDir, startingCash: real, now: int)
    requires Loadable(d.file) && startingCash >= 0.0
    ensures ValidLedger(Loaded(d, startingCash, now).ledger)
  {
    LoadableWhateverDefaults(d.file, startingCash, now);
  }

  /** ... and what it wrote, when it started afresh, loads back. */
  lemma LoadedLoadable(d: BotDir, startingCash: real, now: int)
    requires Loadable(d.file) && startingCash >= 0.0
    ensures Loadable(Loaded(d, startingCash, now).file)
  {
    LoadedValid(d, startingCash, now);
    if LoadLedger(d.file, startingCash, now).1 {
      SnapshotLoadable(LoadLedger(d.file, startingCash, now).0);
    }
  }

  /**
   * The cycle of a bot whose directory loads: its portfolio is loaded, every held
   * position is refreshed, the bot scans its whole watchlist and, unless scan-only,
   * executes.
   */
  function BotRun(d: BotDir, feed: Feed, scanOnly: bool, now: int): (x: Run)
    requires Ready(d) && ValidFeed(feed) && !Fails(d)
    ensures ValidLedger(x.ledger)
  {
    var setup := d.setup.value;
    LoadedValid(d, setup.startingCash.value, now);
    LiveTrader.Cycle(setup.config, Watchlist(setup.lists), Loaded(d, setup.startingCash.value, now),
                     feed, scanOnly, false, now)
  }

  /** What the cycle saves loads back. */
  lemma BotRunLoadable(d: BotDir, feed: Feed, scanOnly: bool, now: int)
    requires Ready(d) && ValidFeed(feed) && !Fails(d)
    ensures Loadable(BotRun(d, feed, scanOnly, now).file)
  {
    var setup := d.setup.value;
    LoadedValid(d, setup.startingCash.value, now);
    LoadedLoadable(d, setup.startingCash.value, now);
    CycleLoadable(setup.config, Watchlist(setup.lists), Loaded(d, setup.startingCash.value, now), feed, scanOnly, now);
  }

  /** The signals of that cycle's scan, which the result carries. */
  function BotSignals(d: BotDir, feed: Feed, now: int): seq<Signal>
    requires Ready(d) && ValidFeed(feed) && !Fails(d)
  {
    var setup := d.setup.value;
    LoadedValid(d, setup.startingCash.value, now);
    var r0 := Loaded(d, setup.startingCash.value, now);
    var wl := LiveTrader.ScanList(Watchlist(setup.lists), false);
    LiveTrader.ScanOf(setup.config, wl, LiveTrader.Refresh(r0, feed, false, now).ledger.positions, feed).log
  }

  /**
   * What `run_single_bot` returns: the placeholder when the directory fails to load,
   * otherwise the summary after the cycle, the trades it reported and its signals.
   */
  function BotReport(bot: Competitor, d: BotDir, feed: Feed, scanOnly: bool, now: int): (r: BotResult)
    requires Ready(d) && ValidFeed(feed)
    ensures r.bot == bot
    ensures r.report.Placeholder? <==> Fails(d)
    ensures Fails(d) ==> r.tradesThisCycle == 0 && r.signals == [] && ReturnPct(r) == 0.0
  {
    if Fails(d) then BotResult(bot, Placeholder, 0, [])
    else
      var x := BotRun(d, feed, scanOnly, now);
      BotResult(bot, Reported(GetSummary(x.ledger)), |x.executed|, BotSignals(d, feed, now))
  }

  /** What `run_single_bot` leaves in the directory: nothing new when it fails, else what the cycle saved. */
  function BotStep(d: BotDir, feed: Feed, scanOnly: bool, now: int): (after: BotDir)
    requires Ready(d) && ValidFeed(feed)
    ensures Ready(after) && after.setup == d.setup
    ensures Fails(d) ==> after == d
  {
    if Fails(d) then d
    else
      BotRunLoadable(d, feed, scanOnly, now);
      var x := BotRun(d, feed, scanOnly, now);
      BotDir(d.setup, x.file, x.history)
  }

  /**
   * A scan-only cycle leaves the bot's trade history and cash as they were loaded and
   * reports no trades.
   */
  lemma ScanOnlyBotTradesNothing(bot: Competitor, d: BotDir, feed: Feed, now: int)
    requires Ready(d) && ValidFeed(feed) && !Fails(d)
    ensures var r := BotReport(bot, d, feed, true, now);
            var l := LoadLedger(d.file, d.setup.value.startingCash.value, now).0;
            && r.tradesThisCycle == 0
            && r.report.summary.numTrades == |l.tradeHistory|
            && r.report.summary.cash == l.cash
  {
    var setup := d.setup.value;
    LoadedValid(d, setup.startingCash.value, now);
    var r0 := Loaded(d, setup.startingCash.value, now);
    LiveTrader.ScanOnlyTradesNothing(setup.config, Watchlist(setup.lists), r0, feed, false, now);
  }

  /**
   * A bot's cycle keeps the invariants of a session: a well-formed ledger, the starting
   * cash, the accounting identity, a spaced equity curve and the position cap.
   */
  lemma BotRunKeeps(d: BotDir, feed: Feed, scanOnly: bool, now: int)
    requires Ready(d) && ValidFeed(feed) && !Fails(d)
    ensures LiveTrader.Keeps(d.setup.value.config, Loaded(d, d.setup.value.startingCash.value, now),
                             BotRun(d, feed, scanOnly, now))
  {
    var setup := d.setup.value;
    LoadedValid(d, setup.startingCash.value, now);
    var r0 := Loaded(d, setup.startingCash.value, now);
    LiveTrader.CycleKeeps(setup.config, Watchlist(setup.lists), r0, feed, scanOnly, false, now);
  }

  /** `run_single_bot` on objects: load the portfolio, build the bot, run its cycle, report. */
  method RunSingleBot(bot: Competitor, d: BotDir, feed: Feed, scanOnly: bool, now: int)
    returns (result: BotResult, after: BotDir)
    requires Ready(d) && ValidFeed(feed)
    ensures result == BotReport(bot, d, feed, scanOnly, now) && after == BotStep(d, feed, scanOnly, now)
  {
    if Fails(d) {
      return BotResult(bot, Placeholder, 0, []), d;
    }
    var setup := d.setup.value;
    var startingCash := setup.startingCash.value;
    LoadableWhateverDefaults(d.file, startingCash, now);
    LoadedValid(d, startingCash, now);
    var portfolio := new Engine.Portfolio.Load(d.file, d.history, startingCash, now);
    assert RunOf(portfolio, []) == Loaded(d, startingCash, now);
    var trader := new OpenClawBot(setup.config, setup.lists);
    var trades := LiveTrader.RunCycle(portfolio, trader, feed, scanOnly, false, now);
    result := BotResult(bot, Reported(GetSummary(portfolio.State())), trades, trader.signalsLog);
    after := BotDir(d.setup, portfolio.savedFile, portfolio.valueHistory);
  }

  // ---------------------------------------------------------------- a round

  /** The results of the first `n` bots of the roster, in order, each on its own directory. */
  function RoundResults(dirs: seq<BotDir>, feed: Feed, scanOnly: bool, now: int, n: nat): (rs: seq<BotResult>)
    requires AllReady(dirs) && ValidFeed(feed) && n <= |Roster|
    ensures |rs| == n
  {
    if n == 0 then []
    else RoundResults(dirs, feed, scanOnly, now, n - 1) + [BotReport(Roster[n - 1], dirs[n - 1], feed, scanOnly, now)]
  }

  /** The directories after the first `n` bots of the roster ran, the others as they were. */
  function RoundDirs(dirs: seq<BotDir>, feed: Feed, scanOnly: bool, now: int, n: nat): (ds: seq<BotDir>)
    requires AllReady(dirs) && ValidFeed(feed) && n <= |Roster|
    ensures |ds| == n && forall k :: 0 <= k < n ==> Ready(ds[k])
  {
    if n == 0 then []
    else RoundDirs(dirs, feed, scanOnly, now, n - 1) + [BotStep(dirs[n - 1], feed, scanOnly, now)]
  }

  /**
   * The bots are independent and each runs once: place `k` of a round holds bot `k`'s
   * own result, whatever the bots after it do.
   */
  lemma {:induction false} ResultsSeparately(dirs: seq<BotDir>, feed: Feed, scanOnly: bool, now: int, n: nat, k: nat)
    requires AllReady(dirs) && ValidFeed(feed) && k < n <= |Roster|
    ensures RoundResults(dirs, feed, scanOnly, now, n)[k] == BotReport(Roster[k], dirs[k], feed, scanOnly, now)
    ensures RoundResults(dirs, feed, scanOnly, now, n)[k].bot == Roster[k]
    decreases n
  {
    if k < n - 1 {
      ResultsSeparately(dirs, feed, scanOnly, now, n - 1, k);
    }
  }

  /** ... and place `k` of the directories is what bot `k`'s own cycle left. */
  lemma {:induction false} DirsSeparately(dirs: seq<BotDir>, feed: Feed, scanOnly: bool, now: int, n: nat, k: nat)
    requires AllReady(dirs) && ValidFeed(feed) && k < n <= |Roster|
    ensures RoundDirs(dirs, feed, scanOnly, now, n)[k] == BotStep(dirs[k], feed, scanOnly, now)
    decreases n
  {
    var prev := RoundDirs(dirs, feed, scanOnly, now, n - 1);
    if k < n - 1 {
      DirsSeparately(dirs, feed, scanOnly, now, n - 1, k);
      SnocAt(prev, BotStep(dirs[n - 1], feed, scanOnly, now), k);
    }
  }

  /** Appending leaves the earlier places alone. */
  lemma SnocAt<T>(a: seq<T>, x: T, k: nat)
    requires k < |a|
    ensures (a + [x])[k] == a[k]
  {
  }

  /** The leaderboard: the results from the highest return to the lowest, ties in roster order. */
  function Leaderboard(results: seq<BotResult>): (ranked: seq<BotResult>)
    ensures |ranked| == |results|
  {
    Ranking.SortDesc(results, ReturnPct)
  }

  /** The leaderboard is ordered by return, holds every result once, and keeps ties in roster order. */
  lemma LeaderboardRanked(results: seq<BotResult>)
    ensures Ranking.SortedDesc(Leaderboard(results), ReturnPct)
    ensures multiset(Leaderboard(results)) == multiset(results)
    ensures forall v :: Ranking.WithKey(Leaderboard(results), ReturnPct, v) == Ranking.WithKey(results, ReturnPct, v)
  {
    Ranking.RankingCorrect(results, ReturnPct);
  }

  /**
   * `run_all_bots`: one cycle of each bot in roster order, one result per bot; returns the
   * results in roster order and the leaderboard it shows.
   */
  method RunAllBots(dirs: seq<BotDir>, feed: Feed, scanOnly: bool, now: int)
    returns (results: seq<BotResult>, ranked: seq<BotResult>, after: seq<BotDir>)
    requires AllReady(dirs) && ValidFeed(feed)
    ensures results == RoundResults(dirs, feed, scanOnly, now, |dirs|)
    ensures after == RoundDirs(dirs, feed, scanOnly, now, |dirs|)
    ensures ranked == Leaderboard(results)
  {
    results := [];
    after := [];
    var k := 0;
    while k < |dirs|
      invariant 0 <= k <= |dirs|
      invariant results == RoundResults(dirs, feed, scanOnly, now, k)
      invariant after == RoundDirs(dirs, feed, scanOnly, now, k)
    {
      var result, dir := RunSingleBot(Roster[k], dirs[k], feed, scanOnly, now);
      results := results + [result];
      after := after + [dir];
      k := k + 1;
    }
    ranked := Leaderboard(results);
  }

  // ---------------------------------------------------------------- the main loop

  /**
   * The wait of the closed branch: announce the next opening, then sleep thirty seconds
   * at a time while running and closed.  The wait ends in market hours or at shutdown,
   * never before the announced opening, and within thirty seconds after it.
   */
  method WaitForOpen(clock: int, stopAt: int) returns (t: int, nextOpen: int)
    requires clock < stopAt && !MarketClock.IsMarketHours(clock, false)
    ensures t > clock && (t - clock) % 30 == 0
    ensures t >= stopAt || MarketClock.IsMarketHours(t, false)
    ensures MarketClock.IsOpening(nextOpen, false) && clock < nextOpen
    ensures t < stopAt ==> nextOpen <= t
    ensures t < nextOpen + 30
  {
    var secs;
    secs, nextOpen := MarketClock.TimeUntilMarketOpen(clock, false);
    MarketClock.ClosedUntilOpening(clock, nextOpen, false);
    MarketClock.OpenForHalfAMinute(nextOpen, false);
    t := clock;
    while t < stopAt && !MarketClock.IsMarketHours(t, false)
      invariant clock <= t < nextOpen + 30 && (t - clock) % 30 == 0
      decreases nextOpen + 30 - t
    {
      t := t + 30;
    }
  }

  /**
   * One pass of the main loop from a running instant.  When `--once` is given or the
   * market is open: a round of `run_all_bots` at `clock`, then, unless `--once`, the
   * interval's wait in five-second steps.  Otherwise the wait for the opening, with no round.
   * The round's directories are stated for `n == |Roster|` under a quantifier, so that a
   * caller unfolds the round only when it mentions it.
   */
  method ArenaStep(current: seq<BotDir>, feedAt: int -> Feed, intervalSec: int, scanOnly: bool, runOnce: bool,
                   clock: int, stopAt: int, cycleSecs: int)
    returns (later: int, after: seq<BotDir>, ran: bool)
    requires AllReady(current) && (forall t :: ValidFeed(feedAt(t))) && cycleSecs >= 1 && clock < stopAt
    ensures AllReady(after)
    ensures ran <==> runOnce || MarketClock.IsMarketHours(clock, false)
    ensures ran ==> forall n {:trigger RoundDirs(current, feedAt(clock), scanOnly, clock, n)} ::
                      n == |Roster| ==> after == RoundDirs(current, feedAt(clock), scanOnly, clock, n)
    ensures ran ==> later >= clock + cycleSecs
    ensures ran && runOnce ==> later == clock + cycleSecs
    ensures ran && !runOnce && clock + cycleSecs < stopAt ==>
              later >= stopAt || later == Max(clock + cycleSecs, clock + cycleSecs + intervalSec)
    ensures !ran ==> after == current && later > clock && (later >= stopAt || MarketClock.IsMarketHours(later, false))
  {
    if runOnce || MarketClock.IsMarketHours(clock, false) {
      var results, ranked;
      results, ranked, after := RunAllBots(current, feedAt(clock), scanOnly, clock);
      ran := true;
      later := clock + cycleSecs;
      if !runOnce && later < stopAt {
        later := LiveTrader.InterruptibleWait(later, later + intervalSec, stopAt);
      }
    } else {
      var nextOpen;
      later, nextOpen := WaitForOpen(clock, stopAt);
      after, ran := current, false;
    }
  }

  /**
   * `main` (without the reset, status and test modes): while running, a round runs when
   * `--once` is given or the market is open; `--once` ends the loop after its one round.
   * `cycleSecs` is how long a round takes.  `times` are the instants the rounds started at.
   */
  method RunArena(dirs: seq<BotDir>, feedAt: int -> Feed, intervalMin: int, scanOnly: bool, runOnce: bool,
                  start: int, stopAt: int, cycleSecs: int)
    returns (cycles: nat, clock: int, finalDirs: seq<BotDir>, ghost times: seq<int>)
    requires AllReady(dirs) && (forall t :: ValidFeed(feedAt(t))) && cycleSecs >= 1
    ensures cycles == |times| && AllReady(finalDirs)
    ensures forall k :: 0 <= k < |times| ==> start <= times[k] < stopAt
    ensures forall k :: 0 < k < |times| ==> times[k - 1] + cycleSecs <= times[k]
    ensures runOnce ==> times == (if start < stopAt then [start] else [])
    ensures !runOnce ==> clock >= stopAt
    ensures !runOnce ==> forall k :: 0 <= k < |times| ==> MarketClock.IsMarketHours(times[k], false)
  {
    var intervalSec := intervalMin * 60;
    cycles := 0;
    clock := start;
    finalDirs := dirs;
    times := [];
    while clock < stopAt
      invariant cycles == |times| && AllReady(finalDirs)
      invariant start <= clock && forall k :: 0 <= k < |times| ==> start <= times[k] < stopAt
      invariant forall k :: 0 <= k < |times| ==> times[k] + cycleSecs <= clock
      invariant forall k :: 0 < k < |times| ==> times[k - 1] + cycleSecs <= times[k]
      invariant runOnce ==> times == [] && clock == start
      invariant !runOnce ==> forall k :: 0 <= k < |times| ==> MarketClock.IsMarketHours(times[k], false)
      decreases stopAt - clock
    {
      var ran;
      ghost var at := clock;
      clock, finalDirs, ran := ArenaStep(finalDirs, feedAt, intervalSec, scanOnly, runOnce, clock, stopAt, cycleSecs);
      if ran {
        times := times + [at];
        cycles := cycles + 1;
        if runOnce {
          break;
        }
      }
    }
  }
}
