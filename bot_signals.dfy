/**
 * bot.py `Signal` and `OpenClawBot.analyze_symbol`: the signal engine scores the latest
 * row of indicator values against the previous one.  Eight weighted votes, taken in the
 * source's order, add to a buy side or a sell side; a threshold on the difference
 * decides BUY, SELL or HOLD.
 */
module Signals {
  import opened Common

  /**
   * One row of the indicator table (`get_technical_data`'s output).  A value that is
   * missing or not a number is `None`; only the closing price is always present.
   */
  datatype IndicatorRow = IndicatorRow(
    close: real,
    rsi: Option<real>,
    macd: Option<real>,
    macdSignal: Option<real>,
    macdHist: Option<real>,
    bbPct: Option<real>,
    volRatio: Option<real>,
    sma10: Option<real>,
    sma20: Option<real>,
    ema9: Option<real>,
    roc5: Option<real>,
    roc10: Option<real>)

  /** A table the data feed can return: every closing price is positive. */
  predicate ValidTable(t: seq<IndicatorRow>) {
    forall k :: 0 <= k < |t| ==> t[k].close > 0.0
  }

  /** What the market-data feed gives the bot: quotes and indicator tables by symbol. */
  datatype Feed = Feed(quotes: map<string, Option<real>>, tables: map<string, seq<IndicatorRow>>)

  predicate ValidFeed(f: Feed) {
    && (forall s :: s in f.quotes && f.quotes[s].Some? ==> f.quotes[s].value >= 0.0)
    && (forall s :: s in f.tables ==> ValidTable(f.tables[s]))
  }

  /** The table for `symbol`, or `None` when the feed has none. */
  function Table(f: Feed, symbol: string): Option<seq<IndicatorRow>> {
    if symbol in f.tables then Some(f.tables[symbol]) else None
  }

  /** The strategy keys `analyze_symbol` reads, with the source's defaults. */
  datatype Strategy = Strategy(
    rsiOversold: real,
    rsiOverbought: real,
    volumeSpikeMultiplier: real,
    minSignalStrength: real)

  const DefaultStrategy: Strategy := Strategy(30.0, 70.0, 1.5, 2.0)

  /** Rows needed before the engine scores anything. */
  const MinRows: nat := 30

  datatype Action = Buy | Sell | Hold

  /** A trading signal; `price` is absent only on the insufficient-data HOLD. */
  datatype Signal = Signal(
    action: Action,
    symbol: string,
    strength: real,
    reasons: seq<Reason>,
    price: Option<real>,
    assetType: AssetType)

  // ---------------------------------------------------------------- votes

  /** What one indicator test adds to each side, with the reason it gives. */
  datatype Vote = Vote(buy: real, buyReasons: seq<Reason>, sell: real, sellReasons: seq<Reason>)

  const NoVote: Vote := Vote(0.0, [], 0.0, [])

  function BuyVote(w: real, r: Reason): Vote { Vote(w, [r], 0.0, []) }
  function SellVote(w: real, r: Reason): Vote { Vote(0.0, [], w, [r]) }

  /** A vote feeds one side at most, with one reason exactly when it adds weight there. */
  predicate OneSided(v: Vote) {
    && (v.buy == 0.0 || v.sell == 0.0)
    && v.buy >= 0.0 && v.sell >= 0.0
    && (v.buyReasons == [] <==> v.buy == 0.0) && |v.buyReasons| <= 1
    && (v.sellReasons == [] <==> v.sell == 0.0) && |v.sellReasons| <= 1
  }

  function RsiVote(st: Strategy, latest: IndicatorRow): (v: Vote)
    ensures OneSided(v) && v.buy <= 1.5 && v.sell <= 1.5
  {
    match latest.rsi
    case None => NoVote
    case Some(rsi) =>
      if rsi < st.rsiOversold then BuyVote(1.5, RsiOversold(rsi))
      else if rsi < 40.0 then BuyVote(0.5, RsiApproachingOversold(rsi))
      else if rsi > st.rsiOverbought then SellVote(1.5, RsiOverbought(rsi))
      else if rsi > 65.0 then SellVote(0.5, RsiApproachingOverbought(rsi))
      else NoVote
  }

  /** The four MACD inputs are all present. */
  predicate HasMacd(latest: IndicatorRow, prev: IndicatorRow) {
    latest.macd.Some? && latest.macdSignal.Some? && latest.macdHist.Some? && prev.macdHist.Some?
  }

  function MacdBullVote(latest: IndicatorRow, prev: IndicatorRow): (v: Vote)
    ensures OneSided(v) && v.buy <= 1.5 && v.sell == 0.0
  {
    if !HasMacd(latest, prev) then NoVote
    else
      var h, ph := latest.macdHist.value, prev.macdHist.value;
      if h > 0.0 && ph <= 0.0 then BuyVote(1.5, MacdBullishCrossover)
      else if h > 0.0 && h > ph then BuyVote(0.5, MacdMomentumIncreasing)
      else NoVote
  }

  function MacdBearVote(latest: IndicatorRow, prev: IndicatorRow): (v: Vote)
    ensures OneSided(v) && v.buy == 0.0 && v.sell <= 1.5
  {
    if !HasMacd(latest, prev) then NoVote
    else
      var h, ph := latest.macdHist.value, prev.macdHist.value;
      if h < 0.0 && ph >= 0.0 then SellVote(1.5, MacdBearishCrossover)
      else if h < 0.0 && h < ph then SellVote(0.5, MacdMomentumDecreasing)
      else NoVote
  }

  function BbVote(latest: IndicatorRow): (v: Vote)
    ensures OneSided(v) && v.buy <= 1.0 && v.sell <= 1.0
  {
    match latest.bbPct
    case None => NoVote
    case Some(pct) =>
      if pct < 0.05 then BuyVote(1.0, AtLowerBand(pct))
      else if pct < 0.2 then BuyVote(0.5, NearLowerBand(pct))
      else if pct > 0.95 then SellVote(1.0, AtUpperBand(pct))
      else if pct > 0.8 then SellVote(0.5, NearUpperBand(pct))
      else NoVote
  }

  /** A volume spike confirms the day's direction; a flat day counts as a down move. */
  function VolumeVote(st: Strategy, latest: IndicatorRow, prev: IndicatorRow): (v: Vote)
    requires prev.close > 0.0
    ensures OneSided(v) && v.buy <= 0.75 && v.sell <= 0.75
  {
    match latest.volRatio
    case None => NoVote
    case Some(ratio) =>
      if ratio > st.volumeSpikeMultiplier then
        var dailyReturn := (latest.close - prev.close) / prev.close;
        if dailyReturn > 0.0 then BuyVote(0.75, VolumeSpikeUp(ratio))
        else SellVote(0.75, VolumeSpikeDown(ratio))
      else NoVote
  }

  /** The three moving averages the trend and crossover tests need are present. */
  predicate HasAverages(latest: IndicatorRow) {
    latest.sma10.Some? && latest.sma20.Some? && latest.ema9.Some?
  }

  function TrendVote(latest: IndicatorRow): (v: Vote)
    ensures OneSided(v) && v.buy <= 0.5 && v.sell <= 0.5
  {
    if !HasAverages(latest) then NoVote
    else
      var price, s10, s20 := latest.close, latest.sma10.value, latest.sma20.value;
      if price > s10 && s10 > s20 then BuyVote(0.5, AboveRisingAverages)
      else if price < s10 && s10 < s20 then SellVote(0.5, BelowFallingAverages)
      else NoVote
  }

  function EmaCrossVote(latest: IndicatorRow, prev: IndicatorRow): (v: Vote)
    ensures OneSided(v) && v.buy <= 0.75 && v.sell <= 0.75
  {
    if !HasAverages(latest) || prev.ema9.None? || prev.sma20.None? then NoVote
    else
      var e, s, pe, ps := latest.ema9.value, latest.sma20.value, prev.ema9.value, prev.sma20.value;
      if e > s && pe <= ps then BuyVote(0.75, EmaCrossedAbove)
      else if e < s && pe >= ps then SellVote(0.75, EmaCrossedBelow)
      else NoVote
  }

  function MomentumVote(latest: IndicatorRow): (v: Vote)
    ensures OneSided(v) && v.buy <= 0.5 && v.sell <= 0.5
  {
    match latest.roc5
    case None => NoVote
    case Some(roc5) =>
      if roc5 > 3.0 && latest.roc10.Some? && latest.roc10.value > 0.0 then BuyVote(0.5, StrongMomentum(roc5))
      else if roc5 < -3.0 && latest.roc10.Some? && latest.roc10.value < 0.0 then SellVote(0.5, NegativeMomentum(roc5))
      else NoVote
  }

  /** The votes in the order the source takes them. */
  function Votes(st: Strategy, latest: IndicatorRow, prev: IndicatorRow): (vs: seq<Vote>)
    requires prev.close > 0.0
    ensures |vs| == 8 && forall k :: 0 <= k < |vs| ==> OneSided(vs[k])
  {
    [RsiVote(st, latest), MacdBullVote(latest, prev), MacdBearVote(latest, prev), BbVote(latest),
     VolumeVote(st, latest, prev), TrendVote(latest), EmaCrossVote(latest, prev), MomentumVote(latest)]
  }

  function BuyTotal(vs: seq<Vote>): real {
    if |vs| == 0 then 0.0 else vs[0].buy + BuyTotal(vs[1..])
  }

  function SellTotal(vs: seq<Vote>): real {
    if |vs| == 0 then 0.0 else vs[0].sell + SellTotal(vs[1..])
  }

  function BuyReasons(vs: seq<Vote>): seq<Reason> {
    if |vs| == 0 then [] else vs[0].buyReasons + BuyReasons(vs[1..])
  }

  function SellReasons(vs: seq<Vote>): seq<Reason> {
    if |vs| == 0 then [] else vs[0].sellReasons + SellReasons(vs[1..])
  }

  /** A side has reasons exactly when it has weight. */
  lemma {:induction false} ReasonsIffWeight(vs: seq<Vote>)
    requires forall k :: 0 <= k < |vs| ==> OneSided(vs[k])
    ensures BuyTotal(vs) >= 0.0 && SellTotal(vs) >= 0.0
    ensures BuyReasons(vs) == [] <==> BuyTotal(vs) == 0.0
    ensures SellReasons(vs) == [] <==> SellTotal(vs) == 0.0
    ensures |BuyReasons(vs)| <= |vs| && |SellReasons(vs)| <= |vs|
  {
    if |vs| > 0 {
      ReasonsIffWeight(vs[1..]);
    }
  }

  lemma BuyStep(vs: seq<Vote>, k: nat)
    requires k < |vs|
    ensures BuyTotal(vs[k..]) == vs[k].buy + BuyTotal(vs[k + 1..])
  {
    assert vs[k..][1..] == vs[k + 1..];
  }

  lemma BuyReasonsStep(vs: seq<Vote>, k: nat)
    requires k < |vs|
    ensures BuyReasons(vs[k..]) == vs[k].buyReasons + BuyReasons(vs[k + 1..])
  {
    assert vs[k..][1..] == vs[k + 1..];
  }

  lemma SellStep(vs: seq<Vote>, k: nat)
    requires k < |vs|
    ensures SellTotal(vs[k..]) == vs[k].sell + SellTotal(vs[k + 1..])
  {
    assert vs[k..][1..] == vs[k + 1..];
  }

  /** The buy side of eight votes written out term by term. */
  lemma BuyOfEight(vs: seq<Vote>)
    requires |vs| == 8
    ensures BuyTotal(vs) == vs[0].buy + vs[1].buy + vs[2].buy + vs[3].buy + vs[4].buy + vs[5].buy + vs[6].buy + vs[7].buy
  {
    assert vs[0..] == vs;
    BuyStep(vs, 0); BuyStep(vs, 1); BuyStep(vs, 2); BuyStep(vs, 3);
    BuyStep(vs, 4); BuyStep(vs, 5); BuyStep(vs, 6); BuyStep(vs, 7);
    assert vs[8..] == [];
  }

  /** The buy reasons of eight votes, in vote order. */
  lemma BuyReasonsOfEight(vs: seq<Vote>)
    requires |vs| == 8
    ensures BuyReasons(vs) == vs[0].buyReasons + (vs[1].buyReasons + (vs[2].buyReasons + (vs[3].buyReasons
                            + (vs[4].buyReasons + (vs[5].buyReasons + (vs[6].buyReasons + vs[7].buyReasons))))))
  {
    assert vs[0..] == vs;
    BuyReasonsStep(vs, 0); BuyReasonsStep(vs, 1); BuyReasonsStep(vs, 2); BuyReasonsStep(vs, 3);
    BuyReasonsStep(vs, 4); BuyReasonsStep(vs, 5); BuyReasonsStep(vs, 6); BuyReasonsStep(vs, 7);
    assert vs[8..] == [];
    assert vs[7].buyReasons + [] == vs[7].buyReasons;
  }

  /** The sell side of eight votes written out term by term. */
  lemma SellOfEight(vs: seq<Vote>)
    requires |vs| == 8
    ensures SellTotal(vs) == vs[0].sell + vs[1].sell + vs[2].sell + vs[3].sell + vs[4].sell + vs[5].sell + vs[6].sell + vs[7].sell
  {
    assert vs[0..] == vs;
    SellStep(vs, 0); SellStep(vs, 1); SellStep(vs, 2); SellStep(vs, 3);
    SellStep(vs, 4); SellStep(vs, 5); SellStep(vs, 6); SellStep(vs, 7);
    assert vs[8..] == [];
  }

  // ---------------------------------------------------------------- decision

  /** The HOLD reasons: the bullish and the bearish lists, or "no significant signals". */
  function HoldReasons(buyReasons: seq<Reason>, sellReasons: seq<Reason>): (r: seq<Reason>)
    ensures buyReasons == [] && sellReasons == [] ==> r == [NoSignificantSignals]
    ensures buyReasons != [] ==> |r| >= 1 && r[0] == Bullish(buyReasons)
    ensures sellReasons != [] ==> |r| >= 1 && r[|r| - 1] == Bearish(sellReasons)
    ensures buyReasons == [] && sellReasons != [] ==> r == [Bearish(sellReasons)]
  {
    var all := (if buyReasons != [] then [Bullish(buyReasons)] else [])
             + (if sellReasons != [] then [Bearish(sellReasons)] else []);
    if all == [] then [NoSignificantSignals] else all
  }

  function Decide(st: Strategy, symbol: string, assetType: AssetType, price: real, vs: seq<Vote>): Signal {
    var net := BuyTotal(vs) - SellTotal(vs);
    if net >= st.minSignalStrength then Signal(Buy, symbol, BuyTotal(vs), BuyReasons(vs), Some(price), assetType)
    else if net <= -st.minSignalStrength then Signal(Sell, symbol, SellTotal(vs), SellReasons(vs), Some(price), assetType)
    else Signal(Hold, symbol, Abs(net), HoldReasons(BuyReasons(vs), SellReasons(vs)), Some(price), assetType)
  }

  /** The table has the thirty rows the engine needs. */
  predicate Sufficient(table: Option<seq<IndicatorRow>>) {
    table.Some? && |table.value| >= MinRows
  }

  function Latest(t: seq<IndicatorRow>): IndicatorRow requires |t| >= 2 { t[|t| - 1] }
  function Previous(t: seq<IndicatorRow>): IndicatorRow requires |t| >= 2 { t[|t| - 2] }

  /**
   * `analyze_symbol`: without a table of thirty rows a HOLD of strength 0 and no price;
   * otherwise BUY when the buy side leads by the strategy's minimum, SELL when the sell
   * side does, HOLD with the absolute difference otherwise.
   */
  function AnalyzeSymbol(st: Strategy, symbol: string, assetType: AssetType, table: Option<seq<IndicatorRow>>): (s: Signal)
    requires table.Some? ==> ValidTable(table.value)
    ensures s.symbol == symbol && s.assetType == assetType
    ensures !Sufficient(table) ==> s == Signal(Hold, symbol, 0.0, [InsufficientData], None, assetType)
    ensures Sufficient(table) ==>
              var t := table.value;
              var vs := Votes(st, Latest(t), Previous(t));
              var net := BuyTotal(vs) - SellTotal(vs);
              && s.price == Some(Latest(t).close)
              && (s.action == Buy <==> net >= st.minSignalStrength)
              && (s.action == Sell <==> net < st.minSignalStrength && net <= -st.minSignalStrength)
              && (s.action == Buy ==> s.strength == BuyTotal(vs) && s.reasons == BuyReasons(vs))
              && (s.action == Sell ==> s.strength == SellTotal(vs) && s.reasons == SellReasons(vs))
              && (s.action == Hold ==> s.strength == Abs(net) && s.reasons == HoldReasons(BuyReasons(vs), SellReasons(vs)))
  {
    if !Sufficient(table) then Signal(Hold, symbol, 0.0, [InsufficientData], None, assetType)
    else
      var t := table.value;
      Decide(st, symbol, assetType, Latest(t).close, Votes(st, Latest(t), Previous(t)))
  }

  // ---------------------------------------------------------------- properties

  /** Each side's strength stays within what its eight votes can add: 0 to 6.5. */
  lemma StrengthBounds(st: Strategy, latest: IndicatorRow, prev: IndicatorRow)
    requires prev.close > 0.0
    ensures 0.0 <= BuyTotal(Votes(st, latest, prev)) <= 6.5
    ensures 0.0 <= SellTotal(Votes(st, latest, prev)) <= 6.5
  {
    BuyOfEight(Votes(st, latest, prev));
    SellOfEight(Votes(st, latest, prev));
  }

  /** A BUY or SELL signal carries at least the minimum strength, and a reason when that is positive. */
  lemma ActionableSignal(st: Strategy, symbol: string, assetType: AssetType, table: Option<seq<IndicatorRow>>)
    requires table.Some? ==> ValidTable(table.value)
    requires st.minSignalStrength > 0.0
    ensures var s := AnalyzeSymbol(st, symbol, assetType, table);
            s.action != Hold ==> s.strength >= st.minSignalStrength && s.reasons != [] && s.price.Some?
  {
    if Sufficient(table) {
      var t := table.value;
      ReasonsIffWeight(Votes(st, Latest(t), Previous(t)));
    }
  }

  /** The MACD tests never feed both sides. */
  lemma MacdOneSided(latest: IndicatorRow, prev: IndicatorRow)
    ensures MacdBullVote(latest, prev).buy == 0.0 || MacdBearVote(latest, prev).sell == 0.0
  {
  }

  /**
   * The moving-average tests, unlike the others, can feed both sides at once: a price
   * above rising averages while the nine-day EMA has just crossed below the 20-day SMA.
   */
  lemma AveragesCanFeedBothSides()
    ensures var latest := IndicatorRow(105.0, None, None, None, None, None, None, Some(103.0), Some(101.0), Some(100.0), None, None);
            var prev := IndicatorRow(104.0, None, None, None, None, None, None, None, Some(101.0), Some(102.0), None, None);
            TrendVote(latest).buy == 0.5 && EmaCrossVote(latest, prev).sell == 0.75
  {
  }

  /**
   * With the default strategy and every other indicator missing, RSI 25, a MACD histogram
   * turning from -0.1 to 0.2 and a Bollinger position of 0.03 give a BUY of strength 4.0
   * with three reasons.
   */
  lemma OversoldReversalBuys(rows: seq<IndicatorRow>)
    requires |rows| >= MinRows && ValidTable(rows)
    requires Latest(rows) == IndicatorRow(Latest(rows).close, Some(25.0), Some(0.5), Some(0.3), Some(0.2), Some(0.03),
                                          None, None, None, None, None, None)
    requires Previous(rows).macdHist == Some(-0.1)
    ensures AnalyzeSymbol(DefaultStrategy, "AAPL", Stock, Some(rows))
         == Signal(Buy, "AAPL", 4.0, [RsiOversold(25.0), MacdBullishCrossover, AtLowerBand(0.03)],
                   Some(Latest(rows).close), Stock)
  {
    BuyOfEight(Votes(DefaultStrategy, Latest(rows), Previous(rows)));
    BuyReasonsOfEight(Votes(DefaultStrategy, Latest(rows), Previous(rows)));
    SellOfEight(Votes(DefaultStrategy, Latest(rows), Previous(rows)));
  }
}
