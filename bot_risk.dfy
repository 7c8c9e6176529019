/**
 * The risk policy of bot.py: the exit rules `check_exit_conditions` applies to each held
 * position, and the sizing rule `calculate_position_size` applies to each buy.
 */
module Risk {
  import opened Common
  import opened Signals
  import opened Ledger

  /** The bot's risk settings (`OpenClawBot.__init__`) and the strategy it scores with. */
  datatype BotConfig = BotConfig(
    maxPositionPct: real,
    maxPositions: int,
    stopLossPct: real,
    takeProfitPct: real,
    trailingStopPct: real,
    strategy: Strategy)

  /** The settings a configuration without these keys gets. */
  const DefaultConfig: BotConfig := BotConfig(0.15, 12, 0.05, 0.10, 0.03, DefaultStrategy)

  /** Strength every exit signal carries. */
  const ExitStrength: real := 5.0

  // ---------------------------------------------------------------- exits

  /** The position's unrealized profit as a fraction of its cost. */
  function PnlFraction(p: Position): real { UnrealizedPnlPct(p) / 100.0 }

  /** The exit rules that fire for `p`: stop loss, take profit, trailing stop, in that order. */
  function ExitRules(cfg: BotConfig, p: Position): (r: seq<Reason>)
    ensures |r| <= 3
  {
    var pnl := PnlFraction(p);
    var stop := if pnl <= -cfg.stopLossPct then [StopLoss(pnl * 100.0)] else [];
    var take := if pnl >= cfg.takeProfitPct then [TakeProfit(pnl * 100.0)] else [];
    var trail :=
      if p.highSinceEntry > 0.0 then
        var drawdown := (p.currentPrice - p.highSinceEntry) / p.highSinceEntry;
        if drawdown <= -cfg.trailingStopPct && pnl > 0.0 then [TrailingStop(drawdown * 100.0)] else []
      else [];
    stop + take + trail
  }

  /**
   * `check_exit_conditions` for one position: an exit when a rule fires, otherwise when the
   * engine gives a SELL of at least the minimum strength; none otherwise.
   */
  function ExitSignal(cfg: BotConfig, p: Position, table: Option<seq<IndicatorRow>>): (r: Option<Signal>)
    requires table.Some? ==> ValidTable(table.value)
    ensures r.Some? ==> r.value.action == Sell && r.value.symbol == p.symbol && r.value.strength == ExitStrength
                        && r.value.price == Some(p.currentPrice) && r.value.assetType == p.assetType
    ensures ExitRules(cfg, p) != [] ==> r.Some? && r.value.reasons == ExitRules(cfg, p)
    ensures ExitRules(cfg, p) == [] ==>
              var s := AnalyzeSymbol(cfg.strategy, p.symbol, p.assetType, table);
              (r.Some? <==> s.action == Sell && s.strength >= cfg.strategy.minSignalStrength)
              && (r.Some? ==> r.value.reasons == s.reasons)
  {
    var rules := ExitRules(cfg, p);
    if rules != [] then Some(Signal(Sell, p.symbol, ExitStrength, rules, Some(p.currentPrice), p.assetType))
    else
      var s := AnalyzeSymbol(cfg.strategy, p.symbol, p.assetType, table);
      if s.action == Sell && s.strength >= cfg.strategy.minSignalStrength then
        Some(Signal(Sell, p.symbol, ExitStrength, s.reasons, Some(p.currentPrice), p.assetType))
      else None
  }

  /** When a rule fires the technical check is not consulted: the table makes no difference. */
  lemma RulesPreemptAnalysis(cfg: BotConfig, p: Position, t1: Option<seq<IndicatorRow>>, t2: Option<seq<IndicatorRow>>)
    requires t1.Some? ==> ValidTable(t1.value)
    requires t2.Some? ==> ValidTable(t2.value)
    requires ExitRules(cfg, p) != []
    ensures ExitSignal(cfg, p, t1) == ExitSignal(cfg, p, t2)
  {
  }

  /** For a held position, each rule fires exactly on its threshold over `(current - entry) / entry`. */
  lemma ExitRulesMeaning(cfg: BotConfig, p: Position)
    requires SoundPosition(p)
    ensures var pnl := (p.currentPrice - p.entryPrice) / p.entryPrice;
            var dd := (p.currentPrice - p.highSinceEntry) / p.highSinceEntry;
            var rules := ExitRules(cfg, p);
            && (StopLoss(pnl * 100.0) in rules <==> pnl <= -cfg.stopLossPct)
            && (TakeProfit(pnl * 100.0) in rules <==> pnl >= cfg.takeProfitPct)
            && (TrailingStop(dd * 100.0) in rules <==> dd <= -cfg.trailingStopPct && pnl > 0.0)
  {
    assert CostBasis(p) > 0.0;
  }

  /** A position bought at 100 and marked at 94 is stopped out under a 5% stop loss. */
  lemma StopLossExample(p: Position, table: Option<seq<IndicatorRow>>)
    requires table.Some? ==> ValidTable(table.value)
    requires p.quantity > 0.0 && p.entryPrice == 100.0 && p.currentPrice == 94.0 && p.highSinceEntry == 100.0
    ensures ExitSignal(DefaultConfig, p, table)
         == Some(Signal(Sell, p.symbol, 5.0, [StopLoss(-6.0)], Some(94.0), p.assetType))
  {
    assert CostBasis(p) > 0.0;
    assert UnrealizedPnlPct(p) == -6.0;
    assert PnlFraction(p) == -0.06;
    assert (p.currentPrice - p.highSinceEntry) / p.highSinceEntry == -0.06;
    assert ExitRules(DefaultConfig, p) == [StopLoss(-6.0)];
  }

  // ---------------------------------------------------------------- sizing

  /** Smallest order value the bot places. */
  const MinOrder: real := 10.0

  /** Share of cash kept back from any one order. */
  const CashUse: real := 0.9

  /** `round(x, 4)`: the nearest multiple of 1/10000, halves rounded up. */
  function Round4(x: real): (r: real)
    ensures x - 1.0 / 20000.0 < r <= x + 1.0 / 20000.0
  {
    ((x * 10000.0 + 0.5).Floor as real) / 10000.0
  }

  /** `min(total_value * max_position_pct, cash * 0.9)`: what one order may spend. */
  function MaxSpend(cfg: BotConfig, totalValue: real, cash: real): real {
    MinReal(totalValue * cfg.maxPositionPct, cash * CashUse)
  }

  /**
   * `calculate_position_size`: zero when the budget does not buy one unit or the order
   * would be under ten dollars; otherwise the budget divided by the price, to four places.
   */
  function PositionSize(cfg: BotConfig, totalValue: real, cash: real, price: real): (q: real)
    requires price > 0.0
    ensures MaxSpend(cfg, totalValue, cash) < price ==> q == 0.0
    ensures q == 0.0 || q * price >= MinOrder
    ensures q >= 0.0
    ensures q != 0.0 ==> q == Round4(MaxSpend(cfg, totalValue, cash) / price)
    ensures MaxSpend(cfg, totalValue, cash) >= price && Round4(MaxSpend(cfg, totalValue, cash) / price) * price >= MinOrder
            ==> q == Round4(MaxSpend(cfg, totalValue, cash) / price)
  {
    var maxSpend := MaxSpend(cfg, totalValue, cash);
    if maxSpend < price then 0.0
    else
      var q := Round4(maxSpend / price);
      if q * price >= MinOrder then q else 0.0
  }

  /** A nonzero size never costs more than the cash on hand, nor more than the budget by over a rounding step. */
  lemma PositionSizeAffordable(cfg: BotConfig, totalValue: real, cash: real, price: real)
    requires price > 0.0
    ensures var q := PositionSize(cfg, totalValue, cash, price);
            q > 0.0 ==> q * price <= cash && q * price <= MaxSpend(cfg, totalValue, cash) + price / 20000.0
  {
    var q := PositionSize(cfg, totalValue, cash, price);
    if q > 0.0 {
      var m := MaxSpend(cfg, totalValue, cash);
      assert m >= price;
      assert q <= m / price + 1.0 / 20000.0;
      assert q * price <= (m / price + 1.0 / 20000.0) * price;
      assert (m / price) * price == m;
      assert q * price <= m + price / 20000.0;
      assert m <= cash * CashUse;
    }
  }

  /** 15% of a 10,000 portfolio, all in cash, buys 15 units at 100. */
  lemma PositionSizeExample()
    ensures PositionSize(DefaultConfig, 10000.0, 10000.0, 100.0) == 15.0
  {
    assert MaxSpend(DefaultConfig, 10000.0, 10000.0) == 1500.0;
    assert (15.0 * 10000.0 + 0.5).Floor == 150000;
  }
}
