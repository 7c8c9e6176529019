/**
 * engine.py `Portfolio` as an object whose fields the trading operations update in place.
 * Each operation is proved to leave the object in the state the matching function of
 * module Ledger computes, so everything proved there holds of the object.
 */
module Engine {
  import opened Common
  import opened Ledger
  import EquityHistory

  /** The equity-curve point `_save_value_snapshot` takes of a ledger at `now`. */
  function EquityPoint(l: LedgerState, now: int): (s: EquityHistory.EquitySnapshot)
    ensures s.totalValue == s.cash + s.positionsValue && s.numPositions == |l.positions|
  {
    EquityHistory.EquitySnapshot(now, TotalValue(l), l.cash, PositionsValue(l.positions), |l.positions|)
  }

  class Portfolio {
    var startingCash: real
    var cash: real
    /** The `positions` dictionary in insertion order; one entry per symbol. */
    var positions: seq<Position>
    var tradeHistory: seq<Trade>
    var createdAt: int
    var lastUpdated: int
    /** What `portfolio.json` holds. */
    var savedFile: StoredFile
    /** What `value_history.json` holds. */
    var valueHistory: seq<EquityHistory.EquitySnapshot>

    function State(): LedgerState
      reads this
    {
      LedgerState(startingCash, cash, positions, tradeHistory, createdAt, lastUpdated)
    }

    ghost predicate Valid()
      reads this
    {
      ValidLedger(State())
    }

    /**
     * `Portfolio.__init__`: all cash, nothing held.  `files` and `history` are what the
     * data directory holds; creating a portfolio does not write them.
     */
    constructor (startingCash: real, now: int, files: StoredFile, history: seq<EquityHistory.EquitySnapshot>)
      requires startingCash >= 0.0
      ensures Valid() && State() == FreshLedger(startingCash, now)
      ensures savedFile == files && valueHistory == history
    {
      this.startingCash := startingCash;
      this.cash := startingCash;
      this.positions := [];
      this.tradeHistory := [];
      this.createdAt := now;
      this.lastUpdated := now;
      this.savedFile := files;
      this.valueHistory := history;
    }

    /**
     * `Portfolio.load`: restores the stored state, or starts afresh and saves when the
     * file is missing, unreadable or lacks `cash`.
     */
    constructor Load(file: StoredFile, history: seq<EquityHistory.EquitySnapshot>, startingCash: real, now: int)
      requires startingCash >= 0.0
      requires file.Stored? && Decode(file.state, startingCash, now).Some? ==>
                 ValidLedger(Decode(file.state, startingCash, now).value)
      ensures Valid() && State() == LoadLedger(file, startingCash, now).0
      ensures LoadLedger(file, startingCash, now).1 ==>
                savedFile == Stored(Snapshot(State()))
                && valueHistory == EquityHistory.Record(history, EquityPoint(State(), now))
      ensures !LoadLedger(file, startingCash, now).1 ==> savedFile == file && valueHistory == history
    {
      var startOver := true;
      var l := FreshLedger(startingCash, now);
      if file.Stored? {
        var decoded := Decode(file.state, startingCash, now);
        if decoded.Some? {
          l := decoded.value;
          startOver := false;
        }
      }
      this.startingCash := l.startingCash;
      this.cash := l.cash;
      this.positions := l.positions;
      this.tradeHistory := l.tradeHistory;
      this.createdAt := l.createdAt;
      this.lastUpdated := l.lastUpdated;
      if startOver {
        this.savedFile := Stored(Snapshot(l));
        this.valueHistory := EquityHistory.Record(history, EquityPoint(l, now));
      } else {
        this.savedFile := file;
        this.valueHistory := history;
      }
    }

    /** `save`: writes the whole state, then offers a snapshot to the equity curve. */
    method Save(now: int)
      modifies this
      ensures State() == old(State())
      ensures savedFile == Stored(Snapshot(State()))
      ensures valueHistory == EquityHistory.Record(old(valueHistory), EquityPoint(State(), now))
    {
      savedFile := Stored(Snapshot(State()));
      valueHistory := EquityHistory.Record(valueHistory, EquityPoint(State(), now));
    }

    /**
     * `buy`: a refused purchase changes nothing; an accepted one moves the portfolio to
     * the state `ApplyBuy` computes, returns the BUY record it appended, and saves.
     */
    method Buy(symbol: string, quantity: real, price: real, assetType: AssetType, reason: seq<Reason>, now: int)
      returns (outcome: Result<Trade, Rejection>)
      requires Valid() && quantity > 0.0 && price > 0.0
      modifies this
      ensures Valid()
      ensures ApplyBuy(old(State()), symbol, quantity, price, assetType, reason, now).Failure? ==>
                && outcome == Failure(ApplyBuy(old(State()), symbol, quantity, price, assetType, reason, now).error)
                && State() == old(State()) && savedFile == old(savedFile) && valueHistory == old(valueHistory)
      ensures ApplyBuy(old(State()), symbol, quantity, price, assetType, reason, now).Success? ==>
                && State() == ApplyBuy(old(State()), symbol, quantity, price, assetType, reason, now).value
                && outcome == Success(tradeHistory[|tradeHistory| - 1])
                && savedFile == Stored(Snapshot(State()))
                && valueHistory == EquityHistory.Record(old(valueHistory), EquityPoint(State(), now))
    {
      ghost var before := State();
      var cost := quantity * price;
      if cost > cash {
        return Failure(InsufficientCash(cost, cash));
      }
      cash := cash - cost;
      match Find(positions, symbol) {
        case Some(i) =>
          positions := positions[i := Reaverage(positions[i], quantity, price)];
        case None =>
          positions := positions + [OpenPosition(symbol, quantity, price, now, assetType)];
      }
      var t := BuyRecord(symbol, quantity, price, assetType, reason, cash, now);
      tradeHistory := tradeHistory + [t];
      lastUpdated := now;
      assert State() == ApplyBuy(before, symbol, quantity, price, assetType, reason, now).value;
      Save(now);
      outcome := Success(t);
    }

    /**
     * `sell`: a refused sale changes nothing; an accepted one moves the portfolio to the
     * state `ApplySell` computes, returns the SELL record it appended, and saves.
     */
    method Sell(symbol: string, quantity: Option<real>, price: Option<real>, reason: seq<Reason>, now: int)
      returns (outcome: Result<Trade, Rejection>)
      requires Valid()
      requires quantity.Some? ==> quantity.value >= 0.0
      requires price.Some? ==> price.value >= 0.0
      modifies this
      ensures Valid()
      ensures ApplySell(old(State()), symbol, quantity, price, reason, now).Failure? ==>
                && outcome == Failure(ApplySell(old(State()), symbol, quantity, price, reason, now).error)
                && State() == old(State()) && savedFile == old(savedFile) && valueHistory == old(valueHistory)
      ensures ApplySell(old(State()), symbol, quantity, price, reason, now).Success? ==>
                && State() == ApplySell(old(State()), symbol, quantity, price, reason, now).value
                && outcome == Success(tradeHistory[|tradeHistory| - 1])
                && savedFile == Stored(Snapshot(State()))
                && valueHistory == EquityHistory.Record(old(valueHistory), EquityPoint(State(), now))
    {
      ghost var before := State();
      var found := Find(positions, symbol);
      if found.None? {
        SellUnheldRejected(before, symbol, quantity, price, reason, now);
        return Failure(NoPosition(symbol));
      }
      var i := found.value;
      var pos := positions[i];
      var q := quantity.GetOr(pos.quantity);
      if q > pos.quantity {
        SellRejectsOversize(before, symbol, quantity, price, reason, now, i);
        return Failure(InsufficientQuantity(symbol, pos.quantity));
      }
      var p := price.GetOr(pos.currentPrice);
      SellSucceeds(before, symbol, quantity, price, reason, now, i);
      var t := Dispose(i, q, p, reason, now);
      Save(now);
      outcome := Success(t);
    }

    /** The accepted part of `sell`: credit the proceeds, record the trade, close or shrink. */
    method Dispose(i: nat, q: real, p: real, reason: seq<Reason>, now: int) returns (t: Trade)
      requires Valid() && i < |positions| && 0.0 <= q <= positions[i].quantity && p >= 0.0
      modifies this
      ensures State() == Sold(old(State()), i, q, p, reason, now)
      ensures t == tradeHistory[|tradeHistory| - 1]
      ensures savedFile == old(savedFile) && valueHistory == old(valueHistory)
    {
      ghost var before := State();
      var pos := positions[i];
      cash := cash + q * p;
      t := SellRecord(pos, q, p, reason, cash, now);
      tradeHistory := tradeHistory + [t];
      if q >= pos.quantity {
        positions := Remove(positions, i);
      } else {
        positions := positions[i := pos.(quantity := pos.quantity - q)];
      }
      lastUpdated := now;
      ghost var expected := Sold(before, i, q, p, reason, now);
      assert cash == expected.cash && tradeHistory == expected.tradeHistory;
      assert positions == expected.positions;
    }

    /**
     * `update_prices`: marks every position that has a non-null quote, one after another,
     * and stamps `last_updated`; the file is not written.
     */
    method UpdatePrices(prices: map<string, Option<real>>, now: int)
      requires Valid() && ValidQuotes(prices)
      modifies this
      ensures Valid()
      ensures State() == Ledger.UpdatePrices(old(State()), prices, now)
      ensures savedFile == old(savedFile) && valueHistory == old(valueHistory)
    {
      var k := 0;
      while k < |positions|
        invariant 0 <= k <= |positions| == |old(positions)|
        invariant positions[..k] == MarkPrices(old(positions), prices)[..k]
        invariant positions[k..] == old(positions)[k..]
        invariant cash == old(cash) && tradeHistory == old(tradeHistory) && startingCash == old(startingCash)
        invariant createdAt == old(createdAt) && lastUpdated == old(lastUpdated)
        invariant savedFile == old(savedFile) && valueHistory == old(valueHistory)
      {
        var pos := positions[k];
        if pos.symbol in prices && prices[pos.symbol].Some? {
          var c := prices[pos.symbol].value;
          pos := pos.(currentPrice := c);
          if pos.currentPrice > pos.highSinceEntry {
            pos := pos.(highSinceEntry := pos.currentPrice);
          }
          positions := positions[k := pos];
        }
        assert positions[k] == MarkOne(old(positions)[k], prices);
        assert positions[..k + 1] == positions[..k] + [positions[k]];
        assert MarkPrices(old(positions), prices)[..k + 1] == MarkPrices(old(positions), prices)[..k] + [MarkPrices(old(positions), prices)[k]];
        k := k + 1;
      }
      assert positions == positions[..k];
      lastUpdated := now;
    }
  }
}
