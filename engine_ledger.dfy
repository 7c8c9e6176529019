/**
 * The paper-trading ledger of engine.py as values: positions, trade records and the
 * portfolio state, with buy, sell and price marking as functions from one state to
 * the next.  The `Portfolio` class in module Engine performs the same operations in
 * place and is proved to agree with these functions.
 */
module Ledger {
  import opened Common
  import TextOrder

  // ---------------------------------------------------------------- positions

  /** One open holding (engine.py `Position`); dates are instants of the simulated clock. */
  datatype Position = Position(
    symbol: string,
    quantity: real,
    entryPrice: real,
    entryDate: int,
    assetType: AssetType,
    currentPrice: real,
    highSinceEntry: real)

  /** `Position.__init__`: a new position is marked, and has its high-water mark, at its entry price. */
  function OpenPosition(symbol: string, quantity: real, entryPrice: real, entryDate: int, assetType: AssetType): Position {
    Position(symbol, quantity, entryPrice, entryDate, assetType, entryPrice, entryPrice)
  }

  function MarketValue(p: Position): real { p.quantity * p.currentPrice }
  function CostBasis(p: Position): real { p.quantity * p.entryPrice }
  function UnrealizedPnl(p: Position): real { MarketValue(p) - CostBasis(p) }

  lemma PnlRatio(q: real, c: real, e: real)
    requires q > 0.0 && e != 0.0
    ensures (q * c - q * e) / (q * e) == (c - e) / e
  {
    assert q * c - q * e == q * (c - e);
    assert (q * (c - e)) / (q * e) == (c - e) / e;
  }

  /** Unrealized profit in percent of cost; zero for a position that cost nothing. */
  function UnrealizedPnlPct(p: Position): (r: real)
    ensures CostBasis(p) == 0.0 ==> r == 0.0
    ensures p.quantity > 0.0 && p.entryPrice != 0.0 ==> r == (p.currentPrice - p.entryPrice) / p.entryPrice * 100.0
  {
    if CostBasis(p) == 0.0 then 0.0
    else
      if p.quantity > 0.0 && p.entryPrice != 0.0 then
        PnlRatio(p.quantity, p.currentPrice, p.entryPrice);
        UnrealizedPnl(p) / CostBasis(p) * 100.0
      else UnrealizedPnl(p) / CostBasis(p) * 100.0
  }

  /**
   * The dictionary a position is stored as; any key may be missing from what is loaded.
   * `asset_type`, `current_price` and `high_since_entry` have defaults, the others do not.
   */
  datatype PositionRecord = PositionRecord(
    symbol: Option<string>,
    quantity: Option<real>,
    entryPrice: Option<real>,
    entryDate: Option<int>,
    assetType: Option<AssetType>,
    currentPrice: Option<real>,
    highSinceEntry: Option<real>)

  /** The four keys `Position.from_dict` reads without a default. */
  predicate HasRequiredKeys(d: PositionRecord) {
    d.symbol.Some? && d.quantity.Some? && d.entryPrice.Some? && d.entryDate.Some?
  }

  /**
   * `Position.from_dict`: `None` (the `KeyError`) when a required key is missing; otherwise
   * missing prices default to the entry price and a missing asset type to stock.
   */
  function FromRecord(d: PositionRecord): (p: Option<Position>)
    ensures p.Some? <==> HasRequiredKeys(d)
    ensures p.Some? ==> p.value.symbol == d.symbol.value && p.value.quantity == d.quantity.value
    ensures p.Some? ==> p.value.entryPrice == d.entryPrice.value && p.value.entryDate == d.entryDate.value
    ensures p.Some? ==> p.value.assetType == d.assetType.GetOr(Stock)
    ensures p.Some? ==> p.value.currentPrice == d.currentPrice.GetOr(p.value.entryPrice)
    ensures p.Some? ==> p.value.highSinceEntry == d.highSinceEntry.GetOr(p.value.entryPrice)
  {
    if HasRequiredKeys(d) then
      Some(Position(d.symbol.value, d.quantity.value, d.entryPrice.value, d.entryDate.value,
                    d.assetType.GetOr(Stock), d.currentPrice.GetOr(d.entryPrice.value),
                    d.highSinceEntry.GetOr(d.entryPrice.value)))
    else None
  }

  /** `Position.to_dict` writes every key, so reading it back restores the position exactly. */
  function ToRecord(p: Position): (d: PositionRecord)
    ensures FromRecord(d) == Some(p)
    ensures d.assetType.Some? && d.currentPrice.Some? && d.highSinceEntry.Some?
  {
    PositionRecord(Some(p.symbol), Some(p.quantity), Some(p.entryPrice), Some(p.entryDate),
                   Some(p.assetType), Some(p.currentPrice), Some(p.highSinceEntry))
  }

  // ---------------------------------------------------------------- trades

  datatype TradeAction = BuyTrade | SellTrade

  /** One entry of the append-only trade history; `pnl` and `pnlPct` are present on sells only. */
  datatype Trade = Trade(
    timestamp: int,
    action: TradeAction,
    symbol: string,
    quantity: real,
    price: real,
    total: real,
    assetType: AssetType,
    reason: seq<Reason>,
    cashAfter: real,
    pnl: Option<real>,
    pnlPct: Option<real>)

  /** Why `buy` or `sell` refused to trade; the source reports these as a false flag with a message. */
  datatype Rejection =
    | InsufficientCash(need: real, have: real)
    | NoPosition(symbol: string)
    | InsufficientQuantity(symbol: string, held: real)

  // ---------------------------------------------------------------- portfolio state

  /** The whole state of one `Portfolio`: what `save` writes and `load` restores. */
  datatype LedgerState = LedgerState(
    startingCash: real,
    cash: real,
    positions: seq<Position>,
    tradeHistory: seq<Trade>,
    createdAt: int,
    lastUpdated: int)

  predicate DistinctSymbols(ps: seq<Position>) {
    forall i, j :: 0 <= i < j < |ps| ==> ps[i].symbol != ps[j].symbol
  }

  /**
   * What every open position satisfies: something is held, it was bought at a positive
   * price, its high-water mark is positive and its mark is not negative.
   */
  predicate SoundPosition(p: Position) {
    p.quantity > 0.0 && p.entryPrice > 0.0 && p.currentPrice >= 0.0 && p.highSinceEntry > 0.0
  }

  /** The ledger invariant: cash is never negative, one position per symbol, every position sound. */
  predicate ValidLedger(l: LedgerState) {
    && l.cash >= 0.0
    && DistinctSymbols(l.positions)
    && forall i :: 0 <= i < |l.positions| ==> SoundPosition(l.positions[i])
  }

  /** Where the position in `sym` is, if it is held. */
  function Find(ps: seq<Position>, sym: string): (r: Option<nat>)
    ensures r.Some? ==> r.value < |ps| && ps[r.value].symbol == sym
    ensures r.None? <==> forall i :: 0 <= i < |ps| ==> ps[i].symbol != sym
  {
    if |ps| == 0 then None
    else if ps[0].symbol == sym then Some(0)
    else match Find(ps[1..], sym)
      case Some(k) => Some(k + 1)
      case None => None
  }

  predicate Holds(ps: seq<Position>, sym: string) {
    exists i :: 0 <= i < |ps| && ps[i].symbol == sym
  }

  lemma FindUnique(ps: seq<Position>, sym: string, i: nat)
    requires DistinctSymbols(ps) && i < |ps| && ps[i].symbol == sym
    ensures Find(ps, sym) == Some(i)
  {}

  function Remove(ps: seq<Position>, i: nat): (r: seq<Position>)
    requires i < |ps|
    ensures |r| == |ps| - 1
    ensures forall k :: 0 <= k < i ==> r[k] == ps[k]
    ensures forall k :: i <= k < |r| ==> r[k] == ps[k + 1]
  {
    ps[..i] + ps[i + 1..]
  }

  /** The sum of `f` over the positions, as the source's `sum(... for p in positions.values())`. */
  function SumOver(ps: seq<Position>, f: Position -> real): real {
    if |ps| == 0 then 0.0 else f(ps[0]) + SumOver(ps[1..], f)
  }

  function PositionsValue(ps: seq<Position>): real { SumOver(ps, MarketValue) }
  function PositionsCost(ps: seq<Position>): real { SumOver(ps, CostBasis) }
  function UnrealizedTotal(ps: seq<Position>): real { SumOver(ps, UnrealizedPnl) }

  function TotalValue(l: LedgerState): real { l.cash + PositionsValue(l.positions) }
  function TotalPnl(l: LedgerState): real { TotalValue(l) - l.startingCash }

  function TotalReturnPct(l: LedgerState): (r: real)
    ensures l.startingCash == 0.0 ==> r == 0.0
    ensures l.startingCash != 0.0 ==> r * l.startingCash == TotalPnl(l) * 100.0
  {
    if l.startingCash == 0.0 then 0.0 else TotalPnl(l) / l.startingCash * 100.0
  }

  function NumPositions(l: LedgerState): nat { |l.positions| }

  // ---------------------------------------------------------------- buy

  /** Adds `quantity` at `price` to a held position at the volume-weighted average cost. */
  function Reaverage(p: Position, quantity: real, price: real): Position
    requires p.quantity + quantity != 0.0
  {
    var total := p.quantity + quantity;
    p.(quantity := total,
       entryPrice := (p.quantity * p.entryPrice + quantity * price) / total,
       currentPrice := price)
  }

  /**
   * The weighted-average property: with positive quantities the new entry price lies
   * between the old entry price and the trade price.
   */
  lemma {:induction false} ReaverageBetween(p: Position, quantity: real, price: real)
    requires p.quantity > 0.0 && quantity > 0.0
    ensures var e := Reaverage(p, quantity, price).entryPrice;
            MinReal(p.entryPrice, price) <= e <= MaxReal(p.entryPrice, price)
  {
    var t := p.quantity + quantity;
    var e := Reaverage(p, quantity, price).entryPrice;
    assert e * t == p.quantity * p.entryPrice + quantity * price;
    if p.entryPrice <= price {
      assert p.quantity * p.entryPrice + quantity * p.entryPrice <= e * t;
      assert e * t <= p.quantity * price + quantity * price;
      assert p.entryPrice * t <= e * t <= price * t;
    } else {
      assert p.quantity * price + quantity * price <= e * t;
      assert e * t <= p.quantity * p.entryPrice + quantity * p.entryPrice;
      assert price * t <= e * t <= p.entryPrice * t;
    }
  }

  function BuyRecord(symbol: string, quantity: real, price: real, assetType: AssetType, reason: seq<Reason>, cashAfter: real, now: int): Trade {
    Trade(now, BuyTrade, symbol, quantity, price, quantity * price, assetType, reason, cashAfter, None, None)
  }

  /**
   * `Portfolio.buy`: refuses a purchase that costs more than the cash on hand; otherwise
   * pays for it, re-averages into the held position or opens a new one, and appends a
   * BUY record.
   */
  function ApplyBuy(l: LedgerState, symbol: string, quantity: real, price: real, assetType: AssetType, reason: seq<Reason>, now: int): (r: Result<LedgerState, Rejection>)
    requires quantity > 0.0 && price > 0.0
    requires ValidLedger(l)
    ensures r.Failure? <==> quantity * price > l.cash
    ensures r.Failure? ==> r.error == InsufficientCash(quantity * price, l.cash)
    ensures r.Success? ==> ValidLedger(r.value)
    ensures r.Success? ==> r.value.cash == l.cash - quantity * price
    ensures r.Success? ==> |r.value.positions| == |l.positions| + (if Holds(l.positions, symbol) then 0 else 1)
    ensures r.Success? ==> |r.value.tradeHistory| == |l.tradeHistory| + 1
  {
    var cost := quantity * price;
    if cost > l.cash then Failure(InsufficientCash(cost, l.cash))
    else
      var cash := l.cash - cost;
      var positions := match Find(l.positions, symbol)
        case Some(i) => l.positions[i := Reaverage(l.positions[i], quantity, price)]
        case None => l.positions + [OpenPosition(symbol, quantity, price, now, assetType)];
      var r := l.(cash := cash, positions := positions,
                  tradeHistory := l.tradeHistory + [BuyRecord(symbol, quantity, price, assetType, reason, cash, now)],
                  lastUpdated := now);
      BuyKeepsValid(l, symbol, quantity, price, assetType, now);
      Success(r)
  }

  lemma BuyKeepsValid(l: LedgerState, symbol: string, quantity: real, price: real, assetType: AssetType, now: int)
    requires quantity > 0.0 && price > 0.0 && ValidLedger(l)
    ensures forall i :: 0 <= i < |l.positions| && l.positions[i].symbol == symbol ==>
              var ps := l.positions[i := Reaverage(l.positions[i], quantity, price)];
              DistinctSymbols(ps) && forall k :: 0 <= k < |ps| ==> SoundPosition(ps[k])
    ensures !Holds(l.positions, symbol) ==>
              var ps := l.positions + [OpenPosition(symbol, quantity, price, now, assetType)];
              DistinctSymbols(ps) && forall k :: 0 <= k < |ps| ==> SoundPosition(ps[k])
  {
    forall i | 0 <= i < |l.positions| && l.positions[i].symbol == symbol
      ensures var ps := l.positions[i := Reaverage(l.positions[i], quantity, price)];
              DistinctSymbols(ps) && forall k :: 0 <= k < |ps| ==> SoundPosition(ps[k])
    {
      var p := l.positions[i];
      ReaverageBetween(p, quantity, price);
      assert Reaverage(p, quantity, price).entryPrice >= MinReal(p.entryPrice, price) > 0.0;
    }
  }

  /** A successful buy appends exactly one record, a BUY of the requested size at the requested price. */
  lemma BuyAppendsRecord(l: LedgerState, symbol: string, quantity: real, price: real, assetType: AssetType, reason: seq<Reason>, now: int)
    requires quantity > 0.0 && price > 0.0 && ValidLedger(l)
    requires ApplyBuy(l, symbol, quantity, price, assetType, reason, now).Success?
    ensures var n := ApplyBuy(l, symbol, quantity, price, assetType, reason, now).value;
            && |n.tradeHistory| == |l.tradeHistory| + 1
            && n.tradeHistory[..|l.tradeHistory|] == l.tradeHistory
            && var t := n.tradeHistory[|l.tradeHistory|];
               t.action == BuyTrade && t.symbol == symbol && t.quantity == quantity && t.price == price
               && t.total == quantity * price && t.cashAfter == n.cash && t.pnl.None?
  {
    var n := ApplyBuy(l, symbol, quantity, price, assetType, reason, now).value;
    assert n.tradeHistory[..|l.tradeHistory|] == l.tradeHistory;
  }

  /**
   * Buying more of a held symbol adds the quantities, re-averages the entry price, marks
   * the position at the trade price, and keeps its entry date and its high-water mark.
   */
  lemma BuyIntoHeld(l: LedgerState, symbol: string, quantity: real, price: real, assetType: AssetType, reason: seq<Reason>, now: int, i: nat)
    requires quantity > 0.0 && price > 0.0 && ValidLedger(l)
    requires i < |l.positions| && l.positions[i].symbol == symbol
    requires quantity * price <= l.cash
    ensures var n := ApplyBuy(l, symbol, quantity, price, assetType, reason, now);
            var old_ := l.positions[i];
            && n.Success? && |n.value.positions| == |l.positions|
            && var p := n.value.positions[i];
               && p.symbol == symbol
               && p.quantity == old_.quantity + quantity
               && p.entryPrice == (old_.quantity * old_.entryPrice + quantity * price) / (old_.quantity + quantity)
               && MinReal(old_.entryPrice, price) <= p.entryPrice <= MaxReal(old_.entryPrice, price)
               && p.currentPrice == price
               && p.entryDate == old_.entryDate && p.highSinceEntry == old_.highSinceEntry
               && p.assetType == old_.assetType
               && forall k :: 0 <= k < |l.positions| && k != i ==> n.value.positions[k] == l.positions[k]
  {
    FindUnique(l.positions, symbol, i);
    ReaverageBetween(l.positions[i], quantity, price);
  }

  /** Buying a symbol not held opens a position at the end, marked and high-watered at the trade price. */
  lemma BuyOpensNew(l: LedgerState, symbol: string, quantity: real, price: real, assetType: AssetType, reason: seq<Reason>, now: int)
    requires quantity > 0.0 && price > 0.0 && ValidLedger(l)
    requires !Holds(l.positions, symbol) && quantity * price <= l.cash
    ensures var n := ApplyBuy(l, symbol, quantity, price, assetType, reason, now);
            && n.Success?
            && n.value.positions == l.positions + [Position(symbol, quantity, price, now, assetType, price, price)]
            && TotalValue(n.value) == TotalValue(l)
  {
    var newPos := OpenPosition(symbol, quantity, price, now, assetType);
    assert Find(l.positions, symbol).None?;
    var n := ApplyBuy(l, symbol, quantity, price, assetType, reason, now).value;
    assert n.positions == l.positions + [newPos] && n.cash == l.cash - quantity * price;
    SumAppend(l.positions, newPos, MarketValue);
    assert MarketValue(newPos) == quantity * price;
  }

  // ---------------------------------------------------------------- sell

  function SellRecord(pos: Position, quantity: real, price: real, reason: seq<Reason>, cashAfter: real, now: int): Trade
    requires pos.entryPrice != 0.0
  {
    Trade(now, SellTrade, pos.symbol, quantity, price, quantity * price, pos.assetType, reason, cashAfter,
          Some((price - pos.entryPrice) * quantity), Some((price - pos.entryPrice) / pos.entryPrice * 100.0))
  }

  /** The quantity a sell asks for: everything held when none is given. */
  function SellQuantity(pos: Position, quantity: Option<real>): real { quantity.GetOr(pos.quantity) }

  /** The price a sell is made at: the position's last mark when none is given. */
  function SellPrice(pos: Position, price: Option<real>): real { price.GetOr(pos.currentPrice) }

  /**
   * `Portfolio.sell`: refuses a symbol that is not held and a quantity larger than the
   * holding; otherwise credits the proceeds, appends a SELL record carrying the realized
   * profit, and closes the position or shrinks it.
   */
  function ApplySell(l: LedgerState, symbol: string, quantity: Option<real>, price: Option<real>, reason: seq<Reason>, now: int): (r: Result<LedgerState, Rejection>)
    requires ValidLedger(l)
    requires quantity.Some? ==> quantity.value >= 0.0
    requires price.Some? ==> price.value >= 0.0
    ensures !Holds(l.positions, symbol) ==> r == Failure(NoPosition(symbol))
    ensures r.Success? ==> ValidLedger(r.value)
    ensures r.Success? ==> r.value.cash >= l.cash
    ensures r.Success? ==> |r.value.tradeHistory| == |l.tradeHistory| + 1
  {
    match Find(l.positions, symbol)
    case None => Failure(NoPosition(symbol))
    case Some(i) =>
      var pos := l.positions[i];
      var q := SellQuantity(pos, quantity);
      if q > pos.quantity then Failure(InsufficientQuantity(symbol, pos.quantity))
      else
        SoldValid(l, i, q, SellPrice(pos, price), reason, now);
        Success(Sold(l, i, q, SellPrice(pos, price), reason, now))
  }

  /** The ledger after selling `q` of position `i` at `p`. */
  function Sold(l: LedgerState, i: nat, q: real, p: real, reason: seq<Reason>, now: int): LedgerState
    requires i < |l.positions| && l.positions[i].entryPrice != 0.0
  {
    var pos := l.positions[i];
    var cash := l.cash + q * p;
    l.(cash := cash,
       positions := if q >= pos.quantity then Remove(l.positions, i)
                    else l.positions[i := pos.(quantity := pos.quantity - q)],
       tradeHistory := l.tradeHistory + [SellRecord(pos, q, p, reason, cash, now)],
       lastUpdated := now)
  }

  /** A sell of at most the quantity held, at a price not below zero, keeps the ledger invariant. */
  lemma SoldValid(l: LedgerState, i: nat, q: real, p: real, reason: seq<Reason>, now: int)
    requires ValidLedger(l) && i < |l.positions|
    requires 0.0 <= q <= l.positions[i].quantity && p >= 0.0
    ensures var n := Sold(l, i, q, p, reason, now);
            ValidLedger(n) && n.cash >= l.cash && |n.tradeHistory| == |l.tradeHistory| + 1
  {
    var n := Sold(l, i, q, p, reason, now);
    assert q * p >= 0.0;
    if q >= l.positions[i].quantity {
      var ps := Remove(l.positions, i);
      assert n.positions == ps;
      forall a, b | 0 <= a < b < |ps| ensures ps[a].symbol != ps[b].symbol {
        var a' := if a < i then a else a + 1;
        var b' := if b < i then b else b + 1;
        assert ps[a] == l.positions[a'] && ps[b] == l.positions[b'];
      }
      forall k | 0 <= k < |ps| ensures SoundPosition(ps[k]) {
        assert ps[k] == l.positions[if k < i then k else k + 1];
      }
    } else {
      var ps := l.positions[i := l.positions[i].(quantity := l.positions[i].quantity - q)];
      assert n.positions == ps;
      assert forall k :: 0 <= k < |ps| ==> ps[k].symbol == l.positions[k].symbol;
    }
  }

  /** A sell of a symbol that is not held is refused and changes nothing. */
  lemma SellUnheldRejected(l: LedgerState, symbol: string, quantity: Option<real>, price: Option<real>, reason: seq<Reason>, now: int)
    requires ValidLedger(l)
    requires quantity.Some? ==> quantity.value >= 0.0
    requires price.Some? ==> price.value >= 0.0
    requires !Holds(l.positions, symbol)
    ensures ApplySell(l, symbol, quantity, price, reason, now) == Failure(NoPosition(symbol))
  {}

  /** A sell of more than is held is refused; any other sell of a held symbol goes through. */
  lemma SellRejectsOversize(l: LedgerState, symbol: string, quantity: Option<real>, price: Option<real>, reason: seq<Reason>, now: int, i: nat)
    requires ValidLedger(l)
    requires quantity.Some? ==> quantity.value >= 0.0
    requires price.Some? ==> price.value >= 0.0
    requires i < |l.positions| && l.positions[i].symbol == symbol
    ensures var pos := l.positions[i];
            var r := ApplySell(l, symbol, quantity, price, reason, now);
            && (r.Failure? <==> quantity.GetOr(pos.quantity) > pos.quantity)
            && (r.Failure? ==> r.error == InsufficientQuantity(symbol, pos.quantity))
  {
    FindUnique(l.positions, symbol, i);
  }

  /**
   * A sell of a held symbol for no more than is held goes through: quantity defaults to the
   * whole holding and price to the position's mark.
   */
  lemma SellSucceeds(l: LedgerState, symbol: string, quantity: Option<real>, price: Option<real>, reason: seq<Reason>, now: int, i: nat)
    requires ValidLedger(l)
    requires quantity.Some? ==> quantity.value >= 0.0
    requires price.Some? ==> price.value >= 0.0
    requires i < |l.positions| && l.positions[i].symbol == symbol
    requires quantity.GetOr(l.positions[i].quantity) <= l.positions[i].quantity
    ensures ApplySell(l, symbol, quantity, price, reason, now)
         == Success(Sold(l, i, quantity.GetOr(l.positions[i].quantity), price.GetOr(l.positions[i].currentPrice), reason, now))
  {
    FindUnique(l.positions, symbol, i);
  }

  /**
   * What a sale does to the ledger: cash rises by the proceeds, one SELL record carrying
   * the cash after the sale is appended, and the starting cash and creation time stay.
   */
  lemma SoldAccounting(l: LedgerState, i: nat, q: real, p: real, reason: seq<Reason>, now: int)
    requires i < |l.positions| && l.positions[i].entryPrice != 0.0
    ensures var n := Sold(l, i, q, p, reason, now);
            && n.cash == l.cash + q * p
            && n.tradeHistory == l.tradeHistory + [SellRecord(l.positions[i], q, p, reason, n.cash, now)]
            && n.startingCash == l.startingCash && n.createdAt == l.createdAt && n.lastUpdated == now
  {}

  /** The SELL record states the sale and the profit realized against the entry price. */
  lemma SellRecordContents(pos: Position, q: real, p: real, reason: seq<Reason>, cashAfter: real, now: int)
    requires pos.entryPrice > 0.0
    ensures var t := SellRecord(pos, q, p, reason, cashAfter, now);
            && t.action == SellTrade && t.symbol == pos.symbol && t.quantity == q && t.price == p
            && t.total == q * p && t.cashAfter == cashAfter
            && t.pnl == Some((p - pos.entryPrice) * q)
            && t.pnlPct == Some((p - pos.entryPrice) / pos.entryPrice * 100.0)
  {}

  /** Selling the whole holding removes the position; selling part only shrinks its quantity. */
  lemma SoldCloses(l: LedgerState, i: nat, q: real, p: real, reason: seq<Reason>, now: int)
    requires ValidLedger(l) && i < |l.positions| && 0.0 <= q <= l.positions[i].quantity
    ensures var pos := l.positions[i];
            var n := Sold(l, i, q, p, reason, now);
            && (q == pos.quantity ==> n.positions == Remove(l.positions, i) && !Holds(n.positions, pos.symbol))
            && (q < pos.quantity ==> n.positions == l.positions[i := pos.(quantity := pos.quantity - q)])
  {
    var pos := l.positions[i];
    if q == pos.quantity {
      var rest := Remove(l.positions, i);
      forall k | 0 <= k < |rest| ensures rest[k].symbol != pos.symbol {
        if k < i { assert rest[k] == l.positions[k]; } else { assert rest[k] == l.positions[k + 1]; }
      }
    }
  }

  /** Selling at the position's own mark converts market value into cash: total value is unchanged. */
  lemma SoldAtMarkKeepsTotal(l: LedgerState, i: nat, q: real, reason: seq<Reason>, now: int)
    requires ValidLedger(l) && i < |l.positions| && 0.0 <= q <= l.positions[i].quantity
    ensures TotalValue(Sold(l, i, q, l.positions[i].currentPrice, reason, now)) == TotalValue(l)
  {
    var pos := l.positions[i];
    if q >= pos.quantity {
      SumRemove(l.positions, i, MarketValue);
    } else {
      SumUpdate(l.positions, i, pos.(quantity := pos.quantity - q), MarketValue);
      assert MarketValue(pos.(quantity := pos.quantity - q)) == MarketValue(pos) - q * pos.currentPrice;
    }
  }

  // ---------------------------------------------------------------- marking prices

  /** The mark one position receives from a price map: only a present, non-null price changes it. */
  function MarkOne(p: Position, prices: map<string, Option<real>>): Position {
    if p.symbol in prices && prices[p.symbol].Some? then
      var c := prices[p.symbol].value;
      p.(currentPrice := c, highSinceEntry := if c > p.highSinceEntry then c else p.highSinceEntry)
    else p
  }

  function MarkPrices(ps: seq<Position>, prices: map<string, Option<real>>): (r: seq<Position>)
    ensures |r| == |ps|
    ensures forall i :: 0 <= i < |ps| ==> r[i] == MarkOne(ps[i], prices)
  {
    seq(|ps|, i requires 0 <= i < |ps| => MarkOne(ps[i], prices))
  }

  /** No price the data feed returns is negative; a missing quote is `None`. */
  predicate ValidQuotes(prices: map<string, Option<real>>) {
    forall s :: s in prices && prices[s].Some? ==> prices[s].value >= 0.0
  }

  /**
   * `update_prices`: only positions with a non-null price in the map change; their mark
   * becomes that price and their high-water mark never drops and ends at least at that
   * price; quantities, entry prices, dates and symbols are untouched.
   */
  lemma {:induction false} MarkPricesEffect(ps: seq<Position>, prices: map<string, Option<real>>)
    ensures var r := MarkPrices(ps, prices);
            forall i :: 0 <= i < |ps| ==>
              && r[i].symbol == ps[i].symbol && r[i].quantity == ps[i].quantity
              && r[i].entryPrice == ps[i].entryPrice && r[i].entryDate == ps[i].entryDate
              && r[i].assetType == ps[i].assetType
              && r[i].highSinceEntry >= ps[i].highSinceEntry
              && (ps[i].symbol in prices && prices[ps[i].symbol].Some? ==>
                    r[i].currentPrice == prices[ps[i].symbol].value && r[i].highSinceEntry >= r[i].currentPrice)
              && (!(ps[i].symbol in prices && prices[ps[i].symbol].Some?) ==> r[i] == ps[i])
  {}

  /** Marking with an empty map, or with prices only for symbols not held, changes nothing. */
  lemma {:induction false} MarkPricesUnheld(ps: seq<Position>, prices: map<string, Option<real>>)
    requires forall s :: s in prices ==> !Holds(ps, s)
    ensures MarkPrices(ps, prices) == ps
  {
    var r := MarkPrices(ps, prices);
    forall i | 0 <= i < |ps| ensures r[i] == ps[i] {
      assert ps[i].symbol !in prices by {
        if ps[i].symbol in prices { assert Holds(ps, ps[i].symbol); }
      }
    }
  }

  /** `update_prices` on the whole state: positions marked, `last_updated` set, nothing else touched. */
  function UpdatePrices(l: LedgerState, prices: map<string, Option<real>>, now: int): (r: LedgerState)
    requires ValidLedger(l) && ValidQuotes(prices)
    ensures ValidLedger(r)
    ensures r.cash == l.cash && r.tradeHistory == l.tradeHistory && r.startingCash == l.startingCash
    ensures |r.positions| == |l.positions|
  {
    var r := l.(positions := MarkPrices(l.positions, prices), lastUpdated := now);
    assert forall i :: 0 <= i < |r.positions| ==> r.positions[i].symbol == l.positions[i].symbol;
    r
  }

  // ---------------------------------------------------------------- realized results

  /** What one trade contributes to realized profit: a SELL its `pnl`, missing read as zero. */
  function Realized(t: Trade): real { if t.action == SellTrade then t.pnl.GetOr(0.0) else 0.0 }

  /** Realized profit over a trade history: the sum of the SELL records' `pnl`. */
  function RealizedPnl(h: seq<Trade>): real {
    if |h| == 0 then 0.0 else RealizedPnl(h[..|h| - 1]) + Realized(h[|h| - 1])
  }

  function IsWin(t: Trade): bool { t.action == SellTrade && t.pnl.GetOr(0.0) > 0.0 }
  function IsLoss(t: Trade): bool { t.action == SellTrade && t.pnl.GetOr(0.0) <= 0.0 }

  function Wins(h: seq<Trade>): nat {
    if |h| == 0 then 0 else Wins(h[..|h| - 1]) + (if IsWin(h[|h| - 1]) then 1 else 0)
  }

  function Losses(h: seq<Trade>): nat {
    if |h| == 0 then 0 else Losses(h[..|h| - 1]) + (if IsLoss(h[|h| - 1]) then 1 else 0)
  }

  function Sells(h: seq<Trade>): nat {
    if |h| == 0 then 0 else Sells(h[..|h| - 1]) + (if h[|h| - 1].action == SellTrade then 1 else 0)
  }

  /** Every SELL is either a win or a loss, so wins and losses together are the closed trades. */
  lemma {:induction false} WinsPlusLosses(h: seq<Trade>)
    ensures Wins(h) + Losses(h) == Sells(h)
  {
    if |h| > 0 {
      WinsPlusLosses(h[..|h| - 1]);
    }
  }

  /** Appending a trade adds its own contribution to every tally and nothing else. */
  lemma AppendTally(h: seq<Trade>, t: Trade)
    ensures RealizedPnl(h + [t]) == RealizedPnl(h) + Realized(t)
    ensures Wins(h + [t]) == Wins(h) + (if IsWin(t) then 1 else 0)
    ensures Losses(h + [t]) == Losses(h) + (if IsLoss(t) then 1 else 0)
    ensures Sells(h + [t]) == Sells(h) + (if t.action == SellTrade then 1 else 0)
  {
    assert (h + [t])[..|h|] == h;
  }

  /** The win rate in percent: zero before the first SELL, otherwise wins over closed trades. */
  function WinRate(h: seq<Trade>): (r: real)
    ensures Sells(h) == 0 ==> r == 0.0
    ensures Sells(h) > 0 ==> r * (Sells(h) as real) == (Wins(h) as real) * 100.0
    ensures 0.0 <= r <= 100.0
  {
    WinsPlusLosses(h);
    var closed := Wins(h) + Losses(h);
    if closed > 0 then
      Percent(Wins(h) as real, closed as real);
      (Wins(h) as real) / (closed as real) * 100.0
    else 0.0
  }

  /** A part of a positive whole, as a percentage: between 0 and 100, and exact. */
  lemma Percent(part: real, whole: real)
    requires 0.0 <= part <= whole && whole > 0.0
    ensures var r := part / whole * 100.0; r * whole == part * 100.0 && 0.0 <= r <= 100.0
  {
    var f := part / whole;
    assert f * whole == part;
    assert f <= 1.0;
    assert f * 100.0 * whole == f * whole * 100.0;
  }

  /** A sale realizes `(price - entry) * quantity` and counts as one more win or loss. */
  lemma SoldTallies(l: LedgerState, i: nat, q: real, p: real, reason: seq<Reason>, now: int)
    requires i < |l.positions| && l.positions[i].entryPrice != 0.0
    ensures var h := Sold(l, i, q, p, reason, now).tradeHistory;
            var pnl := (p - l.positions[i].entryPrice) * q;
            && RealizedPnl(h) == RealizedPnl(l.tradeHistory) + pnl
            && Sells(h) == Sells(l.tradeHistory) + 1
            && Wins(h) == Wins(l.tradeHistory) + (if pnl > 0.0 then 1 else 0)
            && Losses(h) == Losses(l.tradeHistory) + (if pnl > 0.0 then 0 else 1)
  {
    var n := Sold(l, i, q, p, reason, now);
    AppendTally(l.tradeHistory, SellRecord(l.positions[i], q, p, reason, n.cash, now));
  }

  /** A purchase realizes nothing and leaves the win rate where it was. */
  lemma BuyKeepsTallies(l: LedgerState, symbol: string, quantity: real, price: real, assetType: AssetType, reason: seq<Reason>, now: int)
    requires quantity > 0.0 && price > 0.0 && ValidLedger(l)
    requires ApplyBuy(l, symbol, quantity, price, assetType, reason, now).Success?
    ensures var h := ApplyBuy(l, symbol, quantity, price, assetType, reason, now).value.tradeHistory;
            && RealizedPnl(h) == RealizedPnl(l.tradeHistory)
            && Sells(h) == Sells(l.tradeHistory) && Wins(h) == Wins(l.tradeHistory)
            && WinRate(h) == WinRate(l.tradeHistory)
  {
    var n := ApplyBuy(l, symbol, quantity, price, assetType, reason, now).value;
    var t := BuyRecord(symbol, quantity, price, assetType, reason, n.cash, now);
    assert n.tradeHistory == l.tradeHistory + [t];
    AppendTally(l.tradeHistory, t);
  }

  // ---------------------------------------------------------------- summary

  /** One row of the summary's position list. */
  datatype PositionView = PositionView(
    symbol: string,
    quantity: real,
    entryPrice: real,
    currentPrice: real,
    marketValue: real,
    costBasis: real,
    unrealizedPnl: real,
    unrealizedPnlPct: real,
    assetType: AssetType,
    entryDate: int)

  function View(p: Position): PositionView {
    PositionView(p.symbol, p.quantity, p.entryPrice, p.currentPrice, MarketValue(p), CostBasis(p),
                 UnrealizedPnl(p), UnrealizedPnlPct(p), p.assetType, p.entryDate)
  }

  function ViewSymbol(v: PositionView): string { v.symbol }

  function Views(ps: seq<Position>): (r: seq<PositionView>)
    ensures |r| == |ps| && forall k :: 0 <= k < |ps| ==> r[k] == View(ps[k])
  {
    seq(|ps|, k requires 0 <= k < |ps| => View(ps[k]))
  }

  /** What `get_summary` reports. */
  datatype Summary = Summary(
    totalValue: real,
    cash: real,
    positionsValue: real,
    totalPnl: real,
    totalReturnPct: real,
    realizedPnl: real,
    unrealizedPnl: real,
    numPositions: nat,
    numTrades: nat,
    winRate: real,
    positions: seq<PositionView>,
    startingCash: real,
    createdAt: int,
    lastUpdated: int)

  /**
   * `get_summary`: the ledger's figures, the totals add up, the position list holds one
   * row per position in symbol order, and the win rate is a percentage.
   */
  function GetSummary(l: LedgerState): (s: Summary)
    ensures s.positionsValue == PositionsValue(l.positions) && s.realizedPnl == RealizedPnl(l.tradeHistory)
    ensures s.totalReturnPct == TotalReturnPct(l) && s.winRate == WinRate(l.tradeHistory)
    ensures s.createdAt == l.createdAt && s.lastUpdated == l.lastUpdated
    ensures s.totalValue == s.cash + s.positionsValue && s.cash == l.cash
    ensures s.totalPnl == s.totalValue - s.startingCash && s.startingCash == l.startingCash
    ensures s.unrealizedPnl == s.positionsValue - PositionsCost(l.positions)
    ensures s.numPositions == |s.positions| == |l.positions| && s.numTrades == |l.tradeHistory|
    ensures TextOrder.SortedBy(s.positions, ViewSymbol)
    ensures multiset(s.positions) == multiset(Views(l.positions))
    ensures 0.0 <= s.winRate <= 100.0
  {
    TextOrder.SortByCorrect(Views(l.positions), ViewSymbol);
    UnrealizedIsValueLessCost(l.positions);
    Summary(TotalValue(l), l.cash, PositionsValue(l.positions), TotalPnl(l), TotalReturnPct(l),
            RealizedPnl(l.tradeHistory), UnrealizedTotal(l.positions), |l.positions|, |l.tradeHistory|,
            WinRate(l.tradeHistory), TextOrder.SortBy(Views(l.positions), ViewSymbol),
            l.startingCash, l.createdAt, l.lastUpdated)
  }

  // ---------------------------------------------------------------- the accounting identity

  /**
   * Cash plus the cost of what is held equals the starting cash plus the profit realized
   * so far.  A fresh ledger satisfies it and buy, sell and price marking keep it.
   */
  predicate Balanced(l: LedgerState) {
    l.cash + PositionsCost(l.positions) == l.startingCash + RealizedPnl(l.tradeHistory)
  }

  /** On a balanced ledger, the total profit is the realized profit plus the unrealized one. */
  lemma BalancedPnl(l: LedgerState)
    requires Balanced(l)
    ensures TotalPnl(l) == GetSummary(l).realizedPnl + GetSummary(l).unrealizedPnl
  {
    UnrealizedIsValueLessCost(l.positions);
  }

  lemma ReaverageCost(p: Position, quantity: real, price: real)
    requires p.quantity > 0.0 && quantity > 0.0
    ensures CostBasis(Reaverage(p, quantity, price)) == CostBasis(p) + quantity * price
  {
    var t := p.quantity + quantity;
    var n := p.quantity * p.entryPrice + quantity * price;
    assert t * (n / t) == n;
  }

  lemma BuyKeepsBalanced(l: LedgerState, symbol: string, quantity: real, price: real, assetType: AssetType, reason: seq<Reason>, now: int)
    requires quantity > 0.0 && price > 0.0 && ValidLedger(l) && Balanced(l)
    requires ApplyBuy(l, symbol, quantity, price, assetType, reason, now).Success?
    ensures Balanced(ApplyBuy(l, symbol, quantity, price, assetType, reason, now).value)
  {
    var n := ApplyBuy(l, symbol, quantity, price, assetType, reason, now).value;
    var t := BuyRecord(symbol, quantity, price, assetType, reason, n.cash, now);
    assert n.tradeHistory == l.tradeHistory + [t];
    AppendTally(l.tradeHistory, t);
    match Find(l.positions, symbol)
    case Some(i) =>
      ReaverageCost(l.positions[i], quantity, price);
      SumUpdate(l.positions, i, Reaverage(l.positions[i], quantity, price), CostBasis);
    case None =>
      SumAppend(l.positions, OpenPosition(symbol, quantity, price, now, assetType), CostBasis);
  }

  lemma SoldKeepsBalanced(l: LedgerState, i: nat, q: real, p: real, reason: seq<Reason>, now: int)
    requires ValidLedger(l) && Balanced(l) && i < |l.positions| && 0.0 <= q <= l.positions[i].quantity
    ensures Balanced(Sold(l, i, q, p, reason, now))
  {
    var pos := l.positions[i];
    var n := Sold(l, i, q, p, reason, now);
    var t := SellRecord(pos, q, p, reason, n.cash, now);
    assert n.tradeHistory == l.tradeHistory + [t];
    AppendTally(l.tradeHistory, t);
    assert Realized(t) == (p - pos.entryPrice) * q;
    SoldCost(l.positions, i, q);
    assert n.cash == l.cash + q * p;
    assert (p - pos.entryPrice) * q == q * p - q * pos.entryPrice;
  }

  /** A sell of `q` from position `i` takes `q` at the entry price off the cost basis. */
  lemma SoldCost(ps: seq<Position>, i: nat, q: real)
    requires i < |ps| && 0.0 <= q <= ps[i].quantity
    ensures var pos := ps[i];
            PositionsCost(if q >= pos.quantity then Remove(ps, i) else ps[i := pos.(quantity := pos.quantity - q)])
            == PositionsCost(ps) - q * pos.entryPrice
  {
    var pos := ps[i];
    if q >= pos.quantity {
      SumRemove(ps, i, CostBasis);
      assert q == pos.quantity;
    } else {
      SumUpdate(ps, i, pos.(quantity := pos.quantity - q), CostBasis);
      assert CostBasis(pos.(quantity := pos.quantity - q)) == (pos.quantity - q) * pos.entryPrice;
      assert (pos.quantity - q) * pos.entryPrice == CostBasis(pos) - q * pos.entryPrice;
    }
  }

  lemma UpdateKeepsBalanced(l: LedgerState, prices: map<string, Option<real>>, now: int)
    requires ValidLedger(l) && ValidQuotes(prices) && Balanced(l)
    ensures Balanced(UpdatePrices(l, prices, now))
  {
    SumPointwise(UpdatePrices(l, prices, now).positions, l.positions, CostBasis);
  }

  // ---------------------------------------------------------------- persistence

  /**
   * The JSON object `save` writes.  `load` falls back to defaults for the optional keys;
   * a missing `cash` key, or a position lacking one of its required keys, makes it start
   * afresh.
   */
  datatype StoredState = StoredState(
    startingCash: Option<real>,
    cash: Option<real>,
    createdAt: Option<int>,
    lastUpdated: Option<int>,
    positions: Option<seq<PositionRecord>>,
    tradeHistory: Option<seq<Trade>>)

  /** The portfolio file: absent, present but not readable as a state, or a stored state. */
  datatype StoredFile = Missing | Unreadable | Stored(state: StoredState)

  /** `Portfolio.__init__`: all cash, nothing held, nothing traded. */
  function FreshLedger(startingCash: real, now: int): (l: LedgerState)
    ensures l.startingCash == l.cash == startingCash && l.positions == [] && l.tradeHistory == []
    ensures l.createdAt == l.lastUpdated == now
    ensures startingCash >= 0.0 ==> ValidLedger(l) && Balanced(l)
  {
    LedgerState(startingCash, startingCash, [], [], now, now)
  }

  function ToRecords(ps: seq<Position>): (r: seq<PositionRecord>)
    ensures |r| == |ps| && forall k :: 0 <= k < |ps| ==> r[k] == ToRecord(ps[k])
  {
    seq(|ps|, k requires 0 <= k < |ps| => ToRecord(ps[k]))
  }

  /** Reading every stored position; one incomplete record spoils the lot. */
  function FromRecords(ds: seq<PositionRecord>): (r: Option<seq<Position>>)
    ensures r.Some? <==> forall k :: 0 <= k < |ds| ==> HasRequiredKeys(ds[k])
    ensures r.Some? ==> |r.value| == |ds| && forall k :: 0 <= k < |ds| ==> FromRecord(ds[k]) == Some(r.value[k])
  {
    if forall k :: 0 <= k < |ds| ==> HasRequiredKeys(ds[k]) then
      Some(seq(|ds|, k requires 0 <= k < |ds| && HasRequiredKeys(ds[k]) => FromRecord(ds[k]).value))
    else None
  }

  /** A stored state `load` can read: it has `cash`, and every position has its required keys. */
  predicate Readable(s: StoredState) {
    && s.cash.Some?
    && (s.positions.Some? ==> forall k :: 0 <= k < |s.positions.value| ==> HasRequiredKeys(s.positions.value[k]))
  }

  /** `save`: every key is written. */
  function Snapshot(l: LedgerState): StoredState {
    StoredState(Some(l.startingCash), Some(l.cash), Some(l.createdAt), Some(l.lastUpdated),
                Some(ToRecords(l.positions)), Some(l.tradeHistory))
  }

  /**
   * Reading a stored state back; `None` (the `KeyError`) when `cash` or a position's
   * required key is missing.
   */
  function Decode(s: StoredState, startingCash: real, now: int): (r: Option<LedgerState>)
    ensures r.Some? <==> Readable(s)
    ensures r.Some? ==> r.value.cash == s.cash.value && r.value.startingCash == s.startingCash.GetOr(startingCash)
    ensures r.Some? ==> r.value.createdAt == s.createdAt.GetOr(now) && r.value.lastUpdated == s.lastUpdated.GetOr(now)
    ensures r.Some? ==> r.value.tradeHistory == s.tradeHistory.GetOr([])
    ensures r.Some? && s.positions.None? ==> r.value.positions == []
    ensures r.Some? && s.positions.Some? ==>
              |r.value.positions| == |s.positions.value|
              && forall k :: 0 <= k < |s.positions.value| ==> FromRecord(s.positions.value[k]) == Some(r.value.positions[k])
  {
    if s.cash.None? then None
    else
      match FromRecords(s.positions.GetOr([]))
      case None => None
      case Some(ps) =>
        Some(LedgerState(s.startingCash.GetOr(startingCash), s.cash.value, ps, s.tradeHistory.GetOr([]),
                         s.createdAt.GetOr(now), s.lastUpdated.GetOr(now)))
  }

  /**
   * `Portfolio.load`: a missing or unreadable file, or one `load` cannot read, gives a
   * fresh ledger that must then be saved (`true`); a readable one is restored as stored.
   */
  function LoadLedger(file: StoredFile, startingCash: real, now: int): (r: (LedgerState, bool))
    ensures r.1 <==> !(file.Stored? && Readable(file.state))
    ensures r.1 ==> r.0 == FreshLedger(startingCash, now)
    ensures !r.1 ==> Some(r.0) == Decode(file.state, startingCash, now)
  {
    match file
    case Stored(s) =>
      (match Decode(s, startingCash, now)
       case Some(l) => (l, false)
       case None => (FreshLedger(startingCash, now), true))
    case _ => (FreshLedger(startingCash, now), true)
  }

  /** What `save` writes, `load` restores exactly, whatever defaults it is given. */
  lemma SaveLoadRoundTrip(l: LedgerState, startingCash: real, now: int)
    ensures LoadLedger(Stored(Snapshot(l)), startingCash, now) == (l, false)
  {
    var ds := ToRecords(l.positions);
    var ps := FromRecords(ds);
    assert ps.Some?;
    assert ps.value == l.positions;
  }

  // ---------------------------------------------------------------- sums

  lemma {:induction false} SumAppend(ps: seq<Position>, p: Position, f: Position -> real)
    ensures SumOver(ps + [p], f) == SumOver(ps, f) + f(p)
  {
    if |ps| > 0 {
      assert (ps + [p])[1..] == ps[1..] + [p];
      SumAppend(ps[1..], p, f);
    }
  }

  lemma {:induction false} SumUpdate(ps: seq<Position>, i: nat, p: Position, f: Position -> real)
    requires i < |ps|
    ensures SumOver(ps[i := p], f) == SumOver(ps, f) - f(ps[i]) + f(p)
  {
    if i > 0 {
      assert ps[i := p][1..] == ps[1..][i - 1 := p];
      SumUpdate(ps[1..], i - 1, p, f);
    } else {
      assert ps[i := p][1..] == ps[1..];
    }
  }

  lemma {:induction false} SumRemove(ps: seq<Position>, i: nat, f: Position -> real)
    requires i < |ps|
    ensures SumOver(Remove(ps, i), f) == SumOver(ps, f) - f(ps[i])
  {
    if i > 0 {
      assert Remove(ps, i)[1..] == Remove(ps[1..], i - 1);
      SumRemove(ps[1..], i - 1, f);
    } else {
      assert Remove(ps, 0) == ps[1..];
    }
  }

  /** Sums over two position lists that agree on `f` item by item are equal. */
  lemma {:induction false} SumPointwise(a: seq<Position>, b: seq<Position>, f: Position -> real)
    requires |a| == |b| && forall k :: 0 <= k < |a| ==> f(a[k]) == f(b[k])
    ensures SumOver(a, f) == SumOver(b, f)
  {
    if |a| > 0 {
      SumPointwise(a[1..], b[1..], f);
    }
  }

  /** Unrealized profit summed over the positions is their market value less their cost. */
  lemma {:induction false} UnrealizedIsValueLessCost(ps: seq<Position>)
    ensures UnrealizedTotal(ps) == PositionsValue(ps) - PositionsCost(ps)
  {
    if |ps| > 0 {
      UnrealizedIsValueLessCost(ps[1..]);
    }
  }
}
