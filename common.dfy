/**
 * Vocabulary shared by the ledger, the signal engine and the schedulers:
 * optional values, asset classes and the reasons a signal or a trade carries.
 */
module Common {

  datatype Option<+T> = None | Some(value: T) {
    function GetOr(default: T): T {
      match this
      case Some(v) => v
      case None => default
    }
  }

  datatype Result<+R, +E> = Success(value: R) | Failure(error: E)

  /** The three asset classes a watchlist entry, a position and a trade are tagged with. */
  datatype AssetType = Stock | Etf | Crypto

  /**
   * Why a signal fired or a trade was made.  The source renders each of these as a
   * formatted string; the model keeps the value that string is formatted from.
   */
  datatype Reason =
    | RsiOversold(rsi: real)
    | RsiApproachingOversold(rsi: real)
    | RsiOverbought(rsi: real)
    | RsiApproachingOverbought(rsi: real)
    | MacdBullishCrossover
    | MacdMomentumIncreasing
    | MacdBearishCrossover
    | MacdMomentumDecreasing
    | AtLowerBand(pct: real)
    | NearLowerBand(pct: real)
    | AtUpperBand(pct: real)
    | NearUpperBand(pct: real)
    | VolumeSpikeUp(ratio: real)
    | VolumeSpikeDown(ratio: real)
    | AboveRisingAverages
    | BelowFallingAverages
    | EmaCrossedAbove
    | EmaCrossedBelow
    | StrongMomentum(roc5: real)
    | NegativeMomentum(roc5: real)
    | Bullish(buyReasons: seq<Reason>)
    | Bearish(sellReasons: seq<Reason>)
    | NoSignificantSignals
    | InsufficientData
    | StopLoss(pnlPct: real)
    | TakeProfit(pnlPct: real)
    | TrailingStop(drawdownPct: real)

  function Min(a: int, b: int): int { if a <= b then a else b }
  function Max(a: int, b: int): int { if a <= b then b else a }
  function MinReal(a: real, b: real): real { if a <= b then a else b }
  function MaxReal(a: real, b: real): real { if a <= b then b else a }
  function Abs(x: real): real { if x < 0.0 then -x else x }

  /** Concatenation regroups freely; stated once so that a proof can name the terms it regroups. */
  lemma ConcatAssoc<T>(x: seq<T>, y: seq<T>, z: seq<T>)
    ensures x + y + z == x + (y + z)
  {
  }
}
