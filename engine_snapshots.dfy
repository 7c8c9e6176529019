/**
 * The equity curve of engine.py `_save_value_snapshot`: after every save a snapshot of the
 * portfolio's value is appended, unless the last one is less than an hour old and the
 * value has moved by less than one dollar since.
 */
module EquityHistory {
  import opened Common

  /** Seconds that must pass before an unchanged value is recorded again. */
  const MinInterval: int := 3600

  /** The value change that is recorded however recent the last snapshot is. */
  const MinChange: real := 1.0

  datatype EquitySnapshot = EquitySnapshot(
    timestamp: int,
    totalValue: real,
    cash: real,
    positionsValue: real,
    numPositions: nat)

  /** Whether a snapshot taken at `now` with value `totalValue` is kept. */
  function ShouldRecord(history: seq<EquitySnapshot>, now: int, totalValue: real): (r: bool)
    ensures r <==> (|history| == 0
                    || now - history[|history| - 1].timestamp >= MinInterval
                    || Abs(totalValue - history[|history| - 1].totalValue) >= MinChange)
  {
    if |history| == 0 then true
    else
      var last := history[|history| - 1];
      !(now - last.timestamp < MinInterval && Abs(totalValue - last.totalValue) < MinChange)
  }

  /** The history after one save. */
  function Record(history: seq<EquitySnapshot>, s: EquitySnapshot): (r: seq<EquitySnapshot>)
    ensures ShouldRecord(history, s.timestamp, s.totalValue) ==> r == history + [s]
    ensures !ShouldRecord(history, s.timestamp, s.totalValue) ==> r == history
  {
    if ShouldRecord(history, s.timestamp, s.totalValue) then history + [s] else history
  }

  /** Consecutive snapshots are an hour apart or a dollar apart in value. */
  predicate Spaced(history: seq<EquitySnapshot>) {
    forall k :: 0 < k < |history| ==>
      history[k].timestamp - history[k - 1].timestamp >= MinInterval
      || Abs(history[k].totalValue - history[k - 1].totalValue) >= MinChange
  }

  /** Recording keeps the history spaced and only ever extends it. */
  lemma RecordKeepsSpaced(history: seq<EquitySnapshot>, s: EquitySnapshot)
    requires Spaced(history)
    ensures Spaced(Record(history, s))
    ensures history <= Record(history, s) && |Record(history, s)| <= |history| + 1
  {
    var r := Record(history, s);
    if r != history {
      forall k | 0 < k < |r|
        ensures r[k].timestamp - r[k - 1].timestamp >= MinInterval
             || Abs(r[k].totalValue - r[k - 1].totalValue) >= MinChange
      {
        if k < |history| {
          assert r[k] == history[k] && r[k - 1] == history[k - 1];
        }
      }
    }
  }

  /** A history built by recording one snapshot after another, from an empty one. */
  function RecordAll(history: seq<EquitySnapshot>, snaps: seq<EquitySnapshot>): seq<EquitySnapshot>
    decreases |snaps|
  {
    if |snaps| == 0 then history else RecordAll(Record(history, snaps[0]), snaps[1..])
  }

  lemma {:induction false} RecordAllSpaced(history: seq<EquitySnapshot>, snaps: seq<EquitySnapshot>)
    requires Spaced(history)
    ensures Spaced(RecordAll(history, snaps))
    ensures history <= RecordAll(history, snaps)
    decreases |snaps|
  {
    if |snaps| > 0 {
      RecordKeepsSpaced(history, snaps[0]);
      RecordAllSpaced(Record(history, snaps[0]), snaps[1..]);
    }
  }

  /** Saving the same snapshot twice records it at most once: recording is idempotent. */
  lemma RecordIdempotent(history: seq<EquitySnapshot>, s: EquitySnapshot)
    ensures Record(Record(history, s), s) == Record(history, s)
  {
  }
}
