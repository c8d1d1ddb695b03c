/**
 * One round-trip position: its record of values, the two steps of its
 * lifecycle (open at a bar, close once at a later or the same bar), and the
 * mutable `Trade` object the backtester keeps.
 */
module Trades {
  import opened Wrappers

  /** One OHLCV candle; `time` is its timestamp. */
  datatype Bar = Bar(time: int, open: real, high: real, low: real, close: real, volume: real)

  /** The source's status strings "OPEN", "WIN" and "LOSS". */
  datatype Status = Open | Win | Loss

  /** The default number of units per trade. */
  const DEFAULT_POSITION_SIZE: real := 1.0

  /** The values a trade holds at one moment. */
  datatype TradeRecord = TradeRecord(
    entryTime: int,
    entryPrice: real,
    exitTime: Option<int>,
    exitPrice: Option<real>,
    pnl: real,
    status: Status,
    strategyName: string)

  /** The trade has been opened and not yet closed. */
  predicate IsOpen(t: TradeRecord) {
    t.exitTime.None? && t.exitPrice.None? && t.pnl == 0.0 && t.status == Open
  }

  /** The trade has been closed with unit size `size`: both exit fields are set,
      the pnl is (exit - entry) * size, and the status is WIN exactly when the
      pnl is strictly positive and LOSS otherwise. */
  predicate IsSettled(t: TradeRecord, size: real) {
    && t.exitTime.Some?
    && t.exitPrice.Some?
    && t.pnl == (t.exitPrice.value - t.entryPrice) * size
    && t.status != Open
    && (t.status == Win <==> t.pnl > 0.0)
  }

  predicate AllSettled(ts: seq<TradeRecord>, size: real) {
    forall k :: 0 <= k < |ts| ==> IsSettled(ts[k], size)
  }

  /** A new trade at the given entry. */
  function Opened(entryTime: int, entryPrice: real, strategyName: string): TradeRecord {
    TradeRecord(entryTime, entryPrice, None, None, 0.0, Open, strategyName)
  }

  /** Closing a trade: the exit fields take the arguments, the pnl and the status
      follow from them, and the entry fields and strategy name are kept. */
  function Closed(t: TradeRecord, exitTime: int, exitPrice: real, size: real): (r: TradeRecord)
    ensures IsSettled(r, size)
    ensures r.exitTime == Some(exitTime) && r.exitPrice == Some(exitPrice)
    ensures r.entryTime == t.entryTime && r.entryPrice == t.entryPrice
    ensures r.strategyName == t.strategyName
    ensures r.status == Loss <==> exitPrice * size <= t.entryPrice * size
  {
    var pnl := (exitPrice - t.entryPrice) * size;
    t.(exitTime := Some(exitTime), exitPrice := Some(exitPrice), pnl := pnl,
       status := if pnl > 0.0 then Win else Loss)
  }

  /** A trade that exits at its entry price makes no profit, and a zero pnl is a LOSS. */
  lemma FlatTradeIsLoss(t: TradeRecord, exitTime: int, size: real)
    ensures Closed(t, exitTime, t.entryPrice, size).pnl == 0.0
    ensures Closed(t, exitTime, t.entryPrice, size).status == Loss
  {
  }

  class Trade {
    const entryTime: int
    const entryPrice: real
    const strategyName: string
    var exitTime: Option<int>
    var exitPrice: Option<real>
    var pnl: real
    var status: Status

    /** The trade's current values. */
    function Value(): TradeRecord
      reads this
    {
      TradeRecord(entryTime, entryPrice, exitTime, exitPrice, pnl, status, strategyName)
    }

    /** `Trade.__init__`: the entry as given, no exit, pnl 0, status OPEN. */
    constructor (entryTime: int, entryPrice: real, strategyName: string)
      ensures this.entryTime == entryTime && this.entryPrice == entryPrice
      ensures this.strategyName == strategyName
      ensures IsOpen(Value())
      ensures Value() == Opened(entryTime, entryPrice, strategyName)
    {
      this.entryTime := entryTime;
      this.entryPrice := entryPrice;
      this.exitTime := None;
      this.exitPrice := None;
      this.pnl := 0.0;
      this.status := Open;
      this.strategyName := strategyName;
    }

    /** `Trade.close_trade`: sets the exit fields, the pnl and the status. */
    method CloseTrade(exitTime: int, exitPrice: real, positionSize: real := DEFAULT_POSITION_SIZE)
      modifies this
      ensures this.exitTime == Some(exitTime) && this.exitPrice == Some(exitPrice)
      ensures pnl == (exitPrice - entryPrice) * positionSize
      ensures status == (if pnl > 0.0 then Win else Loss)
      ensures Value() == Closed(old(Value()), exitTime, exitPrice, positionSize)
    {
      this.exitTime := Some(exitTime);
      this.exitPrice := Some(exitPrice);
      pnl := (exitPrice - entryPrice) * positionSize;
      status := if pnl > 0.0 then Win else Loss;
    }
  }
}
