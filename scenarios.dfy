/** Worked examples of a whole run and its metrics. */
module Scenarios {
  import opened Wrappers
  import opened Trades
  import opened Strategies
  import opened Simulation
  import opened Performance
  import Backtesting

  /** A candle whose open, high, low and close are all `close`. */
  function Candle(time: int, close: real): Bar {
    Bar(time, close, close, close, close, 1.0)
  }

  /** Closes 10, 12, 9, 15, 11 with BUY, HOLD, SELL, BUY, HOLD: the first trade is
      sold at 9, the second is still open after the last bar and is closed there
      at 11. Two losing trades, win rate 0, total pnl -5, average -2.5. */
  lemma ScenarioSellThenForcedClose()
    ensures var data := [Candle(0, 10.0), Candle(1, 12.0), Candle(2, 9.0), Candle(3, 15.0), Candle(4, 11.0)];
            var trades := Simulate([], data, [BUY, HOLD, SELL, BUY, HOLD], DEFAULT_POSITION_SIZE, "MACDStrategy");
            && trades == [TradeRecord(0, 10.0, Some(2), Some(9.0), -1.0, Loss, "MACDStrategy"),
                          TradeRecord(3, 15.0, Some(4), Some(11.0), -4.0, Loss, "MACDStrategy")]
            && PerformanceMetrics(trades) == Metrics(2, 0.0, -5.0, -2.5)
  {
    var data := [Candle(0, 10.0), Candle(1, 12.0), Candle(2, 9.0), Candle(3, 15.0), Candle(4, 11.0)];
    var trades := Simulate([], data, [BUY, HOLD, SELL, BUY, HOLD], DEFAULT_POSITION_SIZE, "MACDStrategy");
    var first := TradeRecord(0, 10.0, Some(2), Some(9.0), -1.0, Loss, "MACDStrategy");
    var second := TradeRecord(3, 15.0, Some(4), Some(11.0), -4.0, Loss, "MACDStrategy");
    assert trades == [first, second];
    assert trades[1..] == [second] && trades[1..][1..] == [];
    assert Winners([second]) == 0 && TotalPnl([second]) == -4.0;
    assert Winners(trades) == 0 && TotalPnl(trades) == -5.0;
  }

  /** All-HOLD signals over five bars: no trades and all-zero metrics. */
  lemma ScenarioAllHold()
    ensures var data := [Candle(0, 10.0), Candle(1, 12.0), Candle(2, 9.0), Candle(3, 15.0), Candle(4, 11.0)];
            var trades := Simulate([], data, [HOLD, HOLD, HOLD, HOLD, HOLD], DEFAULT_POSITION_SIZE, "MACDStrategy");
            trades == [] && PerformanceMetrics(trades) == Metrics(0, 0.0, 0.0, 0.0)
  {
  }

  /** A BUY on the last bar only: the trade is closed at once at that bar, at its
      entry price, with pnl 0, and so counts as a LOSS. */
  lemma ScenarioBuyOnLastBar()
    ensures var data := [Candle(0, 10.0), Candle(1, 12.0), Candle(2, 9.0)];
            Simulate([], data, [HOLD, HOLD, BUY], DEFAULT_POSITION_SIZE, "RSIEMAStrategy")
            == [TradeRecord(2, 9.0, Some(2), Some(9.0), 0.0, Loss, "RSIEMAStrategy")]
  {
  }

  /** The first scenario run twice on one engine, as the code is written. The
      first run leaves its force-closed trade in the slot, so the second run
      ignores the BUY on bar 0 and the SELL on bar 2 closes that trade again: it
      now exits at bar 2, before its entry at bar 3, with pnl -6, and the list
      holds it twice. The BUY on bar 3 then opens a new trade, force-closed at
      the last bar and again left in the slot. */
  lemma ScenarioSecondRun()
    ensures var data := [Candle(0, 10.0), Candle(1, 12.0), Candle(2, 9.0), Candle(3, 15.0), Candle(4, 11.0)];
            var signals := [BUY, HOLD, SELL, BUY, HOLD];
            var first := TradeRecord(0, 10.0, Some(2), Some(9.0), -1.0, Loss, "MACDStrategy");
            var second := TradeRecord(3, 15.0, Some(4), Some(11.0), -4.0, Loss, "MACDStrategy");
            var reclosed := TradeRecord(3, 15.0, Some(2), Some(9.0), -6.0, Loss, "MACDStrategy");
            var d1 := RunAsWritten(Desk([], 0), data, signals, DEFAULT_POSITION_SIZE, "MACDStrategy");
            var d2 := RunAsWritten(d1, data, signals, DEFAULT_POSITION_SIZE, "MACDStrategy");
            && d1 == Desk([first, second], 1)
            && d2 == Desk([first, reclosed, reclosed, second], 1)
            && reclosed.exitTime.value < reclosed.entryTime
            && PerformanceMetrics(d2.trades) == Metrics(4, 0.0, -17.0, -4.25)
  {
    var data := [Candle(0, 10.0), Candle(1, 12.0), Candle(2, 9.0), Candle(3, 15.0), Candle(4, 11.0)];
    var signals := [BUY, HOLD, SELL, BUY, HOLD];
    var first := TradeRecord(0, 10.0, Some(2), Some(9.0), -1.0, Loss, "MACDStrategy");
    var second := TradeRecord(3, 15.0, Some(4), Some(11.0), -4.0, Loss, "MACDStrategy");
    var reclosed := TradeRecord(3, 15.0, Some(2), Some(9.0), -6.0, Loss, "MACDStrategy");
    ScenarioSellThenForcedClose();
    var d1 := RunAsWritten(Desk([], 0), data, signals, DEFAULT_POSITION_SIZE, "MACDStrategy");
    assert d1 == Desk([first, second], 1);
    assert NextIndex(signals, 0, SELL) == 2;
    var p := Reclose(d1.trades, 1, data[2], DEFAULT_POSITION_SIZE);
    assert p == [first, reclosed, reclosed];
    var w := Walk(Engine(None, p), data, signals, 3, DEFAULT_POSITION_SIZE, "MACDStrategy");
    assert w == Engine(Some(Opened(3, 15.0, "MACDStrategy")), p);
    ReclosedTwiceMetrics(first, reclosed, second);
  }

  lemma ReclosedTwiceMetrics(first: TradeRecord, reclosed: TradeRecord, second: TradeRecord)
    requires first.pnl == -1.0 && reclosed.pnl == -6.0 && second.pnl == -4.0
    ensures PerformanceMetrics([first, reclosed, reclosed, second]) == Metrics(4, 0.0, -17.0, -4.25)
  {
    var ts := [first, reclosed, reclosed, second];
    assert ts[1..] == [reclosed, reclosed, second] && ts[1..][1..] == [reclosed, second];
    assert ts[1..][1..][1..] == [second] && ts[1..][1..][1..][1..] == [];
    assert Winners([second]) == 0 && TotalPnl([second]) == -4.0;
    assert Winners([reclosed, second]) == 0 && TotalPnl([reclosed, second]) == -10.0;
    assert Winners(ts[1..]) == 0 && TotalPnl(ts[1..]) == -16.0;
    assert Winners(ts) == 0 && TotalPnl(ts) == -17.0;
  }

  /** The same two runs with the slot emptied after each forced close: the
      second run appends the first run's two trades again. */
  lemma ScenarioSecondRunCorrected()
    ensures var data := [Candle(0, 10.0), Candle(1, 12.0), Candle(2, 9.0), Candle(3, 15.0), Candle(4, 11.0)];
            var signals := [BUY, HOLD, SELL, BUY, HOLD];
            var first := TradeRecord(0, 10.0, Some(2), Some(9.0), -1.0, Loss, "MACDStrategy");
            var second := TradeRecord(3, 15.0, Some(4), Some(11.0), -4.0, Loss, "MACDStrategy");
            var once := Simulate([], data, signals, DEFAULT_POSITION_SIZE, "MACDStrategy");
            var twice := Simulate(once, data, signals, DEFAULT_POSITION_SIZE, "MACDStrategy");
            && twice == [first, second, first, second]
            && PerformanceMetrics(twice) == Metrics(4, 0.0, -10.0, -2.5)
  {
    var data := [Candle(0, 10.0), Candle(1, 12.0), Candle(2, 9.0), Candle(3, 15.0), Candle(4, 11.0)];
    var signals := [BUY, HOLD, SELL, BUY, HOLD];
    var first := TradeRecord(0, 10.0, Some(2), Some(9.0), -1.0, Loss, "MACDStrategy");
    var second := TradeRecord(3, 15.0, Some(4), Some(11.0), -4.0, Loss, "MACDStrategy");
    ScenarioSellThenForcedClose();
    var once := Simulate([], data, signals, DEFAULT_POSITION_SIZE, "MACDStrategy");
    SimulateIsRoundTrips([], data, signals, DEFAULT_POSITION_SIZE, "MACDStrategy");
    SimulateTwice([], data, signals, DEFAULT_POSITION_SIZE, "MACDStrategy");
    assert once == [first, second];
    assert [] + once + once == [first, second, first, second];
    TwiceOverMetrics(first, second);
  }

  lemma TwiceOverMetrics(first: TradeRecord, second: TradeRecord)
    requires first.pnl == -1.0 && second.pnl == -4.0
    ensures PerformanceMetrics([first, second, first, second]) == Metrics(4, 0.0, -10.0, -2.5)
  {
    var ts := [first, second, first, second];
    assert ts[1..] == [second, first, second] && ts[1..][1..] == [first, second];
    assert ts[1..][1..][1..] == [second] && ts[1..][1..][1..][1..] == [];
    assert Winners([second]) == 0 && TotalPnl([second]) == -4.0;
    assert Winners([first, second]) == 0 && TotalPnl([first, second]) == -5.0;
    assert Winners(ts[1..]) == 0 && TotalPnl(ts[1..]) == -9.0;
    assert Winners(ts) == 0 && TotalPnl(ts) == -10.0;
  }

  /** The first scenario driven through the Backtester object, twice. */
  method RunScenarioTwice()
  {
    var data := [Candle(0, 10.0), Candle(1, 12.0), Candle(2, 9.0), Candle(3, 15.0), Candle(4, 11.0)];
    var signals := [BUY, HOLD, SELL, BUY, HOLD];
    var backtester := new Backtesting.Backtester(data, "MACDStrategy");
    backtester.Run(signals);
    ScenarioSellThenForcedClose();
    assert backtester.GetPerformanceMetrics() == Metrics(2, 0.0, -5.0, -2.5);
    assert |backtester.trades| == 2 && backtester.currentTrade == backtester.trades[1];
    ScenarioSecondRun();
    backtester.Run(signals);
    assert backtester.GetPerformanceMetrics() == Metrics(4, 0.0, -17.0, -4.25);
    assert |backtester.trades| == 4 && backtester.currentTrade == backtester.trades[3];
  }
}
