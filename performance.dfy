/** `Backtester.get_performance_metrics`: four numbers recomputed from the
    closed-trade list. */
module Performance {
  import opened Trades

  datatype Metrics = Metrics(totalTrades: nat, winRate: real, totalPnl: real, averagePnl: real)

  /** `sum(t.pnl for t in trades)`. */
  function TotalPnl(trades: seq<TradeRecord>): real {
    if trades == [] then 0.0 else trades[0].pnl + TotalPnl(trades[1..])
  }

  /** `len([t for t in trades if t.pnl > 0])`. */
  function Winners(trades: seq<TradeRecord>): nat {
    if trades == [] then 0 else (if trades[0].pnl > 0.0 then 1 else 0) + Winners(trades[1..])
  }

  /** The number of trades with the given status. */
  function CountStatus(trades: seq<TradeRecord>, s: Status): nat {
    if trades == [] then 0 else (if trades[0].status == s then 1 else 0) + CountStatus(trades[1..], s)
  }

  lemma {:induction false} WinnersAtMostTotal(trades: seq<TradeRecord>)
    ensures Winners(trades) <= |trades|
  {
    if trades != [] {
      WinnersAtMostTotal(trades[1..]);
    }
  }

  /** On settled trades, the winners counted by pnl are exactly the trades marked
      WIN, and all the others are marked LOSS. */
  lemma {:induction false} WinnersAreWins(trades: seq<TradeRecord>, size: real)
    requires AllSettled(trades, size)
    ensures Winners(trades) == CountStatus(trades, Win)
    ensures CountStatus(trades, Win) + CountStatus(trades, Loss) == |trades|
  {
    if trades != [] {
      assert IsSettled(trades[0], size);
      WinnersAreWins(trades[1..], size);
    }
  }

  /** WinnersAreWins, for a list that may or may not be settled. */
  lemma SettledWinners(trades: seq<TradeRecord>, size: real)
    ensures AllSettled(trades, size) ==> Winners(trades) == CountStatus(trades, Win)
  {
    if AllSettled(trades, size) {
      WinnersAreWins(trades, size);
    }
  }

  lemma {:induction false} TotalPnlAppend(a: seq<TradeRecord>, b: seq<TradeRecord>)
    ensures TotalPnl(a + b) == TotalPnl(a) + TotalPnl(b)
  {
    if a == [] {
      assert a + b == b;
    } else {
      assert (a + b)[0] == a[0] && (a + b)[1..] == a[1..] + b;
      TotalPnlAppend(a[1..], b);
    }
  }

  /**
   * The metrics of a trade list. With no trades every field is zero (no
   * division by zero); otherwise the count, a win rate in [0, 100] equal to
   * 100 * winners / count, the pnl sum, and the average = sum / count.
   */
  function PerformanceMetrics(trades: seq<TradeRecord>): (m: Metrics)
    ensures |trades| == 0 ==> m == Metrics(0, 0.0, 0.0, 0.0)
    ensures m.totalTrades == |trades|
    ensures m.totalPnl == TotalPnl(trades)
    ensures 0.0 <= m.winRate <= 100.0
    ensures |trades| > 0 ==> m.winRate * (|trades| as real) == 100.0 * (Winners(trades) as real)
    ensures |trades| > 0 ==> m.averagePnl * (|trades| as real) == m.totalPnl
  {
    if |trades| == 0 then
      Metrics(0, 0.0, 0.0, 0.0)
    else
      var totalTrades := |trades|;
      var winningTrades := Winners(trades);
      var totalPnl := TotalPnl(trades);
      WinnersAtMostTotal(trades);
      var rate := (winningTrades as real / totalTrades as real) * 100.0;
      assert rate * (totalTrades as real) == 100.0 * (winningTrades as real);
      assert rate <= 100.0 by {
        assert winningTrades as real / totalTrades as real <= 1.0;
      }
      Metrics(totalTrades, rate, totalPnl, totalPnl / totalTrades as real)
  }
}
