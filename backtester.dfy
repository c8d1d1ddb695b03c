/**
 * The backtesting engine: one open-trade slot and an append-only list of
 * closed trades, driven bar by bar by a signal series.
 */
module Backtesting {
  import opened Wrappers
  import opened Trades
  import opened Strategies
  import opened Simulation
  import Performance

  /** The values of a list of trade objects, in order. */
  function RecordsOf(ts: seq<Trade>): (r: seq<TradeRecord>)
    reads ts
    ensures |r| == |ts|
  {
    if ts == [] then [] else RecordsOf(ts[..|ts| - 1]) + [ts[|ts| - 1].Value()]
  }

  class Backtester {
    const data: seq<Bar>
    const positionSize: real
    /** The name of the strategy that produced the signals (its class name in the source). */
    const strategyName: string
    var trades: seq<Trade>
    var currentTrade: Trade?
    /** How many of the last entries of `trades` are `currentTrade` itself: a
        trade closed by the forced close of a run is appended but stays in the slot. */
    ghost var held: nat

    /** The values of the closed trades, in the order they were appended. */
    function Records(): seq<TradeRecord>
      reads this, trades
    {
      RecordsOf(trades)
    }

    /** The engine's state as values. */
    function State(): Engine
      reads this, trades, currentTrade
    {
      Engine(if currentTrade == null then None else Some(currentTrade.Value()), Records())
    }

    /** The slot's trade fills exactly the last `held` entries of the list and
        occurs nowhere before them. */
    ghost predicate Aliasing()
      reads this
    {
      && held <= |trades|
      && (held > 0 ==> currentTrade != null && |data| > 0)
      && (forall k :: |trades| - held <= k < |trades| ==> trades[k] == currentTrade)
      && (currentTrade != null ==> currentTrade !in trades[..|trades| - held])
    }

    /** Between runs the slot is empty or holds the trade force-closed last, and
        every trade in the list is closed with the pnl and status its exit implies. */
    ghost predicate Valid()
      reads this, trades
    {
      Aliasing() && (currentTrade != null <==> held > 0) && AllSettled(Records(), positionSize)
    }

    /** `Backtester.__init__`: no trades and no open trade. */
    constructor (data: seq<Bar>, strategyName: string, positionSize: real := DEFAULT_POSITION_SIZE)
      ensures Valid()
      ensures this.data == data && this.strategyName == strategyName && this.positionSize == positionSize
      ensures trades == [] && currentTrade == null && held == 0
    {
      this.data := data;
      this.strategyName := strategyName;
      this.positionSize := positionSize;
      trades := [];
      currentTrade := null;
      held := 0;
    }

    /**
     * `Backtester.run`, given the strategy's signal series, one signal per
     * bar. The trade objects already in the list stay where they are, and the
     * new state is that of RunAsWritten. On an engine with an empty slot, such
     * as a new one, the trade list becomes Simulate of the old one. A trade
     * still open after the last bar is closed, appended and left in the slot.
     */
    method Run(signals: seq<int>)
      requires Valid() && |signals| == |data|
      modifies this, currentTrade
      ensures Valid()
      ensures |trades| > |old(trades)| || trades == old(trades)
      ensures trades[..|old(trades)|] == old(trades)
      ensures Desk(Records(), held)
           == RunAsWritten(old(Desk(Records(), held)), data, signals, positionSize, strategyName)
      ensures old(held) == 0 ==> Records() == Simulate(old(Records()), data, signals, positionSize, strategyName)
      ensures currentTrade != null ==> currentTrade == trades[|trades| - 1]
      ensures currentTrade != null ==> currentTrade == old(currentTrade) || fresh(currentTrade)
    {
      ghost var d0 := Desk(Records(), held);
      ProcessBars(signals);
      OutcomeAtEnd(State(), data, signals, positionSize, strategyName);
      CloseOpenTrade();
      RunAsWrittenSettles(d0, data, signals, positionSize, strategyName);
    }

    /** The loop of `run`. While the slot still holds the trade of an earlier
        run nothing changes; from the first SELL on the state follows Step. */
    method ProcessBars(signals: seq<int>)
      requires Aliasing() && (currentTrade != null <==> held > 0) && |signals| == |data|
      modifies this, currentTrade
      ensures Aliasing() && (currentTrade != null ==> |data| > 0)
      ensures currentTrade != null ==> currentTrade == old(currentTrade) || fresh(currentTrade)
      ensures |trades| >= |old(trades)| && trades[..|old(trades)|] == old(trades)
      ensures held > 0 ==> held == old(held) && Records() == old(Records())
      ensures held > 0 ==> RunAsWritten(old(Desk(Records(), held)), data, signals, positionSize, strategyName)
                           == Desk(Reclose(Records(), held, data[|data| - 1], positionSize), held + 1)
      ensures held == 0 ==> Outcome(State(), data, signals, |data|, positionSize, strategyName)
                            == RunAsWritten(old(Desk(Records(), held)), data, signals, positionSize, strategyName)
    {
      ghost var d0 := Desk(Records(), held);
      var i := 0;
      while i < |data|
        invariant 0 <= i <= |data|
        invariant Progress(signals, d0, i)
        invariant currentTrade != null ==> currentTrade == old(currentTrade) || fresh(currentTrade)
        invariant |trades| >= |old(trades)| && trades[..|old(trades)|] == old(trades)
      {
        Advance(signals, d0, i);
        i := i + 1;
      }
      if held > 0 {
        RunAsWrittenWithoutSale(d0, data, signals, positionSize, strategyName);
      }
    }

    /** The loop invariant of `run` after i bars of a run that started in
        state d0: while the trade of an earlier run is still held nothing has
        changed and no SELL has come; once the slot was emptied, the rest of the
        run from here gives the outcome of the whole run. */
    ghost predicate Progress(signals: seq<int>, d0: Desk, i: nat)
      reads this, trades, currentTrade
    {
      && |signals| == |data| && i <= |data| && Coherent(d0, data) && Aliasing()
      && (currentTrade != null ==> |data| > 0)
      && (held > 0 ==> held == d0.held && Records() == d0.trades)
      && (held > 0 ==> forall k :: 0 <= k < i ==> signals[k] != SELL)
      && (held == 0 ==> Outcome(State(), data, signals, i, positionSize, strategyName)
                        == RunAsWritten(d0, data, signals, positionSize, strategyName))
    }

    /** One pass of the loop of `run`, with the proof that it keeps the invariant. */
    method Advance(signals: seq<int>, ghost d0: Desk, i: nat)
      requires Progress(signals, d0, i) && i < |data|
      modifies this, currentTrade
      ensures Progress(signals, d0, i + 1)
      ensures currentTrade != null ==> currentTrade == old(currentTrade) || fresh(currentTrade)
      ensures |trades| >= |old(trades)| && trades[..|old(trades)|] == old(trades)
    {
      ghost var before := State();
      ghost var wasHeld := held;
      ProcessBar(data[i], signals[i]);
      if wasHeld == 0 {
        OutcomeStep(before, data, signals, i, positionSize, strategyName);
      } else if signals[i] == SELL {
        RunAsWrittenAtSale(d0, data, signals, i, positionSize, strategyName);
      }
    }

    /** One iteration of the loop of `run`. A BUY with an empty slot opens a
        trade at the bar's timestamp and close; a SELL with a trade in the slot
        closes it there, appends it and empties the slot; anything else changes
        nothing. When the slot's trade was already in the list, the close shows
        in those entries too. */
    method ProcessBar(bar: Bar, signal: int)
      requires Aliasing() && |data| > 0
      modifies this, currentTrade
      ensures Aliasing()
      ensures currentTrade != null ==> currentTrade == old(currentTrade) || fresh(currentTrade)
      ensures |trades| >= |old(trades)| && trades[..|old(trades)|] == old(trades)
      ensures old(held) == 0 ==> held == 0 && State() == Step(old(State()), bar, signal, positionSize, strategyName)
      ensures old(held) > 0 && signal == SELL ==>
                currentTrade == null && held == 0 && Records() == Reclose(old(Records()), old(held), bar, positionSize)
      ensures old(held) > 0 && signal != SELL ==>
                currentTrade == old(currentTrade) && held == old(held) && Records() == old(Records())
    {
      if signal == BUY && currentTrade == null {
        currentTrade := new Trade(bar.time, bar.close, strategyName);
      } else if signal == SELL && currentTrade != null {
        ghost var r0 := Records();
        ghost var c := Closed(currentTrade.Value(), bar.time, bar.close, positionSize);
        CloseAndAppend(bar.time, bar.close);
        currentTrade := null;
        held := 0;
        assert r0[..|r0|] == r0 && Repeat(c, 1) == [c];
      }
    }

    /** The end of `run`: a trade still in the slot is closed at the last bar's
        timestamp and close and appended, and stays in the slot. */
    method CloseOpenTrade()
      requires Aliasing() && (currentTrade != null ==> |data| > 0)
      modifies this, currentTrade
      ensures Aliasing() && (currentTrade != null <==> held > 0)
      ensures currentTrade == old(currentTrade)
      ensures |trades| >= |old(trades)| && trades[..|old(trades)|] == old(trades)
      ensures old(held) == 0 ==> Records() == Finish(old(State()), data, positionSize)
      ensures old(held) == 0 ==> held == (if old(currentTrade) != null then 1 else 0)
      ensures old(held) > 0 ==> held == old(held) + 1
      ensures old(held) > 0 ==> Records() == Reclose(old(Records()), old(held), data[|data| - 1], positionSize)
    {
      if currentTrade != null {
        var last := data[|data| - 1];
        ghost var r0 := Records();
        ghost var c := Closed(currentTrade.Value(), last.time, last.close, positionSize);
        CloseAndAppend(last.time, last.close);
        assert r0[..|r0|] == r0 && Repeat(c, 1) == [c];
      }
    }

    /** `close_trade` on the slot's trade followed by appending it; the slot
        keeps it. Every entry of the list that is that trade shows the new exit. */
    method CloseAndAppend(exitTime: int, exitPrice: real)
      requires Aliasing() && currentTrade != null && |data| > 0
      modifies this, currentTrade
      ensures Aliasing() && currentTrade == old(currentTrade) && held == old(held) + 1
      ensures trades == old(trades) + [currentTrade]
      ensures old(held) > 0 ==> old(Records())[|old(trades)| - 1] == old(currentTrade.Value())
      ensures Records() == old(Records())[..|old(trades)| - old(held)]
                         + Repeat(Closed(old(currentTrade.Value()), exitTime, exitPrice, positionSize), old(held) + 1)
    {
      ghost var m := held;
      ghost var r0 := Records();
      ghost var closed := Closed(currentTrade.Value(), exitTime, exitPrice, positionSize);
      CloseInPlace(exitTime, exitPrice);
      ghost var r1 := Records();
      assert r1 + [closed] == r0[..|r0| - m] + Repeat(closed, m + 1) by {
        assert Repeat(closed, m) + [closed] == Repeat(closed, m + 1);
      }
      AppendSlot();
    }

    /** `self.trades.append(self.current_trade)`: the slot's trade fills one more
        entry at the end of the list. */
    method AppendSlot()
      requires Aliasing() && currentTrade != null && |data| > 0
      modifies this
      ensures Aliasing() && currentTrade == old(currentTrade) && held == old(held) + 1
      ensures trades == old(trades) + [currentTrade]
      ensures Records() == old(Records()) + [currentTrade.Value()]
    {
      AppendRecord(trades, currentTrade);
      BlockGrows(trades, currentTrade, held);
      trades := trades + [currentTrade];
      held := held + 1;
    }

    /** `close_trade` on the slot's trade: the entries of the list that are
        that trade, the last `held` ones, show the new exit; the others stay. */
    method CloseInPlace(exitTime: int, exitPrice: real)
      requires Aliasing() && currentTrade != null
      modifies currentTrade
      ensures currentTrade.Value() == Closed(old(currentTrade.Value()), exitTime, exitPrice, positionSize)
      ensures held > 0 ==> old(Records())[|trades| - 1] == old(currentTrade.Value())
      ensures Records() == old(Records())[..|trades| - held] + Repeat(currentTrade.Value(), held)
    {
      ghost var before := Records();
      ghost var prefix := trades[..|trades| - held];
      RecordsOfBlock(trades, held, currentTrade);
      ghost var kept := RecordsOf(prefix);
      assert kept == before[..|trades| - held];
      currentTrade.CloseTrade(exitTime, exitPrice, positionSize);
      assert RecordsOf(prefix) == kept;
      RecordsOfBlock(trades, held, currentTrade);
    }

    /** `Backtester.get_performance_metrics` over the trade list. On a list of
        closed trades the win rate counts the trades marked WIN. */
    function GetPerformanceMetrics(): (m: Performance.Metrics)
      reads this, trades
      ensures m.totalTrades == |trades|
      ensures m.totalPnl == Performance.TotalPnl(Records())
      ensures AllSettled(Records(), positionSize) && |trades| > 0 ==>
                m.winRate * (|trades| as real) == 100.0 * (Performance.CountStatus(Records(), Win) as real)
    {
      Performance.SettledWinners(Records(), positionSize);
      Performance.PerformanceMetrics(Records())
    }
  }

  /** The total pnl after a run on an empty slot is the total before plus the
      pnl of the run's round trips. */
  lemma SimulateTotalPnl(prior: seq<TradeRecord>, data: seq<Bar>, signals: seq<int>, size: real, name: string)
    requires |signals| == |data|
    ensures Performance.TotalPnl(Simulate(prior, data, signals, size, name))
         == Performance.TotalPnl(prior) + Performance.TotalPnl(RoundTrips(data, Holdings(signals, 0), size, name))
  {
    SimulateIsRoundTrips(prior, data, signals, size, name);
    Performance.TotalPnlAppend(prior, RoundTrips(data, Holdings(signals, 0), size, name));
  }

  /** Appending x to a list whose last m entries are x gives a list whose last
      m + 1 entries are x, in front of the same prefix. */
  lemma BlockGrows<T>(ts: seq<T>, x: T, m: nat)
    requires m <= |ts| && forall k :: |ts| - m <= k < |ts| ==> ts[k] == x
    ensures (ts + [x])[..|ts| - m] == ts[..|ts| - m]
    ensures forall k :: |ts| - m <= k < |ts| + 1 ==> (ts + [x])[k] == x
  {
  }

  lemma AppendRecord(ts: seq<Trade>, t: Trade)
    ensures RecordsOf(ts + [t]) == RecordsOf(ts) + [t.Value()]
  {
    assert (ts + [t])[..|ts|] == ts;
  }

  /** The values of a list whose last m entries are one trade object t. */
  lemma {:induction false} RecordsOfBlock(ts: seq<Trade>, m: nat, t: Trade)
    requires m <= |ts| && forall k :: |ts| - m <= k < |ts| ==> ts[k] == t
    ensures RecordsOf(ts) == RecordsOf(ts[..|ts| - m]) + Repeat(t.Value(), m)
    decreases m
  {
    var n := |ts|;
    if m == 0 {
      assert ts[..n] == ts;
    } else {
      RecordsOfBlock(ts[..n - 1], m - 1, t);
      assert ts[..n - 1][..n - 1 - (m - 1)] == ts[..n - m];
      assert Repeat(t.Value(), m - 1) + [t.Value()] == Repeat(t.Value(), m);
    }
  }
}
