/**
 * What `Backtester.run` computes, as functions: the single-slot state
 * machine folded over the bars (Step, Walk, Finish, Simulate), and an
 * independent description of the same result by searching the signal
 * series for entries and exits (NextIndex, Holdings, RoundTrips). The
 * theorem SimulateIsRoundTrips connects the two; the other lemmas are
 * read off the search description.
 */
module Simulation {
  import opened Wrappers
  import opened Trades
  import opened Strategies

  /** The engine's state: the open trade, if any, and the closed trades in
      the order they were closed. */
  datatype Engine = Engine(current: Option<TradeRecord>, trades: seq<TradeRecord>)

  /**
   * One bar of the loop. A BUY with no open trade opens one at the bar's
   * time and close; a SELL with an open trade closes it there and appends it;
   * every other combination changes nothing.
   */
  function Step(e: Engine, bar: Bar, signal: int, size: real, name: string): (r: Engine)
    ensures |e.trades| <= |r.trades| <= |e.trades| + 1 && r.trades[..|e.trades|] == e.trades
    ensures e.current.Some? && r.current.Some? ==> r.current == e.current
  {
    if signal == BUY && e.current.None? then
      Engine(Some(Opened(bar.time, bar.close, name)), e.trades)
    else if signal == SELL && e.current.Some? then
      Engine(None, e.trades + [Closed(e.current.value, bar.time, bar.close, size)])
    else
      e
  }

  /** The transition table of one bar. With no open trade, exactly a BUY opens
      one and the list is untouched; with an open trade, exactly a SELL closes
      it at the bar's time and close and appends it; BUY or HOLD with an open
      trade, and SELL or HOLD with none, change nothing. */
  lemma StepTransitions(e: Engine, bar: Bar, signal: int, size: real, name: string)
    ensures var r := Step(e, bar, signal, size, name);
            && (e.current.None? ==> (r.current.Some? <==> signal == BUY) && r.trades == e.trades)
            && (e.current.None? && signal == BUY ==> r.current == Some(Opened(bar.time, bar.close, name)))
            && (e.current.Some? ==> (r.current.None? <==> signal == SELL))
            && (e.current.Some? && signal == SELL ==>
                  r.trades == e.trades + [Closed(e.current.value, bar.time, bar.close, size)])
            && (e.current.Some? && signal != SELL ==> r == e)
            && (e.current.None? && signal != BUY ==> r == e)
  {
  }

  /** The loop over bars k, k+1, ..., |data|-1, starting from state e. A
      trade is open at the end only if one was open at the start or some bar
      was processed. */
  function Walk(e: Engine, data: seq<Bar>, signals: seq<int>, k: nat, size: real, name: string): (r: Engine)
    requires |signals| == |data| && k <= |data|
    ensures r.current.Some? ==> e.current.Some? || k < |data|
    decreases |data| - k
  {
    if k == |data| then e
    else Walk(Step(e, data[k], signals[k], size, name), data, signals, k + 1, size, name)
  }

  /** After the loop: a trade still open is closed at the last bar's time and
      close and appended; with no open trade the list is left as it is. */
  function Finish(e: Engine, data: seq<Bar>, size: real): (r: seq<TradeRecord>)
    requires e.current.Some? ==> |data| > 0
    ensures e.current.None? ==> r == e.trades
    ensures e.current.Some? ==> |r| == |e.trades| + 1 && r[..|e.trades|] == e.trades
    ensures e.current.Some? ==> var t := r[|e.trades|];
              && IsSettled(t, size) && t.entryTime == e.current.value.entryTime
              && t.exitTime == Some(data[|data| - 1].time) && t.exitPrice == Some(data[|data| - 1].close)
  {
    match e.current
    case None => e.trades
    case Some(t) => e.trades + [Closed(t, data[|data| - 1].time, data[|data| - 1].close, size)]
  }

  /** The trade list after `run`, starting from the trades `prior` already held
      and no open trade: the earlier trades stay, in front. */
  function Simulate(prior: seq<TradeRecord>, data: seq<Bar>, signals: seq<int>, size: real, name: string): (r: seq<TradeRecord>)
    requires |signals| == |data|
    ensures |prior| <= |r| && r[..|prior|] == prior
  {
    FlatWalkIsRoundTrips(prior, data, signals, 0, size, name);
    assert (prior + RoundTrips(data, Holdings(signals, 0), size, name))[..|prior|] == prior;
    Finish(Walk(Engine(None, prior), data, signals, 0, size, name), data, size)
  }

  // ------------------------------------------------ the search description

  /** The first index at or after `from` whose signal is `value`, or |signals|
      when there is none. */
  function NextIndex(signals: seq<int>, from: nat, value: int): (k: nat)
    requires from <= |signals|
    ensures from <= k <= |signals|
    ensures k < |signals| ==> signals[k] == value
    ensures forall j :: from <= j < k ==> signals[j] != value
    decreases |signals| - from
  {
    if from == |signals| then from
    else if signals[from] == value then from
    else NextIndex(signals, from + 1, value)
  }

  /** A position held from bar `entry` to bar `exit`. */
  datatype Holding = Holding(entry: nat, exit: nat)

  predicate InRange(hs: seq<Holding>, n: nat) {
    forall k :: 0 <= k < |hs| ==> hs[k].entry <= hs[k].exit < n
  }

  /**
   * The positions held when scanning from bar `from` with no position: enter
   * at the first BUY, exit at the first SELL after it (or at the last bar if
   * there is none), and scan on from the bar after the exit.
   */
  function Holdings(signals: seq<int>, from: nat): (hs: seq<Holding>)
    requires from <= |signals|
    ensures InRange(hs, |signals|)
    decreases |signals| - from
  {
    var i := NextIndex(signals, from, BUY);
    if i == |signals| then []
    else
      var j := NextIndex(signals, i + 1, SELL);
      if j == |signals| then [Holding(i, |signals| - 1)]
      else [Holding(i, j)] + Holdings(signals, j + 1)
  }

  /** The three ways the search can go from bar k, one lemma each. */
  lemma HoldingsNone(signals: seq<int>, k: nat)
    requires k <= |signals| && NextIndex(signals, k, BUY) == |signals|
    ensures Holdings(signals, k) == []
  {
  }

  lemma HoldingsForced(signals: seq<int>, k: nat)
    requires k <= |signals| && NextIndex(signals, k, BUY) < |signals|
    requires NextIndex(signals, NextIndex(signals, k, BUY) + 1, SELL) == |signals|
    ensures Holdings(signals, k) == [Holding(NextIndex(signals, k, BUY), |signals| - 1)]
  {
  }

  lemma HoldingsSold(signals: seq<int>, k: nat, i: nat, j: nat)
    requires k <= |signals| && i == NextIndex(signals, k, BUY) < |signals|
    requires j == NextIndex(signals, i + 1, SELL) < |signals|
    ensures Holdings(signals, k) == [Holding(i, j)] + Holdings(signals, j + 1)
  {
  }

  /** The closed trade for one holding. */
  function RoundTrip(data: seq<Bar>, h: Holding, size: real, name: string): TradeRecord
    requires h.entry <= h.exit < |data|
  {
    Closed(Opened(data[h.entry].time, data[h.entry].close, name), data[h.exit].time, data[h.exit].close, size)
  }

  function RoundTrips(data: seq<Bar>, hs: seq<Holding>, size: real, name: string): seq<TradeRecord>
    requires InRange(hs, |data|)
  {
    seq(|hs|, k requires 0 <= k < |hs| => RoundTrip(data, hs[k], size, name))
  }

  lemma RoundTripsCons(data: seq<Bar>, h: Holding, hs: seq<Holding>, size: real, name: string)
    requires h.entry <= h.exit < |data| && InRange(hs, |data|)
    ensures InRange([h] + hs, |data|)
    ensures RoundTrips(data, [h] + hs, size, name)
         == [RoundTrip(data, h, size, name)] + RoundTrips(data, hs, size, name)
  {
    var l := RoundTrips(data, [h] + hs, size, name);
    var r := [RoundTrip(data, h, size, name)] + RoundTrips(data, hs, size, name);
    forall k | 0 <= k < |l| ensures l[k] == r[k] {
      if k > 0 {
        assert ([h] + hs)[k] == hs[k - 1];
      }
    }
  }

  /** With no position, bars up to the next BUY change nothing. */
  lemma {:induction false} SkipFlat(acc: seq<TradeRecord>, data: seq<Bar>, signals: seq<int>,
                                    k: nat, m: nat, size: real, name: string)
    requires |signals| == |data| && k <= |data| && k <= m <= NextIndex(signals, k, BUY)
    ensures Walk(Engine(None, acc), data, signals, k, size, name)
         == Walk(Engine(None, acc), data, signals, m, size, name)
    decreases m - k
  {
    if k < m {
      SkipFlat(acc, data, signals, k + 1, m, size, name);
    }
  }

  /** With a position open, bars up to the next SELL change nothing. */
  lemma {:induction false} SkipHeld(t: TradeRecord, acc: seq<TradeRecord>, data: seq<Bar>, signals: seq<int>,
                                    k: nat, m: nat, size: real, name: string)
    requires |signals| == |data| && k <= |data| && k <= m <= NextIndex(signals, k, SELL)
    ensures Walk(Engine(Some(t), acc), data, signals, k, size, name)
         == Walk(Engine(Some(t), acc), data, signals, m, size, name)
    decreases m - k
  {
    if k < m {
      SkipHeld(t, acc, data, signals, k + 1, m, size, name);
    }
  }

  /** A BUY with no position opens a trade at that bar. */
  lemma OpenAt(acc: seq<TradeRecord>, data: seq<Bar>, signals: seq<int>, i: nat, size: real, name: string)
    requires |signals| == |data| && i < |data| && signals[i] == BUY
    ensures Walk(Engine(None, acc), data, signals, i, size, name)
         == Walk(Engine(Some(Opened(data[i].time, data[i].close, name)), acc), data, signals, i + 1, size, name)
  {
  }

  /** A SELL with a position closes the trade at that bar and appends it. */
  lemma CloseAt(t: TradeRecord, acc: seq<TradeRecord>, data: seq<Bar>, signals: seq<int>, j: nat, size: real, name: string)
    requires |signals| == |data| && j < |data| && signals[j] == SELL
    ensures Walk(Engine(Some(t), acc), data, signals, j, size, name)
         == Walk(Engine(None, acc + [Closed(t, data[j].time, data[j].close, size)]), data, signals, j + 1, size, name)
  {
  }

  /** A position with no SELL after it is closed at the last bar. */
  lemma HeldToEnd(t: TradeRecord, acc: seq<TradeRecord>, data: seq<Bar>, signals: seq<int>, k: nat, size: real, name: string)
    requires |signals| == |data| && 0 < k <= |data| && NextIndex(signals, k, SELL) == |data|
    ensures Finish(Walk(Engine(Some(t), acc), data, signals, k, size, name), data, size)
         == acc + [Closed(t, data[|data| - 1].time, data[|data| - 1].close, size)]
  {
    SkipHeld(t, acc, data, signals, k, |data|, size, name);
  }

  /** From bar k with no position, the fold yields the holdings found by the search. */
  lemma {:induction false} FlatWalkIsRoundTrips(acc: seq<TradeRecord>, data: seq<Bar>, signals: seq<int>,
                                                k: nat, size: real, name: string)
    requires |signals| == |data| && k <= |data|
    ensures Finish(Walk(Engine(None, acc), data, signals, k, size, name), data, size)
         == acc + RoundTrips(data, Holdings(signals, k), size, name)
    decreases |data| - k, 1
  {
    var n := |data|;
    var i := NextIndex(signals, k, BUY);
    SkipFlat(acc, data, signals, k, i, size, name);
    if i == n {
      HoldingsNone(signals, k);
    } else if NextIndex(signals, i + 1, SELL) == n {
      var t := Opened(data[i].time, data[i].close, name);
      OpenAt(acc, data, signals, i, size, name);
      HeldToEnd(t, acc, data, signals, i + 1, size, name);
      HoldingsForced(signals, k);
      RoundTripsCons(data, Holding(i, n - 1), [], size, name);
    } else {
      SoldWalkIsRoundTrips(acc, data, signals, k, size, name);
    }
  }

  /** The case of FlatWalkIsRoundTrips where the position opened at the next
      BUY is closed by a later SELL. */
  lemma {:induction false} SoldWalkIsRoundTrips(acc: seq<TradeRecord>, data: seq<Bar>, signals: seq<int>,
                                                k: nat, size: real, name: string)
    requires |signals| == |data| && k <= |data|
    requires NextIndex(signals, k, BUY) < |data|
    requires NextIndex(signals, NextIndex(signals, k, BUY) + 1, SELL) < |data|
    ensures Finish(Walk(Engine(None, acc), data, signals, k, size, name), data, size)
         == acc + RoundTrips(data, Holdings(signals, k), size, name)
    decreases |data| - k, 0
  {
    var i := NextIndex(signals, k, BUY);
    var j := NextIndex(signals, i + 1, SELL);
    var closed := RoundTrip(data, Holding(i, j), size, name);
    WalkThroughSale(acc, data, signals, k, i, j, size, name);
    FlatWalkIsRoundTrips(acc + [closed], data, signals, j + 1, size, name);
    RoundTripsThroughSale(acc, data, signals, k, i, j, size, name);
  }

  /** With no position at bar k, the fold reaches the bar after the next sale
      with that round trip appended and no position. */
  lemma WalkThroughSale(acc: seq<TradeRecord>, data: seq<Bar>, signals: seq<int>,
                        k: nat, i: nat, j: nat, size: real, name: string)
    requires |signals| == |data| && k <= |data|
    requires i == NextIndex(signals, k, BUY) < |data|
    requires j == NextIndex(signals, i + 1, SELL) < |data|
    ensures Walk(Engine(None, acc), data, signals, k, size, name)
         == Walk(Engine(None, acc + [RoundTrip(data, Holding(i, j), size, name)]), data, signals, j + 1, size, name)
  {
    var t := Opened(data[i].time, data[i].close, name);
    SkipFlat(acc, data, signals, k, i, size, name);
    OpenAt(acc, data, signals, i, size, name);
    SkipHeld(t, acc, data, signals, i + 1, j, size, name);
    CloseAt(t, acc, data, signals, j, size, name);
  }

  /** The search's side of the same step. */
  lemma RoundTripsThroughSale(acc: seq<TradeRecord>, data: seq<Bar>, signals: seq<int>,
                              k: nat, i: nat, j: nat, size: real, name: string)
    requires |signals| == |data| && k <= |data|
    requires i == NextIndex(signals, k, BUY) < |data|
    requires j == NextIndex(signals, i + 1, SELL) < |data|
    ensures acc + RoundTrips(data, Holdings(signals, k), size, name)
         == (acc + [RoundTrip(data, Holding(i, j), size, name)]) + RoundTrips(data, Holdings(signals, j + 1), size, name)
  {
    var rest := Holdings(signals, j + 1);
    HoldingsSold(signals, k, i, j);
    RoundTripsCons(data, Holding(i, j), rest, size, name);
    AppendAssoc(acc, [RoundTrip(data, Holding(i, j), size, name)], RoundTrips(data, rest, size, name));
  }

  lemma AppendAssoc<T>(a: seq<T>, b: seq<T>, c: seq<T>)
    ensures a + (b + c) == (a + b) + c
  {
  }

  /**
   * The fold that `run` performs appends exactly the trades of the search
   * description to the trades held before.
   */
  lemma SimulateIsRoundTrips(prior: seq<TradeRecord>, data: seq<Bar>, signals: seq<int>, size: real, name: string)
    requires |signals| == |data|
    ensures Simulate(prior, data, signals, size, name)
         == prior + RoundTrips(data, Holdings(signals, 0), size, name)
  {
    FlatWalkIsRoundTrips(prior, data, signals, 0, size, name);
  }

  // ------------------------------------------- properties of the holdings

  /** Holdings that start at or after `from`, each after the previous one ended. */
  predicate Ordered(hs: seq<Holding>, from: nat)
  {
    && (forall k :: 0 <= k < |hs| ==> from <= hs[k].entry)
    && (forall k, l :: 0 <= k < l < |hs| ==> hs[k].exit < hs[l].entry)
  }

  lemma OrderedCons(h: Holding, rest: seq<Holding>, from: nat, next: nat)
    requires from <= h.entry <= h.exit < next && Ordered(rest, next)
    ensures Ordered([h] + rest, from)
  {
    var hs := [h] + rest;
    forall k | 0 <= k < |hs| ensures from <= hs[k].entry {
      if k > 0 {
        assert hs[k] == rest[k - 1];
      }
    }
    forall k, l | 0 <= k < l < |hs| ensures hs[k].exit < hs[l].entry {
      assert hs[l] == rest[l - 1];
      if k > 0 {
        assert hs[k] == rest[k - 1];
      }
    }
  }

  /** The holdings lie in order and never overlap: each one starts after the
      previous one ended, so at most one position is held at any bar. */
  lemma {:induction false} HoldingsOrdered(signals: seq<int>, from: nat)
    requires from <= |signals|
    ensures Ordered(Holdings(signals, from), from)
    decreases |signals| - from
  {
    var i := NextIndex(signals, from, BUY);
    if i == |signals| {
      HoldingsNone(signals, from);
      assert Ordered([], from);
    } else {
      var j := NextIndex(signals, i + 1, SELL);
      if j == |signals| {
        HoldingsForced(signals, from);
        OrderedCons(Holding(i, |signals| - 1), [], from, |signals|);
        assert [Holding(i, |signals| - 1)] + [] == [Holding(i, |signals| - 1)];
      } else {
        HoldingsSold(signals, from, i, j);
        HoldingsOrdered(signals, j + 1);
        OrderedCons(Holding(i, j), Holdings(signals, j + 1), from, j + 1);
      }
    }
  }

  /** A holding enters on a BUY and exits at the first SELL after it or, when
      no SELL follows, at the last bar. */
  predicate IsRoundTripShape(signals: seq<int>, h: Holding)
    requires h.entry <= h.exit < |signals|
  {
    && signals[h.entry] == BUY
    && (forall b :: h.entry < b < h.exit ==> signals[b] != SELL)
    && ((h.entry < h.exit && signals[h.exit] == SELL)
        || (h.exit == |signals| - 1 && forall b :: h.entry < b < |signals| ==> signals[b] != SELL))
  }

  /** Every holding of `hs` has the shape of a round trip. */
  predicate AllShaped(signals: seq<int>, hs: seq<Holding>)
    requires InRange(hs, |signals|)
  {
    forall k :: 0 <= k < |hs| ==> IsRoundTripShape(signals, hs[k])
  }

  /** A holding enters on a BUY and its exit is where the search for the next
      SELL after the entry lands, or the last bar when that search runs off the end. */
  predicate ExitsAtNextSale(signals: seq<int>, h: Holding)
    requires h.entry <= h.exit < |signals|
  {
    && signals[h.entry] == BUY
    && var j := NextIndex(signals, h.entry + 1, SELL);
       if j == |signals| then h.exit == |signals| - 1 else h.exit == j
  }

  predicate AllExitAtNextSale(signals: seq<int>, hs: seq<Holding>)
    requires InRange(hs, |signals|)
  {
    forall k :: 0 <= k < |hs| ==> ExitsAtNextSale(signals, hs[k])
  }

  lemma ExitsAtNextSaleCons(signals: seq<int>, h: Holding, rest: seq<Holding>)
    requires h.entry <= h.exit < |signals| && ExitsAtNextSale(signals, h)
    requires InRange(rest, |signals|) && AllExitAtNextSale(signals, rest)
    ensures InRange([h] + rest, |signals|) && AllExitAtNextSale(signals, [h] + rest)
  {
    var hs := [h] + rest;
    forall k | 0 <= k < |hs| ensures hs[k].entry <= hs[k].exit < |signals| && ExitsAtNextSale(signals, hs[k]) {
      if k > 0 {
        assert hs[k] == rest[k - 1];
      }
    }
  }

  lemma {:induction false} HoldingsExitAtNextSale(signals: seq<int>, from: nat)
    requires from <= |signals|
    ensures AllExitAtNextSale(signals, Holdings(signals, from))
    decreases |signals| - from
  {
    var i := NextIndex(signals, from, BUY);
    if i == |signals| {
      HoldingsNone(signals, from);
      assert AllExitAtNextSale(signals, []);
    } else {
      var j := NextIndex(signals, i + 1, SELL);
      if j == |signals| {
        HoldingsForced(signals, from);
        ExitsAtNextSaleCons(signals, Holding(i, |signals| - 1), []);
        assert [Holding(i, |signals| - 1)] + [] == [Holding(i, |signals| - 1)];
      } else {
        HoldingsSold(signals, from, i, j);
        HoldingsExitAtNextSale(signals, j + 1);
        ExitsAtNextSaleCons(signals, Holding(i, j), Holdings(signals, j + 1));
      }
    }
  }

  lemma ExitAtNextSaleIsRoundTrip(signals: seq<int>, h: Holding)
    requires h.entry <= h.exit < |signals| && ExitsAtNextSale(signals, h)
    ensures IsRoundTripShape(signals, h)
  {
  }

  /** Every holding enters on a BUY and exits at the first SELL after it or,
      when no SELL follows, at the last bar. */
  lemma HoldingsShape(signals: seq<int>, from: nat)
    requires from <= |signals|
    ensures AllShaped(signals, Holdings(signals, from))
  {
    HoldingsExitAtNextSale(signals, from);
    var hs := Holdings(signals, from);
    forall k | 0 <= k < |hs| ensures IsRoundTripShape(signals, hs[k]) {
      ExitAtNextSaleIsRoundTrip(signals, hs[k]);
    }
  }

  /** Bar `b` lies within some holding of `hs`. */
  predicate Covers(hs: seq<Holding>, b: nat)
  {
    exists k :: 0 <= k < |hs| && hs[k].entry <= b <= hs[k].exit
  }

  /** A bar covered by the later holdings is covered once one holding is put in front. */
  lemma CoversCons(h: Holding, hs: seq<Holding>, b: nat)
    requires Covers(hs, b)
    ensures Covers([h] + hs, b)
  {
    var k :| 0 <= k < |hs| && hs[k].entry <= b <= hs[k].exit;
    assert ([h] + hs)[k + 1] == hs[k];
  }

  /** No BUY is ignored except while a position is held: every BUY at or after
      `from` lies within some holding. */
  lemma {:induction false} HoldingsCoverBuys(signals: seq<int>, from: nat, b: nat)
    requires from <= b < |signals| && signals[b] == BUY
    ensures Covers(Holdings(signals, from), b)
    decreases |signals| - from
  {
    var i := NextIndex(signals, from, BUY);
    assert i <= b;
    var j := NextIndex(signals, i + 1, SELL);
    if j == |signals| {
      HoldingsForced(signals, from);
      assert Holdings(signals, from)[0] == Holding(i, |signals| - 1);
    } else {
      HoldingsSold(signals, from, i, j);
      if b <= j {
        assert Holdings(signals, from)[0] == Holding(i, j);
      } else {
        HoldingsCoverBuys(signals, j + 1, b);
        CoversCons(Holding(i, j), Holdings(signals, j + 1), b);
      }
    }
  }

  // ------------------------------------------------ properties of the run

  /** Every trade the run adds is closed, with the pnl and status its exit implies. */
  lemma SimulateSettles(prior: seq<TradeRecord>, data: seq<Bar>, signals: seq<int>, size: real, name: string)
    requires |signals| == |data| && AllSettled(prior, size)
    ensures AllSettled(Simulate(prior, data, signals, size, name), size)
  {
    SimulateIsRoundTrips(prior, data, signals, size, name);
  }

  /** The run appends one trade per holding and leaves the earlier trades as they were. */
  lemma SimulateAppends(prior: seq<TradeRecord>, data: seq<Bar>, signals: seq<int>, size: real, name: string)
    requires |signals| == |data|
    ensures var r := Simulate(prior, data, signals, size, name);
            && |r| == |prior| + |Holdings(signals, 0)|
            && r[..|prior|] == prior
  {
    SimulateIsRoundTrips(prior, data, signals, size, name);
    var r := Simulate(prior, data, signals, size, name);
    assert r[..|prior|] == prior;
  }

  /** With the slot emptied after the forced close, a second run on the same
      bars appends the same trades again: what a run adds does not depend on
      the runs before it. */
  lemma SimulateTwice(prior: seq<TradeRecord>, data: seq<Bar>, signals: seq<int>, size: real, name: string)
    requires |signals| == |data|
    ensures var added := RoundTrips(data, Holdings(signals, 0), size, name);
            Simulate(Simulate(prior, data, signals, size, name), data, signals, size, name)
            == prior + added + added
  {
    SimulateIsRoundTrips(prior, data, signals, size, name);
    SimulateIsRoundTrips(Simulate(prior, data, signals, size, name), data, signals, size, name);
  }

  /** The k-th added trade enters at the close of the k-th holding's BUY bar and
      exits at the close of its exit bar; every added trade carries the strategy name. */
  lemma SimulateTradesAtBars(prior: seq<TradeRecord>, data: seq<Bar>, signals: seq<int>, size: real, name: string, k: nat)
    requires |signals| == |data| && k < |Holdings(signals, 0)|
    ensures |Simulate(prior, data, signals, size, name)| == |prior| + |Holdings(signals, 0)|
    ensures var t := Simulate(prior, data, signals, size, name)[|prior| + k];
            var h := Holdings(signals, 0)[k];
            && signals[h.entry] == BUY
            && t.entryTime == data[h.entry].time && t.entryPrice == data[h.entry].close
            && t.exitTime == Some(data[h.exit].time) && t.exitPrice == Some(data[h.exit].close)
            && t.strategyName == name
  {
    SimulateIsRoundTrips(prior, data, signals, size, name);
    HoldingsShape(signals, 0);
  }

  /** Bar timestamps strictly increase. */
  predicate StrictlyIncreasing(data: seq<Bar>) {
    forall a, b :: 0 <= a < b < |data| ==> data[a].time < data[b].time
  }

  /** With increasing timestamps the added trades are in entry order, each exits
      no earlier than it entered, and each is closed before the next one opens. */
  lemma SimulateInTimeOrder(prior: seq<TradeRecord>, data: seq<Bar>, signals: seq<int>, size: real, name: string)
    requires |signals| == |data| && StrictlyIncreasing(data)
    ensures |prior| <= |Simulate(prior, data, signals, size, name)|
    ensures var ts := Simulate(prior, data, signals, size, name)[|prior|..];
            && (forall k :: 0 <= k < |ts| ==> ts[k].exitTime.Some? && ts[k].entryTime <= ts[k].exitTime.value)
            && (forall k, l :: 0 <= k < l < |ts| ==> ts[k].exitTime.Some? && ts[k].exitTime.value < ts[l].entryTime)
  {
    SimulateIsRoundTrips(prior, data, signals, size, name);
    HoldingsOrdered(signals, 0);
    var hs := Holdings(signals, 0);
    var ts := Simulate(prior, data, signals, size, name)[|prior|..];
    assert ts == RoundTrips(data, hs, size, name);
    forall k | 0 <= k < |ts| ensures ts[k].exitTime.Some? && ts[k].entryTime <= ts[k].exitTime.value {
      assert hs[k].entry <= hs[k].exit;
    }
    forall k, l | 0 <= k < l < |ts| ensures ts[k].exitTime.Some? && ts[k].exitTime.value < ts[l].entryTime {
      assert hs[k].exit < hs[l].entry;
    }
  }

  /** Without any BUY, in particular on empty data or an all-HOLD series, the run adds no trade. */
  lemma SimulateWithoutBuys(prior: seq<TradeRecord>, data: seq<Bar>, signals: seq<int>, size: real, name: string)
    requires |signals| == |data|
    requires forall i :: 0 <= i < |signals| ==> signals[i] != BUY
    ensures Simulate(prior, data, signals, size, name) == prior
  {
    SimulateIsRoundTrips(prior, data, signals, size, name);
    HoldingsNone(signals, 0);
  }

  // ------------------------------------------- a run on an engine already used

  /** `n` copies of one trade. */
  function Repeat(t: TradeRecord, n: nat): seq<TradeRecord>
  {
    seq(n, _ => t)
  }

  /**
   * The engine between runs. `run` closes a trade still open after the last
   * bar and appends it, but leaves it in the slot; `held` is the number of
   * entries at the end of the list that are that trade (0 when the slot is
   * empty). The slot's trade is then the last entry.
   */
  datatype Desk = Desk(trades: seq<TradeRecord>, held: nat)

  predicate Coherent(d: Desk, data: seq<Bar>)
  {
    d.held <= |d.trades| && (d.held > 0 ==> |data| > 0)
  }

  /** The held trade closed again at `bar` and appended once more: each of the
      `held` entries that are already that trade shows the new exit too. */
  function Reclose(trades: seq<TradeRecord>, held: nat, bar: Bar, size: real): (r: seq<TradeRecord>)
    requires 0 < held <= |trades|
    ensures |r| == |trades| + 1
  {
    trades[..|trades| - held] + Repeat(Closed(trades[|trades| - 1], bar.time, bar.close, size), held + 1)
  }

  /** The rest of a run from bar k in engine state e: the trade list at the end,
      and whether the slot still holds the force-closed trade. */
  function Outcome(e: Engine, data: seq<Bar>, signals: seq<int>, k: nat, size: real, name: string): (r: Desk)
    requires |signals| == |data| && k <= |data| && (e.current.Some? ==> |data| > 0)
    ensures Coherent(r, data)
    ensures r.held <= 1
  {
    var w := Walk(e, data, signals, k, size, name);
    Desk(Finish(w, data, size), if w.current.Some? then 1 else 0)
  }

  /**
   * `run` as written, on an engine in state d. With an empty slot this is
   * Simulate. With a held trade, every BUY is ignored up to the first SELL,
   * which closes the held trade again at that bar and empties the slot; the
   * rest of the run is then an ordinary one. With no SELL at all, the forced
   * close closes the held trade again at the last bar and it stays held.
   */
  function RunAsWritten(d: Desk, data: seq<Bar>, signals: seq<int>, size: real, name: string): (r: Desk)
    requires |signals| == |data| && Coherent(d, data)
    ensures Coherent(r, data)
    ensures d.held == 0 ==> r.trades == Simulate(d.trades, data, signals, size, name)
  {
    if d.held == 0 then
      Outcome(Engine(None, d.trades), data, signals, 0, size, name)
    else
      var j := NextIndex(signals, 0, SELL);
      if j == |data| then Desk(Reclose(d.trades, d.held, data[|data| - 1], size), d.held + 1)
      else Outcome(Engine(None, Reclose(d.trades, d.held, data[j], size)), data, signals, j + 1, size, name)
  }

  /** One bar of the rest of a run. */
  lemma OutcomeStep(e: Engine, data: seq<Bar>, signals: seq<int>, i: nat, size: real, name: string)
    requires |signals| == |data| && i < |data|
    ensures Outcome(e, data, signals, i, size, name)
         == Outcome(Step(e, data[i], signals[i], size, name), data, signals, i + 1, size, name)
  {
  }

  /** After the last bar only the forced close is left. */
  lemma OutcomeAtEnd(e: Engine, data: seq<Bar>, signals: seq<int>, size: real, name: string)
    requires |signals| == |data| && (e.current.Some? ==> |data| > 0)
    ensures Outcome(e, data, signals, |data|, size, name)
         == Desk(Finish(e, data, size), if e.current.Some? then 1 else 0)
  {
  }

  /** With a held trade and the first SELL at bar i, the run goes on from bar
      i + 1 with the held trade closed again and the slot empty. */
  lemma RunAsWrittenAtSale(d: Desk, data: seq<Bar>, signals: seq<int>, i: nat, size: real, name: string)
    requires |signals| == |data| && Coherent(d, data) && d.held > 0
    requires i < |data| && signals[i] == SELL && forall k :: 0 <= k < i ==> signals[k] != SELL
    ensures RunAsWritten(d, data, signals, size, name)
         == Outcome(Engine(None, Reclose(d.trades, d.held, data[i], size)), data, signals, i + 1, size, name)
  {
    assert NextIndex(signals, 0, SELL) == i;
  }

  /** With a held trade and no SELL, the run only closes the held trade again
      at the last bar, and it stays held. */
  lemma RunAsWrittenWithoutSale(d: Desk, data: seq<Bar>, signals: seq<int>, size: real, name: string)
    requires |signals| == |data| && Coherent(d, data) && d.held > 0
    requires forall k :: 0 <= k < |signals| ==> signals[k] != SELL
    ensures RunAsWritten(d, data, signals, size, name)
         == Desk(Reclose(d.trades, d.held, data[|data| - 1], size), d.held + 1)
  {
    assert NextIndex(signals, 0, SELL) == |signals|;
  }

  /** A second run re-closes the trade the first one left in the slot: at the
      first SELL of the run, or at the last bar when there is none. The trades
      before it stay, and it now fills one more entry of the list. */
  lemma RunAsWrittenReclosesHeld(d: Desk, data: seq<Bar>, signals: seq<int>, size: real, name: string)
    requires |signals| == |data| && Coherent(d, data) && d.held > 0
    ensures var j := NextIndex(signals, 0, SELL);
            var b := if j < |data| then j else |data| - 1;
            var r := RunAsWritten(d, data, signals, size, name);
            var c := Closed(d.trades[|d.trades| - 1], data[b].time, data[b].close, size);
            && |d.trades| < |r.trades|
            && r.trades[..|d.trades| - d.held] == d.trades[..|d.trades| - d.held]
            && (forall k :: |d.trades| - d.held <= k <= |d.trades| ==> r.trades[k] == c)
  {
    var j := NextIndex(signals, 0, SELL);
    if j < |data| {
      var p := Reclose(d.trades, d.held, data[j], size);
      FlatWalkIsRoundTrips(p, data, signals, j + 1, size, name);
      var r := RunAsWritten(d, data, signals, size, name);
      assert r.trades[..|p|] == p;
    }
  }

  /** Every run, as written, keeps all trades in the list closed and consistent. */
  lemma RunAsWrittenSettles(d: Desk, data: seq<Bar>, signals: seq<int>, size: real, name: string)
    requires |signals| == |data| && Coherent(d, data) && AllSettled(d.trades, size)
    ensures AllSettled(RunAsWritten(d, data, signals, size, name).trades, size)
  {
    if d.held == 0 {
      SimulateSettles(d.trades, data, signals, size, name);
    } else {
      var j := NextIndex(signals, 0, SELL);
      var b := if j < |data| then j else |data| - 1;
      var p := Reclose(d.trades, d.held, data[b], size);
      assert AllSettled(p, size) by {
        forall k | 0 <= k < |p| ensures IsSettled(p[k], size) {
          if k < |d.trades| - d.held {
            assert p[k] == d.trades[k];
          }
        }
      }
      if j < |data| {
        FlatWalkIsRoundTrips(p, data, signals, j + 1, size, name);
      }
    }
  }
}
