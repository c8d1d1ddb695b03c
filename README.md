# Strategy backtester: a Dafny model of the signal rules and the trade engine

This project models the core of a small backtester for rule-based trading
strategies. Two strategies turn indicator series into a signal per bar
(1 = BUY, -1 = SELL, 0 = HOLD). The backtesting engine then walks the bars
in order. It holds at most one open trade, opens it on a BUY, closes it on a
SELL, and force-closes a trade still open after the last bar. Closed trades
go into an append-only list, and four performance metrics are computed from
that list.

Modules, one per part of the program:

- `Strategies` (strategies.dfy): the MACD and RSI-EMA rules. A signal series
  starts as zeros and is then overwritten in place by masked assignments on an
  `array<int>`, in the source's order. Indicator values are `Num = NaN | Val(real)`.
  Every comparison with a NaN is false, as in pandas.
- `Trades` (trades.dfy): the `Trade` class with its two lifecycle steps. The
  `TradeRecord` datatype holds a trade's values, and `Opened` and `Closed`
  describe the two steps on those values.
- `Simulation` (simulation.dfy): what `run` computes, as functions. `Step` is
  one bar of the loop, `Walk` is the loop, `Finish` is the forced close, and
  `Simulate` is the whole run. There is also an independent description of the
  same result, found by searching the signal series: enter at the next BUY,
  exit at the next SELL after it, or at the last bar if none follows
  (`NextIndex`, `Holdings`, `RoundTrips`). The theorem `SimulateIsRoundTrips`
  proves the two agree. The other run properties follow from the search
  description. `RunAsWritten` is `run` on an engine that has run before: the
  code leaves the force-closed trade in the slot (see "## Findings"), so the
  between-runs state `Desk` records how many trailing list entries are that
  trade.
- `Performance` (performance.dfy): `get_performance_metrics` as pure functions.
- `Backtesting` (backtester.dfy): the `Backtester` class. It has the data,
  the position size and the strategy name, an append-only `trades: seq<Trade>`
  of trade objects and a `currentTrade: Trade?` slot. The ghost field `held`
  counts the trailing list entries that are the slot's object, since
  appending the slot's trade and later closing it again changes every one of
  those entries. `Run` is a `while` loop over the bars. Its postcondition ties
  the new state to `RunAsWritten`, and on an empty slot the new trade list to
  `Simulate`.
- `Scenarios` (scenarios.dfy): worked runs with their metrics, one scenario run
  twice both as written and as evidently intended, and the same two runs
  driven through the `Backtester` object.
- `Wrappers` (wrappers.dfy): `Option`.

Where the documentation and the code disagree, the model follows the code:

- The strategy docstrings speak of the MACD line "crossing" its EMA and of RSI
  "crossing" a level (src/strategies.py:80-81, 146-147). The code compares the
  two levels at each bar (src/strategies.py:105-106, 168, 172), and so does the model.
- The RSI-EMA class comment says it buys when RSI < 30 (src/strategies.py:114-116).
  The code buys when `rsi > rsi_oversold` (src/strategies.py:168), and so does the model.
- When the RSI-EMA buy and sell conditions both hold on a bar, the sell write
  comes last and wins. This order is kept, and `RSIEMAWriteOrderMatters` shows
  an input on which the other order would give a different signal.

The default position size 1.0 of `Backtester.__init__` and `Trade.close_trade`
(src/backtester.py:96, 45) is `Trades.DEFAULT_POSITION_SIZE`, the default value
of the `positionSize` parameter of the constructor and of `CloseTrade`.

Prices, pnl and metrics are `real`: the engine only subtracts, multiplies,
adds and divides, so exact arithmetic gives the intended values. Timestamps
are `int`.

## Model

| member | source | states |
|---|---|---|
| `Strategies.AssignWhere` | src/strategies.py:105-106 | the masked assignment `signals[mask] = value` overwrites exactly the masked positions of the array and leaves the others as they were |
| `Strategies.WhereCommutes` | src/strategies.py:105-106 | two masked assignments whose masks never overlap give the same series in either order |
| `Strategies.MACDSignalSeries` | src/strategies.py:104-106 | one signal per bar, each in {1, -1, 0}; a bar is BUY iff macd > ema, SELL iff macd < ema, and HOLD iff neither holds (equal values, or a NaN) |
| `Strategies.MACDGenerateSignals` | src/strategies.py:74-108 | the zero-filled array, written with the buy mask and then the sell mask, ends up holding the MACD series |
| `Strategies.MACDWriteOrderIrrelevant` | src/strategies.py:105-106 | the MACD buy and sell masks are disjoint, so swapping the two writes gives the same series |
| `Strategies.MACDSignalIsLocal` | src/strategies.py:105-106 | a bar's MACD signal depends only on the two indicator values at that bar |
| `Strategies.RSIEMASignalSeries` | src/strategies.py:165-173 | one signal per bar, each in {1, -1, 0}; SELL iff (rsi > overbought or close < ema); BUY iff (rsi > oversold and close > ema) and the sell condition is false; HOLD iff neither condition holds |
| `Strategies.RSIEMAGenerateSignals` | src/strategies.py:140-175 | the zero-filled array, written with the buy mask and then the sell mask, ends up holding the RSI-EMA series |
| `Strategies.RSIEMAWriteOrderMatters` | src/strategies.py:168-173 | on a bar where both conditions hold (rsi 80, close above ema, default thresholds) the source's order gives SELL and the reversed order would give BUY |
| `Strategies.RSIEMASignalIsLocal` | src/strategies.py:168-173 | a bar's RSI-EMA signal depends only on that bar's rsi, close and ema |
| `Trades.Closed` | src/backtester.py:58-63 | closing sets both exit fields to the arguments, pnl = (exit - entry) * size, status WIN iff pnl > 0 and LOSS otherwise, and keeps the entry fields and strategy name |
| `Trades.FlatTradeIsLoss` | src/backtester.py:61-63 | a trade closed at its entry price has pnl 0 and status LOSS |
| `Trades.Trade.constructor` | src/backtester.py:24-43 | a new trade has the given entry time, entry price and strategy name, no exit time or price, pnl 0 and status OPEN |
| `Trades.Trade.CloseTrade` | src/backtester.py:45-63 | the object's exit fields, pnl and status become those of `Closed` applied to its old values |
| `Simulation.Step` | src/backtester.py:136-152 | one bar appends at most one trade, never changes the trades already closed, and never replaces an open trade by another |
| `Simulation.StepTransitions` | src/backtester.py:137-152 | the transition table: with no open trade exactly a BUY opens one at the bar's time and close; with an open trade exactly a SELL closes it there and appends it; every other case changes nothing |
| `Simulation.Walk` | src/backtester.py:133-152 | after the loop a trade is open only if one was open before it or some bar was processed |
| `Simulation.Finish` | src/backtester.py:154-163 | with no open trade the list is unchanged; otherwise exactly one trade is appended after the unchanged list, closed and consistent, with its entry kept and the last bar's time and close as exit |
| `Simulation.Simulate` | src/backtester.py:133-163 | a run from an empty slot keeps the earlier trades, unchanged, in front of the ones it adds |
| `Simulation.SimulateIsRoundTrips` | src/backtester.py:133-163 | the run appends exactly the search description's trades: for each holding (entry at the next BUY with no position, exit at the next SELL after it or at the last bar) one trade closed at those bars |
| `Simulation.HoldingsOrdered` | src/backtester.py:137-152 | the holdings are in entry order and each starts after the previous one ended, so at most one position is ever open |
| `Simulation.HoldingsShape` | src/backtester.py:137-163 | every holding enters on a BUY and exits at the first SELL after it or, when no SELL follows, at the last bar |
| `Simulation.HoldingsCoverBuys` | src/backtester.py:137-142 | every BUY bar lies within some holding: a BUY is ignored only while a position is open |
| `Simulation.SimulateSettles` | src/backtester.py:145-163 | every trade in the list after the run is closed, with pnl by the formula and status WIN or LOSS |
| `Simulation.SimulateAppends` | src/backtester.py:145-163 | the run adds one trade per holding after the earlier trades and leaves those unchanged |
| `Simulation.SimulateTradesAtBars` | src/backtester.py:138-163 | each added trade enters at the close of its BUY bar and exits at the close of its exit bar, with those bars' timestamps and the strategy name |
| `Simulation.SimulateInTimeOrder` | src/backtester.py:133-163 | with increasing timestamps, each added trade exits no earlier than it entered and before the next one enters |
| `Simulation.SimulateWithoutBuys` | src/backtester.py:133-163 | without a BUY (empty data or all HOLD) the run adds no trade |
| `Simulation.SimulateTwice` | src/backtester.py:133-163 | with the slot emptied after the forced close, a second run on the same bars appends the same trades as the first: the list is the earlier trades followed by that run's trades twice |
| `Simulation.Outcome` | src/backtester.py:133-163 | the rest of a run leaves at most one list entry that is the slot's trade, and only when there are bars |
| `Simulation.RunAsWritten` | src/backtester.py:115-163 | the between-runs state stays coherent (the held entries are at the end of the list, and there is a held trade only when there are bars); with an empty slot the new list is `Simulate` of the old one |
| `Simulation.RunAsWrittenReclosesHeld` | src/backtester.py:137-163 | a run on an engine that kept its trade closes that trade again at the first SELL or, without one, at the last bar; the entries before it stay, and every entry that was that trade, plus one more, now shows the new exit |
| `Simulation.RunAsWrittenSettles` | src/backtester.py:145-163 | every run, also one on an engine that kept its trade, leaves every trade in the list closed with the pnl and status its exit implies |
| `Backtesting.Backtester.constructor` | src/backtester.py:96-113 | the data, strategy name and position size (1.0 when not given) are as given, the trade list is empty and no trade is open |
| `Backtesting.Backtester.ProcessBar` | src/backtester.py:134-152 | with an empty slot one iteration changes the engine state as `Step` does; with the trade of an earlier run in the slot nothing changes except on a SELL, which closes that trade again at the bar (every list entry that is it shows the new exit), appends it and empties the slot |
| `Backtesting.Backtester.ProcessBars` | src/backtester.py:133-152 | after the loop the state is where `RunAsWritten` puts it before the forced close: with an empty slot the `Walk` of the old state; with a still-held trade the list unchanged |
| `Backtesting.Backtester.CloseAndAppend` | src/backtester.py:145-151 | `close_trade` on the slot's trade then appending it: one more list entry is that object, and every entry that is it shows the new exit while the entries before them stay |
| `Backtesting.Backtester.CloseInPlace` | src/backtester.py:146-150 | closing the slot's trade changes the value of exactly the list entries that are that object |
| `Backtesting.Backtester.AppendSlot` | src/backtester.py:151 | appending the slot's trade adds one entry, that object, at the end of the list |
| `Backtesting.Backtester.CloseOpenTrade` | src/backtester.py:154-163 | a trade still in the slot is closed at the last bar's time and close and appended, and it stays in the slot; with an empty slot at the start the list becomes `Finish` of the state; with a trade kept from an earlier run every entry that is it shows the new exit |
| `Backtesting.Backtester.Run` | src/backtester.py:115-168 | all trades stay closed and consistent, earlier trade objects stay in place, the new state is `RunAsWritten` of the old one, on an empty slot the trade list becomes `Simulate` of the old one, and a trade left in the slot is the last entry of the list |
| `Backtesting.Backtester.GetPerformanceMetrics` | src/backtester.py:170-202 | the metrics of the object's trade list: the count is the list's length, the total pnl its pnl sum, and on closed trades the win rate is 100 times the trades marked WIN over the count |
| `Backtesting.SimulateTotalPnl` | src/backtester.py:195 | the total pnl after a run from an empty slot is the total before it plus the pnl of the trades the run adds |
| `Performance.PerformanceMetrics` | src/backtester.py:170-202 | no trades gives (0, 0.0, 0.0, 0.0); otherwise the count, a win rate in [0, 100] equal to 100 * #(pnl > 0) / count, the pnl sum, and an average equal to sum / count |
| `Performance.WinnersAtMostTotal` | src/backtester.py:193-194 | the number of trades with pnl > 0 is at most the number of trades |
| `Performance.WinnersAreWins` | src/backtester.py:58-63 | on closed trades the winners counted by pnl are exactly the trades marked WIN, and all others are marked LOSS |
| `Performance.TotalPnlAppend` | src/backtester.py:195 | the pnl total of two concatenated trade lists is the sum of their totals |
| `Scenarios.ScenarioSellThenForcedClose` | src/backtester.py:133-163 | closes 10, 12, 9, 15, 11 with BUY, HOLD, SELL, BUY, HOLD give two LOSS trades (pnl -1, then pnl -4 force-closed at the last bar) and metrics (2, 0, -5, -2.5) |
| `Scenarios.ScenarioAllHold` | src/backtester.py:184-190 | all-HOLD signals give no trades and all-zero metrics |
| `Scenarios.ScenarioBuyOnLastBar` | src/backtester.py:155-163 | a BUY on the last bar only is closed at once at the same price, pnl 0, status LOSS |
| `Scenarios.ScenarioSecondRun` | src/backtester.py:133-163 | the first scenario run twice on one engine, as written: the second run re-closes the kept trade at bar 2, before its entry at bar 3, with pnl -6; the list holds it twice, and the metrics are (4, 0, -17, -4.25) |
| `Scenarios.ScenarioSecondRunCorrected` | src/backtester.py:133-163 | the same two runs with the slot emptied after each forced close: the list is the first run's two trades twice, and the metrics are (4, 0, -10, -2.5) |

## Findings

| source | as written | input that shows it | evidently intended | confidence | as-written member | corrected member |
|---|---|---|---|---|---|---|
| src/backtester.py:154-163 | the forced close appends the open trade but never sets `current_trade` back to `None`, unlike the SELL branch at line 152, so the engine keeps a closed trade in its slot | one engine, closes 10, 12, 9, 15, 11 with BUY, HOLD, SELL, BUY, HOLD, run twice: the second run ignores the BUY at bar 0, closes the kept trade again at bar 2 (exit before entry, pnl -6, and the entry from the first run changes too), then opens and force-closes a new one; total pnl -17 instead of -10 | empty the slot after the forced close, so that every run appends the trades of its own bars only | medium; not executed | `Scenarios.ScenarioSecondRun` | `Simulation.SimulateTwice` |

The `Backtester` class follows the code as written: its `Run` is proved
against `RunAsWritten`, which keeps the slot. `Simulate` is the run with the
slot emptied at the end, and `SimulateTwice` proves the intended property for
it. The two agree on every run that starts with an empty slot, such as the
first run of a new engine: `RunAsWritten` and `Run` both state that the new
trade list is then `Simulate` of the old one. The run properties proved about
`Simulate` (the `Simulation.Simulate...` rows above) therefore hold for the
code as written on such a run. `ScenarioSecondRunCorrected` shows the
corrected result on the input above.

## Left out

- Indicator numerics (src/indicators.py: EMA, MACD, RSI) are not modelled. Their outputs are inputs to the signal rules, and a NaN is a possible value. The strategies' period parameters only feed those numerics, so they do not appear. The RSI thresholds do appear, with defaults 30 and 70.
- `Backtester.run` as modelled takes the strategy's signal series as an argument instead of calling `generate_signals`, because the indicators it needs are not modelled. The index-aligned lookup `signals[timestamp]` becomes the precondition that there is one signal per bar.
- The strategy name is a constructor argument, not obtained by reflection on the strategy object.
- Object identity in the trade list is captured only through the ghost count `held` of trailing entries that are the slot's object. The model does not track other aliasing, which the code never creates.
- `Backtesting.Backtester.Run` and `Backtesting.Backtester.ProcessBar` work on exact reals. They do not model floating-point rounding of prices, pnl or the metrics division.
- Close prices are plain reals: a NaN close (bad input data) is not modelled.
- The conversion of trades to dictionaries and to a DataFrame (`to_dict`, src/backtester.py:65-83 and 166) is output formatting and is left out. `Run` therefore returns nothing, and its result is the trade list.
- Data fetching from the exchange (src/data_fetcher.py), and report writing and printing (main.py), are network and file I/O. docs/md_to_docx.py generates documents. None of these are part of this model.
- The abstract `Strategy` base class (src/strategies.py:11-43) is not a Dafny type. Its contract, one signal in {1, -1, 0} per bar, is the predicate `Strategies.IsSignalSeries`, which both strategies' series functions ensure. `Run` accepts any integers and treats values other than 1 and -1 as HOLD, as the source's comparisons do.
