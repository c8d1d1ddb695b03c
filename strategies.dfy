/**
 * The per-bar signal rules of the two strategies. The indicator series
 * (MACD line, its EMA, RSI, EMA of the close) are inputs here: the numerics
 * that produce them are not part of this model.
 *
 * A signal series is produced as pandas does it: a series of zeros, then
 * one masked assignment `signals[mask] = value` per rule, in program order.
 */
module Strategies {

  /** An indicator value: a real number, or NaN (the warm-up bars of a
      rolling window, or 0/0 in the RSI ratio). */
  datatype Num = NaN | Val(v: real)

  /** Elementwise `>` on indicator values: false when either side is NaN. */
  predicate Gt(a: Num, b: Num) {
    a.Val? && b.Val? && a.v > b.v
  }

  /** Elementwise `<` on indicator values: false when either side is NaN. */
  predicate Lt(a: Num, b: Num) {
    a.Val? && b.Val? && a.v < b.v
  }

  const BUY: int := 1
  const SELL: int := -1
  const HOLD: int := 0

  /** Default thresholds of the RSI-EMA strategy. */
  const DEFAULT_RSI_OVERSOLD: real := 30.0
  const DEFAULT_RSI_OVERBOUGHT: real := 70.0

  predicate IsSignal(x: int) {
    x == BUY || x == SELL || x == HOLD
  }

  /** What every strategy promises: one signal per bar, each BUY, SELL or HOLD. */
  predicate IsSignalSeries(s: seq<int>, bars: nat) {
    |s| == bars && forall i :: 0 <= i < |s| ==> IsSignal(s[i])
  }

  /** `pd.Series(0, index=...)`: a HOLD for every bar. */
  function Zeros(n: nat): seq<int> {
    seq(n, _ => HOLD)
  }

  /** `series[mask] = value`: the positions where the mask holds are overwritten. */
  function Where(s: seq<int>, mask: seq<bool>, value: int): seq<int>
    requires |mask| == |s|
  {
    seq(|s|, k requires 0 <= k < |s| => if mask[k] then value else s[k])
  }

  /** The masked assignment, in place on the signal array. */
  method AssignWhere(a: array<int>, mask: seq<bool>, value: int)
    requires |mask| == a.Length
    modifies a
    ensures a[..] == Where(old(a[..]), mask, value)
  {
    var i := 0;
    while i < a.Length
      invariant 0 <= i <= a.Length
      invariant forall k :: 0 <= k < i ==> a[k] == if mask[k] then value else old(a[k])
      invariant forall k :: i <= k < a.Length ==> a[k] == old(a[k])
    {
      if mask[i] {
        a[i] := value;
      }
      i := i + 1;
    }
  }

  /** Two masked assignments whose masks never overlap can be done in either order. */
  lemma WhereCommutes(s: seq<int>, m1: seq<bool>, v1: int, m2: seq<bool>, v2: int)
    requires |m1| == |s| && |m2| == |s|
    requires forall k :: 0 <= k < |s| ==> !(m1[k] && m2[k])
    ensures Where(Where(s, m1, v1), m2, v2) == Where(Where(s, m2, v2), m1, v1)
  {
    var a, b := Where(Where(s, m1, v1), m2, v2), Where(Where(s, m2, v2), m1, v1);
    assert |a| == |b|;
    forall k | 0 <= k < |s| ensures a[k] == b[k] {
    }
  }

  // ---------------------------------------------------------------- MACD

  /** The MACD buy condition at one bar: the MACD line is above its EMA. */
  predicate MACDBuys(macd: Num, ema: Num) {
    Gt(macd, ema)
  }

  /** The MACD sell condition at one bar: the MACD line is below its EMA. */
  predicate MACDSells(macd: Num, ema: Num) {
    Lt(macd, ema)
  }

  function MACDBuyMask(macd: seq<Num>, ema: seq<Num>): seq<bool>
    requires |macd| == |ema|
  {
    seq(|macd|, i requires 0 <= i < |macd| => MACDBuys(macd[i], ema[i]))
  }

  function MACDSellMask(macd: seq<Num>, ema: seq<Num>): seq<bool>
    requires |macd| == |ema|
  {
    seq(|macd|, i requires 0 <= i < |macd| => MACDSells(macd[i], ema[i]))
  }

  /**
   * The MACD series in the source's order of writes. Each bar is BUY exactly
   * when the MACD line is above its EMA, SELL exactly when it is below, and
   * HOLD when neither comparison holds (equal values, or a NaN on either side).
   */
  function MACDSignalSeries(macd: seq<Num>, ema: seq<Num>): (r: seq<int>)
    requires |macd| == |ema|
    ensures IsSignalSeries(r, |macd|)
    ensures forall i :: 0 <= i < |r| ==> (r[i] == BUY <==> MACDBuys(macd[i], ema[i]))
    ensures forall i :: 0 <= i < |r| ==> (r[i] == SELL <==> MACDSells(macd[i], ema[i]))
    ensures forall i :: 0 <= i < |r| ==>
              (r[i] == HOLD <==> !MACDBuys(macd[i], ema[i]) && !MACDSells(macd[i], ema[i]))
  {
    Where(Where(Zeros(|macd|), MACDBuyMask(macd, ema), BUY), MACDSellMask(macd, ema), SELL)
  }

  /** `MACDStrategy.generate_signals`, given the MACD line and its EMA. */
  method MACDGenerateSignals(macdLine: seq<Num>, macdEma: seq<Num>) returns (signals: array<int>)
    requires |macdLine| == |macdEma|
    ensures signals[..] == MACDSignalSeries(macdLine, macdEma)
  {
    signals := new int[|macdLine|](_ => HOLD);
    assert signals[..] == Zeros(|macdLine|);
    AssignWhere(signals, MACDBuyMask(macdLine, macdEma), BUY);
    AssignWhere(signals, MACDSellMask(macdLine, macdEma), SELL);
  }

  /** The two MACD masks are disjoint, so the order of the two writes does not matter. */
  lemma MACDWriteOrderIrrelevant(macd: seq<Num>, ema: seq<Num>)
    requires |macd| == |ema|
    ensures MACDSignalSeries(macd, ema)
         == Where(Where(Zeros(|macd|), MACDSellMask(macd, ema), SELL), MACDBuyMask(macd, ema), BUY)
  {
    WhereCommutes(Zeros(|macd|), MACDBuyMask(macd, ema), BUY, MACDSellMask(macd, ema), SELL);
  }

  /** A bar's MACD signal depends only on that bar's two indicator values. */
  lemma MACDSignalIsLocal(macd: seq<Num>, ema: seq<Num>, macd': seq<Num>, ema': seq<Num>, i: nat)
    requires |macd| == |ema| == |macd'| == |ema'|
    requires i < |macd| && macd[i] == macd'[i] && ema[i] == ema'[i]
    ensures MACDSignalSeries(macd, ema)[i] == MACDSignalSeries(macd', ema')[i]
  {
  }

  // ------------------------------------------------------------- RSI-EMA

  /** The RSI-EMA buy condition at one bar: RSI above the oversold level and
      the close above its EMA. */
  predicate RSIEMABuys(rsi: Num, close: real, ema: Num, oversold: real) {
    Gt(rsi, Val(oversold)) && Gt(Val(close), ema)
  }

  /** The RSI-EMA sell condition at one bar: RSI above the overbought level or
      the close below its EMA. */
  predicate RSIEMASells(rsi: Num, close: real, ema: Num, overbought: real) {
    Gt(rsi, Val(overbought)) || Lt(Val(close), ema)
  }

  function RSIEMABuyMask(rsi: seq<Num>, close: seq<real>, ema: seq<Num>, oversold: real): seq<bool>
    requires |rsi| == |close| == |ema|
  {
    seq(|rsi|, i requires 0 <= i < |rsi| => RSIEMABuys(rsi[i], close[i], ema[i], oversold))
  }

  function RSIEMASellMask(rsi: seq<Num>, close: seq<real>, ema: seq<Num>, overbought: real): seq<bool>
    requires |rsi| == |close| == |ema|
  {
    seq(|rsi|, i requires 0 <= i < |rsi| => RSIEMASells(rsi[i], close[i], ema[i], overbought))
  }

  /**
   * The RSI-EMA series in the source's order of writes: the sell mask is
   * written last, so a bar is SELL whenever the sell condition holds, BUY
   * exactly when the buy condition holds and the sell condition does not,
   * and HOLD exactly when neither holds.
   */
  function RSIEMASignalSeries(rsi: seq<Num>, close: seq<real>, ema: seq<Num>,
                              oversold: real, overbought: real): (r: seq<int>)
    requires |rsi| == |close| == |ema|
    ensures IsSignalSeries(r, |rsi|)
    ensures forall i :: 0 <= i < |r| ==>
              (r[i] == SELL <==> RSIEMASells(rsi[i], close[i], ema[i], overbought))
    ensures forall i :: 0 <= i < |r| ==>
              (r[i] == BUY <==> RSIEMABuys(rsi[i], close[i], ema[i], oversold)
                                && !RSIEMASells(rsi[i], close[i], ema[i], overbought))
    ensures forall i :: 0 <= i < |r| ==>
              (r[i] == HOLD <==> !RSIEMABuys(rsi[i], close[i], ema[i], oversold)
                                 && !RSIEMASells(rsi[i], close[i], ema[i], overbought))
  {
    Where(Where(Zeros(|rsi|), RSIEMABuyMask(rsi, close, ema, oversold), BUY),
          RSIEMASellMask(rsi, close, ema, overbought), SELL)
  }

  /** `RSIEMAStrategy.generate_signals`, given the RSI, the closes and the EMA of the closes. */
  method RSIEMAGenerateSignals(rsi: seq<Num>, close: seq<real>, ema: seq<Num>,
                               rsiOversold: real, rsiOverbought: real)
    returns (signals: array<int>)
    requires |rsi| == |close| == |ema|
    ensures signals[..] == RSIEMASignalSeries(rsi, close, ema, rsiOversold, rsiOverbought)
  {
    signals := new int[|rsi|](_ => HOLD);
    assert signals[..] == Zeros(|rsi|);
    AssignWhere(signals, RSIEMABuyMask(rsi, close, ema, rsiOversold), BUY);
    AssignWhere(signals, RSIEMASellMask(rsi, close, ema, rsiOverbought), SELL);
  }

  /**
   * The order of the RSI-EMA writes matters: on a bar where RSI is above
   * both thresholds and the close is above its EMA, both conditions hold;
   * the source's order gives SELL, the reverse order would give BUY.
   */
  lemma RSIEMAWriteOrderMatters()
    ensures var rsi, close, ema := [Val(80.0)], [2.0], [Val(1.0)];
            && RSIEMASignalSeries(rsi, close, ema, DEFAULT_RSI_OVERSOLD, DEFAULT_RSI_OVERBOUGHT) == [SELL]
            && Where(Where(Zeros(1), RSIEMASellMask(rsi, close, ema, DEFAULT_RSI_OVERBOUGHT), SELL),
                     RSIEMABuyMask(rsi, close, ema, DEFAULT_RSI_OVERSOLD), BUY) == [BUY]
  {
    var rsi, close, ema := [Val(80.0)], [2.0], [Val(1.0)];
    assert RSIEMABuyMask(rsi, close, ema, DEFAULT_RSI_OVERSOLD) == [true];
    assert RSIEMASellMask(rsi, close, ema, DEFAULT_RSI_OVERBOUGHT) == [true];
  }

  /** A bar's RSI-EMA signal depends only on that bar's RSI, close and EMA. */
  lemma RSIEMASignalIsLocal(rsi: seq<Num>, close: seq<real>, ema: seq<Num>,
                            rsi': seq<Num>, close': seq<real>, ema': seq<Num>,
                            oversold: real, overbought: real, i: nat)
    requires |rsi| == |close| == |ema| == |rsi'| == |close'| == |ema'|
    requires i < |rsi| && rsi[i] == rsi'[i] && close[i] == close'[i] && ema[i] == ema'[i]
    ensures RSIEMASignalSeries(rsi, close, ema, oversold, overbought)[i]
         == RSIEMASignalSeries(rsi', close', ema', oversold, overbought)[i]
  {
  }
}
