/** The indicator library: EMA, RSI and ATR over price series.  Each is a loop
    that appends to its output (as the source does), proved equal to a
    specification function defined index by index. */
module Indicators {
  import opened Common

  // ---------------------------------------------------------------- EMA

  /** Smoothing factor 2 / (period + 1). */
  function Smoothing(period: nat): (k: real)
    requires period > 1
    ensures 0.0 < k < 1.0
  {
    2.0 / (period as real + 1.0)
  }

  /** The j-th EMA value: the mean of the first `period` values, then one
      smoothing step per further value. */
  function EmaAt(values: seq<real>, period: nat, j: nat): real
    requires 1 < period <= |values| && j <= |values| - period
    decreases j
  {
    if j == 0 then Sum(values[..period]) / period as real
    else EmaNext(EmaAt(values, period, j - 1), values[period + j - 1], period)
  }

  /** One smoothing step: prev + (v - prev) * k. */
  function EmaNext(prev: real, v: real, period: nat): real
    requires period > 1
  {
    (v - prev) * Smoothing(period) + prev
  }

  /** The EMA series: empty when there are fewer values than `period` or when
      `period <= 1`, otherwise one value per position from `period - 1` on. */
  function EmaSeries(values: seq<real>, period: int): (r: seq<real>)
    ensures |values| < period || period <= 1 <==> r == []
    ensures r != [] ==> |r| == |values| - period + 1
  {
    if |values| < period || period <= 1 then []
    else seq(|values| - period + 1, j requires 0 <= j <= |values| - period => EmaAt(values, period, j))
  }

  method Ema(values: seq<real>, period: int) returns (out: seq<real>)
    ensures out == EmaSeries(values, period)
  {
    if |values| < period || period <= 1 {
      return [];
    }
    var sma := Sum(values[..period]) / period as real;
    out := [sma];
    var prev := sma;
    var i := period;
    while i < |values|
      invariant period <= i <= |values|
      invariant |out| == i - period + 1
      invariant forall j :: 0 <= j < |out| ==> out[j] == EmaAt(values, period, j)
      invariant prev == EmaAt(values, period, i - period)
    {
      prev := EmaNext(prev, values[i], period);
      out := out + [prev];
      i := i + 1;
    }
    EmaByIndex(values, period, out);
  }

  lemma EmaByIndex(values: seq<real>, period: int, out: seq<real>)
    requires 1 < period <= |values| && |out| == |values| - period + 1
    requires forall j :: 0 <= j < |out| ==> out[j] == EmaAt(values, period, j)
    ensures out == EmaSeries(values, period)
  {
  }

  /** The seed is the simple average and every later value is
      prev + (v - prev) * 2 / (period + 1). */
  lemma EmaRecurrence(values: seq<real>, period: int, j: nat)
    requires EmaSeries(values, period) != [] && j < |EmaSeries(values, period)|
    ensures var r := EmaSeries(values, period);
      && (j == 0 ==> r[0] == Sum(values[..period]) / period as real)
      && (j > 0 ==> r[j] == r[j - 1] + (values[period + j - 1] - r[j - 1]) * 2.0 / (period as real + 1.0))
  {
  }

  lemma ConvexStep(prev: real, v: real, k: real, lo: real, hi: real)
    requires 0.0 <= k <= 1.0 && lo <= prev <= hi && lo <= v <= hi
    ensures lo <= (v - prev) * k + prev <= hi
  {
    assert (v - prev) * k + prev - lo == (prev - lo) * (1.0 - k) + (v - lo) * k;
    assert hi - ((v - prev) * k + prev) == (hi - prev) * (1.0 - k) + (hi - v) * k;
    MulNonnegative(prev - lo, 1.0 - k);
    MulNonnegative(v - lo, k);
    MulNonnegative(hi - prev, 1.0 - k);
    MulNonnegative(hi - v, k);
  }

  lemma MulNonnegative(a: real, b: real)
    requires a >= 0.0 && b >= 0.0
    ensures a * b >= 0.0
  {
  }

  lemma {:induction false} EmaAtWithin(values: seq<real>, period: nat, j: nat, lo: real, hi: real)
    requires 1 < period <= |values| && j <= |values| - period
    requires forall i :: 0 <= i < |values| ==> lo <= values[i] <= hi
    ensures lo <= EmaAt(values, period, j) <= hi
  {
    if j == 0 {
      MeanBounds(values[..period], lo, hi);
    } else {
      EmaAtWithin(values, period, j - 1, lo, hi);
      ConvexStep(EmaAt(values, period, j - 1), values[period + j - 1], Smoothing(period), lo, hi);
    }
  }

  /** Every EMA value lies between the smallest and the largest input value. */
  lemma EmaWithin(values: seq<real>, period: int, lo: real, hi: real)
    requires forall i :: 0 <= i < |values| ==> lo <= values[i] <= hi
    ensures forall j :: 0 <= j < |EmaSeries(values, period)| ==> lo <= EmaSeries(values, period)[j] <= hi
  {
    var r := EmaSeries(values, period);
    forall j | 0 <= j < |r| ensures lo <= r[j] <= hi {
      EmaAtWithin(values, period as nat, j, lo, hi);
    }
  }

  // ------------------------------------------------ Wilder average (RSI, ATR)

  /** The j-th Wilder-smoothed average of `xs`: the mean of the first `period`
      entries, then (prev * (period - 1) + x) / period per further entry. */
  function Wilder(xs: seq<real>, period: nat, j: nat): real
    requires 0 < period && period + j <= |xs|
    decreases j
  {
    if j == 0 then Sum(xs[..period]) / period as real
    else WilderStep(Wilder(xs, period, j - 1), xs[period + j - 1], period)
  }

  function WilderStep(prev: real, x: real, period: nat): real
    requires period > 0
  {
    (prev * (period - 1) as real + x) / period as real
  }

  /** All Wilder averages of `xs`, one per entry from the `period`-th on. */
  function WilderSeries(xs: seq<real>, period: nat): (r: seq<real>)
    requires 0 < period <= |xs|
    ensures |r| == |xs| - period + 1
  {
    seq(|xs| - period + 1, j requires 0 <= j <= |xs| - period => Wilder(xs, period, j))
  }

  /** The smoothing loop shared by `rsi` and `atr`: seed with the mean, then one
      Wilder step per further entry. */
  method WilderAverages(xs: seq<real>, period: nat) returns (out: seq<real>)
    requires 0 < period <= |xs|
    ensures out == WilderSeries(xs, period)
  {
    var prev := Sum(xs[..period]) / period as real;
    out := [prev];
    var i := period;
    while i < |xs|
      invariant period <= i <= |xs|
      invariant |out| == i - period + 1
      invariant prev == Wilder(xs, period, i - period)
      invariant forall j :: 0 <= j < |out| ==> out[j] == Wilder(xs, period, j)
    {
      prev := WilderStep(prev, xs[i], period);
      out := out + [prev];
      i := i + 1;
    }
  }

  lemma {:induction false} SumNonnegative(s: seq<real>)
    requires forall i :: 0 <= i < |s| ==> s[i] >= 0.0
    ensures Sum(s) >= 0.0
  {
    if s != [] {
      SumNonnegative(s[..|s| - 1]);
    }
  }

  lemma {:induction false} SumZero(s: seq<real>)
    requires forall i :: 0 <= i < |s| ==> s[i] == 0.0
    ensures Sum(s) == 0.0
  {
    if s != [] {
      SumZero(s[..|s| - 1]);
    }
  }

  lemma {:induction false} WilderNonnegative(xs: seq<real>, period: nat, j: nat)
    requires 0 < period && period + j <= |xs|
    requires forall i :: 0 <= i < |xs| ==> xs[i] >= 0.0
    ensures Wilder(xs, period, j) >= 0.0
  {
    if j == 0 {
      SumNonnegative(xs[..period]);
    } else {
      WilderNonnegative(xs, period, j - 1);
      var prev := Wilder(xs, period, j - 1);
      MulNonnegative(prev, (period - 1) as real);
    }
  }

  lemma {:induction false} WilderZero(xs: seq<real>, period: nat, j: nat)
    requires 0 < period && period + j <= |xs|
    requires forall i :: 0 <= i < |xs| ==> xs[i] == 0.0
    ensures Wilder(xs, period, j) == 0.0
  {
    if j == 0 {
      SumZero(xs[..period]);
    } else {
      WilderZero(xs, period, j - 1);
    }
  }

  // ---------------------------------------------------------------- RSI

  function Gains(values: seq<real>): (g: seq<real>)
    ensures |g| == if values == [] then 0 else |values| - 1
  {
    if values == [] then []
    else seq(|values| - 1, i requires 0 <= i < |values| - 1 => Max(0.0, values[i + 1] - values[i]))
  }

  function Losses(values: seq<real>): (l: seq<real>)
    ensures |l| == if values == [] then 0 else |values| - 1
  {
    if values == [] then []
    else seq(|values| - 1, i requires 0 <= i < |values| - 1 => Max(0.0, -(values[i + 1] - values[i])))
  }

  /** 100 - 100 / (1 + gain/loss), and 100 when the average loss is zero. */
  function RsiValue(avgGain: real, avgLoss: real): (r: real)
    requires avgGain >= 0.0 && avgLoss >= 0.0
    ensures 0.0 <= r <= 100.0
    ensures avgLoss == 0.0 ==> r == 100.0
  {
    if avgLoss == 0.0 then 100.0
    else
      var rs := avgGain / avgLoss;
      assert rs >= 0.0;
      var q := 100.0 / (1.0 + rs);
      assert q * (1.0 + rs) == 100.0;
      assert 0.0 < q <= 100.0;
      100.0 - q
  }

  lemma GainsLossesNonnegative(values: seq<real>)
    ensures forall i :: 0 <= i < |Gains(values)| ==> Gains(values)[i] >= 0.0
    ensures forall i :: 0 <= i < |Losses(values)| ==> Losses(values)[i] >= 0.0
  {
  }

  /** The j-th RSI value from the rise and fall lists: `calc` of the j-th Wilder
      average of each. */
  function RsiAt(gains: seq<real>, losses: seq<real>, period: nat, j: nat): (r: real)
    requires 0 < period && period + j <= |gains| == |losses|
    requires forall i :: 0 <= i < |gains| ==> gains[i] >= 0.0 && losses[i] >= 0.0
    ensures 0.0 <= r <= 100.0
  {
    WilderNonnegative(gains, period, j);
    WilderNonnegative(losses, period, j);
    RsiValue(Wilder(gains, period, j), Wilder(losses, period, j))
  }

  /** The RSI series: empty when there are at most `period` values, otherwise
      one value in [0, 100] per value after the first `period`. */
  function RsiSeries(values: seq<real>, period: nat): (r: seq<real>)
    requires period > 0
    ensures |values| <= period <==> r == []
    ensures r != [] ==> |r| == |values| - period
    ensures forall j :: 0 <= j < |r| ==> 0.0 <= r[j] <= 100.0
  {
    if |values| <= period then []
    else
      GainsLossesNonnegative(values);
      var gains, losses := Gains(values), Losses(values);
      seq(|values| - period, j requires 0 <= j < |values| - period => RsiAt(gains, losses, period, j))
  }

  method Rsi(values: seq<real>, period: nat) returns (out: seq<real>)
    requires period > 0
    ensures out == RsiSeries(values, period)
  {
    if |values| <= period {
      return [];
    }
    var gains, losses := Changes(values);
    GainsLossesNonnegative(values);
    out := SmoothedRsi(gains, losses, period);
  }

  /** The second loop of `rsi`: both averages advance together, one RSI value per step. */
  method SmoothedRsi(gains: seq<real>, losses: seq<real>, period: nat) returns (out: seq<real>)
    requires 0 < period <= |gains| == |losses|
    requires forall i :: 0 <= i < |gains| ==> gains[i] >= 0.0 && losses[i] >= 0.0
    ensures |out| == |gains| - period + 1
    ensures forall j :: 0 <= j < |out| ==> out[j] == RsiAt(gains, losses, period, j)
  {
    var avgGain := Sum(gains[..period]) / period as real;
    var avgLoss := Sum(losses[..period]) / period as real;
    WilderNonnegative(gains, period, 0);
    WilderNonnegative(losses, period, 0);
    out := [RsiValue(avgGain, avgLoss)];
    var i := period;
    while i < |gains|
      invariant period <= i <= |gains|
      invariant |out| == i - period + 1
      invariant avgGain == Wilder(gains, period, i - period)
      invariant avgLoss == Wilder(losses, period, i - period)
      invariant forall j :: 0 <= j < |out| ==> out[j] == RsiAt(gains, losses, period, j)
    {
      avgGain := WilderStep(avgGain, gains[i], period);
      avgLoss := WilderStep(avgLoss, losses[i], period);
      WilderNonnegative(gains, period, i - period + 1);
      WilderNonnegative(losses, period, i - period + 1);
      out := out + [RsiValue(avgGain, avgLoss)];
      i := i + 1;
    }
  }

  /** The per-step rises and falls of a series, as two lists (the first loop of `rsi`). */
  method Changes(values: seq<real>) returns (gains: seq<real>, losses: seq<real>)
    ensures gains == Gains(values) && losses == Losses(values)
  {
    gains, losses := [], [];
    if values == [] {
      return;
    }
    var i := 1;
    while i < |values|
      invariant 1 <= i <= |values|
      invariant |gains| == |losses| == i - 1
      invariant forall k :: 0 <= k < i - 1 ==> gains[k] == Max(0.0, values[k + 1] - values[k])
      invariant forall k :: 0 <= k < i - 1 ==> losses[k] == Max(0.0, -(values[k + 1] - values[k]))
    {
      var ch := values[i] - values[i - 1];
      gains := gains + [Max(0.0, ch)];
      losses := losses + [Max(0.0, -ch)];
      i := i + 1;
    }
    GainsByIndex(values, gains);
    LossesByIndex(values, losses);
  }

  lemma GainsByIndex(values: seq<real>, g: seq<real>)
    requires values != [] && |g| == |values| - 1
    requires forall k :: 0 <= k < |g| ==> g[k] == Max(0.0, values[k + 1] - values[k])
    ensures g == Gains(values)
  {
  }

  lemma LossesByIndex(values: seq<real>, l: seq<real>)
    requires values != [] && |l| == |values| - 1
    requires forall k :: 0 <= k < |l| ==> l[k] == Max(0.0, -(values[k + 1] - values[k]))
    ensures l == Losses(values)
  {
  }

  /** A series that never falls has zero average loss, so every RSI value is 100. */
  lemma RsiOfNonDecreasing(values: seq<real>, period: nat)
    requires period > 0
    requires forall i :: 0 < i < |values| ==> values[i - 1] <= values[i]
    ensures forall j :: 0 <= j < |RsiSeries(values, period)| ==> RsiSeries(values, period)[j] == 100.0
  {
    if |values| > period {
      var g, l := Gains(values), Losses(values);
      GainsLossesNonnegative(values);
      assert forall i :: 0 <= i < |l| ==> l[i] == 0.0;
      var r := RsiSeries(values, period);
      forall j | 0 <= j < |r| ensures r[j] == 100.0 {
        WilderZero(l, period, j);
        assert r[j] == RsiAt(g, l, period, j);
      }
    }
  }

  // ---------------------------------------------------------------- ATR

  /** max(h - l, |h - prevClose|, |l - prevClose|). */
  function TrueRange(h: real, l: real, prevClose: real): (tr: real)
    ensures tr >= 0.0
    ensures tr >= h - l && tr >= Abs(h - prevClose) && tr >= Abs(l - prevClose)
    ensures tr == h - l || tr == Abs(h - prevClose) || tr == Abs(l - prevClose)
  {
    Max(Max(h - l, Abs(h - prevClose)), Abs(l - prevClose))
  }

  function TrueRanges(high: seq<real>, low: seq<real>, close: seq<real>): (trs: seq<real>)
    requires |high| >= |close| && |low| >= |close|
    ensures |trs| == if close == [] then 0 else |close| - 1
    ensures forall i :: 0 <= i < |trs| ==> trs[i] >= 0.0
  {
    if close == [] then []
    else seq(|close| - 1, i requires 0 <= i < |close| - 1 => TrueRange(high[i + 1], low[i + 1], close[i]))
  }

  /** The ATR series: empty when there are fewer than `period + 1` closes,
      otherwise one non-negative value per close after the first `period`. */
  function AtrSeries(high: seq<real>, low: seq<real>, close: seq<real>, period: nat): (r: seq<real>)
    requires period > 0
    requires |close| >= period + 1 ==> |high| >= |close| && |low| >= |close|
    ensures |close| < period + 1 <==> r == []
    ensures r != [] ==> |r| == |close| - period
  {
    if |close| < period + 1 then [] else WilderSeries(TrueRanges(high, low, close), period)
  }

  /** The true ranges of a candle series (the first loop of `atr`). */
  method TrueRangeList(high: seq<real>, low: seq<real>, close: seq<real>) returns (trs: seq<real>)
    requires |high| >= |close| && |low| >= |close|
    ensures trs == TrueRanges(high, low, close)
  {
    trs := [];
    if close == [] {
      return;
    }
    var i := 1;
    while i < |close|
      invariant 1 <= i <= |close|
      invariant trs == TrueRanges(high, low, close)[..i - 1]
    {
      var tr := Max(Max(high[i] - low[i], Abs(high[i] - close[i - 1])), Abs(low[i] - close[i - 1]));
      assert TrueRanges(high, low, close)[..i] == TrueRanges(high, low, close)[..i - 1] + [tr];
      trs := trs + [tr];
      i := i + 1;
    }
  }

  method Atr(high: seq<real>, low: seq<real>, close: seq<real>, period: nat) returns (out: seq<real>)
    requires period > 0
    requires |close| >= period + 1 ==> |high| >= |close| && |low| >= |close|
    ensures out == AtrSeries(high, low, close, period)
  {
    if |close| < period + 1 {
      return [];
    }
    var trs := TrueRangeList(high, low, close);
    out := WilderAverages(trs, period);
  }

  /** Every ATR value is non-negative, because every true range is. */
  lemma AtrNonnegative(high: seq<real>, low: seq<real>, close: seq<real>, period: nat)
    requires period > 0
    requires |close| >= period + 1 ==> |high| >= |close| && |low| >= |close|
    ensures forall j :: 0 <= j < |AtrSeries(high, low, close, period)| ==> AtrSeries(high, low, close, period)[j] >= 0.0
  {
    var r := AtrSeries(high, low, close, period);
    forall j | 0 <= j < |r| ensures r[j] >= 0.0 {
      WilderNonnegative(TrueRanges(high, low, close), period, j);
    }
  }
}
