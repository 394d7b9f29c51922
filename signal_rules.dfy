/** The two rules both versions of `engine/compute.py` share word for word: the
    indicator vote of `direction_from_indicators` and the historical replay of
    `mfe_mae_assert`, here as specification functions.  The loops that compute
    the replay live in `Compute` and `ComputeEarly`, each proved equal to `AssertPct`. */
module SignalRules {
  import opened Common

  // ------------------------------------------------------------ direction vote

  /** The rule applied to the last EMA20, EMA50, RSI14 and close: LONG on an
      up-trend with RSI >= 55, SHORT on a down-trend with RSI <= 45, else no entry.
      The strength adds the RSI excess over 20 points to the EMA gap in units of
      1% of the last close, clamped to [0, 1]. */
  function Vote(ema20: real, ema50: real, rsi14: real, last: real): (r: (Side, real))
    ensures r.0 == Long <==> ema20 > ema50 && rsi14 >= 55.0
    ensures r.0 == Short <==> ema20 < ema50 && rsi14 <= 45.0
    ensures 0.0 <= r.1 <= 1.0
    ensures r.0 == NoEntry ==> r.1 == 0.0
  {
    var unit := Max(0.000000001, last * 0.01);
    if ema20 > ema50 && rsi14 >= 55.0 then
      (Long, Clamp(0.0, 1.0, Min(1.0, (rsi14 - 55.0) / 20.0 + (ema20 - ema50) / unit)))
    else if ema20 < ema50 && rsi14 <= 45.0 then
      (Short, Clamp(0.0, 1.0, Min(1.0, (45.0 - rsi14) / 20.0 + (ema50 - ema20) / unit)))
    else (NoEntry, 0.0)
  }

  /** An RSI 20 points past its threshold saturates the strength at 1,
      whatever the size of the EMA gap. */
  lemma VoteSaturates(ema20: real, ema50: real, rsi14: real, last: real)
    requires (ema20 > ema50 && rsi14 >= 75.0) || (ema20 < ema50 && rsi14 <= 25.0)
    ensures Vote(ema20, ema50, rsi14, last).1 == 1.0
  {
    var unit := Max(0.000000001, last * 0.01);
    var gap := if ema20 > ema50 then ema20 - ema50 else ema50 - ema20;
    assert gap / unit > 0.0;
  }

  // ------------------------------------------------------- historical replay

  /** Highest high of a non-empty window of candles. */
  function MaxHigh(w: seq<Candle>): (m: real)
    requires w != []
    ensures forall k :: 0 <= k < |w| ==> w[k].high <= m
    ensures exists k :: 0 <= k < |w| && w[k].high == m
  {
    if |w| == 1 then w[0].high
    else
      var m := MaxHigh(w[..|w| - 1]);
      assert forall k :: 0 <= k < |w| - 1 ==> w[..|w| - 1][k] == w[k];
      Max(m, w[|w| - 1].high)
  }

  /** Lowest low of a non-empty window of candles. */
  function MinLow(w: seq<Candle>): (m: real)
    requires w != []
    ensures forall k :: 0 <= k < |w| ==> m <= w[k].low
    ensures exists k :: 0 <= k < |w| && w[k].low == m
  {
    if |w| == 1 then w[0].low
    else
      var m := MinLow(w[..|w| - 1]);
      assert forall k :: 0 <= k < |w| - 1 ==> w[..|w| - 1][k] == w[k];
      Min(m, w[|w| - 1].low)
  }

  /** One replayed entry succeeds when, over the following window, the
      favourable excursion reaches the target distance and the adverse one stays
      within the limit.  LONG measures up from the close, SHORT down. */
  predicate Success(side: Side, entry: real, window: seq<Candle>, targetDist: real, maeLimit: real)
    requires window != []
  {
    var mfe := if side == Long then MaxHigh(window) - entry else entry - MinLow(window);
    var mae := if side == Long then entry - MinLow(window) else MaxHigh(window) - entry;
    mae <= maeLimit && mfe >= targetDist
  }

  /** First replayed entry: 60, or the 180th candle from the end if later. */
  function Start(n: nat): int { if 60 >= n - 180 then 60 else n - 180 }

  /** One past the last replayed entry: leaves room for the window and one more candle. */
  function End(n: nat, lookahead: nat): int { n - lookahead - 1 }

  function Window(ohlc: seq<Candle>, i: nat, lookahead: nat): (w: seq<Candle>)
    requires i + 1 + lookahead <= |ohlc|
    ensures |w| == lookahead
  {
    ohlc[i + 1..i + 1 + lookahead]
  }

  /** Number of successful entries among indices [lo, hi). */
  function Successes(ohlc: seq<Candle>, side: Side, targetDist: real, maeLimit: real,
                     lookahead: nat, lo: nat, hi: int): (c: nat)
    requires lookahead >= 1 && hi <= End(|ohlc|, lookahead)
    ensures c <= if hi <= lo then 0 else hi - lo
    decreases hi - lo
  {
    if hi <= lo then 0
    else
      Successes(ohlc, side, targetDist, maeLimit, lookahead, lo, hi - 1)
      + (if Success(side, ohlc[hi - 1].close, Window(ohlc, hi - 1, lookahead), targetDist, maeLimit) then 1 else 0)
  }

  /** The replayed hit rate in percent: 0 for a side that is not LONG/SHORT, 50
      without 120 candles or without a single complete window, else the share
      of successful entries among the last (up to) 180 candles. */
  function AssertPct(ohlc: seq<Candle>, side: Side, targetDist: real, atrVal: real, lookahead: nat): (r: real)
    ensures 0.0 <= r <= 100.0
    ensures !side.Directional() ==> r == 0.0
    ensures side.Directional() && |ohlc| < 120 ==> r == 50.0
    ensures side.Directional() && lookahead == 0 ==> r == 50.0
  {
    var n := |ohlc|;
    if !side.Directional() then 0.0
    else if n < 120 || lookahead == 0 then 50.0
    else
      var lo, hi := Start(n), End(n, lookahead);
      if hi <= lo then 50.0
      else
        var s := Successes(ohlc, side, targetDist, 1.0 * atrVal, lookahead, lo, hi);
        Clamp(0.0, 100.0, (s as real / (hi - lo) as real) * 100.0)
  }

  /** A larger target distance never yields more successes. */
  lemma {:induction false} SuccessesAntitone(ohlc: seq<Candle>, side: Side, d1: real, d2: real,
                                             maeLimit: real, lookahead: nat, lo: nat, hi: int)
    requires d1 <= d2
    requires lookahead >= 1 && hi <= End(|ohlc|, lookahead)
    ensures Successes(ohlc, side, d2, maeLimit, lookahead, lo, hi)
         <= Successes(ohlc, side, d1, maeLimit, lookahead, lo, hi)
    decreases hi - lo
  {
    if hi > lo {
      SuccessesAntitone(ohlc, side, d1, d2, maeLimit, lookahead, lo, hi - 1);
    }
  }

  /** So a farther target never raises the replayed hit rate. */
  lemma AssertPctAntitone(ohlc: seq<Candle>, side: Side, d1: real, d2: real, atrVal: real, lookahead: nat)
    requires d1 <= d2
    ensures AssertPct(ohlc, side, d2, atrVal, lookahead) <= AssertPct(ohlc, side, d1, atrVal, lookahead)
  {
    var n := |ohlc|;
    if side.Directional() && n >= 120 && lookahead > 0 && End(n, lookahead) > Start(n) {
      var lo, hi := Start(n), End(n, lookahead);
      SuccessesAntitone(ohlc, side, d1, d2, 1.0 * atrVal, lookahead, lo, hi);
      var s1 := Successes(ohlc, side, d1, 1.0 * atrVal, lookahead, lo, hi) as real;
      var s2 := Successes(ohlc, side, d2, 1.0 * atrVal, lookahead, lo, hi) as real;
      RatioMonotone(s2, s1, (hi - lo) as real);
    }
  }

  lemma RatioMonotone(a: real, b: real, t: real)
    requires a <= b && t > 0.0
    ensures Clamp(0.0, 100.0, (a / t) * 100.0) <= Clamp(0.0, 100.0, (b / t) * 100.0)
  {
    assert (a / t) * t == a && (b / t) * t == b;
    DivideOutPositive(a / t, b / t, t);
  }

  /** When every replayed entry fails, the rate is 0; when every one succeeds, 100. */
  lemma {:induction false} SuccessesExtremes(ohlc: seq<Candle>, side: Side, targetDist: real, maeLimit: real,
                                             lookahead: nat, lo: nat, hi: int, all: bool)
    requires lookahead >= 1 && lo <= hi <= End(|ohlc|, lookahead)
    requires forall i :: lo <= i < hi ==>
      Success(side, ohlc[i].close, Window(ohlc, i, lookahead), targetDist, maeLimit) == all
    ensures Successes(ohlc, side, targetDist, maeLimit, lookahead, lo, hi) == if all then hi - lo else 0
    decreases hi - lo
  {
    if hi > lo {
      SuccessesExtremes(ohlc, side, targetDist, maeLimit, lookahead, lo, hi - 1, all);
    }
  }
}
