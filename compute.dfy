/** The current signal builder, `worker/engine/compute.py`: candle normalisation,
    the last ATR, the indicator vote (from 60 closes), the target and gain
    formulas, the historical hit rate, the qualitative tiers and `build_signal`,
    which always yields LONG or SHORT. */
module Compute {
  import opened Common
  import opened Indicators
  import opened SignalRules

  /** A signal as `build_signal` returns it. */
  datatype Signal = Signal(par: string, side: Side, atual: real, alvo: real, ganhoPct: real,
                           assertPct: real, prazo: Prazo, zona: string, risco: string,
                           prioridade: string)

  // ------------------------------------------------------------- _to_ohlc_list

  /** A raw candle row: each cell is the value `float()` makes of it, or None
      where `float()` fails.  A row shorter than four cells fails on indexing. */
  type RawRow = seq<Option<real>>

  predicate WellFormed(row: RawRow) {
    |row| >= 4 && row[0].Some? && row[1].Some? && row[2].Some? && row[3].Some?
  }

  function CandleOf(row: RawRow): Candle
    requires WellFormed(row)
  {
    Candle(row[0].value, row[1].value, row[2].value, row[3].value)
  }

  /** The rows that normalise, in order, each as a candle of its first four cells. */
  function ToOhlc(rows: seq<RawRow>): (r: seq<Candle>)
    ensures |r| <= |rows|
  {
    if rows == [] then []
    else
      var last := rows[|rows| - 1];
      ToOhlc(rows[..|rows| - 1]) + (if WellFormed(last) then [CandleOf(last)] else [])
  }

  /** `_to_ohlc_list`: one pass that keeps well-formed rows and skips the rest. */
  method ToOhlcList(rows: seq<RawRow>) returns (out: seq<Candle>)
    ensures out == ToOhlc(rows)
  {
    out := [];
    var i := 0;
    while i < |rows|
      invariant 0 <= i <= |rows|
      invariant out == ToOhlc(rows[..i])
    {
      assert rows[..i + 1][..i] == rows[..i];
      if WellFormed(rows[i]) {
        out := out + [CandleOf(rows[i])];
      }
      i := i + 1;
    }
    assert rows[..|rows|] == rows;
  }

  /** Nothing is dropped exactly when every row is well formed. */
  lemma {:induction false} ToOhlcKeepsAll(rows: seq<RawRow>)
    ensures |ToOhlc(rows)| == |rows| <==> forall i :: 0 <= i < |rows| ==> WellFormed(rows[i])
  {
    if rows != [] {
      var init := rows[..|rows| - 1];
      ToOhlcKeepsAll(init);
      assert forall i :: 0 <= i < |init| ==> init[i] == rows[i];
    }
  }

  /** `c` is the normalisation of some well-formed row of `rows`. */
  predicate FromSomeRow(c: Candle, rows: seq<RawRow>) {
    exists i :: 0 <= i < |rows| && WellFormed(rows[i]) && c == CandleOf(rows[i])
  }

  /** Every output candle is the normalisation of some well-formed input row. */
  lemma {:induction false} ToOhlcFromRows(rows: seq<RawRow>)
    ensures forall k :: 0 <= k < |ToOhlc(rows)| ==> FromSomeRow(ToOhlc(rows)[k], rows)
  {
    if rows != [] {
      var init := rows[..|rows| - 1];
      ToOhlcFromRows(init);
      var r := ToOhlc(rows);
      forall k | 0 <= k < |r| ensures FromSomeRow(r[k], rows) {
        if k < |ToOhlc(init)| {
          assert r[k] == ToOhlc(init)[k];
          var i :| 0 <= i < |init| && WellFormed(init[i]) && r[k] == CandleOf(init[i]);
          assert rows[i] == init[i];
        } else {
          assert WellFormed(rows[|rows| - 1]) && r[k] == CandleOf(rows[|rows| - 1]);
        }
      }
    }
  }

  // ------------------------------------------------------------ series access

  /** `_atr_last`: 0 below `period + 2` candles, else the last ATR value, never negative. */
  function AtrLast(ohlc: seq<Candle>, period: nat): (r: real)
    requires period > 0
    ensures r >= 0.0
    ensures |ohlc| < period + 2 ==> r == 0.0
    ensures |ohlc| >= period + 2 ==>
      r == Last(AtrSeries(Highs(ohlc), Lows(ohlc), Closes(ohlc), period))
  {
    if |ohlc| < period + 2 then 0.0
    else
      var a := AtrSeries(Highs(ohlc), Lows(ohlc), Closes(ohlc), period);
      AtrNonnegative(Highs(ohlc), Lows(ohlc), Closes(ohlc), period);
      if a == [] then 0.0 else Last(a)
  }

  // ------------------------------------------------------------------ direction

  /** `direction_from_indicators`: no entry below 60 closes, otherwise the vote
      on the last EMA20, EMA50, RSI14 and close. */
  function Direction(closes: seq<real>): (r: (Side, real))
    ensures |closes| < 60 ==> r == (NoEntry, 0.0)
    ensures |closes| >= 60 ==>
      r == Vote(Last(EmaSeries(closes, 20)), Last(EmaSeries(closes, 50)), Last(RsiSeries(closes, 14)), Last(closes))
    ensures 0.0 <= r.1 <= 1.0
  {
    if |closes| < 60 then (NoEntry, 0.0)
    else
      var e20, e50, rs := EmaSeries(closes, 20), EmaSeries(closes, 50), RsiSeries(closes, 14);
      if e20 == [] || e50 == [] || rs == [] then (NoEntry, 0.0)
      else Vote(Last(e20), Last(e50), Last(rs), Last(closes))
  }

  // ------------------------------------------------------------ target and gain

  /** `compute_gain_pct`: the move from `atual` to `alvo` in percent of `atual`,
      signed by side; 0 for a non-positive price or target, or no side. */
  function GainPct(atual: real, alvo: real, side: Side): (g: real)
    ensures atual <= 0.0 || alvo <= 0.0 || side == NoEntry ==> g == 0.0
    ensures atual > 0.0 && alvo > 0.0 && side == Long ==> (g >= 0.0 <==> alvo >= atual)
    ensures atual > 0.0 && alvo > 0.0 && side == Short ==> (g >= 0.0 <==> alvo <= atual)
  {
    if atual <= 0.0 || alvo <= 0.0 then 0.0
    else if side == Long then ((alvo - atual) / atual) * 100.0
    else if side == Short then ((atual - alvo) / atual) * 100.0
    else 0.0
  }

  /** A SHORT gain is the LONG gain with the sign turned. */
  lemma GainShortIsNegatedLong(atual: real, alvo: real)
    ensures GainPct(atual, alvo, Short) == -GainPct(atual, alvo, Long)
  {
  }

  /** The minimum target distance: the ATR, or `gainMinPct` percent of the price if more. */
  function TargetDistance(atual: real, atrVal: real, gainMinPct: real): (d: real)
    ensures d >= atrVal && d >= atual * (gainMinPct / 100.0)
    ensures d == atrVal || d == atual * (gainMinPct / 100.0)
  {
    Max(atrVal, atual * (gainMinPct / 100.0))
  }

  /** `compute_target_price`: 0 without a price, `atual` for no side, otherwise
      the price moved by the minimum distance, a SHORT target floored at 1e-12. */
  function TargetPrice(atual: real, atrVal: real, side: Side, gainMinPct: real): (t: real)
    ensures atual <= 0.0 ==> t == 0.0
    ensures atual > 0.0 && side == NoEntry ==> t == atual
    ensures atual > 0.0 && side == Long ==> t == atual + TargetDistance(atual, atrVal, gainMinPct)
    ensures atual > 0.0 && side == Short ==>
      t >= 0.000000000001 && t == Max(0.000000000001, atual - TargetDistance(atual, atrVal, gainMinPct))
  {
    if atual <= 0.0 then 0.0
    else
      var dist := TargetDistance(atual, atrVal, gainMinPct);
      if side == Long then atual + dist
      else if side == Short then Max(0.000000000001, atual - dist)
      else atual
  }

  /** A LONG target built from a non-negative ATR and floor promises at least the floor. */
  lemma LongTargetMeetsFloor(atual: real, atrVal: real, gainMinPct: real)
    requires atual > 0.0 && atrVal >= 0.0 && gainMinPct >= 0.0
    ensures GainPct(atual, TargetPrice(atual, atrVal, Long, gainMinPct), Long) >= gainMinPct
  {
    var dist := TargetDistance(atual, atrVal, gainMinPct);
    var alvo := TargetPrice(atual, atrVal, Long, gainMinPct);
    assert alvo - atual == dist;
    PercentOfAtLeast(dist, atual, gainMinPct);
  }

  /** A SHORT target promises at least the floor unless the 1e-12 floor cut it short. */
  lemma ShortTargetMeetsFloor(atual: real, atrVal: real, gainMinPct: real)
    requires atual > 0.0 && atrVal >= 0.0 && gainMinPct >= 0.0
    requires atual - TargetDistance(atual, atrVal, gainMinPct) >= 0.000000000001
    ensures GainPct(atual, TargetPrice(atual, atrVal, Short, gainMinPct), Short) >= gainMinPct
  {
    var dist := TargetDistance(atual, atrVal, gainMinPct);
    var alvo := TargetPrice(atual, atrVal, Short, gainMinPct);
    assert atual - alvo == dist;
    PercentOfAtLeast(dist, atual, gainMinPct);
  }

  /** d >= a * (g / 100) with a > 0 gives (d / a) * 100 >= g. */
  lemma PercentOfAtLeast(d: real, a: real, g: real)
    requires a > 0.0 && d >= a * (g / 100.0)
    ensures (d / a) * 100.0 >= g
  {
    assert (d / a) * a == d;
    DivideOutPositive(g / 100.0, d / a, a);
  }

  // ------------------------------------------------------------ hit-rate replay

  /** `mfe_mae_assert`: replays the last (up to) 180 candles, skipping entries
      whose window is empty, and returns the clamped success rate. */
  method MfeMaeAssert(ohlc: seq<Candle>, side: Side, targetDist: real, atrVal: real, lookahead: nat)
    returns (r: real)
    ensures r == AssertPct(ohlc, side, targetDist, atrVal, lookahead)
  {
    if !side.Directional() {
      return 0.0;
    }
    if |ohlc| < 120 {
      return 50.0;
    }
    var maeLimit := 1.0 * atrVal;
    var successes: nat := 0;
    var total: nat := 0;
    var start, end := Start(|ohlc|), End(|ohlc|, lookahead);
    var i := start;
    while i < end
      invariant start <= i && (start <= end ==> i <= end)
      invariant end < start ==> i == start && total == 0
      invariant lookahead == 0 ==> total == 0
      invariant lookahead > 0 ==> total == i - start
      invariant lookahead > 0 && start <= end ==>
        successes == Successes(ohlc, side, targetDist, maeLimit, lookahead, start, i)
    {
      successes, total := ReplayEntry(ohlc, side, targetDist, maeLimit, lookahead, start, i, successes, total);
      i := i + 1;
    }
    if total <= 0 {
      return 50.0;
    }
    r := Clamp(0.0, 100.0, (successes as real / total as real) * 100.0);
  }

  /** The loop body of `mfe_mae_assert` at entry `i`: an empty window is
      skipped, otherwise the entry is one more trial and maybe one more success. */
  method ReplayEntry(ohlc: seq<Candle>, side: Side, targetDist: real, maeLimit: real, lookahead: nat,
                     start: nat, i: nat, successes0: nat, total0: nat)
    returns (successes: nat, total: nat)
    requires start <= i < End(|ohlc|, lookahead)
    requires lookahead == 0 ==> total0 == 0
    requires lookahead > 0 ==> total0 == i - start
    requires lookahead > 0 ==> successes0 == Successes(ohlc, side, targetDist, maeLimit, lookahead, start, i)
    ensures lookahead == 0 ==> total == 0
    ensures lookahead > 0 ==> total == i + 1 - start
    ensures lookahead > 0 ==> successes == Successes(ohlc, side, targetDist, maeLimit, lookahead, start, i + 1)
  {
    successes, total := successes0, total0;
    var window := ohlc[i + 1..i + 1 + lookahead];
    if window != [] {
      assert window == Window(ohlc, i, lookahead);
      if Success(side, ohlc[i].close, window, targetDist, maeLimit) {
        successes := successes + 1;
      }
      total := total + 1;
    }
  }

  // ------------------------------------------------------------ qualitatives

  /** `classify_qualitatives`: risk by ATR percent (<= 0.02, <= 0.05), zone by
      strength (>= 0.66, >= 0.33), and a priority that needs all three to be good. */
  function ClassifyQualitatives(strength: real, atrPct: real, gainPct: real): (r: (string, string, string))
    ensures r.1 == BAIXO <==> atrPct <= 0.02
    ensures r.1 == MEDIO <==> 0.02 < atrPct <= 0.05
    ensures r.1 == ALTO <==> atrPct > 0.05
    ensures r.0 == ALTA <==> strength >= 0.66
    ensures r.0 == MEDIA <==> 0.33 <= strength < 0.66
    ensures r.0 == BAIXA <==> strength < 0.33
    ensures r.2 == ALTA <==> gainPct >= 6.0 && r.0 == ALTA && r.1 == BAIXO
    ensures r.2 == MEDIA <==> r.2 != ALTA && gainPct >= 4.0 && r.0 != BAIXA && r.1 != ALTO
    ensures r.2 in {ALTA, MEDIA, BAIXA}
  {
    var risco := if atrPct <= 0.02 then BAIXO else if atrPct <= 0.05 then MEDIO else ALTO;
    var zona := if strength >= 0.66 then ALTA else if strength >= 0.33 then MEDIA else BAIXA;
    var prioridade :=
      if gainPct >= 6.0 && zona == ALTA && risco == BAIXO then ALTA
      else if gainPct >= 4.0 && zona != BAIXA && risco != ALTO then MEDIA
      else BAIXA;
    (zona, risco, prioridade)
  }

  /** Rank of a priority: ALTA 2, MÉDIA 1, anything else 0. */
  function PriorityRank(p: string): nat { if p == ALTA then 2 else if p == MEDIA then 1 else 0 }

  /** A larger gain never lowers the priority of the same strength and volatility. */
  lemma PriorityMonotoneInGain(strength: real, atrPct: real, g1: real, g2: real)
    requires g1 <= g2
    ensures PriorityRank(ClassifyQualitatives(strength, atrPct, g1).2)
         <= PriorityRank(ClassifyQualitatives(strength, atrPct, g2).2)
  {
  }

  // ------------------------------------------------------------- build_signal

  /** The price: the mark when positive, else the last 4h close, else the last 1h close. */
  function Price(mark: real, c4: seq<real>, c1: seq<real>): (p: Option<real>)
    ensures mark > 0.0 ==> p == Some(mark)
    ensures mark <= 0.0 && c4 != [] ==> p == Some(Last(c4))
    ensures mark <= 0.0 && c4 == [] && c1 != [] ==> p == Some(Last(c1))
    ensures p == None <==> mark <= 0.0 && c4 == [] && c1 == []
  {
    if mark > 0.0 then Some(mark)
    else if c4 != [] then Some(Last(c4))
    else if c1 != [] then Some(Last(c1))
    else None
  }

  /** The side: the 4h vote, else the 1h vote, else the direction of the last
      move of the 4h closes, else of the 1h closes, else LONG. */
  function ChooseSide(c4: seq<real>, c1: seq<real>): (s: Side)
    ensures s != NoEntry
    ensures Direction(c4).0 != NoEntry ==> s == Direction(c4).0
    ensures Direction(c4).0 == NoEntry && Direction(c1).0 != NoEntry ==> s == Direction(c1).0
  {
    var d4, d1 := Direction(c4).0, Direction(c1).0;
    if d4 != NoEntry then d4
    else if d1 != NoEntry then d1
    else if |c4| >= 2 then (if c4[|c4| - 1] >= c4[|c4| - 2] then Long else Short)
    else if |c1| >= 2 then (if c1[|c1| - 1] >= c1[|c1| - 2] then Long else Short)
    else Long
  }

  /** The ATR the target uses: 4h, else 1h, else 0.3% of the price. */
  function EffectiveAtr(o4: seq<Candle>, o1: seq<Candle>, atual: real): (a: real)
    ensures a >= 0.0 || atual < 0.0
    ensures atual > 0.0 ==> a > 0.0
    ensures AtrLast(o4, 14) > 0.0 ==> a == AtrLast(o4, 14)
  {
    var a4 := AtrLast(o4, 14);
    var a := if a4 > 0.0 then a4 else AtrLast(o1, 14);
    if a <= 0.0 && atual > 0.0 then atual * 0.003 else a
  }

  /** `_fmt_prazo` on a number of hours: blank when not positive. */
  function FmtPrazo(hours: real): (p: Prazo)
    ensures p == Blank <==> hours <= 0.0
    ensures p != Blank ==> p == Hours(hours)
  {
    if hours <= 0.0 then Blank else Hours(hours)
  }

  /** `build_signal`: always LONG or SHORT, the qualitatives always blank, a
      hit rate in [0, 100] and a time-to-target between half an hour and
      twelve hours (a dash only when there is no price at all). */
  function BuildSignal(par: string, raw1h: seq<RawRow>, raw4h: seq<RawRow>, mark: real,
                       gainMinPct: real): (r: Signal)
    ensures r.side != NoEntry
    ensures r.zona == "" && r.risco == "" && r.prioridade == ""
    ensures 0.0 <= r.assertPct <= 100.0
    ensures r.prazo == Dash <==> Price(mark, Closes(ToOhlc(raw4h)), Closes(ToOhlc(raw1h))) == None
    ensures r.prazo != Dash ==> r.prazo.Hours? && 0.5 <= r.prazo.h <= 12.0
    ensures r.prazo == Dash ==> r == Signal(par, Long, 0.0, 0.0, 0.0, 0.0, Dash, "", "", "")
    ensures r.prazo != Dash ==>
      r.atual == Price(mark, Closes(ToOhlc(raw4h)), Closes(ToOhlc(raw1h))).value
    ensures r.atual > 0.0 && r.side == Long && gainMinPct >= 0.0 ==> r.ganhoPct >= gainMinPct
  {
    var o1, o4 := ToOhlc(raw1h), ToOhlc(raw4h);
    var c1, c4 := Closes(o1), Closes(o4);
    match Price(mark, c4, c1)
    case None => Signal(par, Long, 0.0, 0.0, 0.0, 0.0, Dash, "", "", "")
    case Some(atual) =>
      var side := ChooseSide(c4, c1);
      var atrVal := EffectiveAtr(o4, o1, atual);
      var alvo := TargetPrice(atual, atrVal, side, gainMinPct);
      var ganho := GainPct(atual, alvo, side);
      var assertPct := if o4 != [] then AssertPct(o4, side, Abs(alvo - atual), atrVal, 12) else 0.0;
      var hours := Max(0.5, 12.0 / Max(1.0, ganho));
      HoursWithin(ganho);
      LongGainMeetsFloor(atual, atrVal, side, gainMinPct);
      Signal(par, side, atual, alvo, ganho, assertPct, FmtPrazo(hours), "", "", "")
  }

  lemma LongGainMeetsFloor(atual: real, atrVal: real, side: Side, gainMinPct: real)
    ensures atual > 0.0 && atrVal >= 0.0 && side == Long && gainMinPct >= 0.0 ==>
      GainPct(atual, TargetPrice(atual, atrVal, side, gainMinPct), side) >= gainMinPct
  {
    if atual > 0.0 && atrVal >= 0.0 && side == Long && gainMinPct >= 0.0 {
      LongTargetMeetsFloor(atual, atrVal, gainMinPct);
    }
  }

  lemma HoursWithin(ganho: real)
    ensures 0.5 <= Max(0.5, 12.0 / Max(1.0, ganho)) <= 12.0
  {
    var g := Max(1.0, ganho);
    assert (12.0 / g) * g == 12.0;
    DivideOutPositive(12.0 / g, 12.0, g);
  }
}
