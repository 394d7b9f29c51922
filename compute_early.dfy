/** The earlier signal builder, `worker.bkp_20260217_091859/engine/compute.py`:
    the 1h and 4h votes must agree, the target is 1.5 ATR away, a gain below the
    minimum means no entry, and a 24h vote may move the risk tier by one. */
module ComputeEarly {
  import opened Common
  import opened Sorting
  import opened Indicators
  import opened SignalRules
  import Compute

  datatype Signal = Signal(par: string, side: Side, mode: string, entrada: real, atual: real,
                           alvo: real, ganhoPct: real, prazo: Prazo, assertPct: real,
                           risco: string, prioridade: string, zona: string, priceSource: string)

  // ------------------------------------------------------------------ prazo

  /** `_fmt_prazo`: the midpoint of the two estimates, a dash when it is not positive. */
  function FmtPrazo(hoursMin: real, hoursMax: real): (p: Prazo)
    ensures p == Dash <==> (hoursMin + hoursMax) / 2.0 <= 0.0
    ensures p != Dash ==> p == Hours((hoursMin + hoursMax) / 2.0)
  {
    var h := (hoursMin + hoursMax) / 2.0;
    if h <= 0.0 then Dash else Hours(h)
  }

  /** The 0.8 / 1.2 band around an estimate has the estimate as its midpoint. */
  lemma PrazoBandMidpoint(hours: real)
    ensures FmtPrazo(hours * 0.8, hours * 1.2) == if hours <= 0.0 then Dash else Hours(hours)
  {
  }

  // -------------------------------------------------------------- direction

  /** `direction_from_indicators` without a length guard: no entry only when an
      indicator series is empty. */
  function Direction(closes: seq<real>): (r: (Side, real))
    ensures 0.0 <= r.1 <= 1.0
    ensures |closes| >= 50 ==>
      r == Vote(Last(EmaSeries(closes, 20)), Last(EmaSeries(closes, 50)), Last(RsiSeries(closes, 14)), Last(closes))
  {
    var e20, e50, rs := EmaSeries(closes, 20), EmaSeries(closes, 50), RsiSeries(closes, 14);
    if e20 == [] || e50 == [] || rs == [] then (NoEntry, 0.0)
    else Vote(Last(e20), Last(e50), Last(rs), Last(closes))
  }

  /** The vote needs 50 closes (EMA50 is empty below that). */
  lemma DirectionNeedsFifty(closes: seq<real>)
    requires |closes| < 50
    ensures Direction(closes) == (NoEntry, 0.0)
  {
    assert EmaSeries(closes, 50) == [];
  }

  /** From 60 closes on, this version and the current one give the same vote;
      they differ only for 50 to 59 closes, where the current one says no entry. */
  lemma SameDirectionFromSixty(closes: seq<real>)
    ensures |closes| >= 60 ==> Direction(closes) == Compute.Direction(closes)
    ensures |closes| < 60 ==> Compute.Direction(closes) == (NoEntry, 0.0)
  {
  }

  /** The side both timeframes agree on, or no entry. */
  function FinalSide(side1: Side, side4: Side): (s: Side)
    ensures s != NoEntry <==> side1 == side4 && side1 != NoEntry
    ensures s != NoEntry ==> s == side1
  {
    if side1 == side4 && side1 != NoEntry then side1 else NoEntry
  }

  /** The last 48 closes of the 1h series (all of them when there are fewer). */
  function Last48(closes: seq<real>): (t: seq<real>)
    ensures |t| <= 48
    ensures |closes| >= 48 ==> t == closes[|closes| - 48..]
    ensures |closes| < 48 ==> t == closes
  {
    if |closes| >= 48 then closes[|closes| - 48..] else closes
  }

  /** The 24h brake votes on at most 48 closes, too few for EMA50, so it always
      says no entry: the brake never moves the risk and zone is never ALTA. */
  lemma Side24NeverDirectional(closes1: seq<real>)
    ensures Direction(Last48(closes1)).0 == NoEntry
  {
    DirectionNeedsFifty(Last48(closes1));
  }

  // ------------------------------------------------------------------ mode

  datatype Mode = H1 | H4

  /** 1h mode only for an agreed side with a strong 1h vote and a positive 1h ATR. */
  function ChooseMode(sideFinal: Side, strength1: real, atr1: real): (m: Mode)
    ensures m == H1 <==> sideFinal != NoEntry && strength1 >= 0.65 && atr1 > 0.0
  {
    if sideFinal != NoEntry && strength1 >= 0.65 && atr1 > 0.0 then H1 else H4
  }

  /** The timeframe `build_signal` works on. */
  function ChosenMode(ohlc1h: seq<Candle>, ohlc4h: seq<Candle>): (m: Mode)
    ensures m == H1 ==> FinalSide(Direction(Closes(ohlc1h)).0, Direction(Closes(ohlc4h)).0) != NoEntry
  {
    var d1 := Direction(Closes(ohlc1h));
    ChooseMode(FinalSide(d1.0, Direction(Closes(ohlc4h)).0), d1.1, LastAtr(ohlc1h))
  }

  /** The ATR of the timeframe `build_signal` works on. */
  function ChosenAtr(ohlc1h: seq<Candle>, ohlc4h: seq<Candle>): (a: real)
    ensures a >= 0.0
    ensures ChosenMode(ohlc1h, ohlc4h) == H1 ==> a > 0.0
  {
    if ChosenMode(ohlc1h, ohlc4h) == H1 then LastAtr(ohlc1h) else LastAtr(ohlc4h)
  }

  /** The candles of the timeframe `build_signal` works on. */
  function ChosenOhlc(ohlc1h: seq<Candle>, ohlc4h: seq<Candle>): seq<Candle>
  {
    if ChosenMode(ohlc1h, ohlc4h) == H1 then ohlc1h else ohlc4h
  }

  /** The mode switch of `build_signal`: start from 4h and move to 1h when `ChooseMode` says so. */
  method ChooseTimeframe(sideFinal: Side, strength1: real, atr1: real, atr4: real,
                         ohlc1h: seq<Candle>, ohlc4h: seq<Candle>)
    returns (mode: Mode, useOhlc: seq<Candle>, atrVal: real)
    ensures mode == ChooseMode(sideFinal, strength1, atr1)
    ensures useOhlc == (if mode == H1 then ohlc1h else ohlc4h)
    ensures atrVal == (if mode == H1 then atr1 else atr4)
  {
    mode := H4;
    useOhlc := ohlc4h;
    atrVal := atr4;
    if sideFinal != NoEntry {
      if strength1 >= 0.65 && atr1 > 0.0 {
        mode := H1;
        useOhlc := ohlc1h;
        atrVal := atr1;
      }
    }
  }

  /** `_atr_val`: the last ATR value, or 0 when the ATR series is empty. */
  function LastAtr(ohlc: seq<Candle>): (a: real)
    ensures a >= 0.0
  {
    var s := AtrSeries(Highs(ohlc), Lows(ohlc), Closes(ohlc), 14);
    AtrNonnegative(Highs(ohlc), Lows(ohlc), Closes(ohlc), 14);
    if s == [] then 0.0 else Last(s)
  }

  // -------------------------------------------------------- risk tiers

  /** Index of the first occurrence of `x`. */
  function IndexOf(x: string, levels: seq<string>): (i: nat)
    requires x in levels
    ensures i < |levels| && levels[i] == x
    ensures forall k :: 0 <= k < i ==> levels[k] != x
  {
    if levels[0] == x then 0 else 1 + IndexOf(x, levels[1..])
  }

  /** `_lvl_up`: one tier toward the front, staying at the front; an unknown tier
      counts as the last one. */
  function LvlUp(x: string, levels: seq<string>): (r: string)
    requires levels != []
    ensures r in levels
    ensures x in levels ==> r == levels[if IndexOf(x, levels) == 0 then 0 else IndexOf(x, levels) - 1]
    ensures x !in levels ==> r == levels[if |levels| == 1 then 0 else |levels| - 2]
  {
    var i := if x in levels then IndexOf(x, levels) else |levels| - 1;
    levels[if i - 1 < 0 then 0 else i - 1]
  }

  /** `_lvl_down`: one tier toward the end, staying at the end; an unknown tier
      counts as the first one. */
  function LvlDown(x: string, levels: seq<string>): (r: string)
    requires levels != []
    ensures r in levels
    ensures x in levels ==> r == levels[if IndexOf(x, levels) + 1 > |levels| - 1 then |levels| - 1 else IndexOf(x, levels) + 1]
    ensures x !in levels ==> r == levels[if |levels| == 1 then 0 else 1]
  {
    var i := if x in levels then IndexOf(x, levels) else 0;
    levels[if i + 1 > |levels| - 1 then |levels| - 1 else i + 1]
  }

  const RISK_LEVELS: seq<string> := [BAIXO, MEDIO, ALTO]

  /** Rank of a risk tier in `RISK_LEVELS`. */
  function RiskRank(r: string): nat { if r == BAIXO then 0 else if r == MEDIO then 1 else 2 }

  /** On the three risk tiers, up and down move exactly one place, clamped at the ends. */
  lemma RiskStep(x: string)
    requires x in RISK_LEVELS
    ensures RiskRank(LvlUp(x, RISK_LEVELS)) == if RiskRank(x) == 0 then 0 else RiskRank(x) - 1
    ensures RiskRank(LvlDown(x, RISK_LEVELS)) == if RiskRank(x) == 2 then 2 else RiskRank(x) + 1
  {
    assert RISK_LEVELS[0] == BAIXO && RISK_LEVELS[1] == MEDIO && RISK_LEVELS[2] == ALTO;
  }

  /** Risk tier by ATR percent, before the 24h brake. */
  function BaseRisk(atrPct: real): (r: string)
    ensures r in RISK_LEVELS
    ensures r == BAIXO <==> atrPct <= 0.02
    ensures r == ALTO <==> atrPct > 0.05
  {
    if atrPct <= 0.02 then BAIXO else if atrPct <= 0.05 then MEDIO else ALTO
  }

  /** `classify_levels`, as (risco, prioridade, zona): zone from agreement with
      the 24h vote, the risk moved one tier by that vote when both are directional,
      and a priority that is BAIXA whenever there is no entry. */
  function ClassifyLevels(atrPct: real, gainPct: real, sideFinal: Side, side24: Side): (r: (string, string, string))
    ensures sideFinal == NoEntry ==> r.2 == BAIXA && r.1 == BAIXA
    ensures sideFinal != NoEntry ==> (r.2 == ALTA <==> side24 == sideFinal)
    ensures sideFinal != NoEntry ==> (r.2 == MEDIA <==> side24 == NoEntry)
    ensures r.0 in RISK_LEVELS
    ensures sideFinal == NoEntry || side24 == NoEntry ==> r.0 == BaseRisk(atrPct)
    ensures RiskRank(r.0) <= RiskRank(BaseRisk(atrPct)) + 1 && RiskRank(BaseRisk(atrPct)) <= RiskRank(r.0) + 1
    ensures r.1 == ALTA <==> sideFinal != NoEntry && gainPct >= 6.0 && r.2 == ALTA && r.0 == BAIXO
    ensures r.1 == MEDIA <==> r.1 != ALTA && sideFinal != NoEntry && gainPct >= 4.0 && r.2 != BAIXA && r.0 != ALTO
  {
    var base := BaseRisk(atrPct);
    var zona :=
      if sideFinal == NoEntry then BAIXA
      else if side24 == sideFinal then ALTA
      else if side24 == NoEntry then MEDIA
      else BAIXA;
    RiskStep(base);
    var risco :=
      if sideFinal != NoEntry && side24 != NoEntry then
        (if side24 == sideFinal then LvlUp(base, RISK_LEVELS) else LvlDown(base, RISK_LEVELS))
      else base;
    var prioridade :=
      if sideFinal != NoEntry && gainPct >= 6.0 && zona == ALTA && risco == BAIXO then ALTA
      else if sideFinal != NoEntry && gainPct >= 4.0 && zona != BAIXA && risco != ALTO then MEDIA
      else BAIXA;
    (risco, prioridade, zona)
  }

  // ------------------------------------------------------------ hit-rate replay

  /** `mfe_mae_assert` without the empty-window guard: the window maximum
      would fail on an empty window, so a zero look-ahead may only reach a
      replay that has nothing to replay. */
  method MfeMaeAssert(ohlc: seq<Candle>, side: Side, targetDist: real, atrVal: real, lookahead: nat)
    returns (r: real)
    requires lookahead >= 1 || |ohlc| < 120 || !side.Directional()
    ensures r == AssertPct(ohlc, side, targetDist, atrVal, lookahead)
  {
    if !side.Directional() {
      return 0.0;
    }
    if |ohlc| < 120 {
      return 50.0;
    }
    assert lookahead >= 1;
    var successes: nat := 0;
    var total: nat := 0;
    var maeLimit := 1.0 * atrVal;
    var start, end := Start(|ohlc|), End(|ohlc|, lookahead);
    var i := start;
    while i < end
      invariant start <= i && (start <= end ==> i <= end)
      invariant end < start ==> i == start && total == 0
      invariant total == i - start
      invariant start <= end ==>
        successes == Successes(ohlc, side, targetDist, maeLimit, lookahead, start, i)
    {
      successes, total := ReplayStep(ohlc, side, targetDist, maeLimit, lookahead, start, i, successes, total);
      i := i + 1;
    }
    AssertPctOfCounts(ohlc, side, targetDist, atrVal, lookahead, successes, total);
    if total <= 0 {
      return 50.0;
    }
    r := Clamp(0.0, 100.0, (successes as real / total as real) * 100.0);
  }

  /** The hit rate once every entry has been replayed: 50 without trials,
      otherwise the clamped success percentage. */
  lemma AssertPctOfCounts(ohlc: seq<Candle>, side: Side, targetDist: real, atrVal: real, lookahead: nat,
                          successes: nat, total: nat)
    requires side.Directional() && |ohlc| >= 120 && lookahead >= 1
    requires var lo, hi := Start(|ohlc|), End(|ohlc|, lookahead);
      && total == (if hi < lo then 0 else hi - lo)
      && (lo <= hi ==> successes == Successes(ohlc, side, targetDist, 1.0 * atrVal, lookahead, lo, hi))
    ensures AssertPct(ohlc, side, targetDist, atrVal, lookahead)
         == if total <= 0 then 50.0 else Clamp(0.0, 100.0, (successes as real / total as real) * 100.0)
  {
  }

  /** One entry of the replay: its window always holds `lookahead` candles,
      and the trial counts whether or not the target is hit. */
  method ReplayStep(ohlc: seq<Candle>, side: Side, targetDist: real, maeLimit: real, lookahead: nat,
                    start: nat, i: nat, successes0: nat, total0: nat)
    returns (successes: nat, total: nat)
    requires lookahead >= 1 && start <= i < End(|ohlc|, lookahead)
    requires total0 == i - start
    requires successes0 == Successes(ohlc, side, targetDist, maeLimit, lookahead, start, i)
    ensures total == i + 1 - start
    ensures successes == Successes(ohlc, side, targetDist, maeLimit, lookahead, start, i + 1)
  {
    var entry := ohlc[i].close;
    var window := ohlc[i + 1..i + 1 + lookahead];
    assert window == Window(ohlc, i, lookahead);
    successes := successes0;
    if Success(side, entry, window, targetDist, maeLimit) {
      successes := successes + 1;
    }
    total := total0 + 1;
  }

  // ------------------------------------------------------------ time estimate

  /** The true range of each candle as a fraction of the previous close. */
  function TrsPctSpec(ohlc: seq<Candle>): (t: seq<real>)
    ensures |t| == if ohlc == [] then 0 else |ohlc| - 1
    ensures forall k :: 0 <= k < |t| ==> t[k] >= 0.0
  {
    if ohlc == [] then []
    else
      seq(|ohlc| - 1, k requires 0 <= k < |ohlc| - 1 =>
        RangeFraction(ohlc[k + 1].high, ohlc[k + 1].low, ohlc[k].close))
  }

  function RangeFraction(h: real, l: real, prevClose: real): (f: real)
    ensures f >= 0.0
  {
    var tr := TrueRange(h, l, prevClose);
    var d := Max(0.000000001, prevClose);
    assert tr / d >= 0.0;
    tr / d
  }

  /** The `trs_pct` loop of `build_signal`. */
  method TrsPct(ohlc: seq<Candle>) returns (out: seq<real>)
    ensures out == TrsPctSpec(ohlc)
  {
    out := [];
    var i := 1;
    while i < |ohlc|
      invariant 1 <= i <= |ohlc| || (ohlc == [] && i == 1)
      invariant ohlc != [] ==> out == TrsPctSpec(ohlc)[..i - 1]
      invariant ohlc == [] ==> out == []
    {
      var h, l, cPrev := ohlc[i].high, ohlc[i].low, ohlc[i - 1].close;
      assert TrsPctSpec(ohlc)[..i] == TrsPctSpec(ohlc)[..i - 1] + [RangeFraction(h, l, cPrev)];
      out := out + [RangeFraction(h, l, cPrev)];
      i := i + 1;
    }
    assert ohlc != [] ==> TrsPctSpec(ohlc)[..|ohlc| - 1] == TrsPctSpec(ohlc);
  }

  /** The last 80 entries, or all of them when there are at most 80. */
  function Tail80(s: seq<real>): (t: seq<real>)
    ensures |t| <= 80 && |t| <= |s| && (s != [] <==> t != [])
    ensures t == s[|s| - |t|..]
  {
    if |s| > 80 then s[|s| - 80..] else s
  }

  function RealLe(a: real, b: real): bool { a <= b }

  lemma RealLeTotalPreorder()
    ensures TotalPreorder(RealLe)
  {
  }

  /** The middle of a list: its middle element, or the mean of the two middle
      ones for an even length. */
  function Middle(t: seq<real>): real
    requires t != []
  {
    var n := |t|;
    if n % 2 == 1 then t[n / 2] else (t[n / 2 - 1] + t[n / 2]) / 2.0
  }

  /** `statistics.median`: the middle of the sorted values. */
  function Median(s: seq<real>): real
    requires s != []
  {
    Middle(SortBy(s, RealLe))
  }

  /** The median lies within any bounds of the values (in particular between their minimum and maximum). */
  lemma MedianWithin(s: seq<real>, lo: real, hi: real)
    requires s != []
    requires forall k :: 0 <= k < |s| ==> lo <= s[k] <= hi
    ensures lo <= Median(s) <= hi
  {
    var t := SortBy(s, RealLe);
    forall k | 0 <= k < |t| ensures lo <= t[k] <= hi {
      assert t[k] in multiset(t);
      assert t[k] in multiset(s);
      var j :| 0 <= j < |s| && s[j] == t[k];
    }
  }

  lemma MiddleSplits(t: seq<real>)
    requires t != []
    requires |t| % 2 == 0 ==> t[|t| / 2 - 1] <= t[|t| / 2]
    ensures t[(|t| - 1) / 2] <= Middle(t) <= t[|t| / 2]
  {
  }

  /** The median lies between the two middle values of the sorted list. */
  lemma MedianSplits(s: seq<real>)
    requires s != []
    ensures SortBy(s, RealLe)[(|s| - 1) / 2] <= Median(s) <= SortBy(s, RealLe)[|s| / 2]
  {
    var t := SortBy(s, RealLe);
    RealLeTotalPreorder();
    SortBySorted(s, RealLe);
    if |t| % 2 == 0 {
      assert RealLe(t[|t| / 2 - 1], t[|t| / 2]);
    }
    MiddleSplits(t);
  }

  // ------------------------------------------------------------- build_signal

  /** The hours a candle of the timeframe spans. */
  function TfHours(mode: Mode): (h: real)
    ensures h >= 1.0
  {
    if mode == H1 then 1.0 else 4.0
  }

  /** The typical move per hour: the median range fraction of the last 80
      candles (the ATR fraction when there are none) per hour of the timeframe,
      never below 1e-6. */
  function MovePerHour(useOhlc: seq<Candle>, mode: Mode, atrPct: real): (m: real)
    ensures m >= 0.000001
  {
    var tail := Tail80(TrsPctSpec(useOhlc));
    var medTrPct := if tail != [] then Median(tail) else atrPct;
    Max(0.000001, medTrPct / TfHours(mode))
  }

  /** The estimated hours to cover `distPct` at the typical hourly move. */
  function HoursToTarget(useOhlc: seq<Candle>, mode: Mode, atrPct: real, distPct: real): real
  {
    distPct / MovePerHour(useOhlc, mode, atrPct)
  }

  /** When every one of the last 80 range fractions lies in [lo, hi], the
      hourly move lies between the clamped bounds over the timeframe. */
  lemma MovePerHourWithin(useOhlc: seq<Candle>, mode: Mode, atrPct: real, lo: real, hi: real)
    requires |useOhlc| >= 2
    requires forall k :: 0 <= k < |Tail80(TrsPctSpec(useOhlc))| ==> lo <= Tail80(TrsPctSpec(useOhlc))[k] <= hi
    ensures Max(0.000001, lo / TfHours(mode)) <= MovePerHour(useOhlc, mode, atrPct) <= Max(0.000001, hi / TfHours(mode))
  {
    var tail := Tail80(TrsPctSpec(useOhlc));
    MedianWithin(tail, lo, hi);
    DivideMonotone(lo, Median(tail), TfHours(mode));
    DivideMonotone(Median(tail), hi, TfHours(mode));
  }

  lemma DivideMonotone(a: real, b: real, d: real)
    requires a <= b && d > 0.0
    ensures a / d <= b / d
  {
    assert b / d - a / d == (b - a) / d;
  }

  /** A farther target never takes fewer hours, and a positive distance takes
      a positive time. */
  lemma HoursToTargetMonotone(useOhlc: seq<Candle>, mode: Mode, atrPct: real, d1: real, d2: real)
    requires d1 <= d2
    ensures HoursToTarget(useOhlc, mode, atrPct, d1) <= HoursToTarget(useOhlc, mode, atrPct, d2)
    ensures d1 > 0.0 ==> HoursToTarget(useOhlc, mode, atrPct, d1) > 0.0
  {
    var m := MovePerHour(useOhlc, mode, atrPct);
    DivideMonotone(d1, d2, m);
    if d1 > 0.0 {
      QuotientPositive(d1, m);
    }
  }

  /** The time to target: the distance over the typical hourly move, shown as
      the midpoint of a 0.8 / 1.2 band. */
  method EstimatePrazo(useOhlc: seq<Candle>, mode: Mode, atrPct: real, distPct: real) returns (prazo: Prazo)
    requires distPct > 0.0
    ensures prazo == Hours(HoursToTarget(useOhlc, mode, atrPct, distPct))
    ensures prazo.h > 0.0
  {
    var trsPct := TrsPct(useOhlc);
    var tfHours := if mode == H1 then 1.0 else 4.0;
    var tail := Tail80(trsPct);
    var medTrPct := if tail != [] then Median(tail) else atrPct;
    var movePerHourPct := Max(0.000001, medTrPct / tfHours);
    var hours := distPct / movePerHourPct;
    QuotientPositive(distPct, movePerHourPct);
    PrazoBandMidpoint(hours);
    prazo := FmtPrazo(hours * 0.8, hours * 1.2);
  }

  lemma QuotientPositive(a: real, b: real)
    requires a > 0.0 && b > 0.0
    ensures a / b > 0.0
  {
  }

  function NoEntrySignal(par: string, mark: real, atrPct: real, side24: Side): (r: Signal)
    ensures r.side == NoEntry && r.alvo == r.atual == r.entrada == mark
    ensures r.ganhoPct == 0.0 && r.assertPct == 0.0 && r.prazo == Dash
    ensures r.zona == BAIXA && r.prioridade == BAIXA && r.risco == BaseRisk(atrPct)
  {
    var c := ClassifyLevels(atrPct, 0.0, NoEntry, side24);
    Signal(par, NoEntry, "PRO", mark, mark, mark, 0.0, Dash, 0.0, c.0, c.1, c.2, "MARK")
  }

  /** A distance as a fraction of the price, the price floored at 1e-9. */
  function Fraction(x: real, price: real): real
  {
    x / Max(0.000000001, price)
  }

  /** The 1.5-ATR target above (LONG) or below (SHORT) the price. */
  function Target(side: Side, price: real, atrVal: real): real
  {
    if side == Long then price + 1.5 * atrVal else price - 1.5 * atrVal
  }

  /** The percentage gain of a 1.5-ATR target from `mark`. */
  function GainPct(atrVal: real, mark: real): real
  {
    Fraction(1.5 * atrVal, mark) * 100.0
  }

  /** A priced signal for `side` on the candles `useOhlc` of timeframe `mode`:
      the 1.5-ATR target, its percentage gain, the time estimate, the hit rate
      of 12-candle replays, the base risk of the ATR fraction, a medium zone (the
      24h vote is never directional) and a medium priority exactly for a gain of
      at least 4% without high risk. */
  predicate Priced(r: Signal, side: Side, useOhlc: seq<Candle>, mode: Mode, atrVal: real, mark: real)
  {
    && r.alvo == Target(side, mark, atrVal)
    && r.ganhoPct == GainPct(atrVal, mark)
    && r.prazo == Hours(HoursToTarget(useOhlc, mode, Fraction(atrVal, mark), Fraction(1.5 * atrVal, mark)))
    && r.assertPct == AssertPct(useOhlc, side, 1.5 * atrVal, atrVal, 12)
    && r.risco == BaseRisk(Fraction(atrVal, mark))
    && r.zona == MEDIA
    && (r.prioridade == MEDIA <==> r.ganhoPct >= 4.0 && r.risco != ALTO)
  }

  /** `build_signal`: LONG or SHORT exactly when both timeframes vote for it,
      the chosen ATR is positive and the 1.5-ATR target promises at least
      `gainMinPct`; otherwise a no-entry signal with target = price and zeros.
      The risk tier is always the base tier of the ATR fraction. */
  method BuildSignal(par: string, ohlc1h: seq<Candle>, ohlc4h: seq<Candle>, mark: real, gainMinPct: real)
    returns (r: Signal)
    ensures r.mode == "PRO" && r.priceSource == "MARK" && r.entrada == mark && r.atual == mark
    ensures var side1, side4 := Direction(Closes(ohlc1h)).0, Direction(Closes(ohlc4h)).0;
      var a := ChosenAtr(ohlc1h, ohlc4h);
      && (r.side != NoEntry <==> side1 == side4 && side1 != NoEntry && a > 0.0 && GainPct(a, mark) >= gainMinPct)
      && (r.side != NoEntry ==> r.side == side1)
    ensures r.side == NoEntry ==>
      r.alvo == r.atual && r.ganhoPct == 0.0 && r.assertPct == 0.0 && r.prazo == Dash
      && r.zona == BAIXA && r.prioridade == BAIXA
    ensures r.side == NoEntry ==>
      var a := ChosenAtr(ohlc1h, ohlc4h);
      var early := FinalSide(Direction(Closes(ohlc1h)).0, Direction(Closes(ohlc4h)).0) == NoEntry || a <= 0.0;
      r.risco == BaseRisk(Fraction(if early then LastAtr(ohlc4h) else a, mark))
    ensures r.side != NoEntry ==>
      Priced(r, r.side, ChosenOhlc(ohlc1h, ohlc4h), ChosenMode(ohlc1h, ohlc4h), ChosenAtr(ohlc1h, ohlc4h), mark)
    ensures r.prioridade != ALTA
  {
    var sideFinal, side24, mode, useOhlc, atrVal, atr4 := ChooseInputs(ohlc1h, ohlc4h);
    r := SignalFromTimeframe(par, mark, sideFinal, side24, mode, useOhlc, atrVal, atr4, gainMinPct);
  }

  /** The first half of `build_signal`: the ATR and the vote of each timeframe,
      the 24h vote on the last 48 hourly closes, the agreed side and the
      timeframe switch. */
  method ChooseInputs(ohlc1h: seq<Candle>, ohlc4h: seq<Candle>)
    returns (sideFinal: Side, side24: Side, mode: Mode, useOhlc: seq<Candle>, atrVal: real, atr4: real)
    ensures sideFinal == FinalSide(Direction(Closes(ohlc1h)).0, Direction(Closes(ohlc4h)).0)
    ensures side24 == NoEntry
    ensures mode == ChosenMode(ohlc1h, ohlc4h) && useOhlc == ChosenOhlc(ohlc1h, ohlc4h)
    ensures atrVal == ChosenAtr(ohlc1h, ohlc4h) && atr4 == LastAtr(ohlc4h) && atr4 >= 0.0
  {
    var atr1, closes1 := LastAtr(ohlc1h), Closes(ohlc1h);
    var closes4: seq<real>;
    atr4, closes4 := LastAtr(ohlc4h), Closes(ohlc4h);
    var (side1, strength1) := Direction(closes1);
    var (side4, strength4) := Direction(closes4);
    var closes24 := Last48(closes1);
    side24 := Direction(closes24).0;
    Side24NeverDirectional(closes1);
    sideFinal := FinalSide(side1, side4);
    mode, useOhlc, atrVal := ChooseTimeframe(sideFinal, strength1, atr1, atr4, ohlc1h, ohlc4h);
    Chosen(ohlc1h, ohlc4h, mode, useOhlc, atrVal);
  }

  lemma ZeroFraction(atr4: real, mark: real)
    requires atr4 == 0.0
    ensures Fraction(atr4, mark) == 0.0
  {
  }

  /** The mode, candles and ATR the timeframe switch picks are those of
      `ChosenMode`, `ChosenOhlc` and `ChosenAtr`. */
  lemma Chosen(ohlc1h: seq<Candle>, ohlc4h: seq<Candle>, mode: Mode, useOhlc: seq<Candle>, atrVal: real)
    requires
      var d1 := Direction(Closes(ohlc1h));
      && mode == ChooseMode(FinalSide(d1.0, Direction(Closes(ohlc4h)).0), d1.1, LastAtr(ohlc1h))
      && useOhlc == (if mode == H1 then ohlc1h else ohlc4h)
      && atrVal == (if mode == H1 then LastAtr(ohlc1h) else LastAtr(ohlc4h))
    ensures mode == ChosenMode(ohlc1h, ohlc4h) && useOhlc == ChosenOhlc(ohlc1h, ohlc4h) && atrVal == ChosenAtr(ohlc1h, ohlc4h)
  {
  }

  /** `build_signal` once the side and the timeframe are chosen: no entry
      without an agreed side or a positive ATR (the risk then from the 4h ATR),
      otherwise the priced signal. */
  method SignalFromTimeframe(par: string, mark: real, sideFinal: Side, side24: Side, mode: Mode,
                             useOhlc: seq<Candle>, atrVal: real, atr4: real, gainMinPct: real) returns (r: Signal)
    requires side24 == NoEntry && atr4 >= 0.0
    ensures r.mode == "PRO" && r.priceSource == "MARK" && r.entrada == mark && r.atual == mark
    ensures r.side != NoEntry <==> sideFinal != NoEntry && atrVal > 0.0 && GainPct(atrVal, mark) >= gainMinPct
    ensures r.side == NoEntry ==>
      r.alvo == r.atual && r.ganhoPct == 0.0 && r.assertPct == 0.0 && r.prazo == Dash
      && r.zona == BAIXA && r.prioridade == BAIXA
      && r.risco == BaseRisk(Fraction(if sideFinal == NoEntry || atrVal <= 0.0 then atr4 else atrVal, mark))
    ensures r.side != NoEntry ==> r.side == sideFinal && Priced(r, sideFinal, useOhlc, mode, atrVal, mark)
    ensures r.prioridade != ALTA
  {
    if atrVal <= 0.0 || sideFinal == NoEntry {
      var atrPct := if atr4 > 0.0 then Fraction(atr4, mark) else 0.0;
      if atr4 <= 0.0 {
        ZeroFraction(atr4, mark);
      }
      r := NoEntrySignal(par, mark, atrPct, side24);
    } else {
      r := PricedSignal(par, mark, sideFinal, side24, mode, useOhlc, atrVal, gainMinPct);
    }
  }

  /** The second half of `build_signal`, once the side is agreed and the ATR is
      positive: the 1.5-ATR target, the gain gate, the time estimate, the hit
      rate and the tiers. */
  method PricedSignal(par: string, mark: real, sideFinal: Side, side24: Side, mode: Mode,
                      useOhlc: seq<Candle>, atrVal: real, gainMinPct: real) returns (r: Signal)
    requires sideFinal != NoEntry && atrVal > 0.0 && side24 == NoEntry
    ensures r.mode == "PRO" && r.priceSource == "MARK" && r.entrada == mark && r.atual == mark
    ensures r.side == NoEntry <==> GainPct(atrVal, mark) < gainMinPct
    ensures r.side == NoEntry ==> r == NoEntrySignal(par, mark, Fraction(atrVal, mark), side24)
    ensures r.side != NoEntry ==>
      && r.side == sideFinal
      && r.alvo == Target(sideFinal, mark, atrVal)
      && r.ganhoPct == GainPct(atrVal, mark)
      && r.prazo == Hours(HoursToTarget(useOhlc, mode, Fraction(atrVal, mark), Fraction(1.5 * atrVal, mark)))
      && r.assertPct == AssertPct(useOhlc, sideFinal, 1.5 * atrVal, atrVal, 12)
      && (r.risco, r.prioridade, r.zona) == ClassifyLevels(Fraction(atrVal, mark), r.ganhoPct, sideFinal, side24)
    ensures r.side != NoEntry ==> Priced(r, sideFinal, useOhlc, mode, atrVal, mark)
    ensures r.risco == BaseRisk(Fraction(atrVal, mark))
    ensures r.prioridade != ALTA
  {
    var atual := mark;
    var targetDist := 1.5 * atrVal;
    var alvo := if sideFinal == Long then atual + targetDist else atual - targetDist;
    assert Abs(alvo - atual) == targetDist;
    var ganhoPct := Fraction(Abs(alvo - atual), atual) * 100.0;
    if ganhoPct < gainMinPct {
      return NoEntrySignal(par, mark, Fraction(atrVal, atual), side24);
    }

    var atrPct := Fraction(atrVal, atual);
    var distPct := Fraction(Abs(alvo - atual), atual);
    QuotientPositive(targetDist, Max(0.000000001, atual));
    var prazo := EstimatePrazo(useOhlc, mode, atrPct, distPct);
    var assertPct := MfeMaeAssert(useOhlc, sideFinal, targetDist, atrVal, 12);
    var c := ClassifyLevels(atrPct, ganhoPct, sideFinal, side24);
    r := Signal(par, sideFinal, "PRO", mark, atual, alvo, ganhoPct, prazo, assertPct, c.0, c.1, c.2, "MARK");
  }

}
