# ENTRADA-PRO trading core, modelled in Dafny

ENTRADA-PRO publishes LONG/SHORT signals for a list of coins and then follows
what those signals would have earned. This project models its two linked
subsystems and two small validators. Prices, percentages and indicator values are
mathematical reals, not IEEE floats.

- **Signal engine and ranking.**
  - `Indicators` models the loop-based EMA, RSI and ATR accumulators.
  - `SignalRules` holds the EMA/RSI vote and the historical-hit-rate replay, which
    both signal builders share.
  - `Compute` models the current signal builder.
  - `ComputeEarly` models the earlier builder: the 1h/4h agreement rule,
    target = price ± 1.5·ATR, the gain gate and the one-tier risk adjustment.
  - `Ranking` models the FULL/TOP10 payload builder: tier points, the
    gain/confidence gate, the four-key TOP10 order and the cut to ten.
- **Outcome tracker.**
  - `OutcomeTracker` opens one virtual position per LONG/SHORT TOP10 item, keyed by
    a deterministic id. Each cycle it updates the running excursions and closes a
    position on its target, then its invalidation level, then its time-to-live.
  - `OutcomeSummary` builds the cycle summary: the overall figures, the per-weekday
    and per-hour buckets, and the best (weekday, hour) windows.
  - `Metrics30d` re-aggregates the closed log over the last 30 days. It buckets by
    coin, hour and weekday and recommends only buckets with at least 20 closes.
- **Validators.**
  - `PayloadAudit` models the consistency check over the `pro` and `top10` payloads.
  - `Html` models the `esc` escaper of the site.
- **Shared helpers.** `Common`, `Text` and `Sorting` hold the option type, trade
  sides, candles, sums, Python's `upper`/`strip`, and a stable sort by value that
  stands for Python's `list.sort`.

Where the source mutates state step by step, the model keeps that form, and each
such method is proved equal to a specification function:

- the indicator loops;
- the replay counters;
- the true-range loop;
- `build_payload`;
- the capture and update loops of the outcome tracker;
- the bucket loops of both reports;
- the error list of the payload audit.

The lemmas then prove what the source promises about those functions:

- the closing priority;
- that every open position either stays open or closes exactly once, by count and
  by id, and that the results partition the closes;
- that mfe ≥ 0 ≥ mae is preserved;
- that the capture is idempotent;
- that every kept row lands in exactly one bucket per axis;
- the escape/unescape round trip.

The code is followed where it and its own comments disagree:

- `worker/engine/compute.py` promises a "NÃO ENTRAR" gate in its module comment, but
  `build_signal` always returns LONG or SHORT, and `Compute.BuildSignal` states that.
- A close by time-to-live has result EXPIRED. Its sign only shows in the TTL tally.
- In `worker/engine/audit_top10.py`, line 292 starts at column 0, so the file as
  written does not parse. The model takes the evident intent: the TTL-by-sign tally
  belongs to the cycle function (`OutcomeSummary.TtlTally`).
- In the earlier builder the 24-hour brake reads the last 48 hourly closes, but the
  direction rule needs at least 50. `ComputeEarly.Side24NeverDirectional` proves that
  this side is therefore always NÃO ENTRAR. Its consequences follow from the proved
  contracts (`ComputeEarly.BuildSignal`):
  - a signal's zone is never ALTA;
  - its priority is never ALTA;
  - the risk tier is never adjusted: it is always the base tier of the ATR fraction.
  The docstring at line 153 suggests the brake was meant to act, but what it should
  have computed is not evident from the code, so this is recorded here rather than
  corrected.

## Model

| member | source | states |
|---|---|---|
| Indicators.Smoothing | worker.bkp_20260217_084053/engine/indicators.py:8 | the EMA multiplier 2/(period+1) lies strictly between 0 and 1 |
| Indicators.EmaSeries | worker.bkp_20260217_084053/engine/indicators.py:5-17 | the EMA is empty exactly when there are fewer values than the period or the period is at most 1; otherwise it has len − period + 1 values |
| Indicators.Ema | worker.bkp_20260217_084053/engine/indicators.py:5-17 | the accumulating loop (seed, then running `prev`) produces exactly the EMA series |
| Indicators.EmaRecurrence | worker.bkp_20260217_084053/engine/indicators.py:8-16 | the first value is the mean of the first `period` values, and each next one is prev + (v − prev)·2/(period+1) |
| Indicators.EmaAtWithin | worker.bkp_20260217_084053/engine/indicators.py:8-16 | each EMA value stays within any bounds of the input values |
| Indicators.EmaWithin | worker.bkp_20260217_084053/engine/indicators.py:5-17 | the whole EMA series stays within any bounds of the input values |
| Indicators.WilderSeries | worker.bkp_20260217_084053/engine/indicators.py:29-41 | Wilder's smoothing has len − period + 1 values |
| Indicators.WilderAverages | worker.bkp_20260217_084053/engine/indicators.py:52-57 | the smoothing loop (mean seed, then (prev·(p−1)+x)/p) produces exactly Wilder's series |
| Indicators.WilderNonnegative | worker.bkp_20260217_084053/engine/indicators.py:52-57 | smoothing non-negative inputs gives non-negative averages |
| Indicators.WilderZero | worker.bkp_20260217_084053/engine/indicators.py:29-41 | smoothing all-zero inputs gives zero, so a series that never falls has average loss 0 |
| Indicators.Gains | worker.bkp_20260217_084053/engine/indicators.py:22-27 | one gain per consecutive pair of values |
| Indicators.Losses | worker.bkp_20260217_084053/engine/indicators.py:22-27 | one loss per consecutive pair of values |
| Indicators.GainsLossesNonnegative | worker.bkp_20260217_084053/engine/indicators.py:24-27 | every gain and every loss is non-negative |
| Indicators.Changes | worker.bkp_20260217_084053/engine/indicators.py:22-27 | the appending loop builds exactly the gains and losses lists |
| Indicators.RsiValue | worker.bkp_20260217_084053/engine/indicators.py:32-36 | the RSI of two non-negative averages lies in [0,100] and is 100 when the average loss is 0 |
| Indicators.RsiAt | worker.bkp_20260217_084053/engine/indicators.py:29-41 | every RSI value lies in [0,100] |
| Indicators.RsiSeries | worker.bkp_20260217_084053/engine/indicators.py:19-42 | the RSI is empty exactly when len ≤ period; otherwise it has len − period values, all in [0,100] |
| Indicators.SmoothedRsi | worker.bkp_20260217_084053/engine/indicators.py:29-41 | the smoothing loop emits, at each step, the RSI of the running averages |
| Indicators.Rsi | worker.bkp_20260217_084053/engine/indicators.py:19-42 | the whole `rsi` procedure produces exactly the RSI series |
| Indicators.RsiOfNonDecreasing | worker.bkp_20260217_084053/engine/indicators.py:32-36 | a series that never falls has RSI 100 everywhere |
| Indicators.TrueRange | worker.bkp_20260217_084053/engine/indicators.py:49 | the true range is non-negative and equals the largest of h−l, \|h−prevC\| and \|l−prevC\| |
| Indicators.TrueRanges | worker.bkp_20260217_084053/engine/indicators.py:47-50 | one non-negative true range per candle after the first |
| Indicators.TrueRangeList | worker.bkp_20260217_084053/engine/indicators.py:47-50 | the appending loop builds exactly the true ranges |
| Indicators.AtrSeries | worker.bkp_20260217_084053/engine/indicators.py:44-58 | the ATR is empty exactly when len(close) < period + 1; otherwise it has len(close) − period values |
| Indicators.Atr | worker.bkp_20260217_084053/engine/indicators.py:44-58 | the `atr` procedure produces exactly the ATR series |
| Indicators.AtrNonnegative | worker.bkp_20260217_084053/engine/indicators.py:52-57 | every ATR value is non-negative |
| SignalRules.Vote | worker/engine/compute.py:86-93 | LONG iff ema20 > ema50 and rsi ≥ 55; SHORT iff ema20 < ema50 and rsi ≤ 45; strength in [0,1], and 0 for NÃO ENTRAR |
| SignalRules.VoteSaturates | worker/engine/compute.py:88-92 | a vote with RSI beyond 75 (or below 25) has full strength |
| SignalRules.MaxHigh | worker/engine/compute.py:143-152 | the window's highest high: at least every high and equal to one |
| SignalRules.MinLow | worker/engine/compute.py:144-151 | the window's lowest low: at most every low and equal to one |
| SignalRules.Window | worker/engine/compute.py:138 | the look-ahead window has exactly `lookahead` candles |
| SignalRules.Successes | worker/engine/compute.py:134-158 | the number of successful replays never exceeds the number of trials |
| SignalRules.AssertPct | worker/engine/compute.py:121-161 | the hit rate lies in [0,100]; it is 0 for a non-directional side and 50 below 120 candles or with no look-ahead |
| SignalRules.SuccessesAntitone | worker/engine/compute.py:147-156 | a farther target never yields more successes |
| SignalRules.AssertPctAntitone | worker/engine/compute.py:121-161 | a farther target never raises the hit rate |
| SignalRules.RatioMonotone | worker/engine/compute.py:159-161 | more successes over the same trials never lower the clamped rate |
| SignalRules.SuccessesExtremes | worker/engine/compute.py:134-158 | all trials succeed gives the trial count, none gives 0 |
| Compute.ToOhlc | worker/engine/compute.py:34-45 | keeps at most one candle per raw row |
| Compute.ToOhlcList | worker/engine/compute.py:34-45 | the appending loop keeps exactly the well-formed rows, in order |
| Compute.ToOhlcKeepsAll | worker/engine/compute.py:34-45 | no row is dropped iff every row is well formed |
| Compute.ToOhlcFromRows | worker/engine/compute.py:38-44 | every candle kept comes from some input row's four fields |
| Compute.AtrLast | worker/engine/compute.py:52-60 | the last ATR is non-negative, 0 with fewer than period + 2 candles, otherwise the last ATR value |
| Compute.Direction | worker/engine/compute.py:71-93 | NÃO ENTRAR with strength 0 below 60 closes, otherwise the EMA/RSI vote; strength in [0,1] |
| Compute.GainPct | worker/engine/compute.py:96-103 | 0 for non-positive inputs or no side; for LONG non-negative iff the target is above the price, for SHORT iff below |
| Compute.GainShortIsNegatedLong | worker/engine/compute.py:96-103 | the SHORT gain is the negated LONG gain |
| Compute.TargetDistance | worker/engine/compute.py:113 | the distance is the larger of the ATR and the gain floor in price |
| Compute.TargetPrice | worker/engine/compute.py:106-118 | 0 for a non-positive price; price ± distance for LONG/SHORT, the SHORT one floored at 1e-12; the price itself otherwise |
| Compute.LongTargetMeetsFloor | worker/engine/compute.py:106-118 | a LONG target built with atr ≥ 0 has gain ≥ the floor |
| Compute.ShortTargetMeetsFloor | worker/engine/compute.py:106-118 | a SHORT target above the 1e-12 floor has gain ≥ the floor |
| Compute.PercentOfAtLeast | worker/engine/compute.py:113-115 | a distance of at least g% of the price is a gain of at least g% |
| Compute.MfeMaeAssert | worker/engine/compute.py:121-161 | the replay loop with its success/trial counters computes the hit rate |
| Compute.ClassifyQualitatives | worker/engine/compute.py:164-191 | the risk, zone and priority tiers, each as an if-and-only-if of its thresholds |
| Compute.PriorityMonotoneInGain | worker/engine/compute.py:183-189 | a larger gain never lowers the priority |
| Compute.Price | worker/engine/compute.py:209-217 | the mark when positive, else the last 4h close, else the last 1h close, else no price |
| Compute.ChooseSide | worker/engine/compute.py:219-237 | never NÃO ENTRAR: the 4h direction, else the 1h direction (the last-move and LONG fallbacks otherwise) |
| Compute.EffectiveAtr | worker/engine/compute.py:240-246 | the 4h ATR when positive, else the 1h ATR, else 0.3% of the price; positive whenever the price is |
| Compute.FmtPrazo | worker/engine/compute.py:63-68 | blank exactly when the hours are not positive |
| Compute.BuildSignal | worker/engine/compute.py:193-274 | side always LONG or SHORT; blank qualitatives; hit rate in [0,100]; "-" horizon exactly when no price exists, otherwise 0.5–12 hours; a LONG gain meets the floor |
| Compute.LongGainMeetsFloor | worker/engine/compute.py:248-249 | the LONG signal's gain meets the floor for any non-negative ATR |
| Compute.HoursWithin | worker/engine/compute.py:260 | the horizon estimate stays within 0.5 and 12 hours |
| ComputeEarly.FmtPrazo | worker.bkp_20260217_091859/engine/compute.py:25-32 | "-" exactly when the band's midpoint is not positive, else the midpoint |
| ComputeEarly.PrazoBandMidpoint | worker.bkp_20260217_091859/engine/compute.py:225-228 | the 0.8/1.2 band around an estimate formats as the estimate itself |
| ComputeEarly.Direction | worker.bkp_20260217_091859/engine/compute.py:34-52 | NÃO ENTRAR below 50 closes, otherwise the EMA/RSI vote; strength in [0,1] |
| ComputeEarly.DirectionNeedsFifty | worker.bkp_20260217_091859/engine/compute.py:34-40 | fewer than 50 closes give NÃO ENTRAR with strength 0 |
| ComputeEarly.SameDirectionFromSixty | worker.bkp_20260217_091859/engine/compute.py:34-52 | from 60 closes on, both versions agree on direction and strength |
| ComputeEarly.FinalSide | worker.bkp_20260217_091859/engine/compute.py:176 | the final side is the 1h side iff the 1h and 4h sides agree and are directional |
| ComputeEarly.Last48 | worker.bkp_20260217_091859/engine/compute.py:172 | the last 48 closes, or all of them when fewer |
| ComputeEarly.Side24NeverDirectional | worker.bkp_20260217_091859/engine/compute.py:171-173 | the 24-hour side is always NÃO ENTRAR |
| ComputeEarly.ChooseMode | worker.bkp_20260217_091859/engine/compute.py:179-187 | 1H iff the sides agree, strength1 ≥ 0.65 and atr1 > 0; otherwise 4H |
| ComputeEarly.ChooseTimeframe | worker.bkp_20260217_091859/engine/compute.py:178-187 | the reassigned mode, candles and ATR are those of the chosen timeframe |
| ComputeEarly.LastAtr | worker.bkp_20260217_091859/engine/compute.py:158-163 | the last ATR of a candle list is non-negative |
| ComputeEarly.IndexOf | worker.bkp_20260217_091859/engine/compute.py:91-97 | the first position of a tier in its list |
| ComputeEarly.LvlUp | worker.bkp_20260217_091859/engine/compute.py:91-93 | one tier toward the front, clamped; an unknown tier counts as the last |
| ComputeEarly.LvlDown | worker.bkp_20260217_091859/engine/compute.py:95-97 | one tier toward the end, clamped; an unknown tier counts as the first |
| ComputeEarly.RiskStep | worker.bkp_20260217_091859/engine/compute.py:91-97 | on the risk tiers, up lowers the rank by one and down raises it by one, both clamped |
| ComputeEarly.BaseRisk | worker.bkp_20260217_091859/engine/compute.py:108-113 | BAIXO iff ATR% ≤ 2%, ALTO iff ATR% > 5%, else MÉDIO |
| ComputeEarly.ClassifyLevels | worker.bkp_20260217_091859/engine/compute.py:99-143 | zone BAIXA and priority BAIXA for NÃO ENTRAR; zone ALTA iff the 24h side agrees, MÉDIA iff it is NÃO ENTRAR; risk moves at most one tier, and only when both sides are directional; the priority thresholds as if-and-only-ifs |
| ComputeEarly.MfeMaeAssert | worker.bkp_20260217_091859/engine/compute.py:54-88 | the replay loop computes the hit rate (in [0,100], 50 by default, 0 for no side) |
| ComputeEarly.ReplayStep | worker.bkp_20260217_091859/engine/compute.py:69-85 | one replayed start adds one trial, and a success exactly when over the next `lookahead` candles the favourable move reaches the target and the adverse move stays within the limit |
| ComputeEarly.AssertPctOfCounts | worker.bkp_20260217_091859/engine/compute.py:86-88 | the counts of the finished replay give the hit rate: 50 with no trials, otherwise successes/trials·100 clamped to [0,100] |
| ComputeEarly.TrsPctSpec | worker.bkp_20260217_091859/engine/compute.py:214-219 | one non-negative relative true range per candle after the first |
| ComputeEarly.RangeFraction | worker.bkp_20260217_091859/engine/compute.py:217-219 | a relative true range is non-negative |
| ComputeEarly.TrsPct | worker.bkp_20260217_091859/engine/compute.py:214-219 | the appending loop builds exactly the relative true ranges |
| ComputeEarly.Tail80 | worker.bkp_20260217_091859/engine/compute.py:220 | the last 80 ranges (all when fewer), empty only for an empty list |
| ComputeEarly.RealLeTotalPreorder | worker.bkp_20260217_091859/engine/compute.py:221 | `≤` on reals is a total preorder, so the median's sort is well defined |
| ComputeEarly.MedianWithin | worker.bkp_20260217_091859/engine/compute.py:221 | the median lies within any bounds of the list |
| ComputeEarly.MiddleSplits | worker.bkp_20260217_091859/engine/compute.py:221 | the middle of a sorted list lies between its two central elements |
| ComputeEarly.MedianSplits | worker.bkp_20260217_091859/engine/compute.py:221 | the median lies between the two central elements of the sorted list |
| ComputeEarly.TfHours | worker.bkp_20260217_091859/engine/compute.py:215 | one hour per candle for 1H, four for 4H; never below one |
| ComputeEarly.MovePerHour | worker.bkp_20260217_091859/engine/compute.py:220-222 | the median of the last 80 range fractions (the ATR fraction when there are none) per hour, never below 1e-6 |
| ComputeEarly.MovePerHourWithin | worker.bkp_20260217_091859/engine/compute.py:220-222 | when the last 80 range fractions lie in [lo, hi], the hourly move lies between max(1e-6, lo/tf) and max(1e-6, hi/tf) |
| ComputeEarly.HoursToTargetMonotone | worker.bkp_20260217_091859/engine/compute.py:224-225 | the estimated hours grow with the distance and are positive for a positive distance |
| ComputeEarly.EstimatePrazo | worker.bkp_20260217_091859/engine/compute.py:210-228 | the horizon is distance / max(1e-6, median move / tf) hours, and positive |
| ComputeEarly.QuotientPositive | worker.bkp_20260217_091859/engine/compute.py:222-225 | distance over speed is positive |
| ComputeEarly.NoEntrySignal | worker.bkp_20260217_091859/engine/compute.py:189-193 | NÃO ENTRAR with target = price, gain 0, hit rate 0, "-" horizon, zone and priority BAIXA, base risk |
| ComputeEarly.ChosenMode | worker.bkp_20260217_091859/engine/compute.py:179-187 | the chosen timeframe is 1H only when the final side is directional |
| ComputeEarly.ChosenAtr | worker.bkp_20260217_091859/engine/compute.py:178-187 | the ATR of the chosen timeframe is non-negative, and positive when 1H is chosen |
| ComputeEarly.ChooseInputs | worker.bkp_20260217_091859/engine/compute.py:155-187 | the final side is the agreed 1h/4h side, the 24h side is NÃO ENTRAR, and the mode, candles and ATR are those of the chosen timeframe |
| ComputeEarly.SignalFromTimeframe | worker.bkp_20260217_091859/engine/compute.py:189-234 | a directional signal exactly when the side is directional, the ATR positive and the gain meets the minimum; NÃO ENTRAR carries target = price, no gain, "-" horizon and the base risk of the 4h ATR (early exit) or the chosen ATR (gain gate); otherwise the signal is priced |
| ComputeEarly.BuildSignal | worker.bkp_20260217_091859/engine/compute.py:145-234 | directional iff the 1h and 4h sides agree and are directional, the chosen ATR is positive and the gain 1.5·ATR/price·100 meets the minimum; then target = price ± 1.5·ATR, the horizon from the median move, the replayed hit rate, the base risk tier unchanged, zone MÉDIA and priority MÉDIA iff gain ≥ 4 and risk not ALTO; priority never ALTA |
| ComputeEarly.PricedSignal | worker.bkp_20260217_091859/engine/compute.py:195-234 | NÃO ENTRAR iff the gain 1.5·ATR/price·100 is below the minimum; otherwise the agreed side, target ± 1.5·ATR, that gain, the horizon to the target, the hit rate over 12 candles and the classified levels; the risk is the base tier of the ATR fraction either way |
| Ranking.Norm | worker.bkp_20260217_084053/worker_pro.py:52-53 | upper-cases a–z and à–þ and strips the listed accents, keeping the length (see "Left out" for ß, ÿ, µ) |
| Ranking.NormIdempotent | worker.bkp_20260217_084053/worker_pro.py:52-53 | normalising twice is normalising once |
| Ranking.NormMedia | worker.bkp_20260217_084053/worker_pro.py:52-53 | "MÉDIA" and "media" both normalise to "MEDIA" |
| Ranking.NormMedio | worker.bkp_20260217_084053/worker_pro.py:52-53 | "MÉDIO" normalises to "MEDIO" |
| Ranking.PtsTier | worker.bkp_20260217_084053/worker_pro.py:57-61 | 3 iff ALTA, 2 iff MEDIA, else 1 |
| Ranking.PtsRisco | worker.bkp_20260217_084053/worker_pro.py:63-67 | 3 iff BAIXO, 2 iff MEDIO, else 1 |
| Ranking.PtsIgnoreAccents | worker.bkp_20260217_084053/worker_pro.py:57-73 | an accented tier scores the same as the plain one |
| Ranking.MkNo | worker.bkp_20260217_084053/worker_pro.py:80-98 | a NÃO ENTRAR item with no target, gain, hit rate, horizon or tiers |
| Ranking.ItemFor | worker.bkp_20260217_084053/worker_pro.py:104-150 | NÃO ENTRAR iff the fetch failed, the signal is not directional, or it misses the gain/hit-rate gate; a directional item carries the signal's values |
| Ranking.ParLeTotalPreorder | worker.bkp_20260217_084053/worker_pro.py:153 | the FULL order by coin name is a total preorder |
| Ranking.CandLeTotalPreorder | worker.bkp_20260217_084053/worker_pro.py:173-178 | the four-key TOP10 order is a total preorder |
| Ranking.RankPts | worker.bkp_20260217_084053/worker_pro.py:168 | rank points lie in [3,9] |
| Ranking.Candidates | worker.bkp_20260217_084053/worker_pro.py:164-171 | only LONG/SHORT items, each from the FULL list, with points in [3,9] |
| Ranking.Unsorted | worker.bkp_20260217_084053/worker_pro.py:104-150 | one item per coin |
| Ranking.CollectItems | worker.bkp_20260217_084053/worker_pro.py:104-150 | the per-coin loop builds one item per coin; the ok count is the number of coins whose signal was computed and the rest are missing |
| Ranking.GateHolds | worker.bkp_20260217_084053/worker_pro.py:125-153 | sorting keeps every item gated |
| Ranking.CandidateList | worker.bkp_20260217_084053/worker_pro.py:164-171 | the candidate loop keeps exactly the LONG/SHORT items, with their points |
| Ranking.Top10 | worker.bkp_20260217_084053/worker_pro.py:173-185 | at most 10 candidates, in (points, hit rate, gain, coin) order, a prefix of the sorted candidates |
| Ranking.BuildPayload | worker.bkp_20260217_084053/worker_pro.py:100-186 | FULL has one gated item per coin, sorted by coin and a permutation of the items; TOP10 is the sorted candidate prefix of at most 10 |
| OutcomeTracker.Lot | worker/engine/audit_top10.py:72-80 | the four cheap coins get the "1000" lot prefix, others are unchanged |
| OutcomeTracker.Sym | worker/engine/audit_top10.py:72-82 | the USDT perpetual of the stripped upper-cased pair |
| OutcomeTracker.AtrFromEntryTarget | worker/engine/audit_top10.py:90-99 | 1.5·ATR = \|target − entry\|; ATR 0 iff target = entry |
| OutcomeTracker.Invalidado | worker/engine/audit_top10.py:102-106 | entry − ATR for LONG, entry + ATR for any other side |
| OutcomeTracker.StopOppositeTarget | worker/engine/audit_top10.py:90-106 | the stop sits opposite the target at two thirds of its distance |
| OutcomeTracker.PnlPct | worker/engine/audit_top10.py:109-120 | 0 for a non-positive entry; positive/negative exactly on the profitable/losing side of the entry |
| OutcomeTracker.PnlShortIsNegatedLong | worker/engine/audit_top10.py:109-120 | the SHORT return is the negated LONG return |
| OutcomeTracker.CheckClose | worker/engine/audit_top10.py:130-154 | target before invalidation before time-to-live; WIN iff target, LOSS iff invalidation, EXPIRED iff TTL; no close iff none holds |
| OutcomeTracker.CloseSign | worker/engine/audit_top10.py:130-154 | a WIN close has a positive return and a LOSS close a negative one |
| OutcomeTracker.Ids | worker/engine/audit_top10.py:174-175 | the keys of the open-position dict, in order |
| OutcomeTracker.Lookup | worker/engine/audit_top10.py:196-197 | found iff the id is a key, and the found position carries that id |
| OutcomeTracker.Put | worker/engine/audit_top10.py:203-221 | an existing key keeps its place; a new key is appended |
| OutcomeTracker.PutLookup | worker/engine/audit_top10.py:203-221 | after assignment the key maps to the new position and other keys are unchanged |
| OutcomeTracker.PutKeepsUnique | worker/engine/audit_top10.py:203-221 | assignment keeps the keys unique |
| OutcomeTracker.Load | worker/engine/audit_top10.py:174-175 | unique keys, exactly the non-empty stored ids |
| OutcomeTracker.LoadKeepsLast | worker/engine/audit_top10.py:174-175 | the last stored position with an id is the one kept |
| OutcomeTracker.Open | worker/engine/audit_top10.py:200-221 | a new position has the digest id, both excursions 0, a positive entry and target, and its stop derived from them |
| OutcomeTracker.CaptureAll | worker/engine/audit_top10.py:183-223 | capturing only appends to the open book |
| OutcomeTracker.Capture | worker/engine/audit_top10.py:183-223 | the capture loop computes the captured book |
| OutcomeTracker.AdmitKeepsIds | worker/engine/audit_top10.py:185-221 | one admission keeps every id and adds the eligible item's id |
| OutcomeTracker.CaptureUnique | worker/engine/audit_top10.py:183-223 | capturing keeps the ids unique |
| OutcomeTracker.CapturePresent | worker/engine/audit_top10.py:185-221 | after capturing, every eligible item's id is open |
| OutcomeTracker.CaptureOfPresent | worker/engine/audit_top10.py:196-198 | items whose ids are all open add nothing |
| OutcomeTracker.CaptureIdempotent | worker/engine/audit_top10.py:183-223 | re-running the capture on the same items opens nothing |
| OutcomeTracker.Step | worker/engine/audit_top10.py:241-272 | a price ≤ 0 leaves the position open; it closes iff the price is positive and a close rule holds, carrying that price and its return |
| OutcomeTracker.Widen | worker/engine/audit_top10.py:245-247 | mfe only rises to the return and mae only falls to it |
| OutcomeTracker.StepKeepsBracket | worker/engine/audit_top10.py:241-272 | mae ≤ 0 ≤ mfe survives a step, and a close's return lies between them |
| OutcomeTracker.OpenOf | worker/engine/audit_top10.py:250-272 | the positions that stay open |
| OutcomeTracker.ClosedOf | worker/engine/audit_top10.py:250-272 | the positions that close |
| OutcomeTracker.Fates | worker/engine/audit_top10.py:226-275 | one fate per open position, from its own price and clock |
| OutcomeTracker.CountResult | worker/engine/audit_top10.py:262-268 | the number of closes with a result |
| OutcomeTracker.FatesSnoc | worker/engine/audit_top10.py:250-272 | each loop step adds the position to exactly one of the two lists |
| OutcomeTracker.CountSnoc | worker/engine/audit_top10.py:262-268 | each close increments exactly its own counter |
| OutcomeTracker.Partition | worker/engine/audit_top10.py:226-275 | open + closed = positions before the update |
| OutcomeTracker.FateIdsSplit | worker/engine/audit_top10.py:226-275 | the ids kept open and the ids closed together are, as a multiset, the ids of the fates |
| OutcomeTracker.FatesKeepIds | worker/engine/audit_top10.py:226-260 | the update gives one fate per position, carrying its id, in book order |
| OutcomeTracker.PartitionIds | worker/engine/audit_top10.py:226-275 | every id of the book ends up exactly once, either in the new book or among the closes |
| OutcomeTracker.ResultsPartition | worker/engine/audit_top10.py:262-268 | wins + losses + expired = closes |
| OutcomeTracker.FatesKeepBracket | worker/engine/audit_top10.py:245-247 | bracketed excursions survive the whole update |
| OutcomeTracker.Record | worker/engine/audit_top10.py:250-272 | the loop tail appends to exactly one list and keeps the counters equal to the counts |
| OutcomeTracker.UpdateAndClose | worker/engine/audit_top10.py:226-275 | the update loop yields the positions that stay open and those that close, with counts that partition the closes |
| OutcomeTracker.CaptureKeepsBracket | worker/engine/audit_top10.py:219-220 | new positions start at zero excursion, so capture keeps mae ≤ 0 ≤ mfe |
| OutcomeTracker.AdmitKeepsBracket | worker/engine/audit_top10.py:219-220 | one admission keeps mae ≤ 0 ≤ mfe |
| OutcomeTracker.UpdateKeepsBracket | worker/engine/audit_top10.py:245-247 | the update keeps mae ≤ 0 ≤ mfe for open and closed positions |
| OutcomeTracker.PutKeepsBracket | worker/engine/audit_top10.py:203-221 | assignment keeps mae ≤ 0 ≤ mfe |
| OutcomeTracker.LoadKeepsBracket | worker/engine/audit_top10.py:174-175 | loading keeps mae ≤ 0 ≤ mfe |
| OutcomeSummary.PyTail | worker/engine/audit_top10.py:284 | `s[-m:]`: the last m elements (all when fewer), and all of them when m = 0 |
| OutcomeSummary.WinRate | worker/engine/audit_top10.py:282 | 0 with no closes, in [0,100], 100 when every close is a win |
| OutcomeSummary.ShareAtMostOne | worker/engine/audit_top10.py:282 | a part never exceeds its whole |
| OutcomeSummary.Pnls | worker/engine/audit_top10.py:290 | the realised return of each close |
| OutcomeSummary.Avg | worker/engine/audit_top10.py:286-288 | 0 for no values, otherwise average × count = sum |
| OutcomeSummary.AvgWithin | worker/engine/audit_top10.py:286-288 | the average lies within any bounds of the values |
| OutcomeSummary.ExpiredWithSign | worker/engine/audit_top10.py:292-303 | the expired closes of one sign are at most all expired closes |
| OutcomeSummary.TtlTallyPartition | worker/engine/audit_top10.py:292-303 | positive + negative + zero = expired closes |
| OutcomeSummary.TtlTally | worker/engine/audit_top10.py:292-303 | the tally loop counts the expired closes by sign, and the three counts sum to the expired ones |
| OutcomeSummary.Keys | worker/engine/audit_top10.py:336-347 | the bucket keys in first-seen order |
| OutcomeSummary.AddToKeys | worker/engine/audit_top10.py:336-347 | `setdefault` keeps existing keys in place and appends a new one |
| OutcomeSummary.AddToTotals | worker/engine/audit_top10.py:336-347 | adding a close raises the total count by one and the total return by its value |
| OutcomeSummary.TallyProperties | worker/engine/audit_top10.py:336-347 | distinct keys; bucket counts add up to the closes and bucket sums to their returns |
| OutcomeSummary.Seconds | worker/engine/audit_top10.py:336-347 | the returns of the entries |
| OutcomeSummary.TwoDigits | worker/engine/audit_top10.py:330 | an hour is two digits |
| OutcomeSummary.Label | worker/engine/audit_top10.py:324-332 | ("-","-") for an unparsable stamp, else a weekday name and a two-digit hour |
| OutcomeSummary.DowEntries | worker/engine/audit_top10.py:336-339 | each close paired with its weekday |
| OutcomeSummary.HourEntries | worker/engine/audit_top10.py:340-343 | each close paired with its hour |
| OutcomeSummary.ComboEntries | worker/engine/audit_top10.py:344-347 | each close paired with its (weekday, hour) window |
| OutcomeSummary.TallySnoc | worker/engine/audit_top10.py:336-347 | each loop step adds one close to its bucket |
| OutcomeSummary.Place | worker/engine/audit_top10.py:324-332 | the labelling step computes the weekday and hour labels |
| OutcomeSummary.Buckets | worker/engine/audit_top10.py:323-347 | the bucket loop builds the weekday, hour and window tallies |
| OutcomeSummary.Finalize | worker/engine/audit_top10.py:349-350 | same key and count; average 0 for no closes, else average × count = sum |
| OutcomeSummary.Averaged | worker/engine/audit_top10.py:349-350 | one averaged row per bucket |
| OutcomeSummary.WindowLeTotalPreorder | worker/engine/audit_top10.py:362-363 | the (average, count) descending order is a total preorder |
| OutcomeSummary.BestWindows | worker/engine/audit_top10.py:352-364 | at most 8 windows, sorted by (average, count) descending, taken from the averaged tally |
| OutcomeSummary.Summarize | worker/engine/audit_top10.py:281-399 | total = win + loss + expired = closes; win rate; last closes; TTL tally sums to their expired; buckets; at most 8 best windows, sorted |
| OutcomeSummary.RunCycle | worker/engine/audit_top10.py:157-399 | the whole cycle: open + closed = the captured book, the summary's totals match, mae ≤ 0 ≤ mfe preserved |
| Metrics30d.Kept | worker/tools/audit_metrics_30d.py:63-78 | every kept row is a parsed line in the window, and every such line is kept |
| Metrics30d.ReadRows | worker/tools/audit_metrics_30d.py:63-78 | the reading loop keeps exactly those rows |
| Metrics30d.Classify | worker/tools/audit_metrics_30d.py:85-100 | win iff pnl > 0, loss iff pnl < 0, never both; expired iff pnl missing, result EXPIRED/TIMEOUT or hit TTL; timeout implies expired |
| Metrics30d.WinAndExpiredOverlap | worker/tools/audit_metrics_30d.py:85-100 | a positive EXPIRED close is both a win and expired |
| Metrics30d.SecondField | worker/tools/audit_metrics_30d.py:37 | the second space-separated field has no space |
| Metrics30d.TakeUntilSpace | worker/tools/audit_metrics_30d.py:37 | a prefix up to the first space |
| Metrics30d.Take2 | worker/tools/audit_metrics_30d.py:37 | the first two characters, or all when fewer |
| Metrics30d.HourFromTs | worker/tools/audit_metrics_30d.py:34-39 | no hour iff the stamp has no space; at most two characters |
| Metrics30d.HourOf | worker/tools/audit_metrics_30d.py:107-112 | the stamp's hour when it has one, else `hora`'s; none iff neither gives one |
| Metrics30d.KeyOf | worker/tools/audit_metrics_30d.py:103-113 | the coin (or "-"), the hour, or a weekday name |
| Metrics30d.Widened | worker/tools/audit_metrics_30d.py:123-127 | a sum bracketed by n copies of the extremes stays bracketed after one more value |
| Metrics30d.BumpSane | worker/tools/audit_metrics_30d.py:116-146 | one close keeps a bucket's counts within n and its sum within the extremes |
| Metrics30d.Keys | worker/tools/audit_metrics_30d.py:116-146 | the bucket keys in first-seen order |
| Metrics30d.Aggregate | worker/tools/audit_metrics_30d.py:102-146 | the loop builds the coin, hour and weekday buckets |
| Metrics30d.AddKeys | worker/tools/audit_metrics_30d.py:116 | an existing key keeps its place; a new one is appended |
| Metrics30d.AddTotal | worker/tools/audit_metrics_30d.py:116-146 | each counter's total rises by exactly the close's flag |
| Metrics30d.AddSane | worker/tools/audit_metrics_30d.py:116-146 | adding a close keeps every bucket sane |
| Metrics30d.FoldDistinct | worker/tools/audit_metrics_30d.py:116-146 | no key has two buckets |
| Metrics30d.FoldSane | worker/tools/audit_metrics_30d.py:116-146 | every bucket's counts fit in n and its P&L sum lies within its extremes |
| Metrics30d.FoldTotals | worker/tools/audit_metrics_30d.py:116-146 | each counter summed over the buckets equals the number of rows carrying it: every keyed row lands in exactly one bucket |
| Metrics30d.EveryRowCounted | worker/tools/audit_metrics_30d.py:116-140 | on the coin and weekday axes the bucket sizes add up to the kept rows |
| Metrics30d.FinalizeItem | worker/tools/audit_metrics_30d.py:148-167 | win rate × n = wins × 100 in [0,100]; average 0 with no P&L, else between the extremes; extremes and timeout share only for coins |
| Metrics30d.ShareBounds | worker/tools/audit_metrics_30d.py:152 | a share lies in [0,100] |
| Metrics30d.AverageBounds | worker/tools/audit_metrics_30d.py:151 | an average lies between the extremes |
| Metrics30d.Finalized | worker/tools/audit_metrics_30d.py:169-171 | one finalised item per bucket |
| Metrics30d.ItemLeTotalPreorder | worker/tools/audit_metrics_30d.py:173-174 | the (average, win rate, count) descending order is a total preorder |
| Metrics30d.Recommendables | worker/tools/audit_metrics_30d.py:188-189 | exactly the items with n ≥ 20 and a positive average, order kept |
| Metrics30d.Best | worker/tools/audit_metrics_30d.py:188-189 | at most `limit` recommendable items from the list, all of them when fewer, order kept |
| Metrics30d.FinalizedTotal | worker/tools/audit_metrics_30d.py:176-185 | finalising keeps every counter's total |
| Metrics30d.ItemTotalRemove | worker/tools/audit_metrics_30d.py:176-185 | removing one item removes its counters from the totals |
| Metrics30d.ItemTotalPermutation | worker/tools/audit_metrics_30d.py:173-185 | totals do not depend on the order of the list |
| Metrics30d.ParTotals | worker/tools/audit_metrics_30d.py:176-185 | totals n = kept rows, wins/losses/expired their counts; win rate 0 for no rows, in [0,100]; average stays 0 |
| Metrics30d.WinsWithinRows | worker/tools/audit_metrics_30d.py:116-121 | never more wins than rows |
| Metrics30d.BuildReport | worker/tools/audit_metrics_30d.py:41-201 | a missing log gives the SEM_ARQUIVO note and empty lists; otherwise totals match the kept rows, every bucket is sane, the coin and hour lists are sorted permutations of their finalised buckets, the weekday list is its finalised buckets in order, and the recommendations are the first 15 and 10 recommendable items |
| PayloadAudit.NoErrorsIffPasses | audit/run_audit.py:47-82 | a block appends no error exactly when its payload passes every check |
| PayloadAudit.CountErrors | audit/run_audit.py:51-56 | the mismatch, expected-count and more-than-10 errors appear exactly when their check fails |
| PayloadAudit.FieldErrors | audit/run_audit.py:49-79 | the ok, updated_brt and schema_version errors appear exactly when their field fails; no read error otherwise |
| PayloadAudit.ReadErrorLast | audit/run_audit.py:61-63 | an unreadable payload ends its block with a read error |
| PayloadAudit.CollectEmpty | audit/run_audit.py:47-60 | a run of checks appends no error exactly when none of its checks fails |
| PayloadAudit.CollectMember | audit/run_audit.py:47-60 | a check whose error no other check appends has that error in the list exactly when it fails |
| PayloadAudit.CollectAbsent | audit/run_audit.py:47-60 | an error no check appends never appears in the list |
| PayloadAudit.Flag | audit/run_audit.py:49-50 | a failing check clears `ok` and appends its error after those of the earlier checks; `ok` stays set exactly when no check so far has failed |
| PayloadAudit.CheckCounts | audit/run_audit.py:51-60 | once count and items have converted, the remaining checks append exactly their errors in order and keep `ok` set exactly when none fails |
| PayloadAudit.CheckBlock | audit/run_audit.py:46-82 | a block appends exactly its errors and leaves `ok` set iff none was appended |
| PayloadAudit.CountOf | audit/run_audit.py:93-101 | the converted count, or 0 |
| PayloadAudit.Capped | audit/run_audit.py:90 | the first 50 errors, all when fewer, empty iff none |
| PayloadAudit.Audit | audit/run_audit.py:41-104 | ok iff both payloads pass iff the reported errors are empty; exit code 0 iff ok, else 2 |
| Html.EscChar | site/shared.js:7 | &, <, > and " map to their entities; every other character is kept |
| Html.EscapeText | site/shared.js:7 | the escaped text has no raw <, > or " |
| Html.Esc | site/shared.js:7 | null/undefined gives ""; otherwise the escaped text |
| Html.UnescapeHead | site/shared.js:7 | one escaped character reads back as itself |
| Html.UnescapeEscape | site/shared.js:7 | reading the entities back gives the original text |
| Html.EscapeKeepsPlain | site/shared.js:7 | text without the four characters is unchanged |
| Html.EscapeConcat | site/shared.js:7 | escaping works character by character, in order |
| Text.Upper | worker/engine/audit_top10.py:186 | upper-cases a–z and à–þ (except ÷) and keeps every other character, keeping the length |
| Text.Strip | worker/engine/audit_top10.py:185-186 | no surrounding blanks; empty iff all blank |
| Sorting.SortBy | worker.bkp_20260217_084053/worker_pro.py:153 | the sort returns a permutation of its input |
| Sorting.SortBySorted | worker.bkp_20260217_084053/worker_pro.py:173-178 | the sort's result is ordered |

## Left out

- **File and network I/O.** Reading and writing JSON and JSONL is not modelled:
  atomic writes, `_read_json`, `_append_jsonl` and `load_json`. Neither are the CSV
  and JSON outputs of the 30-day report or the exchange price and candle clients.
  The mark prices of a cycle are a map passed in (`Cycle.prices`). A missing or
  raising fetch is a missing price, or `None`.
- **Clock, calendar, timezones and timestamp parsing.** These are parameters:
  - `now` and `closeTs` in `Cycle`;
  - `Stamp` for the capture time;
  - `parseTtl` and `parseTs`;
  - `Calendar` (cut-off, date parsing, weekday) for the 30-day report.
- **Hashing.** SHA-1 of the formatted key in `_audit_id` is a digest function
  passed in (`AuditKey -> string`). Only its determinism is used.
- **Formatting.** Float-to-text formatting, `round()` and the text of the error
  messages are left out. Numbers are exact reals. An error is its kind plus the
  numbers its message carries (`PayloadAudit.Kind`). A horizon is a value, not
  its text (`Prazo`).
- **Configuration and scheduling.** Configuration loading, the expected coin count
  (passed in as `expected`), the scheduling loops and the swallow-all exception
  handlers are not part of this model.
- **Sorting.** Python's `list.sort` and `sorted` are modelled by a stable
  insertion sort on values. The `reverse=True` sorts use the descending comparator.
  `statistics.median` is specified through that sort.
- **Text.** `str.upper` is modelled for the ASCII letters and the Latin-1 letters
  à–þ (not ß, ÿ or µ); `str.strip` for the usual blanks only. JavaScript's `String()` conversion of non-string
  values in `esc` is not modelled; the input is text or null.
- **Ranking inputs.** In `worker_pro.py` the signal of each coin is an input of
  `Ranking.BuildPayload`. The signal builder that version imports is not part of
  this model; `Compute` and `ComputeEarly` model the two builders that are.
- **The window key.** The (weekday, hour) window key of the cycle summary is kept
  as a pair instead of the joined text.
- **Value-level model.** Positions, buckets and payloads are values rather than
  mutable dicts. So the model does not capture aliasing between `s` and the dict
  entry it was read from.
- Text.Upper, Ranking.Norm: leave ß (U+00DF), ÿ (U+00FF) and µ (U+00B5) unchanged.
  Python's `str.upper` gives "SS", "Ÿ" (U+0178) and "Μ" (U+039C). For ß the text
  grows by one character, so "keeping the length" holds only for text without ß.
- Indicators.Rsi, Indicators.Atr: require `period > 0`, because the source divides
  by the period.
- ComputeEarly.MfeMaeAssert: requires `lookahead >= 1`. With a look-ahead of 0 the
  source raises (`max()` of an empty window); its only caller passes 12.
- ComputeEarly.PricedSignal: takes the 24-hour side as NÃO ENTRAR, which
  `ComputeEarly.Side24NeverDirectional` proves it always is.
- Metrics30d.BuildReport: the missing-log totals report a 0.0 win rate where the
  source omits that key.
- Metrics30d.Kept: a log line that parses as JSON but is not an object makes the
  source raise. The model treats it like an unreadable line.
- OutcomeSummary.Summarize: pairs whose P&L is missing count as 0, as `or 0.0`
  makes them. Closes are kept as values rather than re-read from the log.
