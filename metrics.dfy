/** The 30-day report of `worker/tools/audit_metrics_30d.py`: the closed-position
    log is cut to the last 30 days, each close is classified as win, loss
    and/or expired, and counted per coin, per hour and per weekday; the coin and
    hour lists are ranked and only buckets with at least 20 closes and a
    positive average are recommended. */
module Metrics30d {
  import opened Common
  import opened Text
  import opened Sorting

  const MIN_N: nat := 20
  const PERIOD_DAYS: nat := 30

  /** The fields of one log line the report reads; `None` is a missing field
      (for `pnl`, also a value that is not a number). */
  datatype Rec = Rec(date: Option<string>, par: Option<string>, closeTs: Option<string>,
                     hora: Option<string>, pnl: Option<real>, result: Option<string>, hit: Option<string>)

  /** The calendar: the cut-off day, the parse of `YYYY-MM-DD` to a day number
      and the weekday of a day number. */
  datatype Calendar = Calendar(cutoff: int, parseDate: string -> Option<int>, weekday: int -> Weekday)

  // --------------------------------------------------------------- the rows

  /** A line is kept when its date parses and is not before the cut-off. */
  predicate InWindow(r: Rec, cal: Calendar) {
    var d := cal.parseDate(OrText(r.date, ""));
    d.Some? && d.value >= cal.cutoff
  }

  /** The rows the reading loop keeps, in order; `None` is a blank line or one
      that is not JSON. */
  function Kept(lines: seq<Option<Rec>>, cal: Calendar): (rows: seq<Rec>)
    ensures |rows| <= |lines|
    ensures forall k :: 0 <= k < |rows| ==> InWindow(rows[k], cal) && Some(rows[k]) in lines
    ensures forall k :: 0 <= k < |lines| && lines[k].Some? && InWindow(lines[k].value, cal) ==> lines[k].value in rows
  {
    if lines == [] then []
    else
      var front := Kept(lines[..|lines| - 1], cal);
      var l := lines[|lines| - 1];
      var rows := if l.Some? && InWindow(l.value, cal) then front + [l.value] else front;
      assert forall k :: 0 <= k < |lines| - 1 ==> lines[k] == lines[..|lines| - 1][k];
      assert forall x :: x in front ==> x in rows;
      assert forall x :: Some(x) in lines[..|lines| - 1] ==> Some(x) in lines;
      rows
  }

  /** The reading loop of `main`. */
  method ReadRows(lines: seq<Option<Rec>>, cal: Calendar) returns (rows: seq<Rec>)
    ensures rows == Kept(lines, cal)
  {
    rows := [];
    for i := 0 to |lines|
      invariant rows == Kept(lines[..i], cal)
    {
      assert lines[..i + 1][..i] == lines[..i];
      var l := lines[i];
      if l.None? {
        continue;
      }
      var d := cal.parseDate(OrText(l.value.date, ""));
      if d.None? {
        continue;
      }
      if d.value < cal.cutoff {
        continue;
      }
      rows := rows + [l.value];
    }
    assert lines[..|lines|] == lines;
  }

  // --------------------------------------------------------- classification

  /** `classify`: the P&L, and whether the close is a win, a loss, expired, and
      a timeout. */
  datatype Class = Class(pnl: Option<real>, win: bool, loss: bool, expired: bool, timeout: bool)

  function Classify(r: Rec): (c: Class)
    ensures c.pnl == r.pnl
    ensures c.win <==> r.pnl.Some? && r.pnl.value > 0.0
    ensures c.loss <==> r.pnl.Some? && r.pnl.value < 0.0
    ensures !(c.win && c.loss)
    ensures r.pnl.None? ==> c.expired && !c.win && !c.loss
    ensures c.timeout ==> c.expired
    ensures c.expired <==> r.pnl.None? || Upper(OrText(r.result, "")) in {"EXPIRED", "TIMEOUT"}
                           || Upper(OrText(r.hit, "")) == "TTL"
  {
    var result := Upper(OrText(r.result, ""));
    var hit := Upper(OrText(r.hit, ""));
    var expired := r.pnl.None? || result == "EXPIRED" || result == "TIMEOUT" || hit == "TTL";
    Class(r.pnl, r.pnl.Some? && r.pnl.value > 0.0, r.pnl.Some? && r.pnl.value < 0.0, expired,
          result == "TIMEOUT" || hit == "TTL")
  }

  /** A close with a gain can at the same time count as expired: the flags do
      not partition the closes. */
  lemma WinAndExpiredOverlap()
    ensures var c := Classify(Rec(None, None, None, None, Some(1.0), Some("EXPIRED"), None));
      c.win && c.expired
  {
    assert Upper("EXPIRED") == "EXPIRED";
  }

  // ------------------------------------------------------------------- keys

  /** The text between the first and the second space, as `s.split(" ")[1]`. */
  function SecondField(s: string): (f: string)
    requires ' ' in s
    ensures ' ' !in f
  {
    if s[0] == ' ' then TakeUntilSpace(s[1..]) else SecondField(s[1..])
  }

  function TakeUntilSpace(s: string): (f: string)
    ensures ' ' !in f && |f| <= |s| && f == s[..|f|]
  {
    if s == [] || s[0] == ' ' then [] else [s[0]] + TakeUntilSpace(s[1..])
  }

  /** `x[:2]`. */
  function Take2(s: string): (r: string)
    ensures |r| == if |s| < 2 then |s| else 2
    ensures r == s[..|r|]
  {
    if |s| < 2 then s else s[..2]
  }

  /** `_hour_from_ts_brt`: the first two characters of the second field, or
      nothing when there is no space. */
  function HourFromTs(s: string): (h: Option<string>)
    ensures h.None? <==> ' ' !in s
    ensures h.Some? ==> |h.value| <= 2
  {
    if ' ' in s then Some(Take2(SecondField(s))) else None
  }

  /** The hour of a close: from `close_ts_brt` when present, else the first
      two characters of `hora`, else none. */
  function HourOf(r: Rec): (h: Option<string>)
    ensures h.Some? ==> |h.value| <= 2
    ensures OrText(r.closeTs, "") != "" && ' ' in r.closeTs.value ==> h == HourFromTs(r.closeTs.value)
    ensures h.None? <==> (OrText(r.closeTs, "") == "" || ' ' !in r.closeTs.value) && OrText(r.hora, "") == ""
  {
    var fromTs := if OrText(r.closeTs, "") != "" then HourFromTs(r.closeTs.value) else None;
    if fromTs.None? && OrText(r.hora, "") != "" then Some(Take2(r.hora.value)) else fromTs
  }

  /** The three ways of bucketing a close. */
  datatype Axis = ByPar | ByHour | ByDow

  /** The bucket key of a close on an axis; a close with no hour has no hour bucket. */
  function KeyOf(r: Rec, axis: Axis, cal: Calendar): (k: Option<string>)
    ensures axis != ByHour ==> k.Some?
    ensures axis == ByPar ==> k == Some(OrText(r.par, "-"))
    ensures axis == ByHour ==> k == HourOf(r)
    ensures axis == ByDow ==> k.value in DOW_NAMES
  {
    match axis
    case ByPar => Some(OrText(r.par, "-"))
    case ByHour => HourOf(r)
    case ByDow =>
      var d := cal.parseDate(OrText(r.date, "")).GetOr(cal.cutoff);
      Some(DOW_NAMES[cal.weekday(d)])
  }

  // ---------------------------------------------------------------- buckets

  /** One `defaultdict` bucket. The coin buckets also keep the extremes and the
      timeout count; the hour and weekday buckets keep them too, unreported. */
  datatype Agg = Agg(key: string, n: nat, wins: nat, loss: nat, expired: nat, pnlSum: real,
                     pnlN: nat, pnlMin: Option<real>, pnlMax: Option<real>, timeoutN: nat)

  /** What every bucket satisfies: the counts fit in `n`, and with any P&L
      the extremes exist and bracket the sum. */
  predicate Sane(a: Agg) {
    && a.n >= 1 && a.wins + a.loss <= a.pnlN <= a.n && a.expired <= a.n && a.timeoutN <= a.expired
    && (a.pnlN > 0 <==> a.pnlMin.Some?) && (a.pnlMin.Some? <==> a.pnlMax.Some?)
    && (a.pnlN == 0 ==> a.pnlSum == 0.0)
    && (a.pnlN > 0 ==> a.pnlMin.value * a.pnlN as real <= a.pnlSum <= a.pnlMax.value * a.pnlN as real)
  }

  /** The counter updates of one close. */
  function Bump(a: Agg, c: Class): Agg {
    var a1 := a.(n := a.n + 1,
                 wins := a.wins + (if c.win then 1 else 0),
                 loss := a.loss + (if c.loss then 1 else 0),
                 expired := a.expired + (if c.expired then 1 else 0),
                 timeoutN := a.timeoutN + (if c.timeout then 1 else 0));
    if c.pnl.None? then a1
    else
      var p := c.pnl.value;
      a1.(pnlSum := a.pnlSum + p, pnlN := a.pnlN + 1,
          pnlMin := Some(if a.pnlMin.None? then p else Min(a.pnlMin.value, p)),
          pnlMax := Some(if a.pnlMax.None? then p else Max(a.pnlMax.value, p)))
  }

  function Fresh(key: string): Agg { Agg(key, 0, 0, 0, 0, 0.0, 0, None, None, 0) }

  /** Adding a value to a sum bracketed by `n` copies of two extremes keeps it
      bracketed by `n + 1` copies of the widened extremes. */
  lemma Widened(lo: real, hi: real, sum: real, n: real, p: real)
    requires n > 0.0 && lo * n <= sum <= hi * n
    ensures Min(lo, p) * (n + 1.0) <= sum + p <= Max(hi, p) * (n + 1.0)
  {
    var lo', hi' := Min(lo, p), Max(hi, p);
    assert lo' * n <= lo * n by { assert (lo - lo') * n >= 0.0; }
    assert hi * n <= hi' * n by { assert (hi' - hi) * n >= 0.0; }
  }

  /** A close keeps a bucket sane. */
  lemma BumpSane(a: Agg, c: Class)
    requires Sane(a) || a == Fresh(a.key)
    requires c.win ==> c.pnl.Some? && c.pnl.value > 0.0
    requires c.loss ==> c.pnl.Some? && c.pnl.value < 0.0
    requires !(c.win && c.loss) && (c.timeout ==> c.expired)
    ensures Sane(Bump(a, c))
  {
    var b := Bump(a, c);
    if c.pnl.None? {
      assert b.pnlN == a.pnlN && b.pnlSum == a.pnlSum && b.pnlMin == a.pnlMin && b.pnlMax == a.pnlMax;
    } else if a.pnlN == 0 {
      assert b.pnlN == 1 && b.pnlSum == c.pnl.value && b.pnlMin == b.pnlMax == c.pnl;
    } else {
      assert a != Fresh(a.key);
      var p := c.pnl.value;
      assert b.pnlN == a.pnlN + 1 && b.pnlSum == a.pnlSum + p;
      assert b.pnlMin == Some(Min(a.pnlMin.value, p)) && b.pnlMax == Some(Max(a.pnlMax.value, p));
      Widened(a.pnlMin.value, a.pnlMax.value, a.pnlSum, a.pnlN as real, p);
    }
  }

  function Keys(b: seq<Agg>): (ks: seq<string>)
    ensures |ks| == |b| && forall k :: 0 <= k < |b| ==> ks[k] == b[k].key
  {
    if b == [] then [] else [b[0].key] + Keys(b[1..])
  }

  /** `bucket[key]` on a `defaultdict`, then the updates: an existing key is
      updated in place, a new one starts from zero at the end. */
  function Add(b: seq<Agg>, key: string, c: Class): seq<Agg> {
    if b == [] then [Bump(Fresh(key), c)]
    else if b[0].key == key then [Bump(b[0], c)] + b[1..]
    else [b[0]] + Add(b[1..], key, c)
  }

  /** The buckets of some rows on an axis, keys in first-seen order. */
  function Fold(rows: seq<Rec>, axis: Axis, cal: Calendar): seq<Agg> {
    if rows == [] then []
    else
      var front := Fold(rows[..|rows| - 1], axis, cal);
      var r := rows[|rows| - 1];
      match KeyOf(r, axis, cal)
      case None => front
      case Some(k) => Add(front, k, Classify(r))
  }

  /** The aggregation loop of `main`, all three axes at once. */
  method Aggregate(rows: seq<Rec>, cal: Calendar)
    returns (byPar: seq<Agg>, byHour: seq<Agg>, byDow: seq<Agg>)
    ensures byPar == Fold(rows, ByPar, cal) && byHour == Fold(rows, ByHour, cal)
    ensures byDow == Fold(rows, ByDow, cal)
  {
    byPar, byHour, byDow := [], [], [];
    for i := 0 to |rows|
      invariant byPar == Fold(rows[..i], ByPar, cal) && byHour == Fold(rows[..i], ByHour, cal)
      invariant byDow == Fold(rows[..i], ByDow, cal)
    {
      assert rows[..i + 1][..i] == rows[..i];
      var r := rows[i];
      var c := Classify(r);
      byPar := Add(byPar, OrText(r.par, "-"), c);
      var hour := HourOf(r);
      if hour.Some? {
        byHour := Add(byHour, hour.value, c);
      }
      var d := cal.parseDate(OrText(r.date, "")).GetOr(cal.cutoff);
      byDow := Add(byDow, DOW_NAMES[cal.weekday(d)], c);
    }
    assert rows[..|rows|] == rows;
  }

  // ----------------------------------------------------- bucket properties

  /** The four counters the totals add up. */
  datatype Counter = N | Wins | Losses | Expireds

  function Get(a: Agg, f: Counter): nat {
    match f
    case N => a.n
    case Wins => a.wins
    case Losses => a.loss
    case Expireds => a.expired
  }

  function Flag(c: Class, f: Counter): nat {
    match f
    case N => 1
    case Wins => if c.win then 1 else 0
    case Losses => if c.loss then 1 else 0
    case Expireds => if c.expired then 1 else 0
  }

  function Total(b: seq<Agg>, f: Counter): nat {
    if b == [] then 0 else Get(b[0], f) + Total(b[1..], f)
  }

  /** Number of rows with a key on the axis that carry the flag. */
  function Hits(rows: seq<Rec>, axis: Axis, cal: Calendar, f: Counter): nat {
    if rows == [] then 0
    else
      var r := rows[|rows| - 1];
      Hits(rows[..|rows| - 1], axis, cal, f) + (if KeyOf(r, axis, cal).Some? then Flag(Classify(r), f) else 0)
  }

  predicate Distinct(ks: seq<string>) {
    forall i, j :: 0 <= i < j < |ks| ==> ks[i] != ks[j]
  }

  predicate AllSane(b: seq<Agg>) {
    forall k :: 0 <= k < |b| ==> Sane(b[k])
  }

  lemma {:induction false} AddKeys(b: seq<Agg>, key: string, c: Class)
    ensures key in Keys(b) ==> Keys(Add(b, key, c)) == Keys(b)
    ensures key !in Keys(b) ==> Keys(Add(b, key, c)) == Keys(b) + [key]
  {
    if b != [] {
      var r := Add(b, key, c);
      if b[0].key == key {
        assert r[1..] == b[1..];
      } else {
        AddKeys(b[1..], key, c);
        assert r[1..] == Add(b[1..], key, c);
      }
    }
  }

  /** One close raises each counter of its bucket by its flag. */
  lemma GetBump(a: Agg, c: Class, f: Counter)
    ensures Get(Bump(a, c), f) == Get(a, f) + Flag(c, f)
  {
  }

  lemma {:induction false} AddTotal(b: seq<Agg>, key: string, c: Class, f: Counter)
    ensures Total(Add(b, key, c), f) == Total(b, f) + Flag(c, f)
  {
    if b == [] {
      GetBump(Fresh(key), c, f);
    } else {
      var r := Add(b, key, c);
      if b[0].key == key {
        GetBump(b[0], c, f);
        assert r[1..] == b[1..];
      } else {
        AddTotal(b[1..], key, c, f);
        assert r[1..] == Add(b[1..], key, c);
      }
    }
  }

  lemma {:induction false} AddSane(b: seq<Agg>, key: string, r: Rec)
    requires AllSane(b)
    ensures AllSane(Add(b, key, Classify(r)))
  {
    var c := Classify(r);
    var a := Add(b, key, c);
    if b == [] {
      BumpSane(Fresh(key), c);
    } else if b[0].key == key {
      BumpSane(b[0], c);
      forall k | 0 <= k < |a| ensures Sane(a[k]) {
        if k > 0 { assert a[k] == b[k]; }
      }
    } else {
      AddSane(b[1..], key, r);
      forall k | 0 <= k < |a| ensures Sane(a[k]) {
        if k > 0 { assert a[k] == Add(b[1..], key, c)[k - 1]; }
      }
    }
  }

  /** No key has two buckets. */
  lemma {:induction false} FoldDistinct(rows: seq<Rec>, axis: Axis, cal: Calendar)
    ensures Distinct(Keys(Fold(rows, axis, cal)))
  {
    if rows != [] {
      var front := Fold(rows[..|rows| - 1], axis, cal);
      FoldDistinct(rows[..|rows| - 1], axis, cal);
      var r := rows[|rows| - 1];
      match KeyOf(r, axis, cal) {
        case None =>
        case Some(k) =>
          var b := Add(front, k, Classify(r));
          AddKeys(front, k, Classify(r));
          if k !in Keys(front) {
            forall i, j | 0 <= i < j < |Keys(b)| ensures Keys(b)[i] != Keys(b)[j] {
              if j == |front| {
                assert Keys(b)[i] == Keys(front)[i];
              } else {
                assert Keys(b)[i] == Keys(front)[i] && Keys(b)[j] == Keys(front)[j];
              }
            }
          }
      }
    }
  }

  /** Every bucket is sane. */
  lemma {:induction false} FoldSane(rows: seq<Rec>, axis: Axis, cal: Calendar)
    ensures AllSane(Fold(rows, axis, cal))
  {
    if rows != [] {
      FoldSane(rows[..|rows| - 1], axis, cal);
      var r := rows[|rows| - 1];
      match KeyOf(r, axis, cal) {
        case None =>
        case Some(k) => AddSane(Fold(rows[..|rows| - 1], axis, cal), k, r);
      }
    }
  }

  /** Every row with a key lands in exactly one bucket: each counter of the
      buckets adds up to the rows carrying it. */
  lemma {:induction false} FoldTotals(rows: seq<Rec>, axis: Axis, cal: Calendar, f: Counter)
    ensures Total(Fold(rows, axis, cal), f) == Hits(rows, axis, cal, f)
  {
    if rows != [] {
      FoldTotals(rows[..|rows| - 1], axis, cal, f);
      var r := rows[|rows| - 1];
      match KeyOf(r, axis, cal) {
        case None =>
        case Some(k) => AddTotal(Fold(rows[..|rows| - 1], axis, cal), k, Classify(r), f);
      }
    }
  }

  /** On the coin and weekday axes every row has a key, so the bucket sizes add
      up to the number of rows. */
  lemma {:induction false} EveryRowCounted(rows: seq<Rec>, axis: Axis, cal: Calendar)
    requires axis != ByHour
    ensures Hits(rows, axis, cal, N) == |rows|
  {
    if rows != [] {
      EveryRowCounted(rows[..|rows| - 1], axis, cal);
    }
  }

  // -------------------------------------------------------------- the items

  /** One reported item; the extremes and the timeout share only for coins. */
  datatype Item = Item(key: string, n: nat, wins: nat, loss: nat, expired: nat, winRatePct: real,
                       pnlAvgPct: real, pnlMinPct: Option<real>, pnlMaxPct: Option<real>,
                       timeoutPct: Option<real>)

  /** `finalize_item`, without the final rounding. */
  function FinalizeItem(a: Agg, extended: bool): (it: Item)
    requires Sane(a)
    ensures it.key == a.key && it.n == a.n && it.wins == a.wins && it.loss == a.loss && it.expired == a.expired
    ensures 0.0 <= it.winRatePct <= 100.0
    ensures it.winRatePct * a.n as real == a.wins as real * 100.0
    ensures a.pnlN == 0 ==> it.pnlAvgPct == 0.0
    ensures a.pnlN > 0 ==> a.pnlMin.value <= it.pnlAvgPct <= a.pnlMax.value
    ensures extended <==> it.timeoutPct.Some?
    ensures extended ==> it.pnlMinPct == a.pnlMin && it.pnlMaxPct == a.pnlMax && 0.0 <= it.timeoutPct.value <= 100.0
    ensures !extended ==> it.pnlMinPct.None? && it.pnlMaxPct.None?
  {
    var n := a.n as real;
    var winRate := a.wins as real / n * 100.0;
    var pnlAvg := if a.pnlN > 0 then a.pnlSum / a.pnlN as real else 0.0;
    ShareBounds(a.wins, a.n);
    ShareBounds(a.timeoutN, a.n);
    if a.pnlN > 0 then
      AverageBounds(a.pnlMin.value, a.pnlSum, a.pnlMax.value, a.pnlN as real);
      Item(a.key, a.n, a.wins, a.loss, a.expired, winRate, pnlAvg,
           if extended then a.pnlMin else None, if extended then a.pnlMax else None,
           if extended then Some(a.timeoutN as real / n * 100.0) else None)
    else
      Item(a.key, a.n, a.wins, a.loss, a.expired, winRate, pnlAvg,
           if extended then a.pnlMin else None, if extended then a.pnlMax else None,
           if extended then Some(a.timeoutN as real / n * 100.0) else None)
  }

  lemma ShareBounds(part: nat, whole: nat)
    requires 0 < whole && part <= whole
    ensures 0.0 <= part as real / whole as real * 100.0 <= 100.0
  {
    var q := part as real / whole as real;
    assert q * whole as real == part as real;
    DivideOutPositive(q, 1.0, whole as real);
  }

  lemma AverageBounds(lo: real, sum: real, hi: real, n: real)
    requires n > 0.0 && lo * n <= sum <= hi * n
    ensures lo <= sum / n <= hi
  {
    var m := sum / n;
    assert m * n == sum;
    DivideOutPositive(lo, m, n);
    DivideOutPositive(m, hi, n);
  }

  function Finalized(b: seq<Agg>, extended: bool): (items: seq<Item>)
    requires AllSane(b)
    ensures |items| == |b| && forall k :: 0 <= k < |b| ==> items[k] == FinalizeItem(b[k], extended)
  {
    seq(|b|, k requires 0 <= k < |b| => FinalizeItem(b[k], extended))
  }

  /** The report order: average P&L, then hit rate, then count, all descending. */
  predicate ItemLe(a: Item, b: Item) {
    a.pnlAvgPct > b.pnlAvgPct
    || (a.pnlAvgPct == b.pnlAvgPct
        && (a.winRatePct > b.winRatePct || (a.winRatePct == b.winRatePct && a.n >= b.n)))
  }

  lemma ItemLeTotalPreorder()
    ensures TotalPreorder(ItemLe)
  {
  }

  /** A recommendable item: at least `MIN_N` closes and a positive average. */
  predicate Recommendable(x: Item) { x.n >= MIN_N && x.pnlAvgPct > 0.0 }

  function Recommendables(items: seq<Item>): (r: seq<Item>)
    ensures |r| <= |items|
    ensures forall k :: 0 <= k < |r| ==> Recommendable(r[k]) && r[k] in items
    ensures forall k :: 0 <= k < |items| && Recommendable(items[k]) ==> items[k] in r
    ensures SortedBy(items, ItemLe) ==> SortedBy(r, ItemLe)
  {
    if items == [] then []
    else
      var front := Recommendables(items[..|items| - 1]);
      var x := items[|items| - 1];
      assert forall k :: 0 <= k < |items| - 1 ==> items[k] == items[..|items| - 1][k];
      assert SortedBy(items, ItemLe) ==> SortedBy(items[..|items| - 1], ItemLe);
      if Recommendable(x) then
        assert SortedBy(items, ItemLe) ==> forall k :: 0 <= k < |front| ==> ItemLe(front[k], x) by {
          if SortedBy(items, ItemLe) {
            forall k | 0 <= k < |front| ensures ItemLe(front[k], x) {
              var j :| 0 <= j < |items| - 1 && items[j] == front[k];
            }
          }
        }
        front + [x]
      else front
  }

  /** `[x for x in list if n >= MIN_N and pnl_avg > 0][:limit]`. */
  function Best(items: seq<Item>, limit: nat): (r: seq<Item>)
    ensures |r| <= limit
    ensures forall k :: 0 <= k < |r| ==> Recommendable(r[k]) && r[k] in items
    ensures |r| < limit ==> forall k :: 0 <= k < |items| && Recommendable(items[k]) ==> items[k] in r
    ensures SortedBy(items, ItemLe) ==> SortedBy(r, ItemLe)
  {
    var all := Recommendables(items);
    if |all| <= limit then all else all[..limit]
  }

  // ------------------------------------------------------------- the report

  datatype Totals = Totals(n: nat, wins: nat, loss: nat, expired: nat, winRatePct: real, pnlAvgPct: real)

  datatype Report = Report(note: Option<string>, totals: Totals, byPar: seq<Item>, byHour: seq<Item>,
                           byDow: seq<Item>, bestPar: seq<Item>, bestHours: seq<Item>)

  function ItemTotal(items: seq<Item>, f: Counter): nat {
    if items == [] then 0
    else
      (match f
       case N => items[0].n
       case Wins => items[0].wins
       case Losses => items[0].loss
       case Expireds => items[0].expired)
      + ItemTotal(items[1..], f)
  }

  /** Finalising keeps the counters. */
  lemma {:induction false} FinalizedTotal(b: seq<Agg>, extended: bool, f: Counter)
    requires AllSane(b)
    ensures ItemTotal(Finalized(b, extended), f) == Total(b, f)
  {
    if b != [] {
      FinalizedTotal(b[1..], extended, f);
      assert Finalized(b, extended)[1..] == Finalized(b[1..], extended);
    }
  }

  /** Taking one element out of a list takes its counter out of the total. */
  lemma {:induction false} ItemTotalRemove(s: seq<Item>, j: nat, f: Counter)
    requires j < |s|
    ensures ItemTotal(s, f) == ItemTotal([s[j]], f) + ItemTotal(s[..j] + s[j + 1..], f)
  {
    if j > 0 {
      ItemTotalRemove(s[1..], j - 1, f);
      assert s[1..][..j - 1] + s[1..][j..] == (s[..j] + s[j + 1..])[1..];
    } else {
      assert s[..j] + s[j + 1..] == s[1..];
    }
  }

  /** So the totals do not depend on the order of the list. */
  lemma {:induction false} ItemTotalPermutation(a: seq<Item>, b: seq<Item>, f: Counter)
    requires multiset(a) == multiset(b)
    ensures ItemTotal(a, f) == ItemTotal(b, f)
    decreases |a|
  {
    if a != [] {
      assert a[0] in multiset(b);
      var j :| 0 <= j < |b| && b[j] == a[0];
      var rest := b[..j] + b[j + 1..];
      RemoveMatching(a, b, j);
      ItemTotalPermutation(a[1..], rest, f);
      ItemTotalRemove(b, j, f);
    }
  }

  /** `main` after reading: aggregate, finalise, rank, total and recommend.
      `lines` is `None` when the log does not exist. */
  method BuildReport(lines: Option<seq<Option<Rec>>>, cal: Calendar) returns (rep: Report)
    ensures lines.None? ==> (rep.note == Some("SEM_ARQUIVO top10_closed.jsonl") && rep.totals.n == 0
      && rep.byPar == [] && rep.byHour == [] && rep.byDow == [] && rep.bestPar == [] && rep.bestHours == [])
    ensures lines.Some? ==> var rows := Kept(lines.value, cal);
      && rep.note.None?
      && rep.totals.n == |rows|
      && rep.totals.wins == Hits(rows, ByPar, cal, Wins)
      && rep.totals.loss == Hits(rows, ByPar, cal, Losses)
      && rep.totals.expired == Hits(rows, ByPar, cal, Expireds)
      && (|rows| == 0 ==> rep.totals.winRatePct == 0.0)
      && AllSane(Fold(rows, ByPar, cal)) && AllSane(Fold(rows, ByHour, cal)) && AllSane(Fold(rows, ByDow, cal))
      && SortedBy(rep.byPar, ItemLe) && multiset(rep.byPar) == multiset(Finalized(Fold(rows, ByPar, cal), true))
      && SortedBy(rep.byHour, ItemLe) && multiset(rep.byHour) == multiset(Finalized(Fold(rows, ByHour, cal), false))
      && rep.byDow == Finalized(Fold(rows, ByDow, cal), false)
      && rep.bestPar == Best(rep.byPar, 15) && rep.bestHours == Best(rep.byHour, 10)
    ensures 0.0 <= rep.totals.winRatePct <= 100.0 && rep.totals.pnlAvgPct == 0.0
    ensures |rep.bestPar| <= 15 && |rep.bestHours| <= 10
    ensures forall k :: 0 <= k < |rep.bestPar| ==> Recommendable(rep.bestPar[k]) && rep.bestPar[k] in rep.byPar
    ensures forall k :: 0 <= k < |rep.bestHours| ==> Recommendable(rep.bestHours[k]) && rep.bestHours[k] in rep.byHour
  {
    if lines.None? {
      rep := Report(Some("SEM_ARQUIVO top10_closed.jsonl"), Totals(0, 0, 0, 0, 0.0, 0.0), [], [], [], [], []);
      return;
    }
    var rows := ReadRows(lines.value, cal);
    var byPar, byHour, byDow := Aggregate(rows, cal);
    FoldSane(rows, ByPar, cal);
    FoldSane(rows, ByHour, cal);
    FoldSane(rows, ByDow, cal);
    forall f | true ensures Total(byPar, f) == Hits(rows, ByPar, cal, f) {
      FoldTotals(rows, ByPar, cal, f);
    }
    var parList := SortBy(Finalized(byPar, true), ItemLe);
    var hourList := SortBy(Finalized(byHour, false), ItemLe);
    var dowList := Finalized(byDow, false);
    ItemLeTotalPreorder();
    SortBySorted(Finalized(byPar, true), ItemLe);
    SortBySorted(Finalized(byHour, false), ItemLe);
    var totals := ParTotals(rows, cal, byPar, parList);
    rep := Report(None, totals, parList, hourList, dowList, Best(parList, 15), Best(hourList, 10));
  }

  /** The `totals` block: sums over the coin list, hit rate, and an average
      P&L that is never computed and stays 0. */
  method ParTotals(rows: seq<Rec>, cal: Calendar, byPar: seq<Agg>, parList: seq<Item>) returns (t: Totals)
    requires byPar == Fold(rows, ByPar, cal) && AllSane(byPar)
    requires forall f :: Total(byPar, f) == Hits(rows, ByPar, cal, f)
    requires multiset(parList) == multiset(Finalized(byPar, true))
    ensures t.n == |rows| && t.wins == Hits(rows, ByPar, cal, Wins)
    ensures t.loss == Hits(rows, ByPar, cal, Losses) && t.expired == Hits(rows, ByPar, cal, Expireds)
    ensures t.n == 0 ==> t.winRatePct == 0.0
    ensures 0.0 <= t.winRatePct <= 100.0 && t.pnlAvgPct == 0.0
  {
    EveryRowCounted(rows, ByPar, cal);
    forall f ensures ItemTotal(parList, f) == Hits(rows, ByPar, cal, f) {
      ItemTotalPermutation(parList, Finalized(byPar, true), f);
      FinalizedTotal(byPar, true, f);
    }
    var n, wins := ItemTotal(parList, N), ItemTotal(parList, Wins);
    WinsWithinRows(rows, cal);
    var winRate := 0.0;
    if n > 0 {
      ShareBounds(wins, n);
      winRate := wins as real / n as real * 100.0;
    }
    t := Totals(n, wins, ItemTotal(parList, Losses), ItemTotal(parList, Expireds), winRate, 0.0);
  }

  /** There are never more wins than rows. */
  lemma {:induction false} WinsWithinRows(rows: seq<Rec>, cal: Calendar)
    ensures Hits(rows, ByPar, cal, Wins) <= Hits(rows, ByPar, cal, N)
  {
    if rows != [] {
      WinsWithinRows(rows[..|rows| - 1], cal);
    }
  }
}
