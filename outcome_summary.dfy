/** The end of `run_audit_top10` in `worker/engine/audit_top10.py`: the summary
    of the closes of one cycle (totals, hit rate, the sign of the expired
    closes, averages per weekday and hour and the best weekday/hour windows),
    and the whole cycle from the stored book to the new book and summary. */
module OutcomeSummary {
  import opened Common
  import opened Sorting
  import opened OutcomeTracker

  // ------------------------------------------------------------ last closed

  /** Python's `s[-m:]`: the last `m` elements for a positive `m`, but the whole
      list for `m == 0` (since `-0 == 0`), and all but the first `-m` for a
      negative `m`. */
  function PyTail<T>(s: seq<T>, m: int): (r: seq<T>)
    ensures |r| <= |s| && r == s[|s| - |r|..]
    ensures m > 0 ==> |r| == (if m <= |s| then m else |s|)
    ensures m == 0 ==> r == s
  {
    var k := -m;
    var start := if k < 0 then (if |s| + k < 0 then 0 else |s| + k) else (if k > |s| then |s| else k);
    s[start..]
  }

  // ---------------------------------------------------------------- overall

  /** `win_rate`: wins over closes in percent, 0 with no closes. */
  function WinRate(win: nat, total: nat): (r: real)
    ensures total == 0 ==> r == 0.0
    ensures win <= total ==> 0.0 <= r <= 100.0
    ensures 0 < total && win == total ==> r == 100.0
  {
    if total > 0 then
      ShareAtMostOne(win, total);
      win as real / total as real * 100.0
    else 0.0
  }

  /** A part over a positive whole is at most one. */
  lemma ShareAtMostOne(part: nat, whole: nat)
    requires whole > 0
    ensures part <= whole ==> part as real / whole as real <= 1.0
  {
    var q := part as real / whole as real;
    assert q * whole as real == part as real;
    if part <= whole {
      DivideOutPositive(q, 1.0, whole as real);
    }
  }

  /** The realised P&L of each close. */
  function Pnls(closed: seq<Closed>): (r: seq<real>)
    ensures |r| == |closed| && forall k :: 0 <= k < |closed| ==> r[k] == closed[k].pnlReal
  {
    seq(|closed|, k requires 0 <= k < |closed| => closed[k].pnlReal)
  }

  /** `_avg`: the mean, 0 for no values. */
  function Avg(nums: seq<real>): (r: real)
    ensures nums == [] ==> r == 0.0
    ensures nums != [] ==> r * |nums| as real == Sum(nums)
  {
    if nums == [] then 0.0 else Sum(nums) / |nums| as real
  }

  /** The average lies between the smallest and the largest value. */
  lemma AvgWithin(nums: seq<real>, lo: real, hi: real)
    requires nums != [] && forall k :: 0 <= k < |nums| ==> lo <= nums[k] <= hi
    ensures lo <= Avg(nums) <= hi
  {
    MeanBounds(nums, lo, hi);
  }

  /** The sign of a P&L: 1, -1 or 0. */
  function Sign(x: real): int { if x > 0.0 then 1 else if x < 0.0 then -1 else 0 }

  /** Number of EXPIRED closes whose P&L has the given sign. */
  function ExpiredWithSign(closed: seq<Closed>, sign: int): (n: nat)
    ensures n <= CountResult(closed, Expired)
  {
    if closed == [] then 0
    else
      var last := closed[|closed| - 1];
      ExpiredWithSign(closed[..|closed| - 1], sign)
      + (if last.result == Expired && Sign(last.pnlReal) == sign then 1 else 0)
  }

  /** The three signs split the EXPIRED closes. */
  lemma {:induction false} TtlTallyPartition(closed: seq<Closed>)
    ensures ExpiredWithSign(closed, 1) + ExpiredWithSign(closed, -1) + ExpiredWithSign(closed, 0)
         == CountResult(closed, Expired)
  {
    if closed != [] {
      TtlTallyPartition(closed[..|closed| - 1]);
    }
  }

  /** The `ttl_pos` / `ttl_neg` / `ttl_zero` loop over the last closes. */
  method TtlTally(lastClosed: seq<Closed>) returns (pos: nat, neg: nat, zero: nat)
    ensures pos == ExpiredWithSign(lastClosed, 1) && neg == ExpiredWithSign(lastClosed, -1)
    ensures zero == ExpiredWithSign(lastClosed, 0)
    ensures pos + neg + zero == CountResult(lastClosed, Expired)
  {
    pos, neg, zero := 0, 0, 0;
    for i := 0 to |lastClosed|
      invariant pos == ExpiredWithSign(lastClosed[..i], 1) && neg == ExpiredWithSign(lastClosed[..i], -1)
      invariant zero == ExpiredWithSign(lastClosed[..i], 0)
    {
      assert lastClosed[..i + 1][..i] == lastClosed[..i];
      var x := lastClosed[i];
      if x.result == Expired {
        var v := x.pnlReal;
        if v > 0.0 {
          pos := pos + 1;
        } else if v < 0.0 {
          neg := neg + 1;
        } else {
          zero := zero + 1;
        }
      }
    }
    assert lastClosed[..|lastClosed|] == lastClosed;
    TtlTallyPartition(lastClosed);
  }

  datatype Overall = Overall(total: nat, win: nat, loss: nat, expired: nat, winRatePct: real,
                             pnlAvgPct: real, ttlPos: nat, ttlNeg: nat, ttlZero: nat)

  // ---------------------------------------------------------------- buckets

  /** One `setdefault` bucket: count and P&L sum. */
  datatype Bucket<K> = Bucket(key: K, n: nat, pnlSum: real)

  function Keys<K>(b: seq<Bucket<K>>): (ks: seq<K>)
    ensures |ks| == |b| && forall k :: 0 <= k < |b| ==> ks[k] == b[k].key
  {
    if b == [] then [] else [b[0].key] + Keys(b[1..])
  }

  function TotalN<K>(b: seq<Bucket<K>>): nat {
    if b == [] then 0 else b[0].n + TotalN(b[1..])
  }

  function TotalPnl<K>(b: seq<Bucket<K>>): real {
    if b == [] then 0.0 else b[0].pnlSum + TotalPnl(b[1..])
  }

  predicate Distinct<K(==)>(ks: seq<K>) {
    forall i, j :: 0 <= i < j < |ks| ==> ks[i] != ks[j]
  }

  predicate Populated<K>(b: seq<Bucket<K>>) {
    forall k :: 0 <= k < |b| ==> b[k].n >= 1
  }

  /** `d.setdefault(key, {n: 0, pnl_sum: 0}); n += 1; pnl_sum += pnl`. */
  function AddTo<K(==)>(b: seq<Bucket<K>>, key: K, pnl: real): seq<Bucket<K>>
  {
    if b == [] then [Bucket(key, 1, pnl)]
    else if b[0].key == key then [b[0].(n := b[0].n + 1, pnlSum := b[0].pnlSum + pnl)] + b[1..]
    else [b[0]] + AddTo(b[1..], key, pnl)
  }

  /** Adding opens a new bucket, at the end, only for a new key. */
  lemma {:induction false} AddToKeys<K>(b: seq<Bucket<K>>, key: K, pnl: real)
    ensures key in Keys(b) ==> Keys(AddTo(b, key, pnl)) == Keys(b)
    ensures key !in Keys(b) ==> Keys(AddTo(b, key, pnl)) == Keys(b) + [key]
  {
    if b != [] {
      var r := AddTo(b, key, pnl);
      if b[0].key == key {
        assert r[1..] == b[1..];
      } else {
        AddToKeys(b[1..], key, pnl);
        assert r[1..] == AddTo(b[1..], key, pnl);
      }
    }
  }

  /** Adding raises the count by one and the sum by the P&L. */
  lemma {:induction false} AddToTotals<K>(b: seq<Bucket<K>>, key: K, pnl: real)
    ensures TotalN(AddTo(b, key, pnl)) == TotalN(b) + 1
    ensures TotalPnl(AddTo(b, key, pnl)) == TotalPnl(b) + pnl
    ensures Populated(b) ==> Populated(AddTo(b, key, pnl))
  {
    if b != [] {
      var r := AddTo(b, key, pnl);
      if b[0].key == key {
        assert r[1..] == b[1..];
      } else {
        AddToTotals(b[1..], key, pnl);
        assert r[1..] == AddTo(b[1..], key, pnl);
      }
    }
  }

  /** The buckets of a list of (key, P&L) entries, keys in first-seen order. */
  function Tally<K(==)>(entries: seq<(K, real)>): seq<Bucket<K>>
  {
    if entries == [] then []
    else AddTo(Tally(entries[..|entries| - 1]), entries[|entries| - 1].0, entries[|entries| - 1].1)
  }

  /** Each entry lands in exactly one bucket: the counts add up to the
      entries, the sums to their P&L, and no key has two buckets. */
  lemma {:induction false} TallyProperties<K>(entries: seq<(K, real)>)
    ensures var r := Tally(entries);
      TotalN(r) == |entries| && TotalPnl(r) == Sum(Seconds(entries)) && Distinct(Keys(r)) && Populated(r)
  {
    if entries != [] {
      var front := Tally(entries[..|entries| - 1]);
      TallyProperties(entries[..|entries| - 1]);
      var e := entries[|entries| - 1];
      var r := AddTo(front, e.0, e.1);
      AddToKeys(front, e.0, e.1);
      AddToTotals(front, e.0, e.1);
      assert Seconds(entries)[..|entries| - 1] == Seconds(entries[..|entries| - 1]);
      if e.0 !in Keys(front) {
        forall i, j | 0 <= i < j < |Keys(r)| ensures Keys(r)[i] != Keys(r)[j] {
          if j == |front| {
            assert Keys(r)[i] == Keys(front)[i];
          } else {
            assert Keys(r)[i] == Keys(front)[i] && Keys(r)[j] == Keys(front)[j];
          }
        }
      }
    }
  }

  function Seconds<K>(entries: seq<(K, real)>): (s: seq<real>)
    ensures |s| == |entries| && forall k :: 0 <= k < |entries| ==> s[k] == entries[k].1
  {
    seq(|entries|, k requires 0 <= k < |entries| => entries[k].1)
  }

  /** `f"{hour:02d}"`. */
  function TwoDigits(h: Hour): (s: string)
    ensures |s| == 2 && '0' <= s[0] <= '2' && '0' <= s[1] <= '9'
  {
    [(48 + h / 10) as char, (48 + h % 10) as char]
  }

  /** Weekday and hour labels of a close, "-" for both when its stamp does not parse. */
  function Label(c: Closed, parseTs: string -> Option<(Weekday, Hour)>): (l: (string, string))
    ensures parseTs(c.pos.tsBrt).None? ==> l == ("-", "-")
    ensures parseTs(c.pos.tsBrt).Some? ==> l.0 in DOW_NAMES && |l.1| == 2
  {
    match parseTs(c.pos.tsBrt)
    case None => ("-", "-")
    case Some(wh) => (DOW_NAMES[wh.0], TwoDigits(wh.1))
  }

  function DowEntries(cl: seq<Closed>, parseTs: string -> Option<(Weekday, Hour)>): (e: seq<(string, real)>)
    ensures |e| == |cl| && forall k :: 0 <= k < |cl| ==> e[k] == (Label(cl[k], parseTs).0, cl[k].pnlReal)
  {
    seq(|cl|, k requires 0 <= k < |cl| => (Label(cl[k], parseTs).0, cl[k].pnlReal))
  }

  function HourEntries(cl: seq<Closed>, parseTs: string -> Option<(Weekday, Hour)>): (e: seq<(string, real)>)
    ensures |e| == |cl| && forall k :: 0 <= k < |cl| ==> e[k] == (Label(cl[k], parseTs).1, cl[k].pnlReal)
  {
    seq(|cl|, k requires 0 <= k < |cl| => (Label(cl[k], parseTs).1, cl[k].pnlReal))
  }

  /** The combined key `f"{dow}|{hour}"`, kept as the pair: neither label holds a `|`. */
  function ComboEntries(cl: seq<Closed>, parseTs: string -> Option<(Weekday, Hour)>): (e: seq<((string, string), real)>)
    ensures |e| == |cl| && forall k :: 0 <= k < |cl| ==> e[k] == (Label(cl[k], parseTs), cl[k].pnlReal)
  {
    seq(|cl|, k requires 0 <= k < |cl| => (Label(cl[k], parseTs), cl[k].pnlReal))
  }

  lemma TallySnoc<K>(entries: seq<(K, real)>, i: nat)
    requires i < |entries|
    ensures Tally(entries[..i + 1]) == AddTo(Tally(entries[..i]), entries[i].0, entries[i].1)
  {
    assert entries[..i + 1][..i] == entries[..i];
  }

  /** The weekday and hour of one close, read from its capture stamp. */
  method Place(x: Closed, parseTs: string -> Option<(Weekday, Hour)>) returns (dow: string, hour: string)
    ensures (dow, hour) == Label(x, parseTs)
  {
    dow, hour := "-", "-";
    match parseTs(x.pos.tsBrt) {
      case None =>
      case Some(wh) =>
        dow := DOW_NAMES[wh.0];
        hour := TwoDigits(wh.1);
    }
  }

  /** The bucket loop over the last closes: by weekday, by hour and by both. */
  method Buckets(lastClosed: seq<Closed>, parseTs: string -> Option<(Weekday, Hour)>)
    returns (byDow: seq<Bucket<string>>, byHour: seq<Bucket<string>>, combo: seq<Bucket<(string, string)>>)
    ensures byDow == Tally(DowEntries(lastClosed, parseTs))
    ensures byHour == Tally(HourEntries(lastClosed, parseTs))
    ensures combo == Tally(ComboEntries(lastClosed, parseTs))
  {
    ghost var de, he, ce := DowEntries(lastClosed, parseTs), HourEntries(lastClosed, parseTs),
                           ComboEntries(lastClosed, parseTs);
    byDow, byHour, combo := [], [], [];
    for i := 0 to |lastClosed|
      invariant byDow == Tally(de[..i]) && byHour == Tally(he[..i]) && combo == Tally(ce[..i])
    {
      var dow, hour := Place(lastClosed[i], parseTs);
      var pnl := lastClosed[i].pnlReal;
      TallySnoc(de, i);
      TallySnoc(he, i);
      TallySnoc(ce, i);
      byDow := AddTo(byDow, dow, pnl);
      byHour := AddTo(byHour, hour, pnl);
      combo := AddTo(combo, (dow, hour), pnl);
    }
    assert de[..|lastClosed|] == de && he[..|lastClosed|] == he && ce[..|lastClosed|] == ce;
  }

  // ----------------------------------------------------------- averaged rows

  /** One output row: key, count and average P&L. */
  datatype Row<K> = Row(key: K, n: nat, pnlAvgPct: real)

  function Finalize<K>(b: Bucket<K>): (r: Row<K>)
    ensures r.key == b.key && r.n == b.n
    ensures r.n == 0 ==> r.pnlAvgPct == 0.0
    ensures r.n > 0 ==> r.pnlAvgPct * r.n as real == b.pnlSum
  {
    Row(b.key, b.n, if b.n > 0 then b.pnlSum / b.n as real else 0.0)
  }

  function Averaged<K>(b: seq<Bucket<K>>): (r: seq<Row<K>>)
    ensures |r| == |b| && forall k :: 0 <= k < |b| ==> r[k] == Finalize(b[k])
  {
    seq(|b|, k requires 0 <= k < |b| => Finalize(b[k]))
  }

  /** `best_windows` order: average P&L, then count, both descending. */
  predicate WindowLe(a: Row<(string, string)>, b: Row<(string, string)>) {
    a.pnlAvgPct > b.pnlAvgPct || (a.pnlAvgPct == b.pnlAvgPct && a.n >= b.n)
  }

  lemma WindowLeTotalPreorder()
    ensures TotalPreorder(WindowLe)
  {
  }

  /** `best_windows`: the (at most) eight best weekday/hour windows. */
  function BestWindows(combo: seq<Bucket<(string, string)>>): (w: seq<Row<(string, string)>>)
    ensures |w| <= 8 && SortedBy(w, WindowLe)
    ensures forall k :: 0 <= k < |w| ==> w[k] in Averaged(combo)
    ensures |w| == if |combo| < 8 then |combo| else 8
  {
    var rows := Averaged(combo);
    var sorted := SortBy(rows, WindowLe);
    WindowLeTotalPreorder();
    SortBySorted(rows, WindowLe);
    var w := if |sorted| <= 8 then sorted else sorted[..8];
    assert forall k :: 0 <= k < |w| ==> w[k] in multiset(sorted);
    w
  }

  // ---------------------------------------------------------------- summary

  datatype Summary = Summary(openCount: nat, overall: Overall, byDow: seq<Row<string>>,
                             byHour: seq<Row<string>>, bestWindows: seq<Row<(string, string)>>,
                             lastClosed: seq<Closed>)

  /** The summary of one cycle from its closes and result counters. */
  method Summarize(openCount: nat, closed: seq<Closed>, win: nat, loss: nat, expired: nat,
                   maxLastClosed: int, parseTs: string -> Option<(Weekday, Hour)>)
    returns (s: Summary)
    requires win == CountResult(closed, Win) && loss == CountResult(closed, Loss)
    requires expired == CountResult(closed, Expired)
    ensures s.openCount == openCount
    ensures s.overall.total == win + loss + expired == |closed|
    ensures s.overall.win == win && s.overall.loss == loss && s.overall.expired == expired
    ensures s.overall.winRatePct == WinRate(win, |closed|) && 0.0 <= s.overall.winRatePct <= 100.0
    ensures s.lastClosed == PyTail(closed, maxLastClosed)
    ensures s.overall.pnlAvgPct == Avg(Pnls(s.lastClosed))
    ensures s.overall.ttlPos + s.overall.ttlNeg + s.overall.ttlZero == CountResult(s.lastClosed, Expired)
    ensures s.byDow == Averaged(Tally(DowEntries(s.lastClosed, parseTs)))
    ensures s.byHour == Averaged(Tally(HourEntries(s.lastClosed, parseTs)))
    ensures s.bestWindows == BestWindows(Tally(ComboEntries(s.lastClosed, parseTs)))
    ensures |s.bestWindows| <= 8 && SortedBy(s.bestWindows, WindowLe)
  {
    ResultsPartition(closed);
    var total := win + loss + expired;
    var winRate := WinRate(win, total);
    var lastClosed := PyTail(closed, maxLastClosed);
    var pnlList := Pnls(lastClosed);
    var pnlAvg := if pnlList != [] then Avg(pnlList) else 0.0;
    var ttlPos, ttlNeg, ttlZero := TtlTally(lastClosed);
    var overall := Overall(total, win, loss, expired, winRate, pnlAvg, ttlPos, ttlNeg, ttlZero);
    var byDow, byHour, combo := Buckets(lastClosed, parseTs);
    s := Summary(openCount, overall, Averaged(byDow), Averaged(byHour), BestWindows(combo), lastClosed);
  }

  // ------------------------------------------------------------- the cycle

  /** One run of `run_audit_top10`: load the stored book, capture the TOP10,
      update and close, summarise. */
  method RunCycle(stored: seq<Position>, items: seq<TopItem>, digest: AuditKey -> string, now: Stamp,
                  cyc: Cycle, maxLastClosed: int, parseTs: string -> Option<(Weekday, Hour)>)
    returns (newOpen: seq<Position>, closed: seq<Closed>, s: Summary)
    ensures var book := CaptureAll(Load(stored), items, digest, now);
      newOpen == OpenOf(Fates(book, cyc)) && closed == ClosedOf(Fates(book, cyc))
      && |newOpen| + |closed| == |book|
    ensures s.openCount == |newOpen| && s.overall.total == |closed|
    ensures AllBracketed(stored) ==> AllBracketed(newOpen)
  {
    var book := Load(stored);
    book := Capture(book, items, digest, now);
    var win, loss, expired;
    newOpen, closed, win, loss, expired := UpdateAndClose(book, cyc);
    s := Summarize(|newOpen|, closed, win, loss, expired, maxLastClosed, parseTs);
    if AllBracketed(stored) {
      LoadKeepsBracket(stored);
      CaptureKeepsBracket(Load(stored), items, digest, now);
      UpdateKeepsBracket(book, cyc);
    }
  }
}
