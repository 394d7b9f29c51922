/** The FULL list and the TOP10 of `worker.bkp_20260217_084053/worker_pro.py`:
    one item per coin, a 55% / 2% gate that turns weak signals into NÃO ENTRAR,
    the FULL list ordered by pair, and a TOP10 cut from the LONG/SHORT items
    ordered by colour points, hit rate, gain and pair. */
module Ranking {
  import opened Common
  import opened Text
  import opened Sorting

  const FULL_GAIN_MIN_PCT: real := 2.0
  const FULL_ASSERT_MIN_PCT: real := 55.0

  // ------------------------------------------------------------------ points

  /** The accents `_norm` removes, applied after upper-casing. */
  function Deaccent(c: char): char {
    if c == 'É' then 'E'
    else if c == 'Í' then 'I'
    else if c == 'Ó' then 'O'
    else if c == 'Á' then 'A'
    else if c == 'Ã' then 'A'
    else if c == 'Ç' then 'C'
    else c
  }

  /** `_norm`: missing text as "", upper case, then the six accents replaced. */
  function Norm(x: Option<string>): (r: string)
    ensures |r| == |x.GetOr("")|
    ensures forall i :: 0 <= i < |r| ==> r[i] == Deaccent(UpperChar(x.GetOr("")[i]))
  {
    var u := Upper(x.GetOr(""));
    seq(|u|, i requires 0 <= i < |u| => Deaccent(u[i]))
  }

  /** Normalising normalised text changes nothing. */
  lemma NormIdempotent(x: Option<string>)
    ensures Norm(Some(Norm(x))) == Norm(x)
  {
    var n := Norm(x);
    forall i | 0 <= i < |n| ensures Norm(Some(n))[i] == n[i] {
      assert !IsLower(n[i]);
    }
  }

  /** So an accented and an unaccented tier word score alike. */
  lemma NormMedia()
    ensures Norm(Some(MEDIA)) == "MEDIA" && Norm(Some("media")) == "MEDIA"
  {
    assert Norm(Some(MEDIA))[1] == 'E';
  }

  lemma NormMedio()
    ensures Norm(Some(MEDIO)) == "MEDIO" && Norm(Some("MEDIA")) == "MEDIA"
  {
    assert Norm(Some(MEDIO))[1] == 'E';
  }

  /** `_pts_zona` (and `_pts_prioridade`, which is the same rule): 3 for ALTA,
      2 for MEDIA, 1 for anything else, missing included. */
  function PtsTier(z: Option<string>): (p: int)
    ensures 1 <= p <= 3
    ensures p == 3 <==> Norm(z) == "ALTA"
    ensures p == 2 <==> Norm(z) == "MEDIA"
  {
    var n := Norm(z);
    if n == "ALTA" then 3 else if n == "MEDIA" then 2 else 1
  }

  /** `_pts_risco`: 3 for BAIXO, 2 for MEDIO, 1 for anything else. */
  function PtsRisco(r: Option<string>): (p: int)
    ensures 1 <= p <= 3
    ensures p == 3 <==> Norm(r) == "BAIXO"
    ensures p == 2 <==> Norm(r) == "MEDIO"
  {
    var n := Norm(r);
    if n == "BAIXO" then 3 else if n == "MEDIO" then 2 else 1
  }

  lemma PtsIgnoreAccents()
    ensures PtsTier(Some(MEDIA)) == PtsTier(Some("MEDIA")) == 2
    ensures PtsRisco(Some(MEDIO)) == PtsRisco(Some("MEDIO")) == 2
  {
    NormMedia();
    NormMedio();
  }

  // ------------------------------------------------------------------ items

  /** The fields `build_payload` reads from a computed signal. */
  datatype Signal = Signal(par: string, side: Side, atual: real, alvo: real, ganhoPct: real,
                           assertPct: real, prazo: string, zona: Option<string>,
                           risco: Option<string>, prioridade: Option<string>)

  /** What fetching one coin gave: no mark price, no candles, or a signal. */
  datatype Fetch =
    | NoMark(src: string)
    | NoCandles(mark: real, src: string)
    | Computed(sig: Signal, src: string)

  /** One FULL item; a NÃO ENTRAR item carries None in every signal field. */
  datatype Item = Item(par: string, side: Side, atual: Option<real>, motivo: Option<string>,
                       data: string, hora: string, alvo: Option<real>, ganhoPct: Option<real>,
                       assertPct: Option<real>, prazo: Option<string>, zona: Option<string>,
                       risco: Option<string>, prioridade: Option<string>, priceSource: string)
  {
    predicate Blank() {
      alvo == None && ganhoPct == None && assertPct == None && prazo == None
      && zona == None && risco == None && prioridade == None
    }

    /** A NÃO ENTRAR item is blank; a LONG/SHORT item met both FULL minimums. */
    predicate Gated() {
      && (side == NoEntry ==> Blank())
      && (side != NoEntry ==>
            assertPct.Some? && ganhoPct.Some?
            && assertPct.value >= FULL_ASSERT_MIN_PCT && ganhoPct.value >= FULL_GAIN_MIN_PCT)
    }
  }

  /** `_mk_no`: a NÃO ENTRAR item with only pair, price, date, time and source. */
  function MkNo(par: string, atual: Option<real>, src: string, data: string, hora: string): (it: Item)
    ensures it.side == NoEntry && it.Blank() && it.par == par && it.atual == atual
    ensures it.motivo == None && it.priceSource == src
  {
    Item(par, NoEntry, atual, None, data, hora, None, None, None, None, None, None, None, src)
  }

  /** The gate: a hit rate below 55% or a gain below 2% means no entry. */
  predicate PassesGate(sig: Signal) {
    !(sig.assertPct < FULL_ASSERT_MIN_PCT || sig.ganhoPct < FULL_GAIN_MIN_PCT)
  }

  /** The FULL item of one coin. */
  function ItemFor(par: string, f: Fetch, data: string, hora: string): (it: Item)
    ensures it.side == NoEntry <==> !f.Computed? || !f.sig.side.Directional() || !PassesGate(f.sig)
    ensures it.Gated()
    ensures it.side != NoEntry ==>
      (it.side == f.sig.side && it.assertPct == Some(f.sig.assertPct)
       && it.ganhoPct == Some(f.sig.ganhoPct) && it.par == f.sig.par)
    ensures f.NoMark? ==> it.motivo == Some("sem_mark") && it.atual == None && it.par == par
  {
    match f
    case NoMark(src) =>
      MkNo(par, None, src, data, hora).(motivo := Some("sem_mark"))
    case NoCandles(mark, src) =>
      MkNo(par, Some(mark), src, data, hora)
    case Computed(sig, src) =>
      var side := if PassesGate(sig) then sig.side else NoEntry;
      if !side.Directional() then MkNo(sig.par, Some(sig.atual), src, data, hora)
      else Item(sig.par, side, Some(sig.atual), None, data, hora, Some(sig.alvo), Some(sig.ganhoPct),
                Some(sig.assertPct), Some(sig.prazo), sig.zona, sig.risco, sig.prioridade, src)
  }

  // ------------------------------------------------------------------ orders

  /** FULL order: by pair, as text. */
  predicate ParLe(a: Item, b: Item) { LexLe(a.par, b.par) }

  lemma ParLeTotalPreorder()
    ensures TotalPreorder(ParLe)
  {
    forall a: Item, b: Item ensures ParLe(a, b) || ParLe(b, a) {
      LexLeTotal(a.par, b.par);
    }
    forall a: Item, b: Item, c: Item | ParLe(a, b) && ParLe(b, c) ensures ParLe(a, c) {
      LexLeTransitive(a.par, b.par, c.par);
    }
  }

  /** A TOP10 candidate: a directional item with its points. */
  datatype Cand = Cand(item: Item, rankPts: int)

  function AssertOf(c: Cand): real { c.item.assertPct.GetOr(0.0) }
  function GainOf(c: Cand): real { c.item.ganhoPct.GetOr(0.0) }

  /** TOP10 order: points, hit rate and gain descending, then pair ascending. */
  predicate CandLe(a: Cand, b: Cand) {
    a.rankPts > b.rankPts
    || (a.rankPts == b.rankPts
        && (AssertOf(a) > AssertOf(b)
            || (AssertOf(a) == AssertOf(b)
                && (GainOf(a) > GainOf(b)
                    || (GainOf(a) == GainOf(b) && LexLe(a.item.par, b.item.par))))))
  }

  lemma CandLeTotalPreorder()
    ensures TotalPreorder(CandLe)
  {
    forall a: Cand, b: Cand ensures CandLe(a, b) || CandLe(b, a) {
      LexLeTotal(a.item.par, b.item.par);
    }
    forall a: Cand, b: Cand, c: Cand | CandLe(a, b) && CandLe(b, c) ensures CandLe(a, c) {
      if a.rankPts == b.rankPts == c.rankPts && AssertOf(a) == AssertOf(b) == AssertOf(c)
         && GainOf(a) == GainOf(b) == GainOf(c) {
        LexLeTransitive(a.item.par, b.item.par, c.item.par);
      }
    }
  }

  function RankPts(it: Item): (p: int)
    ensures 3 <= p <= 9
  {
    PtsTier(it.zona) + PtsRisco(it.risco) + PtsTier(it.prioridade)
  }

  /** The candidates: the directional items, in order, with their points. */
  function Candidates(items: seq<Item>): (c: seq<Cand>)
    ensures |c| <= |items|
    ensures forall k :: 0 <= k < |c| ==> c[k].item.side.Directional() && 3 <= c[k].rankPts <= 9
    ensures forall k :: 0 <= k < |c| ==> c[k].item in items
  {
    if items == [] then []
    else
      var it := items[|items| - 1];
      var rest := Candidates(items[..|items| - 1]);
      if it.side.Directional() then rest + [Cand(it, RankPts(it))] else rest
  }

  function Min(a: int, b: int): int { if a <= b then a else b }

  // ---------------------------------------------------------------- payload

  datatype Payload = Payload(full: seq<Item>, top10: seq<Cand>, okCount: nat, missCount: nat)

  /** The FULL items before sorting: one per coin, in coin order. */
  function Unsorted(coins: seq<string>, fetches: seq<Fetch>, data: string, hora: string): (items: seq<Item>)
    requires |fetches| == |coins|
    ensures |items| == |coins|
  {
    seq(|coins|, i requires 0 <= i < |coins| => ItemFor(coins[i], fetches[i], data, hora))
  }

  /** `build_payload` after the fetches: one FULL item per coin ordered by pair,
      and the TOP10 as the first (at most) ten candidates in TOP10 order. */
  method BuildPayload(coins: seq<string>, fetches: seq<Fetch>, data: string, hora: string)
    returns (p: Payload)
    requires |fetches| == |coins|
    ensures p.full == SortBy(Unsorted(coins, fetches, data, hora), ParLe)
    ensures |p.full| == |coins| && SortedBy(p.full, ParLe)
    ensures multiset(p.full) == multiset(Unsorted(coins, fetches, data, hora))
    ensures forall k :: 0 <= k < |p.full| ==> p.full[k].Gated()
    ensures p.okCount == ComputedCount(fetches) && p.okCount + p.missCount == |coins|
    ensures p.top10 == TopOf(Candidates(p.full))
    ensures |p.top10| <= 10 && SortedBy(p.top10, CandLe)
    ensures forall k :: 0 <= k < |p.top10| ==>
      p.top10[k].item.side.Directional() && 3 <= p.top10[k].rankPts <= 9 && p.top10[k].item.Gated()
  {
    var items, okCount, missCount := CollectItems(coins, fetches, data, hora);
    var full := SortBy(items, ParLe);
    ParLeTotalPreorder();
    SortBySorted(items, ParLe);
    GateHolds(items, full);
    var cand := CandidateList(full);
    var top := Top10(cand);
    p := Payload(full, top, okCount, missCount);
  }

  /** The first (at most) ten candidates in TOP10 order. */
  function TopOf(cand: seq<Cand>): seq<Cand>
  {
    var sorted := SortBy(cand, CandLe);
    sorted[..Min(10, |sorted|)]
  }

  /** The number of coins for which a signal was computed. */
  function ComputedCount(fetches: seq<Fetch>): (n: nat)
    ensures n <= |fetches|
  {
    if fetches == [] then 0
    else ComputedCount(fetches[..|fetches| - 1]) + (if fetches[|fetches| - 1].Computed? then 1 else 0)
  }

  /** The per-coin loop of `build_payload`: one item per coin, each counted as
      found (a signal was computed) or missing. */
  method CollectItems(coins: seq<string>, fetches: seq<Fetch>, data: string, hora: string)
    returns (items: seq<Item>, okCount: nat, missCount: nat)
    requires |fetches| == |coins|
    ensures items == Unsorted(coins, fetches, data, hora)
    ensures okCount == ComputedCount(fetches) && missCount == |coins| - ComputedCount(fetches)
    ensures okCount + missCount == |coins|
  {
    items := [];
    okCount, missCount := 0, 0;
    for i := 0 to |coins|
      invariant items == Unsorted(coins, fetches, data, hora)[..i]
      invariant okCount == ComputedCount(fetches[..i])
      invariant okCount + missCount == i
    {
      assert fetches[..i + 1][..i] == fetches[..i];
      var it := ItemFor(coins[i], fetches[i], data, hora);
      if fetches[i].Computed? {
        okCount := okCount + 1;
      } else {
        missCount := missCount + 1;
      }
      items := items + [it];
    }
    assert fetches[..|coins|] == fetches;
  }

  /** The TOP10 cut: sort the candidates and keep the first ten. */
  method Top10(cand: seq<Cand>) returns (top: seq<Cand>)
    requires forall k :: 0 <= k < |cand| ==>
      cand[k].item.side.Directional() && 3 <= cand[k].rankPts <= 9 && cand[k].item.Gated()
    ensures top == TopOf(cand)
    ensures |top| <= 10 && SortedBy(top, CandLe)
    ensures forall k :: 0 <= k < |top| ==>
      top[k].item.side.Directional() && 3 <= top[k].rankPts <= 9 && top[k].item.Gated()
  {
    var sorted := SortBy(cand, CandLe);
    CandLeTotalPreorder();
    SortBySorted(cand, CandLe);
    top := sorted[..Min(10, |sorted|)];
    forall k | 0 <= k < |top|
      ensures top[k].item.side.Directional() && 3 <= top[k].rankPts <= 9 && top[k].item.Gated()
    {
      assert top[k] == sorted[k];
      assert sorted[k] in multiset(sorted);
      assert sorted[k] in multiset(cand);
      var j :| 0 <= j < |cand| && cand[j] == sorted[k];
    }
  }

  /** The candidate loop of `build_payload`. */
  method CandidateList(items: seq<Item>) returns (cand: seq<Cand>)
    requires forall k :: 0 <= k < |items| ==> items[k].Gated()
    ensures cand == Candidates(items)
    ensures forall k :: 0 <= k < |cand| ==>
      cand[k].item.side.Directional() && 3 <= cand[k].rankPts <= 9 && cand[k].item.Gated()
  {
    cand := [];
    for i := 0 to |items|
      invariant cand == Candidates(items[..i])
    {
      assert items[..i + 1][..i] == items[..i];
      var it := items[i];
      if it.side.Directional() {
        cand := cand + [Cand(it, RankPts(it))];
      }
    }
    assert items[..|items|] == items;
    forall k | 0 <= k < |cand| ensures cand[k].item.Gated() {
      var j :| 0 <= j < |items| && items[j] == cand[k].item;
    }
  }

  /** Sorting keeps every item gated. */
  lemma GateHolds(items: seq<Item>, full: seq<Item>)
    requires forall k :: 0 <= k < |items| ==> items[k].Gated()
    requires full == SortBy(items, ParLe)
    ensures forall k :: 0 <= k < |full| ==> full[k].Gated()
  {
    forall k | 0 <= k < |full| ensures full[k].Gated() {
      assert full[k] in multiset(full);
      assert full[k] in multiset(items);
      var j :| 0 <= j < |items| && items[j] == full[k];
    }
  }
}
