/** The outcome tracker of `worker/engine/audit_top10.py`: every LONG/SHORT item
    of the TOP10 opens one virtual position, keyed by a digest of its entry;
    each cycle marks the open positions to the current price and closes them on
    the target (WIN), on the invalidation level one ATR against the entry
    (LOSS) or when their time-to-live has passed (EXPIRED). */
module OutcomeTracker {
  import opened Common
  import opened Text

  // ------------------------------------------------------------- pure rules

  /** The four very cheap coins that trade in lots of 1000. */
  const LOTS: seq<string> := ["BONK", "FLOKI", "PEPE", "SHIB"]

  /** The `mult` table of `_sym`. */
  function Lot(p: string): (b: string)
    ensures p in LOTS ==> b == "1000" + p
    ensures p !in LOTS ==> b == p
  {
    if p == "BONK" then "1000BONK"
    else if p == "FLOKI" then "1000FLOKI"
    else if p == "PEPE" then "1000PEPE"
    else if p == "SHIB" then "1000SHIB"
    else p
  }

  /** `_sym`: the USDT perpetual of a pair, upper-cased and stripped. */
  function Sym(par: Option<string>): (r: string)
    ensures |r| >= 4 && r[|r| - 4..] == "USDT"
    ensures r[..|r| - 4] == Lot(Strip(Upper(par.GetOr(""))))
  {
    var p := Strip(Upper(par.GetOr("")));
    Lot(p) + "USDT"
  }

  /** The fields `_audit_id` hashes; the digest itself is a parameter. */
  datatype AuditKey = AuditKey(par: string, side: Side, entrada: real, alvo: real, ttl: string)

  /** `_atr_from_entry_target`: the ATR implied by a target placed 1.5 ATR
      away from the entry. */
  function AtrFromEntryTarget(entrada: real, alvo: real): (atr: real)
    ensures atr >= 0.0
    ensures atr == 0.0 <==> entrada == alvo
    ensures 1.5 * atr == Abs(alvo - entrada)
  {
    var d := Abs(alvo - entrada);
    if d > 0.0 then d / 1.5 else 0.0
  }

  /** `_invalidado`: one ATR against the entry; every side but LONG counts as SHORT. */
  function Invalidado(entrada: real, atr: real, side: Side): (inv: real)
    ensures side == Long ==> inv == entrada - atr
    ensures side != Long ==> inv == entrada + atr
  {
    if side == Long then entrada - atr else entrada + atr
  }

  /** The stop sits on the other side of the entry from the target, at two
      thirds of the target's distance. */
  lemma StopOppositeTarget(entrada: real, alvo: real, side: Side)
    requires side == Long ==> alvo > entrada
    requires side == Short ==> alvo < entrada
    requires side.Directional()
    ensures var inv := Invalidado(entrada, AtrFromEntryTarget(entrada, alvo), side);
      (side == Long ==> inv < entrada < alvo) && (side == Short ==> alvo < entrada < inv)
      && 3.0 * Abs(inv - entrada) == 2.0 * Abs(alvo - entrada)
  {
  }

  /** `_pnl_pct`: the return in percent of the entry; 0 for a non-positive entry. */
  function PnlPct(side: Side, entrada: real, preco: real): (r: real)
    ensures entrada <= 0.0 ==> r == 0.0
    ensures entrada > 0.0 && side == Long ==> (r > 0.0 <==> preco > entrada) && (r < 0.0 <==> preco < entrada)
    ensures entrada > 0.0 && side != Long ==> (r > 0.0 <==> preco < entrada) && (r < 0.0 <==> preco > entrada)
  {
    if entrada <= 0.0 then 0.0
    else if side == Long then (preco - entrada) / entrada * 100.0
    else (entrada - preco) / entrada * 100.0
  }

  /** A SHORT position earns exactly what the LONG one loses. */
  lemma PnlShortIsNegatedLong(entrada: real, preco: real)
    ensures PnlPct(Short, entrada, preco) == -PnlPct(Long, entrada, preco)
  {
  }

  datatype Hit = Alvo | Invalidated | Ttl
  datatype Outcome = Win | Loss | Expired
  datatype CloseResult = CloseResult(hit: Hit, result: Outcome, closePrice: real)

  /** The target has been reached. */
  predicate TargetHit(side: Side, preco: real, alvo: real) {
    alvo > 0.0 && (if side == Long then preco >= alvo else preco <= alvo)
  }

  /** The invalidation level has been crossed. */
  predicate StopHit(side: Side, preco: real, inv: real) {
    inv > 0.0 && (if side == Long then preco <= inv else preco >= inv)
  }

  /** `_check_close`: target first, then invalidation, then the time-to-live;
      `ttlPassed` is whether the parsed expiry is at or before the clock. */
  function CheckClose(side: Side, preco: real, alvo: real, inv: real, ttlPassed: bool): (r: Option<CloseResult>)
    ensures r.None? <==> !TargetHit(side, preco, alvo) && !StopHit(side, preco, inv) && !ttlPassed
    ensures r.Some? ==> r.value.closePrice == preco
    ensures r.Some? && r.value.hit == Alvo <==> TargetHit(side, preco, alvo)
    ensures r.Some? && r.value.hit == Invalidated <==> !TargetHit(side, preco, alvo) && StopHit(side, preco, inv)
    ensures r.Some? ==> (r.value.result == Win <==> r.value.hit == Alvo)
    ensures r.Some? ==> (r.value.result == Loss <==> r.value.hit == Invalidated)
    ensures r.Some? ==> (r.value.result == Expired <==> r.value.hit == Ttl)
  {
    if TargetHit(side, preco, alvo) then Some(CloseResult(Alvo, Win, preco))
    else if StopHit(side, preco, inv) then Some(CloseResult(Invalidated, Loss, preco))
    else if ttlPassed then Some(CloseResult(Ttl, Expired, preco))
    else None
  }

  /** A position opened from a real target and stop, marked at any positive
      price: the winning close has a positive P&L and the losing close a
      negative one; an expired close may have either sign. */
  lemma CloseSign(side: Side, entrada: real, alvo: real, preco: real, ttlPassed: bool)
    requires side.Directional() && entrada > 0.0 && preco > 0.0
    requires side == Long ==> alvo > entrada
    requires side == Short ==> 0.0 < alvo < entrada
    ensures var inv := Invalidado(entrada, AtrFromEntryTarget(entrada, alvo), side);
      var r := CheckClose(side, preco, alvo, inv, ttlPassed);
      r.Some? ==>
        ((r.value.result == Win ==> PnlPct(side, entrada, preco) > 0.0)
         && (r.value.result == Loss ==> PnlPct(side, entrada, preco) < 0.0))
  {
    StopOppositeTarget(entrada, alvo, side);
  }

  // ---------------------------------------------------------- open positions

  /** One open position as `top10_open.json` stores it. */
  datatype Position = Position(auditId: string, tsBrt: string, date: string, hora: string,
                               par: string, side: Side, entrada: real, alvo: real, invalidado: real,
                               ganhoPct: real, assertPct: real, prazo: string, priceSource: string,
                               ttl: string, mfePct: real, maePct: real)

  /** The positions keyed by id, in insertion order, as the `open_by_id` dict. */
  type Book = seq<Position>

  function Ids(book: Book): (ids: seq<string>)
    ensures |ids| == |book| && forall k :: 0 <= k < |book| ==> ids[k] == book[k].auditId
  {
    if book == [] then [] else [book[0].auditId] + Ids(book[1..])
  }

  predicate UniqueIds(book: Book) {
    forall j, k :: 0 <= j < k < |book| ==> book[j].auditId != book[k].auditId
  }

  /** Dict lookup. */
  function Lookup(book: Book, id: string): (r: Option<Position>)
    ensures r.Some? <==> id in Ids(book)
    ensures r.Some? ==> r.value in book && r.value.auditId == id
  {
    if book == [] then None
    else if book[0].auditId == id then Some(book[0])
    else Lookup(book[1..], id)
  }

  /** Dict assignment: an existing key keeps its place and takes the new value,
      a new key goes at the end. */
  function Put(book: Book, p: Position): (r: Book)
    ensures p.auditId in Ids(book) ==> Ids(r) == Ids(book)
    ensures p.auditId !in Ids(book) ==> r == book + [p]
  {
    if book == [] then [p]
    else if book[0].auditId == p.auditId then [p] + book[1..]
    else
      var rest := Put(book[1..], p);
      assert ([book[0]] + rest)[1..] == rest;
      [book[0]] + rest
  }

  /** After an assignment the key maps to the new value and every other key to
      what it mapped to before. */
  lemma {:induction false} PutLookup(book: Book, p: Position)
    ensures Lookup(Put(book, p), p.auditId) == Some(p)
    ensures forall id :: id != p.auditId ==> Lookup(Put(book, p), id) == Lookup(book, id)
  {
    if book != [] && book[0].auditId != p.auditId {
      PutLookup(book[1..], p);
      assert Put(book, p) == [book[0]] + Put(book[1..], p);
      assert ([book[0]] + Put(book[1..], p))[1..] == Put(book[1..], p);
    }
  }

  lemma {:induction false} PutKeepsUnique(book: Book, p: Position)
    requires UniqueIds(book)
    ensures UniqueIds(Put(book, p))
  {
    var r := Put(book, p);
    if p.auditId in Ids(book) {
      forall j, k | 0 <= j < k < |r| ensures r[j].auditId != r[k].auditId {
        assert Ids(r)[j] == Ids(book)[j] && Ids(r)[k] == Ids(book)[k];
      }
    } else {
      forall j, k | 0 <= j < k < |r| ensures r[j].auditId != r[k].auditId {
        if k == |book| {
          assert Ids(book)[j] == book[j].auditId;
        }
      }
    }
  }

  /** The `open_by_id` comprehension over the stored list: positions without an
      id are dropped; a repeated id keeps its first place and its last value. */
  function Load(stored: seq<Position>): (book: Book)
    ensures UniqueIds(book)
    ensures forall id :: id != "" ==> (id in Ids(book) <==> id in Ids(stored))
    ensures "" !in Ids(book)
  {
    if stored == [] then []
    else
      var front := Load(stored[..|stored| - 1]);
      var p := stored[|stored| - 1];
      assert Ids(stored) == Ids(stored[..|stored| - 1]) + [p.auditId];
      if p.auditId == "" then front
      else
        PutKeepsUnique(front, p);
        PutIds(front, p);
        Put(front, p)
  }

  /** The keys after an assignment are the old keys and the assigned one. */
  lemma PutIds(book: Book, p: Position)
    ensures forall id :: id in Ids(Put(book, p)) <==> id in Ids(book) || id == p.auditId
  {
    if p.auditId !in Ids(book) {
      IdsAppend(book, p);
    }
  }

  /** The last stored value of an id is the one that survives. */
  lemma {:induction false} LoadKeepsLast(stored: seq<Position>, k: nat)
    requires k < |stored| && stored[k].auditId != ""
    requires forall j :: k < j < |stored| ==> stored[j].auditId != stored[k].auditId
    ensures Lookup(Load(stored), stored[k].auditId) == Some(stored[k])
    decreases |stored|
  {
    var front := stored[..|stored| - 1];
    var p := stored[|stored| - 1];
    PutLookup(Load(front), p);
    if k < |stored| - 1 {
      LoadKeepsLast(front, k);
    }
  }

  // ---------------------------------------------------------------- capture

  /** The fields of one TOP10 item the capture reads; `None` is a missing or
      null field. */
  datatype TopItem = TopItem(par: Option<string>, side: Option<string>, atual: Option<real>,
                             alvo: Option<real>, ttl: Option<string>, ganhoPct: Option<real>,
                             assertPct: Option<real>, prazo: Option<string>, priceSource: Option<string>)

  /** The capture time: full stamp, date and time of day, in BRT. */
  datatype Stamp = Stamp(ts: string, date: string, hora: string)

  function ItemPar(it: TopItem): string { Strip(it.par.GetOr("")) }
  function ItemSideText(it: TopItem): string { Strip(Upper(it.side.GetOr(""))) }
  function ItemSide(it: TopItem): Side {
    if ItemSideText(it) == LONG then Long else if ItemSideText(it) == SHORT then Short else NoEntry
  }
  function ItemTtl(it: TopItem): string { Strip(it.ttl.GetOr("")) }

  /** The capture opens a position only for a named LONG/SHORT item with a
      positive entry, a positive target and an expiry. */
  predicate Eligible(it: TopItem) {
    ItemPar(it) != "" && ItemSide(it).Directional()
    && it.atual.GetOr(0.0) > 0.0 && it.alvo.GetOr(0.0) > 0.0 && ItemTtl(it) != ""
  }

  function KeyOf(it: TopItem): AuditKey {
    AuditKey(ItemPar(it), ItemSide(it), it.atual.GetOr(0.0), it.alvo.GetOr(0.0), ItemTtl(it))
  }

  /** The new position of an eligible item, with no excursion yet. */
  function Open(it: TopItem, digest: AuditKey -> string, now: Stamp): (p: Position)
    requires Eligible(it)
    ensures p.auditId == digest(KeyOf(it)) && p.side.Directional()
    ensures p.mfePct == 0.0 && p.maePct == 0.0 && p.entrada > 0.0 && p.alvo > 0.0
    ensures p.invalidado == Invalidado(p.entrada, AtrFromEntryTarget(p.entrada, p.alvo), p.side)
  {
    var e, a := it.atual.GetOr(0.0), it.alvo.GetOr(0.0);
    Position(digest(KeyOf(it)), now.ts, now.date, now.hora, ItemPar(it), ItemSide(it), e, a,
             Invalidado(e, AtrFromEntryTarget(e, a), ItemSide(it)),
             it.ganhoPct.GetOr(0.0), it.assertPct.GetOr(0.0), OrText(it.prazo, "-"),
             OrText(it.priceSource, "NONE"), ItemTtl(it), 0.0, 0.0)
  }

  /** One step of the capture loop. */
  function Admit(book: Book, it: TopItem, digest: AuditKey -> string, now: Stamp): Book {
    if Eligible(it) && digest(KeyOf(it)) !in Ids(book) then book + [Open(it, digest, now)] else book
  }

  /** The capture loop over the TOP10 items, in order. */
  function CaptureAll(book: Book, items: seq<TopItem>, digest: AuditKey -> string, now: Stamp): (r: Book)
    ensures |book| <= |r| && r[..|book|] == book
  {
    if items == [] then book
    else Admit(CaptureAll(book, items[..|items| - 1], digest, now), items[|items| - 1], digest, now)
  }

  /** The capture loop of `run_audit_top10`. */
  method Capture(book: Book, items: seq<TopItem>, digest: AuditKey -> string, now: Stamp) returns (r: Book)
    ensures r == CaptureAll(book, items, digest, now)
  {
    r := book;
    for i := 0 to |items|
      invariant r == CaptureAll(book, items[..i], digest, now)
    {
      assert items[..i + 1][..i] == items[..i];
      var it := items[i];
      if !Eligible(it) {
        continue;
      }
      var aid := digest(KeyOf(it));
      if aid in Ids(r) {
        continue;
      }
      r := r + [Open(it, digest, now)];
    }
    assert items[..|items|] == items;
  }

  /** One admission keeps every id and adds the item's own when it is eligible. */
  lemma AdmitKeepsIds(book: Book, it: TopItem, digest: AuditKey -> string, now: Stamp)
    ensures forall id :: id in Ids(book) ==> id in Ids(Admit(book, it, digest, now))
    ensures Eligible(it) ==> digest(KeyOf(it)) in Ids(Admit(book, it, digest, now))
  {
    if Eligible(it) && digest(KeyOf(it)) !in Ids(book) {
      IdsAppend(book, Open(it, digest, now));
    }
  }

  /** Appending a position appends its id. */
  lemma IdsAppend(book: Book, p: Position)
    ensures Ids(book + [p]) == Ids(book) + [p.auditId]
  {
    assert |Ids(book + [p])| == |Ids(book) + [p.auditId]|;
  }

  /** Capturing keeps the ids unique. */
  lemma {:induction false} CaptureUnique(book: Book, items: seq<TopItem>, digest: AuditKey -> string, now: Stamp)
    requires UniqueIds(book)
    ensures UniqueIds(CaptureAll(book, items, digest, now))
  {
    if items != [] {
      var f := CaptureAll(book, items[..|items| - 1], digest, now);
      CaptureUnique(book, items[..|items| - 1], digest, now);
      var r := Admit(f, items[|items| - 1], digest, now);
      if r != f {
        forall j, k | 0 <= j < k < |r| ensures r[j].auditId != r[k].auditId {
          if k == |f| {
            assert Ids(f)[j] == f[j].auditId;
          }
        }
      }
    }
  }

  /** After capturing, every eligible item's id is present. */
  lemma {:induction false} CapturePresent(book: Book, items: seq<TopItem>, digest: AuditKey -> string, now: Stamp)
    ensures forall k :: 0 <= k < |items| && Eligible(items[k]) ==>
      digest(KeyOf(items[k])) in Ids(CaptureAll(book, items, digest, now))
  {
    if items != [] {
      var front := items[..|items| - 1];
      CapturePresent(book, front, digest, now);
      AdmitKeepsIds(CaptureAll(book, front, digest, now), items[|items| - 1], digest, now);
      forall k | 0 <= k < |items| - 1 ensures items[k] == front[k] { }
    }
  }

  /** Capturing items whose ids are all present already changes nothing. */
  lemma {:induction false} CaptureOfPresent(book: Book, items: seq<TopItem>, digest: AuditKey -> string, now: Stamp)
    requires forall k :: 0 <= k < |items| && Eligible(items[k]) ==> digest(KeyOf(items[k])) in Ids(book)
    ensures CaptureAll(book, items, digest, now) == book
  {
    if items != [] {
      CaptureOfPresent(book, items[..|items| - 1], digest, now);
    }
  }

  /** Re-running the capture on the same TOP10, at any later time, opens nothing. */
  lemma CaptureIdempotent(book: Book, items: seq<TopItem>, digest: AuditKey -> string, now: Stamp, later: Stamp)
    ensures CaptureAll(CaptureAll(book, items, digest, now), items, digest, later) == CaptureAll(book, items, digest, now)
  {
    CapturePresent(book, items, digest, now);
    CaptureOfPresent(CaptureAll(book, items, digest, now), items, digest, later);
  }

  // ------------------------------------------------------- update and close

  /** One closed position as appended to `top10_closed.jsonl`. */
  datatype Closed = Closed(pos: Position, closeTs: string, hit: Hit, result: Outcome,
                           closePrice: real, pnlReal: real)

  /** What the update does to one position. */
  datatype Fate = StaysOpen(p: Position) | Closes(c: Closed)

  /** The clock and the feeds of one cycle: the mark price per symbol (a missing
      symbol is a failed fetch), the parse of an expiry text to a time, the
      current time and the close stamp. */
  datatype Cycle = Cycle(prices: map<string, real>, parseTtl: string -> Option<int>, now: int, closeTs: string)

  function PriceOf(p: Position, cyc: Cycle): real {
    var sym := Sym(Some(p.par));
    if sym in cyc.prices then cyc.prices[sym] else 0.0
  }

  predicate TtlPassed(p: Position, cyc: Cycle) {
    var t := cyc.parseTtl(p.ttl);
    t.Some? && cyc.now >= t.value
  }

  /** The loop body of the update, given the fetched price and whether the
      expiry has passed: no price keeps the position unchanged; otherwise the
      excursions are widened by the current P&L and the position closes if
      `CheckClose` says so. */
  function Step(p: Position, px: real, ttlPassed: bool, closeTs: string): (f: Fate)
    ensures px <= 0.0 ==> f == StaysOpen(p)
    ensures f.StaysOpen? ==> f.p.auditId == p.auditId
    ensures f.Closes? ==> f.c.pos.auditId == p.auditId && f.c.closePrice == px > 0.0 && f.c.closeTs == closeTs
    ensures f.Closes? ==> f.c.pnlReal == PnlPct(p.side, p.entrada, px)
    ensures f.Closes? <==> px > 0.0 && CheckClose(p.side, px, p.alvo, p.invalidado, ttlPassed).Some?
  {
    if px <= 0.0 then StaysOpen(p)
    else
      var s := Widen(p, PnlPct(p.side, p.entrada, px));
      var cr := CheckClose(p.side, px, p.alvo, p.invalidado, ttlPassed);
      if cr.None? then StaysOpen(s)
      else Closes(Closed(s, closeTs, cr.value.hit, cr.value.result, cr.value.closePrice,
                         PnlPct(p.side, p.entrada, cr.value.closePrice)))
  }

  /** `mfe_pct := max(mfe_pct, pnl)`, `mae_pct := min(mae_pct, pnl)`. */
  function Widen(p: Position, pnl: real): (s: Position)
    ensures s.auditId == p.auditId && s.side == p.side && s.entrada == p.entrada
    ensures s.mfePct >= p.mfePct && s.mfePct >= pnl && (s.mfePct == p.mfePct || s.mfePct == pnl)
    ensures s.maePct <= p.maePct && s.maePct <= pnl && (s.maePct == p.maePct || s.maePct == pnl)
  {
    p.(mfePct := Max(p.mfePct, pnl), maePct := Min(p.maePct, pnl))
  }

  /** A position whose excursions bracket zero keeps them so: the favourable
      one only grows and the adverse one only shrinks. */
  predicate Bracketed(p: Position) { p.maePct <= 0.0 <= p.mfePct }

  lemma StepKeepsBracket(p: Position, px: real, ttlPassed: bool, closeTs: string)
    requires Bracketed(p)
    ensures var f := Step(p, px, ttlPassed, closeTs);
      (f.StaysOpen? ==> Bracketed(f.p) && f.p.mfePct >= p.mfePct && f.p.maePct <= p.maePct)
      && (f.Closes? ==> Bracketed(f.c.pos) && f.c.pos.mfePct >= f.c.pnlReal >= f.c.pos.maePct)
  {
  }

  function OpenOf(fates: seq<Fate>): (r: seq<Position>)
    ensures |r| <= |fates|
  {
    if fates == [] then []
    else OpenOf(fates[..|fates| - 1]) + (if fates[|fates| - 1].StaysOpen? then [fates[|fates| - 1].p] else [])
  }

  function ClosedOf(fates: seq<Fate>): (r: seq<Closed>)
    ensures |r| <= |fates|
  {
    if fates == [] then []
    else ClosedOf(fates[..|fates| - 1]) + (if fates[|fates| - 1].Closes? then [fates[|fates| - 1].c] else [])
  }

  function Fates(book: Book, cyc: Cycle): (fates: seq<Fate>)
    ensures |fates| == |book|
    ensures forall k :: 0 <= k < |book| ==> fates[k] == Step(book[k], PriceOf(book[k], cyc), TtlPassed(book[k], cyc), cyc.closeTs)
  {
    seq(|book|, k requires 0 <= k < |book| => Step(book[k], PriceOf(book[k], cyc), TtlPassed(book[k], cyc), cyc.closeTs))
  }

  /** Number of closes with the given result. */
  function CountResult(closed: seq<Closed>, o: Outcome): (n: nat)
    ensures n <= |closed|
  {
    if closed == [] then 0
    else CountResult(closed[..|closed| - 1], o) + (if closed[|closed| - 1].result == o then 1 else 0)
  }

  lemma FatesSnoc(fates: seq<Fate>, i: nat)
    requires i < |fates|
    ensures OpenOf(fates[..i + 1]) == OpenOf(fates[..i]) + (if fates[i].StaysOpen? then [fates[i].p] else [])
    ensures ClosedOf(fates[..i + 1]) == ClosedOf(fates[..i]) + (if fates[i].Closes? then [fates[i].c] else [])
  {
    assert fates[..i + 1][..i] == fates[..i];
  }

  lemma CountSnoc(closed: seq<Closed>, c: Closed, o: Outcome)
    ensures CountResult(closed + [c], o) == CountResult(closed, o) + (if c.result == o then 1 else 0)
  {
    assert (closed + [c])[..|closed|] == closed;
  }

  /** Every position either stays open or closes, exactly once. */
  lemma {:induction false} Partition(fates: seq<Fate>)
    ensures |OpenOf(fates)| + |ClosedOf(fates)| == |fates|
  {
    if fates != [] {
      Partition(fates[..|fates| - 1]);
    }
  }

  /** The id of the position a fate carries. */
  function FateId(f: Fate): string {
    if f.StaysOpen? then f.p.auditId else f.c.pos.auditId
  }

  /** The ids of closed positions, in order. */
  function ClosedIds(closed: seq<Closed>): (ids: seq<string>)
    ensures |ids| == |closed| && forall k :: 0 <= k < |closed| ==> ids[k] == closed[k].pos.auditId
  {
    if closed == [] then [] else ClosedIds(closed[..|closed| - 1]) + [closed[|closed| - 1].pos.auditId]
  }

  /** The ids the fates carry, in order. */
  function FateIds(fates: seq<Fate>): (ids: seq<string>)
    ensures |ids| == |fates| && forall k :: 0 <= k < |fates| ==> ids[k] == FateId(fates[k])
  {
    if fates == [] then [] else FateIds(fates[..|fates| - 1]) + [FateId(fates[|fates| - 1])]
  }

  lemma ClosedIdsSnoc(closed: seq<Closed>, c: Closed)
    ensures ClosedIds(closed + [c]) == ClosedIds(closed) + [c.pos.auditId]
  {
    assert (closed + [c])[..|closed|] == closed;
  }

  /** Splitting the fates sends each id to exactly one of the two lists. */
  lemma {:induction false} FateIdsSplit(fates: seq<Fate>)
    ensures multiset(Ids(OpenOf(fates))) + multiset(ClosedIds(ClosedOf(fates))) == multiset(FateIds(fates))
  {
    if fates != [] {
      var front := fates[..|fates| - 1];
      var last := fates[|fates| - 1];
      FateIdsSplit(front);
      assert FateIds(fates) == FateIds(front) + [FateId(last)];
      if last.StaysOpen? {
        assert OpenOf(fates) == OpenOf(front) + [last.p];
        assert ClosedOf(fates) == ClosedOf(front);
        IdsAppend(OpenOf(front), last.p);
      } else {
        assert OpenOf(fates) == OpenOf(front);
        assert ClosedOf(fates) == ClosedOf(front) + [last.c];
        ClosedIdsSnoc(ClosedOf(front), last.c);
      }
    }
  }

  /** A fate keeps the id of its position. */
  lemma StepId(p: Position, px: real, ttlPassed: bool, closeTs: string)
    ensures FateId(Step(p, px, ttlPassed, closeTs)) == p.auditId
  {
  }

  /** The update yields one fate per position, in the book's order of ids. */
  lemma FatesKeepIds(book: Book, cyc: Cycle)
    ensures FateIds(Fates(book, cyc)) == Ids(book)
  {
    var fates := Fates(book, cyc);
    forall k | 0 <= k < |book| ensures FateIds(fates)[k] == Ids(book)[k] {
      StepId(book[k], PriceOf(book[k], cyc), TtlPassed(book[k], cyc), cyc.closeTs);
    }
  }

  /** The update sends every position of the book, by id, to exactly one of
      the new book and the closes. */
  lemma PartitionIds(book: Book, cyc: Cycle)
    ensures var fates := Fates(book, cyc);
      multiset(Ids(OpenOf(fates))) + multiset(ClosedIds(ClosedOf(fates))) == multiset(Ids(book))
  {
    FateIdsSplit(Fates(book, cyc));
    FatesKeepIds(book, cyc);
  }

  /** The three results count every close. */
  lemma {:induction false} ResultsPartition(closed: seq<Closed>)
    ensures CountResult(closed, Win) + CountResult(closed, Loss) + CountResult(closed, Expired) == |closed|
  {
    if closed != [] {
      ResultsPartition(closed[..|closed| - 1]);
    }
  }

  /** Bracketed excursions survive the whole update. */
  lemma {:induction false} FatesKeepBracket(fates: seq<Fate>)
    requires forall k :: 0 <= k < |fates| ==>
      (fates[k].StaysOpen? ==> Bracketed(fates[k].p)) && (fates[k].Closes? ==> Bracketed(fates[k].c.pos))
    ensures forall k :: 0 <= k < |OpenOf(fates)| ==> Bracketed(OpenOf(fates)[k])
    ensures forall k :: 0 <= k < |ClosedOf(fates)| ==> Bracketed(ClosedOf(fates)[k].pos)
  {
    if fates != [] {
      FatesKeepBracket(fates[..|fates| - 1]);
    }
  }

  /** The tail of the update loop body: keep the position or log the close
      and count its result. */
  method Record(f: Fate, open0: seq<Position>, closed0: seq<Closed>, win0: nat, loss0: nat, expired0: nat)
    returns (newOpen: seq<Position>, closed: seq<Closed>, win: nat, loss: nat, expired: nat)
    requires win0 == CountResult(closed0, Win) && loss0 == CountResult(closed0, Loss)
    requires expired0 == CountResult(closed0, Expired)
    ensures newOpen == open0 + (if f.StaysOpen? then [f.p] else [])
    ensures closed == closed0 + (if f.Closes? then [f.c] else [])
    ensures win == CountResult(closed, Win) && loss == CountResult(closed, Loss)
    ensures expired == CountResult(closed, Expired)
  {
    newOpen, closed, win, loss, expired := open0, closed0, win0, loss0, expired0;
    match f {
      case StaysOpen(p) =>
        newOpen := newOpen + [p];
      case Closes(c) =>
        CountSnoc(closed, c, Win);
        CountSnoc(closed, c, Loss);
        CountSnoc(closed, c, Expired);
        if c.result == Win {
          win := win + 1;
        } else if c.result == Loss {
          loss := loss + 1;
        } else {
          expired := expired + 1;
        }
        closed := closed + [c];
    }
  }

  /** The update loop of `run_audit_top10`: the positions that stay open, the
      closes of this cycle in order, and the WIN/LOSS/EXPIRED counters. */
  method UpdateAndClose(book: Book, cyc: Cycle)
    returns (newOpen: seq<Position>, closed: seq<Closed>, win: nat, loss: nat, expired: nat)
    ensures newOpen == OpenOf(Fates(book, cyc)) && closed == ClosedOf(Fates(book, cyc))
    ensures |newOpen| + |closed| == |book|
    ensures win == CountResult(closed, Win) && loss == CountResult(closed, Loss)
    ensures expired == CountResult(closed, Expired)
    ensures win + loss + expired == |closed|
  {
    ghost var fates := Fates(book, cyc);
    newOpen, closed := [], [];
    win, loss, expired := 0, 0, 0;
    for i := 0 to |book|
      invariant newOpen == OpenOf(fates[..i]) && closed == ClosedOf(fates[..i])
      invariant win == CountResult(closed, Win) && loss == CountResult(closed, Loss)
      invariant expired == CountResult(closed, Expired)
    {
      var f := Step(book[i], PriceOf(book[i], cyc), TtlPassed(book[i], cyc), cyc.closeTs);
      FatesSnoc(fates, i);
      newOpen, closed, win, loss, expired := Record(f, newOpen, closed, win, loss, expired);
    }
    assert fates[..|book|] == fates;
    Partition(fates);
    ResultsPartition(closed);
  }

  predicate AllBracketed(book: Book) {
    forall k :: 0 <= k < |book| ==> Bracketed(book[k])
  }

  /** New positions start with both excursions at zero, so a book whose
      excursions bracket zero still does after the capture. */
  lemma {:induction false} CaptureKeepsBracket(book: Book, items: seq<TopItem>, digest: AuditKey -> string, now: Stamp)
    requires AllBracketed(book)
    ensures AllBracketed(CaptureAll(book, items, digest, now))
  {
    if items != [] {
      var f := CaptureAll(book, items[..|items| - 1], digest, now);
      CaptureKeepsBracket(book, items[..|items| - 1], digest, now);
      assert AllBracketed(f);
      AdmitKeepsBracket(f, items[|items| - 1], digest, now);
    }
  }

  lemma AdmitKeepsBracket(f: Book, it: TopItem, digest: AuditKey -> string, now: Stamp)
    requires AllBracketed(f)
    ensures AllBracketed(Admit(f, it, digest, now))
  {
    if Eligible(it) && digest(KeyOf(it)) !in Ids(f) {
      var p := Open(it, digest, now);
      var r := f + [p];
      forall k | 0 <= k < |r| ensures Bracketed(r[k]) {
        if k < |f| {
          assert r[k] == f[k];
        }
      }
    }
  }

  /** And still does after the update, in both outputs. */
  lemma UpdateKeepsBracket(book: Book, cyc: Cycle)
    requires AllBracketed(book)
    ensures AllBracketed(OpenOf(Fates(book, cyc)))
    ensures forall k :: 0 <= k < |ClosedOf(Fates(book, cyc))| ==> Bracketed(ClosedOf(Fates(book, cyc))[k].pos)
  {
    var fates := Fates(book, cyc);
    forall k | 0 <= k < |fates|
      ensures (fates[k].StaysOpen? ==> Bracketed(fates[k].p)) && (fates[k].Closes? ==> Bracketed(fates[k].c.pos))
    {
      StepKeepsBracket(book[k], PriceOf(book[k], cyc), TtlPassed(book[k], cyc), cyc.closeTs);
    }
    FatesKeepBracket(fates);
  }

  lemma {:induction false} PutKeepsBracket(book: Book, p: Position)
    requires AllBracketed(book) && Bracketed(p)
    ensures AllBracketed(Put(book, p))
  {
    if book != [] && book[0].auditId != p.auditId {
      PutKeepsBracket(book[1..], p);
      var r := Put(book, p);
      assert r == [book[0]] + Put(book[1..], p);
      forall k | 0 <= k < |r| ensures Bracketed(r[k]) {
        if k > 0 {
          assert r[k] == Put(book[1..], p)[k - 1];
        }
      }
    }
  }

  /** Loading keeps only stored positions, so it keeps bracketed excursions. */
  lemma {:induction false} LoadKeepsBracket(stored: seq<Position>)
    requires AllBracketed(stored)
    ensures AllBracketed(Load(stored))
  {
    if stored != [] {
      var front := stored[..|stored| - 1];
      assert AllBracketed(front) by {
        forall k | 0 <= k < |front| ensures Bracketed(front[k]) {
          assert front[k] == stored[k];
        }
      }
      LoadKeepsBracket(front);
      if stored[|stored| - 1].auditId != "" {
        PutKeepsBracket(Load(front), stored[|stored| - 1]);
      }
    }
  }
}
