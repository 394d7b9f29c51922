/** The consistency check of `audit/run_audit.py` over the two published
    payloads, `pro.json` and `top10.json`, already read and parsed. */
module PayloadAudit {
  import opened Common

  const MAX_ERRORS: nat := 50
  const TOP10_MAX: nat := 10
  const EXIT_OK: int := 0
  const EXIT_FAIL: int := 2

  /** A parsed payload, as far as the checks look into it:
      - `okTrue`: the `ok` field is exactly `true`;
      - `count`: `int(count)` with 0 for a missing field, `None` when the
        conversion raises;
      - `items`: the length of `items or []`, `None` when `len` raises;
      - `updatedBrt`, `schemaVersion`: whether the field is truthy. */
  datatype Payload = Payload(okTrue: bool, count: Option<int>, items: Option<nat>,
                             updatedBrt: bool, schemaVersion: bool)

  datatype Which = Pro | Top10

  /** One appended error; the numbers are those the message text carries. */
  datatype Kind =
    | OkFalse
    | CountMismatchItems(count: int, items: nat)
    | CountExpected(expected: nat, count: int)
    | CountGt10(count: int)
    | MissingUpdatedBrt
    | MissingSchemaVersion
    | ReadError

  datatype Error = Error(which: Which, kind: Kind)

  /** One check of a block: whether it fails and the error it then appends. */
  datatype Check = Check(fails: bool, error: Error)

  /** The error a check appends: none when it holds. */
  function Part(c: Check): seq<Error> {
    if c.fails then [c.error] else []
  }

  /** The errors of a run of checks, in order. */
  function Collect(cs: seq<Check>): seq<Error> {
    if cs == [] then [] else Collect(cs[..|cs| - 1]) + Part(cs[|cs| - 1])
  }

  /** The checks of one block, in the order they run. `None` is a file that
      cannot be read or parsed; a count or items that raises ends the block with
      a read error after the `ok` check. */
  function Checks(w: Which, p: Option<Payload>, expected: nat): seq<Check> {
    if p.None? then [Check(true, Error(w, ReadError))]
    else
      var q := p.value;
      var okCheck := Check(!q.okTrue, Error(w, OkFalse));
      if q.count.None? || q.items.None? then [okCheck, Check(true, Error(w, ReadError))]
      else
        var c, n := q.count.value, q.items.value;
        [ okCheck,
          Check(c != n, Error(w, CountMismatchItems(c, n))),
          Check(w == Pro && expected != 0 && c != expected, Error(w, CountExpected(expected, c))),
          Check(w == Top10 && c > TOP10_MAX, Error(w, CountGt10(c))),
          Check(!q.updatedBrt, Error(w, MissingUpdatedBrt)),
          Check(!q.schemaVersion, Error(w, MissingSchemaVersion)) ]
  }

  /** The errors of one block, in order. */
  function Errors(w: Which, p: Option<Payload>, expected: nat): seq<Error> {
    Collect(Checks(w, p, expected))
  }

  /** Everything a payload must satisfy to pass. */
  predicate Passes(w: Which, p: Option<Payload>, expected: nat) {
    && p.Some? && p.value.okTrue && p.value.count.Some? && p.value.items.Some?
    && p.value.count.value == p.value.items.value
    && (w == Pro ==> expected == 0 || p.value.count.value == expected)
    && (w == Top10 ==> p.value.count.value <= TOP10_MAX)
    && p.value.updatedBrt && p.value.schemaVersion
  }

  /** A run of checks appends nothing exactly when none of them fails. */
  lemma {:induction false} CollectEmpty(cs: seq<Check>)
    ensures Collect(cs) == [] <==> forall k :: 0 <= k < |cs| ==> !cs[k].fails
  {
    if cs != [] {
      CollectEmpty(cs[..|cs| - 1]);
      assert forall k :: 0 <= k < |cs| - 1 ==> cs[..|cs| - 1][k] == cs[k];
    }
  }

  /** A check whose error no other check appends has that error in the list
      exactly when it fails. */
  lemma {:induction false} CollectMember(cs: seq<Check>, k: nat)
    requires k < |cs|
    requires forall j :: 0 <= j < |cs| && j != k ==> cs[j].error != cs[k].error
    ensures cs[k].error in Collect(cs) <==> cs[k].fails
  {
    var front := cs[..|cs| - 1];
    if k < |cs| - 1 {
      assert front[k] == cs[k];
      assert forall j :: 0 <= j < |front| && j != k ==> front[j].error != front[k].error by {
        assert forall j :: 0 <= j < |front| ==> front[j] == cs[j];
      }
      CollectMember(front, k);
    } else {
      CollectAbsent(front, cs[k].error);
    }
  }

  /** An error no check of a run appends is not in its list. */
  lemma {:induction false} CollectAbsent(cs: seq<Check>, e: Error)
    requires forall j :: 0 <= j < |cs| ==> cs[j].error != e
    ensures e !in Collect(cs)
  {
    if cs != [] {
      var front := cs[..|cs| - 1];
      assert forall j :: 0 <= j < |front| ==> front[j] == cs[j];
      CollectAbsent(front, e);
    }
  }

  /** A block appends no error exactly when its payload passes every check. */
  lemma NoErrorsIffPasses(w: Which, p: Option<Payload>, expected: nat)
    ensures Errors(w, p, expected) == [] <==> Passes(w, p, expected)
  {
    var cs := Checks(w, p, expected);
    CollectEmpty(cs);
    if p.None? {
      assert cs[0].fails;
    } else if p.value.count.None? || p.value.items.None? {
      assert cs[1].fails;
    } else {
      assert |cs| == 6;
      assert Passes(w, p, expected) <==>
        !cs[0].fails && !cs[1].fails && !cs[2].fails && !cs[3].fails && !cs[4].fails && !cs[5].fails;
    }
  }

  /** The count checks each append their error exactly when they fail. */
  lemma CountErrors(w: Which, q: Payload, expected: nat)
    requires q.count.Some? && q.items.Some?
    ensures var es := Errors(w, Some(q), expected);
      var c, n := q.count.value, q.items.value;
      && (Error(w, CountMismatchItems(c, n)) in es <==> c != n)
      && (Error(w, CountExpected(expected, c)) in es <==> w == Pro && expected != 0 && c != expected)
      && (Error(w, CountGt10(c)) in es <==> w == Top10 && c > TOP10_MAX)
  {
    var cs := Checks(w, Some(q), expected);
    CollectMember(cs, 1);
    CollectMember(cs, 2);
    CollectMember(cs, 3);
  }

  /** The field checks each append their error exactly when they fail, and a
      payload whose count and items convert has no read error. */
  lemma FieldErrors(w: Which, q: Payload, expected: nat)
    requires q.count.Some? && q.items.Some?
    ensures var es := Errors(w, Some(q), expected);
      && (Error(w, OkFalse) in es <==> !q.okTrue)
      && (Error(w, MissingUpdatedBrt) in es <==> !q.updatedBrt)
      && (Error(w, MissingSchemaVersion) in es <==> !q.schemaVersion)
      && Error(w, ReadError) !in es
  {
    var cs := Checks(w, Some(q), expected);
    CollectMember(cs, 0);
    CollectMember(cs, 4);
    CollectMember(cs, 5);
    CollectAbsent(cs, Error(w, ReadError));
  }

  /** A payload that cannot be read, or whose count or items raise, ends its
      block with a read error. */
  lemma ReadErrorLast(w: Which, p: Option<Payload>, expected: nat)
    requires p.None? || p.value.count.None? || p.value.items.None?
    ensures var es := Errors(w, p, expected);
      |es| >= 1 && es[|es| - 1] == Error(w, ReadError) && |es| <= 2
  {
    var cs := Checks(w, p, expected);
    if p.None? {
      assert cs[..0] == [];
      assert Collect(cs) == Collect(cs[..0]) + [Error(w, ReadError)];
    } else {
      assert cs[..1][..0] == [];
      assert |Collect(cs[..1])| <= 1;
      assert Collect(cs) == Collect(cs[..1]) + [Error(w, ReadError)];
    }
  }

  /** `if <fails>: ok=False; errors.append(<e>)`, as check `k` of a block whose
      first `k` checks have already run, starting from `okStart` and `base`. */
  method Flag(ghost cs: seq<Check>, ghost k: nat, fails: bool, e: Error, ok0: bool, errors0: seq<Error>,
              ghost okStart: bool, ghost base: seq<Error>)
    returns (ok: bool, errors: seq<Error>)
    requires k < |cs| && cs[k] == Check(fails, e)
    requires errors0 == base + Collect(cs[..k])
    requires ok0 <==> okStart && Collect(cs[..k]) == []
    ensures errors == base + Collect(cs[..k + 1])
    ensures ok <==> okStart && Collect(cs[..k + 1]) == []
  {
    assert cs[..k + 1][..k] == cs[..k];
    ok, errors := ok0, errors0;
    if fails {
      ok := false;
      errors := errors + [e];
    }
  }

  /** The checks of a block after its count and items have converted. */
  method CheckCounts(ghost cs: seq<Check>, w: Which, q: Payload, expected: nat, ok0: bool, errors0: seq<Error>,
                     ghost okStart: bool, ghost base: seq<Error>)
    returns (ok: bool, errors: seq<Error>)
    requires q.count.Some? && q.items.Some? && cs == Checks(w, Some(q), expected)
    requires errors0 == base + Collect(cs[..1])
    requires ok0 <==> okStart && Collect(cs[..1]) == []
    ensures errors == base + Collect(cs)
    ensures ok <==> okStart && Collect(cs) == []
  {
    var c, n := q.count.value, q.items.value;
    ok, errors := Flag(cs, 1, c != n, Error(w, CountMismatchItems(c, n)), ok0, errors0, okStart, base);
    ok, errors := Flag(cs, 2, w == Pro && expected != 0 && c != expected, Error(w, CountExpected(expected, c)), ok, errors, okStart, base);
    ok, errors := Flag(cs, 3, w == Top10 && c > TOP10_MAX, Error(w, CountGt10(c)), ok, errors, okStart, base);
    ok, errors := Flag(cs, 4, !q.updatedBrt, Error(w, MissingUpdatedBrt), ok, errors, okStart, base);
    ok, errors := Flag(cs, 5, !q.schemaVersion, Error(w, MissingSchemaVersion), ok, errors, okStart, base);
    assert cs[..6] == cs;
  }

  /** One block of `main`: each failing check clears `ok` and appends its error. */
  method CheckBlock(w: Which, p: Option<Payload>, expected: nat, ok0: bool, errors0: seq<Error>)
    returns (ok: bool, errors: seq<Error>)
    ensures errors == errors0 + Errors(w, p, expected)
    ensures ok <==> ok0 && Errors(w, p, expected) == []
  {
    ghost var cs := Checks(w, p, expected);
    assert errors0 == errors0 + Collect(cs[..0]);
    if p.None? {
      ok, errors := Flag(cs, 0, true, Error(w, ReadError), ok0, errors0, ok0, errors0);
      assert cs[..1] == cs;
      return;
    }
    var q := p.value;
    ok, errors := Flag(cs, 0, !q.okTrue, Error(w, OkFalse), ok0, errors0, ok0, errors0);
    if q.count.None? || q.items.None? {
      ok, errors := Flag(cs, 1, true, Error(w, ReadError), ok, errors, ok0, errors0);
      assert cs[..2] == cs;
    } else {
      ok, errors := CheckCounts(cs, w, q, expected, ok, errors, ok0, errors0);
    }
  }



  /** The report written to `audit.json`, without the clock and the directory. */
  datatype Report = Report(ok: bool, expected: nat, proCount: int, top10Count: int, errors: seq<Error>)

  /** The count reported for a payload: 0 when it cannot be read or converted. */
  function CountOf(p: Option<Payload>): (c: int)
    ensures p.Some? && p.value.count.Some? ==> c == p.value.count.value
    ensures p.None? || p.value.count.None? ==> c == 0
  {
    if p.Some? then p.value.count.GetOr(0) else 0
  }

  /** The first `MAX_ERRORS` of a list. */
  function Capped(es: seq<Error>): (r: seq<Error>)
    ensures |r| <= MAX_ERRORS && |r| <= |es| && r == es[..|r|]
    ensures |es| <= MAX_ERRORS ==> r == es
    ensures r == [] <==> es == []
  {
    if |es| <= MAX_ERRORS then es else es[..MAX_ERRORS]
  }

  /** `main` from line 41 on: both blocks, the capped report and the exit code.
      `expected` is the number of configured coins (0 when unknown). */
  method Audit(pro: Option<Payload>, top10: Option<Payload>, expected: nat) returns (out: Report, code: int)
    ensures var all := Errors(Pro, pro, expected) + Errors(Top10, top10, expected);
      && (out.ok <==> all == [])
      && out.errors == Capped(all)
    ensures out.ok <==> Passes(Pro, pro, expected) && Passes(Top10, top10, expected)
    ensures out.ok <==> out.errors == []
    ensures code == (if out.ok then EXIT_OK else EXIT_FAIL)
    ensures out.expected == expected && out.proCount == CountOf(pro) && out.top10Count == CountOf(top10)
  {
    var ok, errors := true, [];
    ok, errors := CheckBlock(Pro, pro, expected, ok, errors);
    ok, errors := CheckBlock(Top10, top10, expected, ok, errors);
    NoErrorsIffPasses(Pro, pro, expected);
    NoErrorsIffPasses(Top10, top10, expected);
    Verdict(Errors(Pro, pro, expected), Errors(Top10, top10, expected),
            Passes(Pro, pro, expected), Passes(Top10, top10, expected));
    out := Report(ok, expected, CountOf(pro), CountOf(top10), Capped(errors));
    code := if ok then EXIT_OK else EXIT_FAIL;
  }

  /** The two blocks together: no error at all exactly when both pass, and the
      capped list is empty exactly when the full one is. */
  lemma Verdict(ep: seq<Error>, et: seq<Error>, passPro: bool, passTop10: bool)
    requires (ep == [] <==> passPro) && (et == [] <==> passTop10)
    ensures ep + et == [] <==> passPro && passTop10
    ensures Capped(ep + et) == [] <==> ep + et == []
  {
  }
}
