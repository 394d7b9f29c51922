/** Value types shared by the signal engine, the ranking and the outcome tracker. */
module Common {

  datatype Option<T> = None | Some(value: T) {
    function GetOr(default: T): T {
      match this
      case Some(v) => v
      case None => default
    }
  }

  /** The three sides a signal can take; the source spells them as text. */
  datatype Side = Long | Short | NoEntry {
    function Name(): string {
      match this
      case Long => LONG
      case Short => SHORT
      case NoEntry => NO_ENTRY
    }
    predicate Directional() { this != NoEntry }
  }

  const LONG: string := "LONG"
  const SHORT: string := "SHORT"
  const NO_ENTRY: string := "NÃO ENTRAR"

  /** The tier words of zone and priority (feminine) and of risk (masculine). */
  const ALTA: string := "ALTA"
  const MEDIA: string := "MÉDIA"
  const BAIXA: string := "BAIXA"
  const BAIXO: string := "BAIXO"
  const MEDIO: string := "MÉDIO"
  const ALTO: string := "ALTO"

  /** Python's `str(x or d)` on an optional text field: missing or empty gives `d`. */
  function OrText(x: Option<string>, d: string): (r: string)
    ensures x.Some? && x.value != "" ==> r == x.value
    ensures x.None? || x.value == "" ==> r == d
  {
    if x.Some? && x.value != "" then x.value else d
  }

  /** A weekday as `date.weekday()` gives it (Monday is 0), an hour of the day,
      and the Portuguese weekday abbreviations both audit reports use. */
  type Weekday = w: int | 0 <= w < 7
  type Hour = h: int | 0 <= h < 24
  const DOW_NAMES: seq<string> := ["SEG", "TER", "QUA", "QUI", "SEX", "SAB", "DOM"]

  /** One OHLC candle, oldest to newest in a series. */
  datatype Candle = Candle(open: real, high: real, low: real, close: real)

  /** The columns of a candle series. */
  function Closes(ohlc: seq<Candle>): (c: seq<real>)
    ensures |c| == |ohlc| && forall i :: 0 <= i < |ohlc| ==> c[i] == ohlc[i].close
  {
    seq(|ohlc|, i requires 0 <= i < |ohlc| => ohlc[i].close)
  }

  function Highs(ohlc: seq<Candle>): (h: seq<real>)
    ensures |h| == |ohlc| && forall i :: 0 <= i < |ohlc| ==> h[i] == ohlc[i].high
  {
    seq(|ohlc|, i requires 0 <= i < |ohlc| => ohlc[i].high)
  }

  function Lows(ohlc: seq<Candle>): (l: seq<real>)
    ensures |l| == |ohlc| && forall i :: 0 <= i < |ohlc| ==> l[i] == ohlc[i].low
  {
    seq(|ohlc|, i requires 0 <= i < |ohlc| => ohlc[i].low)
  }

  function Last(s: seq<real>): real
    requires s != []
  {
    s[|s| - 1]
  }

  /** The displayed time-to-target: "-", "" or a formatted number of hours
      (the formatting itself, minutes below one hour, is not modelled). */
  datatype Prazo = Dash | Blank | Hours(h: real)

  function Max(a: real, b: real): real { if a >= b then a else b }
  function Min(a: real, b: real): real { if a <= b then a else b }
  function Abs(a: real): real { if a >= 0.0 then a else -a }

  /** max(lo, min(hi, x)) as the source writes its clamps. */
  function Clamp(lo: real, hi: real, x: real): (r: real)
    requires lo <= hi
    ensures lo <= r <= hi
    ensures lo <= x <= hi ==> r == x
  {
    Max(lo, Min(hi, x))
  }

  function Sum(s: seq<real>): real
  {
    if s == [] then 0.0 else Sum(s[..|s| - 1]) + s[|s| - 1]
  }

  lemma {:induction false} SumBounds(s: seq<real>, lo: real, hi: real)
    requires forall i :: 0 <= i < |s| ==> lo <= s[i] <= hi
    ensures lo * |s| as real <= Sum(s) <= hi * |s| as real
  {
    if s != [] {
      SumBounds(s[..|s| - 1], lo, hi);
    }
  }

  /** The arithmetic mean of the first `n` values lies between their bounds. */
  lemma MeanBounds(s: seq<real>, lo: real, hi: real)
    requires |s| > 0
    requires forall i :: 0 <= i < |s| ==> lo <= s[i] <= hi
    ensures lo <= Sum(s) / |s| as real <= hi
  {
    SumBounds(s, lo, hi);
    var n := |s| as real;
    var m := Sum(s) / n;
    assert m * n == Sum(s);
    DivideOutPositive(lo, m, n);
    DivideOutPositive(m, hi, n);
  }

  lemma DivideOutPositive(a: real, b: real, n: real)
    requires n > 0.0 && a * n <= b * n
    ensures a <= b
  {
    if a > b {
      assert false;
    }
  }
}
