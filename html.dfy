/** `esc` of `site/shared.js`: the HTML escaping applied to every value the
    site writes into a table cell. */
module Html {
  import opened Common

  /** The replacement of one character. */
  function EscChar(c: char): (r: string)
    ensures c == '&' ==> r == "&amp;"
    ensures c == '<' ==> r == "&lt;"
    ensures c == '>' ==> r == "&gt;"
    ensures c == '"' ==> r == "&quot;"
    ensures c !in "&<>\"" ==> r == [c]
    ensures '<' !in r && '>' !in r && '"' !in r
  {
    match c
    case '&' => "&amp;"
    case '<' => "&lt;"
    case '>' => "&gt;"
    case '"' => "&quot;"
    case _ => [c]
  }

  /** The `replace` with the global pattern `[&<>"]`, over the whole text. */
  function EscapeText(s: string): (r: string)
    ensures |r| >= |s|
    ensures '<' !in r && '>' !in r && '"' !in r
  {
    if s == [] then [] else EscChar(s[0]) + EscapeText(s[1..])
  }

  /** `esc(s)`: `null` and `undefined` (here `None`) give the empty text. */
  function Esc(s: Option<string>): (r: string)
    ensures s.None? ==> r == ""
    ensures s.Some? ==> r == EscapeText(s.value)
    ensures '<' !in r && '>' !in r && '"' !in r
  {
    EscapeText(s.GetOr(""))
  }

  /** The browser's reading of the four entities back to characters. */
  function Unescape(s: string): string
    decreases |s|
  {
    if s == [] then []
    else if |s| >= 5 && s[..5] == "&amp;" then "&" + Unescape(s[5..])
    else if |s| >= 4 && s[..4] == "&lt;" then "<" + Unescape(s[4..])
    else if |s| >= 4 && s[..4] == "&gt;" then ">" + Unescape(s[4..])
    else if |s| >= 6 && s[..6] == "&quot;" then "\"" + Unescape(s[6..])
    else [s[0]] + Unescape(s[1..])
  }

  /** Reading back one escaped character. */
  lemma UnescapeHead(c: char, rest: string)
    ensures Unescape(EscChar(c) + rest) == [c] + Unescape(rest)
  {
    var e := EscChar(c) + rest;
    if c == '&' {
      assert e[..5] == "&amp;" && e[5..] == rest;
    } else if c == '<' {
      assert e[..4] == "&lt;" && e[4..] == rest;
    } else if c == '>' {
      assert e[..4] == "&gt;" && e[4..] == rest;
    } else if c == '"' {
      assert e[..4] != "&lt;" && e[..4] != "&gt;";
      assert e[..6] == "&quot;" && e[6..] == rest;
    } else {
      assert e[0] == c && e[1..] == rest;
    }
  }

  /** Escaping loses nothing: reading the entities back gives the original text. */
  lemma {:induction false} UnescapeEscape(s: string)
    ensures Unescape(EscapeText(s)) == s
  {
    if s != [] {
      UnescapeHead(s[0], EscapeText(s[1..]));
      UnescapeEscape(s[1..]);
    }
  }

  /** Every other character passes through unchanged, in order. */
  lemma {:induction false} EscapeKeepsPlain(s: string)
    requires forall i :: 0 <= i < |s| ==> s[i] !in "&<>\""
    ensures EscapeText(s) == s
  {
    if s != [] {
      EscapeKeepsPlain(s[1..]);
    }
  }

  /** Escaping works character by character, so it distributes over concatenation. */
  lemma {:induction false} EscapeConcat(a: string, b: string)
    ensures EscapeText(a + b) == EscapeText(a) + EscapeText(b)
  {
    if a != [] {
      assert (a + b)[0] == a[0] && (a + b)[1..] == a[1..] + b;
      EscapeConcat(a[1..], b);
      calc {
        EscapeText(a + b);
        EscChar(a[0]) + EscapeText(a[1..] + b);
        EscChar(a[0]) + (EscapeText(a[1..]) + EscapeText(b));
        (EscChar(a[0]) + EscapeText(a[1..])) + EscapeText(b);
      }
    } else {
      assert a + b == b;
    }
  }
}
