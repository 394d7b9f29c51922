/** The two Python string operations the core applies to JSON text:
    `str.upper()` and `str.strip()`.  Both are modelled character by character on
    ASCII and the Latin-1 letters à-þ; ß, ÿ and µ are left unchanged, where
    Python upper-cases them to "SS", U+0178 and U+039C. */
module Text {

  /** Upper case of one character: a-z and the Latin-1 lower-case letters
      (U+00E0..U+00FE except U+00F7, the division sign). */
  function UpperChar(c: char): (u: char)
    ensures 'a' <= c <= 'z' ==> u as int == c as int - 32
    ensures !IsLower(c) ==> u == c
  {
    if IsLower(c) then (c as int - 32) as char else c
  }

  predicate IsLower(c: char) {
    ('a' <= c <= 'z') || ('à' <= c <= 'þ' && c != '÷')
  }

  function Upper(s: string): (r: string)
    ensures |r| == |s|
    ensures forall i :: 0 <= i < |s| ==> r[i] == UpperChar(s[i])
  {
    if s == [] then [] else Upper(s[..|s| - 1]) + [UpperChar(s[|s| - 1])]
  }

  /** Upper-casing twice is upper-casing once. */
  lemma UpperIdempotent(s: string)
    ensures Upper(Upper(s)) == Upper(s)
  {
    var u := Upper(s);
    assert forall i :: 0 <= i < |u| ==> Upper(u)[i] == u[i];
  }

  /** The ASCII whitespace Python's `str.strip()` removes. */
  predicate IsSpace(c: char) {
    c == ' ' || c == '\t' || c == '\n' || c == '\r' || c == '\U{B}' || c == '\U{C}'
  }

  function StripLeft(s: string): (r: string)
    ensures |r| <= |s| && r == s[|s| - |r|..]
    ensures r != [] ==> !IsSpace(r[0])
    ensures forall i :: 0 <= i < |s| - |r| ==> IsSpace(s[i])
  {
    if s != [] && IsSpace(s[0]) then StripLeft(s[1..]) else s
  }

  function StripRight(s: string): (r: string)
    ensures |r| <= |s| && r == s[..|r|]
    ensures r != [] ==> !IsSpace(r[|r| - 1])
    ensures forall i :: |r| <= i < |s| ==> IsSpace(s[i])
  {
    if s != [] && IsSpace(s[|s| - 1]) then StripRight(s[..|s| - 1]) else s
  }

  function Strip(s: string): (r: string)
    ensures r != [] ==> !IsSpace(r[0]) && !IsSpace(r[|r| - 1])
    ensures (forall i :: 0 <= i < |s| ==> IsSpace(s[i])) <==> r == []
  {
    var l := StripLeft(s);
    StripRightKeepsFront(l);
    StripRight(l)
  }

  lemma StripRightKeepsFront(s: string)
    requires s != [] ==> !IsSpace(s[0])
    ensures StripRight(s) != [] ==> !IsSpace(StripRight(s)[0])
    ensures s != [] ==> StripRight(s) != []
  {
  }
}
