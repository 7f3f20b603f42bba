/** ECMAScript's String.prototype.trim, which the search handler applies to the
    query text before it is sent. A Dafny character is a Unicode scalar value,
    so only strings whose UTF-16 code units all lie in the Basic Multilingual
    Plane (no surrogate pairs) have a counterpart here; every character trim
    removes lies in that plane. */
module JsString {

  /** The characters trim strips: ECMAScript's WhiteSpace (tab, vertical tab,
      form feed, the byte order mark and every space separator of category Zs)
      and LineTerminator (line feed, carriage return, U+2028 and U+2029). */
  predicate IsWhiteSpace(c: char)
  {
    c == '\t' || c == '\U{000B}' || c == '\U{000C}' || c == ' ' ||
    c == '\U{00A0}' || c == '\U{FEFF}' || c == '\U{1680}' ||
    ('\U{2000}' <= c <= '\U{200A}') ||
    c == '\U{202F}' || c == '\U{205F}' || c == '\U{3000}' ||
    c == '\n' || c == '\r' || c == '\U{2028}' || c == '\U{2029}'
  }

  predicate AllWhiteSpace(s: string)
  {
    forall i :: 0 <= i < |s| ==> IsWhiteSpace(s[i])
  }

  /** Drops the leading white space: the result is the suffix of `s` that
      starts at its first other character. */
  function TrimStart(s: string): (r: string)
    ensures |r| <= |s| && r == s[|s| - |r|..]
    ensures AllWhiteSpace(s[..|s| - |r|])
    ensures r == [] || !IsWhiteSpace(r[0])
  {
    if s != [] && IsWhiteSpace(s[0]) then
      var r := TrimStart(s[1..]);
      assert s[..|s| - |r|] == [s[0]] + s[1..][..|s| - 1 - |r|];
      r
    else
      s
  }

  /** Drops the trailing white space: the result is the prefix of `s` that
      ends at its last other character. */
  function TrimEnd(s: string): (r: string)
    ensures |r| <= |s| && r == s[..|r|]
    ensures AllWhiteSpace(s[|r|..])
    ensures r == [] || !IsWhiteSpace(r[|r| - 1])
  {
    if s != [] && IsWhiteSpace(s[|s| - 1]) then
      var r := TrimEnd(s[..|s| - 1]);
      assert s[|r|..] == s[..|s| - 1][|r|..] + [s[|s| - 1]];
      r
    else
      s
  }

  /** Where the text kept by `Trim` starts: after the leading white space. */
  function TrimOffset(s: string): (i: nat)
    ensures i <= |s| && AllWhiteSpace(s[..i])
    ensures i == |s| || !IsWhiteSpace(s[i])
  {
    |s| - |TrimStart(s)|
  }

  /** `s` with white space removed from both ends: the piece of `s` that starts
      at `TrimOffset(s)`, with only white space after it, and that neither
      starts nor ends with white space. */
  function Trim(s: string): (r: string)
    ensures TrimOffset(s) + |r| <= |s| && r == s[TrimOffset(s)..TrimOffset(s) + |r|]
    ensures AllWhiteSpace(s[TrimOffset(s) + |r|..])
    ensures r == [] || (!IsWhiteSpace(r[0]) && !IsWhiteSpace(r[|r| - 1]))
  {
    var t := TrimStart(s);
    var r := TrimEnd(t);
    assert s[TrimOffset(s) + |r|..] == t[|r|..];
    r
  }

  /** Trimming twice is trimming once. */
  lemma TrimIdempotent(s: string)
    ensures Trim(Trim(s)) == Trim(s)
  {
    var r := Trim(s);
    assert TrimStart(r) == r;
    assert TrimEnd(r) == r;
  }

  /** A string that contains no white space at all is left as it is. */
  lemma {:induction false} TrimLeavesCleanText(s: string)
    requires forall i :: 0 <= i < |s| ==> !IsWhiteSpace(s[i])
    ensures Trim(s) == s
  {
    assert s == [] || !IsWhiteSpace(s[0]);
    assert TrimStart(s) == s;
    assert s == [] || !IsWhiteSpace(s[|s| - 1]);
  }

  /** A string made only of white space trims to the empty string. */
  lemma {:induction false} TrimBlankIsEmpty(s: string)
    requires AllWhiteSpace(s)
    ensures Trim(s) == []
  {
  }
}
