/** `String.prototype.trim`, as used by the board to refuse a blank title. */
module Titles {

  /** The characters `trim` removes: the ECMAScript WhiteSpace and
      LineTerminator code points (tab, line tabulation, form feed, no-break
      space, byte order mark, the space separators, and LF, CR, LS, PS).
      All of them lie in the Basic Multilingual Plane, so each is a single
      UTF-16 code unit. */
  predicate IsWhiteSpace(c: char): (b: bool)
    ensures b ==> c <= '\U{FEFF}'
    ensures c == ' ' || c == '\t' || c == '\n' || c == '\r' ==> b
  {
    || c == '\t' || c == '\n' || c == '\U{000B}' || c == '\U{000C}' || c == '\r'
    || c == ' ' || c == '\U{00A0}' || c == '\U{1680}'
    || ('\U{2000}' <= c <= '\U{200A}')
    || c == '\U{2028}' || c == '\U{2029}' || c == '\U{202F}' || c == '\U{205F}'
    || c == '\U{3000}' || c == '\U{FEFF}'
  }

  /** `s` is empty or consists of white space alone. */
  predicate AllWhiteSpace(s: string) {
    forall i :: 0 <= i < |s| ==> IsWhiteSpace(s[i])
  }

  /** The index of the first character of `s` that is not white space, or
      `|s|` when there is none. */
  function TextStart(s: string): (lo: nat)
    ensures lo <= |s|
    ensures forall i :: 0 <= i < lo ==> IsWhiteSpace(s[i])
    ensures lo < |s| ==> !IsWhiteSpace(s[lo])
  {
    if s == [] || !IsWhiteSpace(s[0]) then 0 else 1 + TextStart(s[1..])
  }

  /** One past the index of the last character of `s` that is not white
      space, or 0 when there is none. */
  function TextEnd(s: string): (hi: nat)
    ensures hi <= |s|
    ensures forall i :: hi <= i < |s| ==> IsWhiteSpace(s[i])
    ensures hi > 0 ==> !IsWhiteSpace(s[hi - 1])
  {
    if s == [] || !IsWhiteSpace(s[|s| - 1]) then |s| else TextEnd(s[..|s| - 1])
  }

  /** `r` is the piece of `s` that starts at `lo`, and only white space
      lies outside it. */
  ghost predicate CutAt(s: string, r: string, lo: int) {
    && 0 <= lo <= |s| - |r| && r == s[lo..lo + |r|]
    && (forall i :: 0 <= i < lo ==> IsWhiteSpace(s[i]))
    && (forall i :: lo + |r| <= i < |s| ==> IsWhiteSpace(s[i]))
  }

  /** `s.trim()`: a contiguous piece of `s` with no white space at either
      end and only white space around it. */
  function Trim(s: string): (r: string)
    ensures exists lo :: CutAt(s, r, lo)
    ensures r != [] ==> !IsWhiteSpace(r[0]) && !IsWhiteSpace(r[|r| - 1])
  {
    var lo, hi := TextStart(s), TextEnd(s);
    if hi <= lo then
      assert CutAt(s, [], lo);
      []
    else
      assert CutAt(s, s[lo..hi], lo);
      s[lo..hi]
  }

  /** A title is refused as blank exactly when it is empty or consists of
      white space alone. */
  lemma BlankIffAllWhiteSpace(s: string)
    ensures Trim(s) == [] <==> AllWhiteSpace(s)
  {
    var r := Trim(s);
    var lo :| CutAt(s, r, lo);
    if r != [] {
      assert s[lo] == r[0];
    }
  }
}
