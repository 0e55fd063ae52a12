/** The part of JavaScript string semantics the front-end relies on:
    `String.prototype.trim` and the truthiness of the string it returns.
    Characters are Unicode scalar values rather than UTF-16 code units. */
module JsText {

  /** ECMAScript WhiteSpace and LineTerminator code points, the set `trim`
      removes. */
  predicate IsWhiteSpace(c: char) {
    || c == '\t' || c == '\n' || c == '\U{000B}' || c == '\U{000C}' || c == '\r'
    || c == ' ' || c == '\U{00A0}' || c == '\U{1680}'
    || ('\U{2000}' <= c <= '\U{200A}')
    || c == '\U{2028}' || c == '\U{2029}' || c == '\U{202F}' || c == '\U{205F}'
    || c == '\U{3000}' || c == '\U{FEFF}'
  }

  /** Every character of `s` is white space (the empty string included). */
  predicate IsBlank(s: string) {
    forall i :: 0 <= i < |s| ==> IsWhiteSpace(s[i])
  }

  /** The scan `trim` makes from the front, starting at `lo`: the first index
      at or after `lo` that holds no white space, or `|s|` when there is
      none. Everything skipped is white space. */
  function ContentStart(s: string, lo: nat): (i: nat)
    requires lo <= |s|
    ensures lo <= i <= |s|
    ensures forall k :: lo <= k < i ==> IsWhiteSpace(s[k])
    ensures i < |s| ==> !IsWhiteSpace(s[i])
    decreases |s| - lo
  {
    if lo < |s| && IsWhiteSpace(s[lo]) then ContentStart(s, lo + 1) else lo
  }

  /** The scan `trim` makes from the back, from `hi` down to `lo`: the index
      just past the last character of `s[lo..hi]` that is not white space, or
      `lo` when there is none. Everything skipped is white space. */
  function ContentEnd(s: string, lo: nat, hi: nat): (j: nat)
    requires lo <= hi <= |s|
    ensures lo <= j <= hi
    ensures forall k :: j <= k < hi ==> IsWhiteSpace(s[k])
    ensures j > lo ==> !IsWhiteSpace(s[j - 1])
    decreases hi
  {
    if hi > lo && IsWhiteSpace(s[hi - 1]) then ContentEnd(s, lo, hi - 1) else hi
  }

  /** `s.trim()`: no longer than `s`, and neither starting nor ending with
      white space. */
  function Trim(s: string): (r: string)
    ensures |r| <= |s|
    ensures r == [] || (!IsWhiteSpace(r[0]) && !IsWhiteSpace(r[|r| - 1]))
  {
    var i := ContentStart(s, 0);
    var j := ContentEnd(s, i, |s|);
    s[i..j]
  }

  /** Truthiness of `s.trim()`: some character is not white space, which by
      `TrimEmptyIffBlank` is exactly when the trimmed string is non-empty. */
  predicate HasContent(s: string) {
    !IsBlank(s)
  }

  /** `s.trim()` is empty exactly when `s` is blank, so `HasContent` is the
      truthiness of `s.trim()`. */
  lemma TrimEmptyIffBlank(s: string)
    ensures Trim(s) == "" <==> IsBlank(s)
    ensures HasContent(s) <==> Trim(s) != ""
  {
  }

  /** Trimming removes white space and nothing else: the result is the slice
      of `s` that starts where the leading white space ends, and everything
      outside that slice is white space. */
  lemma TrimIsInfix(s: string)
    ensures var i := ContentStart(s, 0);
      && i + |Trim(s)| <= |s| && Trim(s) == s[i..i + |Trim(s)|]
      && (forall k :: 0 <= k < i ==> IsWhiteSpace(s[k]))
      && (forall k :: i + |Trim(s)| <= k < |s| ==> IsWhiteSpace(s[k]))
  {
  }
}
