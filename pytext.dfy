/**
 * Python's `str.strip()` called with no argument: it removes the leading
 * and trailing characters for which `str.isspace()` holds.
 */
module PyText {

  /** The characters Python's `str.isspace()` accepts. */
  predicate IsSpace(c: char) {
    || c == ' '
    || ('\t' <= c <= '\r')
    || ('\U{1C}' <= c <= '\U{1F}')
    || c == '\U{85}' || c == '\U{A0}' || c == '\U{1680}'
    || ('\U{2000}' <= c <= '\U{200A}')
    || c == '\U{2028}' || c == '\U{2029}' || c == '\U{202F}'
    || c == '\U{205F}' || c == '\U{3000}'
  }

  predicate AllSpace(s: string) {
    forall i :: 0 <= i < |s| ==> IsSpace(s[i])
  }

  /** True when `s` neither begins nor ends with whitespace. */
  predicate Trimmed(s: string) {
    s == [] || (!IsSpace(s[0]) && !IsSpace(s[|s| - 1]))
  }

  /** The length of the whitespace run at the start of `s` (what `lstrip` removes). */
  function LeadingSpaces(s: string): (n: nat)
    ensures n <= |s|
    ensures forall i :: 0 <= i < n ==> IsSpace(s[i])
    ensures n < |s| ==> !IsSpace(s[n])
  {
    if s == [] || !IsSpace(s[0]) then 0
    else
      var n := LeadingSpaces(s[1..]);
      assert forall i :: 1 <= i < n + 1 ==> s[i] == s[1..][i - 1];
      n + 1
  }

  /** Where the whitespace run at the end of `s` begins (what `rstrip` removes). */
  function TrailingStart(s: string): (m: nat)
    ensures m <= |s|
    ensures forall i :: m <= i < |s| ==> IsSpace(s[i])
    ensures m > 0 ==> !IsSpace(s[m - 1])
  {
    if s == [] || !IsSpace(s[|s| - 1]) then |s|
    else
      var m := TrailingStart(s[..|s| - 1]);
      assert forall i :: 0 <= i < |s| - 1 ==> s[i] == s[..|s| - 1][i];
      m
  }

  /**
   * `s.strip()`: what lies between the leading and the trailing whitespace.
   * The result neither begins nor ends with whitespace, it is empty exactly
   * when `s` is all whitespace, and otherwise everything before and after
   * it in `s` is whitespace.
   */
  function Strip(s: string): (r: string)
    ensures Trimmed(r)
    ensures r == [] <==> AllSpace(s)
    ensures r != [] ==>
      var n := LeadingSpaces(s); var m := TrailingStart(s);
      && n < m && r == s[n..m]
      && AllSpace(s[..n]) && AllSpace(s[m..])
  {
    var n := LeadingSpaces(s);
    var m := TrailingStart(s);
    assert m <= n ==> AllSpace(s);
    assert n < m ==> !IsSpace(s[n]);
    if n < m then
      assert AllSpace(s[..n]) by { assert forall i :: 0 <= i < n ==> s[..n][i] == s[i]; }
      assert AllSpace(s[m..]) by { assert forall i :: 0 <= i < |s| - m ==> s[m..][i] == s[m + i]; }
      s[n..m]
    else []
  }

  /** Stripping twice is stripping once. */
  lemma StripIdempotent(s: string)
    ensures Strip(Strip(s)) == Strip(s)
  {
    var r := Strip(s);
    if r != [] {
      assert LeadingSpaces(r) == 0;
      assert TrailingStart(r) == |r|;
    }
  }
}
