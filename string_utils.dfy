/**
 * The text test Docket's default-filling relies on: Spring's
 * StringUtils.hasText, built on java.lang.Character.isWhitespace.
 */
module StringUtils {
  import opened Types

  /**
   * Character.isWhitespace: the Unicode space, line and paragraph separators
   * other than the non-breaking ones (U+00A0, U+2007, U+202F), and the
   * controls TAB, LF, VT, FF, CR and U+001C to U+001F.
   */
  predicate IsWhitespace(c: char) {
    || c == ' ' || c == '\t' || c == '\n' || c == '\U{000B}' || c == '\U{000C}' || c == '\r'
    || ('\U{001C}' <= c <= '\U{001F}')
    || c == '\U{1680}'
    || ('\U{2000}' <= c <= '\U{2006}')
    || ('\U{2008}' <= c <= '\U{200A}')
    || c == '\U{2028}' || c == '\U{2029}' || c == '\U{205F}' || c == '\U{3000}'
  }

  /** Scans s from the front for a character that is not whitespace. */
  function ContainsText(s: string): (r: bool)
    ensures r <==> exists i :: 0 <= i < |s| && !IsWhitespace(s[i])
  {
    if s == [] then false
    else if !IsWhitespace(s[0]) then true
    else
      var rest := ContainsText(s[1..]);
      assert forall i :: 0 < i < |s| ==> s[i] == s[1..][i - 1];
      rest
  }

  /** hasText: the string is not null and holds a non-whitespace character. */
  function HasText(s: Option<string>): (r: bool)
    ensures r <==> s.Some? && exists i :: 0 <= i < |s.value| && !IsWhitespace(s.value[i])
  {
    s.Some? && ContainsText(s.value)
  }

  /** Null, the empty string and all-blank strings have no text. */
  lemma NoTextCases(s: string)
    requires forall i :: 0 <= i < |s| ==> IsWhitespace(s[i])
    ensures !HasText(None) && !HasText(Some(s)) && !HasText(Some(""))
  {
  }
}
