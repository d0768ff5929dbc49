/**
 * The few `java.lang.String` and Spring `StringUtils` operations the core relies on:
 * substring search, prefix test, Java's trim-then-isEmpty test and Spring's hasText test.
 */
module Strings {

  /** `s.startsWith(prefix)` */
  predicate StartsWith(s: string, prefix: string) {
    |prefix| <= |s| && s[..|prefix|] == prefix
  }

  /** `s.contains(sub)`: `sub` occurs in `s` at some offset (case-sensitive). */
  predicate Contains(s: string, sub: string) {
    exists i | 0 <= i <= |s| :: StartsWith(s[i..], sub)
  }

  /** A witness offset proves containment. */
  lemma ContainsAt(s: string, sub: string, i: nat)
    requires i + |sub| <= |s| && s[i..i + |sub|] == sub
    ensures Contains(s, sub)
  {
    assert StartsWith(s[i..], sub);
  }

  /** A non-empty `sub` whose first character never occurs in `s` is not contained in `s`. */
  lemma NotContainsFirstChar(s: string, sub: string)
    requires |sub| > 0 && sub[0] !in s
    ensures !Contains(s, sub)
  {
  }

  /** A character that `String.trim()` strips: any code point up to U+0020. */
  predicate IsTrimmed(c: char) {
    c <= ' '
  }

  /** `s.trim().isEmpty()`: every character is stripped by `trim()`. */
  predicate IsBlankAfterTrim(s: string) {
    forall i | 0 <= i < |s| :: IsTrimmed(s[i])
  }

  /** `Character.isWhitespace(c)` for the characters of the Basic Multilingual Plane. */
  predicate IsJavaWhitespace(c: char) {
    ('\U{9}' <= c <= '\U{D}') || ('\U{1C}' <= c <= '\U{20}') ||
    c == '\U{1680}' || ('\U{2000}' <= c <= '\U{2006}') || ('\U{2008}' <= c <= '\U{200A}') ||
    c == '\U{2028}' || c == '\U{2029}' || c == '\U{205F}' || c == '\U{3000}'
  }

  /** Spring's `StringUtils.hasText(s)` for a non-null `s`: some character is not whitespace. */
  predicate HasText(s: string) {
    exists i | 0 <= i < |s| :: !IsJavaWhitespace(s[i])
  }
}
