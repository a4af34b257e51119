/**
 * An abstract URL. Parsing and serialisation belong to the platform's URL
 * types and are not modelled: a URL is its scheme (absent for a relative
 * reference) and everything after the scheme's ":", kept as an opaque string.
 */
module Urls {
  import opened Wrappers

  datatype URL = URL(scheme: Option<string>, rest: string)

  predicate IsAsciiLetter(c: char) {
    'a' <= c <= 'z' || 'A' <= c <= 'Z'
  }

  predicate IsSchemeChar(c: char) {
    IsAsciiLetter(c) || '0' <= c <= '9' || c == '+' || c == '-' || c == '.'
  }

  /**
   * The scheme grammar of section 3.1 of RFC 3986:
   * a letter followed by letters, digits, "+", "-" or ".".
   */
  predicate ValidScheme(s: string) {
    && |s| > 0
    && IsAsciiLetter(s[0])
    && forall i :: 1 <= i < |s| ==> IsSchemeChar(s[i])
  }

  /**
   * Decomposing a URL into components, assigning the components' scheme and
   * recomposing. Assigning a string that is not a scheme traps, which is
   * what the precondition stands for.
   */
  function ReplacingScheme(u: URL, s: string): (r: URL)
    requires ValidScheme(s)
    ensures r.scheme == Some(s)
    ensures r.rest == u.rest
  {
    URL(Some(s), u.rest)
  }

  /** Replacing the scheme twice is the same as replacing it once with the second scheme. */
  lemma ReplacingSchemeLastWins(u: URL, s1: string, s2: string)
    requires ValidScheme(s1) && ValidScheme(s2)
    ensures ReplacingScheme(ReplacingScheme(u, s1), s2) == ReplacingScheme(u, s2)
  {
  }

  /** A URL that already carries scheme `s` is a fixed point of replacing the scheme with `s`. */
  lemma ReplacingSchemeFixedPoint(u: URL, s: string)
    requires ValidScheme(s)
    ensures ReplacingScheme(u, s) == u <==> u.scheme == Some(s)
  {
  }

  /** Both schemes the builder offers satisfy the scheme grammar. */
  lemma BuiltInSchemesValid()
    ensures ValidScheme("http")
    ensures ValidScheme("https")
  {
  }
}
