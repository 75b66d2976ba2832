/** Classification of a login identifier as an email address or a username. */
module Identifier {
  import opened Wire

  /** The characters that `.` in a JavaScript regular expression without flags does not match. */
  predicate IsLineTerminator(c: char) {
    c == '\n' || c == '\r' || c == '\U{2028}' || c == '\U{2029}'
  }

  /** No character of s[lo..hi] is a line terminator. */
  predicate NoLineTerminator(s: string, lo: int, hi: int)
    requires 0 <= lo <= hi <= |s|
  {
    forall k :: lo <= k < hi ==> !IsLineTerminator(s[k])
  }

  /**
   * The regular expression `.+@.+\..+` matches the span s[i..j], with its `@`
   * at index p and its `.` at index q: each `.+` covers at least one character
   * and no character of the span is a line terminator.
   */
  ghost predicate PatternSpan(s: string, i: int, p: int, q: int, j: int) {
    0 <= i < p && p + 1 < q && q + 1 < j <= |s| &&
    s[p] == '@' && s[q] == '.' &&
    forall k :: i <= k < j ==> !IsLineTerminator(s[k])
  }

  /**
   * The `@` of a match of `.+@.+\..+` is at p and its `.` at q: each has a
   * non-terminator beside it on the outside, and the run between them is
   * non-empty and free of line terminators.
   */
  predicate EmailShapeAt(s: string, p: int, q: int) {
    0 < p && p + 1 < q && q + 1 < |s| &&
    s[p] == '@' && s[q] == '.' &&
    !IsLineTerminator(s[p - 1]) && !IsLineTerminator(s[q + 1]) &&
    NoLineTerminator(s, p + 1, q)
  }

  /**
   * The unanchored search for `.+@.+\..+` in s succeeds. The first and last
   * `.+` can always be shortened to the one character beside the `@` and
   * the `.`, so a match is determined by where its `@` and `.` are.
   */
  predicate MatchesEmailPattern(s: string)
    ensures MatchesEmailPattern(s) ==> '@' in s && '.' in s && |s| >= 5
  {
    exists p, q :: 0 < p < |s| && 0 < q < |s| && EmailShapeAt(s, p, q)
  }

  /** MatchesEmailPattern is exactly "some span of s matches the regular expression". */
  lemma MatchesEmailPatternIsSearch(s: string)
    ensures MatchesEmailPattern(s) <==> exists i, p, q, j :: PatternSpan(s, i, p, q, j)
  {
    if MatchesEmailPattern(s) {
      var p: int, q: int :| 0 < p < |s| && 0 < q < |s| && EmailShapeAt(s, p, q);
      assert PatternSpan(s, p - 1, p, q, q + 2);
    }
    if exists i, p, q, j :: PatternSpan(s, i, p, q, j) {
      var i: int, p: int, q: int, j: int :| PatternSpan(s, i, p, q, j);
      assert EmailShapeAt(s, p, q);
    }
  }

  /** The identifier type chosen, and whether the identifier is flagged as a malformed email. */
  datatype Classification = Classification(kind: IdentifierType, invalidEmail: bool)

  /**
   * A match of the email pattern is an email; otherwise the identifier is a
   * username, flagged as an invalid email when it contains `@`.
   */
  function Classify(identifier: string): (c: Classification)
    ensures c.kind == Email <==> MatchesEmailPattern(identifier)
    ensures c.kind != Id
    ensures c.invalidEmail <==> '@' in identifier && !MatchesEmailPattern(identifier)
  {
    if MatchesEmailPattern(identifier) then Classification(Email, false)
    else if '@' in identifier then Classification(Username, true)
    else Classification(Username, false)
  }

  /** Only identifiers containing `@` are classified as emails. */
  lemma EmailContainsAt(identifier: string)
    ensures Classify(identifier).kind == Email ==> '@' in identifier
  {
  }

  /** A string without a `.` never matches the email pattern. */
  lemma NoDotNoMatch(s: string)
    requires '.' !in s
    ensures !MatchesEmailPattern(s)
  {
  }

  /** Sample classifications of a well-formed email, a plain username and an email without a domain dot. */
  lemma ClassifyExamples()
    ensures Classify("a@b.co") == Classification(Email, false)
    ensures Classify("bob") == Classification(Username, false)
    ensures Classify("bob@nodomain") == Classification(Username, true)
  {
    var email := "a@b.co";
    assert EmailShapeAt(email, 1, 3);
    NoDotNoMatch("bob");
    NoDotNoMatch("bob@nodomain");
    assert "bob@nodomain"[3] == '@';
  }
}
