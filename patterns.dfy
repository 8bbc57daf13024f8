/**
  The two regular expressions that the sponsor update form tests its fields
  against, written out as predicates on strings:

  - `/\S+@\S+\.\S+/` for the email address (no anchors, no flags), and
  - `/^\d{10}$/` for the phone number (anchored, no flags).

  `RegExp.prototype.test` with neither the `g` nor the `y` flag asks whether
  the pattern matches somewhere in the string.
 */
module Patterns {

  /** `\s` of ECMAScript: the WhiteSpace code points (TAB, VT, FF, ZWNBSP
      and every space separator of category Zs) and the LineTerminator code
      points (LF, CR, LS, PS). `\S` is its complement. */
  predicate IsWs(ch: char): (ws: bool)
    ensures ws ==> ch != '@' && ch != '.' && !('0' <= ch <= '9')
  {
    || ch == '\t' || ch == '\n' || ch == '\U{000B}' || ch == '\U{000C}' || ch == '\r'
    || ch == ' ' || ch == '\U{00A0}' || ch == '\U{1680}'
    || ('\U{2000}' <= ch <= '\U{200A}')
    || ch == '\U{2028}' || ch == '\U{2029}' || ch == '\U{202F}' || ch == '\U{205F}'
    || ch == '\U{3000}' || ch == '\U{FEFF}'
  }

  /** `\d` of ECMAScript without the `u` and `i` flags: the ASCII digits only. */
  predicate IsDigit(ch: char) {
    '0' <= ch <= '9'
  }

  /** Every character of `t` is matched by `\S`. */
  predicate AllNonWs(t: string) {
    forall k | 0 <= k < |t| :: !IsWs(t[k])
  }

  /** The whole of `t` is matched by `\S+@\S+\.\S+`, with the `@` of the
      pattern at index `b` and the `\.` at index `c`. */
  predicate EmailShapeAt(t: string, b: int, c: int) {
    && 0 < b && b + 1 < c && c + 1 < |t|
    && t[b] == '@' && t[c] == '.'
    && AllNonWs(t[..b]) && AllNonWs(t[b + 1..c]) && AllNonWs(t[c + 1..])
  }

  /** The whole of `t` is matched by `\S+@\S+\.\S+`. */
  predicate EmailShape(t: string) {
    exists b, c | 0 <= b < c < |t| :: EmailShapeAt(t, b, c)
  }

  /** `/\S+@\S+\.\S+/.test(s)`: some substring of `s` is matched by the
      pattern as a whole. */
  predicate EmailTest(s: string): (matched: bool)
    ensures matched ==> 5 <= |s|
  {
    exists i, j | 0 <= i <= j <= |s| :: EmailShape(s[i..j])
  }

  /** An `@` at `b` and a `.` at `c` of `s`, with a non-whitespace character
      just before the `@`, only non-whitespace (at least one character)
      between them, and a non-whitespace character just after the `.`. */
  predicate AtDotAt(s: string, b: int, c: int) {
    && 0 < b && b + 1 < c && c + 1 < |s|
    && s[b] == '@' && s[c] == '.'
    && !IsWs(s[b - 1])
    && (forall k | b < k < c :: !IsWs(s[k]))
    && !IsWs(s[c + 1])
  }

  /** The positional reading of the email pattern. */
  predicate EmailAtDot(s: string) {
    exists b, c | 0 <= b < c < |s| :: AtDotAt(s, b, c)
  }

  /** `/^\d{10}$/.test(s)`: without the `m` flag `^` and `$` match only at
      the two ends of the input, so `s` is ten ASCII digits and nothing else
      (not even a trailing line feed). */
  predicate PhoneTest(s: string): (matched: bool)
    ensures matched ==> s != "" && AllNonWs(s) && '@' !in s
  {
    |s| == 10 && forall k | 0 <= k < |s| :: IsDigit(s[k])
  }

  /** An unanchored match of `\S+@\S+\.\S+` exists exactly when some `@`
      and some later `.` have the positional shape: each `\S+` can be
      shrunk to the character next to its delimiter (one character at the
      ends, the whole gap in the middle). */
  lemma EmailTestIffAtDot(s: string)
    ensures EmailTest(s) <==> EmailAtDot(s)
  {
    if EmailTest(s) {
      var i, j :| 0 <= i <= j <= |s| && EmailShape(s[i..j]);
      var t := s[i..j];
      var b, c :| 0 <= b < c < |t| && EmailShapeAt(t, b, c);
      assert t[..b][b - 1] == t[b - 1];
      assert t[c + 1..][0] == t[c + 1];
      forall k | i + b < k < i + c
        ensures !IsWs(s[k])
      {
        assert t[k - i] == s[k];
        assert t[b + 1..c][k - i - b - 1] == t[k - i];
      }
      assert AtDotAt(s, i + b, i + c);
    }
    if EmailAtDot(s) {
      var b, c :| 0 <= b < c < |s| && AtDotAt(s, b, c);
      var t := s[b - 1..c + 2];
      assert t[..1] == [s[b - 1]];
      assert t[c - b + 2..] == [s[c + 1]];
      var mid := t[2..c - b + 1];
      forall k | 0 <= k < |mid|
        ensures !IsWs(mid[k])
      {
        assert mid[k] == t[2 + k];
        assert t[2 + k] == s[b + 1 + k];
      }
      assert EmailShapeAt(t, 1, c - b + 1);
      assert EmailShape(s[b - 1..c + 2]);
    }
  }

  /** A string with no `@`, or with no `.`, never passes the email test. */
  lemma EmailTestNeedsAtAndDot(s: string)
    requires EmailTest(s)
    ensures '@' in s && '.' in s
  {
    EmailTestIffAtDot(s);
    var b, c :| 0 <= b < c < |s| && AtDotAt(s, b, c);
    assert s[b] == '@' && s[c] == '.';
  }

  /** A positional witness is enough for the email test. */
  lemma EmailTestFromAtDot(s: string, b: int, c: int)
    requires 0 <= b < c < |s| && AtDotAt(s, b, c)
    ensures EmailTest(s)
  {
    EmailTestIffAtDot(s);
  }

  /** A typical address passes. */
  lemma EmailTypicalAccepted()
    ensures EmailTest("sponsor@example.com")
  {
    EmailTestFromAtDot("sponsor@example.com", 7, 15);
  }

  /** `@` and `.` are themselves matched by `\S`, so a dotted local part
      or a second `@` do not make an address fail. */
  lemma EmailLooseAccepted()
    ensures EmailTest("first.last@mail.org")
    ensures EmailTest("a@b@c.d")
  {
    EmailTestFromAtDot("first.last@mail.org", 10, 15);
    EmailTestFromAtDot("a@b@c.d", 1, 5);
  }

  /** The pattern is unanchored: surrounding whitespace and text still
      leave a match. */
  lemma EmailTestUnanchored()
    ensures EmailTest("  x@y.z  ")
    ensures EmailTest("to x@y.z now")
  {
    EmailTestFromAtDot("  x@y.z  ", 3, 5);
    EmailTestFromAtDot("to x@y.z now", 4, 6);
  }

  /** Strings that fail the email test: nothing before the `@`, nothing
      between the `@` and the `.`, nothing after the `.`. */
  lemma EmailEmptyPartRejected()
    ensures !EmailTest("@example.com")
    ensures !EmailTest("user@.com")
    ensures !EmailTest("user@example.")
  {
    EmailTestIffAtDot("@example.com");
    EmailTestIffAtDot("user@.com");
    EmailTestIffAtDot("user@example.");
  }

  /** Strings that fail the email test: whitespace right before the `@`;
      no `.` after the `@`. */
  lemma EmailSpaceOrNoDotRejected()
    ensures !EmailTest("user @example.com")
    ensures !EmailTest("user@example")
  {
    EmailTestIffAtDot("user @example.com");
    EmailTestIffAtDot("user@example");
  }

  /** Ten digits pass; eleven digits, nine digits, separators and a
      trailing line feed do not. */
  lemma PhoneExamples()
    ensures PhoneTest("0771234567")
    ensures !PhoneTest("07712345678")
    ensures !PhoneTest("077123456")
    ensures !PhoneTest("123-456-7890")
    ensures !PhoneTest("0771234567\n")
  {
  }
}
