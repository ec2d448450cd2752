/** Characters and strings as JavaScript's string and regular-expression
    built-ins see them: lower-casing, the `\s`, `.` and `\w` character
    classes, and substring occurrence. */
module Text {

  /** String.prototype.toLowerCase on one character. Only the ASCII letters
      are folded; every other character is kept as it is. */
  function LowerChar(c: char): char
  {
    if 'A' <= c <= 'Z' then (c as int + 32) as char else c
  }

  /** String.prototype.toLowerCase, character by character. */
  function Lower(s: string): string
  {
    seq(|s|, k requires 0 <= k < |s| => LowerChar(s[k]))
  }

  predicate IsLowerCase(s: string)
  {
    forall k :: 0 <= k < |s| ==> LowerChar(s[k]) == s[k]
  }

  /** A lower-case text is its own lower-casing. */
  lemma LowerOfLowerCase(s: string)
    requires IsLowerCase(s)
    ensures Lower(s) == s
  {
  }

  /** Lower-casing twice is lower-casing once. */
  lemma LowerIdempotent(s: string)
    ensures Lower(Lower(s)) == Lower(s)
  {
    assert forall k :: 0 <= k < |s| ==> LowerChar(LowerChar(s[k])) == LowerChar(s[k]);
  }

  /** The members of the regular-expression class `\s`: the ECMAScript
      white-space and line-terminator code points. */
  predicate IsSpace(c: char)
  {
    || c == ' ' || c == '\t' || c == '\n' || c == '\U{000B}' || c == '\U{000C}' || c == '\r'
    || c == '\U{00A0}' || c == '\U{1680}' || ('\U{2000}' <= c <= '\U{200A}')
    || c == '\U{2028}' || c == '\U{2029}' || c == '\U{202F}' || c == '\U{205F}'
    || c == '\U{3000}' || c == '\U{FEFF}'
  }

  /** The characters that `.` does not match (no `s` flag). */
  predicate IsLineTerminator(c: char)
  {
    c == '\n' || c == '\r' || c == '\U{2028}' || c == '\U{2029}'
  }

  /** The members of `\w`, which decide where `\b` lies. */
  predicate IsWordChar(c: char)
  {
    ('a' <= c <= 'z') || ('A' <= c <= 'Z') || ('0' <= c <= '9') || c == '_'
  }

  /** `t` occurs in `s` starting at index `i`. */
  predicate OccursAt(s: string, t: string, i: nat)
  {
    i + |t| <= |s| && s[i..i + |t|] == t
  }

  /** String.prototype.includes: `t` occurs somewhere in `s`. */
  predicate Contains(s: string, t: string)
  {
    exists i: nat | i <= |s| :: OccursAt(s, t, i)
  }

  /** A text with a character that `s` lacks does not occur in `s`. */
  lemma CharAbsent(s: string, t: string, k: nat)
    requires k < |t| && t[k] !in s
    ensures !Contains(s, t)
  {
    forall i: nat | i <= |s|
      ensures !OccursAt(s, t, i)
    {
      if i + |t| <= |s| {
        assert s[i..i + |t|][k] == s[i + k];
      }
    }
  }

  /** A text with two adjacent characters that are never adjacent in `s`
      does not occur in `s`. */
  lemma PairAbsent(s: string, t: string, k: nat)
    requires k + 1 < |t|
    requires forall i :: 0 <= i < |s| - 1 ==> !(s[i] == t[k] && s[i + 1] == t[k + 1])
    ensures !Contains(s, t)
  {
    forall i: nat | i <= |s|
      ensures !OccursAt(s, t, i)
    {
      if i + |t| <= |s| {
        assert s[i..i + |t|][k] == s[i + k];
        assert s[i..i + |t|][k + 1] == s[i + k + 1];
      }
    }
  }

  /** Evidence that a text does not occur in a string: a character of the
      text that the string lacks, or two adjacent characters of the text
      that are never adjacent in the string. */
  datatype Absence = MissingChar(at: nat) | MissingPair(at: nat)

  predicate Excludes(s: string, t: string, e: Absence)
  {
    match e
    case MissingChar(k) => k < |t| && t[k] !in s
    case MissingPair(k) =>
      k + 1 < |t| && forall i :: 0 <= i < |s| - 1 ==> !(s[i] == t[k] && s[i + 1] == t[k + 1])
  }

  lemma ExcludedAbsent(s: string, t: string, e: Absence)
    requires Excludes(s, t, e)
    ensures !Contains(s, t)
  {
    match e
    case MissingChar(k) => CharAbsent(s, t, k);
    case MissingPair(k) => PairAbsent(s, t, k);
  }
}
