/** The fragment of JavaScript regular expressions that the label rules use,
    with the meaning `RegExp.prototype.test` gives them: a pattern is found in
    a string when it matches some span of it. Backtracking explores every way
    of matching, so a relation between a pattern and the spans it matches
    describes `test` exactly. */
module Patterns {
  import opened Text

  datatype Pattern =
    | Lit(text: string)                 // the characters of `text`, in order
    | Spaces                            // \s*
    | AnyRun                            // .*
    | Then(first: Pattern, rest: Pattern)
    | Either(left: Pattern, right: Pattern)
    | Optional(body: Pattern)           // (body)?
    | NotFollowedBy(body: Pattern)      // (?!body)
    | WordBoundary                      // \b

  /** `a\s*b`, the shape most of the rules use. */
  function Words(a: string, b: string): Pattern
  {
    Then(Lit(a), Then(Spaces, Lit(b)))
  }

  /** `a\s*b\s*c`. */
  function Words3(a: string, b: string, c: string): Pattern
  {
    Then(Lit(a), Then(Spaces, Then(Lit(b), Then(Spaces, Lit(c)))))
  }

  /** Index `i` of `s` lies between a word character and a non-word
      character (the ends of the string count as non-word). */
  predicate WordBoundaryAt(s: string, i: nat)
    requires i <= |s|
  {
    (i > 0 && IsWordChar(s[i - 1])) != (i < |s| && IsWordChar(s[i]))
  }

  /** `p` matches `s[i..j]`, looking ahead into the rest of `s` where a
      lookahead asks to. */
  predicate MatchesSpan(p: Pattern, s: string, i: nat, j: nat)
    requires i <= j <= |s|
    decreases p
  {
    match p
    case Lit(t) => s[i..j] == t
    case Spaces => forall k :: i <= k < j ==> IsSpace(s[k])
    case AnyRun => forall k :: i <= k < j ==> !IsLineTerminator(s[k])
    case Then(a, b) => exists m | i <= m <= j :: MatchesSpan(a, s, i, m) && MatchesSpan(b, s, m, j)
    case Either(a, b) => MatchesSpan(a, s, i, j) || MatchesSpan(b, s, i, j)
    case Optional(a) => i == j || MatchesSpan(a, s, i, j)
    case NotFollowedBy(a) => i == j && forall k | i <= k <= |s| :: !MatchesSpan(a, s, i, k)
    case WordBoundary => i == j && WordBoundaryAt(s, i)
  }

  /** `/p/.test(s)`. */
  predicate Found(p: Pattern, s: string)
  {
    exists i, j | 0 <= i <= j <= |s| :: MatchesSpan(p, s, i, j)
  }

  /** `/(a0|a1|...)/.test(s)` for a top-level alternation. */
  predicate FoundAny(alternatives: seq<Pattern>, s: string)
  {
    exists k | 0 <= k < |alternatives| :: Found(alternatives[k], s)
  }

  /** The literal texts that every match of `p` must contain. */
  function Required(p: Pattern): seq<string>
  {
    match p
    case Lit(t) => [t]
    case Then(a, b) => Required(a) + Required(b)
    case _ => []
  }

  lemma {:induction false} MatchContainsRequired(p: Pattern, s: string, i: nat, j: nat)
    requires i <= j <= |s| && MatchesSpan(p, s, i, j)
    ensures forall t :: t in Required(p) ==> Contains(s, t)
    decreases p
  {
    match p
    case Lit(t) =>
      assert OccursAt(s, t, i);
    case Then(a, b) =>
      var m :| i <= m <= j && MatchesSpan(a, s, i, m) && MatchesSpan(b, s, m, j);
      MatchContainsRequired(a, s, i, m);
      MatchContainsRequired(b, s, m, j);
    case _ =>
  }

  /** A pattern is not found where one of its required texts is absent. */
  lemma RequiredAbsent(p: Pattern, s: string, t: string)
    requires t in Required(p) && !Contains(s, t)
    ensures !Found(p, s)
  {
    forall i, j | 0 <= i <= j <= |s|
      ensures !MatchesSpan(p, s, i, j)
    {
      if MatchesSpan(p, s, i, j) {
        MatchContainsRequired(p, s, i, j);
      }
    }
  }

  /** None of the alternatives is found when each of them needs a text
      (`keys[k]`, with the evidence `absences[k]`) that the string lacks. */
  lemma NoneFound(alternatives: seq<Pattern>, keys: seq<string>, absences: seq<Absence>, s: string)
    requires |keys| == |alternatives| == |absences|
    requires forall k :: 0 <= k < |keys| ==> keys[k] in Required(alternatives[k])
    requires forall k :: 0 <= k < |keys| ==> Excludes(s, keys[k], absences[k])
    ensures !FoundAny(alternatives, s)
  {
    forall k | 0 <= k < |alternatives|
      ensures !Found(alternatives[k], s)
    {
      ExcludedAbsent(s, keys[k], absences[k]);
      RequiredAbsent(alternatives[k], s, keys[k]);
    }
  }

  /** A literal pattern is found exactly where its text occurs. */
  lemma LitFound(t: string, s: string)
    ensures Found(Lit(t), s) <==> Contains(s, t)
  {
    if Found(Lit(t), s) {
      var i, j :| 0 <= i <= j <= |s| && MatchesSpan(Lit(t), s, i, j);
      assert OccursAt(s, t, i);
    }
    if Contains(s, t) {
      var i: nat :| i <= |s| && OccursAt(s, t, i);
      assert MatchesSpan(Lit(t), s, i, i + |t|);
    }
  }
}
