/**
 * The CPU-throttling test applied to the output of a failed ATLAS configure run:
 * a case-insensitive search for the regular expression
 *
 *     cpu throttling [a-zA-Z]* enabled
 *
 * The model has no regular-expression engine. `Occurs` states what a match is
 * (the literal "cpu throttling ", a run of ASCII letters, the literal " enabled",
 * each literal character compared after ASCII lower-casing), and `Reported`
 * is the executable search, proved to agree with it.
 */
module Throttling {

  /** The literal before the letter run, and the literal after it. */
  const Lead: string := "cpu throttling "
  const Tail: string := " enabled"

  /** ASCII lower-casing, the case folding of a byte-string IGNORECASE pattern. */
  function Lower(c: char): char {
    if 'A' <= c <= 'Z' then (c as int + 32) as char else c
  }

  /** The character class [a-zA-Z] (unchanged by IGNORECASE). */
  predicate IsLetter(c: char) {
    'a' <= c <= 'z' || 'A' <= c <= 'Z'
  }

  /**
   * Two characters fold to the same character exactly when they are equal or
   * are the upper- and lower-case forms of one ASCII letter.
   */
  lemma LowerIgnoresCase(c: char, d: char)
    ensures Lower(c) == Lower(d) <==>
      c == d || (IsLetter(c) && IsLetter(d) && (c as int - d as int == 32 || d as int - c as int == 32))
  {
  }

  /** The lower-case literal p occurs in s at position i, ignoring ASCII case. */
  predicate LiteralAt(s: string, i: nat, p: string) {
    i + |p| <= |s| && forall k :: 0 <= k < |p| ==> Lower(s[i + k]) == p[k]
  }

  /** s[i..j] is "cpu throttling " followed by letters, and " enabled" starts at j. */
  ghost predicate MatchesAt(s: string, i: nat, j: nat) {
    && i + |Lead| <= j
    && LiteralAt(s, i, Lead)
    && LiteralAt(s, j, Tail)
    && (forall k :: i + |Lead| <= k < j ==> IsLetter(s[k]))
  }

  /** The pattern occurs somewhere in s: what a successful `search` means. */
  ghost predicate Occurs(s: string) {
    exists i: nat, j: nat :: MatchesAt(s, i, j)
  }

  /** The end of the maximal run of letters that starts at k. */
  function LetterRunEnd(s: string, k: nat): (e: nat)
    requires k <= |s|
    ensures k <= e <= |s|
    ensures forall m :: k <= m < e ==> IsLetter(s[m])
    ensures e < |s| ==> !IsLetter(s[e])
    decreases |s| - k
  {
    if k < |s| && IsLetter(s[k]) then LetterRunEnd(s, k + 1) else k
  }

  /** A match starts at i: the letter run is taken greedily. */
  predicate MatchStartsAt(s: string, i: nat) {
    LiteralAt(s, i, Lead) && LiteralAt(s, LetterRunEnd(s, i + |Lead|), Tail)
  }

  /** Some match starts at or after position i. */
  function SearchFrom(s: string, i: nat): bool
    requires i <= |s|
    decreases |s| - i
  {
    if i == |s| then false else MatchStartsAt(s, i) || SearchFrom(s, i + 1)
  }

  /** The throttling test on configure output. */
  function Reported(out: string): (b: bool)
    ensures b <==> Occurs(out)
  {
    SearchFromCorrect(out, 0);
    assert OccursFrom(out, 0) <==> Occurs(out);
    SearchFrom(out, 0)
  }

  /**
   * Taking the letter run greedily loses no match: because the character after
   * the run must be the space of " enabled", a match starting at i can only
   * end its run where the maximal run ends.
   */
  lemma MatchStartsAtCorrect(s: string, i: nat)
    ensures MatchStartsAt(s, i) <==> exists j: nat :: MatchesAt(s, i, j)
  {
    if MatchStartsAt(s, i) {
      assert MatchesAt(s, i, LetterRunEnd(s, i + |Lead|));
    }
    if j: nat :| MatchesAt(s, i, j) {
      var e := LetterRunEnd(s, i + |Lead|);
      assert Tail[0] == ' ' && Lower(s[j + 0]) == Tail[0];
      assert !IsLetter(s[j]);
      assert e == j;
    }
  }

  /** A match starts at or after position i. */
  ghost predicate OccursFrom(s: string, i: nat) {
    exists i': nat, j: nat :: i <= i' && MatchesAt(s, i', j)
  }

  lemma {:induction false} SearchFromCorrect(s: string, i: nat)
    requires i <= |s|
    ensures SearchFrom(s, i) <==> OccursFrom(s, i)
    decreases |s| - i
  {
    if i < |s| {
      SearchFromCorrect(s, i + 1);
      MatchStartsAtCorrect(s, i);
      if MatchStartsAt(s, i) {
        var j: nat :| MatchesAt(s, i, j);
        assert i <= i && MatchesAt(s, i, j);
      }
      if OccursFrom(s, i + 1) {
        var i': nat, j: nat :| i + 1 <= i' && MatchesAt(s, i', j);
        assert i <= i' && MatchesAt(s, i', j);
      }
      if OccursFrom(s, i) {
        var i': nat, j: nat :| i <= i' && MatchesAt(s, i', j);
        if i' == i {
          assert MatchStartsAt(s, i);
        } else {
          assert OccursFrom(s, i + 1);
        }
      }
    }
  }

  /** Any text in which the pattern occurs is at least 23 characters long. */
  lemma OccursNeedsLength(s: string)
    requires Occurs(s)
    ensures |s| >= |Lead| + |Tail|
  {
    var i: nat, j: nat :| MatchesAt(s, i, j);
  }

  /** A word between the literals, in any case, is recognised. */
  lemma WasEnabledIsReported()
    ensures Reported("CPU Throttling was enabled")
  {
    var s := "CPU Throttling was enabled";
    assert LiteralAt(s, 0, Lead);
    assert LiteralAt(s, 18, Tail);
    assert MatchesAt(s, 0, 18);
  }

  /**
   * "cpu throttling enabled" with a single space is not a match: the pattern
   * needs a space on both sides of the (possibly empty) letter run.
   */
  lemma SingleSpaceIsNotReported()
    ensures !Reported("cpu throttling enabled")
  {
    if Occurs("cpu throttling enabled") {
      OccursNeedsLength("cpu throttling enabled");
    }
  }
}
