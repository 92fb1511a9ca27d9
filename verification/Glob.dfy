/**
 The glob a `/list` mask uses: `*` for any run of bytes and `?` for any one byte. The matcher is
 one greedy loop that remembers only the last star it opened. It is compared with the usual
 recursive meaning of a glob.
 */
module Glob {
  import opened Wrappers

  type Byte = b: nat | b < 256

  const STAR: Byte := 42
  const QUESTION: Byte := 63

  /** The meaning of a glob: the pattern from `i` on matches the text from `j` on. */
  predicate MatchesAt(p: seq<Byte>, t: seq<Byte>, i: nat, j: nat)
    requires i <= |p| && j <= |t|
    decreases |p| - i + |t| - j
  {
    if i == |p| then j == |t|
    else if p[i] == STAR then
      MatchesAt(p, t, i + 1, j) || (j < |t| && MatchesAt(p, t, i, j + 1))
    else
      j < |t| && (p[i] == QUESTION || p[i] == t[j]) && MatchesAt(p, t, i + 1, j + 1)
  }

  predicate Matches(p: seq<Byte>, t: seq<Byte>) {
    MatchesAt(p, t, 0, 0)
  }

  predicate OnlyStars(p: seq<Byte>) {
    forall i :: 0 <= i < |p| ==> p[i] == STAR
  }

  predicate StarKnown(p: seq<Byte>, t: seq<Byte>, i: nat, j: nat, star: Option<nat>, mark: nat) {
    && i <= |p| && mark <= j <= |t|
    && (star.Some? ==> star.value < i && p[star.value] == STAR)
  }

  /** Where the star stands for the termination measure: a later star is progress. */
  function StarsLeft(p: seq<Byte>, star: Option<nat>): int {
    if star.Some? then |p| - 1 - star.value else |p|
  }

  /** The answer of the loop from a given state of its four variables. A byte that equals the
      pattern byte is taken before a star is considered, even when both are `*`. */
  function Scan(p: seq<Byte>, t: seq<Byte>, i: nat, j: nat, star: Option<nat>, mark: nat): bool
    requires StarKnown(p, t, i, j, star, mark)
    decreases StarsLeft(p, star), |t| - mark, |t| - j
  {
    if j == |t| then OnlyStars(p[i..])
    else if i < |p| && (p[i] == QUESTION || p[i] == t[j]) then Scan(p, t, i + 1, j + 1, star, mark)
    else if i < |p| && p[i] == STAR then Scan(p, t, i + 1, j, Some(i), j)
    else if star.Some? then Scan(p, t, star.value + 1, mark + 1, star, mark + 1)
    else false
  }

  function Answer(p: seq<Byte>, t: seq<Byte>): bool {
    Scan(p, t, 0, 0, None, 0)
  }

  /** The matcher. It always ends; a yes is always right, and on a text without `*` so is a no. */
  method WildcardMatches(pattern: seq<Byte>, text: seq<Byte>) returns (matched: bool)
    ensures matched == Answer(pattern, text)
    ensures matched ==> Matches(pattern, text)
    ensures STAR !in text ==> matched == Matches(pattern, text)
  {
    if Answer(pattern, text) {
      ScanIsSound(pattern, text, 0, 0, None, 0);
    }
    if STAR !in text {
      ScanIsComplete(pattern, text, 0, 0, None, 0);
    }
    var i: nat, j: nat := 0, 0;
    var star: Option<nat>, mark: nat := None, 0;
    while j < |text|
      invariant StarKnown(pattern, text, i, j, star, mark)
      invariant Scan(pattern, text, i, j, star, mark) == Answer(pattern, text)
      decreases StarsLeft(pattern, star), |text| - mark, |text| - j
    {
      if i < |pattern| && (pattern[i] == QUESTION || pattern[i] == text[j]) {
        i := i + 1;
        j := j + 1;
      } else if i < |pattern| && pattern[i] == STAR {
        star := Some(i);
        mark := j;
        i := i + 1;
      } else if star.Some? {
        i := star.value + 1;
        mark := mark + 1;
        j := mark;
      } else {
        return false;
      }
    }
    while i < |pattern| && pattern[i] == STAR
      invariant i <= |pattern|
      invariant OnlyStars(pattern[i..]) == Answer(pattern, text)
    {
      assert pattern[i..] == [pattern[i]] + pattern[i + 1..];
      i := i + 1;
    }
    assert i < |pattern| ==> pattern[i..][0] != STAR;
    matched := i == |pattern|;
  }

  // ----- soundness: every text -----

  lemma {:induction false} OnlyStarsMatchNothing(p: seq<Byte>, t: seq<Byte>, i: nat)
    requires i <= |p|
    ensures MatchesAt(p, t, i, |t|) <==> OnlyStars(p[i..])
    decreases |p| - i
  {
    if i < |p| {
      OnlyStarsMatchNothing(p, t, i + 1);
      assert p[i..] == [p[i]] + p[i + 1..];
    }
  }

  /** A yes is right: the rest of the pattern matches here, or the open star absorbs more. */
  lemma {:induction false} ScanIsSound(p: seq<Byte>, t: seq<Byte>, i: nat, j: nat, star: Option<nat>, mark: nat)
    requires StarKnown(p, t, i, j, star, mark)
    requires Scan(p, t, i, j, star, mark)
    ensures MatchesAt(p, t, i, j) || (star.Some? && MatchesAt(p, t, star.value, mark))
    decreases StarsLeft(p, star), |t| - mark, |t| - j
  {
    if j == |t| {
      OnlyStarsMatchNothing(p, t, i);
    } else if i < |p| && (p[i] == QUESTION || p[i] == t[j]) {
      ScanIsSound(p, t, i + 1, j + 1, star, mark);
      if p[i] == STAR && MatchesAt(p, t, i + 1, j + 1) {
        assert MatchesAt(p, t, i, j + 1);
      }
    } else if i < |p| && p[i] == STAR {
      ScanIsSound(p, t, i + 1, j, Some(i), j);
    } else {
      ScanIsSound(p, t, star.value + 1, mark + 1, star, mark + 1);
      if MatchesAt(p, t, star.value + 1, mark + 1) {
        assert MatchesAt(p, t, star.value, mark + 1);
      }
    }
  }

  // ----- completeness: texts without a star -----

  /** Pattern bytes that are not stars use up exactly one text byte each. */
  lemma {:induction false} PlainRunConsumes(p: seq<Byte>, t: seq<Byte>, i: nat, n: nat, j: nat)
    requires i + n <= |p| && j <= |t| && MatchesAt(p, t, i, j)
    requires forall k :: i <= k < i + n ==> p[k] != STAR
    ensures j + n <= |t| && MatchesAt(p, t, i + n, j + n)
    decreases n
  {
    if n > 0 {
      PlainRunConsumes(p, t, i + 1, n - 1, j + 1);
    }
  }

  /** A star that matches somewhere hands over at some later point. */
  lemma {:induction false} StarHandsOver(p: seq<Byte>, t: seq<Byte>, s: nat, j: nat) returns (k: nat)
    requires s < |p| && p[s] == STAR && j <= |t| && MatchesAt(p, t, s, j)
    ensures j <= k <= |t| && MatchesAt(p, t, s + 1, k)
    decreases |t| - j
  {
    if MatchesAt(p, t, s + 1, j) {
      k := j;
    } else {
      k := StarHandsOver(p, t, s, j + 1);
    }
  }

  /** A star that matches from `k` matches from anywhere before it. */
  lemma {:induction false} StarReachesBack(p: seq<Byte>, t: seq<Byte>, s: nat, j: nat, k: nat)
    requires s < |p| && p[s] == STAR && j <= k <= |t| && MatchesAt(p, t, s, k)
    ensures MatchesAt(p, t, s, j)
    decreases k - j
  {
    if j < k {
      StarReachesBack(p, t, s, j + 1, k);
    }
  }

  /** Since the open star, the loop has walked over plain pattern bytes, one text byte each. */
  predicate PlainSince(p: seq<Byte>, i: nat, j: nat, star: Option<nat>, mark: nat) {
    star.Some? ==>
      && i <= |p| && i - star.value - 1 == j - mark
      && forall k :: star.value < k < i ==> p[k] != STAR
  }

  /** The last star is enough: had an earlier one to absorb more, the last one can absorb that too. */
  lemma LastStarIsEnough(p: seq<Byte>, t: seq<Byte>, i: nat, j: nat, star: nat, mark: nat)
    requires StarKnown(p, t, i, j, Some(star), mark) && PlainSince(p, i, j, Some(star), mark)
    requires mark + 1 <= |t| && MatchesAt(p, t, star, mark + 1)
    ensures j < |t|
    ensures i < |p| && p[i] == STAR ==> MatchesAt(p, t, i, j)
  {
    var k := StarHandsOver(p, t, star, mark + 1);
    PlainRunConsumes(p, t, star + 1, i - star - 1, k);
    if i < |p| && p[i] == STAR {
      StarReachesBack(p, t, i, j, k + (i - star - 1));
    }
  }

  lemma {:induction false} ScanIsComplete(p: seq<Byte>, t: seq<Byte>, i: nat, j: nat, star: Option<nat>, mark: nat)
    requires StarKnown(p, t, i, j, star, mark) && PlainSince(p, i, j, star, mark)
    requires STAR !in t
    ensures MatchesAt(p, t, i, j)
         || (star.Some? && mark < |t| && MatchesAt(p, t, star.value, mark + 1))
        ==> Scan(p, t, i, j, star, mark)
    decreases StarsLeft(p, star), |t| - mark, |t| - j
  {
    if star.Some? && mark < |t| && MatchesAt(p, t, star.value, mark + 1) {
      LastStarIsEnough(p, t, i, j, star.value, mark);
    }
    if j == |t| {
      OnlyStarsMatchNothing(p, t, i);
    } else if i < |p| && (p[i] == QUESTION || p[i] == t[j]) {
      ScanIsComplete(p, t, i + 1, j + 1, star, mark);
    } else if i < |p| && p[i] == STAR {
      ScanIsComplete(p, t, i + 1, j, Some(i), j);
    } else if star.Some? {
      ScanIsComplete(p, t, star.value + 1, mark + 1, star, mark + 1);
    }
  }

  // ----- exactly when the matcher means what a glob means -----

  /** A text whose every byte is taken literally, while the pattern still asks for one more. */
  lemma {:induction false} LiteralWalkFails(p: seq<Byte>, t: seq<Byte>, j: nat)
    requires |p| == |t| + 1 && p[|t|] == QUESTION && j <= |t|
    requires forall k :: 0 <= k < |t| ==> p[k] == QUESTION || p[k] == t[k]
    ensures !Scan(p, t, j, j, None, 0)
    decreases |t| - j
  {
    if j < |t| {
      LiteralWalkFails(p, t, j + 1);
    } else {
      assert p[j..][0] == QUESTION;
    }
  }

  lemma {:induction false} QuestionsMatch(p: seq<Byte>, t: seq<Byte>, i: nat, j: nat)
    requires i <= |p| && j <= |t| && |p| - i == |t| - j
    requires forall k :: i <= k < |p| ==> p[k] == QUESTION
    ensures MatchesAt(p, t, i, j)
    decreases |p| - i
  {
    if i < |p| {
      QuestionsMatch(p, t, i + 1, j + 1);
    }
  }

  lemma {:induction false} SamePrefixMatches(p: seq<Byte>, t: seq<Byte>, j: nat, n: nat)
    requires j <= n <= |p| && n <= |t| && MatchesAt(p, t, n, n)
    requires forall k :: j <= k < n ==> p[k] == t[k] && p[k] != STAR
    ensures MatchesAt(p, t, j, j)
    decreases n - j
  {
    if j < n {
      SamePrefixMatches(p, t, j + 1, n);
    }
  }

  /** A text with a `*` at `n` and none before it, and the pattern the loop gets wrong on it: the
      text up to `n`, a star, then a `?` for every byte from `n` on. */
  lemma StarInTextMisleads(t: seq<Byte>, n: nat)
    requires n < |t| && t[n] == STAR
    requires forall k :: 0 <= k < n ==> t[k] != STAR
    ensures exists p :: Matches(p, t) && !Answer(p, t)
  {
    var p: seq<Byte> := t[..n + 1] + seq(|t| - n, _ => QUESTION);
    LiteralWalkFails(p, t, 0);
    QuestionsMatch(p, t, n + 1, n);
    assert MatchesAt(p, t, n, n);
    SamePrefixMatches(p, t, 0, n);
    assert Matches(p, t) && !Answer(p, t);
  }

  /** On a text the loop gives the glob's answer to every pattern exactly when the text has no `*`. */
  lemma ExactOnTexts(t: seq<Byte>)
    ensures (forall p :: Answer(p, t) == Matches(p, t)) <==> STAR !in t
  {
    if STAR !in t {
      forall p
        ensures Answer(p, t) == Matches(p, t)
      {
        ScanIsComplete(p, t, 0, 0, None, 0);
        if Answer(p, t) {
          ScanIsSound(p, t, 0, 0, None, 0);
        }
      }
    } else {
      var n := 0;
      while t[n] != STAR
        invariant n < |t| && STAR in t
        invariant forall k :: 0 <= k < n ==> t[k] != STAR
        decreases |t| - n
      {
        assert n + 1 < |t|;
        n := n + 1;
      }
      StarInTextMisleads(t, n);
    }
  }

  /** The shortest case: the mask `*` does not accept the text `*x`. */
  lemma StarRefusesStarX()
    ensures var t: seq<Byte> := [STAR, 120];
            Matches([STAR], t) && !Answer([STAR], t)
  {
    var t: seq<Byte> := [STAR, 120];
    assert MatchesAt([STAR], t, 1, 2);
    assert MatchesAt([STAR], t, 0, 2);
    assert MatchesAt([STAR], t, 0, 1);
    assert !Scan([STAR], t, 1, 1, None, 0);
  }
}
