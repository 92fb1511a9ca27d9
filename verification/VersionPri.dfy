/**
 Reading the repository's version for Cargo: `1.0.7alpha` needs a hyphen before its letters. The hand
 scanner is compared with the pattern it stands for: digits, then dot-digit groups, then a letter and
 anything at all.
 */
module VersionPri {

  predicate IsDigit(c: char) {
    '0' <= c <= '9'
  }

  predicate IsLetter(c: char) {
    'a' <= c <= 'z' || 'A' <= c <= 'Z'
  }

  predicate Digits(s: string) {
    s != [] && forall i :: 0 <= i < |s| ==> IsDigit(s[i])
  }

  /** Digits, then any number of groups of a dot and digits. */
  ghost predicate Dotted(s: string) {
    Digits(s) || exists k :: 0 < k < |s| && s[k] == '.' && Dotted(s[..k]) && Digits(s[k + 1..])
  }

  /** The pattern matches `s` with its letters starting at `i`. */
  ghost predicate SplitsAt(s: string, i: nat) {
    i < |s| && Dotted(s[..i]) && IsLetter(s[i])
  }

  ghost predicate Matches(s: string) {
    exists i :: SplitsAt(s, i)
  }

  function Hyphenated(s: string, i: nat): string
    requires i <= |s|
  {
    s[..i] + "-" + s[i..]
  }

  /** Inserts one hyphen where the pattern splits the version, and leaves any other version alone. */
  method ToCargoSemver(version: string) returns (cargo: string)
    ensures forall i :: SplitsAt(version, i) ==> cargo == Hyphenated(version, i)
    ensures !Matches(version) ==> cargo == version
  {
    if version == "" || !IsDigit(version[0]) {
      forall j: nat
        ensures !SplitsAt(version, j)
      {
        if SplitsAt(version, j) {
          DottedShape(version[..j]);
        }
      }
      return version;
    }
    var i := 0;
    while i < |version| && IsDigit(version[i])
      invariant i <= |version|
      invariant forall k :: 0 <= k < i ==> IsDigit(version[k])
    {
      i := i + 1;
    }
    assert Digits(version[..i]);
    while true
      invariant 0 < i <= |version| && Dotted(version[..i])
      invariant i < |version| ==> !IsDigit(version[i])
      decreases |version| - i
    {
      if i >= |version| || version[i] != '.' {
        break;
      }
      var j := i + 1;
      if j >= |version| || !IsDigit(version[j]) {
        break;
      }
      j := j + 1;
      while j < |version| && IsDigit(version[j])
        invariant i + 1 < j <= |version|
        invariant forall k :: i < k < j ==> IsDigit(version[k])
      {
        j := j + 1;
      }
      assert version[..j][..i] == version[..i] && version[..j][i + 1..] == version[i + 1..j];
      i := j;
    }
    forall j: nat | SplitsAt(version, j)
      ensures j == i
    {
      StopsAtTheSplit(version, i, j);
    }
    if i < |version| && IsLetter(version[i]) {
      assert SplitsAt(version, i);
      return version[..i] + "-" + version[i..];
    }
    return version;
  }

  predicate InShape(s: string, i: nat)
    requires i < |s|
  {
    IsDigit(s[i]) || (s[i] == '.' && i + 1 < |s| && IsDigit(s[i + 1]))
  }

  /** Every character is a digit or a dot, it starts with a digit, and a digit follows every dot. */
  lemma {:induction false} DottedShape(s: string)
    requires Dotted(s)
    ensures s != [] && IsDigit(s[0])
    ensures forall i :: 0 <= i < |s| ==> InShape(s, i)
    decreases |s|
  {
    if !Digits(s) {
      var k :| 0 < k < |s| && s[k] == '.' && Dotted(s[..k]) && Digits(s[k + 1..]);
      DottedShape(s[..k]);
      forall i | 0 <= i < |s|
        ensures InShape(s, i)
      {
        if i < k {
          assert InShape(s[..k], i) && s[..k][i] == s[i];
          assert i + 1 < k ==> s[..k][i + 1] == s[i + 1];
        } else if i == k {
          assert s[k + 1..][0] == s[k + 1];
        } else {
          assert s[k + 1..][i - k - 1] == s[i];
        }
      }
    }
  }

  lemma DottedCharacter(s: string, i: nat)
    requires Dotted(s) && i < |s|
    ensures IsDigit(s[i]) || s[i] == '.'
  {
  }

  /** Where the scanner stops is the only place the pattern can split. */
  lemma StopsAtTheSplit(s: string, i: nat, j: nat)
    requires i <= |s| && Dotted(s[..i]) && SplitsAt(s, j)
    requires i < |s| ==> !IsDigit(s[i]) && !(s[i] == '.' && i + 1 < |s| && IsDigit(s[i + 1]))
    ensures i == j
  {
    DottedShape(s[..i]);
    DottedShape(s[..j]);
    assert i < j ==> InShape(s[..j], i);
    assert j < i ==> InShape(s[..i], j);
  }

  /** The pattern splits a version in one place at most. */
  lemma SplitIsUnique(s: string, i: nat, j: nat)
    requires SplitsAt(s, i) && SplitsAt(s, j)
    ensures i == j
  {
    StopsAtTheSplit(s, i, j);
  }

  /** A hyphenated version is not split again, so the conversion is done once for all. */
  lemma HyphenatedIsFinal(s: string, i: nat)
    requires SplitsAt(s, i)
    ensures !Matches(Hyphenated(s, i))
  {
    var t := Hyphenated(s, i);
    DottedShape(s[..i]);
    assert t[i] == '-';
    assert forall k :: 0 <= k < i ==> InShape(s[..i], k) && t[k] == s[..i][k];
    forall j: nat
      ensures !SplitsAt(t, j)
    {
      if SplitsAt(t, j) {
        if i < j {
          DottedCharacter(t[..j], i);
        }
      }
    }
  }

  method ConvertTwice(version: string) returns (once: string, twice: string)
    ensures twice == once
  {
    once := ToCargoSemver(version);
    twice := ToCargoSemver(once);
    if Matches(version) {
      var i: nat :| SplitsAt(version, i);
      HyphenatedIsFinal(version, i);
    }
  }
}
