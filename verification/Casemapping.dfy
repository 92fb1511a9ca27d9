/**
 The three ways servers fold names. Two names are the same to a server when their folds are, and the
 client keys what it knows by a fold, so which names a coarser fold merges matters to every model here.
 */
module Casemapping {

  datatype Kind = Rfc1459 | Ascii | Rfc1459Strict

  function NormalizedCharacter(c: char, kind: Kind): char {
    if 'A' <= c <= 'Z' then (c as int + 32) as char
    else if kind == Ascii then c
    else
      match c
      case '[' => '{'
      case ']' => '}'
      case '\\' => '|'
      case '^' => if kind == Rfc1459 then '~' else c
      case _ => c
  }

  function Normalize(kind: Kind, name: string): string {
    seq(|name|, i requires 0 <= i < |name| => NormalizedCharacter(name[i], kind))
  }

  predicate Equals(kind: Kind, left: string, right: string) {
    Normalize(kind, left) == Normalize(kind, right)
  }

  /** A folded name is its own fold, so a map keyed by folded names is keyed by each name's class. */
  lemma NormalizeIsIdempotent(kind: Kind, name: string)
    ensures Normalize(kind, Normalize(kind, name)) == Normalize(kind, name)
    ensures Equals(kind, name, Normalize(kind, name))
  {
  }

  /** RFC 1459 merges every two names the strict rule merges, and the strict rule every two that
      ASCII merges: two folds can only disagree by the coarser one merging more. */
  lemma CoarserFoldsMergeMore(left: string, right: string)
    ensures Equals(Ascii, left, right) ==> Equals(Rfc1459Strict, left, right)
    ensures Equals(Rfc1459Strict, left, right) ==> Equals(Rfc1459, left, right)
  {
    if Equals(Ascii, left, right) {
      assert |Normalize(Ascii, left)| == |Normalize(Ascii, right)|;
      forall i | 0 <= i < |left|
        ensures NormalizedCharacter(left[i], Rfc1459Strict) == NormalizedCharacter(right[i], Rfc1459Strict)
      {
        assert Normalize(Ascii, left)[i] == Normalize(Ascii, right)[i];
      }
    }
    if Equals(Rfc1459Strict, left, right) {
      assert |Normalize(Rfc1459Strict, left)| == |Normalize(Rfc1459Strict, right)|;
      forall i | 0 <= i < |left|
        ensures NormalizedCharacter(left[i], Rfc1459) == NormalizedCharacter(right[i], Rfc1459)
      {
        assert Normalize(Rfc1459Strict, left)[i] == Normalize(Rfc1459Strict, right)[i];
      }
    }
  }
}
