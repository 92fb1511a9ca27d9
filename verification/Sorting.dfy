/** A stable sort by a total order, and the order of strings by their characters. */
module Sorting {

  ghost predicate TotalOrder<T(!new)>(leq: (T, T) -> bool) {
    && (forall a, b :: leq(a, b) || leq(b, a))
    && (forall a, b, c :: leq(a, b) && leq(b, c) ==> leq(a, c))
  }

  predicate Sorted<T>(s: seq<T>, leq: (T, T) -> bool) {
    forall i, j :: 0 <= i < j < |s| ==> leq(s[i], s[j])
  }

  /** Puts `x` after every element that may come before it, so equal elements keep their order. */
  function Insert<T>(s: seq<T>, x: T, leq: (T, T) -> bool): seq<T> {
    if s == [] || leq(s[|s| - 1], x) then s + [x]
    else Insert(s[..|s| - 1], x, leq) + [s[|s| - 1]]
  }

  function Sort<T>(s: seq<T>, leq: (T, T) -> bool): seq<T> {
    if s == [] then [] else Insert(Sort(s[..|s| - 1], leq), s[|s| - 1], leq)
  }

  lemma AppendLargest<T>(s: seq<T>, x: T, leq: (T, T) -> bool)
    requires Sorted(s, leq) && forall i :: 0 <= i < |s| ==> leq(s[i], x)
    ensures Sorted(s + [x], leq)
  {
  }

  lemma LargestIsLast<T(!new)>(s: seq<T>, x: T, leq: (T, T) -> bool)
    requires TotalOrder(leq) && Sorted(s, leq) && (s == [] || leq(s[|s| - 1], x))
    ensures forall i :: 0 <= i < |s| ==> leq(s[i], x)
  {
  }

  lemma {:induction false} InsertIsSorted<T(!new)>(s: seq<T>, x: T, leq: (T, T) -> bool)
    requires TotalOrder(leq) && Sorted(s, leq)
    ensures Sorted(Insert(s, x, leq), leq)
    ensures multiset(Insert(s, x, leq)) == multiset(s) + multiset{x}
    ensures |Insert(s, x, leq)| == |s| + 1
  {
    if s == [] || leq(s[|s| - 1], x) {
      LargestIsLast(s, x, leq);
      hide TotalOrder;
      AppendLargest(s, x, leq);
    } else {
      var n := |s| - 1;
      assert s == s[..n] + [s[n]];
      InsertIsSorted(s[..n], x, leq);
      assert leq(x, s[n]);
      hide TotalOrder;
      var front := Insert(s[..n], x, leq);
      forall i | 0 <= i < |front|
        ensures leq(front[i], s[n])
      {
        assert front[i] in multiset(front);
        assert front[i] == x || front[i] in s[..n];
      }
      AppendLargest(front, s[n], leq);
    }
  }

  lemma {:induction false} SortSorts<T(!new)>(s: seq<T>, leq: (T, T) -> bool)
    requires TotalOrder(leq)
    ensures Sorted(Sort(s, leq), leq) && multiset(Sort(s, leq)) == multiset(s) && |Sort(s, leq)| == |s|
  {
    if s != [] {
      var n := |s| - 1;
      SortSorts(s[..n], leq);
      InsertIsSorted(Sort(s[..n], leq), s[n], leq);
      assert s == s[..n] + [s[n]];
    }
  }

  /** Elements no order can tell apart are equal, among those of `s`. */
  ghost predicate Distinguishes<T>(s: seq<T>, leq: (T, T) -> bool) {
    forall i, j :: 0 <= i < |s| && 0 <= j < |s| && leq(s[i], s[j]) && leq(s[j], s[i]) ==> s[i] == s[j]
  }

  /** Two sorted arrangements of the same elements end alike: each last element is somewhere in the other. */
  lemma SameLast<T(!new)>(left: seq<T>, right: seq<T>, i: nat, j: nat, leq: (T, T) -> bool)
    requires TotalOrder(leq) && Sorted(left, leq) && Sorted(right, leq) && Distinguishes(left, leq)
    requires |left| == |right| && i < |left| && j < |left|
    requires right[i] == left[|left| - 1] && left[j] == right[|left| - 1]
    ensures left[|left| - 1] == right[|left| - 1]
  {
  }

  lemma LastIsFound<T>(left: seq<T>, right: seq<T>) returns (i: nat)
    requires multiset(left) == multiset(right) && left != []
    ensures |left| == |right| && i < |right| && right[i] == left[|left| - 1]
  {
    assert |left| == |multiset(left)| == |multiset(right)| == |right|;
    assert left[|left| - 1] in multiset(right);
    i :| 0 <= i < |right| && right[i] == left[|left| - 1];
  }

  lemma LastIsDropped<T>(left: seq<T>, right: seq<T>)
    requires multiset(left) == multiset(right) && left != [] && |left| == |right|
    requires left[|left| - 1] == right[|left| - 1]
    ensures multiset(left[..|left| - 1]) == multiset(right[..|left| - 1])
    ensures left[..|left| - 1] == right[..|left| - 1] ==> left == right
  {
    var n := |left| - 1;
    assert left == left[..n] + [left[n]] && right == right[..n] + [right[n]];
    assert multiset(left[..n]) == multiset(left) - multiset{left[n]};
    assert multiset(right[..n]) == multiset(right) - multiset{right[n]};
  }

  /** Two sorted arrangements of the same elements are the same. */
  lemma {:induction false} SortedIsUnique<T(!new)>(left: seq<T>, right: seq<T>, leq: (T, T) -> bool)
    requires TotalOrder(leq) && Sorted(left, leq) && Sorted(right, leq)
    requires multiset(left) == multiset(right) && Distinguishes(left, leq)
    ensures left == right
  {
    if left == [] {
      assert |multiset(right)| == 0;
    } else {
      var n := |left| - 1;
      var i := LastIsFound(left, right);
      var j := LastIsFound(right, left);
      SameLast(left, right, i, j, leq);
      LastIsDropped(left, right);
      PrefixKeeps(left, n, leq);
      PrefixKeeps(right, n, leq);
      SortedIsUnique(left[..n], right[..n], leq);
    }
  }

  lemma PrefixKeeps<T(!new)>(s: seq<T>, n: nat, leq: (T, T) -> bool)
    requires n <= |s|
    ensures Sorted(s, leq) ==> Sorted(s[..n], leq)
    ensures Distinguishes(s, leq) ==> Distinguishes(s[..n], leq)
  {
  }

  /** A sorted sequence cut in two: both parts are sorted, and nothing of the first belongs later. */
  lemma SplitSorted<T>(s: seq<T>, cut: nat, leq: (T, T) -> bool)
    requires cut <= |s| && Sorted(s, leq)
    ensures Sorted(s[cut..], leq) && s[..cut] + s[cut..] == s
    ensures multiset(s[..cut]) + multiset(s[cut..]) == multiset(s)
    ensures forall a, b :: a in s[..cut] && b in s[cut..] ==> leq(a, b)
  {
  }

  // ----- strings -----

  predicate LexLeq(a: string, b: string) {
    a == [] || (b != [] && (a[0] < b[0] || (a[0] == b[0] && LexLeq(a[1..], b[1..]))))
  }

  lemma {:induction false} LexTotal(a: string, b: string)
    ensures LexLeq(a, b) || LexLeq(b, a)
    ensures LexLeq(a, b) && LexLeq(b, a) ==> a == b
  {
    if a != [] && b != [] && a[0] == b[0] {
      LexTotal(a[1..], b[1..]);
      assert a == [a[0]] + a[1..] && b == [b[0]] + b[1..];
    }
  }

  lemma {:induction false} LexTransitive(a: string, b: string, c: string)
    requires LexLeq(a, b) && LexLeq(b, c)
    ensures LexLeq(a, c)
  {
    if a != [] && a[0] == b[0] == c[0] {
      LexTransitive(a[1..], b[1..], c[1..]);
    }
  }
}
