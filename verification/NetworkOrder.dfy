/**
 The order of networks in the sidebar: a recorded order, completed by the known networks it does not
 name, and moves of one network among those that may be moved. The main results: the order shown is
 always the known networks, each once; a move leaves the rest as it was, and the opposite move undoes
 it.
 */
module NetworkOrder {

  type Id = string

  predicate Distinct(s: seq<Id>) {
    forall i, j :: 0 <= i < j < |s| ==> s[i] != s[j]
  }

  // ----- the order shown, as a function -----

  /** The recorded names that are known, each where it comes first. */
  function Recorded(order: seq<Id>, known: seq<Id>): seq<Id> {
    if order == [] then []
    else
      var n := |order| - 1;
      var front := Recorded(order[..n], known);
      if order[n] in front || order[n] !in known then front else front + [order[n]]
  }

  /** A list completed by the names of another it lacks. */
  function Completed(order: seq<Id>, known: seq<Id>): seq<Id> {
    if known == [] then order
    else
      var n := |known| - 1;
      var front := Completed(order, known[..n]);
      if known[n] in front then front else front + [known[n]]
  }

  function Shown(order: seq<Id>, known: seq<Id>): seq<Id> {
    if order == [] then known else Completed(Recorded(order, known), known)
  }

  // ----- a move, as a function -----

  /** The names of `s` that may be moved, in order. */
  function MovableOf(s: seq<Id>, movable: set<Id>): seq<Id> {
    if s == [] then []
    else
      var n := |s| - 1;
      MovableOf(s[..n], movable) + if s[n] in movable then [s[n]] else []
  }

  function Removed<T>(s: seq<T>, i: nat): seq<T>
    requires i < |s|
  {
    s[..i] + s[i + 1..]
  }

  function Inserted<T>(s: seq<T>, t: nat, x: T): seq<T>
    requires t <= |s|
  {
    s[..t] + [x] + s[t..]
  }

  /** The name at `i` taken out and put back at `t`. */
  function Moved<T>(s: seq<T>, i: nat, t: nat): seq<T>
    requires i < |s| && t < |s|
  {
    Inserted(Removed(s, i), t, s[i])
  }

  /** The places of `s` that hold movable names, filled anew in order. */
  function Filled(s: seq<Id>, movable: set<Id>, tail: seq<Id>): (filled: seq<Id>)
    requires |tail| == |MovableOf(s, movable)|
    ensures |filled| == |s|
  {
    if s == [] then []
    else
      var n := |s| - 1;
      if s[n] in movable then Filled(s[..n], movable, tail[..|tail| - 1]) + [tail[|tail| - 1]]
      else Filled(s[..n], movable, tail) + [s[n]]
  }

  function IndexOf(s: seq<Id>, id: Id): (i: nat)
    ensures i <= |s|
    ensures i < |s| ==> s[i] == id
    ensures i == |s| ==> id !in s
    ensures forall k :: 0 <= k < i ==> s[k] != id
  {
    if s == [] || s[0] == id then 0 else 1 + IndexOf(s[1..], id)
  }

  predicate CanMove(shown: seq<Id>, movable: set<Id>, id: Id, delta: int) {
    var names := MovableOf(shown, movable);
    && id in movable && id in names && delta != 0
    && 0 <= IndexOf(names, id) + delta < |names|
  }

  function AfterMove(shown: seq<Id>, movable: set<Id>, id: Id, delta: int): seq<Id>
    requires CanMove(shown, movable, id, delta)
  {
    var names := MovableOf(shown, movable);
    var i := IndexOf(names, id);
    MovedLength(names, i, i + delta);
    Filled(shown, movable, Moved(names, i, i + delta))
  }

  lemma MovedLength<T>(s: seq<T>, i: nat, t: nat)
    requires i < |s| && t < |s|
    ensures |Moved(s, i, t)| == |s|
  {
  }

  // ----- the sidebar, updating its order in place -----

  class Sidebar {
    /** What there is to show, sorted by id, and which of it the user may move. */
    var known: seq<Id>
    var movable: set<Id>
    var order: seq<Id>

    constructor (known: seq<Id>, movable: set<Id>)
      ensures this.known == known && this.movable == movable && order == []
    {
      this.known, this.movable, order := known, movable, [];
    }

    method ShowOrder() returns (shown: seq<Id>)
      ensures shown == Shown(order, known)
    {
      if order == [] {
        return known;
      }
      shown := [];
      var i := 0;
      while i < |order|
        invariant 0 <= i <= |order| && shown == Recorded(order[..i], known)
      {
        assert order[..i + 1][..i] == order[..i];
        var id := order[i];
        i := i + 1;
        if id in shown || id !in known {
          continue;
        }
        shown := shown + [id];
      }
      assert order[..i] == order;
      ghost var recorded := shown;
      i := 0;
      while i < |known|
        invariant 0 <= i <= |known| && shown == Completed(recorded, known[..i])
      {
        assert known[..i + 1][..i] == known[..i];
        if known[i] !in shown {
          shown := shown + [known[i]];
        }
        i := i + 1;
      }
      assert known[..i] == known;
    }

    method SetOrder(wanted: seq<Id>)
      modifies this`order
      ensures order == wanted
    {
      if order == wanted {
        return;
      }
      order := wanted;
    }

    /** Shifts one movable network past `delta` others. Everything that may not move stays put. */
    method MoveNetwork(id: Id, delta: int) returns (moved: bool)
      modifies this`order
      ensures moved == CanMove(Shown(old(order), known), movable, id, delta)
      ensures order == if moved then AfterMove(Shown(old(order), known), movable, id, delta) else old(order)
    {
      if id !in movable {
        return false;
      }
      var shown := ShowOrder();
      var names: seq<Id> := [];
      var positions: seq<nat> := [];
      var k := 0;
      while k < |shown|
        invariant 0 <= k <= |shown| && names == MovableOf(shown[..k], movable)
        invariant positions == MovablePlaces(shown[..k], movable)
      {
        assert shown[..k + 1][..k] == shown[..k];
        if shown[k] in movable {
          positions := positions + [k];
          names := names + [shown[k]];
        }
        k := k + 1;
      }
      assert shown[..k] == shown;
      var index := IndexOf(names, id);
      if index == |names| || delta == 0 {
        return false;
      }
      var target := index + delta;
      if target < 0 || target >= |names| {
        return false;
      }
      var tail := Removed(names, index);
      tail := tail[..target] + [names[index]] + tail[target..];
      var filled := FillPlaces(shown, positions, tail);
      SetOrder(filled);
      return true;
    }

    /** Writes `tail` into the movable places, in order. */
    method FillPlaces(shown: seq<Id>, positions: seq<nat>, tail: seq<Id>) returns (filled: seq<Id>)
      requires positions == MovablePlaces(shown, movable) && |tail| == |MovableOf(shown, movable)|
      ensures filled == Filled(shown, movable, tail)
    {
      PlacesByRank(shown, movable);
      filled := shown;
      var i := 0;
      while i < |positions|
        invariant 0 <= i <= |positions| && |filled| == |shown|
        invariant forall k :: 0 <= k < |shown| ==>
                    filled[k] == if shown[k] in movable && Rank(shown, movable, k) < i
                                 then tail[Rank(shown, movable, k)] else shown[k]
      {
        hide Rank;
        filled := filled[positions[i] := tail[i]];
        i := i + 1;
      }
      forall k | 0 <= k < |shown|
        ensures |Filled(shown, movable, tail)| == |shown| && filled[k] == Filled(shown, movable, tail)[k]
      {
        FilledAt(shown, movable, tail, k);
      }
      assert shown == [] ==> Filled(shown, movable, tail) == [];
    }
  }

  /** The places of `s` that hold movable names. */
  function MovablePlaces(s: seq<Id>, movable: set<Id>): seq<nat> {
    if s == [] then []
    else
      var n := |s| - 1;
      MovablePlaces(s[..n], movable) + if s[n] in movable then [n] else []
  }

  /** How many movable names come before place `k`. */
  function Rank(s: seq<Id>, movable: set<Id>, k: nat): nat
    requires k <= |s|
  {
    |MovableOf(s[..k], movable)|
  }

  /** The movable places and the ranks of movable names are each other's inverse. */
  lemma {:induction false} PlacesByRank(s: seq<Id>, movable: set<Id>)
    ensures |MovablePlaces(s, movable)| == |MovableOf(s, movable)|
    ensures forall i :: 0 <= i < |MovablePlaces(s, movable)| ==>
              var p := MovablePlaces(s, movable)[i];
              p < |s| && s[p] in movable && Rank(s, movable, p) == i
    ensures forall k :: 0 <= k < |s| && s[k] in movable ==>
              Rank(s, movable, k) < |MovablePlaces(s, movable)| && MovablePlaces(s, movable)[Rank(s, movable, k)] == k
  {
    if s != [] {
      var n := |s| - 1;
      PlacesByRank(s[..n], movable);
      forall k | 0 <= k < n
        ensures Rank(s[..n], movable, k) == Rank(s, movable, k)
      {
        assert s[..n][..k] == s[..k];
      }
    }
  }

  lemma {:induction false} FilledAt(s: seq<Id>, movable: set<Id>, tail: seq<Id>, k: nat)
    requires |tail| == |MovableOf(s, movable)| && k < |s|
    ensures |Filled(s, movable, tail)| == |s|
    ensures s[k] in movable ==> Rank(s, movable, k) < |tail|
    ensures Filled(s, movable, tail)[k] == if s[k] in movable then tail[Rank(s, movable, k)] else s[k]
  {
    var n := |s| - 1;
    var rest := if s[n] in movable then tail[..|tail| - 1] else tail;
    if n == 0 {
      assert s[..0] == [] && Filled(s[..0], movable, rest) == [];
    } else {
      var j := if k < n then k else n - 1;
      FilledAt(s[..n], movable, rest, j);
      assert k < n ==> s[..n][..k] == s[..k];
    }
  }

  // ----- the order shown is the known networks -----

  lemma {:induction false} DistinctCounts(s: seq<Id>, x: Id)
    requires Distinct(s)
    ensures multiset(s)[x] == if x in s then 1 else 0
  {
    if s != [] {
      var n := |s| - 1;
      DistinctCounts(s[..n], x);
      assert s == s[..n] + [s[n]];
      assert x in s[..n] ==> x != s[n];
    }
  }

  lemma SameCountsAreDistinct(a: seq<Id>, b: seq<Id>)
    requires Distinct(a) && multiset(a) == multiset(b)
    ensures Distinct(b) && forall x :: x in a <==> x in b
  {
    forall i, j | 0 <= i < j < |b|
      ensures b[i] != b[j]
    {
      DistinctCounts(a, b[i]);
      assert b == b[..j] + b[j..];
      assert b[..j][i] == b[i] && b[j..][0] == b[j];
      assert multiset(b)[b[i]] == multiset(b[..j])[b[i]] + multiset(b[j..])[b[i]];
    }
    forall x: Id
      ensures x in a <==> x in b
    {
      assert x in multiset(a) <==> x in multiset(b);
    }
  }

  lemma SameNamesCountAlike(a: seq<Id>, b: seq<Id>)
    requires Distinct(a) && Distinct(b) && forall x :: x in a <==> x in b
    ensures multiset(a) == multiset(b)
  {
    forall x: Id
      ensures multiset(a)[x] == multiset(b)[x]
    {
      DistinctCounts(a, x);
      DistinctCounts(b, x);
    }
  }

  lemma {:induction false} RecordedIsKnown(order: seq<Id>, known: seq<Id>)
    ensures Distinct(Recorded(order, known))
    ensures forall x :: x in Recorded(order, known) <==> x in order && x in known
    ensures Distinct(order) && (forall x :: x in order ==> x in known) ==> Recorded(order, known) == order
  {
    if order != [] {
      var n := |order| - 1;
      RecordedIsKnown(order[..n], known);
      assert order == order[..n] + [order[n]];
    }
  }

  lemma {:induction false} CompletedHoldsAll(order: seq<Id>, known: seq<Id>)
    requires Distinct(order)
    ensures Distinct(Completed(order, known))
    ensures forall x :: x in Completed(order, known) <==> x in order || x in known
    ensures (forall x :: x in known ==> x in order) ==> Completed(order, known) == order
    ensures order <= Completed(order, known)
  {
    if known != [] {
      var n := |known| - 1;
      CompletedHoldsAll(order, known[..n]);
      assert known == known[..n] + [known[n]];
    }
  }

  /** The order shown holds the known networks, each once, whatever was recorded. */
  lemma ShownIsTheKnown(order: seq<Id>, known: seq<Id>)
    requires Distinct(known)
    ensures Distinct(Shown(order, known)) && multiset(Shown(order, known)) == multiset(known)
    ensures order != [] ==> Recorded(order, known) <= Shown(order, known)
  {
    if order != [] {
      RecordedIsKnown(order, known);
      CompletedHoldsAll(Recorded(order, known), known);
      SameNamesCountAlike(Shown(order, known), known);
    }
  }

  /** An arrangement of the known networks is shown as it was recorded. */
  lemma SetThenShown(order: seq<Id>, known: seq<Id>)
    requires Distinct(known) && multiset(order) == multiset(known)
    ensures Shown(order, known) == order && Distinct(order)
  {
    SameCountsAreDistinct(known, order);
    if order == [] {
      assert |multiset(known)| == 0;
    } else {
      RecordedIsKnown(order, known);
      CompletedHoldsAll(order, known);
    }
  }

  // ----- a move keeps the rest -----

  predicate AllMovable(s: seq<Id>, movable: set<Id>) {
    forall i :: 0 <= i < |s| ==> s[i] in movable
  }

  lemma {:induction false} MovablesAreMovable(s: seq<Id>, movable: set<Id>)
    ensures AllMovable(MovableOf(s, movable), movable)
  {
    if s != [] {
      MovablesAreMovable(s[..|s| - 1], movable);
    }
  }

  lemma {:induction false} FilledMovables(s: seq<Id>, movable: set<Id>, tail: seq<Id>)
    requires |tail| == |MovableOf(s, movable)| && AllMovable(tail, movable)
    ensures |Filled(s, movable, tail)| == |s|
    ensures MovableOf(Filled(s, movable, tail), movable) == tail
  {
    if s != [] {
      var n := |s| - 1;
      var rest := if s[n] in movable then tail[..|tail| - 1] else tail;
      FilledMovables(s[..n], movable, rest);
      assert Filled(s, movable, tail)[..n] == Filled(s[..n], movable, rest);
    }
  }

  lemma {:induction false} FilledCounts(s: seq<Id>, movable: set<Id>, tail: seq<Id>, x: Id)
    requires |tail| == |MovableOf(s, movable)|
    ensures multiset(Filled(s, movable, tail))[x] + multiset(MovableOf(s, movable))[x] == multiset(s)[x] + multiset(tail)[x]
  {
    if s != [] {
      var n := |s| - 1;
      assert s == s[..n] + [s[n]];
      if s[n] in movable {
        var m := |tail| - 1;
        FilledCounts(s[..n], movable, tail[..m], x);
        assert tail == tail[..m] + [tail[m]];
      } else {
        assert MovableOf(s, movable) == MovableOf(s[..n], movable);
        FilledCounts(s[..n], movable, tail, x);
      }
    }
  }

  /** Filling again forgets the first filling; filling with what is there changes nothing. */
  lemma {:induction false} FilledTwice(s: seq<Id>, movable: set<Id>, first: seq<Id>, second: seq<Id>)
    requires |first| == |second| == |MovableOf(s, movable)| && AllMovable(first, movable)
    ensures |second| == |MovableOf(Filled(s, movable, first), movable)|
    ensures Filled(Filled(s, movable, first), movable, second) == Filled(s, movable, second)
  {
    if s != [] {
      var n := |s| - 1;
      var m := |first| - 1;
      var rest := if s[n] in movable then first[..m] else first;
      FilledMovables(s, movable, first);
      FilledMovables(s[..n], movable, rest);
      FilledTwice(s[..n], movable, rest, if s[n] in movable then second[..m] else second);
      assert Filled(s, movable, first)[..n] == Filled(s[..n], movable, rest);
    }
  }

  lemma {:induction false} FilledAsIs(s: seq<Id>, movable: set<Id>)
    ensures Filled(s, movable, MovableOf(s, movable)) == s
  {
    if s != [] {
      var n := |s| - 1;
      FilledAsIs(s[..n], movable);
      var names := MovableOf(s, movable);
      if s[n] in movable {
        assert names[..|names| - 1] == MovableOf(s[..n], movable);
      } else {
        assert names == MovableOf(s[..n], movable);
      }
      assert s == s[..n] + [s[n]];
    }
  }

  lemma InsertedThenRemoved<T>(s: seq<T>, t: nat, x: T)
    requires t <= |s|
    ensures |Inserted(s, t, x)| == |s| + 1 && Inserted(s, t, x)[t] == x
    ensures Removed(Inserted(s, t, x), t) == s
    ensures multiset(Inserted(s, t, x)) == multiset(s) + multiset{x}
  {
  }

  lemma RemovedThenInserted<T>(s: seq<T>, i: nat)
    requires i < |s|
    ensures Inserted(Removed(s, i), i, s[i]) == s
  {
  }

  /** Moving within a list: the same names, the rest in the same order, and a move back restores it. */
  lemma MovedKeeps<T>(s: seq<T>, i: nat, t: nat)
    requires i < |s| && t < |s|
    ensures |Moved(s, i, t)| == |s| && Moved(s, i, t)[t] == s[i]
    ensures Removed(Moved(s, i, t), t) == Removed(s, i)
    ensures Moved(Moved(s, i, t), t, i) == s
    ensures multiset(Moved(s, i, t)) == multiset(s)
  {
    InsertedThenRemoved(Removed(s, i), t, s[i]);
    InsertedThenRemoved(Removed(s, i), i, s[i]);
    RemovedThenInserted(s, i);
    hide Inserted;
  }

  lemma SameNamesAreMovable(names: seq<Id>, moved: seq<Id>, movable: set<Id>)
    requires AllMovable(names, movable) && multiset(moved) == multiset(names)
    ensures AllMovable(moved, movable)
  {
    forall k | 0 <= k < |moved|
      ensures moved[k] in movable
    {
      assert moved[k] in multiset(moved);
      assert moved[k] in names;
    }
  }

  /** Filling with the same names arranged anew keeps every name, and those not movable in place. */
  lemma FilledKeeps(s: seq<Id>, movable: set<Id>, tail: seq<Id>)
    requires multiset(tail) == multiset(MovableOf(s, movable))
    ensures |tail| == |MovableOf(s, movable)|
    ensures multiset(Filled(s, movable, tail)) == multiset(s) && |Filled(s, movable, tail)| == |s|
    ensures forall k :: 0 <= k < |s| && s[k] !in movable ==> Filled(s, movable, tail)[k] == s[k]
  {
    hide Filled, MovableOf, Rank;
    assert |tail| == |multiset(tail)| == |multiset(MovableOf(s, movable))| == |MovableOf(s, movable)|;
    forall x: Id
      ensures multiset(Filled(s, movable, tail))[x] == multiset(s)[x]
    {
      FilledCounts(s, movable, tail, x);
    }
    forall k | 0 <= k < |s| && s[k] !in movable
      ensures Filled(s, movable, tail)[k] == s[k]
    {
      FilledAt(s, movable, tail, k);
    }
  }

  /** An accepted move: the same networks, each immovable one where it was, and the movable ones in
      their order but for the one moved. */
  lemma MoveKeepsTheRest(shown: seq<Id>, movable: set<Id>, id: Id, delta: int)
    requires Distinct(shown) && CanMove(shown, movable, id, delta)
    ensures var after := AfterMove(shown, movable, id, delta);
            var i := IndexOf(MovableOf(shown, movable), id);
            && Distinct(after) && multiset(after) == multiset(shown) && |after| == |shown|
            && (forall k :: 0 <= k < |shown| && shown[k] !in movable ==> after[k] == shown[k])
            && MovableOf(after, movable) == Moved(MovableOf(shown, movable), i, i + delta)
            && MovableOf(after, movable)[i + delta] == id
            && Removed(MovableOf(after, movable), i + delta) == Removed(MovableOf(shown, movable), i)
  {
    var names := MovableOf(shown, movable);
    var i := IndexOf(names, id);
    var moved := Moved(names, i, i + delta);
    hide Moved, Removed, Filled, MovableOf, Distinct, AllMovable, IndexOf;
    MovablesAreMovable(shown, movable);
    MovedKeeps(names, i, i + delta);
    SameNamesAreMovable(names, moved, movable);
    FilledKeeps(shown, movable, moved);
    FilledMovables(shown, movable, moved);
    SameCountsAreDistinct(shown, Filled(shown, movable, moved));
  }

  lemma {:induction false} MovablesAreDistinct(s: seq<Id>, movable: set<Id>)
    requires Distinct(s)
    ensures Distinct(MovableOf(s, movable))
    ensures forall x :: x in MovableOf(s, movable) ==> x in s
  {
    if s != [] {
      var n := |s| - 1;
      MovablesAreDistinct(s[..n], movable);
      var front := MovableOf(s[..n], movable);
      assert forall i :: 0 <= i < |front| ==> front[i] in s[..n];
    }
  }

  lemma IndexInDistinct(s: seq<Id>, i: nat)
    requires Distinct(s) && i < |s|
    ensures IndexOf(s, s[i]) == i && s[i] in s
  {
  }

  lemma MoveBackRestores(shown: seq<Id>, movable: set<Id>, id: Id, delta: int)
    requires Distinct(shown) && CanMove(shown, movable, id, delta)
    ensures var after := AfterMove(shown, movable, id, delta);
            CanMove(after, movable, id, -delta) && AfterMove(after, movable, id, -delta) == shown
  {
    hide Distinct, Moved, Removed, Filled, MovableOf, AllMovable, IndexOf;
    var after := AfterMove(shown, movable, id, delta);
    var names := MovableOf(shown, movable);
    var i := IndexOf(names, id);
    MoveKeepsTheRest(shown, movable, id, delta);
    MovablesAreDistinct(after, movable);
    MovedKeeps(names, i, i + delta);
    MovablesAreMovable(after, movable);
    IndexInDistinct(MovableOf(after, movable), i + delta);
    FilledTwice(shown, movable, MovableOf(after, movable), names);
    FilledAsIs(shown, movable);
  }

  /** A move by `delta` and then by `-delta`, each made on the order then shown, restores it; both
      are accepted. */
  lemma MoveIsUndone(order: seq<Id>, known: seq<Id>, movable: set<Id>, id: Id, delta: int)
    requires Distinct(known) && CanMove(Shown(order, known), movable, id, delta)
    ensures var after := AfterMove(Shown(order, known), movable, id, delta);
            && Shown(after, known) == after
            && CanMove(after, movable, id, -delta)
            && AfterMove(after, movable, id, -delta) == Shown(order, known)
  {
    hide Shown, Distinct, AfterMove, CanMove;
    ShownIsTheKnown(order, known);
    MoveBackRestores(Shown(order, known), movable, id, delta);
    MoveKeepsTheRest(Shown(order, known), movable, id, delta);
    SetThenShown(AfterMove(Shown(order, known), movable, id, delta), known);
  }
}
