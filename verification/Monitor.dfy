/**
 MONITOR: the client's stored nicks, and the list a peer keeps for it. The peer folds by ASCII and
 takes a hundred nicks; the client folds by the network's case mapping and drops what the peer says
 is too many. The main results: the peer's list is always in order, and it never watches a nick the
 client has not stored, except after exactly two kinds of removal: one whose line is refused, and an
 accepted one that drops a watched nick only the client's mapping takes for the one named.

 One network is modelled, with each frame answered before the next step.
 */
module Monitor {
  import Casemapping
  import opened Wrappers

  type Nick = string

  const MONITOR_LIMIT := 100

  datatype Frame = ClearAll | ListAll | States | Plus(targets: seq<Nick>) | Minus(targets: seq<Nick>) | Unknown

  datatype Numeric =
    | Online(nicks: seq<Nick>)
    | Offline(nicks: seq<Nick>)
    | Listing(nicks: seq<Nick>)
    | EndOfList
    | ListFull(limit: nat, nicks: seq<Nick>)

  // ----- the peer, as functions -----

  function Key(nick: Nick): string {
    Casemapping.Normalize(Casemapping.Ascii, nick)
  }

  function IndexIn(nicks: seq<Nick>, nick: Nick): (i: nat)
    ensures i <= |nicks|
    ensures i < |nicks| ==> Key(nicks[i]) == Key(nick)
    ensures forall k :: 0 <= k < i ==> Key(nicks[k]) != Key(nick)
  {
    if nicks == [] || Key(nicks[0]) == Key(nick) then 0 else 1 + IndexIn(nicks[1..], nick)
  }

  predicate Knows(nicks: seq<Nick>, nick: Nick) {
    IndexIn(nicks, nick) < |nicks|
  }

  /** What becomes of the targets of one `+`: those already listed are passed over. */
  datatype Taken = Taken(added: seq<Nick>, overflow: seq<Nick>, listed: nat)

  function Take(watched: seq<Nick>, targets: seq<Nick>): Taken {
    if targets == [] then Taken([], [], 0)
    else
      var n := |targets| - 1;
      var t := Take(watched, targets[..n]);
      if Knows(watched, targets[n]) || Knows(t.added, targets[n]) then t.(listed := t.listed + 1)
      else if |watched| + |t.added| >= MONITOR_LIMIT then t.(overflow := t.overflow + [targets[n]])
      else t.(added := t.added + [targets[n]])
  }

  function DropOne(watched: seq<Nick>, nick: Nick): seq<Nick> {
    var i := IndexIn(watched, nick);
    if i < |watched| then watched[..i] + watched[i + 1..] else watched
  }

  function DropEach(watched: seq<Nick>, targets: seq<Nick>): seq<Nick> {
    if targets == [] then watched
    else DropOne(DropEach(watched, targets[..|targets| - 1]), targets[|targets| - 1])
  }

  function Watched(watched: seq<Nick>, f: Frame): seq<Nick> {
    match f
    case ClearAll => []
    case Plus(targets) => watched + Take(watched, targets).added
    case Minus(targets) => DropEach(watched, targets)
    case _ => watched
  }

  /** The nicks of a list that are, or are not, among those online. */
  function Among(nicks: seq<Nick>, online: seq<Nick>, wanted: bool): seq<Nick> {
    if nicks == [] then []
    else
      var n := |nicks| - 1;
      Among(nicks[..n], online, wanted) + if Knows(online, nicks[n]) == wanted then [nicks[n]] else []
  }

  function StateLines(nicks: seq<Nick>, online: seq<Nick>): seq<Numeric> {
    var on := Among(nicks, online, true);
    var off := Among(nicks, online, false);
    (if on != [] then [Online(on)] else []) + if off != [] then [Offline(off)] else []
  }

  function Answer(watched: seq<Nick>, online: seq<Nick>, f: Frame): seq<Numeric> {
    match f
    case ListAll => (if watched != [] then [Listing(watched)] else []) + [EndOfList]
    case States => StateLines(watched, online)
    case Plus(targets) =>
      var t := Take(watched, targets);
      (if t.added != [] then StateLines(t.added, online) else [])
      + if t.overflow != [] then [ListFull(MONITOR_LIMIT, t.overflow)] else []
    case _ => []
  }

  // ----- the peer, updating its list in place -----

  class Peer {
    var watched: seq<Nick>

    constructor ()
      ensures watched == []
    {
      watched := [];
    }

    method MonitorStates(nicks: seq<Nick>, online: seq<Nick>) returns (lines: seq<Numeric>)
      ensures lines == StateLines(nicks, online)
    {
      var on: seq<Nick>, off: seq<Nick> := [], [];
      var i := 0;
      while i < |nicks|
        invariant 0 <= i <= |nicks|
        invariant on == Among(nicks[..i], online, true) && off == Among(nicks[..i], online, false)
      {
        assert nicks[..i + 1][..i] == nicks[..i];
        if Knows(online, nicks[i]) {
          on := on + [nicks[i]];
        } else {
          off := off + [nicks[i]];
        }
        i := i + 1;
      }
      assert nicks[..i] == nicks;
      lines := [];
      if on != [] {
        lines := lines + [Online(on)];
      }
      if off != [] {
        lines := lines + [Offline(off)];
      }
    }

    method AnswerMonitor(frame: Frame, online: seq<Nick>) returns (lines: seq<Numeric>)
      modifies this
      ensures watched == Watched(old(watched), frame)
      ensures lines == Answer(old(watched), online, frame)
    {
      lines := [];
      match frame {
        case ClearAll => watched := [];
        case ListAll =>
          if watched != [] {
            lines := lines + [Listing(watched)];
          }
          lines := lines + [EndOfList];
        case States => lines := MonitorStates(watched, online);
        case Minus(targets) =>
          var i := 0;
          while i < |targets|
            invariant 0 <= i <= |targets| && watched == DropEach(old(watched), targets[..i])
          {
            assert targets[..i + 1][..i] == targets[..i];
            var index := IndexIn(watched, targets[i]);
            if index < |watched| {
              watched := watched[..index] + watched[index + 1..];
            }
            i := i + 1;
          }
          assert targets[..i] == targets;
        case Plus(targets) => lines := AddTargets(targets, online);
        case Unknown =>
      }
    }

    method AddTargets(targets: seq<Nick>, online: seq<Nick>) returns (lines: seq<Numeric>)
      modifies this
      ensures watched == Watched(old(watched), Plus(targets))
      ensures lines == Answer(old(watched), online, Plus(targets))
    {
      var added: seq<Nick>, overflow: seq<Nick> := [], [];
      ghost var listed := 0;
      var i := 0;
      while i < |targets|
        invariant 0 <= i <= |targets|
        invariant Taken(added, overflow, listed) == Take(watched, targets[..i])
      {
        assert targets[..i + 1][..i] == targets[..i];
        var nick := targets[i];
        i := i + 1;
        if Knows(watched, nick) || Knows(added, nick) {
          listed := listed + 1;
          continue;
        }
        if |watched| + |added| >= MONITOR_LIMIT {
          overflow := overflow + [nick];
        } else {
          added := added + [nick];
        }
      }
      assert targets[..i] == targets;
      watched := watched + added;
      lines := [];
      if added != [] {
        lines := MonitorStates(added, online);
      }
      if overflow != [] {
        lines := lines + [ListFull(MONITOR_LIMIT, overflow)];
      }
    }
  }

  // ----- the peer's list is always in order -----

  function Keys(nicks: seq<Nick>): set<string> {
    set nick | nick in nicks :: Key(nick)
  }

  predicate Distinct(nicks: seq<Nick>) {
    forall i, j :: 0 <= i < j < |nicks| ==> Key(nicks[i]) != Key(nicks[j])
  }

  lemma KnownByKey(nicks: seq<Nick>, nick: Nick)
    ensures Knows(nicks, nick) <==> Key(nick) in Keys(nicks)
  {
  }

  lemma KeysAdd(left: seq<Nick>, right: seq<Nick>)
    ensures Keys(left + right) == Keys(left) + Keys(right)
  {
  }

  lemma {:induction false} TakeCounts(watched: seq<Nick>, targets: seq<Nick>)
    requires |watched| <= MONITOR_LIMIT
    ensures var t := Take(watched, targets);
            && t.listed + |t.added| + |t.overflow| == |targets|
            && |watched| + |t.added| <= MONITOR_LIMIT
            && (t.overflow != [] ==> |watched| + |t.added| == MONITOR_LIMIT)
  {
    if targets != [] {
      TakeCounts(watched, targets[..|targets| - 1]);
    }
  }

  lemma {:induction false} TakeNames(watched: seq<Nick>, targets: seq<Nick>, x: Nick)
    ensures var t := Take(watched, targets);
            (x in t.added || x in t.overflow) ==> x in targets
  {
    if targets != [] {
      TakeNames(watched, targets[..|targets| - 1], x);
    }
  }

  /** Each target is already listed, added or refused; a refusal means the list is full, and is never
      of a nick that is on it. */
  lemma {:induction false} TakeSorts(watched: seq<Nick>, targets: seq<Nick>)
    requires Distinct(watched) && |watched| <= MONITOR_LIMIT
    ensures var t := Take(watched, targets);
            && t.listed + |t.added| + |t.overflow| == |targets|
            && Distinct(watched + t.added) && |watched + t.added| <= MONITOR_LIMIT
            && (t.overflow != [] ==> |watched + t.added| == MONITOR_LIMIT)
            && Keys(t.overflow) !! Keys(watched + t.added)
            && Keys(targets) <= Keys(watched + t.added) + Keys(t.overflow)
  {
    TakeCounts(watched, targets);
    if targets != [] {
      var n := |targets| - 1;
      var nick := targets[n];
      TakeSorts(watched, targets[..n]);
      TakeCounts(watched, targets[..n]);
      var t := Take(watched, targets[..n]);
      assert targets == targets[..n] + [nick];
      KeysAdd(targets[..n], [nick]);
      OneMoreTaken(watched, t, nick);
      hide Keys, Knows, Distinct, Key;
    }
  }

  /** One more target, seen by what is known and what was refused before it. */
  lemma OneMoreTaken(watched: seq<Nick>, t: Taken, nick: Nick)
    requires Distinct(watched + t.added)
    ensures Keys([nick]) == {Key(nick)}
    ensures Knows(watched, nick) || Knows(t.added, nick) <==> Key(nick) in Keys(watched + t.added)
    ensures Keys(t.overflow + [nick]) == Keys(t.overflow) + {Key(nick)}
    ensures watched + (t.added + [nick]) == watched + t.added + [nick]
    ensures Keys(watched + (t.added + [nick])) == Keys(watched + t.added) + {Key(nick)}
    ensures Key(nick) !in Keys(watched + t.added) ==> Distinct(watched + (t.added + [nick]))
  {
  }

  lemma DropOneKeeps(watched: seq<Nick>, nick: Nick)
    requires Distinct(watched)
    ensures Distinct(DropOne(watched, nick)) && |DropOne(watched, nick)| <= |watched|
    ensures Keys(DropOne(watched, nick)) == Keys(watched) - {Key(nick)}
  {
  }

  lemma {:induction false} DropEachKeeps(watched: seq<Nick>, targets: seq<Nick>)
    requires Distinct(watched)
    ensures Distinct(DropEach(watched, targets)) && |DropEach(watched, targets)| <= |watched|
    ensures Keys(DropEach(watched, targets)) == Keys(watched) - Keys(targets)
  {
    if targets != [] {
      var n := |targets| - 1;
      DropEachKeeps(watched, targets[..n]);
      DropOneKeeps(DropEach(watched, targets[..n]), targets[n]);
      assert targets == targets[..n] + [targets[n]];
      KeysAdd(targets[..n], [targets[n]]);
      assert Keys([targets[n]]) == {Key(targets[n])};
    }
  }

  function WatchedAfter(frames: seq<Frame>): seq<Nick> {
    if frames == [] then []
    else Watched(WatchedAfter(frames[..|frames| - 1]), frames[|frames| - 1])
  }

  /** After any frames the peer's list has no nick twice under its fold, and a hundred at most. */
  lemma {:induction false} PeerStaysInBounds(frames: seq<Frame>)
    ensures Distinct(WatchedAfter(frames)) && |WatchedAfter(frames)| <= MONITOR_LIMIT
  {
    if frames != [] {
      var n := |frames| - 1;
      PeerStaysInBounds(frames[..n]);
      var before := WatchedAfter(frames[..n]);
      match frames[n]
      case Plus(targets) => TakeSorts(before, targets);
      case Minus(targets) => DropEachKeeps(before, targets);
      case _ =>
    }
  }

  // ----- the client, as functions -----

  /** What the network advertises. */
  datatype Features = Features(mapping: Casemapping.Kind, advertised: bool, limit: Option<nat>)

  /** The client's stored nicks and whether it subscribed this registration, and the peer's list. */
  datatype System = System(stored: seq<Nick>, subscribed: bool, watched: seq<Nick>)

  predicate Holds(stored: seq<Nick>, nick: Nick, mapping: Casemapping.Kind) {
    exists i :: 0 <= i < |stored| && Casemapping.Equals(mapping, stored[i], nick)
  }

  /** The stored nicks without repetitions under the mapping. */
  function Listed(stored: seq<Nick>, mapping: Casemapping.Kind): seq<Nick> {
    if stored == [] then []
    else
      var n := |stored| - 1;
      var front := Listed(stored[..n], mapping);
      if Holds(front, stored[n], mapping) then front else front + [stored[n]]
  }

  function Without(stored: seq<Nick>, nick: Nick, mapping: Casemapping.Kind): seq<Nick> {
    if stored == [] then []
    else
      var n := |stored| - 1;
      Without(stored[..n], nick, mapping) + if Casemapping.Equals(mapping, stored[n], nick) then [] else [stored[n]]
  }

  function WithoutEach(stored: seq<Nick>, nicks: seq<Nick>, mapping: Casemapping.Kind): seq<Nick> {
    if nicks == [] then stored
    else Without(WithoutEach(stored, nicks[..|nicks| - 1], mapping), nicks[|nicks| - 1], mapping)
  }

  /** A `+` line reaches the peer, and what it says is too many reaches the client. */
  function Deliver(s: System, f: Features, targets: seq<Nick>): System {
    s.(watched := Watched(s.watched, Plus(targets)),
       stored := WithoutEach(s.stored, Take(s.watched, targets).overflow, f.mapping))
  }

  function Cut(nicks: seq<Nick>, limit: Option<nat>): seq<Nick> {
    if limit.Some? && limit.value < |nicks| then nicks[..limit.value] else nicks
  }

  /** The nicks of a subscription that get through before a write is refused. */
  function Subscribed(s: System, f: Features, delivered: nat): seq<Nick> {
    var nicks := Cut(Listed(s.stored, f.mapping), f.limit);
    if delivered < |nicks| then nicks[..delivered] else nicks
  }

  /** Subscribing, once a registration. */
  function Subscribe(s: System, f: Features, registered: bool, delivered: nat): System {
    if s.subscribed || !f.advertised || !registered then s
    else Deliver(s.(subscribed := true), f, Subscribed(s, f, delivered))
  }

  datatype Outcome = Sent | Refused | NotConnected

  /** Whether a command may act at all: its session is registered, and its argument is one nick that can
      be watched. */
  datatype Caller = Caller(registered: bool, usable: bool)
  {
    predicate MayAct() {
      registered && usable
    }
  }

  predicate Stores(s: System, f: Features, nick: Nick) {
    && f.advertised && !Holds(s.stored, nick, f.mapping)
    && (f.limit.Some? ==> |Listed(s.stored, f.mapping)| < f.limit.value)
  }

  function AddOutcome(s: System, f: Features, who: Caller, nick: Nick, accepted: bool): Outcome {
    if !who.registered then NotConnected
    else if !who.usable || (Stores(s, f, nick) && !accepted) then Refused
    else Sent
  }

  function RemoveOutcome(who: Caller): Outcome {
    if !who.registered then NotConnected else if !who.usable then Refused else Sent
  }

  function Add(s: System, f: Features, who: Caller, nick: Nick, accepted: bool): System {
    if !who.MayAct() || !f.advertised || Holds(s.stored, nick, f.mapping) then s
    else if f.limit.Some? && |Listed(s.stored, f.mapping)| >= f.limit.value then s
    else
      var storing := s.(stored := s.stored + [nick]);
      if accepted then Deliver(storing, f, [nick])
      else s.(stored := Without(storing.stored, nick, f.mapping))
  }

  function Remove(s: System, f: Features, who: Caller, nick: Nick, accepted: bool): System {
    if !who.MayAct() || !Holds(s.stored, nick, f.mapping) then s
    else
      s.(stored := Without(s.stored, nick, f.mapping),
         watched := if accepted then Watched(s.watched, Minus([nick])) else s.watched)
  }

  lemma HoldsOneMore(stored: seq<Nick>, last: Nick, nick: Nick, mapping: Casemapping.Kind)
    ensures Holds(stored + [last], nick, mapping) <==>
              Holds(stored, nick, mapping) || Casemapping.Equals(mapping, last, nick)
    ensures !Holds([], nick, mapping)
  {
    assert (stored + [last])[|stored|] == last;
    if i :| 0 <= i < |stored| && Casemapping.Equals(mapping, stored[i], nick) {
      assert (stored + [last])[i] == stored[i];
    }
  }

  lemma {:induction false} NothingToDrop(stored: seq<Nick>, nick: Nick, mapping: Casemapping.Kind)
    ensures !Holds(stored, nick, mapping) ==> Without(stored, nick, mapping) == stored
  {
    if stored != [] {
      var n := |stored| - 1;
      assert stored == stored[..n] + [stored[n]];
      HoldsOneMore(stored[..n], stored[n], nick, mapping);
      NothingToDrop(stored[..n], nick, mapping);
    }
  }

  /** The peer says its list is full last, and only then; it names what it refused. */
  lemma AnswerShape(watched: seq<Nick>, online: seq<Nick>, targets: seq<Nick>)
    ensures var lines := Answer(watched, online, Plus(targets));
            var overflow := Take(watched, targets).overflow;
            && (forall k :: 0 <= k < |lines| && lines[k].ListFull? ==> k == |lines| - 1 && lines[k].nicks == overflow)
            && (overflow == [] ==> forall k :: 0 <= k < |lines| ==> !lines[k].ListFull?)
            && (overflow != [] ==> lines != [] && lines[|lines| - 1].ListFull?)
  {
    StateLinesTellStates(Take(watched, targets).added, online);
    hide Take, StateLines;
  }

  lemma StateLinesTellStates(nicks: seq<Nick>, online: seq<Nick>)
    ensures forall k :: 0 <= k < |StateLines(nicks, online)| ==> !StateLines(nicks, online)[k].ListFull?
  {
  }

  // ----- the client, updating its fields in place -----

  class MonitorCoordinator {
    var stored: seq<Nick>
    var subscribed: bool
    const peer: Peer
    const features: Features

    ghost function Model(): System
      reads this, peer
    {
      System(stored, subscribed, peer.watched)
    }

    constructor (peer: Peer, features: Features, stored: seq<Nick>)
      ensures this.peer == peer && this.features == features
      ensures this.stored == stored && !subscribed
    {
      this.peer, this.features, this.stored, subscribed := peer, features, stored, false;
    }

    /** Drops every stored nick that matches, and reports whether any did. */
    method StoreRemove(nick: Nick) returns (dropped: bool)
      modifies this`stored
      ensures stored == Without(old(stored), nick, features.mapping)
      ensures dropped == Holds(old(stored), nick, features.mapping)
    {
      var kept: seq<Nick> := [];
      dropped := false;
      var i := 0;
      while i < |stored|
        invariant 0 <= i <= |stored| && stored == old(stored)
        invariant kept == Without(stored[..i], nick, features.mapping)
        invariant dropped == Holds(stored[..i], nick, features.mapping)
      {
        hide Casemapping.Equals;
        assert stored[..i + 1][..i] == stored[..i];
        HoldsOneMore(stored[..i], stored[i], nick, features.mapping);
        assert stored[..i + 1] == stored[..i] + [stored[i]];
        if Casemapping.Equals(features.mapping, stored[i], nick) {
          dropped := true;
        } else {
          kept := kept + [stored[i]];
        }
        i := i + 1;
      }
      assert stored[..i] == stored;
      stored := kept;
    }

    /** 734: the client gives up the nicks the peer had no room for. */
    method HandleListFull(nicks: seq<Nick>)
      modifies this`stored
      ensures stored == WithoutEach(old(stored), nicks, features.mapping)
    {
      var i := 0;
      while i < |nicks|
        invariant 0 <= i <= |nicks| && stored == WithoutEach(old(stored), nicks[..i], features.mapping)
      {
        assert nicks[..i + 1][..i] == nicks[..i];
        var _ := StoreRemove(nicks[i]);
        i := i + 1;
      }
      assert nicks[..i] == nicks;
    }

    method SendPlus(targets: seq<Nick>, online: seq<Nick>)
      modifies this`stored, peer
      ensures Model() == Deliver(old(Model()), features, targets)
    {
      var lines := peer.AnswerMonitor(Plus(targets), online);
      ghost var overflow := Take(old(peer.watched), targets).overflow;
      AnswerShape(old(peer.watched), online, targets);
      var i := 0;
      while i < |lines|
        invariant 0 <= i <= |lines| && subscribed == old(subscribed)
        invariant peer.watched == Watched(old(peer.watched), Plus(targets))
        invariant stored == if i < |lines| then old(stored) else WithoutEach(old(stored), overflow, features.mapping)
      {
        hide Answer, Take, Watched;
        if lines[i].ListFull? {
          HandleListFull(lines[i].nicks);
        }
        i := i + 1;
      }
    }

    method MonitorSubscribe(registered: bool, delivered: nat, online: seq<Nick>)
      modifies this, peer
      ensures Model() == Subscribe(old(Model()), features, registered, delivered)
    {
      if subscribed || !features.advertised || !registered {
        return;
      }
      subscribed := true;
      var nicks := Listed(stored, features.mapping);
      if features.limit.Some? && features.limit.value < |nicks| {
        nicks := nicks[..features.limit.value];
      }
      if delivered < |nicks| {
        nicks := nicks[..delivered];
      }
      SendPlus(nicks, online);
    }

    method AddMonitored(who: Caller, nick: Nick, accepted: bool, online: seq<Nick>) returns (outcome: Outcome)
      modifies this, peer
      ensures Model() == Add(old(Model()), features, who, nick, accepted)
      ensures outcome == AddOutcome(old(Model()), features, who, nick, accepted)
    {
      if !who.registered {
        return NotConnected;
      }
      if !who.usable {
        return Refused;
      }
      if !features.advertised || Holds(stored, nick, features.mapping) {
        return Sent;
      }
      if features.limit.Some? && |Listed(stored, features.mapping)| >= features.limit.value {
        return Sent;
      }
      stored := stored + [nick];
      if !accepted {
        var _ := StoreRemove(nick);
        return Refused;
      }
      SendPlus([nick], online);
      return Sent;
    }

    method RemoveMonitored(who: Caller, nick: Nick, accepted: bool, online: seq<Nick>) returns (outcome: Outcome)
      modifies this, peer
      ensures Model() == Remove(old(Model()), features, who, nick, accepted)
      ensures outcome == RemoveOutcome(who)
    {
      if !who.registered {
        return NotConnected;
      }
      if !who.usable {
        return Refused;
      }
      hide Casemapping.Equals, Key, Holds;
      NothingToDrop(stored, nick, features.mapping);
      var dropped := StoreRemove(nick);
      if dropped && accepted {
        var _ := peer.AnswerMonitor(Minus([nick]), online);
      }
      return Sent;
    }
  }

  // ----- the peer follows the client -----

  /** Every nick the peer watches is stored. */
  predicate Follows(s: System) {
    Keys(s.watched) <= Keys(s.stored)
  }

  predicate Synced(s: System) {
    Keys(s.watched) == Keys(s.stored)
  }

  predicate PeerInOrder(s: System) {
    Distinct(s.watched) && |s.watched| <= MONITOR_LIMIT
  }

  /** No stored nick twice under the client's own mapping. */
  predicate Unique(stored: seq<Nick>, mapping: Casemapping.Kind) {
    forall i, j :: 0 <= i < j < |stored| ==> !Casemapping.Equals(mapping, stored[i], stored[j])
  }

  /** Every mapping merges what ASCII merges, so the peer never tells apart less than the client. */
  lemma SameKeyIsEqual(a: Nick, b: Nick, mapping: Casemapping.Kind)
    ensures Key(a) == Key(b) ==> Casemapping.Equals(mapping, a, b)
  {
    Casemapping.CoarserFoldsMergeMore(a, b);
  }

  lemma {:induction false} WithoutHolds(stored: seq<Nick>, nick: Nick, mapping: Casemapping.Kind, x: Nick)
    ensures x in Without(stored, nick, mapping) <==> x in stored && !Casemapping.Equals(mapping, x, nick)
  {
    hide Casemapping.Equals;
    if stored != [] {
      var n := |stored| - 1;
      WithoutHolds(stored[..n], nick, mapping, x);
      assert stored == stored[..n] + [stored[n]];
    }
  }

  lemma {:induction false} WithoutEachHolds(stored: seq<Nick>, nicks: seq<Nick>, mapping: Casemapping.Kind, x: Nick)
    ensures x in WithoutEach(stored, nicks, mapping) <==> x in stored && !Holds(nicks, x, mapping)
  {
    hide Casemapping.Equals, Without, Holds;
    if nicks == [] {
      HoldsOneMore([], x, x, mapping);
    } else {
      var n := |nicks| - 1;
      WithoutEachHolds(stored, nicks[..n], mapping, x);
      WithoutHolds(WithoutEach(stored, nicks[..n], mapping), nicks[n], mapping, x);
      assert nicks == nicks[..n] + [nicks[n]];
      HoldsOneMore(nicks[..n], nicks[n], x, mapping);
      EqualsIsSymmetric(nicks[n], x, mapping);
    }
  }

  lemma EqualsIsSymmetric(a: Nick, b: Nick, mapping: Casemapping.Kind)
    ensures Casemapping.Equals(mapping, a, b) == Casemapping.Equals(mapping, b, a)
  {
  }

  lemma HoldsEqualsAlike(nicks: seq<Nick>, a: Nick, b: Nick, mapping: Casemapping.Kind)
    requires Casemapping.Equals(mapping, a, b)
    ensures Holds(nicks, a, mapping) == Holds(nicks, b, mapping)
  {
  }

  /** A key survives a dropping exactly when it was there and its nick is not among those dropped, under
      the client's mapping. */
  lemma KeyIsKept(stored: seq<Nick>, nicks: seq<Nick>, mapping: Casemapping.Kind, x: Nick)
    ensures Key(x) in Keys(WithoutEach(stored, nicks, mapping)) <==> Key(x) in Keys(stored) && !Holds(nicks, x, mapping)
  {
    hide WithoutEach, Holds, Casemapping.Equals, Key;
    if Key(x) in Keys(stored) {
      var e :| e in stored && Key(e) == Key(x);
      WithoutEachHolds(stored, nicks, mapping, e);
      SameKeyIsEqual(e, x, mapping);
      HoldsEqualsAlike(nicks, e, x, mapping);
    }
    if Key(x) in Keys(WithoutEach(stored, nicks, mapping)) {
      var e :| e in WithoutEach(stored, nicks, mapping) && Key(e) == Key(x);
      WithoutEachHolds(stored, nicks, mapping, e);
      SameKeyIsEqual(e, x, mapping);
      HoldsEqualsAlike(nicks, e, x, mapping);
    }
  }

  lemma OneDropped(stored: seq<Nick>, nick: Nick, mapping: Casemapping.Kind, x: Nick)
    ensures WithoutEach(stored, [nick], mapping) == Without(stored, nick, mapping)
    ensures Holds([nick], x, mapping) == Casemapping.Equals(mapping, nick, x)
  {
    assert [nick][..0] == [];
    assert [nick][0] == nick;
    hide Without;
  }

  lemma NoKeys()
    ensures Keys([]) == {}
  {
  }

  lemma OneMoreKey(nicks: seq<Nick>, nick: Nick)
    ensures Keys(nicks + [nick]) == Keys(nicks) + {Key(nick)}
  {
  }

  // ----- removing -----

  /** A watched nick that a removal of `nick` leaves watched and no longer stored. */
  predicate LeftBehind(w: Nick, nick: Nick, mapping: Casemapping.Kind, accepted: bool) {
    Casemapping.Equals(mapping, w, nick) && (!accepted || Key(w) != Key(nick))
  }

  /** A removal after which the peer watches what is no longer stored: the client drops a nick, and the
      peer keeps one the client's mapping takes for the same, because the line was refused or because
      the peer tells the two apart. */
  predicate LeavesWatched(s: System, f: Features, who: Caller, nick: Nick, accepted: bool) {
    && who.MayAct() && Holds(s.stored, nick, f.mapping)
    && exists w :: w in s.watched && LeftBehind(w, nick, f.mapping, accepted)
  }

  lemma KeyAfterRemoval(s: System, f: Features, who: Caller, nick: Nick, accepted: bool, x: Nick)
    requires who.MayAct() && Holds(s.stored, nick, f.mapping) && PeerInOrder(s)
    ensures var after := Remove(s, f, who, nick, accepted);
            && (Key(x) in Keys(after.stored) <==> Key(x) in Keys(s.stored) && !Casemapping.Equals(f.mapping, x, nick))
            && (Key(x) in Keys(after.watched) <==> Key(x) in Keys(s.watched) && (!accepted || Key(x) != Key(nick)))
            && PeerInOrder(after)
  {
    hide Casemapping.Equals, Key, Keys, Distinct, Without, DropEach;
    KeyIsKept(s.stored, [nick], f.mapping, x);
    OneDropped(s.stored, nick, f.mapping, x);
    EqualsIsSymmetric(nick, x, f.mapping);
    DropEachKeeps(s.watched, [nick]);
    NoKeys();
    OneMoreKey([], nick);
    assert [] + [nick] == [nick];
  }

  lemma RemoveFollows(s: System, f: Features, who: Caller, nick: Nick, accepted: bool)
    requires PeerInOrder(s) && Follows(s)
    ensures var after := Remove(s, f, who, nick, accepted);
            && PeerInOrder(after)
            && (Follows(after) <==> !LeavesWatched(s, f, who, nick, accepted))
            && (Synced(s) && Follows(after) ==> Synced(after))
  {
    hide Casemapping.Equals, Key, Distinct;
    var after := Remove(s, f, who, nick, accepted);
    if who.MayAct() && Holds(s.stored, nick, f.mapping) {
      forall x: Nick
        ensures Key(x) in Keys(after.stored) <==> Key(x) in Keys(s.stored) && !Casemapping.Equals(f.mapping, x, nick)
        ensures Key(x) in Keys(after.watched) <==> Key(x) in Keys(s.watched) && (!accepted || Key(x) != Key(nick))
        ensures Key(x) == Key(nick) ==> Casemapping.Equals(f.mapping, x, nick)
      {
        KeyAfterRemoval(s, f, who, nick, accepted, x);
        SameKeyIsEqual(x, nick, f.mapping);
      }
      KeyAfterRemoval(s, f, who, nick, accepted, nick);
      hide Remove, Holds;
      if w :| w in s.watched && LeftBehind(w, nick, f.mapping, accepted) {
        assert Key(w) in Keys(s.watched);
        assert Key(w) in Keys(after.watched);
      }
      if !Follows(after) {
        var key :| key in Keys(after.watched) && key !in Keys(after.stored);
        var x :| x in after.watched && Key(x) == key;
        assert key in Keys(s.watched);
        var w :| w in s.watched && Key(w) == key;
        assert LeftBehind(w, nick, f.mapping, accepted);
      }
    }
  }

  // ----- delivering -----

  /** What the peer has no room for takes a nick with it that the peer does watch: the client's mapping
      takes the two for the same. */
  predicate Clashes(s: System, f: Features, targets: seq<Nick>) {
    var t := Take(s.watched, targets);
    exists w :: w in s.watched + t.added && Holds(t.overflow, w, f.mapping)
  }

  lemma TakenKeys(watched: seq<Nick>, targets: seq<Nick>)
    requires Distinct(watched) && |watched| <= MONITOR_LIMIT
    ensures var t := Take(watched, targets);
            && Keys(t.added) <= Keys(targets) && Keys(t.overflow) <= Keys(targets)
            && Keys(watched + t.added) == Keys(watched) + Keys(t.added)
            && Keys(t.overflow) !! Keys(watched + t.added)
            && Keys(targets) <= Keys(watched + t.added) + Keys(t.overflow)
            && Distinct(watched + t.added) && |watched + t.added| <= MONITOR_LIMIT
  {
    var t := Take(watched, targets);
    forall x: Nick
      ensures (x in t.added || x in t.overflow) ==> x in targets
    {
      TakeNames(watched, targets, x);
    }
    KeysOfSome(t.added, targets);
    KeysOfSome(t.overflow, targets);
    KeysAdd(watched, t.added);
    TakeSorts(watched, targets);
  }

  lemma KeysOfSome(some: seq<Nick>, all: seq<Nick>)
    requires forall x :: x in some ==> x in all
    ensures Keys(some) <= Keys(all)
  {
  }

  /** Delivering stored nicks keeps the peer within the store, except exactly when what it refuses takes
      a watched nick along. Each nick delivered is then watched, or no longer stored. */
  lemma DeliverFollows(s: System, f: Features, targets: seq<Nick>)
    requires PeerInOrder(s) && Follows(s) && Keys(targets) <= Keys(s.stored)
    ensures var after := Deliver(s, f, targets);
            && PeerInOrder(after)
            && (Follows(after) <==> !Clashes(s, f, targets))
            && (Keys(s.stored) <= Keys(s.watched) + Keys(targets) ==> Keys(after.stored) <= Keys(after.watched))
  {
    hide Casemapping.Equals, Key, Distinct, Take, WithoutEach, Holds;
    var t := Take(s.watched, targets);
    var after := Deliver(s, f, targets);
    TakenKeys(s.watched, targets);
    forall x: Nick
      ensures Key(x) in Keys(after.stored) <==> Key(x) in Keys(s.stored) && !Holds(t.overflow, x, f.mapping)
    {
      KeyIsKept(s.stored, t.overflow, f.mapping, x);
    }
    if w :| w in after.watched && Holds(t.overflow, w, f.mapping) {
      assert Key(w) in Keys(after.watched);
    }
    if !Follows(after) {
      var key :| key in Keys(after.watched) && key !in Keys(after.stored);
      var w :| w in after.watched && Key(w) == key;
      assert Holds(t.overflow, w, f.mapping);
    }
    if Keys(s.stored) <= Keys(s.watched) + Keys(targets) {
      forall key | key in Keys(after.stored)
        ensures key in Keys(after.watched)
      {
        var e :| e in after.stored && Key(e) == key;
        if key in Keys(t.overflow) {
          var o :| o in t.overflow && Key(o) == key;
          HeldItself(t.overflow, o, e, f.mapping);
        }
      }
    }
  }

  lemma HeldItself(nicks: seq<Nick>, o: Nick, e: Nick, mapping: Casemapping.Kind)
    requires o in nicks && Key(o) == Key(e)
    ensures Holds(nicks, e, mapping)
  {
    hide Casemapping.Equals, Key;
    SameKeyIsEqual(o, e, mapping);
    var i :| 0 <= i < |nicks| && nicks[i] == o;
  }

  /** A store without repetitions never clashes. */
  lemma UniqueNeverClashes(s: System, f: Features, targets: seq<Nick>)
    requires PeerInOrder(s) && Follows(s) && Unique(s.stored, f.mapping)
    requires forall x :: x in targets ==> x in s.stored
    ensures !Clashes(s, f, targets)
  {
    hide Casemapping.Equals, Key, Distinct, Take;
    var t := Take(s.watched, targets);
    KeysOfSome(targets, s.stored);
    TakenKeys(s.watched, targets);
    if w :| w in s.watched + t.added && Holds(t.overflow, w, f.mapping) {
      var j :| 0 <= j < |t.overflow| && Casemapping.Equals(f.mapping, t.overflow[j], w);
      TakeNames(s.watched, targets, t.overflow[j]);
      assert Key(w) in Keys(s.watched + t.added);
      var e :| e in s.stored && Key(e) == Key(w);
      SameKeyIsEqual(w, e, f.mapping);
      assert Key(t.overflow[j]) in Keys(t.overflow);
      SameStored(s.stored, t.overflow[j], w, e, f.mapping);
    }
  }

  lemma SameStored(stored: seq<Nick>, o: Nick, w: Nick, e: Nick, mapping: Casemapping.Kind)
    requires Unique(stored, mapping) && o in stored && e in stored
    requires Casemapping.Equals(mapping, o, w) && Casemapping.Equals(mapping, w, e)
    ensures o == e
  {
    var i :| 0 <= i < |stored| && stored[i] == o;
    var j :| 0 <= j < |stored| && stored[j] == e;
    EqualsIsSymmetric(o, e, mapping);
  }

  // ----- every step -----

  datatype Step =
    | Registers(keepsList: bool)
    | Subscribes(registered: bool, delivered: nat)
    | Adds(who: Caller, nick: Nick, accepted: bool)
    | Removes(who: Caller, nick: Nick, accepted: bool)

  /** A registration starts unsubscribed, with a peer that kept its list or starts one anew. */
  function Next(s: System, f: Features, step: Step): System {
    match step
    case Registers(keepsList) => s.(subscribed := false, watched := if keepsList then s.watched else [])
    case Subscribes(registered, delivered) => Subscribe(s, f, registered, delivered)
    case Adds(who, nick, accepted) => Add(s, f, who, nick, accepted)
    case Removes(who, nick, accepted) => Remove(s, f, who, nick, accepted)
  }

  /** The steps after which the peer watches a nick the client has not stored. */
  predicate LosesNick(s: System, f: Features, step: Step) {
    match step
    case Removes(who, nick, accepted) => LeavesWatched(s, f, who, nick, accepted)
    case Subscribes(registered, delivered) =>
      !s.subscribed && f.advertised && registered && Clashes(s, f, Subscribed(s, f, delivered))
    case _ => false
  }

  lemma {:induction false} ListedAreStored(stored: seq<Nick>, mapping: Casemapping.Kind)
    ensures forall x :: x in Listed(stored, mapping) ==> x in stored
    ensures Unique(stored, mapping) ==> Listed(stored, mapping) == stored
  {
    hide Casemapping.Equals;
    if stored != [] {
      var n := |stored| - 1;
      ListedAreStored(stored[..n], mapping);
      assert stored == stored[..n] + [stored[n]];
    }
  }

  lemma SubscribedAreStored(s: System, f: Features, delivered: nat)
    ensures forall x :: x in Subscribed(s, f, delivered) ==> x in s.stored
  {
    ListedAreStored(s.stored, f.mapping);
  }

  lemma SubscribeFollows(s: System, f: Features, registered: bool, delivered: nat)
    requires PeerInOrder(s) && Follows(s)
    ensures var after := Subscribe(s, f, registered, delivered);
            && PeerInOrder(after)
            && (Follows(after) <==> !LosesNick(s, f, Subscribes(registered, delivered)))
            && (Synced(s) ==> Synced(after))
  {
    hide Distinct, Key, Listed, Casemapping.Equals, Take, WithoutEach;
    var sent := Subscribed(s, f, delivered);
    SubscribedAreStored(s, f, delivered);
    KeysOfSome(sent, s.stored);
    DeliverFollows(s.(subscribed := true), f, sent);
    if Synced(s) {
      NothingNew(s, f, sent);
    }
    hide Subscribed, Deliver, Clashes, Keys;
    assert Clashes(s.(subscribed := true), f, sent) == Clashes(s, f, sent) by {
      ClashesAlike(s, f, sent);
    }
  }

  lemma ClashesAlike(s: System, f: Features, targets: seq<Nick>)
    ensures Clashes(s.(subscribed := true), f, targets) == Clashes(s, f, targets)
  {
  }

  lemma KeylessIsEmpty(nicks: seq<Nick>)
    ensures Keys(nicks) == {} ==> nicks == []
  {
    if nicks != [] {
      assert Key(nicks[0]) in Keys(nicks);
    }
  }

  /** Nicks the peer watches already change nothing. */
  lemma NothingNew(s: System, f: Features, targets: seq<Nick>)
    requires PeerInOrder(s) && Keys(targets) <= Keys(s.watched)
    ensures Keys(Deliver(s, f, targets).watched) == Keys(s.watched) && Deliver(s, f, targets).stored == s.stored
  {
    hide Distinct, Key;
    TakenKeys(s.watched, targets);
    var overflow := Take(s.watched, targets).overflow;
    KeylessIsEmpty(overflow);
  }

  lemma AddFollows(s: System, f: Features, who: Caller, nick: Nick, accepted: bool)
    requires PeerInOrder(s) && Follows(s)
    ensures var after := Add(s, f, who, nick, accepted);
            PeerInOrder(after) && Follows(after) && (Synced(s) ==> Synced(after))
  {
    hide Distinct, Key, Listed, Casemapping.Equals, Take, WithoutEach, Holds;
    if Add(s, f, who, nick, accepted) != s {
      var storing := s.(stored := s.stored + [nick]);
      OneMoreKey(s.stored, nick);
      NoKeys();
      OneMoreKey([], nick);
      assert [] + [nick] == [nick];
      if accepted {
        DeliverFollows(storing, f, [nick]);
        NewNickNeverClashes(s, f, nick);
      } else {
        NothingKept(s.stored, nick, f.mapping);
      }
    }
  }

  lemma NothingKept(stored: seq<Nick>, nick: Nick, mapping: Casemapping.Kind)
    requires !Holds(stored, nick, mapping)
    ensures Without(stored + [nick], nick, mapping) == stored
  {
    NothingToDrop(stored, nick, mapping);
    assert (stored + [nick])[..|stored|] == stored;
    hide Holds;
  }

  lemma NewNickNeverClashes(s: System, f: Features, nick: Nick)
    requires PeerInOrder(s) && Follows(s) && !Holds(s.stored, nick, f.mapping)
    ensures !Clashes(s.(stored := s.stored + [nick]), f, [nick])
  {
    hide Casemapping.Equals, Key, Distinct, Take;
    var t := Take(s.watched, [nick]);
    TakenKeys(s.watched, [nick]);
    if w :| w in s.watched + t.added && Holds(t.overflow, w, f.mapping) {
      var j :| 0 <= j < |t.overflow| && Casemapping.Equals(f.mapping, t.overflow[j], w);
      TakeNames(s.watched, [nick], t.overflow[j]);
      assert t.overflow[j] == nick && Key(nick) in Keys(t.overflow);
      TakeNames(s.watched, [nick], w);
      assert w in s.watched by {
        assert w in t.added ==> Key(w) in Keys(s.watched + t.added);
      }
      assert Key(w) in Keys(s.watched);
      var e :| e in s.stored && Key(e) == Key(w);
      SameKeyIsEqual(e, w, f.mapping);
      EqualsIsSymmetric(nick, w, f.mapping);
      EqualsChains(e, w, nick, f.mapping);
    }
  }

  lemma EqualsChains(a: Nick, b: Nick, c: Nick, mapping: Casemapping.Kind)
    requires Casemapping.Equals(mapping, a, b) && Casemapping.Equals(mapping, b, c)
    ensures Casemapping.Equals(mapping, a, c)
  {
  }

  /** Under any two folds, every step keeps the peer within what the client stored, except exactly those
      that leave it a nick too many; and keeps the two lists equal once they are, unless the peer starts
      anew. */
  lemma StepKeepsFollowing(s: System, f: Features, step: Step)
    requires PeerInOrder(s) && Follows(s)
    ensures PeerInOrder(Next(s, f, step))
    ensures Follows(Next(s, f, step)) <==> !LosesNick(s, f, step)
    ensures Synced(s) && !LosesNick(s, f, step) && !(step.Registers? && !step.keepsList) ==> Synced(Next(s, f, step))
  {
    match step {
      case Registers(keepsList) => NoKeys();
      case Subscribes(registered, delivered) => SubscribeFollows(s, f, registered, delivered);
      case Adds(who, nick, accepted) => AddFollows(s, f, who, nick, accepted);
      case Removes(who, nick, accepted) => RemoveFollows(s, f, who, nick, accepted);
    }
    hide Subscribe, Add, Remove, LeavesWatched, Clashes;
  }

  lemma {:induction false} WithoutKeepsUnique(stored: seq<Nick>, nick: Nick, mapping: Casemapping.Kind)
    requires Unique(stored, mapping)
    ensures Unique(Without(stored, nick, mapping), mapping)
  {
    hide Casemapping.Equals;
    if stored != [] {
      var n := |stored| - 1;
      WithoutKeepsUnique(stored[..n], nick, mapping);
      var front := Without(stored[..n], nick, mapping);
      forall i | 0 <= i < |front|
        ensures !Casemapping.Equals(mapping, front[i], stored[n])
      {
        WithoutHolds(stored[..n], nick, mapping, front[i]);
        assert front[i] in stored[..n];
      }
    }
  }

  lemma {:induction false} WithoutEachKeepsUnique(stored: seq<Nick>, nicks: seq<Nick>, mapping: Casemapping.Kind)
    requires Unique(stored, mapping)
    ensures Unique(WithoutEach(stored, nicks, mapping), mapping)
  {
    hide Unique;
    if nicks != [] {
      var n := |nicks| - 1;
      WithoutEachKeepsUnique(stored, nicks[..n], mapping);
      WithoutKeepsUnique(WithoutEach(stored, nicks[..n], mapping), nicks[n], mapping);
    }
  }

  /** The store stays without repetitions, and then only a removal can lose a nick. */
  lemma StepKeepsUnique(s: System, f: Features, step: Step)
    requires Unique(s.stored, f.mapping) && PeerInOrder(s) && Follows(s)
    ensures Unique(Next(s, f, step).stored, f.mapping)
    ensures LosesNick(s, f, step) ==> step.Removes?
  {
    hide Casemapping.Equals, Take;
    match step {
      case Subscribes(registered, delivered) =>
        var sent := Subscribed(s, f, delivered);
        SubscribedAreStored(s, f, delivered);
        UniqueNeverClashes(s, f, sent);
        WithoutEachKeepsUnique(s.stored, Take(s.watched, sent).overflow, f.mapping);
      case Adds(who, nick, accepted) =>
        var storing := s.stored + [nick];
        if !Holds(s.stored, nick, f.mapping) {
          NothingKept(s.stored, nick, f.mapping);
          assert Unique(storing, f.mapping);
          WithoutEachKeepsUnique(storing, Take(s.watched, [nick]).overflow, f.mapping);
        }
      case Removes(who, nick, accepted) => WithoutKeepsUnique(s.stored, nick, f.mapping);
      case Registers(_) =>
    }
    hide Unique, WithoutEach, Clashes;
  }

  /** A whole subscription leaves the two lists equal: what the peer has no room for is no longer
      stored. Only a limit below the stored list leaves nicks unwatched. */
  lemma SubscriptionSyncs(s: System, f: Features, delivered: nat)
    requires PeerInOrder(s) && Follows(s) && Unique(s.stored, f.mapping)
    requires !s.subscribed && f.advertised
    requires f.limit.Some? ==> |s.stored| <= f.limit.value
    requires delivered >= |s.stored|
    ensures Synced(Subscribe(s, f, true, delivered))
  {
    ListedAreStored(s.stored, f.mapping);
    hide Distinct, Key, Listed, Unique, Take, WithoutEach;
    assert Subscribed(s, f, delivered) == s.stored;
    UniqueNeverClashes(s, f, s.stored);
    ClashesAlike(s, f, s.stored);
    DeliverFollows(s.(subscribed := true), f, s.stored);
    hide Clashes;
  }

  // ----- whole runs -----

  function Run(s: System, f: Features, steps: seq<Step>): System
    decreases |steps|
  {
    if steps == [] then s else Run(Next(s, f, steps[0]), f, steps[1..])
  }

  /** Every removal of the run leaves the peer nothing too many. */
  predicate KeepsRemovals(s: System, f: Features, steps: seq<Step>)
    decreases |steps|
  {
    steps != [] ==>
      && (steps[0].Removes? ==> !LeavesWatched(s, f, steps[0].who, steps[0].nick, steps[0].accepted))
      && KeepsRemovals(Next(s, f, steps[0]), f, steps[1..])
  }

  predicate NoneAnew(steps: seq<Step>) {
    forall i :: 0 <= i < |steps| ==> !(steps[i].Registers? && !steps[i].keepsList)
  }

  /** Over any steps, whatever the two folds, the peer watches only stored nicks as long as no removal
      leaves it one; from a point where the lists are equal they stay equal until the peer starts anew. */
  lemma {:induction false} PeerFollows(s: System, f: Features, steps: seq<Step>)
    requires PeerInOrder(s) && Follows(s) && Unique(s.stored, f.mapping) && KeepsRemovals(s, f, steps)
    ensures var after := Run(s, f, steps);
            && Follows(after) && PeerInOrder(after) && Unique(after.stored, f.mapping)
            && (Synced(s) && NoneAnew(steps) ==> Synced(after))
    decreases |steps|
  {
    if steps != [] {
      StepKeepsFollowing(s, f, steps[0]);
      StepKeepsUnique(s, f, steps[0]);
      hide Unique, PeerInOrder, Follows, Synced, LeavesWatched, Next, Clashes;
      assert NoneAnew(steps) ==> NoneAnew(steps[1..]) && !(steps[0].Registers? && !steps[0].keepsList);
      PeerFollows(Next(s, f, steps[0]), f, steps[1..]);
    }
  }

  lemma {:induction false} TakeInTwo(watched: seq<Nick>, first: seq<Nick>, second: seq<Nick>)
    ensures var t := Take(watched, first);
            var u := Take(watched + t.added, second);
            Take(watched, first + second) == Taken(t.added + u.added, t.overflow + u.overflow, t.listed + u.listed)
    decreases |second|
  {
    hide Knows;
    if second == [] {
      assert first + second == first;
    } else {
      var n := |second| - 1;
      TakeInTwo(watched, first, second[..n]);
      assert (first + second)[..|first| + n] == first + second[..n];
      assert (first + second)[|first| + n] == second[n];
      var t := Take(watched, first);
      var u := Take(watched + t.added, second[..n]);
      KnownInTwo(watched, t.added, u.added, second[n]);
      assert t.added + (u.added + [second[n]]) == t.added + u.added + [second[n]];
      assert t.overflow + (u.overflow + [second[n]]) == t.overflow + u.overflow + [second[n]];
    }
  }

  lemma KnownInTwo(watched: seq<Nick>, before: seq<Nick>, now: seq<Nick>, nick: Nick)
    ensures Knows(watched, nick) || Knows(before + now, nick) <==> Knows(watched + before, nick) || Knows(now, nick)
  {
    KeysAdd(watched, before);
    KeysAdd(before, now);
    KnownByKey(watched, nick);
    KnownByKey(before + now, nick);
    KnownByKey(watched + before, nick);
    KnownByKey(now, nick);
    hide Keys, Knows;
  }

  lemma {:induction false} WithoutInTwo(stored: seq<Nick>, first: seq<Nick>, second: seq<Nick>, mapping: Casemapping.Kind)
    ensures WithoutEach(stored, first + second, mapping) == WithoutEach(WithoutEach(stored, first, mapping), second, mapping)
    decreases |second|
  {
    hide Without;
    if second == [] {
      assert first + second == first;
    } else {
      var n := |second| - 1;
      WithoutInTwo(stored, first, second[..n], mapping);
      assert (first + second)[..|first| + n] == first + second[..n];
      assert (first + second)[|first| + n] == second[n];
    }
  }

  /** A subscription may go out in several lines: the peer, the refusals and the client end up as if
      it were one. */
  lemma LinesAddUp(s: System, f: Features, first: seq<Nick>, second: seq<Nick>)
    ensures Deliver(Deliver(s, f, first), f, second) == Deliver(s, f, first + second)
  {
    hide Take, WithoutEach;
    TakeInTwo(s.watched, first, second);
    var t := Take(s.watched, first);
    var u := Take(s.watched + t.added, second);
    WithoutInTwo(s.stored, t.overflow, u.overflow, f.mapping);
    assert s.watched + t.added + u.added == s.watched + (t.added + u.added);
  }

  lemma BracketsFoldApart()
    ensures Casemapping.Equals(Casemapping.Rfc1459, "a[", "a{") && Key("a[") != Key("a{")
  {
    assert Casemapping.Normalize(Casemapping.Rfc1459, "a[") == "a{" == Casemapping.Normalize(Casemapping.Rfc1459, "a{");
    assert Key("a[")[1] == '[' && Key("a{")[1] == '{';
  }

  /** An accepted removal can leave a nick behind: under RFC 1459 the client drops `a[` when asked for
      `a{`, and the ASCII peer finds no such nick and goes on watching it. */
  lemma AcceptedRemovalLeavesOne(f: Features)
    requires f.mapping == Casemapping.Rfc1459
    ensures var s := System(["a["], true, ["a["]);
            PeerInOrder(s) && Synced(s) && LeavesWatched(s, f, Caller(true, true), "a{", true)
  {
    BracketsFoldApart();
    hide Casemapping.Equals, Key;
    assert ["a["][0] == "a[" && "a[" in ["a["];
    assert LeftBehind("a[", "a{", f.mapping, true);
  }
}
