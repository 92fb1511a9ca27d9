/**
 Bouncer playback: after a registration the client asks the bouncer to replay each conversation
 from the last time it saw it, then everything else. Writes can be refused at any point; the
 request stops there and is made again later. The main results: repeated requests add up to one
 uninterrupted run, and the catch-all `*` goes out at most once a registration.

 One network is modelled.
 */
module Playback {
  import Casemapping
  import opened Wrappers

  /** An instant, counted from the earliest one there is. */
  type Time = nat

  /** The earliest instant stands for no recorded time. */
  const NO_TIME: Time := 0

  datatype Row = Row(target: string, when: Time)

  datatype Stamp = Beginning | At(when: Time)

  /** One `PLAY target from` line. */
  datatype Line = Play(target: string, from: Stamp)

  const EVERYTHING := Play("*", Beginning)

  function StampAt(when: Time): Stamp {
    if when == NO_TIME then Beginning else At(when)
  }

  /** What the coordinator asks the rest of the client: how names fold, which are channels or
      services, which conversations are open (by folded name), and which channels already got
      their batch. */
  datatype Facts = Facts(
    mapping: Casemapping.Kind,
    channelTypes: set<char>,
    services: set<string>,
    open: set<string>,
    batchKept: set<string>,
    restored: seq<string>)
  {
    function Fold(name: string): string {
      Casemapping.Normalize(mapping, name)
    }

    predicate IsChannel(name: string) {
      name != "" && name[0] in channelTypes
    }

    predicate PersistableDirect(name: string) {
      name != "" && !IsChannel(name) && name !in services
    }
  }

  /** The coordinator's facts about one network. */
  datatype Coordinator = Coordinator(
    snapshot: seq<Row>,
    autojoin: seq<string>,
    joined: seq<string>,
    sentAll: bool,
    sentQueries: bool,
    sentTargets: set<string>)

  const FRESH := Coordinator([], [], [], false, false, {})

  /** The first row stored for a name, under the fold. */
  function RowOf(rows: seq<Row>, mapping: Casemapping.Kind, target: string): (r: Option<Row>)
    ensures r.Some? ==> r.value in rows && Casemapping.Equals(mapping, r.value.target, target)
    ensures r.None? ==> forall i :: 0 <= i < |rows| ==> !Casemapping.Equals(mapping, rows[i].target, target)
  {
    if rows == [] then None
    else if Casemapping.Equals(mapping, rows[0].target, target) then Some(rows[0])
    else RowOf(rows[1..], mapping, target)
  }

  function SnapshotTime(rows: seq<Row>, mapping: Casemapping.Kind, target: string): Option<Time> {
    if target == "" then None
    else
      match RowOf(rows, mapping, target)
      case Some(row) => Some(row.when)
      case None => None
  }

  // ----- the wire -----

  /** Whether the next write is refused. A pattern that has run out refuses no more. */
  predicate Refuses(answers: seq<bool>) {
    answers != [] && !answers[0]
  }

  function Rest(answers: seq<bool>): seq<bool> {
    if answers == [] then [] else answers[1..]
  }

  class Session {
    /** The answers the next writes get, first to last. */
    var answers: seq<bool>
    /** Every line accepted so far, oldest first. */
    var accepted: seq<Line>

    constructor (answers: seq<bool>)
      ensures this.answers == answers && accepted == []
    {
      this.answers, accepted := answers, [];
    }

    method SendPlay(line: Line) returns (sent: bool)
      modifies this
      ensures sent == !Refuses(old(answers)) && answers == Rest(old(answers))
      ensures accepted == old(accepted) + if sent then [line] else []
    {
      sent := answers == [] || answers[0];
      if answers != [] {
        answers := answers[1..];
      }
      if sent {
        accepted := accepted + [line];
      }
    }
  }

  // ----- one pass over the targets, as a function -----

  /** A line still wanted, under the folded name that marks it as asked. */
  datatype Candidate = Candidate(key: string, line: Line)

  function RowCandidates(f: Facts, rows: seq<Row>): seq<Candidate> {
    if rows == [] then []
    else
      [Candidate(f.Fold(rows[0].target), Play(rows[0].target, StampAt(rows[0].when)))]
      + RowCandidates(f, rows[1..])
  }

  predicate WantsDirect(f: Facts, rows: seq<Row>, nick: string) {
    f.PersistableDirect(nick) && SnapshotTime(rows, f.mapping, nick).None? && f.Fold(nick) in f.open
  }

  predicate WantsAutojoin(f: Facts, rows: seq<Row>, channel: string) {
    f.IsChannel(channel) && SnapshotTime(rows, f.mapping, channel).None?
  }

  function DirectCandidates(f: Facts, rows: seq<Row>, nicks: seq<string>): seq<Candidate> {
    if nicks == [] then []
    else if WantsDirect(f, rows, nicks[0]) then
      [Candidate(f.Fold(nicks[0]), Play(nicks[0], Beginning))] + DirectCandidates(f, rows, nicks[1..])
    else DirectCandidates(f, rows, nicks[1..])
  }

  function AutojoinCandidates(f: Facts, rows: seq<Row>, channels: seq<string>): seq<Candidate> {
    if channels == [] then []
    else if WantsAutojoin(f, rows, channels[0]) then
      [Candidate(f.Fold(channels[0]), Play(channels[0], Beginning))] + AutojoinCandidates(f, rows, channels[1..])
    else AutojoinCandidates(f, rows, channels[1..])
  }

  function Candidates(f: Facts, c: Coordinator): seq<Candidate> {
    RowCandidates(f, c.snapshot)
    + (DirectCandidates(f, c.snapshot, f.restored) + AutojoinCandidates(f, c.snapshot, c.autojoin))
  }

  /** What a run of writes did: the marks it left, the lines accepted, the answers not used, and
      whether it got to the end. */
  datatype Push = Push(targets: set<string>, lines: seq<Line>, answers: seq<bool>, done: bool)
  {
    function After(earlier: seq<Line>): Push {
      this.(lines := earlier + lines)
    }
  }

  function Drive(todo: seq<Candidate>, targets: set<string>, answers: seq<bool>): Push {
    if todo == [] then Push(targets, [], answers, true)
    else if todo[0].key in targets then Drive(todo[1..], targets, answers)
    else if Refuses(answers) then Push(targets, [], Rest(answers), false)
    else Drive(todo[1..], targets + {todo[0].key}, Rest(answers)).After([todo[0].line])
  }

  lemma AfterAgain(p: Push, earlier: seq<Line>, line: Line)
    ensures p.After([line]).After(earlier) == p.After(earlier + [line])
  {
  }

  /** One list of targets after another is one longer list, if the first ran through. */
  lemma {:induction false} DriveInTwo(first: seq<Candidate>, second: seq<Candidate>, targets: set<string>, answers: seq<bool>)
    ensures var p := Drive(first, targets, answers);
            Drive(first + second, targets, answers)
            == if p.done then Drive(second, p.targets, p.answers).After(p.lines) else p
    decreases |first|
  {
    if first == [] {
      assert first + second == second;
    } else {
      assert (first + second)[1..] == first[1..] + second;
      var key := first[0].key;
      if key in targets {
        DriveInTwo(first[1..], second, targets, answers);
      } else if !Refuses(answers) {
        DriveInTwo(first[1..], second, targets + {key}, Rest(answers));
      }
    }
  }

  /** The answer to one whole `request`: the coordinator after it, the lines accepted before the
      joined-channel tail, the tail's lines, and whether the part before the tail ran through. */
  datatype Reply = Reply(c: Coordinator, main: seq<Line>, tail: seq<Line>, answers: seq<bool>, through: bool)

  function Catchall(c: Coordinator, before: seq<Line>, answers: seq<bool>): Reply {
    if c.sentQueries then Reply(c, before, [], answers, true)
    else if Refuses(answers) then Reply(c, before, [], Rest(answers), false)
    else Reply(c.(sentQueries := true), before + [EVERYTHING], [], Rest(answers), true)
  }

  function Main(c: Coordinator, f: Facts, answers: seq<bool>): Reply {
    if c.snapshot == [] then
      if c.sentTargets != {} then Reply(c, [], [], answers, true)
      else if Refuses(answers) then Reply(c, [], [], Rest(answers), false)
      else Reply(c.(sentAll := true), [EVERYTHING], [], Rest(answers), true)
    else if c.sentQueries then Reply(c, [], [], answers, true)
    else
      var p := Drive(Candidates(f, c), c.sentTargets, answers);
      var c' := c.(sentTargets := p.targets);
      if p.done then Catchall(c', p.lines, p.answers) else Reply(c', p.lines, [], p.answers, false)
  }

  /** One joined channel's own request, made whether or not the channel was asked before. */
  function ChannelLine(c: Coordinator, f: Facts, channel: string): Line {
    match SnapshotTime(c.snapshot, f.mapping, channel)
    case Some(when) => Play(channel, StampAt(when))
    case None => Play(channel, Beginning)
  }

  predicate WantsChannel(f: Facts, channel: string) {
    f.IsChannel(channel) && f.Fold(channel) !in f.batchKept
  }

  function OneChannel(c: Coordinator, f: Facts, channel: string, answers: seq<bool>): Reply {
    if !WantsChannel(f, channel) then Reply(c, [], [], answers, true)
    else if Refuses(answers) then Reply(c, [], [], Rest(answers), true)
    else Reply(c.(sentTargets := c.sentTargets + {f.Fold(channel)}), [], [ChannelLine(c, f, channel)], Rest(answers), true)
  }

  /** The tail: each joined channel in turn, a refusal skipping only its own. */
  function Tail(c: Coordinator, f: Facts, channels: seq<string>, answers: seq<bool>): Reply
    decreases |channels|
  {
    if channels == [] then Reply(c, [], [], answers, true)
    else
      var one := OneChannel(c, f, channels[0], answers);
      var rest := Tail(one.c, f, channels[1..], one.answers);
      rest.(tail := one.tail + rest.tail)
  }

  function RequestReply(c: Coordinator, f: Facts, ready: bool, answers: seq<bool>): Reply {
    if !ready || c.sentAll then Reply(c, [], [], answers, false)
    else
      var r := Main(c, f, answers);
      if r.through then
        var t := Tail(r.c, f, c.joined, r.answers);
        t.(main := r.main)
      else r
  }

  function Rekey(c: Coordinator, mapping: Casemapping.Kind, oldTarget: string, newTarget: string): Coordinator {
    if oldTarget == "" || newTarget == "" then c
    else c.(snapshot := RekeyRows(c.snapshot, mapping, oldTarget, newTarget))
  }

  function IndexOf(rows: seq<Row>, mapping: Casemapping.Kind, target: string): (n: nat)
    ensures n <= |rows|
    ensures n < |rows| ==> Casemapping.Equals(mapping, rows[n].target, target)
    ensures forall i :: 0 <= i < n ==> !Casemapping.Equals(mapping, rows[i].target, target)
  {
    if rows == [] || Casemapping.Equals(mapping, rows[0].target, target) then 0
    else 1 + IndexOf(rows[1..], mapping, target)
  }

  /** The later of two times, where a row without a time never wins. */
  function Later(a: Time, b: Time): Time {
    if a != NO_TIME && (b == NO_TIME || a > b) then a else b
  }

  function RekeyRows(rows: seq<Row>, mapping: Casemapping.Kind, oldTarget: string, newTarget: string): seq<Row> {
    var n := IndexOf(rows, mapping, oldTarget);
    if n == |rows| then rows
    else if Casemapping.Equals(mapping, oldTarget, newTarget) then rows[n := rows[n].(target := newTarget)]
    else
      var others := rows[..n] + rows[n + 1..];
      var m := IndexOf(others, mapping, newTarget);
      if m < |others| then others[m := others[m].(when := Later(rows[n].when, others[m].when))]
      else others + [Row(newTarget, rows[n].when)]
  }

  // ----- the coordinator, updating its fields in place -----

  class PlaybackCoordinator {
    var snapshot: seq<Row>
    var autojoin: seq<string>
    var joined: seq<string>
    var sentAll: bool
    var sentQueries: bool
    var sentTargets: set<string>

    ghost function Model(): Coordinator
      reads this
    {
      Coordinator(snapshot, autojoin, joined, sentAll, sentQueries, sentTargets)
    }

    constructor ()
      ensures Model() == FRESH
    {
      snapshot, autojoin, joined := [], [], [];
      sentAll, sentQueries, sentTargets := false, false, {};
    }

    method OnRegistered(rows: seq<Row>, autojoinChannels: seq<string>)
      modifies this
      ensures Model() == old(Model()).(snapshot := rows, autojoin := autojoinChannels, joined := [])
    {
      snapshot, autojoin, joined := rows, autojoinChannels, [];
    }

    method OnLeftRegistration()
      modifies this
      ensures Model() == FRESH
    {
      snapshot, autojoin, joined := [], [], [];
      sentAll, sentQueries, sentTargets := false, false, {};
    }

    /** A NICK moves a row to the new name, or merges it into the row that name already has. */
    method RekeyTarget(mapping: Casemapping.Kind, oldTarget: string, newTarget: string)
      modifies this`snapshot
      ensures Model() == Rekey(old(Model()), mapping, oldTarget, newTarget)
    {
      hide Casemapping.Equals, IndexOf;
      if oldTarget == "" || newTarget == "" {
        return;
      }
      var rows := snapshot;
      var n := IndexOf(rows, mapping, oldTarget);
      if n == |rows| {
        return;
      }
      if Casemapping.Equals(mapping, oldTarget, newTarget) {
        snapshot := rows[n := rows[n].(target := newTarget)];
        return;
      }
      var when := rows[n].when;
      rows := rows[..n] + rows[n + 1..];
      var m := IndexOf(rows, mapping, newTarget);
      if m < |rows| {
        if when != NO_TIME && (rows[m].when == NO_TIME || when > rows[m].when) {
          rows := rows[m := rows[m].(when := when)];
        } else {
          assert rows[m := rows[m].(when := Later(when, rows[m].when))] == rows;
        }
      } else {
        rows := rows + [Row(newTarget, when)];
      }
      snapshot := rows;
    }

    predicate Covers(key: string)
      reads this
    {
      sentAll || sentQueries || key in sentTargets
    }

    /** Asks for every target not asked yet, in order: stored rows, open queries, autojoined
        channels, everything else, then the joined channels. The first refusal before the tail
        ends the call. */
    method Request(session: Session, f: Facts, ready: bool)
      modifies this, session
      ensures var r := RequestReply(old(Model()), f, ready, old(session.answers));
              && Model() == r.c && session.answers == r.answers
              && session.accepted == old(session.accepted) + r.main + r.tail
    {
      hide Drive, Tail, Candidates, Refuses, Rest;
      if !ready || sentAll {
        return;
      }
      if snapshot == [] {
        if sentTargets == {} {
          var sent := session.SendPlay(EVERYTHING);
          if !sent {
            return;
          }
          sentAll := true;
        }
      } else {
        var done := RequestSpecific(session, f);
        if !done {
          return;
        }
        if !sentQueries {
          var sent := session.SendPlay(EVERYTHING);
          if !sent {
            return;
          }
          sentQueries := true;
        }
      }
      RequestTail(session, f);
    }

    /** Asks for one named target, unless a mark covers it. False when the write was refused. */
    method Ask(session: Session, key: string, line: Line) returns (ok: bool)
      requires !sentAll && !sentQueries
      modifies this`sentTargets, session
      ensures key in old(sentTargets) ==>
          ok && sentTargets == old(sentTargets)
          && session.answers == old(session.answers) && session.accepted == old(session.accepted)
      ensures key !in old(sentTargets) ==>
          && ok == !Refuses(old(session.answers)) && session.answers == Rest(old(session.answers))
          && sentTargets == old(sentTargets) + (if ok then {key} else {})
          && session.accepted == old(session.accepted) + (if ok then [line] else [])
    {
      ok := true;
      if !Covers(key) {
        ok := session.SendPlay(line);
        if ok {
          sentTargets := sentTargets + {key};
        }
      }
    }

    method RequestRows(session: Session, f: Facts) returns (done: bool)
      requires !sentAll && !sentQueries
      modifies this`sentTargets, session
      ensures var p := Drive(RowCandidates(f, snapshot), old(sentTargets), old(session.answers));
              && done == p.done && sentTargets == p.targets
              && session.answers == p.answers && session.accepted == old(session.accepted) + p.lines
    {
      ghost var whole := Drive(RowCandidates(f, snapshot), sentTargets, session.answers);
      ghost var lines: seq<Line> := [];
      var i := 0;
      while i < |snapshot|
        invariant 0 <= i <= |snapshot|
        invariant whole == Drive(RowCandidates(f, snapshot[i..]), sentTargets, session.answers).After(lines)
        invariant session.accepted == old(session.accepted) + lines
      {
        var row := snapshot[i];
        var line := Play(row.target, StampAt(row.when));
        assert snapshot[i..][1..] == snapshot[i + 1..];
        ghost var asked := f.Fold(row.target) in sentTargets;
        var ok := Ask(session, f.Fold(row.target), line);
        if !ok {
          return false;
        }
        AfterAgain(Drive(RowCandidates(f, snapshot[i + 1..]), sentTargets, session.answers), lines, line);
        lines := if asked then lines else lines + [line];
        i := i + 1;
      }
      return true;
    }

    method RequestDirects(session: Session, f: Facts) returns (done: bool)
      requires !sentAll && !sentQueries
      modifies this`sentTargets, session
      ensures var p := Drive(DirectCandidates(f, snapshot, f.restored), old(sentTargets), old(session.answers));
              && done == p.done && sentTargets == p.targets
              && session.answers == p.answers && session.accepted == old(session.accepted) + p.lines
    {
      ghost var whole := Drive(DirectCandidates(f, snapshot, f.restored), sentTargets, session.answers);
      ghost var lines: seq<Line> := [];
      var i := 0;
      while i < |f.restored|
        invariant 0 <= i <= |f.restored|
        invariant whole == Drive(DirectCandidates(f, snapshot, f.restored[i..]), sentTargets, session.answers).After(lines)
        invariant session.accepted == old(session.accepted) + lines
      {
        var nick := f.restored[i];
        assert f.restored[i..][1..] == f.restored[i + 1..];
        if WantsDirect(f, snapshot, nick) {
          ghost var asked := f.Fold(nick) in sentTargets;
          var ok := Ask(session, f.Fold(nick), Play(nick, Beginning));
          if !ok {
            return false;
          }
          AfterAgain(Drive(DirectCandidates(f, snapshot, f.restored[i + 1..]), sentTargets, session.answers), lines, Play(nick, Beginning));
          lines := if asked then lines else lines + [Play(nick, Beginning)];
        }
        i := i + 1;
      }
      return true;
    }

    method RequestAutojoins(session: Session, f: Facts) returns (done: bool)
      requires !sentAll && !sentQueries
      modifies this`sentTargets, session
      ensures var p := Drive(AutojoinCandidates(f, snapshot, autojoin), old(sentTargets), old(session.answers));
              && done == p.done && sentTargets == p.targets
              && session.answers == p.answers && session.accepted == old(session.accepted) + p.lines
    {
      ghost var whole := Drive(AutojoinCandidates(f, snapshot, autojoin), sentTargets, session.answers);
      ghost var lines: seq<Line> := [];
      var i := 0;
      while i < |autojoin|
        invariant 0 <= i <= |autojoin|
        invariant whole == Drive(AutojoinCandidates(f, snapshot, autojoin[i..]), sentTargets, session.answers).After(lines)
        invariant session.accepted == old(session.accepted) + lines
      {
        var channel := autojoin[i];
        assert autojoin[i..][1..] == autojoin[i + 1..];
        if WantsAutojoin(f, snapshot, channel) {
          ghost var asked := f.Fold(channel) in sentTargets;
          var ok := Ask(session, f.Fold(channel), Play(channel, Beginning));
          if !ok {
            return false;
          }
          AfterAgain(Drive(AutojoinCandidates(f, snapshot, autojoin[i + 1..]), sentTargets, session.answers), lines, Play(channel, Beginning));
          lines := if asked then lines else lines + [Play(channel, Beginning)];
        }
        i := i + 1;
      }
      return true;
    }

    /** The three passes over named targets. Returns whether none of their writes was refused.
        Once everything was asked for, every target is covered. */
    method RequestSpecific(session: Session, f: Facts) returns (done: bool)
      requires !sentAll
      modifies this`sentTargets, session
      ensures old(sentQueries) ==>
          && done && Model() == old(Model())
          && session.answers == old(session.answers) && session.accepted == old(session.accepted)
      ensures !old(sentQueries) ==>
          var p := Drive(Candidates(f, old(Model())), old(sentTargets), old(session.answers));
          && done == p.done && Model() == old(Model()).(sentTargets := p.targets)
          && session.answers == p.answers && session.accepted == old(session.accepted) + p.lines
    {
      hide Drive, RowCandidates, DirectCandidates, AutojoinCandidates, Refuses, Rest;
      if sentQueries {
        return true;
      }
      ghost var directs := DirectCandidates(f, snapshot, f.restored);
      ghost var autos := AutojoinCandidates(f, snapshot, autojoin);
      DriveInTwo(RowCandidates(f, snapshot), directs + autos, sentTargets, session.answers);
      done := RequestRows(session, f);
      if done {
        DriveInTwo(directs, autos, sentTargets, session.answers);
        done := RequestDirects(session, f);
        if done {
          done := RequestAutojoins(session, f);
        }
      }
    }

    method RequestTail(session: Session, f: Facts)
      modifies this`sentTargets, session
      ensures var r := Tail(old(Model()), f, joined, old(session.answers));
              && Model() == r.c && session.answers == r.answers
              && session.accepted == old(session.accepted) + r.tail
    {
      hide OneChannel;
      ghost var whole := Tail(Model(), f, joined, session.answers);
      ghost var lines: seq<Line> := [];
      var i := 0;
      while i < |joined|
        invariant 0 <= i <= |joined|
        invariant session.accepted == old(session.accepted) + lines
        invariant var rest := Tail(Model(), f, joined[i..], session.answers);
                  whole == rest.(tail := lines + rest.tail)
      {
        ghost var before := Tail(Model(), f, joined[i..], session.answers);
        ghost var one := OneChannel(Model(), f, joined[i], session.answers);
        assert joined[i..][1..] == joined[i + 1..];
        RequestChannel(session, f, joined[i], true);
        ghost var rest := Tail(Model(), f, joined[i + 1..], session.answers);
        assert before == rest.(tail := one.tail + rest.tail);
        assert lines + (one.tail + rest.tail) == lines + one.tail + rest.tail;
        lines := lines + one.tail;
        i := i + 1;
      }
    }

    /** Asks for one joined channel, until a batch for it is kept. */
    method RequestChannel(session: Session, f: Facts, channel: string, ready: bool)
      modifies this`sentTargets, session
      ensures var r := if ready then OneChannel(old(Model()), f, channel, old(session.answers))
                       else Reply(old(Model()), [], [], old(session.answers), true);
              && Model() == r.c && session.answers == r.answers
              && session.accepted == old(session.accepted) + r.tail
    {
      if !ready || !f.IsChannel(channel) || f.Fold(channel) in f.batchKept {
        return;
      }
      var when := SnapshotTime(snapshot, f.mapping, channel);
      var stamp := if when.Some? then StampAt(when.value) else Beginning;
      var sent := session.SendPlay(Play(channel, stamp));
      if sent {
        sentTargets := sentTargets + {f.Fold(channel)};
      }
    }

    /** Remembers a channel we are in, once under the fold. */
    method NoteJoined(mapping: Casemapping.Kind, channel: string)
      modifies this`joined
      ensures Model() == WithJoined(old(Model()), mapping, channel)
    {
      if channel == "" || exists i :: 0 <= i < |joined| && Casemapping.Equals(mapping, joined[i], channel) {
        return;
      }
      joined := joined + [channel];
    }
  }

  function WithJoined(c: Coordinator, mapping: Casemapping.Kind, channel: string): Coordinator {
    if channel == "" || exists i :: 0 <= i < |c.joined| && Casemapping.Equals(mapping, c.joined[i], channel) then c
    else c.(joined := c.joined + [channel])
  }

  // ----- repeated requests add up to one -----

  /** The lines a list of targets still calls for: one for each fold not marked yet. */
  function Plan(todo: seq<Candidate>, targets: set<string>): seq<Line> {
    if todo == [] then []
    else if todo[0].key in targets then Plan(todo[1..], targets)
    else [todo[0].line] + Plan(todo[1..], targets + {todo[0].key})
  }

  /** Everything a request has still to send before the tail, over a non-empty snapshot. */
  function Left(c: Coordinator, f: Facts): seq<Line> {
    if c.sentQueries then [] else Plan(Candidates(f, c), c.sentTargets) + [EVERYTHING]
  }

  predicate NoneRefused(answers: seq<bool>) {
    forall i :: 0 <= i < |answers| ==> answers[i]
  }

  /** A run of writes and what it left undone make up what there was to do. */
  lemma {:induction false} DriveConserves(todo: seq<Candidate>, targets: set<string>, answers: seq<bool>)
    ensures var p := Drive(todo, targets, answers);
            && targets <= p.targets
            && p.lines + Plan(todo, p.targets) == Plan(todo, targets)
            && (p.done ==> Plan(todo, p.targets) == [] && forall i :: 0 <= i < |todo| ==> todo[i].key in p.targets)
            && (NoneRefused(answers) ==> p.done && NoneRefused(p.answers))
    decreases |todo|
  {
    if todo == [] {
    } else if todo[0].key in targets {
      DriveConserves(todo[1..], targets, answers);
    } else if !Refuses(answers) {
      DriveConserves(todo[1..], targets + {todo[0].key}, Rest(answers));
      var rest := Drive(todo[1..], targets + {todo[0].key}, Rest(answers));
      assert [todo[0].line] + rest.lines + Plan(todo[1..], rest.targets)
          == [todo[0].line] + (rest.lines + Plan(todo[1..], rest.targets));
    }
  }

  lemma MainConserves(c: Coordinator, f: Facts, answers: seq<bool>)
    requires c.snapshot != [] && !c.sentAll
    ensures var r := Main(c, f, answers);
            && r.c == c.(sentTargets := r.c.sentTargets, sentQueries := r.c.sentQueries)
            && (c.sentQueries ==> r.c.sentQueries)
            && r.main + Left(r.c, f) == Left(c, f)
            && r.through == r.c.sentQueries
            && (NoneRefused(answers) ==> r.through)
  {
    DriveConserves(Candidates(f, c), c.sentTargets, answers);
    var p := Drive(Candidates(f, c), c.sentTargets, answers);
    if !c.sentQueries {
      assert p.lines + (Plan(Candidates(f, c), p.targets) + [EVERYTHING])
          == p.lines + Plan(Candidates(f, c), p.targets) + [EVERYTHING];
    }
  }

  lemma {:induction false} TailOnlyMarks(c: Coordinator, f: Facts, channels: seq<string>, answers: seq<bool>)
    ensures var t := Tail(c, f, channels, answers);
            t.c == c.(sentTargets := t.c.sentTargets) && c.sentTargets <= t.c.sentTargets && t.through
    decreases |channels|
  {
    if channels != [] {
      var one := OneChannel(c, f, channels[0], answers);
      TailOnlyMarks(one.c, f, channels[1..], one.answers);
    }
  }

  lemma RequestConserves(c: Coordinator, f: Facts, ready: bool, answers: seq<bool>)
    requires c.snapshot != [] && !c.sentAll
    ensures var r := RequestReply(c, f, ready, answers);
            && r.c == c.(sentTargets := r.c.sentTargets, sentQueries := r.c.sentQueries)
            && (c.sentQueries ==> r.c.sentQueries)
            && r.main + Left(r.c, f) == Left(c, f)
            && (r.through ==> r.c.sentQueries)
            && (r.tail != [] ==> r.c.sentQueries)
            && (ready && NoneRefused(answers) ==> r.through)
  {
    MainConserves(c, f, answers);
    var r := Main(c, f, answers);
    if ready && r.through {
      TailOnlyMarks(r.c, f, c.joined, r.answers);
    }
  }

  datatype Call = Call(ready: bool, answers: seq<bool>)

  /** Repeated calls of `request` with nothing else in between: the lines each accepted before its
      tail, end to end, and the coordinator left at the end. */
  function Calls(c: Coordinator, f: Facts, calls: seq<Call>): (Coordinator, seq<Line>)
    decreases |calls|
  {
    if calls == [] then (c, [])
    else
      var r := RequestReply(c, f, calls[0].ready, calls[0].answers);
      var (last, lines) := Calls(r.c, f, calls[1..]);
      (last, r.main + lines)
  }

  predicate KeysAreFolds(f: Facts, todo: seq<Candidate>) {
    forall i :: 0 <= i < |todo| ==> todo[i].key == f.Fold(todo[i].line.target)
  }

  predicate DistinctTargets(f: Facts, lines: seq<Line>) {
    forall i, j :: 0 <= i < j < |lines| ==> f.Fold(lines[i].target) != f.Fold(lines[j].target)
  }

  lemma {:induction false} PlanIsDistinct(f: Facts, todo: seq<Candidate>, targets: set<string>)
    requires KeysAreFolds(f, todo)
    ensures DistinctTargets(f, Plan(todo, targets))
    ensures forall i :: 0 <= i < |Plan(todo, targets)| ==>
              && f.Fold(Plan(todo, targets)[i].target) !in targets
              && exists n :: 0 <= n < |todo| && todo[n].line == Plan(todo, targets)[i]
    decreases |todo|
  {
    if todo != [] {
      var key := todo[0].key;
      var inner := if key in targets then targets else targets + {key};
      PlanIsDistinct(f, todo[1..], inner);
      var rest := Plan(todo[1..], inner);
      forall i | 0 <= i < |rest|
        ensures exists n :: 0 <= n < |todo| && todo[n].line == rest[i]
      {
        var n :| 0 <= n < |todo[1..]| && todo[1..][n].line == rest[i];
        assert todo[n + 1].line == rest[i];
      }
      if key !in targets {
        assert todo[0].line == Plan(todo, targets)[0];
      }
    }
  }

  /** Names that may be asked for: none is the catch-all itself. */
  predicate NoneIsCatchall(names: seq<string>) {
    forall i :: 0 <= i < |names| ==> names[i] != "*"
  }

  predicate RowsNamed(rows: seq<Row>) {
    forall i :: 0 <= i < |rows| ==> rows[i].target != "*"
  }

  predicate FactsNamed(f: Facts) {
    '*' !in f.channelTypes && NoneIsCatchall(f.restored)
  }

  lemma {:induction false} RowCandidatesNamed(f: Facts, rows: seq<Row>)
    ensures KeysAreFolds(f, RowCandidates(f, rows))
    ensures rows != [] ==> RowCandidates(f, rows) != []
    ensures RowsNamed(rows) ==> forall i :: 0 <= i < |RowCandidates(f, rows)| ==> RowCandidates(f, rows)[i].line.target != "*"
  {
    if rows != [] {
      RowCandidatesNamed(f, rows[1..]);
    }
  }

  lemma {:induction false} DirectCandidatesNamed(f: Facts, rows: seq<Row>, nicks: seq<string>)
    ensures KeysAreFolds(f, DirectCandidates(f, rows, nicks))
    ensures NoneIsCatchall(nicks) ==>
      forall i :: 0 <= i < |DirectCandidates(f, rows, nicks)| ==> DirectCandidates(f, rows, nicks)[i].line.target != "*"
  {
    if nicks != [] {
      DirectCandidatesNamed(f, rows, nicks[1..]);
    }
  }

  lemma {:induction false} AutojoinCandidatesNamed(f: Facts, rows: seq<Row>, channels: seq<string>)
    ensures KeysAreFolds(f, AutojoinCandidates(f, rows, channels))
    ensures '*' !in f.channelTypes ==>
      forall i :: 0 <= i < |AutojoinCandidates(f, rows, channels)| ==> AutojoinCandidates(f, rows, channels)[i].line.target != "*"
  {
    if channels != [] {
      AutojoinCandidatesNamed(f, rows, channels[1..]);
    }
  }

  lemma CandidatesNamed(f: Facts, c: Coordinator)
    ensures KeysAreFolds(f, Candidates(f, c))
    ensures c.snapshot != [] ==> Candidates(f, c) != []
    ensures RowsNamed(c.snapshot) && FactsNamed(f) ==>
      forall i :: 0 <= i < |Candidates(f, c)| ==> Candidates(f, c)[i].line.target != "*"
  {
    RowCandidatesNamed(f, c.snapshot);
    DirectCandidatesNamed(f, c.snapshot, f.restored);
    AutojoinCandidatesNamed(f, c.snapshot, c.autojoin);
  }

  lemma OnlyStarFoldsToStar(f: Facts, name: string)
    ensures f.Fold(name) == f.Fold("*") <==> name == "*"
  {
    if f.Fold(name) == f.Fold("*") {
      assert |f.Fold(name)| == |name| == 1;
      assert f.Fold(name)[0] == Casemapping.NormalizedCharacter(name[0], f.mapping);
      assert f.Fold("*")[0] == '*';
    }
  }

  /** Resume: whatever writes are refused over repeated requests, the lines accepted before the
      joined-channel tail are a prefix of the uninterrupted run, which names no target twice. They
      are all of it once a call runs through, and a call nothing refuses does. */
  lemma {:induction false} RequestsResume(c: Coordinator, f: Facts, calls: seq<Call>)
    requires c.snapshot != [] && !c.sentAll
    ensures var (last, lines) := Calls(c, f, calls);
            var whole := RequestReply(c, f, true, []).main;
            && lines <= whole
            && (last.sentQueries ==> lines == whole)
            && (RowsNamed(c.snapshot) && FactsNamed(f) ==> DistinctTargets(f, whole))
            && ((exists i :: 0 <= i < |calls| && calls[i].ready && NoneRefused(calls[i].answers)) ==> last.sentQueries)
  {
    CallsConserve(c, f, calls);
    RequestConserves(c, f, true, []);
    var whole := RequestReply(c, f, true, []).main;
    assert whole == Left(c, f);
    if RowsNamed(c.snapshot) && FactsNamed(f) {
      CandidatesNamed(f, c);
      PlanIsDistinct(f, Candidates(f, c), c.sentTargets);
      var plan := Plan(Candidates(f, c), c.sentTargets);
      forall i | 0 <= i < |plan|
        ensures f.Fold(plan[i].target) != f.Fold("*")
      {
        OnlyStarFoldsToStar(f, plan[i].target);
      }
    }
  }

  lemma {:induction false} CallsConserve(c: Coordinator, f: Facts, calls: seq<Call>)
    requires c.snapshot != [] && !c.sentAll
    ensures var (last, lines) := Calls(c, f, calls);
            && lines + Left(last, f) == Left(c, f)
            && (c.sentQueries ==> last.sentQueries)
            && ((exists i :: 0 <= i < |calls| && calls[i].ready && NoneRefused(calls[i].answers)) ==> last.sentQueries)
    decreases |calls|
  {
    hide RequestReply, Left;
    if calls != [] {
      RequestConserves(c, f, calls[0].ready, calls[0].answers);
      var r := RequestReply(c, f, calls[0].ready, calls[0].answers);
      CallsConserve(r.c, f, calls[1..]);
      var (last, lines) := Calls(r.c, f, calls[1..]);
      assert r.main + lines + Left(last, f) == r.main + (lines + Left(last, f));
      if i :| 0 < i < |calls| && calls[i].ready && NoneRefused(calls[i].answers) {
        assert calls[1..][i - 1] == calls[i];
      }
    }
  }

  // ----- the catch-all goes out once -----

  datatype Event =
    | Registered(rows: seq<Row>, autojoin: seq<string>)
    | Requested(f: Facts, ready: bool, answers: seq<bool>)
    | ChannelRequested(f: Facts, channel: string, answers: seq<bool>)
    | Rekeyed(mapping: Casemapping.Kind, oldTarget: string, newTarget: string)
    | JoinedChannel(mapping: Casemapping.Kind, channel: string)
    | SnapshotDropped

  predicate EventNamed(e: Event) {
    match e
    case Registered(rows, _) => RowsNamed(rows)
    case Requested(f, _, _) => FactsNamed(f)
    case ChannelRequested(f, _, _) => FactsNamed(f)
    case Rekeyed(_, _, newTarget) => newTarget != "*"
    case _ => true
  }

  /** The coordinator after an event and the lines it had accepted. */
  function Handle(c: Coordinator, e: Event): (Coordinator, seq<Line>) {
    match e
    case Registered(rows, autojoin) => (c.(snapshot := rows, autojoin := autojoin, joined := []), [])
    case Requested(f, ready, answers) =>
      var r := RequestReply(c, f, ready, answers);
      (r.c, r.main + r.tail)
    case ChannelRequested(f, channel, answers) =>
      var r := OneChannel(c, f, channel, answers);
      (r.c, r.tail)
    case Rekeyed(mapping, oldTarget, newTarget) => (Rekey(c, mapping, oldTarget, newTarget), [])
    case JoinedChannel(mapping, channel) => (WithJoined(c, mapping, channel), [])
    case SnapshotDropped => (c.(snapshot := []), [])
  }

  function HandleAll(c: Coordinator, events: seq<Event>): (Coordinator, seq<Line>) {
    if events == [] then (c, [])
    else
      var n := |events| - 1;
      var (before, lines) := HandleAll(c, events[..n]);
      var (after, more) := Handle(before, events[n]);
      (after, lines + more)
  }

  function Catchalls(lines: seq<Line>): nat {
    if lines == [] then 0
    else Catchalls(lines[..|lines| - 1]) + if lines[|lines| - 1].target == "*" then 1 else 0
  }

  lemma {:induction false} CatchallsAdd(left: seq<Line>, right: seq<Line>)
    ensures Catchalls(left + right) == Catchalls(left) + Catchalls(right)
    decreases |right|
  {
    if right == [] {
      assert left + right == left;
    } else {
      var n := |right| - 1;
      assert (left + right)[..|left| + n] == left + right[..n];
      CatchallsAdd(left, right[..n]);
    }
  }

  lemma {:induction false} NoCatchalls(lines: seq<Line>)
    requires forall i :: 0 <= i < |lines| ==> lines[i].target != "*"
    ensures Catchalls(lines) == 0
  {
    if lines != [] {
      NoCatchalls(lines[..|lines| - 1]);
    }
  }

  /** The marks count the catch-alls sent: one mark at most, and the second kind only after some
      target was asked for by name. */
  predicate CatchallInv(c: Coordinator, sent: nat) {
    && sent == Flag(c.sentAll) + Flag(c.sentQueries)
    && !(c.sentAll && c.sentQueries)
    && (c.sentQueries ==> c.sentTargets != {})
    && RowsNamed(c.snapshot)
  }

  lemma {:induction false} TailHasNoCatchall(c: Coordinator, f: Facts, channels: seq<string>, answers: seq<bool>)
    requires '*' !in f.channelTypes
    ensures Catchalls(Tail(c, f, channels, answers).tail) == 0
    decreases |channels|
  {
    if channels != [] {
      var one := OneChannel(c, f, channels[0], answers);
      TailHasNoCatchall(one.c, f, channels[1..], one.answers);
      NoCatchalls(one.tail);
      CatchallsAdd(one.tail, Tail(one.c, f, channels[1..], one.answers).tail);
    }
  }

  lemma {:induction false} DriveLinesAreAsked(todo: seq<Candidate>, targets: set<string>, answers: seq<bool>)
    requires forall i :: 0 <= i < |todo| ==> todo[i].line.target != "*"
    ensures Catchalls(Drive(todo, targets, answers).lines) == 0
    decreases |todo|
  {
    if todo == [] {
    } else if todo[0].key in targets {
      DriveLinesAreAsked(todo[1..], targets, answers);
    } else if !Refuses(answers) {
      DriveLinesAreAsked(todo[1..], targets + {todo[0].key}, Rest(answers));
      NoCatchalls([todo[0].line]);
      CatchallsAdd([todo[0].line], Drive(todo[1..], targets + {todo[0].key}, Rest(answers)).lines);
    }
  }

  lemma MainKeepsCatchallInv(c: Coordinator, f: Facts, answers: seq<bool>, sent: nat)
    requires CatchallInv(c, sent) && FactsNamed(f) && !c.sentAll
    ensures var r := Main(c, f, answers);
            CatchallInv(r.c, sent + Catchalls(r.main)) && r.c.joined == c.joined
  {
    assert Catchalls([EVERYTHING]) == 1;
    if c.snapshot != [] && !c.sentQueries {
      CandidatesNamed(f, c);
      DriveConserves(Candidates(f, c), c.sentTargets, answers);
      DriveLinesAreAsked(Candidates(f, c), c.sentTargets, answers);
      var p := Drive(Candidates(f, c), c.sentTargets, answers);
      CatchallsAdd(p.lines, [EVERYTHING]);
      if p.done {
        assert Candidates(f, c)[0].key in p.targets;
      }
    }
  }

  lemma RekeyKeepsNames(rows: seq<Row>, mapping: Casemapping.Kind, oldTarget: string, newTarget: string)
    requires RowsNamed(rows) && newTarget != "*"
    ensures RowsNamed(RekeyRows(rows, mapping, oldTarget, newTarget))
  {
  }

  lemma EventKeepsCatchallInv(c: Coordinator, e: Event, sent: nat)
    requires CatchallInv(c, sent) && EventNamed(e)
    ensures var (after, lines) := Handle(c, e);
            CatchallInv(after, sent + Catchalls(lines))
  {
    match e
    case Requested(f, ready, answers) =>
      if ready && !c.sentAll {
        MainKeepsCatchallInv(c, f, answers, sent);
        var r := Main(c, f, answers);
        if r.through {
          TailOnlyMarks(r.c, f, c.joined, r.answers);
          TailHasNoCatchall(r.c, f, c.joined, r.answers);
        }
        var whole := RequestReply(c, f, ready, answers);
        CatchallsAdd(whole.main, whole.tail);
      }
    case ChannelRequested(f, channel, answers) =>
      NoCatchalls(OneChannel(c, f, channel, answers).tail);
    case Rekeyed(mapping, oldTarget, newTarget) =>
      RekeyKeepsNames(c.snapshot, mapping, oldTarget, newTarget);
    case _ =>
  }

  /** Between two times the registration is left, `*` is accepted at most once, whatever is
      registered, requested, joined, renamed or dropped, and whatever is refused. */
  lemma {:induction false} CatchallAtMostOnce(events: seq<Event>)
    requires forall i :: 0 <= i < |events| ==> EventNamed(events[i])
    ensures var (c, lines) := HandleAll(FRESH, events);
            CatchallInv(c, Catchalls(lines)) && Catchalls(lines) <= 1
  {
    if events != [] {
      var n := |events| - 1;
      CatchallAtMostOnce(events[..n]);
      var (before, lines) := HandleAll(FRESH, events[..n]);
      EventKeepsCatchallInv(before, events[n], Catchalls(lines));
      var (after, more) := Handle(before, events[n]);
      CatchallsAdd(lines, more);
    }
  }

  // ----- a rename keeps what the snapshot is for -----

  predicate DistinctRows(rows: seq<Row>, mapping: Casemapping.Kind) {
    forall i, j :: 0 <= i < j < |rows| ==> !Casemapping.Equals(mapping, rows[i].target, rows[j].target)
  }

  /** The newest time recorded, or `NO_TIME`. */
  function Newest(rows: seq<Row>): Time {
    if rows == [] then NO_TIME
    else Later(rows[|rows| - 1].when, Newest(rows[..|rows| - 1]))
  }

  lemma {:induction false} NewestIsTheLatest(rows: seq<Row>)
    ensures forall i :: 0 <= i < |rows| ==> rows[i].when <= Newest(rows)
    ensures Newest(rows) == NO_TIME || exists i :: 0 <= i < |rows| && rows[i].when == Newest(rows)
  {
    if rows != [] {
      NewestIsTheLatest(rows[..|rows| - 1]);
    }
  }

  lemma RekeyKeepsDistinct(rows: seq<Row>, mapping: Casemapping.Kind, oldTarget: string, newTarget: string)
    requires DistinctRows(rows, mapping)
    ensures DistinctRows(RekeyRows(rows, mapping, oldTarget, newTarget), mapping)
  {
    var renamed := RekeyRows(rows, mapping, oldTarget, newTarget);
    var n := IndexOf(rows, mapping, oldTarget);
    if n < |rows| && !Casemapping.Equals(mapping, oldTarget, newTarget) {
      var others := rows[..n] + rows[n + 1..];
      assert DistinctRows(others, mapping);
      var m := IndexOf(others, mapping, newTarget);
      if m < |others| {
        forall i | 0 <= i < |others|
          ensures renamed[i].target == others[i].target
        {
        }
      }
    }
  }

  /** Row `n` is taken out: the rest is as new as the whole, but for that row. */
  lemma {:induction false} TakenOut(rows: seq<Row>, n: nat)
    requires n < |rows|
    ensures Newest(rows) == Later(rows[n].when, Newest(rows[..n] + rows[n + 1..]))
  {
    var last := |rows| - 1;
    var others := rows[..n] + rows[n + 1..];
    if n == last {
      assert others == rows[..last];
    } else {
      TakenOut(rows[..last], n);
      assert others[..|others| - 1] == rows[..last][..n] + rows[..last][n + 1..];
      assert others[|others| - 1] == rows[last];
    }
  }

  /** Row `m` gets a time: the rows are as new as before, or as that time. */
  lemma {:induction false} GivenTime(rows: seq<Row>, m: nat, when: Time)
    requires m < |rows|
    ensures Newest(rows[m := rows[m].(when := Later(when, rows[m].when))]) == Later(when, Newest(rows))
  {
    var last := |rows| - 1;
    var given := rows[m := rows[m].(when := Later(when, rows[m].when))];
    if m == last {
      assert given[..last] == rows[..last];
    } else {
      GivenTime(rows[..last], m, when);
      assert given[..last] == rows[..last][m := given[m]];
      assert given[last] == rows[last];
    }
  }

  lemma {:induction false} GivenName(rows: seq<Row>, n: nat, target: string)
    requires n < |rows|
    ensures Newest(rows[n := rows[n].(target := target)]) == Newest(rows)
  {
    var last := |rows| - 1;
    var given := rows[n := rows[n].(target := target)];
    if n == last {
      assert given[..last] == rows[..last];
    } else {
      GivenName(rows[..last], n, target);
      assert given[..last] == rows[..last][n := given[n]];
    }
  }

  /** Row `n` is taken out and its time goes into row `m` of the rest. */
  lemma MergedKeepsNewest(rows: seq<Row>, n: nat, m: nat)
    requires n < |rows| && m < |rows| - 1
    ensures var others := rows[..n] + rows[n + 1..];
            Newest(others[m := others[m].(when := Later(rows[n].when, others[m].when))]) == Newest(rows)
  {
    var others := rows[..n] + rows[n + 1..];
    TakenOut(rows, n);
    GivenTime(others, m, rows[n].when);
    hide Newest;
  }

  /** Row `n` is taken out and put last under another name. */
  lemma MovedKeepsNewest(rows: seq<Row>, n: nat, target: string)
    requires n < |rows|
    ensures Newest(rows[..n] + rows[n + 1..] + [Row(target, rows[n].when)]) == Newest(rows)
  {
    var others := rows[..n] + rows[n + 1..];
    TakenOut(rows, n);
    assert (others + [Row(target, rows[n].when)])[..|others|] == others;
  }

  lemma RekeyKeepsNewest(rows: seq<Row>, mapping: Casemapping.Kind, oldTarget: string, newTarget: string)
    ensures Newest(RekeyRows(rows, mapping, oldTarget, newTarget)) == Newest(rows)
  {
    hide Casemapping.Equals, Newest, Later, IndexOf;
    var n := IndexOf(rows, mapping, oldTarget);
    if n < |rows| {
      GivenName(rows, n, newTarget);
      MovedKeepsNewest(rows, n, newTarget);
      var m := IndexOf(rows[..n] + rows[n + 1..], mapping, newTarget);
      if m < |rows| - 1 {
        MergedKeepsNewest(rows, n, m);
      }
    }
  }

  /** A NICK keeps the snapshot free of duplicates, keeps it non-empty, and keeps its newest time,
      even when two rows merge into one. */
  lemma RekeyKeepsTheSnapshot(rows: seq<Row>, mapping: Casemapping.Kind, oldTarget: string, newTarget: string)
    requires DistinctRows(rows, mapping)
    ensures var renamed := RekeyRows(rows, mapping, oldTarget, newTarget);
            && DistinctRows(renamed, mapping)
            && (renamed == [] <==> rows == [])
            && Newest(renamed) == Newest(rows)
  {
    RekeyKeepsDistinct(rows, mapping, oldTarget, newTarget);
    RekeyKeepsNewest(rows, mapping, oldTarget, newTarget);
  }
}
