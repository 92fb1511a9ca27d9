/**
 Chathistory catch-up: after a registration the client asks for what each restored query missed,
 and asks the server which other queries have news (TARGETS, in pages), then asks for those too.
 Pages arrive, fail and are refused in any order. The main result is that the whole exchange is
 bounded: four TARGETS requests at most, and one request for each query.

 One network is modelled.
 */
module CatchUp {
  import Casemapping
  import opened Playback
  import opened Wrappers

  /** One accepted CHATHISTORY request. A query is named by its folded name. */
  datatype Ask =
    | AskTargets(lower: int, upper: int)
    | AskLatest(key: string)
    | AskAfter(key: string, when: int)

  const SECOND := 1000
  const FAR_FUTURE := 253_370_764_800_000

  /** What the coordinator asks the rest of the client, at the time of one event. */
  datatype Context = Context(
    mapping: Casemapping.Kind,
    channelTypes: set<char>,
    services: set<string>,
    snapshot: seq<Row>,
    restored: seq<string>,
    dismissed: seq<string>,
    currentNick: string,
    logged: set<string>)
  {
    function Fold(name: string): string {
      Casemapping.Normalize(mapping, name)
    }

    predicate IsChannel(name: string) {
      name != "" && name[0] in channelTypes
    }

    predicate PersistableDirect(name: string) {
      name != "" && !IsChannel(name) && name !in services
    }

    predicate Lists(names: seq<string>, name: string) {
      exists i :: 0 <= i < |names| && Casemapping.Equals(mapping, names[i], name)
    }

    predicate Discoverable(name: string) {
      && PersistableDirect(name) && Routable(name)
      && (currentNick == "" || !Casemapping.Equals(mapping, name, currentNick))
      && !Lists(dismissed, name)
    }

    function Resume(name: string): Ask {
      match SnapshotTime(snapshot, mapping, name)
      case Some(when) => AskAfter(Fold(name), when)
      case None => AskLatest(Fold(name))
    }

    /** Where a discovered query starts: its own time, else just before the newest time seen. */
    function DiscoveredFrom(name: string): Ask {
      match SnapshotTime(snapshot, mapping, name)
      case Some(when) => AskAfter(Fold(name), when)
      case None => AskAfter(Fold(name), Newest(snapshot) - SECOND)
    }
  }

  /** A nick that can be written to: no separators, wildcards, masks or control characters. */
  predicate Routable(name: string) {
    name != "" && forall i :: 0 <= i < |name| ==> name[i] >= ' ' && name[i] !in " ,*?!@.$:"
  }

  /** The coordinator's catch-up facts, the open queries (each with whether it holds messages), the
      answers the next writes get, and the requests accepted. */
  datatype State = State(
    targets: bool,
    retried: bool,
    asked: set<string>,
    discovered: set<string>,
    lower: Option<int>,
    extraPages: nat,
    rows: map<string, bool>,
    answers: seq<bool>,
    sent: seq<Ask>)
  {
    function Answered(): State {
      this.(answers := Rest(answers))
    }
  }

  // ----- what each operation does, as functions -----

  function Send(s: State, ask: Ask): State {
    if Refuses(s.answers) then s.Answered() else s.Answered().(sent := s.sent + [ask])
  }

  /** Asks for one query, and marks it only when the request went out. */
  function AskDirect(s: State, ask: Ask): State
    requires !ask.AskTargets?
  {
    if Refuses(s.answers) then s.Answered()
    else Send(s, ask).(asked := s.asked + {ask.key})
  }

  function RestoredOne(f: Context, s: State, nick: string): State {
    if f.PersistableDirect(nick) && f.Fold(nick) in s.rows && f.Fold(nick) !in s.asked
    then AskDirect(s, f.Resume(nick)) else s
  }

  function RestoredAll(f: Context, s: State, nicks: seq<string>): State
    decreases |nicks|
  {
    if nicks == [] then s else RestoredAll(f, RestoredOne(f, s, nicks[0]), nicks[1..])
  }

  function Upper(lower: int, now: int): int {
    if now + 10 * SECOND > lower then now + 10 * SECOND else FAR_FUTURE
  }

  function TargetsStep(f: Context, s: State, now: int): State {
    if Newest(f.snapshot) == NO_TIME || now == NO_TIME then s.(targets := true)
    else
      var lower := Newest(f.snapshot) - SECOND;
      if Refuses(s.answers) then s.Answered()
      else Send(s, AskTargets(lower, Upper(lower, now))).(targets := true, lower := Some(lower))
  }

  function CatchUpStep(f: Context, s: State, ready: bool, now: int): State {
    if !ready || s.targets then s
    else TargetsStep(f, RestoredAll(f, s, f.restored), now)
  }

  /** One name of a TARGETS page. A query nobody has open is opened first, and closed again when its
      request is refused and it is still empty. */
  function DiscoverOne(f: Context, s: State, name: string): State {
    var key := f.Fold(name);
    if !f.Discoverable(name) || key in s.asked then s
    else if key in s.rows then AskDirect(s, f.Resume(name))
    else if f.Lists(f.restored, name) || Newest(f.snapshot) == NO_TIME then s
    else if Refuses(s.answers) then
      if key in f.logged then s.Answered().(rows := s.rows[key := true]) else s.Answered()
    else
      AskDirect(s, f.DiscoveredFrom(name)).(rows := s.rows[key := key in f.logged], discovered := s.discovered + {key})
  }

  /** One page's names, which only a registered session looks at. */
  function Discover(f: Context, s: State, registered: bool, names: seq<string>): State {
    if registered then DiscoverAll(f, s, names) else s
  }

  function DiscoverAll(f: Context, s: State, names: seq<string>): State
    decreases |names|
  {
    if names == [] then s else DiscoverAll(f, DiscoverOne(f, s, names[0]), names[1..])
  }

  /** One row of a TARGETS page. */
  datatype Target = Target(name: string, latest: Option<int>)

  function Names(page: seq<Target>): seq<string> {
    seq(|page|, i requires 0 <= i < |page| => page[i].name)
  }

  /** The earliest time of a page, if any row carries one. */
  function Oldest(page: seq<Target>): Option<int> {
    if page == [] then None
    else
      var rest := Oldest(page[..|page| - 1]);
      var latest := page[|page| - 1].latest;
      if latest.Some? && (rest.None? || latest.value < rest.value) then latest else rest
  }

  /** A full page that is not the last asks for one older page, twice at most. */
  function PageStep(s: State, page: seq<Target>, ended: bool, limit: nat): State {
    if limit == 0 || ended || |page| < limit || s.lower.None? || s.extraPages >= 2 then s
    else
      var oldest := Oldest(page);
      if oldest.None? || oldest.value <= s.lower.value then s
      else if Refuses(s.answers) then s.Answered()
      else Send(s, AskTargets(s.lower.value, oldest.value)).(extraPages := s.extraPages + 1)
  }

  /** A TARGETS request failed: one retry for the whole registration. */
  function TargetsFailedStep(f: Context, s: State, known: bool, ready: bool, now: int): State {
    if !known || s.retried then s
    else CatchUpStep(f, s.(retried := true, targets := false), ready, now)
  }

  /** A discovered query that brought nothing is closed again, unless it is a kept one. */
  function DropEmptyStep(f: Context, s: State, target: string): State {
    var key := f.Fold(target);
    if target != "" && key in s.discovered && !f.Lists(f.restored, target) && key in s.rows && !s.rows[key]
    then s.(rows := s.rows - {key}) else s
  }

  // ----- the coordinator, updating its fields in place -----

  /** The session: it accepts or refuses each request. */
  class HistorySession {
    var answers: seq<bool>
    var sent: seq<Ask>

    constructor (answers: seq<bool>)
      ensures this.answers == answers && sent == []
    {
      this.answers, sent := answers, [];
    }

    method RequestHistory(ask: Ask) returns (accepted: bool)
      modifies this
      ensures accepted == !Refuses(old(answers)) && answers == Rest(old(answers))
      ensures sent == old(sent) + if accepted then [ask] else []
    {
      accepted := answers == [] || answers[0];
      if answers != [] {
        answers := answers[1..];
      }
      if accepted {
        sent := sent + [ask];
      }
    }
  }

  class CatchUpCoordinator {
    var targets: bool
    var retried: bool
    var asked: set<string>
    var discovered: set<string>
    var lower: Option<int>
    var extraPages: nat
    /** The reducer's open queries, each with whether it holds messages. */
    var rows: map<string, bool>
    const session: HistorySession

    ghost function Model(): State
      reads this, session
    {
      State(targets, retried, asked, discovered, lower, extraPages, rows, session.answers, session.sent)
    }

    constructor (session: HistorySession)
      ensures this.session == session
      ensures Model() == State(false, false, {}, {}, None, 0, map[], session.answers, session.sent)
    {
      this.session := session;
      targets, retried, asked, discovered := false, false, {}, {};
      lower, extraPages, rows := None, 0, map[];
    }

    method RequestCatchUp(f: Context, ready: bool, now: int)
      modifies this, session
      ensures Model() == CatchUpStep(f, old(Model()), ready, now)
    {
      if !ready || targets {
        return;
      }
      ghost var restored := RestoredAll(f, Model(), f.restored);
      var i := 0;
      while i < |f.restored|
        invariant 0 <= i <= |f.restored|
        invariant RestoredAll(f, Model(), f.restored[i..]) == restored
      {
        ghost var next := RestoredOne(f, Model(), f.restored[i]);
        var nick := f.restored[i];
        assert f.restored[i..][1..] == f.restored[i + 1..];
        i := i + 1;
        if !f.PersistableDirect(nick) {
          continue;
        }
        var key := f.Fold(nick);
        if key !in rows || key in asked {
          continue;
        }
        var accepted := session.RequestHistory(f.Resume(nick));
        if !accepted {
          assert Model() == next;
          continue;
        }
        asked := asked + {key};
        assert Model() == next;
      }
      assert f.restored[i..] == [];
      var newest := Newest(f.snapshot);
      if newest == NO_TIME || now == NO_TIME {
        targets := true;
        return;
      }
      var from := newest - SECOND;
      var accepted := session.RequestHistory(AskTargets(from, Upper(from, now)));
      if !accepted {
        return;
      }
      targets := true;
      lower := Some(from);
    }

    /** One name of a TARGETS page. Returns whether it opened a query. */
    method NoteTarget(f: Context, name: string) returns (created: bool)
      requires discovered <= asked
      modifies this, session
      ensures Model() == DiscoverOne(f, old(Model()), name)
      ensures discovered <= asked
      ensures discovered == old(discovered) + if created then {f.Fold(name)} else {}
      ensures created ==> f.Fold(name) !in old(discovered)
    {
      var key := f.Fold(name);
      if !f.Discoverable(name) || key in asked {
        return false;
      }
      if key in rows {
        var accepted := session.RequestHistory(f.Resume(name));
        if accepted {
          asked := asked + {key};
        }
        return false;
      }
      if f.Lists(f.restored, name) || Newest(f.snapshot) == NO_TIME {
        return false;
      }
      rows := rows[key := key in f.logged];
      var accepted := session.RequestHistory(f.DiscoveredFrom(name));
      if !accepted {
        if !rows[key] {
          rows := rows - {key};
          assert rows == old(rows);
        }
        return false;
      }
      asked := asked + {key};
      discovered := discovered + {key};
      return true;
    }

    /** A page of names. The count is of the queries it opened. */
    method NoteDiscoveredTargets(f: Context, registered: bool, names: seq<string>) returns (created: nat)
      requires discovered <= asked
      modifies this, session
      ensures Model() == Discover(f, old(Model()), registered, names)
      ensures discovered <= asked && old(discovered) <= discovered
      ensures created == |discovered| - |old(discovered)|
    {
      created := 0;
      if !registered {
        return;
      }
      ghost var whole := DiscoverAll(f, Model(), names);
      var i := 0;
      while i < |names|
        invariant 0 <= i <= |names|
        invariant DiscoverAll(f, Model(), names[i..]) == whole
        invariant discovered <= asked && old(discovered) <= discovered
        invariant created == |discovered| - |old(discovered)|
      {
        assert names[i..][1..] == names[i + 1..];
        var one := NoteTarget(f, names[i]);
        if one {
          created := created + 1;
        }
        i := i + 1;
      }
      assert names[i..] == [];
    }

    method NoteTargetsPage(page: seq<Target>, ended: bool, limit: nat)
      modifies this, session
      ensures Model() == PageStep(old(Model()), page, ended, limit)
    {
      if limit == 0 || ended || |page| < limit || lower.None? || extraPages >= 2 {
        return;
      }
      var oldest: Option<int> := None;
      var i := 0;
      while i < |page|
        invariant 0 <= i <= |page| && oldest == Oldest(page[..i])
      {
        assert page[..i + 1][..i] == page[..i];
        var latest := page[i].latest;
        if latest.Some? && (oldest.None? || latest.value < oldest.value) {
          oldest := latest;
        }
        i := i + 1;
      }
      assert page[..i] == page;
      if oldest.None? || oldest.value <= lower.value {
        return;
      }
      var accepted := session.RequestHistory(AskTargets(lower.value, oldest.value));
      if accepted {
        extraPages := extraPages + 1;
      }
    }

    /** A failed TARGETS request. `known` says whether this registration asked for anything yet. */
    method OnTargetsFailed(f: Context, known: bool, ready: bool, now: int)
      modifies this, session
      ensures Model() == TargetsFailedStep(f, old(Model()), known, ready, now)
    {
      if !known || retried {
        return;
      }
      retried := true;
      targets := false;
      RequestCatchUp(f, ready, now);
    }

    method DropEmptyDiscovered(f: Context, target: string)
      modifies this`rows
      ensures Model() == DropEmptyStep(f, old(Model()), target)
    {
      var key := f.Fold(target);
      if target == "" || key !in discovered || f.Lists(f.restored, target) {
        return;
      }
      if key !in rows || rows[key] {
        return;
      }
      rows := rows - {key};
    }
  }

  // ----- one registration, event by event -----

  datatype Event =
    | CatchUpWanted(f: Context, ready: bool, now: int)
    | PageArrived(f: Context, registered: bool, page: seq<Target>, ended: bool, limit: nat)
    | TargetsFailed(f: Context, known: bool, ready: bool, now: int)
    | EmptyReply(f: Context, target: string)
    /** The user and other messages open, fill and close queries; writes get other answers. */
    | Outside(rows: map<string, bool>, answers: seq<bool>)

  function Handle(s: State, e: Event): State {
    match e
    case CatchUpWanted(f, ready, now) => CatchUpStep(f, s, ready, now)
    case PageArrived(f, registered, page, ended, limit) =>
      PageStep(Discover(f, s, registered, Names(page)), page, ended, limit)
    case TargetsFailed(f, known, ready, now) => TargetsFailedStep(f, s, known, ready, now)
    case EmptyReply(f, target) => DropEmptyStep(f, s, target)
    case Outside(rows, answers) => s.(rows := rows, answers := answers)
  }

  function HandleAll(s: State, events: seq<Event>): State {
    if events == [] then s else Handle(HandleAll(s, events[..|events| - 1]), events[|events| - 1])
  }

  const REGISTERED := State(false, false, {}, {}, None, 0, map[], [], [])

  /** How many of the requests are for TARGETS. */
  function TargetsAsked(sent: seq<Ask>): nat {
    if sent == [] then 0
    else TargetsAsked(sent[..|sent| - 1]) + if sent[|sent| - 1].AskTargets? then 1 else 0
  }

  /** How many of the requests are for the query `key`. */
  function TimesAsked(sent: seq<Ask>, key: string): nat {
    if sent == [] then 0
    else
      var last := sent[|sent| - 1];
      TimesAsked(sent[..|sent| - 1], key) + if !last.AskTargets? && last.key == key then 1 else 0
  }

  predicate Bounded(s: State) {
    && s.extraPages <= 2
    && TargetsAsked(s.sent) <= Flag(s.targets) + Flag(s.retried) + s.extraPages
    && s.discovered <= s.asked
  }

  ghost predicate AskedOnce(s: State) {
    forall key :: TimesAsked(s.sent, key) == Flag(key in s.asked)
  }

  lemma OneMoreSent(sent: seq<Ask>, ask: Ask)
    ensures TargetsAsked(sent + [ask]) == TargetsAsked(sent) + Flag(ask.AskTargets?)
    ensures forall key :: TimesAsked(sent + [ask], key)
                       == TimesAsked(sent, key) + Flag(!ask.AskTargets? && ask.key == key)
  {
  }

  lemma AskDirectKeeps(s: State, ask: Ask)
    requires Bounded(s) && AskedOnce(s) && !ask.AskTargets? && ask.key !in s.asked
    ensures var s' := AskDirect(s, ask);
            && Bounded(s') && AskedOnce(s')
            && s' == s.(asked := s'.asked, answers := s'.answers, sent := s'.sent)
  {
    hide TimesAsked, TargetsAsked;
    OneMoreSent(s.sent, ask);
  }

  lemma SendTargetsKeeps(s: State, ask: Ask)
    requires AskedOnce(s) && ask.AskTargets? && !Refuses(s.answers)
    ensures AskedOnce(Send(s, ask)) && TargetsAsked(Send(s, ask).sent) == TargetsAsked(s.sent) + 1
  {
    hide TargetsAsked, TimesAsked;
    OneMoreSent(s.sent, ask);
  }

  lemma {:induction false} RestoredKeeps(f: Context, s: State, nicks: seq<string>)
    requires Bounded(s) && AskedOnce(s)
    ensures var s' := RestoredAll(f, s, nicks);
            && Bounded(s') && AskedOnce(s')
            && s' == s.(asked := s'.asked, answers := s'.answers, sent := s'.sent)
    decreases |nicks|
  {
    if nicks != [] {
      var s1 := RestoredOne(f, s, nicks[0]);
      if s1 != s {
        AskDirectKeeps(s, f.Resume(nicks[0]));
      }
      RestoredKeeps(f, s1, nicks[1..]);
    }
  }

  lemma CatchUpKeeps(f: Context, s: State, ready: bool, now: int)
    requires Bounded(s) && AskedOnce(s)
    ensures Bounded(CatchUpStep(f, s, ready, now)) && AskedOnce(CatchUpStep(f, s, ready, now))
  {
    hide Newest, Refuses, Rest, RestoredAll, TargetsAsked, TimesAsked, Upper;
    if ready && !s.targets {
      RestoredKeeps(f, s, f.restored);
      var s1 := RestoredAll(f, s, f.restored);
      var lower := Newest(f.snapshot) - SECOND;
      if Newest(f.snapshot) != NO_TIME && now != NO_TIME && !Refuses(s1.answers) {
        SendTargetsKeeps(s1, AskTargets(lower, Upper(lower, now)));
      }
    }
  }

  lemma DiscoverOneKeeps(f: Context, s: State, name: string)
    requires Bounded(s) && AskedOnce(s)
    ensures Bounded(DiscoverOne(f, s, name)) && AskedOnce(DiscoverOne(f, s, name))
  {
    hide Newest, RowOf, Routable, Casemapping.Equals, Casemapping.Normalize, Refuses, TargetsAsked, TimesAsked;
    if f.Discoverable(name) && f.Fold(name) !in s.asked {
      AskDirectKeeps(s, f.Resume(name));
      AskDirectKeeps(s, f.DiscoveredFrom(name));
    }
  }

  lemma {:induction false} DiscoverKeeps(f: Context, s: State, names: seq<string>)
    requires Bounded(s) && AskedOnce(s)
    ensures Bounded(DiscoverAll(f, s, names)) && AskedOnce(DiscoverAll(f, s, names))
    decreases |names|
  {
    if names != [] {
      DiscoverOneKeeps(f, s, names[0]);
      DiscoverKeeps(f, DiscoverOne(f, s, names[0]), names[1..]);
    }
  }

  lemma PageKeeps(s: State, page: seq<Target>, ended: bool, limit: nat)
    requires Bounded(s) && AskedOnce(s)
    ensures Bounded(PageStep(s, page, ended, limit)) && AskedOnce(PageStep(s, page, ended, limit))
  {
    var after := PageStep(s, page, ended, limit);
    if after.extraPages != s.extraPages {
      SendTargetsKeeps(s, AskTargets(s.lower.value, Oldest(page).value));
    }
  }

  lemma HandleKeeps(s: State, e: Event)
    requires Bounded(s) && AskedOnce(s)
    ensures Bounded(Handle(s, e)) && AskedOnce(Handle(s, e))
  {
    hide DiscoverAll, CatchUpStep, PageStep, Names;
    match e
    case CatchUpWanted(f, ready, now) => CatchUpKeeps(f, s, ready, now);
    case PageArrived(f, registered, page, ended, limit) =>
      DiscoverKeeps(f, s, Names(page));
      PageKeeps(Discover(f, s, registered, Names(page)), page, ended, limit);
    case TargetsFailed(f, known, ready, now) =>
      if known && !s.retried {
        CatchUpKeeps(f, s.(retried := true, targets := false), ready, now);
      }
    case _ =>
  }

  /** Whatever pages, failures and refusals a registration sees, it asks for TARGETS four times at
      most, asks for each query at most once from either side, and every query it opened on its own
      it also asked for. */
  lemma {:induction false} CatchUpIsBounded(events: seq<Event>)
    ensures var s := HandleAll(REGISTERED, events);
            && TargetsAsked(s.sent) <= 4
            && s.discovered <= s.asked
            && (forall key :: TimesAsked(s.sent, key) == if key in s.asked then 1 else 0)
            && Bounded(s) && AskedOnce(s)
  {
    if events != [] {
      CatchUpIsBounded(events[..|events| - 1]);
      HandleKeeps(HandleAll(REGISTERED, events[..|events| - 1]), events[|events| - 1]);
    }
  }

  // ----- the bound is met -----

  const NEWS := Context(Casemapping.Ascii, {'#'}, {}, [Row("bob", 5000)], [], [], "", {})
  const FULL_PAGE := [Target("#c", Some(6000))]
  const FULL_PAGE_ARRIVED := PageArrived(NEWS, true, FULL_PAGE, false, 1)

  lemma FullPageAsks(s: State)
    requires s.lower == Some(4000) && s.extraPages < 2 && s.answers == []
    ensures Handle(s, FULL_PAGE_ARRIVED)
         == s.(sent := s.sent + [AskTargets(4000, 6000)], extraPages := s.extraPages + 1)
  {
    assert FULL_PAGE[..0] == [] && Oldest(FULL_PAGE) == Some(6000);
    assert Names(FULL_PAGE) == ["#c"];
    assert DiscoverOne(NEWS, s, "#c") == s;
    assert ["#c"][1..] == [];
    assert DiscoverAll(NEWS, s, []) == s;
    assert DiscoverAll(NEWS, s, ["#c"]) == s;
  }

  /** A first request, its retry, and two full pages make four. */
  lemma FourTargetsHappen()
    ensures var first := Handle(REGISTERED, CatchUpWanted(NEWS, true, 9000));
            var retried := Handle(first, TargetsFailed(NEWS, true, true, 9000));
            var paged := Handle(Handle(retried, FULL_PAGE_ARRIVED), FULL_PAGE_ARRIVED);
            TargetsAsked(paged.sent) == 4
  {
    assert NEWS.snapshot[..0] == [] && Newest(NEWS.snapshot) == 5000;
    var first := Handle(REGISTERED, CatchUpWanted(NEWS, true, 9000));
    var retried := Handle(first, TargetsFailed(NEWS, true, true, 9000));
    FullPageAsks(retried);
    FullPageAsks(Handle(retried, FULL_PAGE_ARRIVED));
    OneMoreSent([], AskTargets(4000, 19000));
    OneMoreSent(first.sent, AskTargets(4000, 19000));
    OneMoreSent(retried.sent, AskTargets(4000, 6000));
    OneMoreSent(retried.sent + [AskTargets(4000, 6000)], AskTargets(4000, 6000));
  }
}
