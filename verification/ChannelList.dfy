/**
 `/list`: one request per network (its rows, its pending mask, its idle timer, and the stale end a
 timed-out load leaves to drain), and the overlay that streams the rows of one network. Server
 lines, timer callbacks and commands come in any order.
 */
module ChannelList {
  import Casemapping
  import opened Sorting
  import opened Wrappers

  type Network = string

  const MAX_ROWS := 8000
  const TIMEOUT_TEXT := "Channel list timed out. Try /list again."

  datatype ListedChannel = ListedChannel(name: string, users: nat, topic: string)

  /** How the cache folds channel names, and what two masks must share to be the same. */
  datatype Folds = Folds(lower: string -> string, mask: string -> string)
  {
    predicate SameMask(left: string, right: string) {
      mask(left) == mask(right)
    }

    /** The order of the overlay: by falling number of users, ties by folded name. */
    function Order(): (ListedChannel, ListedChannel) -> bool {
      (a: ListedChannel, b: ListedChannel) =>
        a.users > b.users || (a.users == b.users && LexLeq(lower(a.name), lower(b.name)))
    }
  }

  /** The fold the overlay finds a row by. */
  function AsciiFold(name: string): string {
    Casemapping.Normalize(Casemapping.Ascii, name)
  }

  /** One network's request. With `drain` set, the next end is not its load's but an older one's. */
  datatype ListState = ListState(
    mask: string,
    rows: seq<ListedChannel>,
    complete: bool,
    loading: bool,
    error: string,
    pending: Option<string>,
    drain: bool)

  datatype Kind = Start | Loading | Cached

  /** A callback the clock still holds: it queues its network's expiry once `due` has come. */
  datatype Callback = Callback(network: Network, due: nat)

  datatype Expiry = Expiry(network: Network, generation: nat)

  /** The idle timers and the clock. `timers` holds the generation each network's timer was armed
      under; `clock` the callbacks not run and not stopped, by generation. */
  datatype Timing = Timing(
    idle: nat,
    now: nat,
    timers: map<Network, nat>,
    generation: nat,
    clock: map<nat, Callback>,
    expiries: seq<Expiry>)

  /** The requests of every network, and their timers. */
  datatype Requests = Requests(t: Timing, states: map<Network, ListState>)
  {
    predicate IsLoading(n: Network) {
      n in states && states[n].loading
    }

    predicate Drains(n: Network) {
      n in states && states[n].drain
    }
  }

  function IndexBy(rows: seq<ListedChannel>, fold: string -> string, name: string): (i: nat)
    ensures i <= |rows|
    ensures i < |rows| ==> fold(rows[i].name) == fold(name)
    ensures forall k :: 0 <= k < i ==> fold(rows[k].name) != fold(name)
  {
    if rows == [] || fold(rows[0].name) == fold(name) then 0 else 1 + IndexBy(rows[1..], fold, name)
  }

  // ----- what each request operation does, as functions -----

  function Stop(t: Timing, n: Network): Timing {
    if n in t.timers then t.(clock := t.clock - {t.timers[n]}, timers := t.timers - {n}) else t
  }

  function Arm(t: Timing, n: Network): Timing {
    var s := Stop(t, n);
    var g := s.generation + 1;
    s.(generation := g, clock := s.clock[g := Callback(n, s.now + s.idle)], timers := s.timers[n := g])
  }

  function Put(r: Requests, n: Network, st: ListState): Requests {
    r.(states := r.states[n := st])
  }

  function Armed(r: Requests, n: Network): Requests {
    r.(t := Arm(r.t, n))
  }

  function Stopped(r: Requests, n: Network): Requests {
    r.(t := Stop(r.t, n))
  }

  function RequestKind(r: Requests, f: Folds, n: Network, mask: string, refresh: bool): Kind {
    if r.IsLoading(n) then Loading
    else if n in r.states && !refresh && r.states[n].complete && f.SameMask(r.states[n].mask, mask) then Cached
    else Start
  }

  function Request(r: Requests, f: Folds, n: Network, mask: string, refresh: bool): Requests {
    match RequestKind(r, f, n, mask, refresh)
    case Loading =>
      var st := r.states[n];
      Put(r, n, st.(pending := if f.SameMask(st.mask, mask) then None else Some(mask)))
    case Cached => r
    case Start => Armed(Put(r, n, ListState(mask, [], false, true, "", None, r.Drains(n))), n)
  }

  function Forget(r: Requests, n: Network): Requests {
    Stopped(r, n).(states := r.states - {n})
  }

  predicate Stores(r: Requests, n: Network, row: ListedChannel) {
    row.name != "" && r.IsLoading(n)
  }

  /** The cached rows after one more: it replaces the row of the same folded name, or is added
      unless the cache is full. */
  function WithRow(rows: seq<ListedChannel>, lower: string -> string, row: ListedChannel): seq<ListedChannel> {
    var i := IndexBy(rows, lower, row.name);
    if i < |rows| then rows[i := row] else if |rows| < MAX_ROWS then rows + [row] else rows
  }

  function RowStep(r: Requests, f: Folds, n: Network, row: ListedChannel): Requests {
    if !Stores(r, n, row) then r
    else Put(Armed(r, n), n, r.states[n].(rows := WithRow(r.states[n].rows, f.lower, row)))
  }

  predicate Replaces(r: Requests, f: Folds, n: Network, row: ListedChannel) {
    Stores(r, n, row) && IndexBy(r.states[n].rows, f.lower, row.name) < |r.states[n].rows|
  }

  function Activity(r: Requests, n: Network): Requests {
    if r.IsLoading(n) then Armed(r, n) else r
  }

  predicate Completes(r: Requests, n: Network) {
    r.IsLoading(n) && !r.states[n].drain
  }

  function NextMask(r: Requests, f: Folds, n: Network): Option<string> {
    if Completes(r, n) && r.states[n].pending.Some? && !f.SameMask(r.states[n].pending.value, r.states[n].mask)
    then r.states[n].pending else None
  }

  function Finish(r: Requests, n: Network): Requests {
    if n !in r.states then r
    else if !r.states[n].loading then Put(r, n, r.states[n].(drain := false))
    else if r.states[n].drain then Armed(Put(r, n, r.states[n].(drain := false)), n)
    else Put(Stopped(r, n), n, r.states[n].(pending := None, loading := false, complete := true, error := ""))
  }

  function Fail(r: Requests, n: Network, text: string, timedOut: bool): Requests {
    if !r.IsLoading(n) then r
    else
      var st := r.states[n];
      Put(Stopped(r, n), n, st.(loading := false, complete := false, pending := None, error := text,
                             drain := st.drain || timedOut))
  }

  /** The first queued expiry whose timer is still the one it was armed under, if there is one. */
  function CurrentExpiry(timers: map<Network, nat>, expiries: seq<Expiry>): (i: nat)
    ensures i <= |expiries|
    ensures i < |expiries| ==> expiries[i].network in timers && timers[expiries[i].network] == expiries[i].generation
    ensures forall k :: 0 <= k < i ==>
              !(expiries[k].network in timers && timers[expiries[k].network] == expiries[k].generation)
  {
    if expiries == [] then 0
    else if expiries[0].network in timers && timers[expiries[0].network] == expiries[0].generation then 0
    else 1 + CurrentExpiry(timers, expiries[1..])
  }

  function DueExpiry(t: Timing): Option<Expiry> {
    var i := CurrentExpiry(t.timers, t.expiries);
    if i < |t.expiries| then Some(t.expiries[i]) else None
  }

  /** Drops the queue up to and with the first current expiry, whose timer is cleared. */
  function TakeExpiry(t: Timing): Timing {
    var i := CurrentExpiry(t.timers, t.expiries);
    if i < |t.expiries|
    then t.(expiries := t.expiries[i + 1..], timers := t.timers - {t.expiries[i].network})
    else t.(expiries := [])
  }

  // ----- the requests, updating their fields in place -----

  class ChannelListRequests {
    const folds: Folds
    const idle: nat
    var now: nat
    var states: map<Network, ListState>
    var timers: map<Network, nat>
    var generation: nat
    var clock: map<nat, Callback>
    var expiries: seq<Expiry>

    ghost function Model(): Requests
      reads this
    {
      Requests(Timing(idle, now, timers, generation, clock, expiries), states)
    }

    constructor (folds: Folds, idle: nat)
      ensures this.folds == folds && this.idle == idle
      ensures Model() == Requests(Timing(idle, 0, map[], 0, map[], []), map[])
    {
      this.folds, this.idle := folds, idle;
      now, states, timers, generation, clock, expiries := 0, map[], map[], 0, map[], [];
    }

    method StopTimer(n: Network)
      modifies this
      ensures Model() == Stopped(old(Model()), n)
    {
      if n in timers {
        clock := clock - {timers[n]};
        timers := timers - {n};
      }
    }

    method ArmTimer(n: Network)
      modifies this
      ensures Model() == Armed(old(Model()), n)
    {
      StopTimer(n);
      generation := generation + 1;
      clock := clock[generation := Callback(n, now + idle)];
      timers := timers[n := generation];
    }

    /** What a `/list` asks of the cache: it waits behind a load that runs, is served from rows that are
        complete, or begins anew. */
    method RequestList(n: Network, mask: string, refresh: bool) returns (kind: Kind)
      modifies this
      ensures kind == RequestKind(old(Model()), folds, n, mask, refresh)
      ensures Model() == Request(old(Model()), folds, n, mask, refresh)
    {
      if n in states {
        var entry := states[n];
        if entry.loading {
          states := states[n := entry.(pending := if folds.SameMask(entry.mask, mask) then None else Some(mask))];
          return Loading;
        }
        if !refresh && entry.complete && folds.SameMask(entry.mask, mask) {
          return Cached;
        }
      }
      var drain := n in states && states[n].drain;
      states := states[n := ListState(mask, [], false, true, "", None, drain)];
      ArmTimer(n);
      return Start;
    }

    method ForgetList(n: Network)
      modifies this
      ensures Model() == Forget(old(Model()), n)
    {
      StopTimer(n);
      states := states - {n};
    }

    /** Stores one streamed row. Returns whether it replaced one. */
    method StoreRow(n: Network, row: ListedChannel) returns (replaced: bool)
      modifies this
      ensures replaced == Replaces(old(Model()), folds, n, row)
      ensures Model() == RowStep(old(Model()), folds, n, row)
    {
      if row.name == "" || n !in states || !states[n].loading {
        return false;
      }
      ArmTimer(n);
      var entry := states[n];
      var i := IndexBy(entry.rows, folds.lower, row.name);
      if i < |entry.rows| {
        states := states[n := entry.(rows := entry.rows[i := row])];
        return true;
      }
      if |entry.rows| < MAX_ROWS {
        states := states[n := entry.(rows := entry.rows + [row])];
      } else {
        assert states[n := entry] == states;
      }
      return false;
    }

    method NoteActivity(n: Network)
      modifies this
      ensures Model() == Activity(old(Model()), n)
    {
      if n in states && states[n].loading {
        ArmTimer(n);
      }
    }

    /** An end from the server, which is either drained or taken for the running load's. */
    method FinishList(n: Network) returns (completed: bool, next: Option<string>)
      modifies this
      ensures completed == Completes(old(Model()), n) && next == NextMask(old(Model()), folds, n)
      ensures Model() == Finish(old(Model()), n)
    {
      if n !in states {
        return false, None;
      }
      var entry := states[n];
      if !entry.loading {
        states := states[n := entry.(drain := false)];
        return false, None;
      }
      if entry.drain {
        states := states[n := entry.(drain := false)];
        ArmTimer(n);
        return false, None;
      }
      StopTimer(n);
      states := states[n := entry.(pending := None, loading := false, complete := true, error := "")];
      next := if entry.pending.Some? && !folds.SameMask(entry.pending.value, entry.mask) then entry.pending else None;
      return true, next;
    }

    method FailList(n: Network, text: string, timedOut: bool) returns (failed: bool)
      modifies this
      ensures failed == old(Model()).IsLoading(n)
      ensures Model() == Fail(old(Model()), n, text, timedOut)
    {
      if n !in states || !states[n].loading {
        return false;
      }
      StopTimer(n);
      var entry := states[n].(loading := false, complete := false, pending := None, error := text);
      if timedOut {
        entry := entry.(drain := true);
      }
      states := states[n := entry];
      return true;
    }

    /** Pops the queue up to and with the first expiry of a timer nobody has touched since. */
    method TakeTimeout() returns (due: Option<Expiry>)
      modifies this
      ensures due == DueExpiry(old(Model()).t) && Model() == old(Model()).(t := TakeExpiry(old(Model()).t))
    {
      ghost var all := expiries;
      ghost var first := CurrentExpiry(timers, all);
      ghost var skipped := 0;
      while expiries != []
        invariant skipped <= first && expiries == all[skipped..]
        invariant Model() == old(Model()).(t := old(Model()).t.(expiries := expiries))
        decreases |expiries|
      {
        var next := expiries[0];
        expiries := expiries[1..];
        if next.network in timers && timers[next.network] == next.generation {
          timers := timers - {next.network};
          return Some(next);
        }
        skipped := skipped + 1;
      }
      return None;
    }
  }

  // ----- the overlay -----

  datatype View = View(
    open: bool,
    network: Network,
    mask: string,
    rows: seq<ListedChannel>,
    loading: bool,
    complete: bool,
    cached: bool,
    error: string)

  const BLANK := View(false, "", "", [], false, false, false, "")

  function Capped(rows: seq<ListedChannel>): seq<ListedChannel> {
    if |rows| <= MAX_ROWS then rows else rows[..MAX_ROWS]
  }

  function Show(v: View, f: Folds, n: Network, st: ListState, loading: bool, cached: bool, error: string): View {
    View(v.open, n, st.mask, Sort(Capped(st.rows), f.Order()), loading, !loading, cached, error)
  }

  function BeginView(v: View, n: Network, mask: string): View {
    View(v.open, n, mask, [], true, false, false, "")
  }

  function FailView(v: View, text: string): View {
    v.(loading := false, complete := false, cached := false, error := text)
  }

  function AppendRows(rows: seq<ListedChannel>, f: Folds, row: ListedChannel, replaced: bool): seq<ListedChannel> {
    if replaced then
      var i := IndexBy(rows, AsciiFold, row.name);
      if i < |rows| then rows[i := row] else rows
    else if |rows| >= MAX_ROWS then rows
    else Sort(rows + [row], f.Order())
  }

  function ClearView(v: View): View {
    if v.rows == [] && v.network == "" && v.error == "" && !v.loading && !v.complete then v
    else BLANK.(open := v.open)
  }

  // ----- requests and overlay together, as functions -----

  datatype Lists = Lists(r: Requests, v: View)

  datatype Outcome = Sent | Refused | NotConnected

  predicate Refreshes(l: Lists, f: Folds, n: Network, mask: string) {
    l.v.open && l.v.network == n && n in l.r.states && f.SameMask(l.r.states[n].mask, mask)
  }

  /** The request marked loading and the overlay streaming it, or neither when the LIST is refused. */
  function Begin(l: Lists, f: Folds, n: Network, mask: string, accepted: bool): Lists {
    var r := Request(l.r, f, n, mask, true);
    var v := BeginView(l.v, n, mask).(open := true);
    if accepted then Lists(r, v) else Lists(Forget(r, n), ClearView(v).(open := false))
  }

  function StartList(l: Lists, f: Folds, n: Network, mask: string, connected: bool, accepted: bool): Lists {
    if n == "" || !connected then l
    else
      var refresh := Refreshes(l, f, n, mask);
      var r := Request(l.r, f, n, mask, refresh);
      match RequestKind(l.r, f, n, mask, refresh)
      case Loading => Lists(r, Show(l.v, f, n, r.states[n], true, false, r.states[n].error).(open := true))
      case Cached => Lists(r, Show(l.v, f, n, r.states[n], false, true, "").(open := true))
      case Start => Begin(Lists(r, l.v), f, n, mask, accepted)
  }

  /** Only a load that must be started can be refused by a registered session. */
  function StartOutcome(l: Lists, f: Folds, n: Network, mask: string, connected: bool, accepted: bool): Outcome {
    if n == "" then Refused
    else if !connected then NotConnected
    else if RequestKind(l.r, f, n, mask, Refreshes(l, f, n, mask)) == Start && !accepted then Refused
    else Sent
  }

  /** What a 323 does to both: a load that completes hands over to the mask waiting behind it, and if
      nothing begins, an overlay on this network turns to the finished rows. */
  function EndList(l: Lists, f: Folds, n: Network, connected: bool, accepted: bool): Lists {
    var r := Finish(l.r, n);
    if !Completes(l.r, n) then Lists(r, l.v)
    else
      var next := NextMask(l.r, f, n);
      var begun := if next.Some? && connected then Begin(Lists(r, l.v), f, n, next.value, accepted) else Lists(r, l.v);
      if next.Some? && connected && accepted then begun
      else if begun.v.network == n then begun.(v := Show(begun.v, f, n, r.states[n], false, false, ""))
      else begun
  }

  function RowLine(l: Lists, f: Folds, n: Network, row: ListedChannel): Lists {
    var r := RowStep(l.r, f, n, row);
    if l.v.open && l.v.network == n && l.v.loading
    then Lists(r, l.v.(rows := AppendRows(l.v.rows, f, row, Replaces(l.r, f, n, row))))
    else Lists(r, l.v)
  }

  function FailLoad(l: Lists, n: Network, text: string, timedOut: bool): Lists {
    var r := Fail(l.r, n, text, timedOut);
    if l.r.IsLoading(n) && l.v.network == n then Lists(r, FailView(l.v, text)) else Lists(r, l.v)
  }

  function RunExpiry(l: Lists): Lists {
    var l' := l.(r := l.r.(t := TakeExpiry(l.r.t)));
    match DueExpiry(l.r.t)
    case Some(e) => FailLoad(l', e.network, TIMEOUT_TEXT, true)
    case None => l'
  }

  function ForgetNetwork(l: Lists, n: Network): Lists {
    Lists(Forget(l.r, n), if l.v.network == n then ClearView(l.v).(open := false) else l.v)
  }

  // ----- the controller -----

  class ChannelListController {
    const requests: ChannelListRequests
    var view: View

    ghost function Model(): Lists
      reads this, requests
    {
      Lists(requests.Model(), view)
    }

    constructor (requests: ChannelListRequests)
      ensures this.requests == requests && view == BLANK
    {
      this.requests, view := requests, BLANK;
    }

    /** The session takes or refuses the LIST line. */
    method BeginLoad(n: Network, mask: string, accepted: bool) returns (begun: bool)
      modifies this, requests
      ensures begun == accepted
      ensures Model() == Begin(old(Model()), requests.folds, n, mask, accepted)
    {
      var _ := requests.RequestList(n, mask, true);
      view := BeginView(view, n, mask);
      view := view.(open := true);
      if !accepted {
        requests.ForgetList(n);
        view := ClearView(view);
        view := view.(open := false);
        return false;
      }
      return true;
    }

    method StartChannelList(n: Network, mask: string, connected: bool, accepted: bool) returns (outcome: Outcome)
      modifies this, requests
      ensures Model() == StartList(old(Model()), requests.folds, n, mask, connected, accepted)
      ensures outcome == StartOutcome(old(Model()), requests.folds, n, mask, connected, accepted)
    {
      if n == "" {
        return Refused;
      }
      if !connected {
        return NotConnected;
      }
      var same := n in requests.states && requests.folds.SameMask(requests.states[n].mask, mask);
      var refresh := view.open && view.network == n && same;
      var kind := requests.RequestList(n, mask, refresh);
      match kind {
        case Loading =>
          var found := requests.states[n];
          view := Show(view, requests.folds, n, found, true, false, found.error).(open := true);
          return Sent;
        case Cached =>
          view := Show(view, requests.folds, n, requests.states[n], false, true, "").(open := true);
          return Sent;
        case Start =>
          var begun := BeginLoad(n, mask, accepted);
          return if begun then Sent else Refused;
      }
    }

    method FinishChannelList(n: Network, connected: bool, accepted: bool)
      modifies this, requests
      ensures Model() == EndList(old(Model()), requests.folds, n, connected, accepted)
    {
      var completed, next := requests.FinishList(n);
      if !completed {
        return;
      }
      var cache := requests.states[n];
      if next.Some? && connected {
        var begun := BeginLoad(n, next.value, accepted);
        if begun {
          return;
        }
      }
      if view.network == n {
        view := Show(view, requests.folds, n, cache, false, false, "");
      }
    }

    method HandleRow(n: Network, row: ListedChannel)
      modifies this, requests
      ensures Model() == RowLine(old(Model()), requests.folds, n, row)
    {
      var replaced := requests.StoreRow(n, row);
      if view.open && view.network == n && view.loading {
        view := view.(rows := AppendRows(view.rows, requests.folds, row, replaced));
      }
    }

    method FailChannelList(n: Network, text: string) returns (failed: bool)
      modifies this, requests
      ensures failed == old(Model()).r.IsLoading(n)
      ensures Model() == FailLoad(old(Model()), n, text, false)
    {
      failed := requests.FailList(n, text, false);
      if failed && view.network == n {
        view := FailView(view, text);
      }
    }

    method RunChannelListExpiry() returns (ran: bool)
      modifies this, requests
      ensures ran == DueExpiry(old(Model()).r.t).Some?
      ensures Model() == RunExpiry(old(Model()))
    {
      var due := requests.TakeTimeout();
      if due.None? {
        return false;
      }
      var failed := requests.FailList(due.value.network, TIMEOUT_TEXT, true);
      if failed && view.network == due.value.network {
        view := FailView(view, TIMEOUT_TEXT);
      }
      return true;
    }

    method ForgetChannelList(n: Network)
      modifies this, requests
      ensures Model() == ForgetNetwork(old(Model()), n)
    {
      requests.ForgetList(n);
      if view.network == n {
        view := ClearView(view);
        view := view.(open := false);
      }
    }
  }
}
