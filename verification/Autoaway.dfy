/**
 Auto-away: after a time of no local activity a grace window opens, and when it closes every
 registered network is marked away. Timers queue expiries that carry the generation they were armed
 under; activity, settings, registrations and the expiries come in any order. The main results: a
 trip never comes early and never gets lost, the away sets stay consistent with it, and each server is
 told what they say, except exactly where it cannot be reached.
 */
module Autoaway {
  import opened Wrappers

  type Network = string

  const MIN_TIMEOUT := 30
  const MAX_TIMEOUT := 2_147_483
  const SECOND := 1_000_000_000

  datatype Config = Config(enabled: bool, timeout: int, defaultReason: string, oneShotReason: string)
  {
    function Reason(): string {
      if oneShotReason == "" then defaultReason else oneShotReason
    }

    predicate InRange() {
      enabled && MIN_TIMEOUT <= timeout <= MAX_TIMEOUT
    }
  }

  datatype Kind = Idle | Grace

  datatype Expiry = Expiry(kind: Kind, generation: nat)

  /** A callback the clock still holds: it queues its expiry once `due` has come. */
  datatype Callback = Callback(kind: Kind, due: int)

  /** Every arming has a number of its own, which stands for the timer here: the two timers that may be
      armed, the expiries queued, and the callbacks the clock has neither run nor been told to drop. */
  datatype Timers = Timers(
    idle: Option<nat>,
    grace: Option<nat>,
    graceArmed: bool,
    generation: nat,
    expiries: seq<Expiry>,
    clock: map<nat, Callback>,
    now: int)

  /** The runtime's facts. `told` holds, for each network whose last accepted AWAY line had a reason,
      that reason. */
  datatype State = State(
    config: Config,
    t: Timers,
    tripped: bool,
    auto: set<Network>,
    manual: set<Network>,
    unawaySent: set<Network>,
    told: map<Network, string>)

  /** What the sessions and the reducer answer during one event. */
  datatype Links = Links(
    networks: seq<Network>,
    registered: set<Network>,
    writable: set<Network>,
    selfAway: set<Network>)
  {
    predicate Reaches(n: Network) {
      n in registered && n in writable
    }
  }

  datatype Request =
    | Query
    | Usage
    | Disable
    | EnableOn
    | SetTimeout(seconds: int, text: string)
    | SetDefaultReason(text: string)
    | ClearDefaultReason

  /** Five percent of the timeout, held between 5 and 10 seconds. */
  function GraceSeconds(timeout: int): (g: int)
    ensures timeout > 0 ==> 5 <= g <= 10
  {
    if timeout <= 0 then 0
    else if timeout / 20 < 5 then 5
    else if timeout / 20 > 10 then 10
    else timeout / 20
  }

  // ----- what each operation does, as functions -----

  /** The clock after one timer is stopped, if there is one. */
  function Without(clock: map<nat, Callback>, timer: Option<nat>): map<nat, Callback> {
    if timer.Some? then clock - {timer.value} else clock
  }

  function StopTimers(t: Timers): Timers {
    t.(generation := t.generation + 1,
       clock := Without(Without(t.clock, t.idle), t.grace),
       idle := None, grace := None, graceArmed := false)
  }

  /** The clock after a callback is handed to it under the current generation. */
  function Held(t: Timers, kind: Kind, seconds: int): Timers {
    t.(clock := t.clock[t.generation := Callback(kind, t.now + seconds * SECOND)])
  }

  function ArmIdle(s: State): State {
    var t := StopTimers(s.t);
    s.(t := if s.config.InRange() then Held(t, Idle, s.config.timeout).(idle := Some(t.generation)) else t)
  }

  /** The networks a trip marks. */
  function Marked(s: State, l: Links): set<Network> {
    set n | n in l.networks && n !in s.auto && n !in s.manual && n !in l.selfAway && l.Reaches(n)
  }

  /** What each network was last told, once each of `marked` is told a reason. */
  function Tell(told: map<Network, string>, marked: set<Network>, reason: string): map<Network, string> {
    map n | n in told.Keys + marked :: if n in marked then reason else told[n]
  }

  function Mark(s: State, marked: set<Network>): State {
    s.(auto := s.auto + marked, told := Tell(s.told, marked, s.config.Reason()))
  }

  function Reached(networks: set<Network>, l: Links): set<Network> {
    set n | n in networks && l.Reaches(n)
  }

  function Trip(s: State, l: Links): State {
    if !s.config.enabled then s
    else
      var m := Mark(s, Marked(s, l));
      m.(tripped := true, t := StopTimers(s.t))
  }

  function OnGrace(s: State, l: Links): State {
    if !s.t.graceArmed then s else Trip(s.(t := StopTimers(s.t)), l)
  }

  /** Opens the grace window. A usable timeout always has one, so tripping at once is a dead branch. */
  function OnIdle(s: State): State {
    if !s.config.enabled || s.config.timeout < MIN_TIMEOUT then s
    else
      var t := StopTimers(s.t);
      s.(t := Held(t, Grace, GraceSeconds(s.config.timeout)).(grace := Some(t.generation), graceArmed := true))
  }

  function RunExpiry(s: State, l: Links): State {
    if s.t.expiries == [] then s
    else
      var next := s.t.expiries[0];
      var popped := s.(t := s.t.(expiries := s.t.expiries[1..]));
      if next.generation != s.t.generation then popped
      else if next.kind == Idle then OnIdle(popped)
      else OnGrace(popped, l)
  }

  /** Every auto-away network that can be reached is brought back; none is auto-away afterwards. */
  function ClearNetworks(s: State, l: Links): State {
    var reached := Reached(s.auto, l);
    s.(tripped := false, auto := {}, unawaySent := s.unawaySent + reached, told := s.told - reached,
       config := s.config.(oneShotReason := ""))
  }

  function Activity(s: State, l: Links): State {
    var calm := s.(tripped := false);
    var cleared :=
      if s.auto != {} then ClearNetworks(calm, l)
      else if s.tripped then calm.(config := s.config.(oneShotReason := ""))
      else calm;
    if cleared.config.enabled then ArmIdle(cleared) else cleared
  }

  function RefreshReason(s: State, l: Links): State {
    if !s.tripped || !s.config.enabled then s
    else s.(told := Tell(s.told, Reached(s.auto, l), s.config.Reason()))
  }

  /** The settings after a request, and whether it changes them at all. */
  function Configured(c: Config, r: Request): Config {
    match r
    case Query => c
    case Usage => c
    case Disable => c.(enabled := false)
    case EnableOn => if c.timeout < MIN_TIMEOUT then c else c.(enabled := true)
    case SetTimeout(seconds, text) =>
      c.(enabled := true, timeout := seconds, oneShotReason := if text == "" then c.oneShotReason else text)
    case SetDefaultReason(text) => c.(defaultReason := text)
    case ClearDefaultReason => c.(defaultReason := "")
  }

  function Command(s: State, l: Links, r: Request): State {
    var changed := s.(config := Configured(s.config, r));
    match r
    case Disable => ClearNetworks(changed.(t := StopTimers(s.t)), l)
    case EnableOn => if s.config.timeout < MIN_TIMEOUT || s.tripped then changed else ArmIdle(changed)
    case SetTimeout(_, _) => Renewed(s, if s.tripped then changed else ArmIdle(changed), l)
    case SetDefaultReason(_) => Renewed(s, changed, l)
    case ClearDefaultReason => Renewed(s, changed, l)
    case _ => s
  }

  function Renewed(before: State, s: State, l: Links): State {
    if s.config.Reason() != before.config.Reason() then RefreshReason(s, l) else s
  }

  function ManualAway(s: State, n: Network): State {
    s.(auto := s.auto - {n}, manual := s.manual + {n})
  }

  function AwayCleared(s: State, n: Network): State {
    s.(auto := s.auto - {n}, manual := s.manual - {n},
       config := if n in s.auto && s.auto - {n} == {} then s.config.(oneShotReason := "") else s.config)
  }

  function UnawayAfterChat(s: State, l: Links, n: Network): State {
    if n !in l.selfAway || n in s.unawaySent || n !in l.writable then s
    else AwayCleared(s.(unawaySent := s.unawaySent + {n}, told := s.told - {n}), n)
  }

  function Forget(s: State, n: Network): State {
    s.(auto := s.auto - {n}, manual := s.manual - {n}, unawaySent := s.unawaySent - {n}, told := s.told - {n})
  }

  /** A network registers: its away facts start over, and a tripped auto-away takes it along. */
  function Registered(s: State, l: Links, n: Network): State {
    var anew := Forget(s, n);
    if s.tripped && s.config.enabled && l.Reaches(n) then Mark(anew, {n}) else anew
  }

  lemma TellNone(told: map<Network, string>, reason: string)
    ensures Tell(told, {}, reason) == told
  {
  }

  lemma TellOneMore(told: map<Network, string>, marked: set<Network>, n: Network, reason: string)
    ensures Tell(told, marked + {n}, reason) == Tell(told, marked, reason)[n := reason]
  {
  }

  lemma TellOneAfter(told: map<Network, string>, n: Network, reason: string)
    ensures Tell(told, {n}, reason) == told[n := reason]
  {
  }

  lemma ReachedOneMore(networks: set<Network>, n: Network, l: Links)
    ensures Reached(networks + {n}, l) == Reached(networks, l) + if l.Reaches(n) then {n} else {}
    ensures Reached({}, l) == {}
  {
  }

  function FirstMarked(s: State, l: Links, i: nat): set<Network>
    requires i <= |l.networks|
  {
    Marked(s, l.(networks := l.networks[..i]))
  }

  lemma MarkedOneMore(s: State, l: Links, i: nat)
    requires i < |l.networks|
    ensures var n := l.networks[i];
            FirstMarked(s, l, i + 1) == FirstMarked(s, l, i)
              + if n !in s.auto && n !in s.manual && n !in l.selfAway && l.Reaches(n) then {n} else {}
  {
  }

  // ----- the runtime, updating its fields in place -----

  class AutoawayRuntime {
    var config: Config
    var idleTimer: Option<nat>
    var graceTimer: Option<nat>
    var graceArmed: bool
    var tripped: bool
    var generation: nat
    var expiries: seq<Expiry>
    var autoAway: set<Network>
    var manualAway: set<Network>
    var unawaySent: set<Network>
    /** The sessions' side: the reason each network was last told. */
    var told: map<Network, string>
    /** The clock's side. */
    var clock: map<nat, Callback>
    var now: int

    ghost function Model(): State
      reads this
    {
      State(config, Timers(idleTimer, graceTimer, graceArmed, generation, expiries, clock, now),
            tripped, autoAway, manualAway, unawaySent, told)
    }

    constructor (config: Config)
      ensures Model() == Initial(config)
    {
      this.config := config;
      idleTimer, graceTimer, graceArmed, tripped, generation := None, None, false, false, 0;
      expiries, autoAway, manualAway, unawaySent, told, clock, now := [], {}, {}, {}, map[], map[], 0;
    }

    method Stop()
      modifies this
      ensures Model() == old(Model()).(t := StopTimers(old(Model()).t))
    {
      generation := generation + 1;
      if idleTimer.Some? {
        clock := clock - {idleTimer.value};
        idleTimer := None;
      }
      if graceTimer.Some? {
        clock := clock - {graceTimer.value};
        graceTimer := None;
      }
      graceArmed := false;
    }

    method Arm()
      modifies this
      ensures Model() == ArmIdle(old(Model()))
    {
      Stop();
      if !config.InRange() {
        return;
      }
      clock := clock[generation := Callback(Idle, now + config.timeout * SECOND)];
      idleTimer := Some(generation);
    }

    /** Tells one network the reason, if a line can reach it. */
    method MarkSession(l: Links, n: Network) returns (marked: bool)
      modifies this`autoAway, this`told
      ensures marked == l.Reaches(n)
      ensures Model() == if marked then Mark(old(Model()), {n}) else old(Model())
    {
      if n !in l.registered || n !in l.writable {
        return false;
      }
      TellOneAfter(told, n, config.Reason());
      told := told[n := config.Reason()];
      autoAway := autoAway + {n};
      return true;
    }

    method TripAway(l: Links)
      modifies this
      ensures Model() == Trip(old(Model()), l)
    {
      if !config.enabled {
        return;
      }
      tripped := true;
      ghost var before := old(Model());
      ghost var marked: set<Network> := {};
      TellNone(told, config.Reason());
      var i := 0;
      while i < |l.networks|
        invariant 0 <= i <= |l.networks| && config == old(config)
        invariant marked == FirstMarked(before, l, i)
        invariant Model() == Mark(before, marked).(tripped := true)
      {
        hide FirstMarked, Marked, Tell;
        var n := l.networks[i];
        MarkedOneMore(before, l, i);
        i := i + 1;
        if n in autoAway || n in manualAway || n in l.selfAway {
          continue;
        }
        var reached := MarkSession(l, n);
        if reached {
          TellOneMore(before.told, marked, n, config.Reason());
          TellOneAfter(Tell(before.told, marked, config.Reason()), n, config.Reason());
          marked := marked + {n};
        }
      }
      assert l.networks[..i] == l.networks;
      Stop();
    }

    method GraceRanOut(l: Links)
      modifies this
      ensures Model() == OnGrace(old(Model()), l)
    {
      if !graceArmed {
        return;
      }
      graceArmed := false;
      Stop();
      TripAway(l);
    }

    method IdleRanOut()
      modifies this
      ensures Model() == OnIdle(old(Model()))
    {
      if !config.enabled || config.timeout < MIN_TIMEOUT {
        return;
      }
      Stop();
      graceArmed := true;
      var seconds := GraceSeconds(config.timeout);
      clock := clock[generation := Callback(Grace, now + seconds * SECOND)];
      graceTimer := Some(generation);
    }

    /** Takes the oldest expiry off the queue, and acts on it unless its number is out of date. */
    method RunAutoawayExpiry(l: Links) returns (ran: bool)
      modifies this
      ensures ran == (old(expiries) != [])
      ensures Model() == RunExpiry(old(Model()), l)
    {
      if expiries == [] {
        return false;
      }
      var next := expiries[0];
      expiries := expiries[1..];
      if next.generation != generation {
        return true;
      }
      match next.kind {
        case Idle => IdleRanOut();
        case Grace => GraceRanOut(l);
      }
      return true;
    }

    method ClearAutoAwayNetworks(l: Links)
      modifies this
      ensures Model() == ClearNetworks(old(Model()), l)
    {
      tripped := false;
      var networks := autoAway;
      autoAway := {};
      BringBack(networks, l);
      config := config.(oneShotReason := "");
    }

    /** Brings each of these networks back that can be reached. */
    method BringBack(networks: set<Network>, l: Links)
      modifies this`told, this`unawaySent
      ensures told == old(told) - Reached(networks, l)
      ensures unawaySent == old(unawaySent) + Reached(networks, l)
    {
      hide Reached;
      ReachedOneMore({}, "", l);
      var left := networks;
      ghost var done: set<Network> := {};
      while left != {}
        invariant left <= networks && done == networks - left
        invariant told == old(told) - Reached(done, l)
        invariant unawaySent == old(unawaySent) + Reached(done, l)
        decreases left
      {
        var n :| n in left;
        left := left - {n};
        ReachedOneMore(done, n, l);
        if n in l.registered && n in l.writable {
          told := told - {n};
          unawaySent := unawaySent + {n};
        }
        done := done + {n};
      }
      assert done == networks;
    }

    method RefreshAutoAwayReason(l: Links)
      modifies this`told
      ensures Model() == RefreshReason(old(Model()), l)
    {
      if !tripped || !config.enabled {
        return;
      }
      hide Reached, Tell;
      var reason := config.Reason();
      var left := autoAway;
      ghost var done: set<Network> := {};
      ReachedOneMore({}, "", l);
      TellNone(told, reason);
      while left != {}
        invariant left <= autoAway && done == autoAway - left
        invariant told == Tell(old(told), Reached(done, l), reason)
        decreases left
      {
        var n :| n in left;
        left := left - {n};
        ReachedOneMore(done, n, l);
        if n in l.registered && n in l.writable {
          TellOneMore(old(told), Reached(done, l), n, reason);
          told := told[n := reason];
        }
        done := done + {n};
      }
    }

    method AutoawayCommand(l: Links, r: Request)
      modifies this
      ensures Model() == Command(old(Model()), l, r)
    {
      var previous := config.Reason();
      match r {
        case Query => return;
        case Usage => return;
        case Disable =>
          config := config.(enabled := false);
          Stop();
          tripped := false;
          ClearAutoAwayNetworks(l);
        case EnableOn =>
          if config.timeout < MIN_TIMEOUT {
            return;
          }
          config := config.(enabled := true);
          if !tripped {
            Arm();
          }
        case SetTimeout(seconds, text) =>
          config := config.(enabled := true, timeout := seconds);
          if text != "" {
            config := config.(oneShotReason := text);
          }
          if !tripped {
            Arm();
          }
        case SetDefaultReason(text) => config := config.(defaultReason := text);
        case ClearDefaultReason => config := config.(defaultReason := "");
      }
      if tripped && config.enabled && config.Reason() != previous {
        RefreshAutoAwayReason(l);
      }
    }

    method NoteLocalActivity(l: Links)
      modifies this
      ensures Model() == Activity(old(Model()), l)
    {
      var wasTripped := tripped;
      tripped := false;
      if autoAway != {} {
        ClearAutoAwayNetworks(l);
      } else if wasTripped {
        config := config.(oneShotReason := "");
      }
      if config.enabled {
        Arm();
      }
    }

    method NoteManualAway(n: Network)
      modifies this
      ensures Model() == ManualAway(old(Model()), n)
    {
      autoAway := autoAway - {n};
      manualAway := manualAway + {n};
    }

    method NoteAwayCleared(n: Network)
      modifies this
      ensures Model() == AwayCleared(old(Model()), n)
    {
      var wasAuto := n in autoAway;
      autoAway := autoAway - {n};
      manualAway := manualAway - {n};
      if wasAuto && autoAway == {} {
        config := config.(oneShotReason := "");
      }
    }

    method ForgetNetwork(n: Network)
      modifies this
      ensures Model() == Forget(old(Model()), n)
    {
      autoAway := autoAway - {n};
      manualAway := manualAway - {n};
      unawaySent := unawaySent - {n};
      told := told - {n};
    }

    method OnRegistered(l: Links, n: Network)
      modifies this
      ensures Model() == Registered(old(Model()), l, n)
    {
      ForgetNetwork(n);
      if tripped && config.enabled {
        var _ := MarkSession(l, n);
      }
    }

    method NoteUnawayAfterChat(l: Links, n: Network)
      modifies this
      ensures Model() == UnawayAfterChat(old(Model()), l, n)
    {
      if n !in l.selfAway || n in unawaySent || n !in l.writable {
        return;
      }
      told := told - {n};
      unawaySent := unawaySent + {n};
      NoteAwayCleared(n);
    }
  }

  /** Loaded settings arm nothing until there is activity. */
  function Initial(config: Config): State {
    State(config, Timers(None, None, false, 0, [], map[], 0), false, {}, {}, {}, map[])
  }

  // ----- every step keeps the timers in order -----

  datatype Step =
    | Commanded(request: Request, links: Links)
    | Active(links: Links)
    | WentAway(network: Network, reason: string)
    | CameBack(network: Network)
    | Chatted(network: Network, links: Links)
    | Welcomed(network: Network, links: Links)
    | Forgotten(network: Network)
    | AwayConfirmed(network: Network)
    | ExpiryRuns(links: Links)
    | TimePasses(amount: nat)
    | CallbackRuns(generation: nat)

  /** `active` is when local activity was last seen, or the start. */
  datatype System = System(s: State, active: int)

  /** A callback runs only once its time has come. */
  predicate Enabled(y: System, step: Step) {
    step.CallbackRuns? ==> step.generation in y.s.t.clock && y.s.t.now >= y.s.t.clock[step.generation].due
  }

  function RunCallback(t: Timers, g: nat): Timers
    requires g in t.clock
  {
    t.(clock := t.clock - {g}, expiries := t.expiries + [Expiry(t.clock[g].kind, g)])
  }

  function NextState(s: State, step: Step): State
    requires step.CallbackRuns? ==> step.generation in s.t.clock
  {
    match step
    case Commanded(r, l) => Command(s, l, r)
    case Active(l) => Activity(s, l)
    case WentAway(n, reason) => ManualAway(s, n).(told := s.told[n := reason])
    case CameBack(n) => AwayCleared(s, n).(told := s.told - {n})
    case Chatted(n, l) => UnawayAfterChat(s, l, n)
    case Welcomed(n, l) => Registered(s, l, n)
    case Forgotten(n) => Forget(s, n)
    case AwayConfirmed(n) => s.(unawaySent := s.unawaySent - {n})
    case ExpiryRuns(l) => RunExpiry(s, l)
    case TimePasses(amount) => s.(t := s.t.(now := s.t.now + amount))
    case CallbackRuns(g) => s.(t := RunCallback(s.t, g))
  }

  function Next(y: System, step: Step): System
    requires Enabled(y, step)
  {
    System(NextState(y.s, step), if step.Active? then y.s.t.now else y.active)
  }

  /** Queued expiries are numbered by the generations so far, and at most one is current. */
  predicate QueueOk(t: Timers) {
    && (forall i :: 0 <= i < |t.expiries| ==> t.expiries[i].generation <= t.generation)
    && (forall i, j :: 0 <= i < j < |t.expiries| && t.expiries[i].generation == t.generation ==>
          t.expiries[j].generation != t.generation)
  }

  predicate NoneCurrent(t: Timers) {
    forall i :: 0 <= i < |t.expiries| ==> t.expiries[i].generation != t.generation
  }

  /** The one live timer: the clock holds its callback, due no earlier than `due` and at most `span`
      seconds ahead, or that time has come and its expiry is queued. */
  predicate Pending(t: Timers, kind: Kind, due: int, span: int) {
    if t.clock == map[] then
      && t.now >= due
      && exists i :: 0 <= i < |t.expiries| && t.expiries[i] == Expiry(kind, t.generation)
    else
      && NoneCurrent(t)
      && t.generation in t.clock && t.clock == map[t.generation := t.clock[t.generation]]
      && t.clock[t.generation].kind == kind
      && due <= t.clock[t.generation].due <= t.now + span * SECOND
  }

  /** When the idle timer may run out, and when the grace window may close. */
  function IdleDue(c: Config, active: int): int {
    active + c.timeout * SECOND
  }

  function TripDue(c: Config, active: int): int {
    active + (c.timeout + GraceSeconds(c.timeout)) * SECOND
  }

  /** At most one timer is live. It runs only while a usable timeout is set and nothing has tripped,
      and runs out no earlier than the settings and the last activity allow. */
  predicate TimersOk(s: State, active: int) {
    && active <= s.t.now
    && QueueOk(s.t)
    && match (s.t.idle, s.t.grace)
       case (None, None) => !s.t.graceArmed && s.t.clock == map[] && NoneCurrent(s.t)
       case (Some(g), None) =>
         && g == s.t.generation && !s.t.graceArmed && s.config.InRange() && !s.tripped
         && Pending(s.t, Idle, IdleDue(s.config, active), s.config.timeout)
       case (None, Some(g)) =>
         && g == s.t.generation && s.t.graceArmed && s.config.InRange() && !s.tripped
         && Pending(s.t, Grace, TripDue(s.config, active), GraceSeconds(s.config.timeout))
       case _ => false
  }

  /** The away sets: no network is in both, only a tripped auto-away has any, and it stays tripped
      only while it is on and no timer runs. */
  predicate SetsOk(s: State) {
    && s.auto !! s.manual
    && (s.auto != {} ==> s.tripped)
    && (s.tripped ==> s.config.enabled && s.t.idle.None? && s.t.grace.None?)
  }

  lemma StopKeepsTimers(s: State, active: int)
    requires TimersOk(s, active)
    ensures var t := StopTimers(s.t);
            TimersOk(s.(t := t), active) && t.idle.None? && t.grace.None? && t.now == s.t.now
  {
  }

  /** Arming the idle timer, whatever the settings became. */
  lemma ArmKeepsTimers(s: State, c: Config, active: int)
    requires TimersOk(s, active) && !s.tripped
    ensures TimersOk(ArmIdle(s.(config := c)), active) && TimersOk(ArmIdle(s.(config := c)), s.t.now)
  {
    StopKeepsTimers(s, active);
    var t := StopTimers(s.t);
    assert Held(t, Idle, c.timeout).clock == map[t.generation := Callback(Idle, t.now + c.timeout * SECOND)];
  }

  predicate InOrder(y: System) {
    TimersOk(y.s, y.active) && SetsOk(y.s)
  }

  /** A change of settings that keeps the timeout and the switch, and of the away sets, is nothing to
      the timers; nor is lifting a trip, since no timer runs then. */
  lemma SetsDoNotTime(s: State, after: State, active: int)
    requires TimersOk(s, active) && SetsOk(s) && after.t == s.t
    requires after.config.enabled == s.config.enabled && after.config.timeout == s.config.timeout
    requires after.tripped ==> s.tripped
    ensures TimersOk(after, active)
  {
  }

  lemma ActivityKeeps(s: State, l: Links, active: int)
    requires TimersOk(s, active) && SetsOk(s)
    ensures TimersOk(Activity(s, l), s.t.now) && SetsOk(Activity(s, l))
  {
    hide TimersOk, Reached;
    var calm := s.(tripped := false, auto := {});
    SetsDoNotTime(s, calm, active);
    var after := Activity(s, l);
    if s.config.enabled {
      ArmKeepsTimers(calm, after.config, active);
      SetsDoNotTime(ArmIdle(calm.(config := after.config)), after, s.t.now);
    } else {
      OffIsQuiet(s, active);
      SetsDoNotTime(calm, after, s.t.now);
    }
  }

  /** Nothing is timed while auto-away is off. */
  lemma OffIsQuiet(s: State, active: int)
    requires TimersOk(s, active) && !s.config.enabled
    ensures s.t.idle.None? && s.t.grace.None? && TimersOk(s.(tripped := false, auto := {}), s.t.now)
  {
  }

  lemma CommandKeeps(s: State, l: Links, r: Request, active: int)
    requires TimersOk(s, active) && SetsOk(s)
    ensures TimersOk(Command(s, l, r), active) && SetsOk(Command(s, l, r))
  {
    hide TimersOk, Reached, Tell;
    var after := Command(s, l, r);
    match r
    case Disable =>
      StopKeepsTimers(s, active);
      QuietAnyway(s.(t := StopTimers(s.t)), after, active);
    case EnableOn =>
      if s.tripped {
        QuietAnyway(s, after, active);
      } else if s.config.timeout >= MIN_TIMEOUT {
        ArmKeepsTimers(s, Configured(s.config, r), active);
      }
    case SetTimeout(_, _) =>
      if s.tripped {
        QuietAnyway(s, after, active);
      } else {
        ArmKeepsTimers(s, Configured(s.config, r), active);
      }
    case _ => SetsDoNotTime(s, after, active);
  }

  /** Without a timer, no change of settings or of the trip can upset one. */
  lemma QuietAnyway(s: State, after: State, active: int)
    requires TimersOk(s, active) && s.t.idle.None? && s.t.grace.None? && after.t == s.t
    ensures TimersOk(after, active)
  {
  }

  /** Dropping a stale expiry changes nothing else. */
  lemma StaleExpiryIsNothing(s: State, l: Links, active: int)
    requires TimersOk(s, active) && s.t.expiries != [] && s.t.expiries[0].generation != s.t.generation
    ensures RunExpiry(s, l) == s.(t := s.t.(expiries := s.t.expiries[1..]))
    ensures TimersOk(RunExpiry(s, l), active)
  {
  }

  /** A current expiry belongs to the live timer, whose time has come; nothing is left of it but the
      timer itself. */
  lemma CurrentExpiryIsDue(s: State, active: int)
    requires TimersOk(s, active) && s.t.expiries != [] && s.t.expiries[0].generation == s.t.generation
    ensures var kind := s.t.expiries[0].kind;
            && s.t.clock == map[] && s.config.InRange() && !s.tripped
            && s.t.graceArmed == (kind == Grace)
            && s.t.now >= (if kind == Idle then IdleDue(s.config, active) else TripDue(s.config, active))
  {
  }

  /** The queue after an expiry is taken and the timers are stopped holds nothing current. */
  lemma StoppedQueue(s: State, active: int)
    requires TimersOk(s, active) && s.t.expiries != [] && s.t.clock == map[]
    ensures var t := StopTimers(s.t.(expiries := s.t.expiries[1..]));
            && QueueOk(t) && NoneCurrent(t) && t.clock == map[] && t.generation == s.t.generation + 1
            && t.idle.None? && t.grace.None? && !t.graceArmed
            && var u := StopTimers(t);
            QueueOk(u) && NoneCurrent(u) && u.clock == map[] && u.idle.None? && u.grace.None? && !u.graceArmed
  {
  }

  /** The idle timer ran out: the grace window opens, due a grace later. */
  lemma IdleOpensGrace(s: State, l: Links, active: int)
    requires TimersOk(s, active) && s.t.expiries != [] && s.t.expiries[0] == Expiry(Idle, s.t.generation)
    ensures var after := RunExpiry(s, l);
            && TimersOk(after, active) && after == s.(t := after.t)
            && after.t.grace == Some(after.t.generation) && after.t.idle.None?
            && after.t.clock == map[after.t.generation := Callback(Grace, s.t.now + GraceSeconds(s.config.timeout) * SECOND)]
  {
    CurrentExpiryIsDue(s, active);
    StoppedQueue(s, active);
    var t := StopTimers(s.t.(expiries := s.t.expiries[1..]));
    assert Held(t, Grace, GraceSeconds(s.config.timeout)).expiries == t.expiries;
  }

  /** The grace window closed: everything that can be marked is, and no timer is left. */
  lemma GraceTrips(s: State, l: Links, active: int)
    requires TimersOk(s, active) && SetsOk(s)
    requires s.t.expiries != [] && s.t.expiries[0] == Expiry(Grace, s.t.generation)
    ensures var after := RunExpiry(s, l);
            && TimersOk(after, active) && SetsOk(after) && after.tripped
            && after.auto == Marked(s, l) && after.config == s.config
            && !s.tripped && s.config.InRange() && s.t.now >= TripDue(s.config, active)
  {
  }

  lemma ExpiryKeeps(s: State, l: Links, active: int)
    requires TimersOk(s, active) && SetsOk(s)
    ensures TimersOk(RunExpiry(s, l), active) && SetsOk(RunExpiry(s, l))
    ensures !s.tripped && RunExpiry(s, l).tripped ==> s.config.InRange() && s.t.now >= TripDue(s.config, active)
  {
    hide TimersOk, OnIdle, OnGrace;
    if s.t.expiries != [] {
      if s.t.expiries[0].generation != s.t.generation {
        StaleExpiryIsNothing(s, l, active);
      } else if s.t.expiries[0].kind == Idle {
        IdleOpensGrace(s, l, active);
        CurrentExpiryIsDue(s, active);
      } else {
        GraceTrips(s, l, active);
      }
    }
  }

  lemma CallbackKeeps(s: State, g: nat, active: int)
    requires TimersOk(s, active) && g in s.t.clock && s.t.now >= s.t.clock[g].due
    ensures TimersOk(s.(t := RunCallback(s.t, g)), active)
  {
    var t := s.t;
    var u := RunCallback(t, g);
    assert u.expiries[|t.expiries|] == Expiry(t.clock[g].kind, g);
    assert g == t.generation && u.clock == map[];
  }

  lemma LaterKeeps(s: State, amount: nat, active: int)
    requires TimersOk(s, active)
    ensures TimersOk(s.(t := s.t.(now := s.t.now + amount)), active)
  {
  }

  /** Every step keeps the timers and the sets in order. */
  lemma StepKeepsOrder(y: System, step: Step)
    requires Enabled(y, step) && InOrder(y)
    ensures InOrder(Next(y, step))
  {
    hide TimersOk, Tell;
    var s := y.s;
    match step
    case Commanded(r, l) => CommandKeeps(s, l, r, y.active);
    case Active(l) => ActivityKeeps(s, l, y.active);
    case ExpiryRuns(l) => ExpiryKeeps(s, l, y.active);
    case CallbackRuns(g) => CallbackKeeps(s, g, y.active);
    case TimePasses(amount) => LaterKeeps(s, amount, y.active);
    case _ => SetsDoNotTime(s, Next(y, step).s, y.active);
  }

  // ----- a trip is never lost -----

  /** While auto-away is on with a usable timeout it has tripped or a timer is live. Freshly loaded
      settings are not watched until there is activity. */
  predicate Watching(s: State) {
    s.config.InRange() && !s.tripped ==> s.t.idle.Some? || s.t.grace.Some?
  }

  lemma StepKeepsWatching(y: System, step: Step)
    requires Enabled(y, step) && InOrder(y)
    ensures Watching(y.s) || step.Active? ==> Watching(Next(y, step).s)
  {
    hide Pending, NoneCurrent, QueueOk, Tell, Reached, Marked;
  }

  function Pump(k: nat, l: Links): seq<Step> {
    if k == 0 then [] else [ExpiryRuns(l)] + Pump(k - 1, l)
  }

  /** Some seconds in which nothing happens: the live timer's callback runs if the clock still holds it,
      and the queue is pumped empty. */
  function Wait(s: State, seconds: nat, l: Links): seq<Step> {
    var g := s.t.generation;
    [TimePasses(seconds * SECOND)]
    + if g in s.t.clock then [CallbackRuns(g)] + Pump(|s.t.expiries| + 1, l) else Pump(|s.t.expiries|, l)
  }

  predicate ValidRun(y: System, steps: seq<Step>)
    decreases |steps|
  {
    steps == [] || (Enabled(y, steps[0]) && ValidRun(Next(y, steps[0]), steps[1..]))
  }

  function Run(y: System, steps: seq<Step>): System
    requires ValidRun(y, steps)
    decreases |steps|
  {
    if steps == [] then y else Run(Next(y, steps[0]), steps[1..])
  }

  lemma {:induction false} RunInTwo(y: System, first: seq<Step>, second: seq<Step>)
    requires ValidRun(y, first) && ValidRun(Run(y, first), second)
    ensures ValidRun(y, first + second) && Run(y, first + second) == Run(Run(y, first), second)
    decreases |first|
  {
    if first == [] {
      assert first + second == second;
    } else {
      RunInTwo(Next(y, first[0]), first[1..], second);
      assert (first + second)[1..] == first[1..] + second;
    }
  }

  lemma RunOne(y: System, step: Step, steps: seq<Step>)
    requires Enabled(y, step) && ValidRun(Next(y, step), steps)
    ensures ValidRun(y, [step] + steps) && Run(y, [step] + steps) == Run(Next(y, step), steps)
  {
    assert ([step] + steps)[1..] == steps;
  }

  function Emptied(y: System): System {
    y.(s := y.s.(t := y.s.t.(expiries := [])))
  }

  function Popped(y: System): System
    requires y.s.t.expiries != []
  {
    y.(s := y.s.(t := y.s.t.(expiries := y.s.t.expiries[1..])))
  }

  lemma PopStale(y: System, l: Links)
    requires InOrder(y) && y.s.t.expiries != [] && y.s.t.expiries[0].generation != y.s.t.generation
    ensures Next(y, ExpiryRuns(l)) == Popped(y) && InOrder(Popped(y))
  {
    StaleExpiryIsNothing(y.s, l, y.active);
    hide TimersOk;
  }

  /** Pumping a queue of nothing but stale expiries only empties it. */
  lemma {:induction false} PumpStale(y: System, l: Links)
    requires InOrder(y) && NoneCurrent(y.s.t)
    ensures ValidRun(y, Pump(|y.s.t.expiries|, l)) && Run(y, Pump(|y.s.t.expiries|, l)) == Emptied(y)
    ensures InOrder(Emptied(y))
    decreases |y.s.t.expiries|
  {
    var k := |y.s.t.expiries|;
    if k == 0 {
      assert Emptied(y) == y;
    } else {
      PopStale(y, l);
      assert NoneCurrent(Popped(y).s.t);
      hide InOrder, NoneCurrent, Next;
      PumpStale(Popped(y), l);
      RunOne(y, ExpiryRuns(l), Pump(k - 1, l));
    }
  }

  /** The live timer has run out, and its expiry is somewhere in the queue. */
  predicate RanOut(y: System, kind: Kind) {
    InOrder(y) && y.s.t.clock == map[] && if kind == Idle then y.s.t.idle.Some? else y.s.t.grace.Some?
  }

  /** Either the live timer's expiry is the oldest of the queue, or that one is stale. */
  lemma HeadOfQueue(y: System, kind: Kind, l: Links)
    requires RanOut(y, kind)
    ensures y.s.t.expiries != []
    ensures y.s.t.expiries[0].generation == y.s.t.generation ==> y.s.t.expiries[0] == Expiry(kind, y.s.t.generation)
    ensures y.s.t.expiries[0].generation != y.s.t.generation ==>
              Next(y, ExpiryRuns(l)) == Popped(y) && RanOut(Popped(y), kind)
  {
    if y.s.t.expiries[0].generation == y.s.t.generation {
      CurrentExpiryIsDue(y.s, y.active);
    } else {
      PopStale(y, l);
    }
  }

  /** The grace window of the settings is open, and nothing is queued. */
  predicate InGrace(y: System) {
    && InOrder(y) && y.s.config.InRange() && y.s.t.grace.Some? && y.s.t.expiries == []
  }

  lemma {:induction false} PumpOpensGrace(y: System, l: Links)
    requires RanOut(y, Idle)
    ensures ValidRun(y, Pump(|y.s.t.expiries|, l))
    ensures var waiting := Run(y, Pump(|y.s.t.expiries|, l));
            InGrace(waiting) && waiting.active == y.active && waiting.s == y.s.(t := waiting.s.t)
    decreases |y.s.t.expiries|
  {
    var k := |y.s.t.expiries|;
    HeadOfQueue(y, Idle, l);
    var next := Next(y, ExpiryRuns(l));
    if y.s.t.expiries[0].generation == y.s.t.generation {
      IdleOpensGrace(y.s, l, y.active);
      StepKeepsOrder(y, ExpiryRuns(l));
      PumpStale(next, l);
    } else {
      hide InOrder, Next;
      PumpOpensGrace(next, l);
    }
    hide Next, TimersOk, SetsOk;
    assert |next.s.t.expiries| == k - 1;
    RunOne(y, ExpiryRuns(l), Pump(k - 1, l));
  }

  lemma {:induction false} PumpTrips(y: System, l: Links)
    requires RanOut(y, Grace)
    ensures ValidRun(y, Pump(|y.s.t.expiries|, l))
    ensures var last := Run(y, Pump(|y.s.t.expiries|, l));
            last.s.tripped && last.s.auto == Marked(y.s, l)
    decreases |y.s.t.expiries|
  {
    var k := |y.s.t.expiries|;
    HeadOfQueue(y, Grace, l);
    var next := Next(y, ExpiryRuns(l));
    if y.s.t.expiries[0].generation == y.s.t.generation {
      GraceTrips(y.s, l, y.active);
      StepKeepsOrder(y, ExpiryRuns(l));
      PumpStale(next, l);
    } else {
      hide InOrder, Next;
      PumpTrips(next, l);
      assert Marked(next.s, l) == Marked(y.s, l);
    }
    hide Next, TimersOk, SetsOk, Marked;
    assert |next.s.t.expiries| == k - 1;
    RunOne(y, ExpiryRuns(l), Pump(k - 1, l));
  }

  /** The seconds after which a live timer has run out at the latest. */
  function Span(s: State): nat
    requires s.config.timeout >= 0
  {
    if s.t.idle.Some? then s.config.timeout else GraceSeconds(s.config.timeout)
  }

  /** The state in which the pumping of a wait begins. */
  function Due(y: System, seconds: nat): System
    requires InOrder(y) && y.s.config.InRange() && (y.s.t.idle.Some? || y.s.t.grace.Some?) && seconds == Span(y.s)
  {
    var later := Next(y, TimePasses(seconds * SECOND));
    CallbackEnabled(y);
    if y.s.t.generation in y.s.t.clock then Next(later, CallbackRuns(y.s.t.generation)) else later
  }

  lemma CallbackEnabled(y: System)
    requires InOrder(y) && y.s.config.InRange() && (y.s.t.idle.Some? || y.s.t.grace.Some?)
    ensures y.s.t.generation in y.s.t.clock ==>
              Enabled(Next(y, TimePasses(Span(y.s) * SECOND)), CallbackRuns(y.s.t.generation))
    ensures y.s.t.generation !in y.s.t.clock ==> y.s.t.clock == map[]
  {
  }

  lemma DueRanOut(y: System)
    requires InOrder(y) && y.s.config.InRange() && (y.s.t.idle.Some? || y.s.t.grace.Some?)
    ensures var due := Due(y, Span(y.s));
            && RanOut(due, if y.s.t.idle.Some? then Idle else Grace)
            && due.active == y.active && due.s == y.s.(t := due.s.t)
            && |due.s.t.expiries| == |y.s.t.expiries| + if y.s.t.generation in y.s.t.clock then 1 else 0
  {
    var later := Next(y, TimePasses(Span(y.s) * SECOND));
    StepKeepsOrder(y, TimePasses(Span(y.s) * SECOND));
    CallbackEnabled(y);
    if y.s.t.generation in y.s.t.clock {
      StepKeepsOrder(later, CallbackRuns(y.s.t.generation));
    }
  }

  /** A wait comes to pumping what is queued once the live timer has run out. */
  lemma WaitPumps(y: System, l: Links)
    requires InOrder(y) && y.s.config.InRange() && (y.s.t.idle.Some? || y.s.t.grace.Some?)
    requires ValidRun(Due(y, Span(y.s)), Pump(|Due(y, Span(y.s)).s.t.expiries|, l))
    ensures ValidRun(y, Wait(y.s, Span(y.s), l))
    ensures Run(y, Wait(y.s, Span(y.s), l)) == Run(Due(y, Span(y.s)), Pump(|Due(y, Span(y.s)).s.t.expiries|, l))
  {
    var g := y.s.t.generation;
    var later := Next(y, TimePasses(Span(y.s) * SECOND));
    CallbackEnabled(y);
    DueRanOut(y);
    var pump := Pump(|Due(y, Span(y.s)).s.t.expiries|, l);
    hide Next, InOrder, RanOut, Pump, ValidRun, Run;
    if g in y.s.t.clock {
      RunOne(later, CallbackRuns(g), pump);
      RunOne(y, TimePasses(Span(y.s) * SECOND), [CallbackRuns(g)] + pump);
    } else {
      RunOne(y, TimePasses(Span(y.s) * SECOND), pump);
    }
  }

  /** Silence for the timeout, whatever stale expiries are queued, is the grace window. */
  lemma SilenceOpensGrace(y: System, l: Links)
    requires InOrder(y) && y.s.config.InRange() && y.s.t.idle.Some?
    ensures ValidRun(y, Wait(y.s, y.s.config.timeout, l))
    ensures var waiting := Run(y, Wait(y.s, y.s.config.timeout, l));
            InGrace(waiting) && waiting.active == y.active && waiting.s == y.s.(t := waiting.s.t)
  {
    DueRanOut(y);
    hide InOrder, Next, Pump, Due;
    PumpOpensGrace(Due(y, Span(y.s)), l);
    WaitPumps(y, l);
  }

  /** Silence for the grace, once its window is open, trips. */
  lemma GraceSilenceTrips(y: System, l: Links)
    requires InOrder(y) && y.s.config.InRange() && y.s.t.grace.Some?
    ensures var steps := Wait(y.s, GraceSeconds(y.s.config.timeout), l);
            ValidRun(y, steps) && Run(y, steps).s.tripped && Run(y, steps).s.auto == Marked(y.s, l)
  {
    assert y.s.t.idle.None?;
    DueRanOut(y);
    hide InOrder, Next, Pump, Due;
    PumpTrips(Due(y, Span(y.s)), l);
    WaitPumps(y, l);
    assert Marked(Due(y, Span(y.s)).s, l) == Marked(y.s, l);
  }

  /** From any state with a live idle timer: a user who stays silent for the timeout and then the grace
      is marked away, wherever a line gets through. */
  lemma SilenceTrips(y: System, l: Links)
    requires InOrder(y) && y.s.config.InRange() && y.s.t.idle.Some?
    ensures var first := Wait(y.s, y.s.config.timeout, l);
            && ValidRun(y, first)
            && var second := Wait(Run(y, first).s, GraceSeconds(y.s.config.timeout), l);
            && ValidRun(y, first + second)
            && Run(y, first + second).s.tripped && Run(y, first + second).s.auto == Marked(y.s, l)
  {
    SilenceOpensGrace(y, l);
    var first := Wait(y.s, y.s.config.timeout, l);
    var waiting := Run(y, first);
    GraceSilenceTrips(waiting, l);
    assert Marked(waiting.s, l) == Marked(y.s, l);
    hide Wait, InOrder, Marked, Run, ValidRun;
    RunInTwo(y, first, Wait(waiting.s, GraceSeconds(y.s.config.timeout), l));
  }

  // ----- what a network was told -----

  /** The server of `n` has us away exactly when auto-away or the user holds us away there, and for
      auto-away with the reason it now gives. */
  predicate ToldRight(s: State, n: Network) {
    && (n in s.told <==> n in s.auto || n in s.manual)
    && (n in s.auto ==> s.told[n] == s.config.Reason())
  }

  /** Activity, or auto-away switched off, while `n` is auto-away and cannot be reached. */
  predicate Strands(s: State, step: Step, n: Network) {
    && n in s.auto
    && ((step.Active? && !step.links.Reaches(n))
        || (step.Commanded? && step.request.Disable? && !step.links.Reaches(n)))
  }

  /** The reason changes while `n` is auto-away and cannot be reached. */
  predicate LosesReason(s: State, step: Step, n: Network) {
    && n in s.auto
    && step.Commanded? && !step.request.Disable? && !step.links.Reaches(n)
    && Configured(s.config, step.request).Reason() != s.config.Reason()
  }

  /** Every step keeps a network told right, except exactly one that strands it or loses its reason. */
  lemma StepKeepsTold(y: System, step: Step, n: Network)
    requires Enabled(y, step) && InOrder(y) && ToldRight(y.s, n)
    ensures ToldRight(Next(y, step).s, n) <==> !Strands(y.s, step, n) && !LosesReason(y.s, step, n)
  {
    hide StopTimers, Held, TimersOk;
  }

  predicate KeepsTold(y: System, steps: seq<Step>, n: Network)
    requires ValidRun(y, steps)
    decreases |steps|
  {
    steps != [] ==>
      && !Strands(y.s, steps[0], n) && !LosesReason(y.s, steps[0], n)
      && KeepsTold(Next(y, steps[0]), steps[1..], n)
  }

  /** Stranded: auto-away has forgotten a network whose server still has us away. */
  predicate Stranded(s: State, n: Network) {
    n in s.told && n !in s.auto && n !in s.manual
  }

  /** The queue starts with the expiry that closes the grace window. */
  predicate TripsNow(s: State) {
    && s.t.expiries != [] && s.t.expiries[0] == Expiry(Grace, s.t.generation)
    && s.t.graceArmed && s.config.enabled
  }

  /** The steps that can lead out of it: `/away`, `/back`, a chat line that brings us back, a welcome,
      the network forgotten, or a trip that marks it anew. */
  predicate Mends(s: State, step: Step, n: Network) {
    || (step.WentAway? && step.network == n)
    || (step.CameBack? && step.network == n)
    || (step.Chatted? && step.network == n && n in step.links.selfAway && n !in s.unawaySent && n in step.links.writable)
    || (step.Welcomed? && step.network == n)
    || (step.Forgotten? && step.network == n)
    || (step.ExpiryRuns? && TripsNow(s) && n in Marked(s, step.links))
  }

  /** A stranding step leaves the network stranded, and exactly these steps lead out; activity, settings
      and switching auto-away on or off do not. */
  lemma StrandedStays(y: System, step: Step, n: Network)
    requires Enabled(y, step) && InOrder(y)
    ensures ToldRight(y.s, n) && Strands(y.s, step, n) ==> Stranded(Next(y, step).s, n)
    ensures Stranded(y.s, n) ==> (Stranded(Next(y, step).s, n) <==> !Mends(y.s, step, n))
  {
    hide StopTimers, Held, TimersOk;
  }

  /** Activity brings back exactly the auto-away networks that can be reached; one that cannot is
      forgotten by auto-away while it was last told a reason. */
  lemma ActivityBringsBack(y: System, l: Links)
    requires InOrder(y) && forall n :: n in y.s.auto ==> ToldRight(y.s, n)
    ensures var after := Activity(y.s, l);
            && after.auto == {} && !after.tripped
            && forall n :: n in y.s.auto ==> (n in after.told <==> !l.Reaches(n))
  {
  }

  // ----- the unaway line -----

  /** The lines a run's chats wrote to bring `n` back. */
  function ChatsBringBack(y: System, steps: seq<Step>, n: Network): nat
    requires ValidRun(y, steps)
    decreases |steps|
  {
    if steps == [] then 0
    else
      ChatsBringBack(Next(y, steps[0]), steps[1..], n)
      + if steps[0].Chatted? && steps[0].network == n && NextState(y.s, steps[0]) != y.s then 1 else 0
  }

  /** What ends an away period of `n`: the server confirms a change, or the network starts over. */
  predicate Lifts(step: Step, n: Network) {
    (step.AwayConfirmed? || step.Welcomed? || step.Forgotten?) && step.network == n
  }

  lemma StepKeepsLatch(y: System, step: Step, n: Network)
    requires Enabled(y, step) && !Lifts(step, n) && n in y.s.unawaySent
    ensures n in Next(y, step).s.unawaySent
  {
    hide StopTimers, Held, Tell, Marked;
  }

  /** Within one away period chat brings a network back at most once, and not at all once it was. */
  lemma {:induction false} OneUnawayPerPeriod(y: System, steps: seq<Step>, n: Network)
    requires ValidRun(y, steps) && forall i :: 0 <= i < |steps| ==> !Lifts(steps[i], n)
    ensures ChatsBringBack(y, steps, n) <= if n in y.s.unawaySent then 0 else 1
    decreases |steps|
  {
    if steps != [] {
      OneUnawayPerPeriod(Next(y, steps[0]), steps[1..], n);
      if n in y.s.unawaySent {
        StepKeepsLatch(y, steps[0], n);
      }
      hide ArmIdle, OnIdle, OnGrace, Tell, ClearNetworks;
    }
  }

  // ----- whole runs -----

  lemma {:induction false} RunKeepsOrder(y: System, steps: seq<Step>)
    requires ValidRun(y, steps) && InOrder(y)
    ensures InOrder(Run(y, steps))
    decreases |steps|
  {
    if steps != [] {
      StepKeepsOrder(y, steps[0]);
      RunKeepsOrder(Next(y, steps[0]), steps[1..]);
    }
  }

  lemma {:induction false} RunKeepsTold(y: System, steps: seq<Step>, n: Network)
    requires ValidRun(y, steps) && InOrder(y) && ToldRight(y.s, n) && KeepsTold(y, steps, n)
    ensures ToldRight(Run(y, steps).s, n)
    decreases |steps|
  {
    if steps != [] {
      StepKeepsOrder(y, steps[0]);
      StepKeepsTold(y, steps[0], n);
      hide InOrder, ToldRight, Strands, LosesReason, Next;
      RunKeepsTold(Next(y, steps[0]), steps[1..], n);
    }
  }

  /** Over every run from loaded settings that neither strands a network nor loses its reason, whatever
      happens to the others: its server has us away exactly when one of the away sets says so, and for
      the auto set with the reason of now. */
  lemma ServerFollowsTheSets(config: Config, steps: seq<Step>, n: Network)
    requires ValidRun(System(Initial(config), 0), steps) && KeepsTold(System(Initial(config), 0), steps, n)
    ensures var s := Run(System(Initial(config), 0), steps).s;
            && (n in s.told <==> n in s.auto || n in s.manual)
            && (n in s.auto ==> s.told[n] == s.config.Reason())
  {
    RunKeepsTold(System(Initial(config), 0), steps, n);
  }

  predicate NoneMend(y: System, steps: seq<Step>, n: Network)
    requires ValidRun(y, steps)
    decreases |steps|
  {
    steps != [] ==> !Mends(y.s, steps[0], n) && NoneMend(Next(y, steps[0]), steps[1..], n)
  }

  /** Once stranded a network stays so, over every run without a step that mends it. */
  lemma {:induction false} StrandedForGood(y: System, steps: seq<Step>, n: Network)
    requires ValidRun(y, steps) && InOrder(y) && Stranded(y.s, n) && NoneMend(y, steps, n)
    ensures Stranded(Run(y, steps).s, n)
    decreases |steps|
  {
    if steps != [] {
      StepKeepsOrder(y, steps[0]);
      StrandedStays(y, steps[0], n);
      hide InOrder, Stranded, Mends, Next;
      StrandedForGood(Next(y, steps[0]), steps[1..], n);
    }
  }

  /** Over every run from loaded settings: the step that trips comes after no activity for the
      configured timeout and its grace; the auto and manual sets never meet; only a tripped auto-away
      has networks; and once tripped it is on and nothing is timed. */
  lemma TripsAreNeverEarly(config: Config, steps: seq<Step>, step: Step)
    requires ValidRun(System(Initial(config), 0), steps)
    requires Enabled(Run(System(Initial(config), 0), steps), step)
    ensures var y := Run(System(Initial(config), 0), steps);
            && y.s.auto !! y.s.manual
            && (y.s.auto != {} ==> y.s.tripped)
            && (y.s.tripped ==> y.s.config.enabled && y.s.t.idle.None? && y.s.t.grace.None? && y.s.t.clock == map[])
            && !(y.s.t.idle.Some? && y.s.t.grace.Some?)
            && (!y.s.tripped && Next(y, step).s.tripped ==>
                  && y.s.config.InRange()
                  && y.s.t.now - y.active >= (y.s.config.timeout + GraceSeconds(y.s.config.timeout)) * SECOND)
  {
    RunKeepsOrder(System(Initial(config), 0), steps);
    var y := Run(System(Initial(config), 0), steps);
    if step.ExpiryRuns? {
      ExpiryKeeps(y.s, step.links, y.active);
    }
    hide Tell, Reached, Marked, RunExpiry;
  }
}
