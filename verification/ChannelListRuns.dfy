/**
 Whole runs of `/list`: what happens to the requests, what an observer knows of them, and their idle
 timers. The main results: no load is timed out early, and none that falls silent hangs.
 */
module ChannelListRuns {
  import opened ChannelList
  import opened Wrappers

  datatype Step =
    | Command(network: Network, mask: string, connected: bool, accepted: bool)
    | RowArrives(network: Network, row: ListedChannel)
    | StartArrives(network: Network)
    | EndArrives(network: Network, connected: bool, accepted: bool)
    | FailureArrives(network: Network, text: string)
    | ExpiryRuns
    | OverlayCloses
    | NetworkForgotten(network: Network)
    | ConnectionDrops(network: Network)
    | TimePasses(amount: nat)
    | CallbackRuns(generation: nat)

  /** What each server has still to answer, oldest first. Every LIST accepted has its own number, and
      `latest` holds the number of each network's last one. */
  datatype Replies = Replies(queue: map<Network, seq<nat>>, latest: map<Network, nat>, issued: nat)
  {
    function Queue(n: Network): seq<nat> {
      if n in queue then queue[n] else []
    }

    function Answered(n: Network): Replies {
      this.(queue := queue[n := if Queue(n) == [] then [] else Queue(n)[1..]])
    }

    function Dropped(n: Network): Replies {
      this.(queue := queue[n := []])
    }

    function Sent(n: Network): Replies {
      Replies(queue[n := Queue(n) + [issued]], latest[n := issued], issued + 1)
    }
  }

  /** The lists, and what an observer knows of them: the replies to come, when each load was last heard
      of, and the timeouts that ran. */
  datatype System = System(
    lists: Lists,
    replies: Replies,
    heard: map<Network, nat>,
    spent: set<Expiry>)

  /** A callback runs only once its time has come. */
  predicate Enabled(s: System, step: Step) {
    step.CallbackRuns? ==>
      step.generation in s.lists.r.t.clock && s.lists.r.t.now >= s.lists.r.t.clock[step.generation].due
  }

  function RunCallback(t: Timing, g: nat): Timing
    requires g in t.clock
  {
    t.(clock := t.clock - {g}, expiries := t.expiries + [Expiry(t.clock[g].network, g)])
  }

  function NextLists(l: Lists, f: Folds, step: Step): Lists
    requires step.CallbackRuns? ==> step.generation in l.r.t.clock
  {
    match step
    case Command(n, mask, connected, accepted) => StartList(l, f, n, mask, connected, accepted)
    case RowArrives(n, row) => RowLine(l, f, n, row)
    case StartArrives(n) => l.(r := Activity(l.r, n))
    case EndArrives(n, connected, accepted) => EndList(l, f, n, connected, accepted)
    case FailureArrives(n, text) => FailLoad(l, n, text, false)
    case ExpiryRuns => RunExpiry(l)
    case OverlayCloses => l.(v := l.v.(open := false))
    case NetworkForgotten(n) => ForgetNetwork(l, n)
    case ConnectionDrops(_) => l
    case TimePasses(amount) => l.(r := l.r.(t := l.r.t.(now := l.r.t.now + amount)))
    case CallbackRuns(g) => l.(r := l.r.(t := RunCallback(l.r.t, g)))
  }

  /** A command that starts a fresh load, whether or not its LIST is accepted. */
  predicate CommandStarts(l: Lists, f: Folds, step: Step) {
    && step.Command? && step.network != "" && step.connected
    && RequestKind(l.r, f, step.network, step.mask, Refreshes(l, f, step.network, step.mask)) == Start
  }

  /** An end that completes its load and has a next one to start. */
  predicate EndStartsNext(l: Lists, f: Folds, step: Step) {
    && step.EndArrives? && step.connected
    && Completes(l.r, step.network) && NextMask(l.r, f, step.network).Some?
  }

  /** A LIST line reaches the server. */
  predicate Writes(l: Lists, f: Folds, step: Step) {
    (CommandStarts(l, f, step) || EndStartsNext(l, f, step)) && step.accepted
  }

  /** A load is heard of: it starts, or its server says 321, sends a row the cache looks at, or ends
      the load before it. */
  predicate Hears(l: Lists, f: Folds, step: Step) {
    || CommandStarts(l, f, step)
    || EndStartsNext(l, f, step)
    || (step.StartArrives? && l.r.IsLoading(step.network))
    || (step.RowArrives? && Stores(l.r, step.network, step.row))
    || (step.EndArrives? && l.r.IsLoading(step.network) && l.r.Drains(step.network))
  }

  /** A reply uses up the oldest LIST; a network forgotten or disconnected answers none of them. */
  function NextReplies(p: Replies, l: Lists, f: Folds, step: Step): Replies {
    var after :=
      if step.EndArrives? || step.FailureArrives? then p.Answered(step.network)
      else if step.NetworkForgotten? || step.ConnectionDrops? then p.Dropped(step.network)
      else p;
    if Writes(l, f, step) then after.Sent(step.network) else after
  }

  function Next(s: System, f: Folds, step: Step): System
    requires Enabled(s, step)
  {
    System(
      NextLists(s.lists, f, step),
      NextReplies(s.replies, s.lists, f, step),
      if Hears(s.lists, f, step) then s.heard[step.network := s.lists.r.t.now] else s.heard,
      match DueExpiry(s.lists.r.t)
      case Some(e) => if step.ExpiryRuns? then s.spent + {e} else s.spent
      case None => s.spent)
  }

  // ----- timers -----

  predicate IsCurrent(t: Timing, e: Expiry) {
    e.network in t.timers && t.timers[e.network] == e.generation
  }

  /** Generations only grow, so one armed later is new everywhere. */
  predicate Numbered(t: Timing) {
    && (forall n, m :: n in t.timers && m in t.timers && t.timers[n] == t.timers[m] ==> n == m)
    && (forall n :: n in t.timers ==> t.timers[n] <= t.generation)
    && (forall g :: g in t.clock ==> g <= t.generation)
    && (forall e :: e in t.expiries ==> e.generation <= t.generation)
  }

  /** The clock holds only current timers, due an idle window after their network was last heard of. */
  predicate ClockOk(t: Timing, heard: map<Network, nat>) {
    forall g :: g in t.clock ==>
      var c := t.clock[g];
      && c.network in t.timers && t.timers[c.network] == g
      && c.network in heard && c.due == heard[c.network] + t.idle
  }

  predicate IsHeld(t: Timing, n: Network, g: nat) {
    g in t.clock && t.clock[g].network == n
  }

  /** A current timer is not lost: the clock holds its callback, or its expiry is queued. */
  predicate Alive(t: Timing) {
    forall n :: n in t.timers ==> IsHeld(t, n, t.timers[n]) || Expiry(n, t.timers[n]) in t.expiries
  }

  /** A queued expiry that is still current comes after a whole idle window of silence, and is the
      only one its timer will queue. */
  predicate QueueOk(t: Timing, heard: map<Network, nat>) {
    forall e :: e in t.expiries && IsCurrent(t, e) ==>
      && e.network in heard && t.now >= heard[e.network] + t.idle
      && !IsHeld(t, e.network, e.generation)
  }

  /** A timer that ran out is not current again. */
  predicate Once(t: Timing, spent: set<Expiry>) {
    && (forall n :: n in t.timers ==> Expiry(n, t.timers[n]) !in spent)
    && (forall e :: e in spent ==> e.generation <= t.generation)
  }

  predicate TimersOk(t: Timing, heard: map<Network, nat>, spent: set<Expiry>) {
    Numbered(t) && ClockOk(t, heard) && Alive(t) && QueueOk(t, heard) && Once(t, spent)
  }

  /** A network has an idle timer exactly when it is loading. */
  ghost predicate LoadingIsTimed(r: Requests) {
    forall n :: n in r.t.timers <==> r.IsLoading(n)
  }

  lemma StopKeepsClock(t: Timing, n: Network, heard: map<Network, nat>)
    requires Numbered(t) && ClockOk(t, heard)
    ensures Numbered(Stop(t, n)) && ClockOk(Stop(t, n), heard)
  {
  }

  lemma StopKeepsAlive(t: Timing, n: Network)
    requires Numbered(t) && Alive(t)
    ensures Alive(Stop(t, n))
  {
  }

  lemma StopKeepsTimers(t: Timing, n: Network, heard: map<Network, nat>, spent: set<Expiry>)
    requires TimersOk(t, heard, spent)
    ensures TimersOk(Stop(t, n), heard, spent)
  {
    StopKeepsClock(t, n, heard);
    StopKeepsAlive(t, n);
    hide Numbered, ClockOk, Alive;
  }

  lemma ArmKeepsNumbered(t: Timing, n: Network, spent: set<Expiry>)
    requires Numbered(t) && Once(t, spent) && n !in t.timers
    ensures Numbered(Arm(t, n)) && Once(Arm(t, n), spent)
  {
  }

  lemma ArmKeepsClock(t: Timing, n: Network, heard: map<Network, nat>)
    requires Numbered(t) && ClockOk(t, heard) && n !in t.timers
    ensures ClockOk(Arm(t, n), heard[n := t.now])
  {
  }

  lemma ArmKeepsAlive(t: Timing, n: Network)
    requires Numbered(t) && Alive(t) && n !in t.timers
    ensures Alive(Arm(t, n))
  {
  }

  lemma ArmKeepsQueue(t: Timing, n: Network, heard: map<Network, nat>)
    requires Numbered(t) && QueueOk(t, heard) && n !in t.timers
    ensures QueueOk(Arm(t, n), heard[n := t.now])
  {
  }

  /** Arming a stopped network. */
  lemma ArmStoppedKeepsTimers(t: Timing, n: Network, heard: map<Network, nat>, spent: set<Expiry>)
    requires TimersOk(t, heard, spent) && n !in t.timers
    ensures TimersOk(Arm(t, n), heard[n := t.now], spent)
  {
    hide Numbered, ClockOk, Alive, QueueOk, Once;
    ArmKeepsNumbered(t, n, spent);
    ArmKeepsClock(t, n, heard);
    ArmKeepsAlive(t, n);
    ArmKeepsQueue(t, n, heard);
  }

  lemma ArmKeepsTimers(t: Timing, n: Network, heard: map<Network, nat>, spent: set<Expiry>)
    requires TimersOk(t, heard, spent)
    ensures TimersOk(Arm(t, n), heard[n := t.now], spent)
  {
    hide TimersOk;
    StopKeepsTimers(t, n, heard, spent);
    ArmStoppedKeepsTimers(Stop(t, n), n, heard, spent);
    assert Arm(Stop(t, n), n) == Arm(t, n);
  }

  lemma TakeKeepsAlive(t: Timing)
    requires Alive(t)
    ensures Alive(TakeExpiry(t))
  {
  }

  /** The queue after a taken expiry holds nothing new. */
  lemma TakenQueue(t: Timing)
    ensures forall e :: e in TakeExpiry(t).expiries ==> e in t.expiries
    ensures DueExpiry(t).Some? ==>
              && IsCurrent(t, DueExpiry(t).value) && DueExpiry(t).value in t.expiries
              && TakeExpiry(t).timers == t.timers - {DueExpiry(t).value.network}
    ensures DueExpiry(t).None? ==> TakeExpiry(t).timers == t.timers
  {
  }

  lemma TakeKeepsClock(t: Timing, heard: map<Network, nat>)
    requires ClockOk(t, heard) && QueueOk(t, heard)
    ensures ClockOk(TakeExpiry(t), heard) && QueueOk(TakeExpiry(t), heard)
  {
  }

  lemma TakeKeepsOnce(t: Timing, spent: set<Expiry>)
    requires Numbered(t) && Once(t, spent)
    ensures Numbered(TakeExpiry(t))
    ensures Once(TakeExpiry(t), if DueExpiry(t).Some? then spent + {DueExpiry(t).value} else spent)
  {
  }

  /** Taking an expiry that is current spends it; the ones before it were stale. */
  lemma TakeKeepsTimers(t: Timing, heard: map<Network, nat>, spent: set<Expiry>)
    requires TimersOk(t, heard, spent)
    ensures var due := DueExpiry(t);
            && TimersOk(TakeExpiry(t), heard, if due.Some? then spent + {due.value} else spent)
            && (due.Some? ==>
                  && IsCurrent(t, due.value) && due.value !in spent
                  && due.value.network in heard && t.now >= heard[due.value.network] + t.idle)
  {
    hide TakeExpiry, DueExpiry, CurrentExpiry, Numbered, ClockOk, Alive;
    TakeKeepsAlive(t);
    TakeKeepsClock(t, heard);
    TakeKeepsOnce(t, spent);
    TakenQueue(t);
  }

  lemma CallbackKeepsTimers(t: Timing, g: nat, heard: map<Network, nat>, spent: set<Expiry>)
    requires TimersOk(t, heard, spent) && g in t.clock && t.now >= t.clock[g].due
    ensures TimersOk(RunCallback(t, g), heard, spent)
  {
    hide Numbered, ClockOk, Alive, QueueOk, Once;
    CallbackKeepsClock(t, g, heard, spent);
    CallbackKeepsQueue(t, g, heard);
  }

  lemma CallbackKeepsClock(t: Timing, g: nat, heard: map<Network, nat>, spent: set<Expiry>)
    requires Numbered(t) && ClockOk(t, heard) && Once(t, spent) && g in t.clock
    ensures var u := RunCallback(t, g);
            Numbered(u) && ClockOk(u, heard) && Once(u, spent)
  {
  }

  lemma CallbackKeepsQueue(t: Timing, g: nat, heard: map<Network, nat>)
    requires ClockOk(t, heard) && Alive(t) && QueueOk(t, heard) && g in t.clock && t.now >= t.clock[g].due
    ensures Alive(RunCallback(t, g)) && QueueOk(RunCallback(t, g), heard)
  {
  }

  lemma LaterKeepsTimers(t: Timing, amount: nat, heard: map<Network, nat>, spent: set<Expiry>)
    requires TimersOk(t, heard, spent)
    ensures TimersOk(t.(now := t.now + amount), heard, spent)
  {
  }

  // ----- what each step does to the timers -----

  /** Starting, with its marks: armed, and stopped again when LIST is refused. */
  function Begun(t: Timing, n: Network, accepted: bool): Timing {
    if accepted then Arm(t, n) else Stop(Arm(t, n), n)
  }

  lemma BegunKeepsTimers(t: Timing, n: Network, accepted: bool, heard: map<Network, nat>, spent: set<Expiry>)
    requires TimersOk(t, heard, spent)
    ensures TimersOk(Begun(t, n, accepted), heard[n := t.now], spent)
  {
    hide TimersOk;
    ArmKeepsTimers(t, n, heard, spent);
    StopKeepsTimers(Arm(t, n), n, heard[n := t.now], spent);
  }

  function NextTiming(l: Lists, f: Folds, step: Step): Timing
    requires step.CallbackRuns? ==> step.generation in l.r.t.clock
  {
    var t := l.r.t;
    match step
    case Command(n, _, _, accepted) => if CommandStarts(l, f, step) then Begun(t, n, accepted) else t
    case RowArrives(n, row) => if Stores(l.r, n, row) then Arm(t, n) else t
    case StartArrives(n) => if l.r.IsLoading(n) then Arm(t, n) else t
    case EndArrives(n, _, accepted) =>
      if EndStartsNext(l, f, step) then Begun(Stop(t, n), n, accepted)
      else if Completes(l.r, n) then Stop(t, n)
      else if l.r.IsLoading(n) then Arm(t, n)
      else t
    case FailureArrives(n, _) => if l.r.IsLoading(n) then Stop(t, n) else t
    case ExpiryRuns =>
      var u := TakeExpiry(t);
      if DueExpiry(t).Some? && l.r.IsLoading(DueExpiry(t).value.network) then Stop(u, DueExpiry(t).value.network) else u
    case OverlayCloses => t
    case NetworkForgotten(n) => Stop(t, n)
    case ConnectionDrops(_) => t
    case TimePasses(amount) => t.(now := t.now + amount)
    case CallbackRuns(g) => RunCallback(t, g)
  }

  /** The timers see of a step only what it starts, hears or ends. */
  lemma TimingOf(l: Lists, f: Folds, step: Step)
    requires step.CallbackRuns? ==> step.generation in l.r.t.clock
    ensures NextLists(l, f, step).r.t == NextTiming(l, f, step)
  {
  }

  lemma StepKeepsTimersOk(s: System, f: Folds, step: Step)
    requires Enabled(s, step) && TimersOk(s.lists.r.t, s.heard, s.spent)
    ensures var s' := Next(s, f, step); TimersOk(s'.lists.r.t, s'.heard, s'.spent)
  {
    hide TimersOk, NextLists, Arm, TakeExpiry, DueExpiry, CurrentExpiry, RunCallback;
    var l := s.lists;
    var t := l.r.t;
    TimingOf(l, f, step);
    match step
    case Command(n, _, _, accepted) => BegunKeepsTimers(t, n, accepted, s.heard, s.spent);
    case RowArrives(n, _) => ArmKeepsTimers(t, n, s.heard, s.spent);
    case StartArrives(n) => ArmKeepsTimers(t, n, s.heard, s.spent);
    case EndArrives(n, _, accepted) =>
      StopKeepsTimers(t, n, s.heard, s.spent);
      BegunKeepsTimers(Stop(t, n), n, accepted, s.heard, s.spent);
      ArmKeepsTimers(t, n, s.heard, s.spent);
    case FailureArrives(n, _) => StopKeepsTimers(t, n, s.heard, s.spent);
    case ExpiryRuns =>
      TakeKeepsTimers(t, s.heard, s.spent);
      if DueExpiry(t).Some? {
        StopKeepsTimers(TakeExpiry(t), DueExpiry(t).value.network, s.heard, s.spent + {DueExpiry(t).value});
      }
    case NetworkForgotten(n) => StopKeepsTimers(t, n, s.heard, s.spent);
    case CallbackRuns(g) => CallbackKeepsTimers(t, g, s.heard, s.spent);
    case TimePasses(amount) => LaterKeepsTimers(t, amount, s.heard, s.spent);
    case _ =>
  }

  lemma BeginIsTimed(l: Lists, f: Folds, n: Network, mask: string, accepted: bool)
    requires LoadingIsTimed(l.r)
    ensures LoadingIsTimed(Begin(l, f, n, mask, accepted).r)
  {
  }

  lemma CommandIsTimed(l: Lists, f: Folds, n: Network, mask: string, connected: bool, accepted: bool)
    requires LoadingIsTimed(l.r)
    ensures LoadingIsTimed(StartList(l, f, n, mask, connected, accepted).r)
  {
    var r := Request(l.r, f, n, mask, Refreshes(l, f, n, mask));
    assert LoadingIsTimed(r);
    BeginIsTimed(Lists(r, l.v), f, n, mask, accepted);
  }

  lemma EndIsTimed(l: Lists, f: Folds, n: Network, connected: bool, accepted: bool)
    requires LoadingIsTimed(l.r)
    ensures LoadingIsTimed(EndList(l, f, n, connected, accepted).r)
  {
    var r := Finish(l.r, n);
    assert LoadingIsTimed(r);
    if Completes(l.r, n) && NextMask(l.r, f, n).Some? {
      BeginIsTimed(Lists(r, l.v), f, n, NextMask(l.r, f, n).value, accepted);
    }
  }

  lemma ExpiryIsTimed(l: Lists)
    requires LoadingIsTimed(l.r)
    ensures LoadingIsTimed(RunExpiry(l).r)
  {
  }

  lemma RowIsTimed(r: Requests, f: Folds, n: Network, row: ListedChannel)
    requires LoadingIsTimed(r)
    ensures LoadingIsTimed(RowStep(r, f, n, row)) && LoadingIsTimed(Activity(r, n))
  {
    hide WithRow;
  }

  lemma StoppedIsTimed(r: Requests, n: Network, text: string)
    requires LoadingIsTimed(r)
    ensures LoadingIsTimed(Fail(r, n, text, false)) && LoadingIsTimed(Forget(r, n))
  {
  }

  lemma StepKeepsLoadingTimed(s: System, f: Folds, step: Step)
    requires Enabled(s, step) && LoadingIsTimed(s.lists.r)
    ensures LoadingIsTimed(Next(s, f, step).lists.r)
  {
    hide Show, AppendRows, ClearView, FailView, StartList, EndList, RunExpiry, RowStep, Activity, Fail, Forget;
    match step
    case Command(n, mask, connected, accepted) => CommandIsTimed(s.lists, f, n, mask, connected, accepted);
    case EndArrives(n, connected, accepted) => EndIsTimed(s.lists, f, n, connected, accepted);
    case ExpiryRuns => ExpiryIsTimed(s.lists);
    case RowArrives(n, row) => RowIsTimed(s.lists.r, f, n, row);
    case StartArrives(n) => RowIsTimed(s.lists.r, f, n, ListedChannel("", 0, ""));
    case FailureArrives(n, text) => StoppedIsTimed(s.lists.r, n, text);
    case NetworkForgotten(n) => StoppedIsTimed(s.lists.r, n, "");
    case _ =>
  }

  lemma StepKeepsTimers(s: System, f: Folds, step: Step)
    requires Enabled(s, step) && TimersOk(s.lists.r.t, s.heard, s.spent) && LoadingIsTimed(s.lists.r)
    ensures var s' := Next(s, f, step);
            TimersOk(s'.lists.r.t, s'.heard, s'.spent) && LoadingIsTimed(s'.lists.r)
  {
    hide TimersOk, LoadingIsTimed;
    StepKeepsTimersOk(s, f, step);
    StepKeepsLoadingTimed(s, f, step);
  }

  /** A timeout: its load was running, and was not heard of for a whole idle window; the load fails
      and the same timer never runs out again. */
  lemma TimeoutMeansSilence(s: System, f: Folds)
    requires TimersOk(s.lists.r.t, s.heard, s.spent) && LoadingIsTimed(s.lists.r) && DueExpiry(s.lists.r.t).Some?
    ensures var e := DueExpiry(s.lists.r.t).value;
            && s.lists.r.IsLoading(e.network)
            && e.network in s.heard && s.lists.r.t.now >= s.heard[e.network] + s.lists.r.t.idle
            && e !in s.spent
            && !Next(s, f, ExpiryRuns).lists.r.IsLoading(e.network)
  {
    TakeKeepsTimers(s.lists.r.t, s.heard, s.spent);
  }

  /** A running load cannot hang: its callback is held by the clock and falls due an idle window
      after the load was last heard of, or its expiry is queued already. */
  lemma NoLoadHangs(s: System, n: Network)
    requires TimersOk(s.lists.r.t, s.heard, s.spent) && LoadingIsTimed(s.lists.r) && s.lists.r.IsLoading(n)
    ensures n in s.heard && n in s.lists.r.t.timers
    ensures var t := s.lists.r.t;
            var g := t.timers[n];
            || (g in t.clock && t.clock[g] == Callback(n, s.heard[n] + t.idle))
            || (Expiry(n, g) in t.expiries && DueExpiry(t).Some?)
  {
  }

  // ----- whole runs -----

  predicate ValidRun(s: System, f: Folds, steps: seq<Step>)
    decreases |steps|
  {
    steps == [] || (Enabled(s, steps[0]) && ValidRun(Next(s, f, steps[0]), f, steps[1..]))
  }

  function Run(s: System, f: Folds, steps: seq<Step>): System
    requires ValidRun(s, f, steps)
    decreases |steps|
  {
    if steps == [] then s else Run(Next(s, f, steps[0]), f, steps[1..])
  }

  /** Nothing was heard of in the future. */
  predicate HeardOk(t: Timing, heard: map<Network, nat>) {
    forall n :: n in heard ==> heard[n] <= t.now
  }

  ghost predicate TimersInOrder(s: System) {
    TimersOk(s.lists.r.t, s.heard, s.spent) && LoadingIsTimed(s.lists.r) && HeardOk(s.lists.r.t, s.heard)
  }

  function Initial(idle: nat): System {
    System(Lists(Requests(Timing(idle, 0, map[], 0, map[], []), map[]), BLANK), Replies(map[], map[], 0), map[], {})
  }

  /** Time stands still but for the step that passes it, and the idle window stays as it is. */
  lemma StepKeepsClockTime(s: System, f: Folds, step: Step)
    requires Enabled(s, step)
    ensures Next(s, f, step).lists.r.t.now == s.lists.r.t.now + if step.TimePasses? then step.amount else 0
    ensures Next(s, f, step).lists.r.t.idle == s.lists.r.t.idle
  {
    hide NextLists, CurrentExpiry;
    TimingOf(s.lists, f, step);
  }

  lemma StepKeepsInOrder(s: System, f: Folds, step: Step)
    requires Enabled(s, step) && TimersInOrder(s)
    ensures TimersInOrder(Next(s, f, step))
  {
    StepKeepsTimers(s, f, step);
    StepKeepsClockTime(s, f, step);
    hide TimersOk, LoadingIsTimed, NextLists;
  }

  lemma {:induction false} RunKeepsTimers(s: System, f: Folds, steps: seq<Step>)
    requires ValidRun(s, f, steps) && TimersInOrder(s)
    ensures TimersInOrder(Run(s, f, steps)) && Run(s, f, steps).lists.r.t.idle == s.lists.r.t.idle
    decreases |steps|
  {
    if steps != [] {
      StepKeepsInOrder(s, f, steps[0]);
      StepKeepsClockTime(s, f, steps[0]);
      hide TimersInOrder;
      RunKeepsTimers(Next(s, f, steps[0]), f, steps[1..]);
    }
  }

  /** Over every run from the start: exactly the loading networks have an idle timer, and a timeout
      comes only after a whole idle window in which its load was not heard of. */
  lemma TimeoutsAreNeverEarly(idle: nat, f: Folds, steps: seq<Step>)
    requires ValidRun(Initial(idle), f, steps)
    ensures var s := Run(Initial(idle), f, steps);
            && TimersInOrder(s)
            && (forall n :: n in s.lists.r.t.timers <==> s.lists.r.IsLoading(n))
            && (DueExpiry(s.lists.r.t).Some? ==>
                  var n := DueExpiry(s.lists.r.t).value.network;
                  && s.lists.r.IsLoading(n) && n in s.heard
                  && s.lists.r.t.now >= s.heard[n] + idle
                  && DueExpiry(s.lists.r.t).value !in s.spent)
  {
    RunKeepsTimers(Initial(idle), f, steps);
    var s := Run(Initial(idle), f, steps);
    if DueExpiry(s.lists.r.t).Some? {
      TimeoutMeansSilence(s, f);
    }
  }

  lemma RunOne(s: System, f: Folds, step: Step, steps: seq<Step>)
    requires Enabled(s, step) && ValidRun(Next(s, f, step), f, steps)
    ensures ValidRun(s, f, [step] + steps) && Run(s, f, [step] + steps) == Run(Next(s, f, step), f, steps)
  {
    assert ([step] + steps)[1..] == steps;
  }

  // ----- a silent load ends -----

  function Pump(k: nat): seq<Step> {
    if k == 0 then [] else [ExpiryRuns] + Pump(k - 1)
  }

  /** If `n` is still loading, its timer has run out and its expiry is queued. */
  predicate RanOut(s: System, n: Network, g: nat) {
    var t := s.lists.r.t;
    s.lists.r.IsLoading(n) ==> n in t.timers && t.timers[n] == g && !IsHeld(t, n, g)
  }

  lemma ExpiryKeepsRanOut(s: System, f: Folds, n: Network, g: nat)
    requires TimersInOrder(s) && RanOut(s, n, g)
    ensures RanOut(Next(s, f, ExpiryRuns), n, g)
    ensures var left := |Next(s, f, ExpiryRuns).lists.r.t.expiries|; left == 0 || left < |s.lists.r.t.expiries|
  {
    hide TimersOk, FailView;
    StepKeepsTimers(s, f, ExpiryRuns);
  }

  /** Pumping until the queue is empty ends a load whose timer ran out. */
  lemma {:induction false} PumpEnds(s: System, f: Folds, n: Network, g: nat, k: nat)
    requires TimersInOrder(s) && RanOut(s, n, g) && k >= |s.lists.r.t.expiries|
    ensures ValidRun(s, f, Pump(k)) && !Run(s, f, Pump(k)).lists.r.IsLoading(n)
    decreases k
  {
    if k == 0 {
      if s.lists.r.IsLoading(n) {
        NoLoadHangs(s, n);
      }
    } else {
      StepKeepsInOrder(s, f, ExpiryRuns);
      ExpiryKeepsRanOut(s, f, n, g);
      hide TimersInOrder, RanOut, Next;
      PumpEnds(Next(s, f, ExpiryRuns), f, n, g, k - 1);
      assert Pump(k)[0] == ExpiryRuns && Pump(k)[1..] == Pump(k - 1);
    }
  }

  /** An idle window of silence for the load of `n`: time passes, its callback runs if the clock still
      holds it, and the queue is pumped. */
  function Silence(s: System, n: Network): seq<Step>
    requires n in s.lists.r.t.timers
  {
    var t := s.lists.r.t;
    [TimePasses(t.idle)]
    + if IsHeld(t, n, t.timers[n]) then [CallbackRuns(t.timers[n])] + Pump(|t.expiries| + 1) else Pump(|t.expiries|)
  }

  lemma SilenceEnds(s: System, f: Folds, n: Network)
    requires TimersInOrder(s) && s.lists.r.IsLoading(n) && n in s.lists.r.t.timers
    ensures ValidRun(s, f, Silence(s, n)) && !Run(s, f, Silence(s, n)).lists.r.IsLoading(n)
  {
    hide TimersInOrder, RanOut, Next, Run, ValidRun, Pump;
    var t := s.lists.r.t;
    var g := t.timers[n];
    var later := Next(s, f, TimePasses(t.idle));
    StepKeepsInOrder(s, f, TimePasses(t.idle));
    if IsHeld(t, n, g) {
      CallbackIsDue(s, f, n);
      StepKeepsInOrder(later, f, CallbackRuns(g));
      PumpEnds(Next(later, f, CallbackRuns(g)), f, n, g, |t.expiries| + 1);
      RunOne(later, f, CallbackRuns(g), Pump(|t.expiries| + 1));
      RunOne(s, f, TimePasses(t.idle), [CallbackRuns(g)] + Pump(|t.expiries| + 1));
    } else {
      NotHeldRanOut(s, f, n);
      PumpEnds(later, f, n, g, |t.expiries|);
      RunOne(s, f, TimePasses(t.idle), Pump(|t.expiries|));
    }
  }

  lemma NotHeldRanOut(s: System, f: Folds, n: Network)
    requires n in s.lists.r.t.timers && !IsHeld(s.lists.r.t, n, s.lists.r.t.timers[n])
    ensures var later := Next(s, f, TimePasses(s.lists.r.t.idle));
            RanOut(later, n, s.lists.r.t.timers[n]) && later.lists.r.t.expiries == s.lists.r.t.expiries
  {
  }

  /** After an idle window the callback of a silent load is due, and running it runs the timer out. */
  lemma CallbackIsDue(s: System, f: Folds, n: Network)
    requires TimersInOrder(s) && s.lists.r.IsLoading(n) && n in s.lists.r.t.timers
    requires IsHeld(s.lists.r.t, n, s.lists.r.t.timers[n])
    ensures var g := s.lists.r.t.timers[n];
            var later := Next(s, f, TimePasses(s.lists.r.t.idle));
            && Enabled(later, CallbackRuns(g))
            && RanOut(Next(later, f, CallbackRuns(g)), n, g)
            && |Next(later, f, CallbackRuns(g)).lists.r.t.expiries| == |s.lists.r.t.expiries| + 1
  {
  }

  /** From every state a run can reach, a load that falls silent ends: after an idle window without a
      word from its server it is no longer loading. */
  lemma SilentLoadEnds(idle: nat, f: Folds, steps: seq<Step>, n: Network)
    requires ValidRun(Initial(idle), f, steps) && Run(Initial(idle), f, steps).lists.r.IsLoading(n)
    ensures var s := Run(Initial(idle), f, steps);
            && n in s.lists.r.t.timers && s.lists.r.t.idle == idle
            && ValidRun(s, f, Silence(s, n)) && !Run(s, f, Silence(s, n)).lists.r.IsLoading(n)
  {
    RunKeepsTimers(Initial(idle), f, steps);
    var s := Run(Initial(idle), f, steps);
    assert n in s.lists.r.t.timers;
    hide TimersOk, Run, ValidRun;
    SilenceEnds(s, f, n);
  }
}
