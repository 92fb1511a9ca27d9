/**
 The replies of `/list`. A request counts the replies it waits for in two flags; a server owes one for
 each LIST it took. The main results, each for one network whatever the others do: every step moves
 the difference by an amount told before it, an end completes its own load as long as there is none,
 and while more is waited for than owed no load completes, until one of three steps gives back.
 */
module ChannelListReplies {
  import opened ChannelList
  import opened ChannelListRuns
  import opened Wrappers

  // ----- replies owed, and replies waited for -----

  /** The replies a request waits for: its load's, and the stale end it is to drain. */
  function Awaited(r: Requests, n: Network): nat {
    Flag(r.IsLoading(n)) + Flag(r.Drains(n))
  }

  /** How many replies the request waits for beyond those the server owes. */
  function Deficit(s: System, n: Network): int {
    Awaited(s.lists.r, n) - |s.replies.Queue(n)|
  }

  /** The server of `n` answers only a LIST it was sent. */
  predicate Honest(s: System, step: Step, n: Network) {
    (step.EndArrives? || step.FailureArrives?) && step.network == n ==> s.replies.Queue(n) != []
  }

  /** The network whose request or replies a step can change. */
  function Touched(s: System, step: Step): Option<Network> {
    match step
    case ExpiryRuns => if DueExpiry(s.lists.r.t).Some? then Some(DueExpiry(s.lists.r.t).value.network) else None
    case OverlayCloses => None
    case TimePasses(_) => None
    case CallbackRuns(_) => None
    case _ => Some(step.network)
  }

  /** What a step adds to the deficit of the network it touches. The drain flag is one bit: it cannot
      hold a second stale end, and forgetting a refused load drops it. An end or a failure that finds
      nothing loading is a reply the request did not wait for, but for the one it drains. A dropped
      connection takes all replies with it and tells the request nothing. */
  function Change(s: System, f: Folds, step: Step, n: Network): int {
    var r := s.lists.r;
    match step
    case Command(_, _, _, accepted) =>
      if CommandStarts(s.lists, f, step) && !accepted then 0 - Flag(r.Drains(n)) else 0
    case EndArrives(_, _, _) => if r.IsLoading(n) then 0 else 1 - Flag(r.Drains(n))
    case FailureArrives(_, _) => if r.IsLoading(n) then 0 else 1
    case ExpiryRuns => 0 - Flag(r.Drains(n))
    case NetworkForgotten(_) => -Deficit(s, n)
    case ConnectionDrops(_) => |s.replies.Queue(n)|
    case _ => 0
  }

  predicate Elsewhere(before: Requests, after: Requests, n: Network) {
    after.IsLoading(n) == before.IsLoading(n) && after.Drains(n) == before.Drains(n)
  }

  /** The deficit of `n` after a step, told from the state before it. */
  predicate MovesAsTold(s: System, f: Folds, step: Step, n: Network)
    requires Enabled(s, step)
  {
    Deficit(Next(s, f, step), n) == Deficit(s, n) + if Touched(s, step) == Some(n) then Change(s, f, step, n) else 0
  }

  lemma BeginElsewhere(l: Lists, f: Folds, n: Network, mask: string, accepted: bool, other: Network)
    ensures var r := Begin(l, f, n, mask, accepted).r;
            && (n != other ==> Elsewhere(l.r, r, other))
            && r.IsLoading(n) == accepted && r.Drains(n) == (accepted && l.r.Drains(n))
  {
  }

  lemma CommandMoves(s: System, f: Folds, step: Step, n: Network)
    requires step.Command?
    ensures MovesAsTold(s, f, step, n)
  {
    hide Show, ClearView, Arm, Stop, Begin;
    var l := s.lists;
    var r := Request(l.r, f, step.network, step.mask, Refreshes(l, f, step.network, step.mask));
    BeginElsewhere(Lists(r, l.v), f, step.network, step.mask, step.accepted, n);
  }

  lemma EndMoves(s: System, f: Folds, step: Step, n: Network)
    requires step.EndArrives? && Honest(s, step, n)
    ensures MovesAsTold(s, f, step, n)
  {
    hide Show, ClearView, Arm, Stop, Begin;
    var next := NextMask(s.lists.r, f, step.network);
    if next.Some? {
      BeginElsewhere(Lists(Finish(s.lists.r, step.network), s.lists.v), f, step.network, next.value, step.accepted, n);
    }
  }

  lemma ExpiryMoves(s: System, f: Folds, n: Network)
    requires LoadingIsTimed(s.lists.r)
    ensures MovesAsTold(s, f, ExpiryRuns, n)
  {
    hide FailView, Stop;
  }

  lemma OtherMoves(s: System, f: Folds, step: Step, n: Network)
    requires Enabled(s, step) && Honest(s, step, n)
    requires !step.Command? && !step.EndArrives? && !step.ExpiryRuns?
    ensures MovesAsTold(s, f, step, n)
  {
    hide AppendRows, FailView, IndexBy, WithRow, ClearView, Arm, Stop, TakeExpiry, DueExpiry, Begin, StartList, EndList;
  }

  /** Every step of an honest server moves every network's deficit by exactly what `Change` says. */
  lemma DeficitMoves(s: System, f: Folds, step: Step, n: Network)
    requires Enabled(s, step) && Honest(s, step, n) && LoadingIsTimed(s.lists.r)
    ensures MovesAsTold(s, f, step, n)
  {
    hide MovesAsTold, Honest, LoadingIsTimed;
    match step
    case Command(_, _, _, _) => CommandMoves(s, f, step, n);
    case EndArrives(_, _, _) => EndMoves(s, f, step, n);
    case ExpiryRuns => ExpiryMoves(s, f, n);
    case _ => OtherMoves(s, f, step, n);
  }

  /** The steps that break the balance of `n`: a load is refused, or times out, while an earlier stale
      end is still to come; the failure of a timed-out load arrives when nothing is loading; or the
      connection drops while a reply is waited for. */
  predicate LosesCount(s: System, f: Folds, step: Step, n: Network) {
    var r := s.lists.r;
    && Touched(s, step) == Some(n)
    && (|| (CommandStarts(s.lists, f, step) && !step.accepted && r.Drains(n))
        || (step.ExpiryRuns? && r.Drains(n))
        || (step.FailureArrives? && !r.IsLoading(n))
        || (step.ConnectionDrops? && Awaited(r, n) > 0))
  }

  lemma LossIsChange(s: System, f: Folds, step: Step, n: Network)
    requires Enabled(s, step) && Honest(s, step, n) && Deficit(s, n) == 0 && Touched(s, step) == Some(n)
    ensures Change(s, f, step, n) == 0 <==> !LosesCount(s, f, step, n)
  {
    hide RequestKind, Refreshes;
  }

  /** From balance, every step keeps a network balanced, except exactly the steps that lose its count. */
  lemma StepKeepsBalance(s: System, f: Folds, step: Step, n: Network)
    requires Enabled(s, step) && Honest(s, step, n) && Deficit(s, n) == 0 && LoadingIsTimed(s.lists.r)
    ensures Deficit(Next(s, f, step), n) == 0 <==> !LosesCount(s, f, step, n)
  {
    DeficitMoves(s, f, step, n);
    if Touched(s, step) == Some(n) {
      LossIsChange(s, f, step, n);
    }
    hide Next, Change, LoadingIsTimed, Deficit, Honest, CommandStarts;
  }

  // ----- whose reply it is -----

  /** The numbers to come are in the order they were given. */
  predicate InTurn(p: Replies, n: Network) {
    var queue := p.Queue(n);
    && (forall i :: 0 <= i < |queue| ==> queue[i] < p.issued)
    && (forall i, j :: 0 <= i < j < |queue| ==> queue[i] < queue[j])
  }

  /** A running load in balance waits for the last LIST its network was sent, which is its own. */
  predicate WaitsForLatest(s: System, n: Network) {
    var queue := s.replies.Queue(n);
    s.lists.r.IsLoading(n) && Deficit(s, n) == 0 ==>
      n in s.replies.latest && queue != [] && queue[|queue| - 1] == s.replies.latest[n]
  }

  predicate RepliesOk(s: System, n: Network) {
    InTurn(s.replies, n) && WaitsForLatest(s, n)
  }

  lemma AnsweredInTurn(p: Replies, m: Network, n: Network)
    requires InTurn(p, n)
    ensures InTurn(p.Answered(m), n) && InTurn(p.Dropped(m), n) && InTurn(p.Sent(m), n)
  {
  }

  lemma StepKeepsTurn(p: Replies, l: Lists, f: Folds, step: Step, n: Network)
    requires InTurn(p, n)
    ensures InTurn(NextReplies(p, l, f, step), n)
  {
    hide InTurn, RequestKind, Refreshes, NextMask;
    var after := if step.EndArrives? || step.FailureArrives? then p.Answered(step.network)
      else if step.NetworkForgotten? || step.ConnectionDrops? then p.Dropped(step.network)
      else p;
    if step.EndArrives? || step.FailureArrives? || step.NetworkForgotten? || step.ConnectionDrops? || step.Command? {
      AnsweredInTurn(p, step.network, n);
      AnsweredInTurn(after, step.network, n);
    }
  }

  predicate SendsFor(l: Lists, f: Folds, step: Step, n: Network) {
    Writes(l, f, step) && step.network == n
  }

  /** Only a LIST that goes out makes a load run; one that runs on was in balance before, unless the
      connection dropped under it. */
  lemma RunsOn(s: System, f: Folds, step: Step, n: Network)
    requires Enabled(s, step) && !SendsFor(s.lists, f, step, n) && Next(s, f, step).lists.r.IsLoading(n)
    ensures s.lists.r.IsLoading(n)
    ensures Touched(s, step) == Some(n) && !step.ConnectionDrops? ==> Change(s, f, step, n) == 0
  {
    hide Show, ClearView, Arm, Stop, AppendRows, FailView, IndexBy, WithRow;
  }

  lemma DropKeepsAwaited(s: System, f: Folds, n: Network)
    ensures Next(s, f, ConnectionDrops(n)).lists == s.lists
  {
  }

  lemma StepKeepsWaiting(s: System, f: Folds, step: Step, n: Network)
    requires Enabled(s, step) && Honest(s, step, n) && LoadingIsTimed(s.lists.r) && WaitsForLatest(s, n)
    ensures WaitsForLatest(Next(s, f, step), n)
  {
    hide NextLists, LoadingIsTimed, Change, CommandStarts, EndStartsNext, Hears, DueExpiry, CurrentExpiry;
    var s' := Next(s, f, step);
    if s'.lists.r.IsLoading(n) && Deficit(s', n) == 0 && !SendsFor(s.lists, f, step, n) {
      RunsOn(s, f, step, n);
      DeficitMoves(s, f, step, n);
      if step.ConnectionDrops? && step.network == n {
        DropKeepsAwaited(s, f, n);
      }
    }
  }

  lemma StepKeepsReplies(s: System, f: Folds, step: Step, n: Network)
    requires Enabled(s, step) && Honest(s, step, n) && LoadingIsTimed(s.lists.r) && RepliesOk(s, n)
    ensures RepliesOk(Next(s, f, step), n)
  {
    hide InTurn, WaitsForLatest, LoadingIsTimed, Honest, NextLists, NextReplies;
    StepKeepsTurn(s.replies, s.lists, f, step, n);
    StepKeepsWaiting(s, f, step, n);
  }

  /** In balance, an end completes a load exactly when it answers that load's own LIST. */
  lemma EndIsItsOwn(s: System, n: Network)
    requires RepliesOk(s, n) && Deficit(s, n) == 0 && s.replies.Queue(n) != []
    ensures Completes(s.lists.r, n)
       <==> s.lists.r.IsLoading(n) && n in s.replies.latest && s.replies.Queue(n)[0] == s.replies.latest[n]
  {
  }

  /** In balance, a failure numeric that ends a load is that load's own exactly when no stale end is
      still to come; otherwise it answers the load that timed out, and ends the one after it. */
  lemma FailureIsItsOwn(s: System, n: Network)
    requires RepliesOk(s, n) && Deficit(s, n) == 0 && s.lists.r.IsLoading(n)
    ensures n in s.replies.latest && s.replies.Queue(n) != []
    ensures s.replies.Queue(n)[0] == s.replies.latest[n] <==> !s.lists.r.Drains(n)
  {
  }

  // ----- what losing count costs -----

  /** While the request waits for more than is owed, no reply can complete a load. */
  lemma NothingCompletes(s: System, n: Network)
    requires Deficit(s, n) > 0 && s.replies.Queue(n) != []
    ensures !Completes(s.lists.r, n)
  {
  }

  /** The steps that bring a difference down: a LIST refused, or a load timed out, while a stale end is
      waited for, and the network forgotten. */
  predicate GivesBack(s: System, f: Folds, step: Step, n: Network) {
    && Touched(s, step) == Some(n)
    && (|| (CommandStarts(s.lists, f, step) && !step.accepted && s.lists.r.Drains(n))
        || (step.ExpiryRuns? && s.lists.r.Drains(n))
        || step.NetworkForgotten?)
  }

  /** While more is waited for than owed, exactly these steps bring the difference down. */
  lemma OnlyTheseGiveBack(s: System, f: Folds, step: Step, n: Network)
    requires Enabled(s, step) && Honest(s, step, n) && LoadingIsTimed(s.lists.r) && Deficit(s, n) > 0
    ensures Deficit(Next(s, f, step), n) < Deficit(s, n) <==> GivesBack(s, f, step, n)
  {
    DeficitMoves(s, f, step, n);
    hide Next, LoadingIsTimed, Honest, RequestKind, Refreshes;
  }

  predicate NoneGiveBack(s: System, f: Folds, steps: seq<Step>, n: Network)
    requires ValidRun(s, f, steps)
    decreases |steps|
  {
    steps != [] ==>
      && Honest(s, steps[0], n) && !GivesBack(s, f, steps[0], n)
      && NoneGiveBack(Next(s, f, steps[0]), f, steps[1..], n)
  }

  /** How many loads of `n` a run completes. */
  function Completions(s: System, f: Folds, steps: seq<Step>, n: Network): nat
    requires ValidRun(s, f, steps)
    decreases |steps|
  {
    if steps == [] then 0
    else
      Flag(steps[0].EndArrives? && steps[0].network == n && Completes(s.lists.r, n))
      + Completions(Next(s, f, steps[0]), f, steps[1..], n)
  }

  /** While a request waits for more than is owed, no load of its network completes, whatever loads are
      started, answered and timed out, until one of the three steps gives back. */
  lemma {:induction false} NothingCompletesMeanwhile(s: System, f: Folds, steps: seq<Step>, n: Network)
    requires TimersInOrder(s) && Deficit(s, n) > 0 && ValidRun(s, f, steps) && NoneGiveBack(s, f, steps, n)
    ensures Completions(s, f, steps, n) == 0 && Deficit(Run(s, f, steps), n) >= Deficit(s, n)
    decreases |steps|
  {
    if steps != [] {
      StepKeepsInOrder(s, f, steps[0]);
      OnlyTheseGiveBack(s, f, steps[0], n);
      if steps[0].EndArrives? && steps[0].network == n {
        NothingCompletes(s, n);
      }
      hide Next, Completes, TimersOk, LoadingIsTimed, GivesBack, Deficit;
      NothingCompletesMeanwhile(Next(s, f, steps[0]), f, steps[1..], n);
    }
  }

  /** A stale end is waited for, nothing runs, and the server owes nothing. */
  predicate Lost(s: System, n: Network) {
    !s.lists.r.IsLoading(n) && s.lists.r.Drains(n) && s.replies.Queue(n) == []
  }

  /** One round of it: the next load's own end is taken for the stale one, the load runs on with nothing
      owed, and its timeout is back where it began. `waiting` is any later state of that load. */
  lemma LossComesBack(s: System, f: Folds, n: Network, mask: string, waiting: System)
    requires n != "" && Lost(s, n) && !s.lists.r.states[n].complete
    requires var ended := Next(Next(s, f, Command(n, mask, true, true)), f, EndArrives(n, true, true));
             waiting.lists.r.states == ended.lists.r.states && waiting.replies == ended.replies
    requires DueExpiry(waiting.lists.r.t).Some? && DueExpiry(waiting.lists.r.t).value.network == n
    ensures var started := Next(s, f, Command(n, mask, true, true));
            && started.lists.r.IsLoading(n) && started.replies.Queue(n) == [s.replies.issued]
            && waiting.lists.r.IsLoading(n) && waiting.replies.Queue(n) == []
            && Lost(Next(waiting, f, ExpiryRuns), n)
  {
    hide Show, ClearView, FailView, Arm, Stop, CurrentExpiry, IndexBy;
    LostLoadStarts(s, f, n, mask);
    var started := Next(s, f, Command(n, mask, true, true));
    DrainedEnd(started, f, n);
    hide StartList, EndList, Begin, Finish;
  }

  lemma LostLoadStarts(s: System, f: Folds, n: Network, mask: string)
    requires n != "" && Lost(s, n) && !s.lists.r.states[n].complete
    ensures var started := Next(s, f, Command(n, mask, true, true));
            && started.lists.r.IsLoading(n) && started.lists.r.Drains(n)
            && started.replies.Queue(n) == [s.replies.issued]
  {
    hide Show, ClearView, FailView, Arm, Stop, IndexBy;
    assert CommandStarts(s.lists, f, Command(n, mask, true, true));
    assert [] + [s.replies.issued] == [s.replies.issued];
  }

  lemma DrainedEnd(s: System, f: Folds, n: Network)
    requires s.lists.r.IsLoading(n) && s.lists.r.Drains(n) && |s.replies.Queue(n)| == 1
    ensures var ended := Next(s, f, EndArrives(n, true, true));
            ended.lists.r.IsLoading(n) && !ended.lists.r.Drains(n) && ended.replies.Queue(n) == []
  {
    hide Show, ClearView, FailView, Arm, Stop, Begin;
  }

  // ----- and how it is made good -----

  lemma DrainingTimeout(s: System, f: Folds, n: Network)
    requires s.lists.r.IsLoading(n) && s.lists.r.Drains(n)
    requires DueExpiry(s.lists.r.t).Some? && DueExpiry(s.lists.r.t).value.network == n
    ensures var after := Next(s, f, ExpiryRuns);
            && !after.lists.r.IsLoading(n) && after.lists.r.Drains(n) && !after.lists.r.states[n].complete
            && after.replies == s.replies
  {
    hide Show, FailView, Stop, CurrentExpiry;
  }

  lemma LateEnd(s: System, f: Folds, n: Network)
    requires !s.lists.r.IsLoading(n) && s.lists.r.Drains(n) && |s.replies.Queue(n)| == 1
    ensures var after := Next(s, f, EndArrives(n, true, true));
            && !after.lists.r.IsLoading(n) && !after.lists.r.Drains(n) && after.replies.Queue(n) == []
            && after.lists.r.states[n].complete == s.lists.r.states[n].complete && n in after.lists.r.states
  {
    hide Show, ClearView, Arm, Stop, Begin;
  }

  lemma FreshLoad(s: System, f: Folds, n: Network, mask: string)
    requires n != "" && !s.lists.r.IsLoading(n) && !s.lists.r.Drains(n) && s.replies.Queue(n) == []
    requires n in s.lists.r.states ==> !s.lists.r.states[n].complete
    ensures var after := Next(s, f, Command(n, mask, true, true));
            Completes(after.lists.r, n) && after.replies.Queue(n) == [s.replies.issued]
  {
    hide Show, ClearView, FailView, Arm, Stop, IndexBy;
    assert CommandStarts(s.lists, f, Command(n, mask, true, true));
    assert [] + [s.replies.issued] == [s.replies.issued];
  }

  /** The way back: a load that times out before its own end comes leaves a lost network waiting for just
      the one end that is owed. When that has come, the next load is completed by its own. `waiting` is
      any later state of the load that times out. */
  lemma TimeoutMakesGood(s: System, f: Folds, n: Network, mask: string, waiting: System, next: string)
    requires n != "" && Lost(s, n) && !s.lists.r.states[n].complete
    requires var started := Next(s, f, Command(n, mask, true, true));
             waiting.lists.r.states == started.lists.r.states && waiting.replies == started.replies
    requires DueExpiry(waiting.lists.r.t).Some? && DueExpiry(waiting.lists.r.t).value.network == n
    ensures Deficit(s, n) == 1 == Deficit(waiting, n) && GivesBack(waiting, f, ExpiryRuns, n)
    ensures var out := Next(waiting, f, ExpiryRuns);
            && Deficit(out, n) == 0 && out.replies.Queue(n) == [s.replies.issued]
            && var drained := Next(out, f, EndArrives(n, true, true));
            && Deficit(drained, n) == 0
            && var again := Next(drained, f, Command(n, next, true, true));
            Completes(again.lists.r, n) && again.replies.Queue(n) == [drained.replies.issued]
  {
    LostLoadStarts(s, f, n, mask);
    hide Next;
    DrainingTimeout(waiting, f, n);
    var out := Next(waiting, f, ExpiryRuns);
    LateEnd(out, f, n);
    FreshLoad(Next(out, f, EndArrives(n, true, true)), f, n, next);
  }

  // ----- whole runs -----

  /** The server of `n` answers honestly and no step of the run loses its count. */
  predicate CountsKept(s: System, f: Folds, steps: seq<Step>, n: Network)
    requires ValidRun(s, f, steps)
    decreases |steps|
  {
    steps != [] ==>
      && Honest(s, steps[0], n) && !LosesCount(s, f, steps[0], n)
      && CountsKept(Next(s, f, steps[0]), f, steps[1..], n)
  }

  lemma {:induction false} RunKeepsReplies(s: System, f: Folds, steps: seq<Step>, n: Network)
    requires ValidRun(s, f, steps) && CountsKept(s, f, steps, n)
    requires TimersInOrder(s) && Deficit(s, n) == 0 && RepliesOk(s, n)
    ensures Deficit(Run(s, f, steps), n) == 0 && RepliesOk(Run(s, f, steps), n)
    decreases |steps|
  {
    if steps != [] {
      StepKeepsInOrder(s, f, steps[0]);
      StepKeepsBalance(s, f, steps[0], n);
      StepKeepsReplies(s, f, steps[0], n);
      hide Deficit, RepliesOk, TimersOk, LoadingIsTimed, Next, LosesCount;
      RunKeepsReplies(Next(s, f, steps[0]), f, steps[1..], n);
    }
  }

  /** Over every run in which the server of a network is honest and no step loses its count, whatever
      happens to the others: the next reply completes a load exactly when it is an end, a load runs, and
      it answers that load's own LIST; the end of a load that timed out is drained. */
  lemma EndsCompleteTheirOwnLoads(idle: nat, f: Folds, steps: seq<Step>, n: Network)
    requires ValidRun(Initial(idle), f, steps) && CountsKept(Initial(idle), f, steps, n)
    ensures var s := Run(Initial(idle), f, steps);
            && |s.replies.Queue(n)| == Awaited(s.lists.r, n)
            && (s.lists.r.IsLoading(n) ==>
                  && n in s.replies.latest && s.replies.Queue(n) != []
                  && (Completes(s.lists.r, n) <==> s.replies.Queue(n)[0] == s.replies.latest[n]))
  {
    assert RepliesOk(Initial(idle), n);
    RunKeepsReplies(Initial(idle), f, steps, n);
    var s := Run(Initial(idle), f, steps);
    if s.replies.Queue(n) != [] {
      EndIsItsOwn(s, n);
    }
    hide Run, CountsKept, ValidRun;
  }

  /** A load that times out, and its failure after that. */
  function LosingSteps(idle: nat, n: Network, mask: string, text: string): seq<Step> {
    [Command(n, mask, true, true)] + ([TimePasses(idle)] + ([CallbackRuns(1)] + ([ExpiryRuns] + ([FailureArrives(n, text)] + []))))
  }

  /** The first `/list` of a fresh client. */
  lemma FirstCommand(idle: nat, f: Folds, n: Network, mask: string)
    requires n != ""
    ensures var s := Next(Initial(idle), f, Command(n, mask, true, true));
            && s.lists.r == Requests(Timing(idle, 0, map[n := 1], 1, map[1 := Callback(n, idle)], []),
                                     map[n := ListState(mask, [], false, true, "", None, false)])
            && s.replies == Replies(map[n := [0]], map[n := 0], 1)
  {
    assert CommandStarts(Initial(idle).lists, f, Command(n, mask, true, true));
    assert [] + [0] == [0];
  }

  /** It hears nothing: its callback runs once the idle window is over. */
  lemma FirstCallback(s: System, f: Folds, idle: nat, n: Network, st: ListState)
    requires s.lists.r == Requests(Timing(idle, 0, map[n := 1], 1, map[1 := Callback(n, idle)], []), map[n := st])
    ensures var later := Next(s, f, TimePasses(idle));
            && Enabled(later, CallbackRuns(1))
            && var fired := Next(later, f, CallbackRuns(1));
            && fired.lists.r == Requests(Timing(idle, idle, map[n := 1], 1, map[], [Expiry(n, 1)]), map[n := st])
            && fired.replies == s.replies
  {
    hide Show, ClearView, FailView, StartList, EndList, RowLine, RunExpiry, CurrentExpiry;
  }

  /** And it times out. */
  lemma FirstTimeout(s: System, f: Folds, idle: nat, n: Network, st: ListState)
    requires s.lists.r == Requests(Timing(idle, idle, map[n := 1], 1, map[], [Expiry(n, 1)]), map[n := st])
    requires st.loading
    ensures var out := Next(s, f, ExpiryRuns);
            && !out.lists.r.IsLoading(n) && out.lists.r.Drains(n) && !out.lists.r.states[n].complete
            && out.replies == s.replies
  {
    hide Show, ClearView, FailView, StartList, EndList, RowLine;
    assert DueExpiry(s.lists.r.t) == Some(Expiry(n, 1));
    hide CurrentExpiry, DueExpiry;
  }

  /** A loss is reachable from the start, with an honest server. */
  lemma LossIsReachable(idle: nat, f: Folds, n: Network, mask: string, text: string)
    requires n != ""
    ensures var steps := LosingSteps(idle, n, mask, text);
            && ValidRun(Initial(idle), f, steps)
            && var s := Run(Initial(idle), f, steps);
            Lost(s, n) && !s.lists.r.states[n].complete && Deficit(s, n) == 1
  {
    hide Next, Lost, Deficit;
    FirstCommand(idle, f, n, mask);
    var s1 := Next(Initial(idle), f, Command(n, mask, true, true));
    var st := ListState(mask, [], false, true, "", None, false);
    FirstCallback(s1, f, idle, n, st);
    var s2 := Next(s1, f, TimePasses(idle));
    var s3 := Next(s2, f, CallbackRuns(1));
    FirstTimeout(s3, f, idle, n, st);
    var s4 := Next(s3, f, ExpiryRuns);
    FailureAfterTimeout(s4, f, n, text);
    var last := [FailureArrives(n, text)] + [];
    RunOne(s4, f, FailureArrives(n, text), []);
    RunOne(s3, f, ExpiryRuns, last);
    RunOne(s2, f, CallbackRuns(1), [ExpiryRuns] + last);
    RunOne(s1, f, TimePasses(idle), [CallbackRuns(1)] + ([ExpiryRuns] + last));
    RunOne(Initial(idle), f, Command(n, mask, true, true), [TimePasses(idle)] + ([CallbackRuns(1)] + ([ExpiryRuns] + last)));
  }

  lemma FailureAfterTimeout(s: System, f: Folds, n: Network, text: string)
    requires !s.lists.r.IsLoading(n) && s.lists.r.Drains(n) && !s.lists.r.states[n].complete
    requires s.replies == Replies(map[n := [0]], map[n := 0], 1)
    ensures var s' := Next(s, f, FailureArrives(n, text));
            Lost(s', n) && !s'.lists.r.states[n].complete && Deficit(s', n) == 1
  {
    assert [0][1..] == [];
  }
}
