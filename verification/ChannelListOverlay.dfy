/**
 The rows of `/list`: what the cache holds, and what the overlay shows of it. The main results: the
 cache and a completed overlay are in order after every run, and while it streams the overlay holds
 the cached rows, except after exactly the rows that miss it.
 */
module ChannelListOverlay {
  import opened ChannelList
  import opened ChannelListRuns
  import opened Sorting

  // ----- the cache and the overlay -----

  predicate UniqueRows(rows: seq<ListedChannel>, lower: string -> string) {
    forall i, j :: 0 <= i < j < |rows| ==> lower(rows[i].name) != lower(rows[j].name)
  }

  /** A pending mask waits only behind a load, and is another mask than that load's. */
  predicate PendingOk(st: ListState, f: Folds) {
    st.pending.Some? ==> st.loading && !f.SameMask(st.mask, st.pending.value)
  }

  predicate StateOk(st: ListState, f: Folds) {
    UniqueRows(st.rows, f.lower) && |st.rows| <= MAX_ROWS && PendingOk(st, f)
  }

  predicate StatesOk(r: Requests, f: Folds) {
    "" !in r.states && forall n :: n in r.states ==> StateOk(r.states[n], f)
  }

  /** The overlay's flags follow the request it shows: it streams only a running load, streams any
      running load it is open on, and shows a finished one as the sorted cache. */
  predicate ViewOk(l: Lists, f: Folds) {
    && (l.v.loading ==> l.r.IsLoading(l.v.network))
    && (l.v.open && l.r.IsLoading(l.v.network) ==> l.v.loading)
    && (l.v.complete ==>
          && !l.v.loading && l.v.network in l.r.states && !l.r.IsLoading(l.v.network)
          && l.v.rows == Sort(l.r.states[l.v.network].rows, f.Order()))
  }

  /** While the overlay streams, its rows are the cached rows in some order. */
  predicate RowsAgree(l: Lists)
  {
    l.v.open && l.v.loading && l.v.network in l.r.states ==>
      multiset(l.v.rows) == multiset(l.r.states[l.v.network].rows)
  }

  lemma OrderIsTotal(f: Folds)
    ensures TotalOrder(f.Order())
  {
    var leq := f.Order();
    forall a, b
      ensures leq(a, b) || leq(b, a)
    {
      LexTotal(f.lower(a.name), f.lower(b.name));
    }
    forall a, b, c | leq(a, b) && leq(b, c)
      ensures leq(a, c)
    {
      if a.users == b.users == c.users {
        LexTransitive(f.lower(a.name), f.lower(b.name), f.lower(c.name));
      }
    }
  }

  lemma ShownRowsAgree(rows: seq<ListedChannel>, f: Folds)
    requires |rows| <= MAX_ROWS
    ensures multiset(Sort(Capped(rows), f.Order())) == multiset(rows)
  {
    OrderIsTotal(f);
    SortSorts(rows, f.Order());
  }

  /** On completion the overlay is the one sorted form of the cache: any sorted arrangement of the
      same rows is the same sequence. */
  lemma CompleteOverlayIsSorted(l: Lists, f: Folds, other: seq<ListedChannel>)
    requires StatesOk(l.r, f) && ViewOk(l, f) && l.v.complete
    ensures Sorted(l.v.rows, f.Order())
    ensures multiset(l.v.rows) == multiset(l.r.states[l.v.network].rows)
    ensures Sorted(other, f.Order()) && multiset(other) == multiset(l.v.rows) ==> other == l.v.rows
  {
    var rows := l.r.states[l.v.network].rows;
    OrderIsTotal(f);
    SortSorts(rows, f.Order());
    if Sorted(other, f.Order()) && multiset(other) == multiset(l.v.rows) {
      assert Distinguishes(other, f.Order()) by {
        forall i, j | 0 <= i < |other| && 0 <= j < |other|
            && f.Order()(other[i], other[j]) && f.Order()(other[j], other[i])
          ensures other[i] == other[j]
        {
          LexTotal(f.lower(other[i].name), f.lower(other[j].name));
          RowsOfOneName(rows, f.lower, other, i, j);
        }
      }
      SortedIsUnique(other, l.v.rows, f.Order());
    }
  }

  /** Among rows unique under the fold, rows of one folded name are the same row, in any order. */
  lemma RowsOfOneName(rows: seq<ListedChannel>, lower: string -> string, other: seq<ListedChannel>, i: nat, j: nat)
    requires UniqueRows(rows, lower) && multiset(other) == multiset(rows)
    requires i < |other| && j < |other| && lower(other[i].name) == lower(other[j].name)
    ensures other[i] == other[j]
  {
    assert other[i] in multiset(rows) && other[j] in multiset(rows);
    var a :| 0 <= a < |rows| && rows[a] == other[i];
    var b :| 0 <= b < |rows| && rows[b] == other[j];
  }

  // ----- one row, in the cache and in the overlay -----

  /** Names equal under ASCII folding are equal under the cache's fold. */
  ghost predicate AsciiRefines(f: Folds) {
    forall a, b :: AsciiFold(a) == AsciiFold(b) ==> f.lower(a) == f.lower(b)
  }

  /** The overlay finds the row the cache replaces: the folds agree on it, and its name is not empty
      unless there is no room left for it anyway. */
  predicate RowReachesOverlay(rows: seq<ListedChannel>, f: Folds, row: ListedChannel) {
    if row.name == "" then |rows| >= MAX_ROWS
    else forall i :: 0 <= i < |rows| && f.lower(rows[i].name) == f.lower(row.name) ==>
           AsciiFold(rows[i].name) == AsciiFold(row.name)
  }

  lemma ReplacingAgrees(rows: seq<ListedChannel>, i: nat, shown: seq<ListedChannel>, j: nat, row: ListedChannel)
    requires multiset(rows) == multiset(shown) && i < |rows| && j < |shown| && rows[i] == shown[j]
    ensures multiset(rows[i := row]) == multiset(shown[j := row])
  {
  }

  lemma ReplacingChanges(rows: seq<ListedChannel>, i: nat, row: ListedChannel)
    requires i < |rows| && rows[i] != row
    ensures multiset(rows[i := row]) != multiset(rows)
  {
    assert multiset(rows[i := row])[row] == multiset(rows)[row] + 1;
  }

  /** A row the cache replaces: the overlay keeps up exactly when its own fold finds that row. */
  lemma ReplacedRowAgrees(rows: seq<ListedChannel>, f: Folds, shown: seq<ListedChannel>, row: ListedChannel)
    requires UniqueRows(rows, f.lower) && multiset(shown) == multiset(rows) && AsciiRefines(f)
    requires IndexBy(rows, f.lower, row.name) < |rows|
    ensures multiset(AppendRows(shown, f, row, true)) == multiset(WithRow(rows, f.lower, row))
       <==> AsciiFold(rows[IndexBy(rows, f.lower, row.name)].name) == AsciiFold(row.name)
  {
    var i := IndexBy(rows, f.lower, row.name);
    var j := IndexBy(shown, AsciiFold, row.name);
    assert rows[i] in multiset(shown);
    var k :| 0 <= k < |shown| && shown[k] == rows[i];
    if j < |shown| {
      assert f.lower(shown[j].name) == f.lower(shown[k].name);
      RowsOfOneName(rows, f.lower, shown, j, k);
      ReplacingAgrees(rows, i, shown, j, row);
    } else {
      assert AsciiFold(shown[k].name) != AsciiFold(row.name);
      ReplacingChanges(rows, i, row);
    }
  }

  lemma SortedMore(shown: seq<ListedChannel>, f: Folds, row: ListedChannel)
    ensures multiset(Sort(shown + [row], f.Order())) == multiset(shown) + multiset{row}
  {
    OrderIsTotal(f);
    SortSorts(shown + [row], f.Order());
  }

  lemma SameSize(left: seq<ListedChannel>, right: seq<ListedChannel>)
    requires multiset(left) == multiset(right)
    ensures |left| == |right|
  {
    assert |multiset(left)| == |left| && |multiset(right)| == |right|;
  }

  /** A row the cache adds or refuses: the overlay does the same, unless it has no name. */
  lemma AddedRowAgrees(rows: seq<ListedChannel>, f: Folds, shown: seq<ListedChannel>, row: ListedChannel)
    requires multiset(shown) == multiset(rows)
    requires IndexBy(rows, f.lower, row.name) == |rows|
    ensures multiset(AppendRows(shown, f, row, false)) == multiset(WithRow(rows, f.lower, row))
  {
    SameSize(shown, rows);
    SortedMore(shown, f, row);
  }

  lemma NamelessRowAgrees(rows: seq<ListedChannel>, f: Folds, shown: seq<ListedChannel>, row: ListedChannel)
    requires multiset(shown) == multiset(rows)
    ensures multiset(AppendRows(shown, f, row, false)) == multiset(rows) <==> |rows| >= MAX_ROWS
  {
    SameSize(shown, rows);
    SortedMore(shown, f, row);
    hide Sort;
    assert (multiset(rows) + multiset{row})[row] == multiset(rows)[row] + 1;
  }

  /** While the overlay streams a load, a row keeps it in agreement with the cache exactly when it
      reaches the overlay. */
  lemma StreamedRowAgrees(l: Lists, f: Folds, row: ListedChannel)
    requires StatesOk(l.r, f) && ViewOk(l, f) && RowsAgree(l) && AsciiRefines(f)
    requires l.v.open && l.v.loading
    ensures RowsAgree(RowLine(l, f, l.v.network, row))
       <==> RowReachesOverlay(l.r.states[l.v.network].rows, f, row)
  {
    var rows := l.r.states[l.v.network].rows;
    assert StateOk(l.r.states[l.v.network], f);
    var i := IndexBy(rows, f.lower, row.name);
    if row.name == "" {
      NamelessRowAgrees(rows, f, l.v.rows, row);
    } else if i < |rows| {
      ReplacedRowAgrees(rows, f, l.v.rows, row);
    } else {
      AddedRowAgrees(rows, f, l.v.rows, row);
    }
    hide Sort, AppendRows, WithRow, AsciiRefines, Arm;
  }

  lemma WithRowKeepsUnique(rows: seq<ListedChannel>, lower: string -> string, row: ListedChannel)
    requires UniqueRows(rows, lower) && |rows| <= MAX_ROWS
    ensures UniqueRows(WithRow(rows, lower, row), lower) && |WithRow(rows, lower, row)| <= MAX_ROWS
  {
  }

  // ----- every step keeps the cache and the overlay -----

  predicate ListsOk(l: Lists, f: Folds) {
    StatesOk(l.r, f) && ViewOk(l, f)
  }

  lemma BeginKeepsLists(l: Lists, f: Folds, n: Network, mask: string, accepted: bool)
    requires StatesOk(l.r, f) && n != ""
    requires l.r.IsLoading(n) ==> l.r.states[n].rows == []
    ensures ListsOk(Begin(l, f, n, mask, accepted), f) && RowsAgree(Begin(l, f, n, mask, accepted))
  {
  }

  lemma CommandKeepsLists(l: Lists, f: Folds, n: Network, mask: string, connected: bool, accepted: bool)
    requires ListsOk(l, f)
    ensures var l' := StartList(l, f, n, mask, connected, accepted);
            ListsOk(l', f) && (RowsAgree(l) ==> RowsAgree(l'))
  {
    if n != "" && connected {
      var refresh := Refreshes(l, f, n, mask);
      var r := Request(l.r, f, n, mask, refresh);
      assert StatesOk(r, f);
      if RequestKind(l.r, f, n, mask, refresh) == Start {
        BeginKeepsLists(Lists(r, l.v), f, n, mask, accepted);
      } else {
        ShownRowsAgree(r.states[n].rows, f);
      }
    }
  }

  /** An end that completes nothing. */
  lemma IdleEndKeepsLists(l: Lists, f: Folds, n: Network)
    requires ListsOk(l, f) && !Completes(l.r, n)
    ensures var l' := Lists(Finish(l.r, n), l.v);
            ListsOk(l', f) && (RowsAgree(l) ==> RowsAgree(l'))
  {
    hide Arm, UniqueRows, Sort;
  }

  /** An end that completes its load and starts no other. */
  lemma LastEndKeepsLists(l: Lists, f: Folds, n: Network)
    requires ListsOk(l, f) && Completes(l.r, n)
    ensures var r := Finish(l.r, n);
            var l' := Lists(r, if l.v.network == n then Show(l.v, f, n, r.states[n], false, false, "") else l.v);
            StatesOk(r, f) && ListsOk(l', f) && (RowsAgree(l) ==> RowsAgree(l'))
  {
    hide Stop, UniqueRows, Sort;
  }

  lemma EndKeepsLists(l: Lists, f: Folds, n: Network, connected: bool, accepted: bool)
    requires ListsOk(l, f)
    ensures var l' := EndList(l, f, n, connected, accepted);
            ListsOk(l', f) && (RowsAgree(l) ==> RowsAgree(l'))
  {
    hide Finish, StatesOk, ViewOk, RowsAgree, Show;
    if !Completes(l.r, n) {
      IdleEndKeepsLists(l, f, n);
    } else {
      LastEndKeepsLists(l, f, n);
      var next := NextMask(l.r, f, n);
      if next.Some? && connected {
        BeginAfterEndKeepsLists(l, f, n, next.value, accepted);
      }
    }
  }

  lemma BeginAfterEndKeepsLists(l: Lists, f: Folds, n: Network, mask: string, accepted: bool)
    requires ListsOk(l, f) && Completes(l.r, n)
    ensures var begun := Begin(Lists(Finish(l.r, n), l.v), f, n, mask, accepted);
            && ListsOk(begun, f) && RowsAgree(begun)
            && (!accepted ==> begun.v.network != n)
  {
    LastEndKeepsLists(l, f, n);
    assert n != "" by {
      hide ViewOk;
    }
    BeginKeepsLists(Lists(Finish(l.r, n), l.v), f, n, mask, accepted);
    hide StatesOk, ViewOk, RowsAgree, Request, Forget;
  }

  lemma RowKeepsLists(l: Lists, f: Folds, n: Network, row: ListedChannel)
    requires ListsOk(l, f)
    ensures ListsOk(RowLine(l, f, n, row), f)
    ensures RowsAgree(l) && !(l.v.open && l.v.loading && l.v.network == n) ==> RowsAgree(RowLine(l, f, n, row))
  {
    if Stores(l.r, n, row) {
      WithRowKeepsUnique(l.r.states[n].rows, f.lower, row);
    }
  }

  lemma FailKeepsLists(l: Lists, f: Folds, n: Network, text: string, timedOut: bool)
    requires ListsOk(l, f)
    ensures var l' := FailLoad(l, n, text, timedOut);
            ListsOk(l', f) && (RowsAgree(l) ==> RowsAgree(l'))
  {
    hide Stop, UniqueRows, Sort;
  }

  lemma ForgetKeepsLists(l: Lists, f: Folds, n: Network)
    requires ListsOk(l, f)
    ensures var l' := ForgetNetwork(l, n);
            ListsOk(l', f) && (RowsAgree(l) ==> RowsAgree(l'))
  {
  }

  /** A row that arrives for the load being streamed and does not reach the overlay. */
  predicate MissesOverlay(l: Lists, f: Folds, step: Step) {
    && step.RowArrives? && l.v.open && l.v.loading && l.v.network == step.network
    && l.v.network in l.r.states && !RowReachesOverlay(l.r.states[l.v.network].rows, f, step.row)
  }

  lemma ExpiryKeepsLists(l: Lists, f: Folds)
    requires ListsOk(l, f)
    ensures var l' := RunExpiry(l);
            ListsOk(l', f) && (RowsAgree(l) ==> RowsAgree(l'))
  {
    hide FailLoad;
    var taken := l.(r := l.r.(t := TakeExpiry(l.r.t)));
    assert ListsOk(taken, f);
    if DueExpiry(l.r.t).Some? {
      FailKeepsLists(taken, f, DueExpiry(l.r.t).value.network, TIMEOUT_TEXT, true);
    }
  }

  /** Whatever happens, every step keeps the cache, its pending masks and the overlay's flags in
      order, a finished overlay the sorted cache among them. */
  lemma StepKeepsLists(s: System, f: Folds, step: Step)
    requires Enabled(s, step) && ListsOk(s.lists, f)
    ensures ListsOk(Next(s, f, step).lists, f)
  {
    hide StartList, EndList, RowLine, FailLoad, RunExpiry, ForgetNetwork;
    var l := s.lists;
    match step
    case Command(n, mask, connected, accepted) => CommandKeepsLists(l, f, n, mask, connected, accepted);
    case RowArrives(n, row) => RowKeepsLists(l, f, n, row);
    case EndArrives(n, connected, accepted) => EndKeepsLists(l, f, n, connected, accepted);
    case FailureArrives(n, text) => FailKeepsLists(l, f, n, text, false);
    case ExpiryRuns => ExpiryKeepsLists(l, f);
    case NetworkForgotten(n) => ForgetKeepsLists(l, f, n);
    case _ =>
  }

  /** While it streams, every step keeps the overlay in agreement with the cache, except exactly a
      row that misses it. */
  lemma StepKeepsRows(s: System, f: Folds, step: Step)
    requires Enabled(s, step) && ListsOk(s.lists, f) && RowsAgree(s.lists) && AsciiRefines(f)
    ensures RowsAgree(Next(s, f, step).lists) <==> !MissesOverlay(s.lists, f, step)
  {
    hide StartList, EndList, RowLine, FailLoad, RunExpiry, ForgetNetwork;
    var l := s.lists;
    match step
    case Command(n, mask, connected, accepted) => CommandKeepsLists(l, f, n, mask, connected, accepted);
    case RowArrives(n, row) =>
      RowKeepsLists(l, f, n, row);
      if l.v.open && l.v.loading && l.v.network == n {
        StreamedRowAgrees(l, f, row);
      }
    case EndArrives(n, connected, accepted) => EndKeepsLists(l, f, n, connected, accepted);
    case FailureArrives(n, text) => FailKeepsLists(l, f, n, text, false);
    case ExpiryRuns => ExpiryKeepsLists(l, f);
    case NetworkForgotten(n) => ForgetKeepsLists(l, f, n);
    case _ =>
  }

  // ----- whole runs -----

  /** No row of the run misses the overlay that streams it. */
  predicate RowsReach(s: System, f: Folds, steps: seq<Step>)
    requires ValidRun(s, f, steps)
    decreases |steps|
  {
    steps != [] ==> !MissesOverlay(s.lists, f, steps[0]) && RowsReach(Next(s, f, steps[0]), f, steps[1..])
  }

  lemma {:induction false} RunKeepsLists(s: System, f: Folds, steps: seq<Step>)
    requires ValidRun(s, f, steps) && ListsOk(s.lists, f)
    ensures ListsOk(Run(s, f, steps).lists, f)
    ensures RowsAgree(s.lists) && AsciiRefines(f) && RowsReach(s, f, steps) ==> RowsAgree(Run(s, f, steps).lists)
    decreases |steps|
  {
    if steps != [] {
      StepKeepsLists(s, f, steps[0]);
      RunKeepsLists(Next(s, f, steps[0]), f, steps[1..]);
      if RowsAgree(s.lists) && AsciiRefines(f) && RowsReach(s, f, steps) {
        StepKeepsRows(s, f, steps[0]);
      }
    }
  }

  /** Completion repairs: whatever rows missed the overlay before, an end that completes the load it
      shows leaves it the sorted cache. */
  lemma CompletionRepairs(idle: nat, f: Folds, steps: seq<Step>, n: Network, connected: bool, accepted: bool)
    requires ValidRun(Initial(idle), f, steps)
    ensures var s := Run(Initial(idle), f, steps);
            var l := Next(s, f, EndArrives(n, connected, accepted)).lists;
            Completes(s.lists.r, n) && s.lists.v.network == n && (!connected || NextMask(s.lists.r, f, n).None?) ==>
              && l.v.complete && Sorted(l.v.rows, f.Order())
              && multiset(l.v.rows) == multiset(s.lists.r.states[n].rows)
  {
    RunKeepsLists(Initial(idle), f, steps);
    var s := Run(Initial(idle), f, steps);
    StepKeepsLists(s, f, EndArrives(n, connected, accepted));
    hide Run, ValidRun, Sort, StatesOk, ViewOk;
    var l := Next(s, f, EndArrives(n, connected, accepted)).lists;
    if l.v.complete {
      CompleteOverlayIsSorted(l, f, l.v.rows);
    }
  }

  /** An overlay that is not streaming has nothing to agree with, and one that a connected command opens
      or finds open is filled from the cache, whatever it missed. */
  lemma AgreesAnew(s: System, f: Folds, n: Network, mask: string, accepted: bool)
    requires ListsOk(s.lists, f)
    ensures !(s.lists.v.open && s.lists.v.loading) ==> RowsAgree(s.lists)
    ensures n != "" ==> RowsAgree(StartList(s.lists, f, n, mask, true, accepted))
  {
    var l := s.lists;
    if n != "" {
      var refresh := Refreshes(l, f, n, mask);
      var r := Request(l.r, f, n, mask, refresh);
      assert StatesOk(r, f);
      if RequestKind(l.r, f, n, mask, refresh) == Start {
        BeginKeepsLists(Lists(r, l.v), f, n, mask, accepted);
      } else {
        ShownRowsAgree(r.states[n].rows, f);
      }
    }
  }

  /** Over every run, rows missed or not: cached rows are unique and at most 8000, a pending mask
      waits only behind another load, and a completed overlay is the one sorted form of the cache.
      While the overlay streams, its rows are the cached ones if they were at some point `before` and
      no row has missed it since. */
  lemma OverlayShowsTheCache(idle: nat, f: Folds, before: seq<Step>, since: seq<Step>)
    requires ValidRun(Initial(idle), f, before) && ValidRun(Run(Initial(idle), f, before), f, since)
    ensures var start := Run(Initial(idle), f, before);
            var l := Run(start, f, since).lists;
            && (forall n :: n in l.r.states ==> StateOk(l.r.states[n], f))
            && (l.v.complete ==>
                  && l.v.network in l.r.states && Sorted(l.v.rows, f.Order())
                  && multiset(l.v.rows) == multiset(l.r.states[l.v.network].rows))
            && (AsciiRefines(f) && RowsAgree(start.lists) && RowsReach(start, f, since)
                && l.v.open && l.r.IsLoading(l.v.network) ==>
                  l.v.loading && multiset(l.v.rows) == multiset(l.r.states[l.v.network].rows))
  {
    RunKeepsLists(Initial(idle), f, before);
    RunKeepsLists(Run(Initial(idle), f, before), f, since);
    var l := Run(Run(Initial(idle), f, before), f, since).lists;
    if l.v.complete {
      CompleteOverlayIsSorted(l, f, l.v.rows);
    }
    hide Run, ValidRun, RowsReach, Sort;
  }
}
