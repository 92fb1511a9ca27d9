/**
 The Status console: each network's lines in a bounded ring, with a sequence number that tells which
 alerts were seen. The main result: the ring shows exactly what an unbounded log would, cut to its
 last lines since the last clear, and counts exactly the retained alerts not seen yet.
 */
module StatusRing {

  const DEFAULT_CAPACITY := 2000

  datatype Entry = Entry(network: string, alert: bool, text: string)

  datatype NetworkLog = NetworkLog(entries: seq<Entry>, nextSequence: nat, lastSeen: nat)
  {
    function FirstSequence(): nat
      requires |entries| <= nextSequence
    {
      nextSequence - |entries|
    }
  }

  const EMPTY_LOG := NetworkLog([], 0, 0)

  /** Zero falls back to the default. */
  function CapacityOf(wanted: nat): (c: nat)
    ensures c > 0
  {
    if wanted == 0 then DEFAULT_CAPACITY else wanted
  }

  // ----- what each operation does to the rings, as functions -----

  type Rings = map<string, NetworkLog>

  function LogOf(r: Rings, n: string): NetworkLog {
    if n in r then r[n] else EMPTY_LOG
  }

  function LastOf<T>(s: seq<T>, n: nat): seq<T> {
    if |s| > n then s[|s| - n..] else s
  }

  function Append(r: Rings, capacity: nat, e: Entry): Rings {
    if e.network == "" then r
    else
      var log := LogOf(r, e.network);
      var next := (if log.nextSequence == 0 then 1 else log.nextSequence) + 1;
      r[e.network := NetworkLog(LastOf(log.entries + [e], capacity), next, log.lastSeen)]
  }

  function MarkSeen(r: Rings, n: string): Rings {
    if n in r && r[n].nextSequence > 0 then r[n := r[n].(lastSeen := r[n].nextSequence - 1)] else r
  }

  function Clear(r: Rings, n: string): Rings {
    if n !in r || r[n].entries == [] then r
    else
      MarkSeen(r[n := r[n].(entries := [])], n)
  }

  function Forget(r: Rings, n: string): Rings {
    r - {n}
  }

  function Lines(r: Rings, n: string): seq<Entry> {
    LogOf(r, n).entries
  }

  /** The alerts of `entries` numbered past `seen`, when the first is numbered `first`. */
  function AlertsPast(entries: seq<Entry>, first: nat, seen: nat): nat {
    if entries == [] then 0
    else
      var n := |entries| - 1;
      AlertsPast(entries[..n], first, seen) + if first + n > seen && entries[n].alert then 1 else 0
  }

  /** Sequence arithmetic that cannot underflow. */
  predicate Numbered(r: Rings) {
    forall n :: n in r ==> |r[n].entries| <= r[n].nextSequence
  }

  function AlertsSinceSeen(r: Rings, n: string): nat
    requires Numbered(r)
  {
    if n !in r then 0 else AlertsPast(r[n].entries, r[n].FirstSequence(), r[n].lastSeen)
  }

  // ----- the console, updating its rings in place -----

  class StatusConsole {
    const capacity: nat
    var lines: Rings

    constructor (wanted: nat)
      ensures capacity == CapacityOf(wanted) && lines == map[]
    {
      capacity := CapacityOf(wanted);
      lines := map[];
    }

    method AppendEntry(entry: Entry)
      modifies this
      ensures lines == Append(old(lines), capacity, entry)
    {
      if entry.network == "" {
        return;
      }
      var buffer := LogOf(lines, entry.network);
      if buffer.nextSequence == 0 {
        buffer := buffer.(nextSequence := 1);
      }
      var entries := buffer.entries + [entry];
      ghost var all := entries;
      while |entries| > capacity
        invariant |entries| <= |all| && entries == all[|all| - |entries|..]
        invariant |entries| == |all| || |entries| >= capacity
      {
        entries := entries[1..];
      }
      assert entries == LastOf(all, capacity);
      lines := lines[entry.network := NetworkLog(entries, buffer.nextSequence + 1, buffer.lastSeen)];
    }

    method MarkNetworkSeen(n: string)
      modifies this
      ensures lines == MarkSeen(old(lines), n)
    {
      if n in lines && lines[n].nextSequence > 0 {
        lines := lines[n := lines[n].(lastSeen := lines[n].nextSequence - 1)];
      }
    }

    method ClearNetwork(n: string)
      modifies this
      ensures lines == Clear(old(lines), n)
    {
      if n !in lines || lines[n].entries == [] {
        return;
      }
      var buffer := lines[n].(entries := []);
      lines := lines[n := buffer];
      if buffer.nextSequence > 0 {
        lines := lines[n := buffer.(lastSeen := buffer.nextSequence - 1)];
      }
    }

    method ForgetNetwork(n: string)
      modifies this
      ensures lines == Forget(old(lines), n)
    {
      lines := lines - {n};
    }

    method CountAlerts(n: string) returns (count: nat)
      requires Numbered(lines)
      ensures count == AlertsSinceSeen(lines, n)
    {
      count := 0;
      if n !in lines || lines[n].entries == [] {
        return;
      }
      var first := lines[n].FirstSequence();
      var entries := lines[n].entries;
      var i := 0;
      while i < |entries|
        invariant 0 <= i <= |entries|
        invariant count == AlertsPast(entries[..i], first, lines[n].lastSeen)
      {
        assert entries[..i + 1][..i] == entries[..i];
        if first + i > lines[n].lastSeen && entries[i].alert {
          count := count + 1;
        }
        i := i + 1;
      }
      assert entries[..i] == entries;
    }
  }

  // ----- the log it stands for -----

  /** Everything a network ever said, how much of it was cleared, and how much was seen. */
  datatype Log = Log(all: seq<Entry>, cleared: nat, seen: nat)
  {
    predicate Valid() {
      cleared <= seen <= |all|
    }

    function Kept(capacity: nat): seq<Entry>
      requires Valid()
    {
      LastOf(all[cleared..], capacity)
    }
  }

  type Logs = map<string, Log>

  datatype Event =
    | Appended(entry: Entry)
    | Seen(network: string)
    | Cleared(network: string)
    | Forgotten(network: string)

  function NextRings(r: Rings, capacity: nat, e: Event): Rings {
    match e
    case Appended(entry) => Append(r, capacity, entry)
    case Seen(n) => MarkSeen(r, n)
    case Cleared(n) => Clear(r, n)
    case Forgotten(n) => Forget(r, n)
  }

  function NextLogs(logs: Logs, e: Event): Logs {
    match e
    case Appended(entry) =>
      if entry.network == "" then logs
      else
        var log := if entry.network in logs then logs[entry.network] else Log([], 0, 0);
        logs[entry.network := log.(all := log.all + [entry])]
    case Seen(n) => if n in logs then logs[n := logs[n].(seen := |logs[n].all|)] else logs
    case Cleared(n) =>
      if n in logs then logs[n := logs[n].(cleared := |logs[n].all|, seen := |logs[n].all|)] else logs
    case Forgotten(n) => logs - {n}
  }

  function RunRings(capacity: nat, events: seq<Event>): Rings {
    if events == [] then map[]
    else NextRings(RunRings(capacity, events[..|events| - 1]), capacity, events[|events| - 1])
  }

  function RunLogs(events: seq<Event>): Logs {
    if events == [] then map[] else NextLogs(RunLogs(events[..|events| - 1]), events[|events| - 1])
  }

  /** A ring and the log it stands for. */
  predicate Stands(ring: NetworkLog, log: Log, capacity: nat) {
    && log.Valid() && log.all != []
    && ring.entries == log.Kept(capacity)
    && ring.nextSequence == |log.all| + 1
    && ring.lastSeen == log.seen && |ring.entries| <= |log.all|
  }

  predicate Agree(r: Rings, logs: Logs, capacity: nat) {
    r.Keys == logs.Keys && forall n :: n in r ==> Stands(r[n], logs[n], capacity)
  }

  lemma AppendStands(ring: NetworkLog, log: Log, capacity: nat, e: Entry)
    requires capacity > 0 && Stands(ring, log, capacity)
    ensures Stands(NetworkLog(LastOf(ring.entries + [e], capacity), ring.nextSequence + 1, ring.lastSeen),
                   log.(all := log.all + [e]), capacity)
  {
  }

  lemma FirstStands(capacity: nat, e: Entry)
    requires capacity > 0
    ensures Stands(NetworkLog(LastOf([] + [e], capacity), 2, 0), Log([] + [e], 0, 0), capacity)
  {
  }

  lemma SeenStands(ring: NetworkLog, log: Log, capacity: nat)
    requires Stands(ring, log, capacity)
    ensures ring.nextSequence > 0
    ensures Stands(ring.(lastSeen := ring.nextSequence - 1), log.(seen := |log.all|), capacity)
  {
  }

  /** Clearing an empty ring changes nothing, and nothing is there to clear. */
  lemma ClearStands(ring: NetworkLog, log: Log, capacity: nat)
    requires capacity > 0 && Stands(ring, log, capacity)
    ensures ring.nextSequence > 0
    ensures ring.entries == [] ==> log == log.(cleared := |log.all|, seen := |log.all|)
    ensures Stands(ring.(entries := [], lastSeen := ring.nextSequence - 1),
                   log.(cleared := |log.all|, seen := |log.all|), capacity)
  {
  }

  lemma EventKeepsAgreement(r: Rings, logs: Logs, capacity: nat, e: Event)
    requires capacity > 0 && Agree(r, logs, capacity)
    ensures Agree(NextRings(r, capacity, e), NextLogs(logs, e), capacity)
  {
    hide Stands, LastOf;
    match e {
      case Appended(entry) =>
        FirstStands(capacity, entry);
        if entry.network in r {
          AppendStands(r[entry.network], logs[entry.network], capacity, entry);
          SeenStands(r[entry.network], logs[entry.network], capacity);
        }
      case Seen(n) =>
        if n in r {
          SeenStands(r[n], logs[n], capacity);
        }
      case Cleared(n) =>
        if n in r {
          ClearStands(r[n], logs[n], capacity);
        }
      case Forgotten(n) =>
    }
  }

  /** The alerts of a log past a point, counted from its end. */
  function AlertsFrom(all: seq<Entry>, from: nat): nat {
    if |all| <= from then 0
    else AlertsFrom(all[..|all| - 1], from) + if all[|all| - 1].alert then 1 else 0
  }

  lemma {:induction false} CountedFrom(entries: seq<Entry>, all: seq<Entry>, seen: nat)
    requires |entries| <= |all| && entries == all[|all| - |entries|..]
    ensures AlertsPast(entries, |all| - |entries| + 1, seen)
         == AlertsFrom(all, if seen >= |all| - |entries| then seen else |all| - |entries|)
    decreases |entries|
  {
    if entries != [] {
      var n := |entries| - 1;
      assert entries[..n] == all[..|all| - 1][|all| - |entries|..];
      CountedFrom(entries[..n], all[..|all| - 1], seen);
    }
  }

  lemma {:induction false} RunsAgree(capacity: nat, events: seq<Event>)
    requires capacity > 0
    ensures Agree(RunRings(capacity, events), RunLogs(events), capacity)
  {
    if events != [] {
      var last := |events| - 1;
      RunsAgree(capacity, events[..last]);
      hide Agree;
      EventKeepsAgreement(RunRings(capacity, events[..last]), RunLogs(events[..last]), capacity, events[last]);
    }
  }

  /** How many of a log's oldest lines are no longer retained. */
  function Dropped(log: Log, capacity: nat): nat
    requires log.Valid()
  {
    |log.all| - |log.Kept(capacity)|
  }

  /** What a ring that stands for a log shows and counts. */
  lemma StandingMeans(ring: NetworkLog, log: Log, capacity: nat)
    requires Stands(ring, log, capacity)
    ensures log.Valid() && |ring.entries| <= ring.nextSequence && ring.entries == log.Kept(capacity)
    ensures log.cleared <= Dropped(log, capacity)
    ensures AlertsPast(ring.entries, ring.FirstSequence(), ring.lastSeen)
         == AlertsFrom(log.all, if log.seen >= Dropped(log, capacity) then log.seen else Dropped(log, capacity))
  {
    assert ring.entries == log.all[|log.all| - |ring.entries|..];
    CountedFrom(ring.entries, log.all, ring.lastSeen);
  }

  /** After any appends, clears, mark-seens and forgets: a network's lines are the last `capacity`
      lines of its whole log since the last clear, the sequence arithmetic does not underflow, and the
      alerts counted are those retained and said after the last mark-seen or clear. */
  lemma RingRefinesLog(wanted: nat, events: seq<Event>, n: string)
    ensures var capacity := CapacityOf(wanted);
            var r := RunRings(capacity, events);
            var logs := RunLogs(events);
            && r.Keys == logs.Keys && Numbered(r)
            && (n !in logs ==> Lines(r, n) == [] && AlertsSinceSeen(r, n) == 0)
            && (n in logs ==>
                  var log := logs[n];
                  && log.Valid() && Lines(r, n) == log.Kept(capacity)
                  && log.cleared <= Dropped(log, capacity)
                  && AlertsSinceSeen(r, n)
                     == AlertsFrom(log.all, if log.seen >= Dropped(log, capacity) then log.seen else Dropped(log, capacity)))
  {
    var capacity := CapacityOf(wanted);
    RunsAgree(capacity, events);
    hide RunRings, RunLogs, Stands, AlertsPast, AlertsFrom, LastOf;
    var r := RunRings(capacity, events);
    var logs := RunLogs(events);
    forall m | m in r
      ensures |r[m].entries| <= r[m].nextSequence
    {
      StandingMeans(r[m], logs[m], capacity);
    }
    if n in logs {
      StandingMeans(r[n], logs[n], capacity);
    }
  }
}
