/**
 Channel membership: `/join`, `/part`, closing a row, and the latch that cancels a JOIN
 still in flight. The client marks itself left before the server agrees, so the two sides
 disagree while frames travel. The main result is that they agree with each other, and
 with what the user last asked for, whenever nothing is in flight and no PART was lost; after a
 lost one, what stays wrong, for how long, and what mends it.

 One network is modelled. A channel is named by its folded name.
 */
module Membership {

  type Channel = string

  /** A frame about our own membership. Clients send them; the server echoes them. */
  datatype Frame = Join(channel: Channel) | Part(channel: Channel)

  datatype Outcome = Sent | Refused

  /** The controller's facts about channels: each row with its joined flag, the channels
      whose next own JOIN is to be parted again, and the channels the user closed. */
  datatype Client = Client(rows: map<Channel, bool>, cancelled: set<Channel>, closed: set<Channel>)
  {
    predicate Joined(k: Channel) {
      k in rows && rows[k]
    }
  }

  /** What one intent or one delivered frame does: the new facts and the frames written. */
  datatype Reply = Reply(client: Client, frames: seq<Frame>, outcome: Outcome)

  // ----- what each operation does, as functions -----

  /** One `/join` target: an accepted JOIN lifts the channel's marks, a refused one changes nothing. */
  function WriteJoin(c: Client, k: Channel, accepted: bool): Client {
    if accepted then c.(cancelled := c.cancelled - {k}, closed := c.closed - {k}) else c
  }

  function WriteJoins(c: Client, targets: seq<Channel>, accepts: seq<bool>): Client
    requires |accepts| == |targets|
  {
    if targets == [] then c
    else
      var n := |targets| - 1;
      WriteJoin(WriteJoins(c, targets[..n], accepts[..n]), targets[n], accepts[n])
  }

  /** The JOIN frames the session accepted, in order. */
  function JoinFrames(targets: seq<Channel>, accepts: seq<bool>): seq<Frame>
    requires |accepts| == |targets|
  {
    if targets == [] then []
    else
      var n := |targets| - 1;
      JoinFrames(targets[..n], accepts[..n]) + if accepts[n] then [Join(targets[n])] else []
  }

  /** A row for a channel asked for: an old one is kept as it is, a new one is not joined yet. */
  function OpenJoined(c: Client, k: Channel): Client {
    c.(closed := c.closed - {k},
       rows := if k in c.rows then c.rows else c.rows[k := false])
  }

  function MarkLeft(c: Client, k: Channel): Client {
    if k in c.rows then c.(rows := c.rows[k := false]) else c
  }

  function DropRow(c: Client, k: Channel): Client {
    c.(rows := c.rows - {k})
  }

  function AllAccepted(accepts: seq<bool>): bool {
    forall i :: 0 <= i < |accepts| ==> accepts[i]
  }

  function JoinReply(c: Client, targets: seq<Channel>, accepts: seq<bool>): Reply
    requires |accepts| == |targets|
  {
    var written := WriteJoins(c, targets, accepts);
    if targets != [] && AllAccepted(accepts) then
      Reply(OpenJoined(written, targets[|targets| - 1]), JoinFrames(targets, accepts), Sent)
    else
      Reply(written, JoinFrames(targets, accepts), Refused)
  }

  function PartReply(c: Client, k: Channel, accepted: bool): Reply {
    if k in c.rows && !c.rows[k] then
      Reply(c.(cancelled := c.cancelled + {k}), [], Sent)
    else if accepted then
      Reply(MarkLeft(c, k), [Part(k)], Sent)
    else
      Reply(c, [], Refused)
  }

  function CloseReply(c: Client, k: Channel): Reply {
    if k in c.rows && !c.rows[k] then
      Reply(DropRow(c.(cancelled := c.cancelled + {k}, closed := c.closed + {k}), k), [], Sent)
    else
      Reply(c, [], Refused)
  }

  /** Our own JOIN: a closed channel that has no row gets none. */
  function ReduceJoin(c: Client, k: Channel): Client {
    if k !in c.rows && k in c.closed then c else c.(rows := c.rows[k := true])
  }

  /** Our own JOIN or PART arriving from the server. `accepted` is the answer to the PART a
      cancelled JOIN writes; its refusal is not looked at. */
  function EchoReply(c: Client, f: Frame, accepted: bool): Reply {
    match f
    case Part(k) => Reply(MarkLeft(c, k), [], Sent)
    case Join(k) =>
      var reduced := ReduceJoin(c, k);
      if k in c.cancelled then
        var lifted := reduced.(cancelled := reduced.cancelled - {k});
        Reply(if k in c.closed then DropRow(lifted, k) else MarkLeft(lifted, k),
              if accepted then [Part(k)] else [], Sent)
      else
        Reply(reduced, [], Sent)
  }

  // ----- the controller, updating its fields in place -----

  class Controller {
    var rows: map<Channel, bool>
    var cancelledJoins: set<Channel>
    var closed: set<Channel>
    /** Every frame the session has accepted, oldest first. */
    var sent: seq<Frame>

    ghost function Model(): Client
      reads this
    {
      Client(rows, cancelledJoins, closed)
    }

    constructor ()
      ensures Model() == Client(map[], {}, {}) && sent == []
    {
      rows, cancelledJoins, closed, sent := map[], {}, {}, [];
    }

    method Write(f: Frame, accepted: bool) returns (wrote: bool)
      modifies this`sent
      ensures wrote == accepted
      ensures sent == old(sent) + if accepted then [f] else []
    {
      if accepted {
        sent := sent + [f];
      }
      wrote := accepted;
    }

    /** `/join`: each target clears its marks before its JOIN is written, and gets them back
        when the write is refused. The last target opens when every JOIN went out. */
    method DispatchJoin(targets: seq<Channel>, accepts: seq<bool>) returns (outcome: Outcome)
      requires |accepts| == |targets|
      modifies this
      ensures var r := JoinReply(old(Model()), targets, accepts);
              Model() == r.client && sent == old(sent) + r.frames && outcome == r.outcome
    {
      var allSent := true;
      var i := 0;
      while i < |targets|
        invariant 0 <= i <= |targets|
        invariant Model() == WriteJoins(old(Model()), targets[..i], accepts[..i])
        invariant sent == old(sent) + JoinFrames(targets[..i], accepts[..i])
        invariant allSent == AllAccepted(accepts[..i])
      {
        var k := targets[i];
        ghost var before := Model();
        var wasClosed := k in closed;
        closed := closed - {k};
        var wasCancelled := k in cancelledJoins;
        cancelledJoins := cancelledJoins - {k};
        var wrote := Write(Join(k), accepts[i]);
        if !wrote {
          if wasClosed {
            closed := closed + {k};
          }
          if wasCancelled {
            cancelledJoins := cancelledJoins + {k};
          }
        }
        assert Model() == WriteJoin(before, k, accepts[i]);
        assert targets[..i + 1][..i] == targets[..i] && accepts[..i + 1][..i] == accepts[..i];
        allSent := wrote && allSent;
        i := i + 1;
      }
      assert targets[..i] == targets && accepts[..i] == accepts;
      if targets != [] && allSent {
        var last := targets[|targets| - 1];
        closed := closed - {last};
        if last !in rows {
          rows := rows[last := false];
        }
        return Sent;
      }
      return Refused;
    }

    method MarkChannelLeft(k: Channel)
      modifies this`rows
      ensures Model() == MarkLeft(old(Model()), k)
    {
      if k in rows {
        rows := rows[k := false];
      }
    }

    /** `/part` does not wait for the server: the row leaves with the write. Where there is nothing to
        leave it sets the latch instead, and where there is no row it only writes. */
    method DispatchPart(k: Channel, accepted: bool) returns (outcome: Outcome)
      modifies this
      ensures var r := PartReply(old(Model()), k, accepted);
              Model() == r.client && sent == old(sent) + r.frames && outcome == r.outcome
    {
      if k in rows {
        if rows[k] {
          var wrote := Write(Part(k), accepted);
          if !wrote {
            return Refused;
          }
          MarkChannelLeft(k);
          return Sent;
        }
        cancelledJoins := cancelledJoins + {k};
        return Sent;
      }
      var wrote := Write(Part(k), accepted);
      return if wrote then Sent else Refused;
    }

    /** Closing a row. There must be one, and the channel must have been left. */
    method CloseConversation(k: Channel) returns (outcome: Outcome)
      modifies this
      ensures var r := CloseReply(old(Model()), k);
              Model() == r.client && sent == old(sent) + r.frames && outcome == r.outcome
    {
      if k !in rows || rows[k] {
        return Refused;
      }
      cancelledJoins := cancelledJoins + {k};
      closed := closed + {k};
      rows := rows - {k};
      return Sent;
    }

    /** An echo of our own. The latch turns a JOIN nobody wants any more back into a PART, and then
        the closed mark decides whether the row survives it. */
    method HandleEcho(f: Frame, accepted: bool)
      modifies this
      ensures var r := EchoReply(old(Model()), f, accepted);
              Model() == r.client && sent == old(sent) + r.frames
    {
      var k := f.channel;
      if f.Part? {
        MarkChannelLeft(k);
        return;
      }
      if k in rows || k !in closed {
        rows := rows[k := true];
      }
      if k in cancelledJoins {
        cancelledJoins := cancelledJoins - {k};
        var _ := Write(Part(k), accepted);
        if k in closed {
          rows := rows - {k};
        } else {
          MarkChannelLeft(k);
        }
      }
    }
  }

  // ----- client, server and the two links -----

  /** The whole system. `told` holds the channels whose last own echo was a JOIN, and
      `intent` the channels the user last asked to be in. */
  datatype System = System(
    client: Client,
    toServer: seq<Frame>,
    toClient: seq<Frame>,
    members: set<Channel>,
    told: set<Channel>,
    intent: set<Channel>)

  datatype Step =
    | UserJoins(targets: seq<Channel>, accepts: seq<bool>)
    | UserParts(channel: Channel, accepted: bool)
    | UserCloses(channel: Channel)
    | ServerTakes
    | ClientTakes(accepted: bool)

  const INITIAL := System(Client(map[], {}, {}), [], [], {}, {}, {})

  predicate Enabled(s: System, step: Step) {
    match step
    case UserJoins(targets, accepts) => |targets| == |accepts|
    case ServerTakes => s.toServer != []
    case ClientTakes(_) => s.toClient != []
    case _ => true
  }

  function WantsIn(intent: set<Channel>, targets: seq<Channel>, accepts: seq<bool>): set<Channel>
    requires |accepts| == |targets|
  {
    intent + set i | 0 <= i < |targets| && accepts[i] :: targets[i]
  }

  function Put(members: set<Channel>, f: Frame): set<Channel> {
    if f.Join? then members + {f.channel} else members - {f.channel}
  }

  /** The server applies a frame and echoes it only when membership really changed. */
  function EchoOf(members: set<Channel>, f: Frame): seq<Frame> {
    if (f.channel in members) == f.Join? then [] else [f]
  }

  function Next(s: System, step: Step): System
    requires Enabled(s, step)
  {
    match step
    case UserJoins(targets, accepts) =>
      var r := JoinReply(s.client, targets, accepts);
      s.(client := r.client, toServer := s.toServer + r.frames, intent := WantsIn(s.intent, targets, accepts))
    case UserParts(k, accepted) =>
      var r := PartReply(s.client, k, accepted);
      s.(client := r.client, toServer := s.toServer + r.frames,
         intent := if r.outcome == Sent then s.intent - {k} else s.intent)
    case UserCloses(k) =>
      var r := CloseReply(s.client, k);
      s.(client := r.client, intent := if r.outcome == Sent then s.intent - {k} else s.intent)
    case ServerTakes =>
      var f := s.toServer[0];
      s.(toServer := s.toServer[1..], toClient := s.toClient + EchoOf(s.members, f), members := Put(s.members, f))
    case ClientTakes(accepted) =>
      var f := s.toClient[0];
      var r := EchoReply(s.client, f, accepted);
      s.(client := r.client, toServer := s.toServer + r.frames, toClient := s.toClient[1..], told := Put(s.told, f))
  }

  // ----- one channel's view of the links -----

  /** Membership of `k` once a queue that starts at `m` is used up. */
  function After(m: bool, q: seq<Frame>, k: Channel): bool {
    if q == [] then m
    else if q[|q| - 1].channel == k then q[|q| - 1].Join?
    else After(m, q[..|q| - 1], k)
  }

  /** Whether some frame of the queue changes the membership of `k`. */
  predicate Changes(m: bool, q: seq<Frame>, k: Channel) {
    q != [] && (Changes(m, q[..|q| - 1], k) || After(m, q, k) != After(m, q[..|q| - 1], k))
  }

  predicate Mentions(q: seq<Frame>, k: Channel) {
    exists i :: 0 <= i < |q| && q[i].channel == k
  }

  /** An echo for `k` is still to reach the client: one is on its way, or a queued frame will cause one. */
  predicate EchoDue(s: System, k: Channel) {
    Mentions(s.toClient, k) || Changes(k in s.members, s.toServer, k)
  }

  /** The server's membership of `k` once it has taken everything already sent. */
  predicate Heading(s: System, k: Channel) {
    After(k in s.members, s.toServer, k)
  }

  predicate ChannelInv(s: System, k: Channel) {
    && After(k in s.told, s.toClient, k) == (k in s.members)
    && (s.client.Joined(k) ==> k in s.told)
    && (k in s.told && !s.client.Joined(k) ==> EchoDue(s, k))
    && (k in s.client.cancelled ==> !s.client.Joined(k))
    && (k in s.intent ==> Heading(s, k) && k !in s.client.cancelled && k !in s.client.closed)
    && (k !in s.intent ==> !Heading(s, k) || k in s.client.cancelled)
  }

  predicate Quiet(s: System) {
    s.toServer == [] && s.toClient == []
  }

  // ----- queue lemmas -----

  lemma AppendOne(m: bool, q: seq<Frame>, f: Frame, k: Channel)
    ensures After(m, q + [f], k) == if f.channel == k then f.Join? else After(m, q, k)
    ensures Changes(m, q + [f], k) == (Changes(m, q, k) || After(m, q + [f], k) != After(m, q, k))
    ensures Mentions(q + [f], k) <==> Mentions(q, k) || f.channel == k
  {
  }

  /** Taking the head of a queue: what it does happens first, the rest follows from there. */
  lemma {:induction false} TakeHead(m: bool, q: seq<Frame>, k: Channel)
    requires q != []
    ensures var m' := if q[0].channel == k then q[0].Join? else m;
            && After(m, q, k) == After(m', q[1..], k)
            && Changes(m, q, k) == (m' != m || Changes(m', q[1..], k))
    ensures Mentions(q, k) <==> q[0].channel == k || Mentions(q[1..], k)
  {
    if q[0].channel != k && Mentions(q, k) {
      var i :| 0 <= i < |q| && q[i].channel == k;
      assert q[1..][i - 1].channel == k;
    }
    var n := |q| - 1;
    if n == 0 {
      assert q[..0] == [] && q[1..] == [];
      assert After(m, q[..0], k) == m;
    } else {
      var front := q[..n];
      TakeHead(m, front, k);
      assert front[1..] == q[1..][..n - 1];
      assert q[1..][n - 1] == q[n];
    }
  }

  /** A queue that leaves no trace for `k` leaves its membership as it was. */
  lemma {:induction false} NothingDue(m: bool, q: seq<Frame>, k: Channel)
    ensures !Mentions(q, k) ==> After(m, q, k) == m
    ensures !Changes(m, q, k) ==> After(m, q, k) == m
  {
    if q != [] {
      var n := |q| - 1;
      NothingDue(m, q[..n], k);
      AppendOne(m, q[..n], q[n], k);
      assert q[..n] + [q[n]] == q;
    }
  }

  /** When the client was last told otherwise than where the server is heading, an echo is due. */
  lemma DisagreementIsDue(s: System, k: Channel)
    requires After(k in s.told, s.toClient, k) == (k in s.members)
    requires (k in s.told) != Heading(s, k)
    ensures EchoDue(s, k)
  {
    NothingDue(k in s.told, s.toClient, k);
    NothingDue(k in s.members, s.toServer, k);
  }

  // ----- every step keeps the invariant -----

  /** Writing one more frame to the server, seen from `k`. */
  lemma WriteOne(s: System, f: Frame, k: Channel)
    ensures var s' := s.(toServer := s.toServer + [f]);
            && Heading(s', k) == (if f.channel == k then f.Join? else Heading(s, k))
            && (EchoDue(s, k) ==> EchoDue(s', k))
  {
  }

  function AfterJoin(s: System, c: Channel, accepted: bool): System {
    s.(client := WriteJoin(s.client, c, accepted),
       toServer := s.toServer + (if accepted then [Join(c)] else []),
       intent := if accepted then s.intent + {c} else s.intent)
  }

  function AfterJoins(s: System, targets: seq<Channel>, accepts: seq<bool>): System
    requires |accepts| == |targets|
  {
    s.(client := WriteJoins(s.client, targets, accepts),
       toServer := s.toServer + JoinFrames(targets, accepts),
       intent := WantsIn(s.intent, targets, accepts))
  }

  lemma JoinOneKeepsInv(s: System, c: Channel, accepted: bool, k: Channel)
    requires ChannelInv(s, k)
    ensures ChannelInv(AfterJoin(s, c, accepted), k)
  {
    if accepted {
      WriteOne(s, Join(c), k);
    } else {
      assert s.toServer + [] == s.toServer;
    }
    hide After, Changes, Mentions;
  }

  lemma {:induction false} JoinsKeepInv(s: System, targets: seq<Channel>, accepts: seq<bool>, k: Channel)
    requires |accepts| == |targets| && ChannelInv(s, k)
    ensures ChannelInv(AfterJoins(s, targets, accepts), k)
  {
    hide ChannelInv;
    if targets == [] {
      assert AfterJoins(s, targets, accepts) == s;
    } else {
      var n := |targets| - 1;
      var mid := AfterJoins(s, targets[..n], accepts[..n]);
      JoinsKeepInv(s, targets[..n], accepts[..n], k);
      JoinOneKeepsInv(mid, targets[n], accepts[n], k);
      assert AfterJoins(s, targets, accepts) == AfterJoin(mid, targets[n], accepts[n]);
    }
  }

  lemma UserJoinKeepsInv(s: System, targets: seq<Channel>, accepts: seq<bool>, k: Channel)
    requires |targets| == |accepts| && ChannelInv(s, k)
    ensures ChannelInv(Next(s, UserJoins(targets, accepts)), k)
  {
    JoinsKeepInv(s, targets, accepts, k);
    var mid := AfterJoins(s, targets, accepts);
    var s' := Next(s, UserJoins(targets, accepts));
    assert s' == mid.(client := s'.client);
    assert s'.client.Joined(k) == mid.client.Joined(k);
  }

  lemma UserPartKeepsInv(s: System, c: Channel, accepted: bool, k: Channel)
    requires ChannelInv(s, k)
    ensures ChannelInv(Next(s, UserParts(c, accepted)), k)
  {
    var r := PartReply(s.client, c, accepted);
    var s' := Next(s, UserParts(c, accepted));
    if r.frames == [] {
      assert s'.toServer == s.toServer;
    } else {
      WriteOne(s, Part(c), k);
      assert Heading(s', k) == if c == k then false else Heading(s, k);
      if k == c && k in s'.told {
        DisagreementIsDue(s', k);
      }
    }
  }

  lemma UserCloseKeepsInv(s: System, c: Channel, k: Channel)
    requires ChannelInv(s, k)
    ensures ChannelInv(Next(s, UserCloses(c)), k)
  {
  }

  lemma ServerStepKeepsInv(s: System, k: Channel)
    requires s.toServer != [] && ChannelInv(s, k)
    ensures ChannelInv(Next(s, ServerTakes), k)
  {
    var f := s.toServer[0];
    TakeHead(k in s.members, s.toServer, k);
    if EchoOf(s.members, f) == [f] {
      AppendOne(k in s.told, s.toClient, f, k);
    } else {
      assert s.toClient + [] == s.toClient;
    }
  }

  /** The one delivery that can go wrong: a cancelled JOIN lands, the PART it writes is refused,
      and nothing already sent takes us out of the channel. */
  predicate LosesCancelledPart(s: System, step: Step) {
    && step.ClientTakes? && !step.accepted
    && s.toClient != [] && s.toClient[0].Join?
    && s.toClient[0].channel in s.client.cancelled
    && Heading(s, s.toClient[0].channel)
  }

  lemma ClientStepKeepsInv(s: System, accepted: bool, k: Channel)
    requires s.toClient != [] && ChannelInv(s, k)
    ensures ChannelInv(Next(s, ClientTakes(accepted)), k)
        <==> !(LosesCancelledPart(s, ClientTakes(accepted)) && s.toClient[0].channel == k)
  {
    hide After, Changes, Mentions;
    var f := s.toClient[0];
    var s' := Next(s, ClientTakes(accepted));
    var frames := EchoReply(s.client, f, accepted).frames;
    TakeHead(k in s.told, s.toClient, k);
    if frames == [] {
      assert s'.toServer == s.toServer;
    } else {
      WriteOne(s, Part(f.channel), k);
    }
    if f.channel == k && k in s'.told && !s'.client.Joined(k) && !Heading(s', k) {
      DisagreementIsDue(s', k);
    }
  }

  predicate LosesPartOf(s: System, step: Step, k: Channel) {
    LosesCancelledPart(s, step) && s.toClient[0].channel == k
  }

  /** Every step keeps each channel's invariant, except exactly the one that loses its cancelled PART. */
  lemma StepKeepsChannel(s: System, step: Step, k: Channel)
    requires Enabled(s, step) && ChannelInv(s, k)
    ensures ChannelInv(Next(s, step), k) <==> !LosesPartOf(s, step, k)
  {
    match step
    case ServerTakes => ServerStepKeepsInv(s, k);
    case ClientTakes(accepted) => ClientStepKeepsInv(s, accepted, k);
    case UserJoins(targets, accepts) => UserJoinKeepsInv(s, targets, accepts, k);
    case UserParts(c, accepted) => UserPartKeepsInv(s, c, accepted, k);
    case UserCloses(c) => UserCloseKeepsInv(s, c, k);
  }

  // ----- whole runs -----

  predicate ValidRun(s: System, steps: seq<Step>)
    decreases |steps|
  {
    steps == [] || (Enabled(s, steps[0]) && ValidRun(Next(s, steps[0]), steps[1..]))
  }

  predicate KeepsPartsOf(s: System, steps: seq<Step>, k: Channel)
    requires ValidRun(s, steps)
    decreases |steps|
  {
    steps != [] ==> !LosesPartOf(s, steps[0], k) && KeepsPartsOf(Next(s, steps[0]), steps[1..], k)
  }

  function Run(s: System, steps: seq<Step>): System
    requires ValidRun(s, steps)
    decreases |steps|
  {
    if steps == [] then s else Run(Next(s, steps[0]), steps[1..])
  }

  lemma {:induction false} RunKeepsChannel(s: System, steps: seq<Step>, k: Channel)
    requires ChannelInv(s, k) && ValidRun(s, steps) && KeepsPartsOf(s, steps, k)
    ensures ChannelInv(Run(s, steps), k)
    decreases |steps|
  {
    if steps != [] {
      StepKeepsChannel(s, steps[0], k);
      hide ChannelInv, Next, LosesPartOf;
      RunKeepsChannel(Next(s, steps[0]), steps[1..], k);
    }
  }

  lemma InitialChannel(k: Channel)
    ensures ChannelInv(INITIAL, k)
  {
  }

  /** Client, server and user are of one mind about `k`. */
  predicate Agrees(s: System, k: Channel) {
    s.client.Joined(k) == (k in s.members) == (k in s.intent)
  }

  lemma QuietAgrees(s: System, k: Channel)
    requires ChannelInv(s, k) && Quiet(s)
    ensures Agrees(s, k)
  {
    assert !Mentions(s.toClient, k) && !Changes(k in s.members, s.toServer, k);
  }

  /** Convergence: after any interleaving of intents and deliveries, once both links are empty the
      client, the server and the user agree on every channel whose cancelled PARTs got through. On the
      way such a channel is never shown as joined while its latch is set. */
  lemma Convergence(steps: seq<Step>, k: Channel)
    requires ValidRun(INITIAL, steps) && KeepsPartsOf(INITIAL, steps, k)
    ensures var s := Run(INITIAL, steps);
            && (k in s.client.cancelled ==> !s.client.Joined(k))
            && (Quiet(s) ==> Agrees(s, k))
  {
    InitialChannel(k);
    RunKeepsChannel(INITIAL, steps, k);
    if Quiet(Run(INITIAL, steps)) {
      QuietAgrees(Run(INITIAL, steps), k);
    }
  }

  // ----- deliveries run dry -----

  /** Each delivery uses some of this up, so the links empty once the user stops. */
  function Unsettled(s: System): nat {
    3 * |s.client.cancelled| + 2 * |s.toServer| + |s.toClient|
  }

  lemma DeliveryUsesUp(s: System, step: Step)
    requires Enabled(s, step) && (step.ServerTakes? || step.ClientTakes?)
    ensures Unsettled(Next(s, step)) < Unsettled(s)
  {
  }

  predicate Deliveries(steps: seq<Step>) {
    forall i :: 0 <= i < |steps| ==> steps[i].ServerTakes? || steps[i].ClientTakes?
  }

  /** From any state, every schedule of deliveries is shorter than `Unsettled`. */
  lemma {:induction false} DeliveriesSettle(s: System, steps: seq<Step>)
    requires ValidRun(s, steps) && Deliveries(steps)
    ensures |steps| <= Unsettled(s)
    decreases |steps|
  {
    if steps != [] {
      DeliveryUsesUp(s, steps[0]);
      DeliveriesSettle(Next(s, steps[0]), steps[1..]);
    }
  }

  // ----- agreement, channel by channel -----

  /** The server is heading where the user does not want to be, and nothing is left that would turn it. */
  predicate Stuck(s: System, k: Channel) {
    k !in s.intent && Heading(s, k) && k !in s.client.cancelled
  }

  lemma DeliveryKeepsChannel(s: System, step: Step, k: Channel)
    requires Enabled(s, step) && (step.ServerTakes? || step.ClientTakes?) && ChannelInv(s, k)
    ensures LosesPartOf(s, step, k) ==> Stuck(Next(s, step), k)
    ensures !LosesPartOf(s, step, k) ==> ChannelInv(Next(s, step), k)
  {
    if step.ServerTakes? {
      ServerStepKeepsInv(s, k);
    } else {
      ClientStepKeepsInv(s, step.accepted, k);
      if LosesPartOf(s, step, k) {
        assert k !in s.intent;
        assert Next(s, step).toServer == s.toServer;
      }
    }
  }

  lemma StuckStays(s: System, step: Step, k: Channel)
    requires Enabled(s, step) && (step.ServerTakes? || step.ClientTakes?) && Stuck(s, k)
    ensures Stuck(Next(s, step), k)
  {
    if step.ServerTakes? {
      TakeHead(k in s.members, s.toServer, k);
    } else {
      var frames := EchoReply(s.client, s.toClient[0], step.accepted).frames;
      if frames == [] {
        assert s.toServer + frames == s.toServer;
      } else {
        WriteOne(s, frames[0], k);
      }
    }
    hide After;
  }

  lemma {:induction false} StuckToTheEnd(s: System, steps: seq<Step>, k: Channel)
    requires ValidRun(s, steps) && Deliveries(steps) && Stuck(s, k)
    ensures Stuck(Run(s, steps), k)
    decreases |steps|
  {
    if steps != [] {
      StuckStays(s, steps[0], k);
      hide Stuck, Next;
      StuckToTheEnd(Next(s, steps[0]), steps[1..], k);
    }
  }

  /** Once the user stops and the links have run dry, client, server and user agree on a channel if and
      only if no delivery lost its cancelled PART. */
  lemma {:induction false} AgreementIsKeptParts(s: System, steps: seq<Step>, k: Channel)
    requires ChannelInv(s, k) && ValidRun(s, steps) && Deliveries(steps) && Quiet(Run(s, steps))
    ensures Agrees(Run(s, steps), k) <==> KeepsPartsOf(s, steps, k)
    decreases |steps|
  {
    if steps == [] {
      QuietAgrees(s, k);
    } else {
      var next := Next(s, steps[0]);
      DeliveryKeepsChannel(s, steps[0], k);
      if LosesPartOf(s, steps[0], k) {
        StuckToTheEnd(next, steps[1..], k);
        assert Stuck(Run(next, steps[1..]), k);
        hide Next, LosesPartOf;
      } else {
        hide Next, LosesPartOf, ChannelInv, Agrees;
        AgreementIsKeptParts(next, steps[1..], k);
      }
    }
  }

  /** From the start: after any run that keeps a channel's cancelled PARTs the user stops. Every schedule
      of deliveries from there is bounded, and one that cannot go on leaves client and server agreeing
      with what the user last asked for, exactly when it kept them too. */
  lemma SettlesInAgreement(steps: seq<Step>, more: seq<Step>, k: Channel)
    requires ValidRun(INITIAL, steps) && KeepsPartsOf(INITIAL, steps, k)
    requires ValidRun(Run(INITIAL, steps), more) && Deliveries(more)
    requires var last := Run(Run(INITIAL, steps), more);
             !Enabled(last, ServerTakes) && !Enabled(last, ClientTakes(true))
    ensures var s := Run(INITIAL, steps);
            && |more| <= Unsettled(s)
            && Run(s, more).intent == s.intent
            && (Agrees(Run(s, more), k) <==> KeepsPartsOf(s, more, k))
  {
    InitialChannel(k);
    RunKeepsChannel(INITIAL, steps, k);
    var s := Run(INITIAL, steps);
    DeliveriesSettle(s, more);
    DeliveriesKeepIntent(s, more);
    hide Run, ChannelInv, ValidRun;
    AgreementIsKeptParts(s, more, k);
  }

  lemma {:induction false} DeliveriesKeepIntent(s: System, steps: seq<Step>)
    requires ValidRun(s, steps) && Deliveries(steps)
    ensures Run(s, steps).intent == s.intent
    decreases |steps|
  {
    if steps != [] {
      DeliveriesKeepIntent(Next(s, steps[0]), steps[1..]);
    }
  }

  // ----- what a lost PART costs -----

  /** The server has us in a channel whose row shows it as left, and no echo is due that would say so. */
  predicate Marooned(s: System, k: Channel) {
    k in s.client.rows && !s.client.rows[k] && k in s.members && !EchoDue(s, k)
  }

  /** A lost PART leaves such a channel exactly when its row stays and nothing else is due for it. */
  lemma LossMaroons(s: System, step: Step, k: Channel)
    requires Enabled(s, step) && ChannelInv(s, k) && LosesPartOf(s, step, k)
    ensures Marooned(Next(s, step), k) <==> k !in s.client.closed && !EchoDue(Next(s, step), k)
  {
    var s' := Next(s, step);
    TakeHead(k in s.told, s.toClient, k);
    if !EchoDue(s', k) {
      NothingDue(true, s'.toClient, k);
    }
    hide After, Changes, Mentions;
  }

  /** More JOINs change nothing for a channel the server already has us in. */
  lemma {:induction false} JoinsLeaveMarooned(q: seq<Frame>, targets: seq<Channel>, accepts: seq<bool>, k: Channel)
    requires |accepts| == |targets| && !Changes(true, q, k)
    ensures !Changes(true, q + JoinFrames(targets, accepts), k)
  {
    if targets == [] {
      assert q + [] == q;
    } else {
      var n := |targets| - 1;
      var before := q + JoinFrames(targets[..n], accepts[..n]);
      JoinsLeaveMarooned(q, targets[..n], accepts[..n], k);
      NothingDue(true, before, k);
      AppendOne(true, before, Join(targets[n]), k);
      assert q + JoinFrames(targets, accepts) == before + if accepts[n] then [Join(targets[n])] else [];
      assert before + [] == before;
    }
  }

  lemma {:induction false} WritesKeepRows(c: Client, targets: seq<Channel>, accepts: seq<bool>)
    requires |accepts| == |targets|
    ensures WriteJoins(c, targets, accepts).rows == c.rows
  {
    if targets != [] {
      var n := |targets| - 1;
      WritesKeepRows(c, targets[..n], accepts[..n]);
    }
  }

  /** Only closing its row leads out of a marooned channel. */
  lemma OnlyClosingLeadsOut(s: System, step: Step, k: Channel)
    requires Enabled(s, step) && Marooned(s, k)
    ensures Marooned(Next(s, step), k) <==> step != UserCloses(k)
  {
    hide After;
    match step
    case UserJoins(targets, accepts) =>
      WritesKeepRows(s.client, targets, accepts);
      JoinsLeaveMarooned(s.toServer, targets, accepts, k);
    case UserParts(c, accepted) =>
      assert s.toServer + [] == s.toServer;
      AppendOne(true, s.toServer, Part(c), k);
    case UserCloses(c) =>
    case ServerTakes =>
      TakeHead(true, s.toServer, k);
      assert s.toClient + [] == s.toClient;
      AppendOne(true, s.toClient, s.toServer[0], k);
    case ClientTakes(accepted) =>
      TakeHead(true, s.toClient, k);
      assert s.toServer + [] == s.toServer;
      AppendOne(true, s.toServer, Part(s.toClient[0].channel), k);
  }

  lemma {:induction false} MaroonedStays(s: System, steps: seq<Step>, k: Channel)
    requires ValidRun(s, steps) && Marooned(s, k) && UserCloses(k) !in steps
    ensures Marooned(Run(s, steps), k)
    decreases |steps|
  {
    if steps != [] {
      OnlyClosingLeadsOut(s, steps[0], k);
      hide Marooned, Next;
      MaroonedStays(Next(s, steps[0]), steps[1..], k);
    }
  }

  /** A lost PART that leaves the row and nothing due is for good: over every run that does not close the
      row, whatever JOINs and PARTs are asked for and accepted, the server has us in a channel that is
      never shown as joined. */
  lemma LostPartLasts(s: System, step: Step, steps: seq<Step>, k: Channel)
    requires Enabled(s, step) && ChannelInv(s, k) && LosesPartOf(s, step, k)
    requires k !in s.client.closed && !EchoDue(Next(s, step), k)
    requires ValidRun(Next(s, step), steps) && UserCloses(k) !in steps
    ensures var last := Run(Next(s, step), steps);
            k in last.members && k in last.client.rows && !last.client.Joined(k)
  {
    LossMaroons(s, step, k);
    MaroonedStays(Next(s, step), steps, k);
    hide Next, Run, ValidRun, ChannelInv;
  }

  /** The way back: close the row, leave the channel again, and let the PART and its echo through. */
  lemma ClosingMendsIt(s: System, k: Channel, accepted: bool)
    requires Marooned(s, k) && Quiet(s)
    ensures var parted := Next(Next(s, UserCloses(k)), UserParts(k, true));
            && Enabled(parted, ServerTakes)
            && var served := Next(parted, ServerTakes);
            && Enabled(served, ClientTakes(accepted))
            && var mended := Next(served, ClientTakes(accepted));
            Quiet(mended) && ChannelInv(mended, k) && Agrees(mended, k)
  {
    assert [] + [Part(k)] == [Part(k)];
  }

  /** One JOIN from the start, and a cancellation while it is in flight. */
  lemma CancelledInFlight(k: Channel)
    ensures Next(INITIAL, UserJoins([k], [true]))
         == System(Client(map[k := false], {}, {}), [Join(k)], [], {}, {}, {k})
  {
    assert [k][..0] == [] && [true][..0] == [];
    assert WriteJoins(INITIAL.client, [k][..0], [true][..0]) == INITIAL.client;
    assert JoinFrames([k], [true]) == [Join(k)];
    assert WantsIn({}, [k], [true]) == {k};
    assert JoinReply(INITIAL.client, [k], [true]).client == OpenJoined(WriteJoin(INITIAL.client, k, true), k);
  }

  /** The exception is real: join, leave while the JOIN is in flight, and refuse the PART its echo
      writes. The links are empty, the server has us in the channel, and the client does not. */
  lemma LostPartDiverges(k: Channel)
    ensures var joined := Next(INITIAL, UserJoins([k], [true]));
            var parted := Next(joined, UserParts(k, true));
            && Enabled(parted, ServerTakes)
            && var served := Next(parted, ServerTakes);
            && Enabled(served, ClientTakes(false)) && LosesCancelledPart(served, ClientTakes(false))
            && var lost := Next(served, ClientTakes(false));
            Quiet(lost) && Marooned(lost, k) && !lost.client.Joined(k) && k !in lost.intent
  {
    CancelledInFlight(k);
    hide JoinReply, JoinFrames, WriteJoins, WantsIn;
  }
}
