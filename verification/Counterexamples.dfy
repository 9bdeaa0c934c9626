/**
 Runs that show that what the verifier may report of a working network does happen: each of them
 starts in the initial state and goes as programmed, and the verifier makes the report.
 */
module Counterexamples {
  import opened Prelude
  import opened Trace
  import opened PacketPacer
  import opened ReplayedLink
  import opened ReplayedNode
  import opened Replay
  import opened Network
  import opened PacketLog
  import opened Soundness
  import opened Ledger
  import opened BufferReports
  import opened AcceptedLogs
  import opened Acceptance
  import opened DownSends
  import opened TwoNodes

  // ---- One packet from A to the link ----------------------------------------------------------

  /** Nothing is on its way from A to the link, and the link may take something. */
  ghost predicate Idling(c: Config, x: Two, id: PacketId, payload: nat) {
    && c.bandwidth > 0
    && x.a.outbound == [] && x.link.queue == [] && x.link.task == Idle && x.link.status.Up? && x.a.lastBufferClear == None
    && x.a.available >= 28 + payload
    && id !in x.ids && PacketId(0) !in x.ids && id != PacketId(0)
    && x.link.batch.created <= x.now && x.link.batch.CanSend(x.now, PacketDelay(c.bandwidth, 28 + payload))
    && forall k :: k in x.handled ==> k < |x.accepted|
  }

  function Arrival(x: Two, id: PacketId, payload: nat): Step {
    Step(x.now, PacketInNode(id, x.nextNumber, 28 + payload, A, false))
  }

  function Sending(x: Two, id: PacketId): Step {
    Step(x.now, StepKind.PacketInTransit(id, A, L))
  }

  function OnItsWay(x: Two, id: PacketId, payload: nat): InTransit {
    InTransit(Carrying(id, x.nextNumber, payload), x.now, x.link.delay)
  }

  /** What is known of the state after the packet was put in the queue of the link. */
  ghost predicate Queueing(x: Two, y: Two, id: PacketId, payload: nat) {
    && x.a.available >= 28 + payload
    && y == Dispatched(Injected(x, id, payload))
    && y.a.outbound == [] && y.link.queue == [Outgoing(|x.accepted|, 0.0, [L])]
    && y.accepted == x.accepted + [Buffered(A, x.now, Carrying(id, x.nextNumber, payload))]
  }

  lemma ToQueue(c: Config, actions: seq<Action>, x: Two, id: PacketId, payload: nat)
    requires Reaches(c, actions, x) && Idling(c, x, id, payload) && x.a.status.Up?
    ensures Injected(x, id, payload).a.outbound != []
    ensures Reaches(c, actions + [Injection(id, payload)] + [TO_LINKS], Dispatched(Injected(x, id, payload)))
    ensures Queueing(x, Dispatched(Injected(x, id, payload)), id, payload)
  {
    hide Reaches, PacketDelay, Batch.CanSend;
    var x1 := Injected(x, id, payload);
    AfterInjection(c, actions, x, id, payload);
    assert x1.a.outbound == [|x.accepted|];
    AfterDispatching(c, actions + [Injection(id, payload)], x1);
  }

  /** The state after the link sent the packet: as before, but for the packet, its record and the pacer. */
  ghost predicate SentFrom(c: Config, x: Two, z: Two, id: PacketId, payload: nat)
    requires c.bandwidth > 0 && x.link.batch.created <= x.now
  {
    && z.now == x.now && z.b == x.b && z.ids == x.ids + {id} && z.nextNumber == x.nextNumber + 1
    && z.a.available == x.a.available && z.a.outbound == [] && z.a.lastBufferClear == x.a.lastBufferClear
    && z.a.status == x.a.status
    && |z.accepted| == |x.accepted| + 1 && z.handled.Keys == x.handled.Keys + {|x.accepted|}
    && z.link == x.link.(batch := x.link.batch.Add(x.now, PacketDelay(c.bandwidth, 28 + payload)),
                         inTransit := x.link.inTransit + multiset{OnItsWay(x, id, payload)})
  }

  /** The rest of the way, from a state that may differ from `y` in the status of A and in the log. */
  lemma FromQueue(c: Config, actions: seq<Action>, x: Two, y: Two, id: PacketId, payload: nat) returns (z: Two)
    requires Idling(c, x, id, payload) && Reaches(c, actions, y)
    requires exists q :: Queueing(x, q, id, payload)
                         && y == q.(a := q.a.(status := y.a.status), log := y.log)
    ensures Reaches(c, actions + [Taking(L)] + [Finishing(L)], z)
    ensures SentFrom(c, x.(a := x.a.(status := y.a.status)), z, id, payload)
    ensures z.log == y.log + [Sending(x, id)]
  {
    hide Reaches, PacketDelay, Batch.Add, Batch.At, Batch.CanSend;
    var q :| Queueing(x, q, id, payload) && y == q.(a := q.a.(status := y.a.status), log := y.log);
    var size := 28 + payload;
    assert y.accepted[|x.accepted|].packet == Carrying(id, x.nextNumber, payload);
    assert Carrying(id, x.nextNumber, payload).Size() == size;
    AfterTaking(c, actions, y);
    var y1 := Taken(y);
    assert y1.link.batch.created <= y1.now by { BatchIsStarted(x.link.batch, x.now); }
    AfterFinishing(c, actions + [Taking(L)], y1);
    z := TwoNodes.Sent(c, y1);
    AddTwice(x.link.batch, x.now, PacketDelay(c.bandwidth, size));
    assert z.link.queue == [];
  }

  lemma BatchIsStarted(b: Batch, now: Duration)
    requires b.created <= now
    ensures b.At(now).created <= now
  {
  }

  lemma AddTwice(b: Batch, now: Duration, packetDelay: Duration)
    requires b.created <= now
    ensures b.At(now).created <= now && b.At(now).Add(now, packetDelay) == b.Add(now, packetDelay)
  {
  }

  lemma SendOne(c: Config, actions: seq<Action>, x: Two, id: PacketId, payload: nat) returns (more: seq<Action>, z: Two)
    requires Reaches(c, actions, x) && Idling(c, x, id, payload) && x.a.status.Up?
    ensures Reaches(c, more, z) && SentFrom(c, x, z, id, payload)
    ensures z.log == x.log + [Arrival(x, id, payload), Sending(x, id)]
  {
    hide Reaches, Idling, SentFrom;
    ToQueue(c, actions, x, id, payload);
    var y := Dispatched(Injected(x, id, payload));
    z := FromQueue(c, actions + [Injection(id, payload)] + [TO_LINKS], x, y, id, payload);
    more := actions + [Injection(id, payload)] + [TO_LINKS] + [Taking(L)] + [Finishing(L)];
    assert x.(a := x.a.(status := y.a.status)) == x;
  }

  lemma StartIsIdling(c: Config, id: PacketId, payload: nat)
    requires c.bandwidth > 0 && 28 + payload <= ROOM && id != PacketId(0)
    ensures Idling(c, Start(c), id, payload)
  {
  }

  // ---- What the runs have in common -----------------------------------------------------------

  /** The actions are a run, and `log` is what it writes. */
  ghost predicate Writes(c: Config, actions: seq<Action>, log: seq<Step>) {
    && T(c).Valid() && Describes(M(c), T(c)) && M(c).Valid()
    && IsRun(T(c), actions) && StateAfter(T(c), actions).log == log && InOrder(log)
  }

  lemma ReachedWrites(c: Config, actions: seq<Action>, x: Two)
    requires Reaches(c, actions, x)
    ensures Writes(c, actions, x.log)
  {
    hide IsRun, StateAfter, Topology.Valid, T, M, Describes;
    MetadataDescribes(c);
    RunLogIsInOrder(T(c), actions);
  }

  ghost predicate Reports(c: Config, log: seq<Step>, e: NonFatalError)
    requires M(c).Valid() && InOrder(log)
  {
    Verify(M(c), log).Continues? && e in Verify(M(c), log).v.errors
  }

  lemma StepIsReported(c: Config, actions: seq<Action>, log: seq<Step>, i: nat, e: NonFatalError)
    requires Writes(c, actions, log) && i < |log| && e in ReportsOf(T(c), log[..i], log[i]) && !e.NodeExceedsBufferSize?
    ensures Reports(c, log, e)
  {
    hide IsRun, StateAfter, Topology.Valid, T, M, Describes, ReportsOf, Verify;
    ReportsAreExact(T(c), M(c), actions, e);
  }

  const ID := PacketId(1)
  const OTHER := PacketId(2)

  // ---- A link goes down and up again at the moment of a send ----------------------------------

  const DOWN := LinkEvent(L, Some(Down), None)
  const UP := LinkEvent(L, Some(Up), None)
  const EVENT_DOWN := Step(0.0, StepKind.NetworkEvent(Some(DOWN), None))
  const EVENT_UP := Step(0.0, StepKind.NetworkEvent(Some(UP), None))
  const IN_A := Step(0.0, PacketInNode(ID, 0, 28, A, false))
  const OFF := Step(0.0, StepKind.PacketInTransit(ID, A, L))
  const NARROW := Config(10, 1.0, 1000000)
  const FLICKER := [IN_A, OFF, EVENT_DOWN, EVENT_UP, Step(1.0, PacketInNode(ID, 0, 28, B, false))]

  lemma OneIsNext(y: InTransit, now: Duration)
    requires y.Arrival() <= now
    ensures IsNext(multiset{} + multiset{y}, y, now)
  {
  }

  lemma Flickering() returns (actions: seq<Action>)
    ensures Writes(NARROW, actions, FLICKER)
  {
    hide Reaches, Writes, Idling, IsNext, T, M;
    Begin(NARROW);
    StartIsIdling(NARROW, ID, 0);
    var x0 := Start(NARROW);
    var x1;
    actions, x1 := SendOne(NARROW, [], x0, ID, 0);
    AfterLinkEvent(NARROW, actions, x1, DOWN);
    var x2 := LinkChanged(x1, DOWN);
    AfterLinkEvent(NARROW, actions + [LinkChanging(DOWN)], x2, UP);
    var x3 := LinkChanged(x2, UP);
    AfterPassing(NARROW, actions + [LinkChanging(DOWN)] + [LinkChanging(UP)], x3, 1.0);
    var x4 := x3.(now := 1.0);
    OneIsNext(OnItsWay(x0, ID, 0), 1.0);
    AfterLanding(NARROW, actions + [LinkChanging(DOWN)] + [LinkChanging(UP)] + [Passing(1.0)], x4, OnItsWay(x0, ID, 0));
    actions := actions + [LinkChanging(DOWN)] + [LinkChanging(UP)] + [Passing(1.0)]
               + [Landing(L, OnItsWay(x0, ID, 0), NO_LUCK)];
    var x5 := Landed(x4, OnItsWay(x0, ID, 0));
    assert x5.log == FLICKER;
    ReachedWrites(NARROW, actions, x5);
  }

  lemma FoundInFlicker()
    ensures Find(FLICKER[..4]) == map[ID := Whereabouts(OnLink(L), 0.0, 28)]
    ensures Find(FLICKER) == map[ID := Whereabouts(AtNode(B), 1.0, 28)]
  {
    hide Find;
    FindNothing();
    FindAppend([], IN_A);
    assert [] + [IN_A] == [IN_A];
    FindAppend([IN_A], OFF);
    assert [IN_A] + [OFF] == [IN_A, OFF];
    FindAppend([IN_A, OFF], EVENT_DOWN);
    assert [IN_A, OFF] + [EVENT_DOWN] == FLICKER[..3];
    FindAppend(FLICKER[..3], EVENT_UP);
    assert FLICKER[..3] + [EVENT_UP] == FLICKER[..4];
    FindAppend(FLICKER[..4], FLICKER[4]);
    assert FLICKER[..4] + [FLICKER[4]] == FLICKER;
  }

  lemma ArrivesInFlicker()
    ensures ArrivesDespite(FLICKER, 4)
  {
    hide Find;
    FoundInFlicker();
    assert FLICKER[..4][2] == EVENT_DOWN;
    assert DownAt(FLICKER[..4], L, 0.0);
  }

  /** A packet that was sent at the moment at which its link went down arrives all the same: an offline receive. */
  lemma OfflineReportHappens() returns (actions: seq<Action>, e: NonFatalError)
    ensures Writes(NARROW, actions, FLICKER) && Reports(NARROW, FLICKER, e) && e.OfflinePacketReceive?
  {
    hide Topology.Valid, IsRun, StateAfter, Describes, Verify, ArrivesDespite, T, M;
    actions := Flickering();
    ArrivesInFlicker();
    OfflineReportIsExact(T(NARROW), M(NARROW), actions);
    e :| e in Verify(M(NARROW), FLICKER).v.errors && e.OfflinePacketReceive?;
  }

  lemma BytesInB()
    ensures BytesInside(FLICKER, B) == 28
  {
    hide Find;
    FoundInFlicker();
    var none: map<PacketId, RPacket> := map[];
    StoredWith(none, ID, RPacket(1.0, 28, 0.0));
    assert Inside(Find(FLICKER), B) == none[ID := RPacket(1.0, 28, 0.0)];
  }

  /** A packet waits to be read in a node that has a smaller buffer: the node is said to exceed it. */
  lemma BufferReportHappens() returns (actions: seq<Action>, e: NonFatalError)
    ensures Writes(NARROW, actions, FLICKER) && Reports(NARROW, FLICKER, e) && e.NodeExceedsBufferSize?
  {
    hide Topology.Valid, IsRun, StateAfter, Describes, Verify, M, BytesInside;
    actions := Flickering();
    BytesInB();
    assert FLICKER[..|FLICKER|] == FLICKER;
    assert EndsTimestamp(FLICKER, |FLICKER|);
    Names();
    assert Overflows(T(NARROW), FLICKER, B);
    BufferReportsOfRuns(T(NARROW), M(NARROW), actions);
    var i :| 0 <= i < |Verify(M(NARROW), FLICKER).v.errors| && Verify(M(NARROW), FLICKER).v.errors[i].NodeExceedsBufferSize?;
    e := Verify(M(NARROW), FLICKER).v.errors[i];
  }

  // ---- A node sends while it is down ----------------------------------------------------------

  const A_DOWN := NodeEvent(A, Some(Down), false)
  const WIDE := Config(1000, 1.0, 1000000)
  const ASLEEP := [IN_A, Step(0.0, StepKind.NetworkEvent(None, Some(A_DOWN))), OFF]

  lemma SendingAsleep() returns (actions: seq<Action>)
    ensures Writes(WIDE, actions, ASLEEP)
  {
    hide Reaches, Writes, Idling, T, M;
    Begin(WIDE);
    StartIsIdling(WIDE, ID, 0);
    var x0 := Start(WIDE);
    assert x0.a.available >= 28 by { StartHasRoom(WIDE); }
    ToQueue(WIDE, [], x0, ID, 0);
    actions := [] + [Injection(ID, 0)] + [TO_LINKS];
    var q := Dispatched(Injected(x0, ID, 0));
    AfterNodeEvent(WIDE, actions, q, A_DOWN);
    var y := NodeChanged(q, A_DOWN);
    assert Queueing(x0, q, ID, 0) && y == q.(a := q.a.(status := y.a.status), log := y.log);
    var z := FromQueue(WIDE, actions + [NodeChanging(A_DOWN)], x0, y, ID, 0);
    actions := actions + [NodeChanging(A_DOWN)] + [Taking(L)] + [Finishing(L)];
    assert z.log == ASLEEP;
    ReachedWrites(WIDE, actions, z);
  }

  lemma StartHasRoom(c: Config)
    ensures Start(c).a.available >= 28
  {
  }

  /** Node A goes down with a packet on offer to a link, which takes it on the quick path: a send while down. */
  lemma DownSendHappens() returns (actions: seq<Action>)
    ensures Writes(WIDE, actions, ASLEEP) && Reports(WIDE, ASLEEP, NodeDownPacketSend(A, ID))
  {
    hide IsRun, StateAfter, Topology.Valid, T, M, Describes, Verify, Find, SendsOn, Observed;
    actions := SendingAsleep();
    var before := ASLEEP[..2];
    assert before[..1] == [IN_A];
    NodeSeenAppend([IN_A], ASLEEP[1], A);
    assert [IN_A] + [ASLEEP[1]] == before;
    assert NodeSeen(before, A).status.Down?;
    var es := ReportsOf(T(WIDE), before, ASLEEP[2]);
    assert es[0] == NodeDownPacketSend(A, ID);
    StepIsReported(WIDE, actions, ASLEEP, 2, NodeDownPacketSend(A, ID));
  }

  // ---- A link carries more than its bandwidth -------------------------------------------------

  const SLOW := Config(10000, 5.0, 10000)
  const BURST := [
    Step(0.0, PacketInNode(ID, 0, 1250, A, false)), Step(0.0, StepKind.PacketInTransit(ID, A, L)),
    Step(1.0, PacketInNode(OTHER, 1, 1250, A, false)), Step(1.0, StepKind.PacketInTransit(OTHER, A, L))]

  lemma SecondOfTwo(c: Config, x: Two, z: Two)
    requires c == SLOW && x == Start(SLOW) && SentFrom(c, x, z, ID, 1222)
    ensures Idling(c, z.(now := 1.0), OTHER, 1222)
  {
    assert PacketDelay(10000, 1250) == 1.0;
    assert z.link.batch == Batch(0.0, 1.0);
  }

  lemma Bursting() returns (actions: seq<Action>)
    ensures Writes(SLOW, actions, BURST)
  {
    hide Reaches, Writes, Idling, T, M, PacketDelay, Batch.Add;
    Begin(SLOW);
    StartIsIdling(SLOW, ID, 1222);
    var x0 := Start(SLOW);
    var x1;
    actions, x1 := SendOne(SLOW, [], x0, ID, 1222);
    AfterPassing(SLOW, actions, x1, 1.0);
    SecondOfTwo(SLOW, x0, x1);
    var x2;
    actions, x2 := SendOne(SLOW, actions + [Passing(1.0)], x1.(now := 1.0), OTHER, 1222);
    assert x2.log == BURST;
    ReachedWrites(SLOW, actions, x2);
  }

  lemma SentInBurst()
    ensures SendsOn(BURST[..3], L) == [Sent(0.0, 1250)] && KnownSize(Find(BURST[..3]), OTHER) == 1250
  {
    hide Find, SendsOn;
    assert BURST[..3][..2] == BURST[..2] && BURST[..2][..1] == BURST[..1] && BURST[..1][..0] == [];
    FindNothing();
    FindAppend([], BURST[0]);
    assert [] + [BURST[0]] == BURST[..1];
    FindAppend(BURST[..1], BURST[1]);
    assert BURST[..1] + [BURST[1]] == BURST[..2];
    FindAppend(BURST[..2], BURST[2]);
    assert BURST[..2] + [BURST[2]] == BURST[..3];
    NothingSent(L);
    SendsOnAppend([], BURST[0], L);
    SendsOnAppend(BURST[..1], BURST[1], L);
    SendsOnAppend(BURST[..2], BURST[2], L);
  }

  lemma NothingSent(l: LinkId)
    ensures SendsOn([], l) == []
  {
  }

  lemma TwiceTheBandwidth(h: seq<Sent>)
    requires h == [Sent(0.0, 1250), Sent(1.0, 1250)]
    ensures Observed(h, 10000) == 20000
  {
    assert h[..1] == [Sent(0.0, 1250)] && h[..1][..0] == [];
    assert BitsSince(h[..1], 0.0) == 10000;
    assert BitsSince(h, 0.0) == 20000;
  }

  /** Two packets, a second apart, each take a second to transmit: the link is said to have used twice its bandwidth. */
  lemma OvershootHappens() returns (actions: seq<Action>)
    ensures Writes(SLOW, actions, BURST)
    ensures Reports(SLOW, BURST, LinkBandwidthExceeded(A, L, OTHER, 10000, 20000))
  {
    hide IsRun, StateAfter, Topology.Valid, M, Describes, Verify, Find, SendsOn, Observed, NodeSeen;
    actions := Bursting();
    SentInBurst();
    var before := BURST[..3];
    var h := SendsOn(before, L) + [Sent(1.0, KnownSize(Find(before), OTHER))];
    assert h == [Sent(0.0, 1250), Sent(1.0, 1250)];
    TwiceTheBandwidth(h);
    var e := LinkBandwidthExceeded(A, L, OTHER, 10000, 20000);
    var es := ReportsOf(T(SLOW), before, BURST[3]);
    assert es[|es| - 1] == e;
    StepIsReported(SLOW, actions, BURST, 3, e);
  }

  // ---- A slow link ----------------------------------------------------------------------------

  const TRICKLE := Config(10000, 5.0, 1000)
  const DROP := [Step(0.0, PacketInNode(ID, 0, 250, A, false)), Step(0.0, StepKind.PacketInTransit(ID, A, L))]

  lemma Dripping() returns (actions: seq<Action>)
    ensures Writes(TRICKLE, actions, DROP)
  {
    hide Reaches, Writes, Idling, T, M, PacketDelay, Batch.Add;
    Begin(TRICKLE);
    StartIsIdling(TRICKLE, ID, 222);
    var x0 := Start(TRICKLE);
    var x1;
    actions, x1 := SendOne(TRICKLE, [], x0, ID, 222);
    assert x1.log == DROP;
    ReachedWrites(TRICKLE, actions, x1);
  }

  lemma SentInDrop()
    ensures SendsOn(DROP[..1], L) == [] && KnownSize(Find(DROP[..1]), ID) == 250
    ensures SendsOn(DROP, L) == [Sent(0.0, 250)]
  {
    hide Find, SendsOn;
    FindNothing();
    FindAppend([], DROP[0]);
    assert [] + [DROP[0]] == DROP[..1];
    NothingSent(L);
    SendsOnAppend([], DROP[0], L);
    SendsOnAppend(DROP[..1], DROP[1], L);
    assert DROP[..1] + [DROP[1]] == DROP;
  }

  lemma AFifth(h: seq<Sent>)
    requires h == [Sent(0.0, 250)]
    ensures Observed(h, 1000) == 200 && MaxObserved(h, 1000) == 200
  {
    assert h[..0] == [];
    assert BitsSince(h, -10.0) == 2000;
  }

  lemma NothingInDrop(e: NonFatalError)
    requires e.LinkBandwidthExceeded?
    ensures forall i :: 0 <= i < |DROP| ==> e !in ReportsOf(T(TRICKLE), DROP[..i], DROP[i])
  {
    hide Find, SendsOn, Observed, NodeSeen;
    SentInDrop();
    AFifth([Sent(0.0, 250)]);
    Names();
    assert [] + [Sent(0.0, 250)] == [Sent(0.0, 250)];
    assert e !in ReportsOf(T(TRICKLE), DROP[..0], DROP[0]);
    assert e !in ReportsOf(T(TRICKLE), DROP[..1], DROP[1]);
  }

  /**
   A packet that is twice what a slow link transmits in a second: over ten seconds that is a fifth of
   the bandwidth, and nothing is said of it.
   */
  lemma SlowLinkIsFine() returns (actions: seq<Action>)
    ensures Writes(TRICKLE, actions, DROP) && Verify(M(TRICKLE), DROP).Continues?
    ensures forall e :: e in Verify(M(TRICKLE), DROP).v.errors ==> !e.LinkBandwidthExceeded?
    ensures L in Verify(M(TRICKLE), DROP).v.links && Verify(M(TRICKLE), DROP).v.links[L].maxBps == 200
  {
    hide IsRun, StateAfter, Topology.Valid, M, Describes, Verify, Find, SendsOn, Observed, MaxObserved, NodeSeen, Within, ReportsOf;
    actions := Dripping();
    SentInDrop();
    AFifth([Sent(0.0, 250)]);
    Names();
    RunsAreAccepted(T(TRICKLE), M(TRICKLE), actions);
    ReportedBandwidth(T(TRICKLE), M(TRICKLE), actions, L);
    forall e | e in Verify(M(TRICKLE), DROP).v.errors
      ensures !e.LinkBandwidthExceeded?
    {
      if e.LinkBandwidthExceeded? {
        ReportsAreExact(T(TRICKLE), M(TRICKLE), actions, e);
        NothingInDrop(e);
      }
    }
  }

  // ---- A packet arrives before the delay of the specification is over -------------------------

  const FASTER := LinkEvent(L, None, Some(0.5))
  const EVENT_FASTER := Step(0.0, StepKind.NetworkEvent(Some(FASTER), None))
  const HASTE := [EVENT_DOWN, EVENT_FASTER, EVENT_UP, IN_A, OFF, Step(0.5, PacketInNode(ID, 0, 28, B, false))]

  lemma Hastening() returns (actions: seq<Action>)
    ensures Writes(WIDE, actions, HASTE)
  {
    hide Reaches, Writes, IsNext, T, M, PacketDelay, Batch.Add;
    Begin(WIDE);
    var x0 := Start(WIDE);
    AfterLinkEvent(WIDE, [], x0, DOWN);
    var x1 := LinkChanged(x0, DOWN);
    AfterLinkEvent(WIDE, [] + [LinkChanging(DOWN)], x1, FASTER);
    var x2 := LinkChanged(x1, FASTER);
    AfterLinkEvent(WIDE, [] + [LinkChanging(DOWN)] + [LinkChanging(FASTER)], x2, UP);
    var x3 := LinkChanged(x2, UP);
    assert x3.link == x0.link.(lastDown := Some(0.0), delay := 0.5);
    StartIsIdling(WIDE, ID, 0);
    assert Idling(WIDE, x3, ID, 0);
    var x4;
    actions, x4 := SendOne(WIDE, [] + [LinkChanging(DOWN)] + [LinkChanging(FASTER)] + [LinkChanging(UP)], x3, ID, 0);
    AfterPassing(WIDE, actions, x4, 0.5);
    var y := OnItsWay(x3, ID, 0);
    OneIsNext(y, 0.5);
    var x5 := x4.(now := 0.5);
    AfterLanding(WIDE, actions + [Passing(0.5)], x5, y);
    actions := actions + [Passing(0.5)] + [Landing(L, y, NO_LUCK)];
    assert Landed(x5, y).log == HASTE;
    ReachedWrites(WIDE, actions, Landed(x5, y));
  }

  lemma FlyingInHaste()
    ensures Find(HASTE[..5]) == map[ID := Whereabouts(OnLink(L), 0.0, 28)]
  {
    hide Find;
    FindNothing();
    FindAppend([], EVENT_DOWN);
    assert [] + [EVENT_DOWN] == HASTE[..1];
    FindAppend(HASTE[..1], EVENT_FASTER);
    assert HASTE[..1] + [EVENT_FASTER] == HASTE[..2];
    FindAppend(HASTE[..2], EVENT_UP);
    assert HASTE[..2] + [EVENT_UP] == HASTE[..3];
    FindAppend(HASTE[..3], IN_A);
    assert HASTE[..3] + [IN_A] == HASTE[..4];
    FindAppend(HASTE[..4], OFF);
    assert HASTE[..4] + [OFF] == HASTE[..5];
  }

  /** An event lowers the delay of a link while it is down: a packet sent later is said to arrive too fast. */
  lemma HasteHappens() returns (actions: seq<Action>)
    ensures Writes(WIDE, actions, HASTE) && Reports(WIDE, HASTE, TooFastPacketReceive(B, L))
  {
    hide IsRun, StateAfter, Topology.Valid, M, Describes, Verify, Find, LinkSeen;
    actions := Hastening();
    FlyingInHaste();
    var e := TooFastPacketReceive(B, L);
    var es := ReportsOf(T(WIDE), HASTE[..5], HASTE[5]);
    assert es[0] == e;
    StepIsReported(WIDE, actions, HASTE, 5, e);
  }
}
