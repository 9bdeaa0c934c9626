/** A small network, two nodes and a link between them, and what single actions do in it. */
module TwoNodes {
  import opened Prelude
  import opened Trace
  import opened PacketPacer
  import opened Replay
  import opened Cidr
  import opened Routing
  import opened Network
  import opened Soundness
  import opened AcceptedLogs

  const A := NodeId("A")
  const B := NodeId("B")
  const L := LinkId("A-B")
  const FROM := V4(1)
  const TO := V4(2)
  const ROUTES := [NodeRoute(FROM, Route(IpRange(2, 2), TO, 0))]
  const ROOM := 10000

  lemma Names()
    ensures A != B && FROM != TO
  {
  }

  /** The buffer of node B, and the delay and the bandwidth of the link. */
  datatype Config = Config(buffer: nat, delay: Duration, bandwidth: nat)

  function T(c: Config): Topology {
    Topology(map[A := NodeInfo(FROM, ROOM, ROUTES, 0.0, 0.0), B := NodeInfo(TO, c.buffer, [], 0.0, 0.0)],
             map[L := LinkInfo(FROM, TO, c.delay, c.bandwidth, 0.0, 0.0)],
             map[FROM := A, TO := B], map[(FROM, TO) := L])
  }

  function M(c: Config): Metadata {
    Metadata(map[A := ROOM, B := c.buffer], map[L := LinkMetadata(A, B, c.delay, c.bandwidth)], [A, B])
  }

  lemma TopologyIsValid(c: Config)
    requires c.bandwidth > 0
    ensures T(c).Valid()
  {
    Names();
  }

  lemma MetadataDescribes(c: Config)
    requires T(c).Valid()
    ensures Describes(M(c), T(c)) && M(c).Valid()
  {
    Names();
    assert M(c).order[0] == A && M(c).order[1] == B;
  }

  // ---- States ---------------------------------------------------------------------------------

  datatype Two = Two(
    now: Duration, a: NodeState, b: NodeState, link: LinkState, accepted: seq<Buffered>, handled: map<nat, Handling>,
    nextNumber: nat, ids: set<PacketId>, carried: seq<Carried>, log: seq<Step>)
  {
    function State(): Net {
      Net(now, map[A := a, B := b], map[L := link], accepted, handled, nextNumber, ids, map[L := carried], log)
    }

    function Record(kind: StepKind): Two {
      this.(log := log + [Step(now, kind)])
    }
  }

  function Start(c: Config): Two {
    Two(0.0, NodeState(Up, None, ROOM, [], multiset{}), NodeState(Up, None, c.buffer, [], multiset{}),
        LinkState(Up, None, c.delay, Batch(0.0, 0.0), [], Idle, multiset{}), [], map[], 0, {}, [], [])
  }

  /** The actions are a run that leads to `x`. */
  ghost predicate Reaches(c: Config, actions: seq<Action>, x: Two) {
    T(c).Valid() && IsRun(T(c), actions) && StateAfter(T(c), actions) == x.State()
  }

  lemma Begin(c: Config)
    requires c.bandwidth > 0
    ensures Reaches(c, [], Start(c))
  {
    hide Topology.Valid, Enabled, Apply;
    TopologyIsValid(c);
    Names();
    var s := Initial(T(c));
    assert s.nodes == Start(c).State().nodes && s.links == Start(c).State().links && s.carried == Start(c).State().carried;
    StateIs(T(c), [], [s]);
  }

  lemma ReachedIsSound(c: Config, actions: seq<Action>, x: Two)
    requires Reaches(c, actions, x)
    ensures T(c).Valid() && Sound(T(c), x.State())
  {
    hide IsRun, StateAfter, Sound, Topology.Valid, T, Two.State;
    RunIsFine(T(c), actions);
    FineKeys(T(c), x.State());
  }

  lemma GoOn(c: Config, actions: seq<Action>, x: Two, a: Action, x': Two)
    requires Reaches(c, actions, x) && Enabled(T(c), x.State(), a) && Apply(T(c), x.State(), a) == x'.State()
    ensures Reaches(c, actions + [a], x')
  {
    hide IsRun, StateAfter, Enabled, Apply, Topology.Valid, T, Two.State;
    RunGrows(T(c), actions, a);
  }

  // ---- A packet is sent -----------------------------------------------------------------------

  const NO_LUCK := Luck(1.0, PacketId(0))

  function Carrying(id: PacketId, number: nat, payload: nat): Packet {
    Packet(id, number, payload, TO, 0, 1, false)
  }

  /** An application sends `payload` bytes from A to B, with a TTL of 2. */
  function Injected(x: Two, id: PacketId, payload: nat): Two
    requires x.a.available >= 28 + payload
  {
    x.(a := x.a.(available := x.a.available - (28 + payload), outbound := x.a.outbound + [|x.accepted|]),
       accepted := x.accepted + [Buffered(A, x.now, Carrying(id, x.nextNumber, payload))],
       nextNumber := x.nextNumber + 1, ids := x.ids + {id},
       log := x.log + [Step(x.now, PacketInNode(id, x.nextNumber, 28 + payload, A, false))])
  }

  function Injection(id: PacketId, payload: nat): Action {
    Injecting(A, id, Datagram(payload, TO, 0, 2), NO_LUCK)
  }

  lemma AfterInjection(c: Config, actions: seq<Action>, x: Two, id: PacketId, payload: nat)
    requires Reaches(c, actions, x) && x.a.status.Up? && x.a.available >= 28 + payload
    requires id !in x.ids && PacketId(0) !in x.ids && id != PacketId(0)
    ensures Reaches(c, actions + [Injection(id, payload)], Injected(x, id, payload))
  {
    hide Reaches, Sound, Topology.Valid;
    Names();
    ReachedIsSound(c, actions, x);
    var s, p := x.State(), Packet(id, x.nextNumber, payload, TO, 0, 2, false);
    assert Hop(p) == Carrying(id, x.nextNumber, payload) && p.Size() == 28 + payload;
    var s' := Apply(T(c), s, Injection(id, payload));
    assert s'.nodes == Injected(x, id, payload).State().nodes;
    GoOn(c, actions, x, Injection(id, payload), Injected(x, id, payload));
  }

  function Dispatched(x: Two): Two
    requires x.a.outbound != []
  {
    x.(a := x.a.(outbound := x.a.outbound[1..]),
       link := x.link.(queue := x.link.queue + [Outgoing(x.a.outbound[0], 0.0, [L])]))
  }

  const TO_LINKS := Dispatching(A, [1.0])

  lemma OneCandidate(c: Config)
    requires T(c).Valid()
    ensures A in T(c).nodes && T(c).Candidates(A, TO) == Ok([L])
  {
    hide Topology.Valid;
    Names();
    assert T(c).nodes[A].routes == ROUTES && ROUTES[1..] == [];
    assert Matching(ROUTES, TO) == ROUTES;
    assert LinksOf([], T(c).linkAt) == Ok([]);
    assert [L] + [] == [L];
    assert LinksOf(ROUTES, T(c).linkAt) == Ok([L]);
  }

  lemma OfferOne(c: Config, x: Two)
    requires x.a.outbound != []
    ensures L in T(c).links && L in x.State().links
    ensures Offer(T(c), x.State().links, x.a.outbound[0], [L], 0, [1.0]) == Dispatched(x).State().links
  {
    Names();
    var s, ticket := x.State(), x.a.outbound[0];
    var links := s.links[L := s.links[L].(queue := s.links[L].queue + [Outgoing(ticket, 0.0, [L])])];
    assert Offer(T(c), links, ticket, [L], 1, [1.0]) == links;
  }

  lemma AfterDispatching(c: Config, actions: seq<Action>, x: Two)
    requires Reaches(c, actions, x) && x.a.outbound != []
    requires x.a.outbound[0] < |x.accepted| && x.accepted[x.a.outbound[0]].packet.dest == TO
    ensures Reaches(c, actions + [TO_LINKS], Dispatched(x))
  {
    hide Reaches, Sound, Topology.Valid;
    Names();
    ReachedIsSound(c, actions, x);
    OneCandidate(c);
    OfferOne(c, x);
    var s' := Dispatch(T(c), x.State(), A, [1.0]);
    assert s'.links == Dispatched(x).State().links && s'.nodes == Dispatched(x).State().nodes;
    GoOn(c, actions, x, TO_LINKS, Dispatched(x));
  }

  function TimeOf(c: Config, x: Two, ticket: nat): Duration
    requires c.bandwidth > 0 && ticket < |x.accepted|
  {
    PacketDelay(c.bandwidth, x.accepted[ticket].packet.Size())
  }

  function Taken(x: Two): Two
    requires x.link.queue != [] && x.link.batch.created <= x.now
  {
    x.(link := x.link.(queue := x.link.queue[1..], batch := x.link.batch.At(x.now), task := Busy(x.link.queue[0], Offering)))
  }

  /** The quick path: the link is up and has bandwidth. */
  lemma AfterTaking(c: Config, actions: seq<Action>, x: Two)
    requires Reaches(c, actions, x) && c.bandwidth > 0 && x.link.task.Idle? && x.link.queue != [] && x.link.status.Up?
    requires x.link.queue[0].ticket < |x.accepted| && x.link.batch.created <= x.now
    requires x.link.batch.CanSend(x.now, TimeOf(c, x, x.link.queue[0].ticket))
    ensures Reaches(c, actions + [Taking(L)], Taken(x))
  {
    hide Reaches, Sound, Topology.Valid, PacketDelay, Batch.CanSend, Batch.At;
    ReachedIsSound(c, actions, x);
    assert Take(T(c), x.State(), L).links == Taken(x).State().links;
    GoOn(c, actions, x, Taking(L), Taken(x));
  }

  function Sent(c: Config, x: Two): Two
    requires c.bandwidth > 0 && x.link.task.Busy? && x.link.task.packet.ticket < |x.accepted| && x.link.batch.created <= x.now
  {
    var k := x.link.task.packet.ticket;
    var b := x.accepted[k];
    x.(a := x.a.(available := x.a.available + b.packet.Size()),
       link := x.link.(task := Idle, batch := x.link.batch.Add(x.now, TimeOf(c, x, k)),
                       inTransit := x.link.inTransit
                                    + multiset{InTransit(b.packet, x.now, x.link.delay + x.link.task.packet.extraDelay)}),
       handled := x.handled[k := SentOver(L)], carried := x.carried + [Carried(k, x.now)],
       log := x.log + [Step(x.now, StepKind.PacketInTransit(b.packet.id, A, L))])
  }

  /** The link's task may send the packet it holds. */
  ghost predicate CanSend(c: Config, x: Two) {
    && c.bandwidth > 0 && x.link.status.Up? && x.link.batch.created <= x.now
    && x.link.task.Busy? && x.link.task.phase.Offering? && x.link.task.packet.preferred == [L]
    && var k := x.link.task.packet.ticket;
       k < |x.accepted| && k !in x.handled && x.accepted[k].node == A && x.a.lastBufferClear.None?
  }

  /** The packet has left the buffer of node A, and is not yet on the link. */
  function Unbuffered(x: Two): Two
    requires x.link.task.Busy? && x.link.task.packet.ticket < |x.accepted|
  {
    var k := x.link.task.packet.ticket;
    var b := x.accepted[k];
    x.(a := x.a.(available := x.a.available + b.packet.Size()), handled := x.handled[k := SentOver(L)],
       carried := x.carried + [Carried(k, x.now)]).Record(StepKind.PacketInTransit(b.packet.id, A, L))
  }

  lemma UnbufferUnbuffers(c: Config, x: Two)
    requires CanSend(c, x)
    ensures var b := x.accepted[x.link.task.packet.ticket];
            Unbuffer(x.State(), L, x.link.task.packet.ticket).Record(StepKind.PacketInTransit(b.packet.id, A, L))
            == Unbuffered(x).State()
  {
    Names();
    var s1, x1 := Unbuffer(x.State(), L, x.link.task.packet.ticket), Unbuffered(x).State();
    assert s1.nodes == x1.nodes && s1.carried == x1.carried;
  }

  lemma PutOnSends(c: Config, x: Two)
    requires CanSend(c, x)
    ensures var k := x.link.task.packet.ticket;
            PutOn(Unbuffered(x).State(), L, InTransit(x.accepted[k].packet, x.now, x.link.delay + x.link.task.packet.extraDelay),
                  TimeOf(c, x, k))
            == Sent(c, x).State()
  {
    hide PacketDelay, Batch.Add;
    var k := x.link.task.packet.ticket;
    var s3 := PutOn(Unbuffered(x).State(), L,
                    InTransit(x.accepted[k].packet, x.now, x.link.delay + x.link.task.packet.extraDelay), TimeOf(c, x, k));
    assert s3.links == Sent(c, x).State().links;
  }

  lemma TransmitSends(c: Config, x: Two)
    requires CanSend(c, x) && T(c).Valid() && Sound(T(c), x.State())
    ensures Transmit(T(c), x.State(), L) == Sent(c, x).State()
  {
    hide Sound, Topology.Valid, PacketDelay, Batch.Add, Unbuffer, PutOn, Unbuffered, Sent;
    UnbufferUnbuffers(c, x);
    PutOnSends(c, x);
  }

  lemma MaySend(c: Config, x: Two)
    requires CanSend(c, x) && T(c).Valid() && Sound(T(c), x.State())
    ensures Enabled(T(c), x.State(), Finishing(L))
    ensures Apply(T(c), x.State(), Finishing(L)) == Transmit(T(c), x.State(), L)
  {
    hide Sound, Topology.Valid, Transmit;
    Names();
  }

  lemma AfterFinishing(c: Config, actions: seq<Action>, x: Two)
    requires Reaches(c, actions, x) && CanSend(c, x)
    ensures Reaches(c, actions + [Finishing(L)], Sent(c, x))
  {
    hide Reaches, Sound, Topology.Valid, Transmit, Enabled, Apply, Two.State, T;
    ReachedIsSound(c, actions, x);
    TransmitSends(c, x);
    MaySend(c, x);
    GoOn(c, actions, x, Finishing(L), Sent(c, x));
  }

  // ---- Events, time and arrival ---------------------------------------------------------------

  function LinkChanged(x: Two, e: LinkEvent): Two {
    x.(link := ChangedLink(x.link, e, x.now), log := x.log + [Step(x.now, StepKind.NetworkEvent(Some(e), None))])
  }

  lemma AfterLinkEvent(c: Config, actions: seq<Action>, x: Two, e: LinkEvent)
    requires Reaches(c, actions, x) && e.link == L
    ensures Reaches(c, actions + [LinkChanging(e)], LinkChanged(x, e))
  {
    hide Reaches, Sound, Topology.Valid, ChangedLink;
    ReachedIsSound(c, actions, x);
    assert LinkChange(x.State(), e).links == LinkChanged(x, e).State().links;
    GoOn(c, actions, x, LinkChanging(e), LinkChanged(x, e));
  }

  function NodeChanged(x: Two, e: NodeEvent): Two {
    x.(a := ChangedNode(x.a, e, x.now), log := x.log + [Step(x.now, StepKind.NetworkEvent(None, Some(e)))])
  }

  lemma AfterNodeEvent(c: Config, actions: seq<Action>, x: Two, e: NodeEvent)
    requires Reaches(c, actions, x) && e.node == A
    ensures Reaches(c, actions + [NodeChanging(e)], NodeChanged(x, e))
  {
    hide Reaches, Sound, Topology.Valid, ChangedNode;
    Names();
    ReachedIsSound(c, actions, x);
    assert NodeChange(x.State(), e).nodes == NodeChanged(x, e).State().nodes;
    GoOn(c, actions, x, NodeChanging(e), NodeChanged(x, e));
  }

  lemma AfterPassing(c: Config, actions: seq<Action>, x: Two, until: Duration)
    requires Reaches(c, actions, x) && x.now <= until
    ensures Reaches(c, actions + [Passing(until)], x.(now := until))
  {
    hide Reaches, Sound, Topology.Valid;
    ReachedIsSound(c, actions, x);
    GoOn(c, actions, x, Passing(until), x.(now := until));
  }

  function Landed(x: Two, y: InTransit): Two {
    x.(b := x.b.(inbox := x.b.inbox + multiset{InTransit(y.packet, x.now, 0.0)}),
       link := x.link.(inTransit := x.link.inTransit - multiset{y}),
       log := x.log + [Step(x.now, PacketInNode(y.packet.id, y.packet.number, y.packet.Size(), B, false))])
  }

  lemma AfterLanding(c: Config, actions: seq<Action>, x: Two, y: InTransit)
    requires Reaches(c, actions, x) && IsNext(x.link.inTransit, y, x.now) && !WasDownAfter(x.link, y.sent)
    requires x.b.status.Up? && y.packet.dest == TO && PacketId(0) !in x.ids
    ensures Reaches(c, actions + [Landing(L, y, NO_LUCK)], Landed(x, y))
  {
    hide Reaches, Sound, Topology.Valid, IsNext;
    Names();
    ReachedIsSound(c, actions, x);
    assert T(c).Target(L) == B;
    var s' := Land(T(c), x.State(), L, y, NO_LUCK);
    assert s'.nodes == Landed(x, y).State().nodes && s'.links == Landed(x, y).State().links;
    GoOn(c, actions, x, Landing(L, y, NO_LUCK), Landed(x, y));
  }
}
