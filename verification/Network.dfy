/**
 The network as a transition system (network/mod.rs, node.rs, link.rs). The runtime has a single
 thread, so the code between two `await`s is one step, at one moment in time. A state says what
 the tasks and the shared objects hold between steps; an action names a step together with the
 choices the program does not make itself: random rolls, fresh packet ids, what applications do,
 which network events happen, and when the clock moves.
 */
module Network {
  import opened Prelude
  import opened Trace
  import opened PacketPacer
  import opened ReplayedLink
  import opened Cidr
  import opened Routing

  // ---- The fixed part -------------------------------------------------------------------------

  datatype NodeInfo = NodeInfo(
    canonical: IpAddr, bufferSize: nat, routes: seq<NodeRoute>, lossRatio: real, duplicationRatio: real)

  datatype LinkInfo = LinkInfo(
    source: IpAddr, target: IpAddr, delay: Duration, bandwidth: nat, extraDelay: Duration, extraDelayRatio: real)

  datatype Topology = Topology(
    nodes: map<NodeId, NodeInfo>, links: map<LinkId, LinkInfo>, nodeAt: map<IpAddr, NodeId>, linkAt: LinkMap)
  {
    ghost predicate Valid() {
      && (forall a :: a in nodeAt ==> nodeAt[a] in nodes)
      && (forall l :: l in links ==> links[l].source in nodeAt && links[l].target in nodeAt && links[l].bandwidth > 0)
      && (forall ends :: ends in linkAt ==>
            linkAt[ends] in links && links[linkAt[ends]].source == ends.0 && links[linkAt[ends]].target == ends.1)
      && (forall n, i :: n in nodes && 0 <= i < |nodes[n].routes| ==>
            nodes[n].routes[i].via in nodeAt && nodeAt[nodes[n].routes[i].via] == n)
    }

    function Source(l: LinkId): (n: NodeId)
      requires Valid() && l in links
      ensures n in nodes
    {
      nodeAt[links[l].source]
    }

    function Target(l: LinkId): (n: NodeId)
      requires Valid() && l in links
      ensures n in nodes
    {
      nodeAt[links[l].target]
    }

    function TransmissionTime(l: LinkId, size: nat): Duration
      requires Valid() && l in links
    {
      PacketDelay(links[l].bandwidth, size)
    }

    /** The links a packet for `dest` is offered to when it waits in node `n`: all of them leave from `n`. */
    function Candidates(n: NodeId, dest: IpAddr): (r: Result<seq<LinkId>, Routing.MissingLink>)
      requires Valid() && n in nodes
      ensures r.Ok? ==> forall i :: 0 <= i < |r.value| ==> r.value[i] in links && Source(r.value[i]) == n
    {
      var r := LinksTowards(nodes[n].routes, linkAt, dest);
      assert r.Ok? ==> forall i :: 0 <= i < |r.value| ==> r.value[i] in links && Source(r.value[i]) == n by {
        if r.Ok? {
          var matching := Matching(nodes[n].routes, dest);
          MatchingAreRoutes(nodes[n].routes, dest);
          LinksOfAreLinks(matching, linkAt);
          assert forall i :: 0 <= i < |matching| ==> matching[i] in nodes[n].routes;
        }
      }
      r
    }
  }

  // ---- The state ------------------------------------------------------------------------------

  const UDP_OVERHEAD := 8
  const IPV4_OVERHEAD := 20

  datatype Packet = Packet(
    id: PacketId, number: nat, payload: nat, dest: IpAddr, port: nat, ttl: nat, duplicate: bool)
  {
    function Size(): (size: nat)
      ensures size > 0
    {
      UDP_OVERHEAD + IPV4_OVERHEAD + payload
    }
  }

  /** What an application hands over to be sent. */
  datatype Datagram = Datagram(payload: nat, dest: IpAddr, port: nat, ttl: nat)

  /** What the random number generator comes up with when a packet arrives in a node. */
  datatype Luck = Luck(roll: real, freshId: PacketId)

  /** A packet in an inbound queue: a link's packets in transit, or those an application has yet to read. */
  datatype InTransit = InTransit(packet: Packet, sent: Duration, delay: Duration) {
    function Arrival(): Duration {
      sent + delay
    }
  }

  predicate NoLaterThan(a: InTransit, b: InTransit) {
    a.Arrival() < b.Arrival() || (a.Arrival() == b.Arrival() && a.packet.number <= b.packet.number)
  }

  /** A packet that a node's outbound buffer accepted. */
  datatype Buffered = Buffered(node: NodeId, since: Duration, packet: Packet)

  /** A copy of a buffered packet in a link's queue. All the copies share one flag: "handled". */
  datatype Outgoing = Outgoing(ticket: nat, extraDelay: Duration, preferred: seq<LinkId>)

  /** Where a link's task stands with the packet it took from its queue. */
  datatype Phase =
    | Sleeping(until: Duration)  // waiting for bandwidth, then for the link and its source to be up
    | Offering                   // giving the links that are preferred a chance to send first

  datatype LinkTask = Idle | Busy(packet: Outgoing, phase: Phase)

  /** What the link that set the "handled" flag did with the packet. */
  datatype Handling = SentOver(link: LinkId) | ClearDropped

  datatype NodeState = NodeState(
    status: Status, lastBufferClear: Option<Duration>, available: nat, outbound: seq<nat>, inbox: multiset<InTransit>)

  datatype LinkState = LinkState(
    status: Status, lastDown: Option<Duration>, delay: Duration, batch: Batch,
    queue: seq<Outgoing>, task: LinkTask, inTransit: multiset<InTransit>)

  /** What a link was given to carry: history, not part of the program's state. */
  datatype Carried = Carried(ticket: nat, at: Duration)

  /**
   `accepted` lists all the packets that any node's buffer ever accepted, in order; the position
   of a packet in it is its ticket. Buffers and queues hold tickets, as all the copies of a packet
   are clones. `handled` are the flags that are set. `ids`, `carried` and the values of `handled`
   are history. `log` is what the tracer recorded.
   */
  datatype Net = Net(
    now: Duration, nodes: map<NodeId, NodeState>, links: map<LinkId, LinkState>,
    accepted: seq<Buffered>, handled: map<nat, Handling>, nextNumber: nat,
    ids: set<PacketId>, carried: map<LinkId, seq<Carried>>, log: seq<Step>)
  {
    function Record(kind: StepKind): Net {
      this.(log := log + [Step(now, kind)])
    }

    function SetNode(n: NodeId, node: NodeState): Net {
      this.(nodes := nodes[n := node])
    }

    function SetLink(l: LinkId, link: LinkState): Net {
      this.(links := links[l := link])
    }
  }

  function Initial(t: Topology): Net {
    Net(0.0,
        map n | n in t.nodes :: NodeState(Up, None, t.nodes[n].bufferSize, [], multiset{}),
        map l | l in t.links :: LinkState(Up, None, t.links[l].delay, Batch(0.0, 0.0), [], Idle, multiset{}),
        [], map[], 0, {}, map l | l in t.links :: [], [])
  }

  ghost predicate NodeSound(node: NodeState, tickets: nat) {
    forall i :: 0 <= i < |node.outbound| ==> node.outbound[i] < tickets
  }

  ghost predicate LinkSound(link: LinkState, tickets: nat, now: Duration) {
    && link.batch.created <= now
    && (link.task.Busy? ==> link.task.packet.ticket < tickets)
    && forall i :: 0 <= i < |link.queue| ==> link.queue[i].ticket < tickets
  }

  /** The objects of the state are those of the topology, and queues only hold tickets that exist. */
  ghost predicate Sound(t: Topology, s: Net) {
    && t.Valid()
    && s.nodes.Keys == t.nodes.Keys
    && s.links.Keys == t.links.Keys == s.carried.Keys
    && (forall i :: 0 <= i < |s.accepted| ==> s.accepted[i].node in t.nodes)
    && (forall n :: n in s.nodes ==> NodeSound(s.nodes[n], |s.accepted|))
    && (forall l :: l in s.links ==> LinkSound(s.links[l], |s.accepted|, s.now))
  }

  // ---- Arriving in a node ---------------------------------------------------------------------

  /** `enqueue_outbound` */
  function Enqueue(s: Net, n: NodeId, p: Packet): (s': Net)
    requires n in s.nodes
    ensures s'.nodes.Keys == s.nodes.Keys && s'.links == s.links && s'.now == s.now
  {
    var node := s.nodes[n];
    if node.available < p.Size() then s.Record(PacketDropped(p.id, n, BufferFull))
    else
      s.(accepted := s.accepted + [Buffered(n, s.now, p)])
       .SetNode(n, node.(available := node.available - p.Size(), outbound := node.outbound + [|s.accepted|]))
  }

  function ArrivalRecord(n: NodeId, p: Packet, dropped: bool): StepKind {
    PacketInNode(p.id, p.number, p.Size(), n, dropped)
  }

  function DuplicationRecord(n: NodeId, p: Packet): StepKind {
    PacketDuplicated(p.id, p.number, p.Size(), n)
  }

  /** `deliver_packet` */
  function Deliver(s: Net, n: NodeId, p: Packet): (s': Net)
    requires n in s.nodes
    ensures s'.nodes.Keys == s.nodes.Keys && s'.links == s.links && s'.now == s.now
  {
    s.SetNode(n, s.nodes[n].(inbox := s.nodes[n].inbox + multiset{InTransit(p, s.now, 0.0)}))
  }

  /** The part of `forward` that follows the random roll. */
  function Store(t: Topology, s: Net, n: NodeId, p: Packet, luck: Luck): Net
    requires n in s.nodes && n in t.nodes
  {
    var loss, duplication := t.nodes[n].lossRatio, t.nodes[n].duplicationRatio;
    if luck.roll < loss then s.Record(PacketDropped(p.id, n, Random))
    else if luck.roll < loss + duplication then
      var twin := p.(id := luck.freshId, duplicate := true);
      var s1 := Enqueue(s, n, p);
      var s2 := s1.(ids := s1.ids + {luck.freshId}).Record(DuplicationRecord(n, twin));
      Enqueue(s2, n, twin)
    else Enqueue(s, n, p)
  }

  function Hop(p: Packet): Packet {
    p.(ttl := if p.ttl == 0 then 0 else p.ttl - 1)
  }

  /** `forward` */
  function Forward(t: Topology, s: Net, n: NodeId, p: Packet, luck: Luck): Net
    requires n in s.nodes && n in t.nodes
  {
    if s.nodes[n].status.Down? then s.Record(ArrivalRecord(n, p, true))
    else
      var s1 := s.Record(ArrivalRecord(n, p, false));
      if t.nodes[n].canonical == p.dest then Deliver(s1, n, p)
      else if Hop(p).ttl == 0 then s1.Record(PacketDropped(p.id, n, ZeroTtl))
      else Store(t, s1, n, Hop(p), luck)
  }

  // ---- Leaving a node -------------------------------------------------------------------------

  /** The copies that are put in the queues of the candidate links, one after the other. */
  function Offer(t: Topology, links: map<LinkId, LinkState>, ticket: nat, candidates: seq<LinkId>, k: nat, rolls: seq<real>)
    : (links': map<LinkId, LinkState>)
    requires k <= |candidates| == |rolls|
    requires forall i :: 0 <= i < |candidates| ==> candidates[i] in links && candidates[i] in t.links
    ensures links'.Keys == links.Keys
    decreases |candidates| - k
  {
    if k == |candidates| then links
    else
      var l := candidates[k];
      var extra := if rolls[k] < t.links[l].extraDelayRatio then t.links[l].extraDelay else 0.0;
      var copy := Outgoing(ticket, extra, candidates);
      Offer(t, links[l := links[l].(queue := links[l].queue + [copy])], ticket, candidates, k + 1, rolls)
  }

  /** One round of `process_buffer_for_node`. */
  function Dispatch(t: Topology, s: Net, n: NodeId, rolls: seq<real>): Net
    requires CanDispatch(t, s, n, rolls)
  {
    var ticket := s.nodes[n].outbound[0];
    var candidates := t.Candidates(n, s.accepted[ticket].packet.dest).value;
    s.SetNode(n, s.nodes[n].(outbound := s.nodes[n].outbound[1..]))
     .(links := Offer(t, s.links, ticket, candidates, 0, rolls))
  }

  ghost predicate CanDispatch(t: Topology, s: Net, n: NodeId, rolls: seq<real>) {
    && Sound(t, s)
    && n in s.nodes && s.nodes[n].outbound != []
    && (var c := t.Candidates(n, s.accepted[s.nodes[n].outbound[0]].packet.dest);
        c.Ok? && c.value != [] && |rolls| == |c.value|)
  }

  function SizeOf(s: Net, ticket: nat): nat
    requires ticket < |s.accepted|
  {
    s.accepted[ticket].packet.Size()
  }

  /** The task of a link takes a packet from its queue and looks whether it could be sent at once. */
  function Take(t: Topology, s: Net, l: LinkId): Net
    requires Sound(t, s) && l in s.links && s.links[l].task.Idle? && s.links[l].queue != []
  {
    var link := s.links[l];
    var copy := link.queue[0];
    var delay := t.TransmissionTime(l, SizeOf(s, copy.ticket));
    var ready := link.status.Up? && link.batch.CanSend(s.now, delay);
    var phase := if ready then Offering else Sleeping(s.now + link.batch.Wait(s.now, delay));
    var link' := link.(queue := link.queue[1..], batch := link.batch.At(s.now), task := Busy(copy, phase));
    s.SetLink(l, link')
  }

  predicate Handled(s: Net, l: LinkId)
    requires l in s.links && s.links[l].task.Busy?
  {
    s.links[l].task.packet.ticket in s.handled
  }

  predicate BringsUp(kind: StepKind, n: NodeId) {
    kind.NetworkEvent? && kind.nodeEvent.Some? && kind.nodeEvent.value.node == n && kind.nodeEvent.value.status == Some(Up)
  }

  /** Whoever waits for node `n` to come up may go on: it is up, or it came up at this very moment. */
  predicate CameUp(s: Net, n: NodeId) {
    || (n in s.nodes && s.nodes[n].status.Up?)
    || exists i :: 0 <= i < |s.log| && s.log[i].time == s.now && BringsUp(s.log[i].kind, n)
  }

  /** `sleep_until_ready_to_send` returns: the packet was handled elsewhere, or link and node are up and there is bandwidth. */
  predicate CanWake(t: Topology, s: Net, l: LinkId)
    requires Sound(t, s)
  {
    && l in s.links && s.links[l].task.Busy? && s.links[l].task.phase.Sleeping?
    && (Handled(s, l) || (s.links[l].task.phase.until <= s.now && s.links[l].status.Up? && CameUp(s, t.Source(l))))
  }

  /** There is a link to give way to before this one may send. */
  predicate MustYield(s: Net, l: LinkId)
    requires l in s.links && s.links[l].task.Busy?
  {
    var preferred := s.links[l].task.packet.preferred;
    preferred != [] && preferred[0] != l && !Handled(s, l)
  }

  predicate InOffering(s: Net, l: LinkId) {
    l in s.links && s.links[l].task.Busy? && s.links[l].task.phase.Offering?
  }

  function WithTask(s: Net, l: LinkId, task: LinkTask): Net
    requires l in s.links
  {
    s.SetLink(l, s.links[l].(task := task))
  }

  function GiveWay(s: Net, l: LinkId): Net
    requires InOffering(s, l) && MustYield(s, l)
  {
    var copy := s.links[l].task.packet;
    WithTask(s, l, Busy(copy.(preferred := copy.preferred[1..]), Offering))
  }

  predicate ClearedFromBuffer(s: Net, ticket: nat)
    requires ticket < |s.accepted| && s.accepted[ticket].node in s.nodes
  {
    var clear := s.nodes[s.accepted[ticket].node].lastBufferClear;
    clear.Some? && s.accepted[ticket].since < clear.value
  }

  /** Sets the "handled" flag of a packet, and keeps in mind why. */
  function Mark(s: Net, ticket: nat, how: Handling): Net {
    s.(handled := s.handled[ticket := how])
  }

  function DropCleared(t: Topology, s: Net, l: LinkId): Net
    requires Sound(t, s) && InOffering(s, l)
  {
    var ticket := s.links[l].task.packet.ticket;
    var b := s.accepted[ticket];
    WithTask(Mark(s, ticket, ClearDropped), l, Idle).Record(PacketDropped(b.packet.id, b.node, BufferCleared))
  }

  function Carry(s: Net, l: LinkId, ticket: nat): Net
    requires l in s.carried
  {
    s.(carried := s.carried[l := s.carried[l] + [Carried(ticket, s.now)]])
  }

  function Release(s: Net, n: NodeId, size: nat): Net
    requires n in s.nodes
  {
    s.SetNode(n, s.nodes[n].(available := s.nodes[n].available + size))
  }

  function PutOn(s: Net, l: LinkId, x: InTransit, time: Duration): Net
    requires l in s.links && s.links[l].batch.created <= s.now
  {
    var link := s.links[l];
    s.SetLink(l, link.(task := Idle, batch := link.batch.Add(s.now, time), inTransit := link.inTransit + multiset{x}))
  }

  /** The packet leaves the buffer of its node for a link. */
  function Unbuffer(s: Net, l: LinkId, ticket: nat): (s': Net)
    requires l in s.carried && ticket < |s.accepted| && s.accepted[ticket].node in s.nodes
    ensures s'.links == s.links && s'.now == s.now && s'.log == s.log && s'.accepted == s.accepted
  {
    var b := s.accepted[ticket];
    Release(Carry(Mark(s, ticket, SentOver(l)), l, ticket), b.node, b.packet.Size())
  }

  /** `send` */
  function Transmit(t: Topology, s: Net, l: LinkId): Net
    requires Sound(t, s) && InOffering(s, l)
  {
    var copy := s.links[l].task.packet;
    var b := s.accepted[copy.ticket];
    PutOn(Unbuffer(s, l, copy.ticket).Record(PacketInTransit(b.packet.id, b.node, l)), l,
          InTransit(b.packet, s.now, s.links[l].delay + copy.extraDelay),
          t.TransmissionTime(l, b.packet.Size()))
  }

  /** The last part of a round of `process_link_queue`. */
  function Finish(t: Topology, s: Net, l: LinkId): Net
    requires Sound(t, s) && InOffering(s, l)
  {
    if Handled(s, l) then WithTask(s, l, Idle)
    else if ClearedFromBuffer(s, s.links[l].task.packet.ticket) then DropCleared(t, s, l)
    else Transmit(t, s, l)
  }

  // ---- Arriving at the end of a link ----------------------------------------------------------

  /** A least entry of a queue that is due: what the queue delivers next. */
  predicate IsNext(q: multiset<InTransit>, x: InTransit, now: Duration) {
    && x in q
    && x.Arrival() <= now
    && forall y :: y in q ==> NoLaterThan(x, y)
  }

  predicate WasDownAfter(link: LinkState, instant: Duration) {
    link.lastDown.Some? && link.lastDown.value > instant
  }

  function TakeOff(s: Net, l: LinkId, x: InTransit): (s': Net)
    requires l in s.links
    ensures s'.nodes == s.nodes && s'.now == s.now && s'.accepted == s.accepted && s'.handled == s.handled
  {
    s.SetLink(l, s.links[l].(inTransit := s.links[l].inTransit - multiset{x}))
  }

  /** One packet of `forward_packets_from_link_to_node`. */
  function Land(t: Topology, s: Net, l: LinkId, x: InTransit, luck: Luck): Net
    requires Sound(t, s) && l in s.links
  {
    if WasDownAfter(s.links[l], x.sent) then TakeOff(s, l, x).Record(PacketLostInTransit(x.packet.id, l))
    else Forward(t, TakeOff(s, l, x), t.Target(l), x.packet, luck)
  }

  // ---- Applications and events ----------------------------------------------------------------

  function Inject(t: Topology, s: Net, n: NodeId, id: PacketId, d: Datagram, luck: Luck): Net
    requires Sound(t, s) && n in s.nodes
  {
    var p := Packet(id, s.nextNumber, d.payload, d.dest, d.port, d.ttl, false);
    Forward(t, s.(nextNumber := s.nextNumber + 1, ids := s.ids + {id}), n, p, luck)
  }

  /** A packet is read from a socket. */
  function Read(s: Net, n: NodeId, x: InTransit): Net
    requires n in s.nodes
  {
    s.SetNode(n, s.nodes[n].(inbox := s.nodes[n].inbox - multiset{x}))
     .Record(PacketDeliveredToApplication(x.packet.id, x.packet.number, x.packet.Size(), n))
  }

  predicate CanRead(s: Net, n: NodeId, x: InTransit) {
    && n in s.nodes
    && x in s.nodes[n].inbox
    && x.Arrival() <= s.now
    && forall y :: y in s.nodes[n].inbox && y.packet.port == x.packet.port ==> NoLaterThan(x, y)
  }

  function ChangedLink(link: LinkState, e: LinkEvent, now: Duration): (link': LinkState)
    ensures link'.batch == link.batch && link'.task == link.task
    ensures link'.queue == link.queue && link'.inTransit == link.inTransit
  {
    var link1 := if e.delay.Some? && link.status.Down? then link.(delay := e.delay.value) else link;
    if e.status.None? || e.status.value == link1.status then link1
    else link1.(status := e.status.value, lastDown := if e.status.value.Down? then Some(now) else link1.lastDown)
  }

  function ChangedNode(node: NodeState, e: NodeEvent, now: Duration): NodeState {
    var node1 := if e.status.Some? then node.(status := e.status.value) else node;
    if e.clearBuffer then node1.(lastBufferClear := Some(now)) else node1
  }

  /** `process_link_event`; an event for a link that does not exist is skipped. */
  function LinkChange(s: Net, e: LinkEvent): Net {
    if e.link !in s.links then s
    else
      s.SetLink(e.link, ChangedLink(s.links[e.link], e, s.now)).Record(NetworkEvent(Some(e), None))
  }

  /** `process_node_event`; an event for a node that does not exist is skipped. */
  function NodeChange(s: Net, e: NodeEvent): Net {
    if e.node !in s.nodes then s
    else
      s.SetNode(e.node, ChangedNode(s.nodes[e.node], e, s.now)).Record(NetworkEvent(None, Some(e)))
  }

  // ---- Runs -----------------------------------------------------------------------------------

  datatype Action =
    | Injecting(node: NodeId, id: PacketId, datagram: Datagram, luck: Luck)
    | Dispatching(node: NodeId, rolls: seq<real>)
    | Taking(link: LinkId)
    | Waking(link: LinkId)
    | GivingWay(link: LinkId)
    | Finishing(link: LinkId)
    | Landing(link: LinkId, x: InTransit, luck: Luck)
    | Reading(node: NodeId, x: InTransit)
    | LinkChanging(linkEvent: LinkEvent)
    | NodeChanging(nodeEvent: NodeEvent)
    | Passing(until: Duration)

  ghost predicate Enabled(t: Topology, s: Net, a: Action) {
    && Sound(t, s)
    && match a
       case Injecting(n, id, _, luck) =>
         n in s.nodes && id !in s.ids && luck.freshId !in s.ids && id != luck.freshId
       case Dispatching(n, rolls) => CanDispatch(t, s, n, rolls)
       case Taking(l) => l in s.links && s.links[l].task.Idle? && s.links[l].queue != []
       case Waking(l) => CanWake(t, s, l)
       case GivingWay(l) => InOffering(s, l) && MustYield(s, l)
       case Finishing(l) =>
         && InOffering(s, l) && !MustYield(s, l)
         // the program asserts that the link is up when it sends
         && (Handled(s, l) || ClearedFromBuffer(s, s.links[l].task.packet.ticket) || s.links[l].status.Up?)
       case Landing(l, x, luck) =>
         l in s.links && IsNext(s.links[l].inTransit, x, s.now) && luck.freshId !in s.ids
       case Reading(n, x) => CanRead(s, n, x)
       case LinkChanging(_) => true
       case NodeChanging(_) => true
       case Passing(until) => s.now <= until
  }

  ghost function Apply(t: Topology, s: Net, a: Action): Net
    requires Enabled(t, s, a)
  {
    match a
    case Injecting(n, id, d, luck) =>
      Inject(t, s, n, id, d, luck)
    case Dispatching(n, rolls) => Dispatch(t, s, n, rolls)
    case Taking(l) => Take(t, s, l)
    case Waking(l) => WithTask(s, l, Busy(s.links[l].task.packet, Offering))
    case GivingWay(l) => GiveWay(s, l)
    case Finishing(l) => Finish(t, s, l)
    case Landing(l, x, luck) => Land(t, s, l, x, luck)
    case Reading(n, x) => Read(s, n, x)
    case LinkChanging(e) => LinkChange(s, e)
    case NodeChanging(e) => NodeChange(s, e)
    case Passing(until) => s.(now := until)
  }

  /** `states` are the states that the actions lead through, from the initial one on. */
  ghost predicate LeadsThrough(t: Topology, actions: seq<Action>, states: seq<Net>) {
    && |states| == |actions| + 1
    && states[0] == Initial(t)
    && forall i {:trigger actions[i]} :: 0 <= i < |actions| ==>
         Enabled(t, states[i], actions[i]) && states[i + 1] == Apply(t, states[i], actions[i])
  }

  /** A run: from the initial state, each action is possible where it happens. */
  ghost predicate IsRun(t: Topology, actions: seq<Action>) {
    t.Valid() && exists states :: LeadsThrough(t, actions, states)
  }

  ghost function StateAfter(t: Topology, actions: seq<Action>): Net
    requires IsRun(t, actions)
  {
    var states :| LeadsThrough(t, actions, states);
    states[|actions|]
  }

  lemma {:induction false} OneWay(t: Topology, actions: seq<Action>, a: seq<Net>, b: seq<Net>, i: nat)
    requires LeadsThrough(t, actions, a) && LeadsThrough(t, actions, b) && i <= |actions|
    ensures a[i] == b[i]
  {
    hide Enabled, Apply, Initial;
    if i > 0 {
      OneWay(t, actions, a, b, i - 1);
      var last := actions[i - 1];
    }
  }

  lemma StateIs(t: Topology, actions: seq<Action>, states: seq<Net>)
    requires t.Valid() && LeadsThrough(t, actions, states)
    ensures IsRun(t, actions) && StateAfter(t, actions) == states[|actions|]
  {
    hide Topology.Valid, Enabled, Apply, Initial;
    var others :| LeadsThrough(t, actions, others) && others[|actions|] == StateAfter(t, actions);
    OneWay(t, actions, others, states, |actions|);
  }

  /** A run is empty, or it is a shorter run and one more action. */
  lemma LastStep(t: Topology, actions: seq<Action>)
    requires IsRun(t, actions)
    ensures t.Valid()
    ensures actions == [] ==> StateAfter(t, actions) == Initial(t)
    ensures actions != [] ==>
              var init, last := actions[..|actions| - 1], actions[|actions| - 1];
              && IsRun(t, init) && Enabled(t, StateAfter(t, init), last)
              && StateAfter(t, actions) == Apply(t, StateAfter(t, init), last)
  {
    hide Topology.Valid, Enabled, Apply, Initial, IsRun, StateAfter;
    RunHasStates(t, actions);
    var states :| LeadsThrough(t, actions, states);
    StateIs(t, actions, states);
    if actions != [] {
      var init := actions[..|actions| - 1];
      assert LeadsThrough(t, init, states[..|actions|]);
      StateIs(t, init, states[..|actions|]);
      assert actions[|actions| - 1] == actions[|init|];
    }
  }

  lemma RunHasStates(t: Topology, actions: seq<Action>)
    requires IsRun(t, actions)
    ensures t.Valid() && exists states :: LeadsThrough(t, actions, states)
  {
    hide Topology.Valid, LeadsThrough;
  }

  lemma RunGrows(t: Topology, actions: seq<Action>, a: Action)
    requires IsRun(t, actions) && Enabled(t, StateAfter(t, actions), a)
    ensures IsRun(t, actions + [a]) && StateAfter(t, actions + [a]) == Apply(t, StateAfter(t, actions), a)
  {
    hide Topology.Valid, Enabled, Apply, Initial, IsRun, StateAfter;
    RunHasStates(t, actions);
    var states :| LeadsThrough(t, actions, states);
    StateIs(t, actions, states);
    var more := states + [Apply(t, states[|actions|], a)];
    forall i {:trigger (actions + [a])[i]} | 0 <= i < |actions + [a]|
      ensures Enabled(t, more[i], (actions + [a])[i]) && more[i + 1] == Apply(t, more[i], (actions + [a])[i])
    {
      if i < |actions| {
        assert (actions + [a])[i] == actions[i] && more[i] == states[i] && more[i + 1] == states[i + 1];
      }
    }
    StateIs(t, actions + [a], more);
  }

  /** Each action of a run is possible in the state that the actions before it lead to. */
  lemma Prefix(t: Topology, actions: seq<Action>, k: nat)
    requires IsRun(t, actions) && k < |actions|
    ensures IsRun(t, actions[..k]) && Enabled(t, StateAfter(t, actions[..k]), actions[k])
    ensures IsRun(t, actions[..k + 1])
    ensures StateAfter(t, actions[..k + 1]) == Apply(t, StateAfter(t, actions[..k]), actions[k])
  {
    hide Topology.Valid, Enabled, Apply, Initial, IsRun, StateAfter;
    RunHasStates(t, actions);
    var states :| LeadsThrough(t, actions, states);
    assert LeadsThrough(t, actions[..k], states[..k + 1]);
    StateIs(t, actions[..k], states[..k + 1]);
    assert actions[k] == actions[k];
    RunGrows(t, actions[..k], actions[k]);
    assert actions[..k] + [actions[k]] == actions[..k + 1];
  }
}
