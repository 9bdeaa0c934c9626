/**
 Routing loops and duplication end: the work that is left in the network, weighed by what can
 still become of each packet, only grows when an application sends something.
 */
module Termination {
  import opened Prelude
  import opened Sums
  import opened Trace
  import opened PacketPacer
  import opened Cidr
  import opened Routing
  import opened Network
  import opened Soundness
  import opened Queues

  // ---- Weights --------------------------------------------------------------------------------

  /**
   What each thing left to do counts for: getting a packet out of a node's buffer, a copy of it in
   a link's queue, a transmission, a landing and a read. With a number, only packets with this
   number count: these are the copies of one packet that an application sent.
   */
  datatype Weights = Weights(number: Option<nat>, outbound: nat, copy: nat, transmission: nat, landing: nat, inbox: nat) {

    /** Where things are counted that have no number, all packets count. */
    predicate Valid() {
      number.Some? ==> outbound == inbox == 0
    }

    predicate Mine(p: Packet) {
      number.None? || number.value == p.number
    }

    /** At most this is added when a packet with TTL `ttl` arrives in a node. */
    function Arriving(ttl: nat): nat {
      inbox + if ttl <= 1 then 0 else 2 * (outbound + transmission + landing + Arriving(ttl - 1))
    }

    function Flying(p: Packet): nat {
      if Mine(p) then landing + Arriving(p.ttl) else 0
    }

    function Held(p: Packet): nat {
      if Mine(p) then transmission + landing + Arriving(p.ttl) else 0
    }

    function Node(node: NodeState): nat {
      outbound * |node.outbound| + inbox * |node.inbox|
    }

    function Copy(o: Outgoing): nat {
      copy * (3 + |o.preferred|)
    }

    function Queue(q: seq<Outgoing>): nat {
      if q == [] then 0 else Queue(q[..|q| - 1]) + Copy(q[|q| - 1])
    }

    function Task(task: LinkTask): nat {
      match task
      case Idle => 0
      case Busy(o, Sleeping(_)) => copy * (2 + |o.preferred|)
      case Busy(o, Offering) => copy * (1 + |o.preferred|)
    }

    ghost function Air(q: multiset<InTransit>): nat {
      Sum(set x | x in q, (x: InTransit) => q[x] * Flying(x.packet))
    }

    ghost function Link(link: LinkState): nat {
      Queue(link.queue) + Task(link.task) + Air(link.inTransit)
    }

    ghost function Nodes(nodes: map<NodeId, NodeState>): nat {
      Sum(nodes.Keys, n => if n in nodes then Node(nodes[n]) else 0)
    }

    ghost function Links(links: map<LinkId, LinkState>): nat {
      Sum(links.Keys, l => if l in links then Link(links[l]) else 0)
    }

    /** The packets in buffers: accepted, and not handled. */
    ghost function Buffers(accepted: seq<Buffered>, handled: map<nat, Handling>): nat {
      Sum(Waiting(accepted, handled), k => if 0 <= k < |accepted| then Held(accepted[k].packet) else 0)
    }

    ghost function Total(s: Net): nat {
      Buffers(s.accepted, s.handled) + Nodes(s.nodes) + Links(s.links)
    }
  }

  ghost function Waiting(accepted: seq<Buffered>, handled: map<nat, Handling>): set<nat> {
    set k | 0 <= k < |accepted| && k !in handled
  }

  // ---- One object changes ---------------------------------------------------------------------

  lemma NodesChange(w: Weights, nodes: map<NodeId, NodeState>, n: NodeId, node: NodeState)
    requires n in nodes
    ensures w.Nodes(nodes[n := node]) + w.Node(nodes[n]) == w.Nodes(nodes) + w.Node(node)
  {
    hide Weights.Node;
    var nodes' := nodes[n := node];
    assert nodes'.Keys == nodes.Keys;
    SumChange(nodes.Keys, n, m => if m in nodes then w.Node(nodes[m]) else 0,
              m => if m in nodes' then w.Node(nodes'[m]) else 0);
  }

  lemma LinksChange(w: Weights, links: map<LinkId, LinkState>, l: LinkId, link: LinkState)
    requires l in links
    ensures w.Links(links[l := link]) + w.Link(links[l]) == w.Links(links) + w.Link(link)
  {
    hide Weights.Link;
    var links' := links[l := link];
    assert links'.Keys == links.Keys;
    SumChange(links.Keys, l, m => if m in links then w.Link(links[m]) else 0,
              m => if m in links' then w.Link(links'[m]) else 0);
  }

  lemma OneMore(a: nat, b: nat)
    ensures (a + 1) * b == a * b + b
  {
  }

  lemma AirWith(w: Weights, q: multiset<InTransit>, x: InTransit)
    ensures w.Air(q + multiset{x}) == w.Air(q) + w.Flying(x.packet)
  {
    hide Weights.Flying;
    var q' := q + multiset{x};
    var f, g := (y: InTransit) => q[y] * w.Flying(y.packet), (y: InTransit) => q'[y] * w.Flying(y.packet);
    var before, after := set y | y in q, set y | y in q';
    assert after == before + {x};
    assert forall y :: y != x ==> q'[y] == q[y];
    assert q'[x] == q[x] + 1;
    OneMore(q[x], w.Flying(x.packet));
    if x in q {
      assert after == before;
      SumChange(before, x, f, g);
    } else {
      SumWith(before, x, g);
      SumSame(before, f, g);
    }
  }

  lemma AirWithout(w: Weights, q: multiset<InTransit>, x: InTransit)
    requires x in q
    ensures w.Air(q) == w.Air(q - multiset{x}) + w.Flying(x.packet)
  {
    AirWith(w, q - multiset{x}, x);
    assert q - multiset{x} + multiset{x} == q;
  }

  lemma BuffersAfterAccept(w: Weights, accepted: seq<Buffered>, handled: map<nat, Handling>, b: Buffered)
    requires forall k :: k in handled ==> k < |accepted|
    ensures w.Buffers(accepted + [b], handled) == w.Buffers(accepted, handled) + w.Held(b.packet)
  {
    hide Weights.Held;
    var more := accepted + [b];
    BuffersWith(w, more, Waiting(accepted, handled), |accepted|);
    assert Waiting(more, handled) == Waiting(accepted, handled) + {|accepted|};
    SumSame(Waiting(accepted, handled), k => if 0 <= k < |accepted| then w.Held(accepted[k].packet) else 0,
            k => if 0 <= k < |more| then w.Held(more[k].packet) else 0);
  }

  lemma BuffersWith(w: Weights, accepted: seq<Buffered>, tickets: set<nat>, k: nat)
    requires k !in tickets && k < |accepted|
    ensures Sum(tickets + {k}, i => if 0 <= i < |accepted| then w.Held(accepted[i].packet) else 0)
         == Sum(tickets, i => if 0 <= i < |accepted| then w.Held(accepted[i].packet) else 0) + w.Held(accepted[k].packet)
  {
    hide Weights.Held;
    SumWith(tickets, k, i => if 0 <= i < |accepted| then w.Held(accepted[i].packet) else 0);
  }

  lemma BuffersAfterMark(w: Weights, accepted: seq<Buffered>, handled: map<nat, Handling>, k: nat, how: Handling)
    requires k < |accepted| && k !in handled
    ensures w.Buffers(accepted, handled) == w.Buffers(accepted, handled[k := how]) + w.Held(accepted[k].packet)
  {
    hide Weights.Held;
    assert Waiting(accepted, handled) - {k} == Waiting(accepted, handled[k := how]);
    SumWithout(Waiting(accepted, handled), k, i => if 0 <= i < |accepted| then w.Held(accepted[i].packet) else 0);
  }

  lemma {:induction false} QueueFromFront(w: Weights, q: seq<Outgoing>)
    requires q != []
    ensures w.Queue(q) == w.Copy(q[0]) + w.Queue(q[1..])
  {
    hide Weights.Copy;
    if |q| > 1 {
      var init := q[..|q| - 1];
      QueueFromFront(w, init);
      assert init[1..] == q[1..][..|q[1..]| - 1];
    } else {
      assert q[..0] == [] && q[1..] == [];
    }
  }

  lemma QueueWith(w: Weights, q: seq<Outgoing>, o: Outgoing)
    ensures w.Queue(q + [o]) == w.Queue(q) + w.Copy(o)
  {
    assert (q + [o])[..|q|] == q;
  }

  // ---- A packet arrives -----------------------------------------------------------------------

  lemma TotalAfterEnqueue(w: Weights, s: Net, n: NodeId, p: Packet)
    requires n in s.nodes && TicketsExist(s)
    ensures w.Total(Enqueue(s, n, p)) <= w.Total(s) + w.Held(p) + w.outbound
    ensures TicketsExist(Enqueue(s, n, p))
  {
    hide Weights.Held, Weights.Nodes, Weights.Buffers, Weights.Links;
    if s.nodes[n].available >= p.Size() {
      BuffersAfterAccept(w, s.accepted, s.handled, Buffered(n, s.now, p));
      NodesChange(w, s.nodes, n, Enqueue(s, n, p).nodes[n]);
    }
  }

  lemma TotalAfterStore(w: Weights, t: Topology, s: Net, n: NodeId, p: Packet, luck: Luck)
    requires n in s.nodes && n in t.nodes && TicketsExist(s)
    ensures w.Total(Store(t, s, n, p, luck)) <= w.Total(s) + 2 * (w.Held(p) + w.outbound)
  {
    hide Weights.Nodes, Weights.Buffers, Weights.Links, Weights.Arriving, Enqueue;
    TotalAfterEnqueue(w, s, n, p);
    var s1 := Enqueue(s, n, p);
    var twin := p.(id := luck.freshId, duplicate := true);
    var s2 := s1.(ids := s1.ids + {luck.freshId}).Record(DuplicationRecord(n, twin));
    TotalAfterEnqueue(w, s2, n, twin);
  }

  /** What a packet with TTL `ttl` adds to the work that is left when it arrives. */
  function Impact(w: Weights, p: Packet): nat {
    if w.Mine(p) then w.Arriving(p.ttl) else 0
  }

  lemma TotalAfterDeliver(w: Weights, s: Net, n: NodeId, p: Packet)
    requires n in s.nodes
    ensures w.Total(Deliver(s, n, p)) == w.Total(s) + w.inbox
  {
    hide Weights.Nodes, Weights.Buffers, Weights.Links;
    var node' := Deliver(s, n, p).nodes[n];
    NodesChange(w, s.nodes, n, node');
    assert |node'.inbox| == |s.nodes[n].inbox| + 1;
    TimesNext(w.inbox, |s.nodes[n].inbox|);
  }

  lemma TimesNext(a: nat, b: nat)
    ensures a * (b + 1) == a * b + a
  {
  }

  lemma HopImpact(w: Weights, p: Packet)
    requires w.Valid() && Hop(p).ttl > 0
    ensures w.inbox + 2 * (w.Held(Hop(p)) + w.outbound) <= Impact(w, p)
  {
  }

  lemma InboxImpact(w: Weights, p: Packet)
    requires w.Valid()
    ensures w.inbox <= Impact(w, p)
  {
  }

  lemma TotalAfterForward(w: Weights, t: Topology, s: Net, n: NodeId, p: Packet, luck: Luck)
    requires w.Valid() && n in s.nodes && n in t.nodes && TicketsExist(s)
    ensures w.Total(Forward(t, s, n, p, luck)) <= w.Total(s) + Impact(w, p)
  {
    hide Weights.Nodes, Weights.Buffers, Weights.Links, Weights.Held, Impact, Store, Deliver;
    var s1 := s.Record(ArrivalRecord(n, p, false));
    TotalAfterDeliver(w, s1, n, p);
    InboxImpact(w, p);
    TotalAfterStore(w, t, s1, n, Hop(p), luck);
    if Hop(p).ttl > 0 {
      HopImpact(w, p);
    }
  }

  lemma TotalAfterInject(w: Weights, t: Topology, s: Net, n: NodeId, id: PacketId, d: Datagram, luck: Luck)
    requires w.Valid() && Sound(t, s) && n in s.nodes && n in t.nodes && TicketsExist(s)
    ensures var counts := w.number.None? || w.number.value == s.nextNumber;
            w.Total(Inject(t, s, n, id, d, luck)) <= w.Total(s) + if counts then w.Arriving(d.ttl) else 0
  {
    hide Weights.Nodes, Weights.Buffers, Weights.Links, Weights.Arriving, Forward, Sound;
    TotalAfterForward(w, t, s.(nextNumber := s.nextNumber + 1, ids := s.ids + {id}), n,
                      Packet(id, s.nextNumber, d.payload, d.dest, d.port, d.ttl, false), luck);
  }

  lemma TotalAfterTakeOff(w: Weights, s: Net, l: LinkId, x: InTransit)
    requires l in s.links && x in s.links[l].inTransit
    ensures w.Total(TakeOff(s, l, x)) + w.Flying(x.packet) == w.Total(s)
  {
    hide Weights.Nodes, Weights.Buffers, Weights.Links, Weights.Air, Weights.Flying;
    LinksChange(w, s.links, l, TakeOff(s, l, x).links[l]);
    AirWithout(w, s.links[l].inTransit, x);
  }

  lemma TotalAfterLand(w: Weights, t: Topology, s: Net, l: LinkId, x: InTransit, luck: Luck)
    requires w.Valid() && Sound(t, s) && t.Valid() && TicketsExist(s)
    requires l in s.links && l in t.links && x in s.links[l].inTransit && t.Target(l) in s.nodes && t.Target(l) in t.nodes
    ensures w.Total(Land(t, s, l, x, luck)) + (if w.Mine(x.packet) then w.landing else 0) <= w.Total(s)
  {
    hide Weights.Total, Weights.Arriving, Forward, TakeOff, Sound, Topology.Valid;
    TotalAfterTakeOff(w, s, l, x);
    TotalAfterRecord(w, TakeOff(s, l, x), PacketLostInTransit(x.packet.id, l));
    TicketsStillExist(s, TakeOff(s, l, x));
    TotalAfterForward(w, t, TakeOff(s, l, x), t.Target(l), x.packet, luck);
  }

  lemma TotalAfterRead(w: Weights, s: Net, n: NodeId, x: InTransit)
    requires n in s.nodes && x in s.nodes[n].inbox
    ensures w.Total(Read(s, n, x)) + w.inbox == w.Total(s)
  {
    hide Weights.Nodes, Weights.Buffers, Weights.Links;
    var node' := Read(s, n, x).nodes[n];
    NodesChange(w, s.nodes, n, node');
    assert |node'.inbox| + 1 == |s.nodes[n].inbox|;
    TimesNext(w.inbox, |node'.inbox|);
  }

  // ---- A link works on a packet ---------------------------------------------------------------

  lemma TotalWithTask(w: Weights, s: Net, l: LinkId, task: LinkTask)
    requires l in s.links
    ensures w.Total(WithTask(s, l, task)) + w.Task(s.links[l].task) == w.Total(s) + w.Task(task)
  {
    hide Weights.Nodes, Weights.Buffers, Weights.Links, Weights.Task, Weights.Air, Weights.Queue;
    LinksChange(w, s.links, l, s.links[l].(task := task));
  }

  lemma TotalAfterTake(w: Weights, t: Topology, s: Net, l: LinkId)
    requires Sound(t, s) && l in s.links && s.links[l].task.Idle? && s.links[l].queue != []
    ensures w.Total(Take(t, s, l)) + w.copy <= w.Total(s)
  {
    hide Weights.Nodes, Weights.Buffers, Weights.Links, Weights.Air, Weights.Queue, Topology.Valid,
         Topology.TransmissionTime, NodeSound, Batch.At, Batch.Wait, Batch.CanSend;
    var link' := Take(t, s, l).links[l];
    LinksChange(w, s.links, l, link');
    QueueFromFront(w, s.links[l].queue);
    CopyThroughTask(w, link'.task);
  }

  lemma CopyThroughTask(w: Weights, task: LinkTask)
    requires task.Busy?
    ensures w.Task(task) + w.copy <= w.Copy(task.packet)
    ensures w.copy <= w.Task(task)
    ensures w.Task(task.(phase := Offering)) <= w.Task(task)
    ensures task.phase.Sleeping? ==> w.Task(task.(phase := Offering)) + w.copy == w.Task(task)
    ensures task.packet.preferred != [] && task.phase.Offering? ==>
              w.Task(task.(packet := task.packet.(preferred := task.packet.preferred[1..]))) + w.copy == w.Task(task)
  {
    var n := |task.packet.preferred|;
    TimesNext(w.copy, n);
    TimesNext(w.copy, n + 1);
    TimesNext(w.copy, n + 2);
    if n > 0 {
      TimesNext(w.copy, n - 1);
    }
  }

  lemma TotalAfterMark(w: Weights, s: Net, k: nat, how: Handling)
    requires k < |s.accepted| && k !in s.handled
    ensures w.Total(Mark(s, k, how)) + w.Held(s.accepted[k].packet) == w.Total(s)
  {
    hide Weights.Nodes, Weights.Buffers, Weights.Links, Weights.Held;
    BuffersAfterMark(w, s.accepted, s.handled, k, how);
  }

  lemma TotalAfterRelease(w: Weights, s: Net, n: NodeId, size: nat)
    requires n in s.nodes
    ensures w.Total(Release(s, n, size)) == w.Total(s)
  {
    hide Weights.Nodes, Weights.Buffers, Weights.Links;
    NodesChange(w, s.nodes, n, Release(s, n, size).nodes[n]);
  }

  lemma TotalAfterUnbuffer(w: Weights, s: Net, l: LinkId, k: nat)
    requires l in s.carried && k < |s.accepted| && k !in s.handled && s.accepted[k].node in s.nodes
    ensures w.Total(Unbuffer(s, l, k)) + w.Held(s.accepted[k].packet) == w.Total(s)
  {
    hide Weights.Nodes, Weights.Buffers, Weights.Links, Weights.Held, Release;
    TotalAfterMark(w, s, k, SentOver(l));
    TotalAfterRelease(w, Carry(Mark(s, k, SentOver(l)), l, k), s.accepted[k].node, s.accepted[k].packet.Size());
  }

  lemma TotalAfterPutOn(w: Weights, s: Net, l: LinkId, x: InTransit, time: Duration)
    requires l in s.links && s.links[l].batch.created <= s.now
    ensures w.Total(PutOn(s, l, x, time)) + w.Task(s.links[l].task) == w.Total(s) + w.Flying(x.packet)
  {
    hide Weights.Nodes, Weights.Buffers, Weights.Links, Weights.Air, Weights.Queue, Weights.Flying, Batch.Add;
    LinksChange(w, s.links, l, PutOn(s, l, x, time).links[l]);
    AirWith(w, s.links[l].inTransit, x);
  }

  /** A transmission takes its own weight, and what the link's task counted for, off the total. */
  lemma TotalAfterTransmit(w: Weights, t: Topology, s: Net, l: LinkId)
    requires Fine(t, s) && Sound(t, s) && InOffering(s, l) && !Handled(s, l)
    ensures s.links[l].task.packet.ticket < |s.accepted|
    ensures w.Total(Transmit(t, s, l)) + w.copy
            + (if w.Mine(s.accepted[s.links[l].task.packet.ticket].packet) then w.transmission else 0) <= w.Total(s)
  {
    hide Topology.Valid, Fine, Sound, PutOn, Unbuffer, Weights.Total, Weights.Arriving, Weights.Task,
         Topology.TransmissionTime;
    BusyFacts(t, s, l);
    var copy := s.links[l].task.packet;
    var b := s.accepted[copy.ticket];
    var s1 := Unbuffer(s, l, copy.ticket);
    var s2 := s1.Record(PacketInTransit(b.packet.id, b.node, l));
    TotalAfterUnbuffer(w, s, l, copy.ticket);
    TotalAfterRecord(w, s1, PacketInTransit(b.packet.id, b.node, l));
    TotalAfterPutOn(w, s2, l, InTransit(b.packet, s.now, s.links[l].delay + copy.extraDelay),
                    t.TransmissionTime(l, b.packet.Size()));
    CopyThroughTask(w, s.links[l].task);
  }

  lemma TotalAfterRecord(w: Weights, s: Net, kind: StepKind)
    ensures w.Total(s.Record(kind)) == w.Total(s)
  {
  }

  lemma TotalAfterDropCleared(w: Weights, t: Topology, s: Net, l: LinkId)
    requires Fine(t, s) && Sound(t, s) && InOffering(s, l) && !Handled(s, l)
    ensures w.Total(DropCleared(t, s, l)) + w.copy <= w.Total(s)
  {
    hide Topology.Valid, Fine, Sound, WithTask, Weights.Total, Weights.Held, Weights.Task;
    BusyFacts(t, s, l);
    var ticket := s.links[l].task.packet.ticket;
    var b := s.accepted[ticket];
    var s1 := Mark(s, ticket, ClearDropped);
    TotalAfterMark(w, s, ticket, ClearDropped);
    TotalWithTask(w, s1, l, Idle);
    TotalAfterRecord(w, WithTask(s1, l, Idle), PacketDropped(b.packet.id, b.node, BufferCleared));
    CopyThroughTask(w, s.links[l].task);
    IdleIsNoWork(w);
  }

  lemma IdleIsNoWork(w: Weights)
    ensures w.Task(Idle) == 0
  {
  }

  // ---- Copies are put in the queues -----------------------------------------------------------

  lemma {:induction false} LinksAfterOffer(w: Weights, t: Topology, links: map<LinkId, LinkState>, ticket: nat,
                                           candidates: seq<LinkId>, k: nat, rolls: seq<real>)
    requires k <= |candidates| == |rolls|
    requires forall i :: 0 <= i < |candidates| ==> candidates[i] in links && candidates[i] in t.links
    ensures w.Links(Offer(t, links, ticket, candidates, k, rolls))
         == w.Links(links) + (|candidates| - k) * (w.copy * (3 + |candidates|))
    decreases |candidates| - k
  {
    hide Weights.Links, Weights.Task, Weights.Air, Weights.Queue;
    if k < |candidates| {
      var l := candidates[k];
      var extra := if rolls[k] < t.links[l].extraDelayRatio then t.links[l].extraDelay else 0.0;
      var copy := Outgoing(ticket, extra, candidates);
      var link' := links[l].(queue := links[l].queue + [copy]);
      LinksChange(w, links, l, link');
      QueueWith(w, links[l].queue, copy);
      LinksAfterOffer(w, t, links[l := link'], ticket, candidates, k + 1, rolls);
      TimesNext(w.copy * (3 + |candidates|), |candidates| - k - 1);
    }
  }

  /** The work that offering a packet to `n` links makes. */
  function OfferingWork(w: Weights, n: nat): nat {
    n * (w.copy * (3 + n))
  }

  lemma TotalAfterDispatch(w: Weights, t: Topology, s: Net, n: NodeId, rolls: seq<real>)
    requires CanDispatch(t, s, n, rolls)
    ensures w.Total(Dispatch(t, s, n, rolls)) + w.outbound == w.Total(s) + OfferingWork(w, |rolls|)
  {
    hide Topology.Valid, LinkSound, Offer, Weights.Nodes, Weights.Links, Weights.Buffers;
    var ticket := s.nodes[n].outbound[0];
    var candidates := t.Candidates(n, s.accepted[ticket].packet.dest).value;
    LinksAfterOffer(w, t, s.links, ticket, candidates, 0, rolls);
    var node' := Dispatch(t, s, n, rolls).nodes[n];
    NodesChange(w, s.nodes, n, node');
    TimesNext(w.outbound, |node'.outbound|);
  }

  // ---- Events ---------------------------------------------------------------------------------

  lemma TotalAfterLinkChange(w: Weights, s: Net, e: LinkEvent)
    ensures w.Total(LinkChange(s, e)) == w.Total(s)
  {
    hide Weights.Nodes, Weights.Buffers, Weights.Links, ChangedLink;
    if e.link in s.links {
      LinksChange(w, s.links, e.link, ChangedLink(s.links[e.link], e, s.now));
    }
  }

  lemma TotalAfterNodeChange(w: Weights, s: Net, e: NodeEvent)
    ensures w.Total(NodeChange(s, e)) == w.Total(s)
  {
    hide Weights.Nodes, Weights.Buffers, Weights.Links;
    if e.node in s.nodes {
      NodesChange(w, s.nodes, e.node, ChangedNode(s.nodes[e.node], e, s.now));
    }
  }

  // ---- Whole steps ----------------------------------------------------------------------------

  /** The task of link `l` holds a packet that it is free to send. */
  ghost predicate Sends(s: Net, l: LinkId) {
    && InOffering(s, l) && !Handled(s, l)
    && var k := s.links[l].task.packet.ticket;
       k < |s.accepted| && s.accepted[k].node in s.nodes && !ClearedFromBuffer(s, k)
  }

  /** The work that an action makes. */
  function Made(w: Weights, s: Net, a: Action): nat {
    match a
    case Injecting(_, _, d, _) => if w.number.None? || w.number.value == s.nextNumber then w.Arriving(d.ttl) else 0
    case Dispatching(_, rolls) => OfferingWork(w, |rolls|)
    case _ => 0
  }

  /** The work that an action does. */
  ghost function Done(w: Weights, s: Net, a: Action): nat {
    match a
    case Dispatching(_, _) => w.outbound
    case Taking(_) => w.copy
    case Waking(_) => w.copy
    case GivingWay(_) => w.copy
    case Finishing(l) =>
      w.copy + if Sends(s, l) && w.Mine(s.accepted[s.links[l].task.packet.ticket].packet) then w.transmission else 0
    case Landing(_, x, _) => if w.Mine(x.packet) then w.landing else 0
    case Reading(_, _) => w.inbox
    case _ => 0
  }

  lemma TotalAfterFinish(w: Weights, t: Topology, s: Net, l: LinkId)
    requires Fine(t, s) && Sound(t, s) && InOffering(s, l)
    ensures w.Total(Finish(t, s, l)) + Done(w, s, Finishing(l)) <= w.Total(s)
  {
    hide Topology.Valid, Fine, Sound, Transmit, DropCleared, WithTask, Weights.Total, Weights.Task;
    BusyFacts(t, s, l);
    CopyThroughTask(w, s.links[l].task);
    IdleIsNoWork(w);
    if Handled(s, l) {
      TotalWithTask(w, s, l, Idle);
    } else if ClearedFromBuffer(s, s.links[l].task.packet.ticket) {
      TotalAfterDropCleared(w, t, s, l);
    } else {
      TotalAfterTransmit(w, t, s, l);
    }
  }

  lemma TotalAfterWake(w: Weights, t: Topology, s: Net, l: LinkId)
    requires Sound(t, s) && CanWake(t, s, l)
    ensures w.Total(WithTask(s, l, Busy(s.links[l].task.packet, Phase.Offering))) + w.copy == w.Total(s)
  {
    hide WithTask, Weights.Total, Weights.Task, Sound, CameUp;
    TotalWithTask(w, s, l, Busy(s.links[l].task.packet, Phase.Offering));
    CopyThroughTask(w, s.links[l].task);
  }

  lemma TotalAfterGiveWay(w: Weights, s: Net, l: LinkId)
    requires InOffering(s, l) && MustYield(s, l)
    ensures w.Total(GiveWay(s, l)) + w.copy == w.Total(s)
  {
    hide WithTask, Weights.Total, Weights.Task;
    var copy := s.links[l].task.packet;
    TotalWithTask(w, s, l, Busy(copy.(preferred := copy.preferred[1..]), Phase.Offering));
    CopyThroughTask(w, s.links[l].task);
  }

  lemma TargetExists(t: Topology, s: Net, l: LinkId)
    requires Fine(t, s) && l in s.links
    ensures t.Valid() && l in t.links && t.Target(l) in s.nodes && t.Target(l) in t.nodes
  {
    hide Topology.Valid, NodeSound, LinkSound;
  }

  lemma WorkAfterStep(w: Weights, t: Topology, s: Net, a: Action)
    requires w.Valid() && Queued(t, s) && Enabled(t, s, a)
    ensures w.Total(Apply(t, s, a)) + Done(w, s, a) <= w.Total(s) + Made(w, s, a)
  {
    hide Queued, Fine, Sound, Inject, Land, Take, Finish, Dispatch, Read, LinkChange, NodeChange, WithTask, GiveWay,
         CanDispatch, Topology.Valid, TicketsExist, Weights.Total, Weights.Arriving, OfferingWork, Sends, CanWake,
         MustYield;
    QueuedFacts(t, s);
    FineKeys(t, s);
    match a
    case Injecting(n, id, d, luck) => TotalAfterInject(w, t, s, n, id, d, luck);
    case Dispatching(n, rolls) => TotalAfterDispatch(w, t, s, n, rolls);
    case Taking(l) => TotalAfterTake(w, t, s, l);
    case Waking(l) => TotalAfterWake(w, t, s, l);
    case GivingWay(l) => TotalAfterGiveWay(w, s, l);
    case Finishing(l) => TotalAfterFinish(w, t, s, l);
    case Landing(l, x, luck) =>
      TargetExists(t, s, l);
      TotalAfterLand(w, t, s, l, x, luck);
    case Reading(n, x) => TotalAfterRead(w, s, n, x);
    case LinkChanging(e) => TotalAfterLinkChange(w, s, e);
    case NodeChanging(e) => TotalAfterNodeChange(w, s, e);
    case Passing(until) => TotalLater(w, s, until);
  }

  lemma TotalLater(w: Weights, s: Net, until: Duration)
    ensures w.Total(s.(now := until)) == w.Total(s)
  {
  }

  // ---- The measure ----------------------------------------------------------------------------

  /** No node ever offers a packet to more links than this. */
  ghost function MostLinks(t: Topology): nat {
    Sum(t.nodes.Keys, n => if n in t.nodes then |t.nodes[n].routes| else 0)
  }

  /** Everything counts: offering a packet is worth more than all the copies that come of it. */
  ghost function Measure(t: Topology): Weights {
    Weights(None, OfferingWork(Weights(None, 0, 1, 0, 0, 0), MostLinks(t)) + 1, 1, 0, 1, 1)
  }

  /** The actions that do something for a packet; the others are events, new packets and the clock. */
  predicate IsPacketStep(a: Action) {
    a.Dispatching? || a.Taking? || a.Waking? || a.GivingWay? || a.Finishing? || a.Landing? || a.Reading?
  }

  lemma FewEnoughLinks(t: Topology, s: Net, n: NodeId, rolls: seq<real>)
    requires CanDispatch(t, s, n, rolls)
    ensures |rolls| <= MostLinks(t)
  {
    hide LinkSound, Topology.Valid;
    var dest := s.accepted[s.nodes[n].outbound[0]].packet.dest;
    LinksOfAreLinks(Matching(t.nodes[n].routes, dest), t.linkAt);
    MatchingIsShorter(t.nodes[n].routes, dest);
    SumWithout(t.nodes.Keys, n, m => if m in t.nodes then |t.nodes[m].routes| else 0);
  }

  lemma {:induction false} MatchingIsShorter(routes: seq<NodeRoute>, dest: IpAddr)
    ensures |Matching(routes, dest)| <= |routes|
  {
    if routes != [] {
      MatchingIsShorter(routes[1..], dest);
    }
  }

  lemma OfferingGrows(w: Weights, n: nat, m: nat)
    requires n <= m && w.copy == 1
    ensures OfferingWork(w, n) <= OfferingWork(w, m)
  {
    assert n * (3 + n) <= m * (3 + m);
  }

  /**
   Without new packets, the network works itself to rest: every packet step strictly decreases the
   measure, and events and the clock leave it alone. Routing loops and duplication do not change that.
   */
  lemma PacketStepsDecrease(t: Topology, s: Net, a: Action)
    requires Queued(t, s) && Enabled(t, s, a) && !a.Injecting?
    ensures IsPacketStep(a) ==> Measure(t).Total(Apply(t, s, a)) < Measure(t).Total(s)
    ensures !IsPacketStep(a) ==> Measure(t).Total(Apply(t, s, a)) <= Measure(t).Total(s)
  {
    hide Queued, Sound, Weights.Total, Apply, CanDispatch, OfferingWork, MostLinks;
    WorkAfterStep(Measure(t), t, s, a);
    if a.Dispatching? {
      FewEnoughLinks(t, s, a.node, a.rolls);
      SameOffering(Measure(t), Weights(None, 0, 1, 0, 0, 0), |a.rolls|);
      OfferingGrows(Weights(None, 0, 1, 0, 0, 0), |a.rolls|, MostLinks(t));
    }
  }

  lemma SameOffering(v: Weights, w: Weights, n: nat)
    requires v.copy == w.copy
    ensures OfferingWork(v, n) == OfferingWork(w, n)
  {
  }

  function PacketSteps(actions: seq<Action>): nat {
    if actions == [] then 0
    else PacketSteps(actions[..|actions| - 1]) + if IsPacketStep(actions[|actions| - 1]) then 1 else 0
  }

  /**
   However a run goes on without new packets, it takes no more packet steps than the measure of
   where it started from.
   */
  lemma {:induction false} WorkRunsOut(t: Topology, before: seq<Action>, after: seq<Action>)
    requires IsRun(t, before + after) && IsRun(t, before)
    requires forall i :: 0 <= i < |after| ==> !after[i].Injecting?
    ensures PacketSteps(after) + Measure(t).Total(StateAfter(t, before + after)) <= Measure(t).Total(StateAfter(t, before))
  {
    hide Topology.Valid, Enabled, Apply, Queued, Weights.Total, IsRun, StateAfter;
    LastStep(t, before + after);
    if after == [] {
      assert before + after == before;
    } else {
      var init := after[..|after| - 1];
      assert (before + after)[..|before + after| - 1] == before + init;
      WorkRunsOut(t, before, init);
      RunIsQueued(t, before + init);
      PacketStepsDecrease(t, StateAfter(t, before + init), after[|after| - 1]);
    }
  }
}
