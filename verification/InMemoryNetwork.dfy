/**
 The network as the program has it: objects that are changed in place (mod.rs). Each method does
 what the function of the same step in Network.dfy says.
 */
module InMemoryNetwork {
  import opened Prelude
  import opened Trace
  import opened PacketPacer
  import opened Cidr
  import opened Routing
  import opened Network
  import opened InboundQueue
  import opened Node
  import opened NetworkLink
  import opened Tracer

  ghost function NodeStates(nodes: map<NodeId, Node>): map<NodeId, NodeState>
    reads nodes.Values, set n | n in nodes :: nodes[n].buffer, set n | n in nodes :: nodes[n].inbox
  {
    map n | n in nodes :: nodes[n].State()
  }

  ghost function LinkStates(links: map<LinkId, NetworkLink>): map<LinkId, LinkState>
    reads links.Values, set l | l in links :: links[l].pacer, set l | l in links :: links[l].inTransit
  {
    map l | l in links :: links[l].State()
  }

  ghost predicate ApartNodes(nodes: map<NodeId, Node>) {
    forall n, k :: n in nodes && k in nodes && n != k ==>
      nodes[n] != nodes[k] && nodes[n].buffer != nodes[k].buffer && nodes[n].inbox != nodes[k].inbox
  }

  ghost predicate ApartLinks(links: map<LinkId, NetworkLink>) {
    forall l, k :: l in links && k in links && l != k ==>
      links[l] != links[k] && links[l].pacer != links[k].pacer && links[l].inTransit != links[k].inTransit
  }

  lemma HasBandwidth(t: Topology)
    requires t.Valid()
    ensures forall l :: l in t.links ==> t.links[l].bandwidth > 0
  {
  }

  class InMemoryNetwork {
    const topology: Topology
    const tracer: SimulationStepTracer
    const nodes: map<NodeId, Node>
    const links: map<LinkId, NetworkLink>
    var now: Duration
    var accepted: seq<Buffered>
    var nextNumber: nat
    var handled: set<nat>  // the flags that are set

    ghost var handledHow: map<nat, Handling>
    ghost var ids: set<PacketId>
    ghost var carried: map<LinkId, seq<Carried>>

    ghost function Repr(): set<object> {
      {this, tracer} + nodes.Values + links.Values
      + (set n | n in nodes :: nodes[n].buffer) + (set n | n in nodes :: nodes[n].inbox)
      + (set l | l in links :: links[l].pacer) + (set l | l in links :: links[l].inTransit)
    }

    /** No two objects of the network share a part. */
    ghost predicate Distinct() {
      && ApartNodes(nodes) && ApartLinks(links)
      && (forall n, l :: n in nodes && l in links ==> nodes[n].inbox != links[l].inTransit)
      && (forall n :: n in nodes ==> n in topology.nodes && nodes[n].id == n && nodes[n].info == topology.nodes[n])
      && (forall l :: l in links ==>
            l in topology.links && links[l].id == l && links[l].pacer.bandwidth == topology.links[l].bandwidth)
    }

    ghost function View(): Net
      reads Repr()
    {
      Net(now, NodeStates(nodes), LinkStates(links), accepted, handledHow, nextNumber, ids, carried, tracer.steps)
    }

    ghost predicate Valid()
      reads Repr()
    {
      Distinct() && Sound(topology, View()) && handled == handledHow.Keys
    }

    constructor (topology: Topology)
      requires topology.Valid()
      ensures this.topology == topology && Distinct() && fresh(Repr())
      ensures View() == Initial(topology) && handled == {} && handledHow == map[]
    {
      hide Topology.Valid, NodeStates, LinkStates, ApartNodes, ApartLinks, StartsAs, StartsAsLink, Distinct, View, Initial,
           Repr;
      HasBandwidth(topology);
      this.topology := topology;
      tracer := new SimulationStepTracer();
      var newNodes := NewNodes(topology);
      var newLinks := NewLinks(topology);
      nodes, links := newNodes, newLinks;
      now, accepted, nextNumber, handled := 0.0, [], 0, {};
      handledHow, ids := map[], {};
      carried := map l | l in topology.links :: [];
      new;
      StartsDistinct();
      StartsAsInitial();
      PartsAreFresh(this);
    }

    lemma StartsAsInitial()
      requires nodes.Keys == topology.nodes.Keys && forall n :: n in nodes ==> StartsAs(topology, n, nodes[n])
      requires links.Keys == topology.links.Keys && forall l :: l in links ==> StartsAsLink(topology, l, links[l])
      requires now == 0.0 && accepted == [] && nextNumber == 0 && handledHow == map[] && ids == {} && tracer.steps == []
      requires carried == map l | l in topology.links :: []
      ensures View() == Initial(topology)
    {
      hide NodeStates, LinkStates, StartsAs, StartsAsLink;
      InitialNodes(topology, nodes);
      InitialLinks(topology, links);
    }

    lemma StartsDistinct()
      requires ApartNodes(nodes) && forall n :: n in nodes ==> StartsAs(topology, n, nodes[n])
      requires ApartLinks(links) && forall l :: l in links ==> StartsAsLink(topology, l, links[l])
      requires forall n, l :: n in nodes && l in links ==> nodes[n].inbox != links[l].inTransit
      ensures Distinct()
    {
      hide NodeStates, LinkStates, ApartNodes, ApartLinks;
    }

    /** At most node `n` has changed. */
    twostate lemma NodeChanged(n: NodeId)
      requires n in nodes
      requires forall k :: k in nodes && k != n ==>
                 unchanged(nodes[k]) && unchanged(nodes[k].buffer) && unchanged(nodes[k].inbox)
      requires forall l :: l in links ==>
                 unchanged(links[l]) && unchanged(links[l].pacer) && unchanged(links[l].inTransit)
      ensures n in old(NodeStates(nodes)) && old(NodeStates(nodes))[n] == old(nodes[n].State())
      ensures NodeStates(nodes) == old(NodeStates(nodes))[n := nodes[n].State()]
      ensures LinkStates(links) == old(LinkStates(links))
    {
    }

    /** At most link `l` has changed. */
    twostate lemma LinkChanged(l: LinkId)
      requires l in links
      requires forall k :: k in links && k != l ==>
                 unchanged(links[k]) && unchanged(links[k].pacer) && unchanged(links[k].inTransit)
      requires forall n :: n in nodes ==>
                 unchanged(nodes[n]) && unchanged(nodes[n].buffer) && unchanged(nodes[n].inbox)
      ensures l in old(LinkStates(links)) && old(LinkStates(links))[l] == old(links[l].State())
      ensures LinkStates(links) == old(LinkStates(links))[l := links[l].State()]
      ensures NodeStates(nodes) == old(NodeStates(nodes))
    {
    }

    lemma PartsOfNode(n: NodeId)
      requires n in nodes
      ensures {this, tracer, nodes[n], nodes[n].buffer, nodes[n].inbox} <= Repr()
    {
    }

    lemma PartsOfLink(l: LinkId)
      requires l in links
      ensures {this, tracer, links[l], links[l].pacer, links[l].inTransit} <= Repr() && links.Values <= Repr()
    {
    }

    lemma NodeView(n: NodeId)
      requires n in nodes
      ensures n in View().nodes && View().nodes[n] == nodes[n].State()
    {
    }

    lemma LinkView(l: LinkId)
      requires l in links
      ensures l in View().links && View().links[l] == links[l].State()
    {
    }

    // ---- Arriving in a node -------------------------------------------------------------------

    /** No node and no link has changed. */
    twostate lemma NothingChanged()
      requires forall n :: n in nodes ==>
                 unchanged(nodes[n]) && unchanged(nodes[n].buffer) && unchanged(nodes[n].inbox)
      requires forall l :: l in links ==>
                 unchanged(links[l]) && unchanged(links[l].pacer) && unchanged(links[l].inTransit)
      ensures NodeStates(nodes) == old(NodeStates(nodes)) && LinkStates(links) == old(LinkStates(links))
    {
    }

    /** Only a record was written. */
    twostate lemma Recorded(kind: StepKind)
      requires tracer.steps == old(tracer.steps) + [Step(now, kind)] && unchanged(this)
      requires forall n :: n in nodes ==>
                 unchanged(nodes[n]) && unchanged(nodes[n].buffer) && unchanged(nodes[n].inbox)
      requires forall l :: l in links ==>
                 unchanged(links[l]) && unchanged(links[l].pacer) && unchanged(links[l].inTransit)
      ensures View() == old(View()).Record(kind)
    {
      hide NodeStates, LinkStates;
      NothingChanged();
    }

    /** The node reserves space for a packet and queues its ticket, unless its buffer is full. */
    method Reserve(n: NodeId, p: Packet) returns (stored: bool)
      requires Distinct() && n in nodes
      modifies nodes[n], nodes[n].buffer
      ensures n in old(View()).nodes
      ensures var node := old(View()).nodes[n];
              && (stored <==> p.Size() <= node.available)
              && View() == if !stored then old(View())
                           else old(View()).SetNode(n, node.(available := node.available - p.Size(),
                                                             outbound := node.outbound + [|accepted|]))
    {
      hide NodeStates, LinkStates, NetworkLink.State, ApartLinks;
      NodeView(n);
      stored := nodes[n].EnqueueOutbound(p, |accepted|);
      NodeChanged(n);
      assert !stored ==> View().nodes == old(View()).nodes;
    }

    method EnqueueOutbound(n: NodeId, p: Packet)
      requires Distinct() && n in nodes
      modifies this`accepted, nodes[n], nodes[n].buffer, tracer
      ensures n in old(View()).nodes && View() == Enqueue(old(View()), n, p)
    {
      hide NodeStates, LinkStates, NetworkLink.State, Node.State, Distinct;
      var stored := Reserve(n, p);
      label reserved:
      if stored {
        accepted := accepted + [Buffered(n, now, p)];
        NothingChanged@reserved();
      } else {
        var warn := tracer.TrackDroppedBecauseBufferFull(now, n, p);
        Recorded@reserved(PacketDropped(p.id, n, BufferFull));
      }
    }

    method Deliver(n: NodeId, p: Packet)
      requires Distinct() && n in nodes
      modifies nodes[n].inbox
      ensures View() == Network.Deliver(old(View()), n, p)
    {
      hide NodeStates, LinkStates, NetworkLink.State;
      nodes[n].DeliverPacket(p, now);
      NodeChanged(n);
    }

    /** The duplicate of a packet is recorded, and queued like any other. */
    method EnqueueDuplicate(n: NodeId, twin: Packet)
      requires Distinct() && n in nodes
      modifies this`ids, this`accepted, nodes[n], nodes[n].buffer, tracer
      ensures n in old(View()).nodes
      ensures View() == Enqueue(old(View()).(ids := old(ids) + {twin.id}).Record(DuplicationRecord(n, twin)), n, twin)
    {
      hide NodeStates, LinkStates, Node.State, NetworkLink.State, Enqueue, Distinct;
      NodeView(n);
      ids := ids + {twin.id};
      assert View() == old(View()).(ids := ids) by { NothingChanged(); }
      label duplicated:
      tracer.TrackInjectedFailures(now, n, twin, true, 0.0, false);
      Recorded@duplicated(DuplicationRecord(n, twin));
      EnqueueOutbound(n, twin);
    }

    /** The part of `forward` that follows the random roll. */
    method Store(n: NodeId, p: Packet, luck: Luck)
      requires Distinct() && n in nodes && n in topology.nodes
      modifies this, nodes[n], nodes[n].buffer, tracer
      ensures handled == old(handled) && handledHow == old(handledHow)
      ensures View() == Network.Store(topology, old(View()), n, p, luck)
    {
      hide NodeStates, LinkStates, Node.State, NetworkLink.State, Enqueue, Distinct;
      var failures := nodes[n].info;
      assert failures == topology.nodes[n] by { InfoOf(n); }
      if luck.roll < failures.lossRatio {
        tracer.TrackDroppedRandomly(now, n, p);
        Recorded(PacketDropped(p.id, n, Random));
      } else if luck.roll < failures.lossRatio + failures.duplicationRatio {
        EnqueueOutbound(n, p);
        var twin := p.(id := luck.freshId, duplicate := true);
        EnqueueDuplicate(n, twin);
      } else {
        EnqueueOutbound(n, p);
      }
    }

    lemma InfoOf(n: NodeId)
      requires Distinct() && n in nodes
      ensures n in topology.nodes && nodes[n].info == topology.nodes[n]
    {
    }

    /** `forward` */
    method Forward(n: NodeId, p: Packet, luck: Luck)
      requires Distinct() && n in nodes && n in topology.nodes
      modifies this, nodes[n], nodes[n].buffer, nodes[n].inbox, tracer
      ensures handled == old(handled) && handledHow == old(handledHow)
      ensures View() == Network.Forward(topology, old(View()), n, p, luck)
    {
      hide NodeStates, LinkStates, NetworkLink.State, Network.Store, Network.Deliver, Distinct;
      InfoOf(n);
      NodeView(n);
      if nodes[n].status.Down? {
        tracer.TrackDroppedOnArrival(now, n, p);
        Recorded(ArrivalRecord(n, p, true));
        return;
      }
      tracer.TrackPacketInNode(now, n, p);
      Recorded(ArrivalRecord(n, p, false));
      if nodes[n].info.canonical == p.dest {
        Deliver(n, p);
        return;
      }
      var hop := p.(ttl := if p.ttl == 0 then 0 else p.ttl - 1);
      if hop.ttl == 0 {
        label expired:
        tracer.TrackDroppedZeroTtl(now, n, hop);
        Recorded@expired(PacketDropped(p.id, n, ZeroTtl));
        return;
      }
      Store(n, hop, luck);
    }

    /** `send_udp`: an application sends something. */
    method SendUdp(n: NodeId, id: PacketId, d: Datagram, luck: Luck)
      requires Valid() && n in nodes && n in topology.nodes
      modifies this, nodes[n], nodes[n].buffer, nodes[n].inbox, tracer
      ensures View() == Inject(topology, old(View()), n, id, d, luck)
      ensures handled == old(handled) && handledHow == old(handledHow)
    {
      hide NodeStates, LinkStates, Node.State, NetworkLink.State, Network.Forward, Sound, Distinct;
      var p := Packet(id, nextNumber, d.payload, d.dest, d.port, d.ttl, false);
      nextNumber := nextNumber + 1;
      ids := ids + {id};
      Forward(n, p, luck);
    }

    // ---- Leaving a node -----------------------------------------------------------------------

    /** Only what link `l` is working on changes. */
    method SetTask(l: LinkId, task: LinkTask)
      requires Distinct() && l in links
      modifies links[l]
      ensures View() == WithTask(old(View()), l, task)
    {
      hide NodeStates, LinkStates, Node.State;
      links[l].task := task;
      LinkChanged(l);
    }

    method Push(l: LinkId, copy: Outgoing)
      requires Distinct() && l in links
      modifies links[l]
      ensures View() == old(View()).SetLink(l, old(View()).links[l].(queue := old(View()).links[l].queue + [copy]))
    {
      hide NodeStates, LinkStates, Node.State;
      links[l].queue := links[l].queue + [copy];
      LinkChanged(l);
    }

    method PopOutbound(n: NodeId) returns (ticket: nat)
      requires Distinct() && n in nodes && nodes[n].outbound != []
      modifies nodes[n]
      ensures ticket == old(nodes[n].outbound)[0]
      ensures View() == old(View()).SetNode(n, old(View()).nodes[n].(outbound := old(View()).nodes[n].outbound[1..]))
    {
      hide NodeStates, LinkStates, NetworkLink.State;
      ticket := nodes[n].outbound[0];
      nodes[n].outbound := nodes[n].outbound[1..];
      NodeChanged(n);
    }

    lemma CanDispatchFacts(n: NodeId, rolls: seq<real>)
      requires Distinct() && CanDispatch(topology, View(), n, rolls)
      ensures n in nodes && nodes[n].outbound != [] && nodes[n].outbound[0] < |accepted| && n in topology.nodes
      ensures topology.Valid() && nodes[n].outbound == View().nodes[n].outbound
      ensures var c := topology.Candidates(n, accepted[nodes[n].outbound[0]].packet.dest);
              && c == LinksTowards(nodes[n].info.routes, topology.linkAt, accepted[nodes[n].outbound[0]].packet.dest)
              && c.Ok? && c.value != [] && |rolls| == |c.value|
              && forall i :: 0 <= i < |c.value| ==>
                   c.value[i] in links && c.value[i] in View().links && c.value[i] in topology.links
    {
      hide Topology.Valid, LinkSound;
      NodeView(n);
    }

    /** One round of `process_buffer_for_node`: the packet is offered to all links that lead to its destination. */
    method OfferToLinks(n: NodeId, rolls: seq<real>)
      requires Distinct() && CanDispatch(topology, View(), n, rolls)
      modifies nodes[n], links.Values
      ensures View() == Dispatch(topology, old(View()), n, rolls)
    {
      hide NodeStates, LinkStates, Node.State, NetworkLink.State, Sound, Topology.Valid;
      CanDispatchFacts(n, rolls);
      ghost var before := View();
      var ticket := PopOutbound(n);
      var dest := accepted[ticket].packet.dest;
      var found := HasRouteTo(nodes[n].info.routes, topology.linkAt, dest);
      assert found == Ok(true);
      var collected := CollectLinks(nodes[n].info.routes, topology.linkAt, dest);
      var candidates := collected.value;
      ghost var popped := View();
      for k := 0 to |candidates|
        invariant View() == popped.(links := LinkStates(links)) && LinkStates(links).Keys == popped.links.Keys
        invariant Offer(topology, LinkStates(links), ticket, candidates, k, rolls)
               == Offer(topology, popped.links, ticket, candidates, 0, rolls)
      {
        var l := candidates[k];
        var info := topology.links[l];
        var extra := if rolls[k] < info.extraDelayRatio then info.extraDelay else 0.0;
        Push(l, Outgoing(ticket, extra, candidates));
      }
    }

    lemma LinkFacts(l: LinkId)
      requires Distinct() && Sound(topology, View()) && l in links
      ensures topology.Valid() && l in topology.links && l in View().links && View().links[l] == links[l].State()
      ensures links[l].pacer.Valid() && links[l].pacer.bandwidth == topology.links[l].bandwidth
      ensures links[l].pacer.Current().created <= now
      ensures links[l].pacer.Current() == View().links[l].batch
      ensures forall i :: 0 <= i < |links[l].queue| ==> links[l].queue[i].ticket < |accepted|
      ensures links[l].task.Busy? ==> links[l].task.packet.ticket < |accepted|
    {
      hide NodeSound;
      LinkView(l);
      assert LinkSound(View().links[l], |accepted|, now);
    }

    /**
     A link's task takes a packet from its queue. If there is no bandwidth for it, it
     waits: the wait starts by asking again, and the answer is the same.
     */
    method TakePacket(l: LinkId)
      requires Distinct() && Sound(topology, View()) && l in links && links[l].task.Idle? && links[l].queue != []
      requires l in View().links && View().links[l].task.Idle? && View().links[l].queue != []
      modifies links[l], links[l].pacer
      ensures View() == Take(topology, old(View()), l)
    {
      hide NodeStates, LinkStates, Node.State, Sound, Topology.Valid, PacketDelay;
      LinkFacts(l);
      var copy := links[l].queue[0];
      var size := accepted[copy.ticket].packet.Size();
      links[l].queue := links[l].queue[1..];
      var available := links[l].HasBandwidthAvailable(size, now);
      if available {
        links[l].task := Busy(copy, Offering);
      } else {
        var stillAvailable := links[l].HasBandwidthAvailable(size, now);
        assert !stillAvailable;
        var wait := links[l].pacer.DurationUntilCanSend(now, size);
        links[l].task := Busy(copy, Sleeping(now + wait));
      }
      LinkChanged(l);
    }

    /** The wait is over: the packet was handled elsewhere, or there is bandwidth and the link is up. */
    method Wake(l: LinkId)
      requires Valid() && l in links && CanWake(topology, View(), l)
      modifies links[l]
      ensures View() == WithTask(old(View()), l, Busy(old(View()).links[l].task.packet, Offering))
    {
      hide NodeStates, LinkStates, Node.State;
      LinkView(l);
      SetTask(l, Busy(links[l].task.packet, Offering));
    }

    method YieldTo(l: LinkId)
      requires Distinct() && l in links && InOffering(View(), l) && MustYield(View(), l)
      modifies links[l]
      ensures View() == GiveWay(old(View()), l)
    {
      hide NodeStates, LinkStates, Node.State;
      LinkView(l);
      var copy := links[l].task.packet;
      SetTask(l, Busy(copy.(preferred := copy.preferred[1..]), Offering));
    }

    /** The flag that all the copies of a packet share is set. */
    method SetHandled(ticket: nat, ghost how: Handling)
      modifies this`handled, this`handledHow
      ensures View() == Mark(old(View()), ticket, how)
      ensures handled == old(handled) + {ticket}
    {
      hide NodeStates, LinkStates;
      handled := handled + {ticket};
      handledHow := handledHow[ticket := how];
      NothingChanged();
    }

    method ReleaseCapacity(n: NodeId, size: nat)
      requires Distinct() && n in nodes
      modifies nodes[n].buffer
      ensures View() == Release(old(View()), n, size)
    {
      hide NodeStates, LinkStates, NetworkLink.State;
      nodes[n].buffer.Release(size);
      NodeChanged(n);
    }

    method SendOver(l: LinkId, p: Packet, extraDelay: Duration)
      requires Distinct() && l in links && links[l].status.Up? && links[l].pacer.Valid()
      requires links[l].pacer.Current().created <= now
      requires links[l].pacer.Current().CanSend(now, PacketDelay(links[l].pacer.bandwidth, p.Size()))
      requires l in View().links && View().links[l].batch.created <= now
      modifies links[l], links[l].pacer, links[l].inTransit
      ensures View() == PutOn(old(View()), l, InTransit(p, now, old(View()).links[l].delay + extraDelay),
                              PacketDelay(links[l].pacer.bandwidth, p.Size()))
    {
      hide NodeStates, LinkStates, Node.State, PacketDelay, Batch.Add;
      links[l].Send(p, extraDelay, now);
      links[l].task := Idle;
      LinkChanged(l);
    }

    lemma TicketFacts(k: nat)
      requires Distinct() && Sound(topology, View()) && k < |accepted|
      ensures accepted[k].node in nodes && accepted[k].node in View().nodes
      ensures View().nodes[accepted[k].node] == nodes[accepted[k].node].State()
    {
      hide LinkSound, NodeSound, Topology.Valid;
      NodeView(accepted[k].node);
    }

    lemma RecordThenRelease(s: Net, n: NodeId, size: nat, kind: StepKind)
      requires n in s.nodes
      ensures Release(s.Record(kind), n, size) == Release(s, n, size).Record(kind)
    {
    }

    /** A packet leaves the buffer of its node for link `l`. */
    method LeaveBuffer(l: LinkId, ticket: nat)
      requires Distinct() && l in carried && ticket < |accepted| && accepted[ticket].node in nodes
      requires accepted[ticket].node in View().nodes
      modifies this`handled, this`handledHow, this`carried, tracer, nodes[accepted[ticket].node].buffer
      ensures View() == Unbuffer(old(View()), l, ticket)
                        .Record(PacketInTransit(accepted[ticket].packet.id, accepted[ticket].node, l))
      ensures handled == old(handled) + {ticket}
    {
      hide NodeStates, LinkStates, Node.State, NetworkLink.State, Distinct, Release;
      var b := accepted[ticket];
      ghost var before := View();
      SetHandled(ticket, SentOver(l));
      carried := carried[l := carried[l] + [Carried(ticket, now)]];
      assert View() == Carry(Mark(before, ticket, SentOver(l)), l, ticket) by { NothingChanged(); }
      RecordThenRelease(View(), b.node, b.packet.Size(), PacketInTransit(b.packet.id, b.node, l));
      label carried:
      tracer.TrackPacketInTransit(now, b.node, l, b.packet);
      Recorded@carried(PacketInTransit(b.packet.id, b.node, l));
      ReleaseCapacity(b.node, b.packet.Size());
    }

    lemma ViewFacts()
      ensures View().now == now && View().accepted == accepted && View().carried == carried
    {
    }

    /** `send` */
    method Transmit(l: LinkId, copy: Outgoing)
      requires Distinct() && Sound(topology, View()) && topology.Valid() && l in topology.links
      requires l in links && links[l].task.Busy? && links[l].task.packet == copy
      requires l in View().links && InOffering(View(), l) && View().links[l] == links[l].State()
      requires copy.ticket < |accepted| && accepted[copy.ticket].node in nodes && links[l].status.Up?
      requires links[l].pacer.Valid() && links[l].pacer.bandwidth == topology.links[l].bandwidth
      requires links[l].pacer.Current().created <= now
      requires links[l].pacer.Current().CanSend(now, PacketDelay(links[l].pacer.bandwidth, accepted[copy.ticket].packet.Size()))
      modifies this`handled, this`handledHow, this`carried, tracer, nodes[accepted[copy.ticket].node].buffer
      modifies links[l], links[l].pacer, links[l].inTransit
      ensures View() == Network.Transmit(topology, old(View()), l)
      ensures handled == old(handled) + {copy.ticket}
    {
      hide NodeStates, LinkStates, Node.State, Sound, Topology.Valid, PacketDelay, Distinct, Unbuffer, PutOn,
           Network.Transmit, Topology.TransmissionTime, Batch.CanSend, View;
      ViewFacts();
      TicketFacts(copy.ticket);
      CarriedFacts(l);
      TransmitIs(topology, View(), l, copy);
      var b := accepted[copy.ticket];
      LeaveBuffer(l, copy.ticket);
      assert View().links == old(View()).links;
      SendOver(l, b.packet, copy.extraDelay);
    }

    lemma TransmitIs(t: Topology, s: Net, l: LinkId, copy: Outgoing)
      requires Sound(t, s) && t.Valid() && InOffering(s, l) && s.links[l].task.packet == copy && l in t.links
      requires l in s.carried && copy.ticket < |s.accepted| && s.accepted[copy.ticket].node in s.nodes
      requires s.links[l].batch.created <= s.now && t.links[l].bandwidth > 0
      ensures var b := s.accepted[copy.ticket];
              Network.Transmit(t, s, l)
              == PutOn(Unbuffer(s, l, copy.ticket).Record(PacketInTransit(b.packet.id, b.node, l)), l,
                       InTransit(b.packet, s.now, s.links[l].delay + copy.extraDelay),
                       PacketDelay(t.links[l].bandwidth, b.packet.Size()))
    {
      hide Sound, Topology.Valid, Unbuffer, PutOn, PacketDelay;
      HasBandwidth(t);
    }

    lemma CarriedFacts(l: LinkId)
      requires Sound(topology, View()) && l in View().links
      ensures l in carried
    {
      hide LinkSound, NodeSound, Topology.Valid;
    }

    method DropCleared(l: LinkId, ticket: nat)
      requires Distinct() && Sound(topology, View()) && l in links && links[l].task.Busy?
      requires InOffering(View(), l) && View().links[l].task.packet.ticket == ticket && ticket < |accepted|
      modifies this`handled, this`handledHow, tracer, links[l]
      ensures View() == Network.DropCleared(topology, old(View()), l)
      ensures handled == old(handled) + {ticket}
    {
      hide NodeStates, LinkStates, Node.State, NetworkLink.State, Sound, Distinct, WithTask;
      var b := accepted[ticket];
      SetHandled(ticket, ClearDropped);
      SetTask(l, Idle);
      label dropped:
      tracer.TrackDroppedByBufferClear(now, b.node, b.packet);
      Recorded@dropped(PacketDropped(b.packet.id, b.node, BufferCleared));
    }

    /** What the program asserts when a link sends: the pacer has room, and the link is up. */
    ghost predicate ReadyToSend(l: LinkId)
      requires l in links
      reads this, links[l], links[l].pacer
    {
      && links[l].task.Busy? && links[l].task.packet.ticket < |accepted|
      && links[l].status.Up? && links[l].pacer.Valid() && links[l].pacer.Current().created <= now
      && links[l].pacer.Current().CanSend(
           now, PacketDelay(links[l].pacer.bandwidth, accepted[links[l].task.packet.ticket].packet.Size()))
    }

    /** The end of a round of a link's task: the packet is sent, or dropped, or left to the link that handled it. */
    method FinishRound(l: LinkId)
      requires Valid() && l in links && InOffering(View(), l) && links[l].task.Busy?
      requires links[l].task.packet.ticket < |accepted|
      requires links[l].task.packet.ticket in handled
               || (accepted[links[l].task.packet.ticket].node in View().nodes
                   && ClearedFromBuffer(View(), links[l].task.packet.ticket))
               || ReadyToSend(l)
      modifies Repr()
      ensures View() == Finish(topology, old(View()), l)
      ensures handled == handledHow.Keys
    {
      hide NodeStates, LinkStates, Sound, Distinct, WithTask, Network.DropCleared, Network.Transmit, PacketDelay,
           Batch.CanSend;
      LinkFacts(l);
      ghost var before := View();
      var copy := links[l].task.packet;
      if copy.ticket in handled {
        SetTask(l, Idle);
        return;
      }
      TicketFacts(copy.ticket);
      var b := accepted[copy.ticket];
      var lastClear := nodes[b.node].lastBufferClear;
      if lastClear.Some? && b.since < lastClear.value {
        DropCleared(l, copy.ticket);
        DropMarks(topology, before, l);
      } else {
        Transmit(l, copy);
        TransmitMarks(topology, before, l);
      }
    }

    lemma DropMarks(t: Topology, s: Net, l: LinkId)
      requires Sound(t, s) && InOffering(s, l) && s.links[l].task.packet.ticket < |s.accepted|
      ensures Network.DropCleared(t, s, l).handled.Keys == s.handled.Keys + {s.links[l].task.packet.ticket}
    {
      hide Sound;
    }

    lemma TransmitMarks(t: Topology, s: Net, l: LinkId)
      requires Sound(t, s) && InOffering(s, l) && s.links[l].task.packet.ticket < |s.accepted|
      ensures Network.Transmit(t, s, l).handled.Keys == s.handled.Keys + {s.links[l].task.packet.ticket}
    {
      hide NodeSound, Topology.Valid, Topology.TransmissionTime, Batch.Add;
    }

    // ---- Arriving at the end of a link --------------------------------------------------------

    method TakeFromLink(l: LinkId, x: InTransit)
      requires Distinct() && l in links && IsTop(links[l].inTransit.heap, x)
      modifies links[l].inTransit
      ensures View() == TakeOff(old(View()), l, x)
    {
      hide NodeStates, LinkStates, Node.State, IsTop;
      links[l].inTransit.Pop(x);
      LinkChanged(l);
    }

    lemma TargetFacts(l: LinkId)
      requires Distinct() && Sound(topology, View()) && l in links
      ensures topology.Valid() && l in topology.links && l in View().links && View().links[l] == links[l].State()
      ensures topology.Target(l) in nodes && topology.Target(l) in topology.nodes
    {
      hide NodeSound, LinkSound;
      LinkView(l);
    }

    /** A packet that the link delivered: it was lost, or it goes on from the node at the end of the link. */
    method ForwardDelivered(l: LinkId, x: InTransit, luck: Luck)
      requires Distinct() && l in links && topology.Valid() && l in topology.links && topology.Target(l) in nodes
      requires topology.Target(l) in topology.nodes
      modifies this, tracer
      modifies nodes[topology.Target(l)], nodes[topology.Target(l)].buffer, nodes[topology.Target(l)].inbox
      ensures l in old(View()).links && topology.Target(l) in old(View()).nodes
      ensures View() == Delivered(topology, old(View()), l, x, luck)
      ensures handled == old(handled) && handledHow == old(handledHow)
    {
      hide NodeStates, LinkStates, Node.State, Topology.Valid, Distinct, Network.Forward, View;
      LinkView(l);
      NodeView(topology.Target(l));
      if links[l].WasDownAfter(x.sent) {
        tracer.TrackLostInTransit(now, l, x.packet);
        Recorded(StepKind.PacketLostInTransit(x.packet.id, l));
      } else {
        Forward(topology.Target(l), x.packet, luck);
      }
    }

    /** The next packet that the link delivers is taken out of its queue and forwarded. */
    method ForwardFromLink(l: LinkId, x: InTransit, luck: Luck)
      requires Valid() && l in links && l in View().links && IsNext(View().links[l].inTransit, x, now)
      modifies Repr()
      ensures View() == Land(topology, old(View()), l, x, luck)
      ensures handled == old(handled) && handledHow == old(handledHow)
    {
      hide NodeStates, LinkStates, Node.State, Sound, Topology.Valid, Distinct, Network.Forward, TakeOff, View, IsNext,
           IsTop;
      TargetFacts(l);
      NextIsTop(links[l].inTransit.heap, x, now);
      LandDelivers(topology, View(), l, x, luck);
      TakeFromLink(l, x);
      ForwardDelivered(l, x, luck);
    }

    // ---- Applications, events and the clock ---------------------------------------------------

    /** An application reads a packet. */
    method ReadPacket(n: NodeId, x: InTransit)
      requires Distinct() && n in nodes
      modifies nodes[n].inbox, tracer
      ensures View() == Read(old(View()), n, x)
    {
      hide NodeStates, LinkStates, NetworkLink.State;
      nodes[n].inbox.heap := nodes[n].inbox.heap - multiset{x};
      NodeChanged(n);
      label read:
      tracer.TrackReadByApplication(now, n, x.packet);
      Recorded@read(PacketDeliveredToApplication(x.packet.id, x.packet.number, x.packet.Size(), n));
    }

    method ProcessLinkEvent(e: LinkEvent)
      requires Distinct()
      modifies Repr()
      ensures View() == LinkChange(old(View()), e) && handled == old(handled) && handledHow == old(handledHow)
    {
      hide NodeStates, LinkStates, Node.State, ChangedLink;
      if e.link !in links {
        assert e.link !in View().links by { LinkKeys(); }
        return;
      }
      LinkView(e.link);
      links[e.link].HandleEvent(e, now);
      LinkChanged(e.link);
      label changed:
      tracer.TrackLinkEvent(now, e);
      Recorded@changed(StepKind.NetworkEvent(Some(e), None));
    }

    method ProcessNodeEvent(e: NodeEvent)
      requires Distinct()
      modifies Repr()
      ensures View() == NodeChange(old(View()), e) && handled == old(handled) && handledHow == old(handledHow)
    {
      hide NodeStates, LinkStates, NetworkLink.State, ChangedNode;
      if e.node !in nodes {
        assert e.node !in View().nodes by { LinkKeys(); }
        return;
      }
      NodeView(e.node);
      nodes[e.node].HandleEvent(e, now);
      NodeChanged(e.node);
      label changed:
      tracer.TrackNodeEvent(now, e);
      Recorded@changed(StepKind.NetworkEvent(None, Some(e)));
    }

    lemma LinkKeys()
      ensures View().links.Keys == links.Keys && View().nodes.Keys == nodes.Keys
    {
    }

    method PassTime(until: Duration)
      requires now <= until
      modifies this`now
      ensures View() == old(View()).(now := until)
    {
      hide NodeStates, LinkStates;
      now := until;
      NothingChanged();
    }
  }

  /** What becomes of a packet that was taken off the link. */
  function Delivered(t: Topology, s: Net, l: LinkId, x: InTransit, luck: Luck): Net
    requires t.Valid() && l in t.links && l in s.links && t.Target(l) in s.nodes
  {
    if Network.WasDownAfter(s.links[l], x.sent) then s.Record(StepKind.PacketLostInTransit(x.packet.id, l))
    else Network.Forward(t, s, t.Target(l), x.packet, luck)
  }

  lemma LandDelivers(t: Topology, s: Net, l: LinkId, x: InTransit, luck: Luck)
    requires Sound(t, s) && l in s.links
    ensures t.Valid() && l in t.links && t.Target(l) in s.nodes
    ensures Land(t, s, l, x, luck) == Delivered(t, TakeOff(s, l, x), l, x, luck)
  {
    hide Topology.Valid, NodeSound, LinkSound, Network.Forward;
  }

  lemma NextIsTop(heap: multiset<InTransit>, x: InTransit, now: Duration)
    requires IsNext(heap, x, now)
    ensures IsTop(heap, x)
  {
    forall y | y in heap
      ensures Compare(x, y) != Less
    {
      CompareIsAnOrder(x, y, y);
    }
  }

  /** How node `n` of the topology starts out. */
  ghost predicate StartsAs(topology: Topology, n: NodeId, node: Node)
    reads node, node.buffer, node.inbox
  {
    && n in topology.nodes && node.id == n && node.info == topology.nodes[n]
    && node.State() == NodeState(Up, None, topology.nodes[n].bufferSize, [], multiset{})
  }

  ghost predicate StartsAsLink(topology: Topology, l: LinkId, link: NetworkLink)
    reads link, link.pacer, link.inTransit
  {
    && l in topology.links && link.id == l && link.pacer.bandwidth == topology.links[l].bandwidth
    && link.State() == LinkState(Up, None, topology.links[l].delay, Batch(0.0, 0.0), [], Idle, multiset{})
  }

  lemma InitialNodes(topology: Topology, nodes: map<NodeId, Node>)
    requires nodes.Keys == topology.nodes.Keys && forall n :: n in nodes ==> StartsAs(topology, n, nodes[n])
    ensures NodeStates(nodes) == Initial(topology).nodes
  {
  }

  lemma InitialLinks(topology: Topology, links: map<LinkId, NetworkLink>)
    requires links.Keys == topology.links.Keys && forall l :: l in links ==> StartsAsLink(topology, l, links[l])
    ensures LinkStates(links) == Initial(topology).links
  {
  }

  twostate lemma PartsAreFresh(new network: InMemoryNetwork)
    requires fresh(network) && fresh(network.tracer)
    requires forall n :: n in network.nodes ==>
               fresh(network.nodes[n]) && fresh(network.nodes[n].buffer) && fresh(network.nodes[n].inbox)
    requires forall l :: l in network.links ==>
               fresh(network.links[l]) && fresh(network.links[l].pacer) && fresh(network.links[l].inTransit)
    ensures fresh(network.Repr())
  {
  }

  method NewNodes(topology: Topology) returns (nodes: map<NodeId, Node>)
    ensures nodes.Keys == topology.nodes.Keys && ApartNodes(nodes)
    ensures forall n :: n in nodes ==> fresh(nodes[n]) && fresh(nodes[n].buffer) && fresh(nodes[n].inbox)
    ensures forall n :: n in nodes ==> StartsAs(topology, n, nodes[n])
  {
    hide StartsAs;
    nodes := map[];
    var left := topology.nodes.Keys;
    while left != {}
      invariant nodes.Keys == topology.nodes.Keys - left && left <= topology.nodes.Keys
      invariant forall n :: n in nodes ==> fresh(nodes[n]) && fresh(nodes[n].buffer) && fresh(nodes[n].inbox)
      invariant forall n :: n in nodes ==> StartsAs(topology, n, nodes[n])
      invariant ApartNodes(nodes)
      decreases |left|
    {
      var n :| n in left;
      var node := NewNode(topology, n);
      nodes := nodes[n := node];
      left := left - {n};
    }
  }

  method NewLink(topology: Topology, l: LinkId) returns (link: NetworkLink)
    requires l in topology.links && topology.links[l].bandwidth > 0
    ensures fresh(link) && fresh(link.pacer) && fresh(link.inTransit) && StartsAsLink(topology, l, link)
  {
    link := new NetworkLink(l, topology.links[l], 0.0);
  }

  method NewNode(topology: Topology, n: NodeId) returns (node: Node)
    requires n in topology.nodes
    ensures fresh(node) && fresh(node.buffer) && fresh(node.inbox) && StartsAs(topology, n, node)
  {
    node := new Node(n, topology.nodes[n]);
  }

  method NewLinks(topology: Topology) returns (links: map<LinkId, NetworkLink>)
    requires forall l :: l in topology.links ==> topology.links[l].bandwidth > 0
    ensures links.Keys == topology.links.Keys && ApartLinks(links)
    ensures forall l :: l in links ==> fresh(links[l]) && fresh(links[l].pacer) && fresh(links[l].inTransit)
    ensures forall l :: l in links ==> StartsAsLink(topology, l, links[l])
  {
    hide StartsAsLink;
    links := map[];
    var left := topology.links.Keys;
    while left != {}
      invariant links.Keys == topology.links.Keys - left && left <= topology.links.Keys
      invariant forall l :: l in links ==> fresh(links[l]) && fresh(links[l].pacer) && fresh(links[l].inTransit)
      invariant forall l :: l in links ==> StartsAsLink(topology, l, links[l])
      invariant ApartLinks(links)
      decreases |left|
    {
      var l :| l in left;
      var link := NewLink(topology, l);
      links := links[l := link];
      left := left - {l};
    }
  }
}
