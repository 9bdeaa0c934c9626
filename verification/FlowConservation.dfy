/** No packet is lost from the verifier's books: what was sent was received, lost, or is still in flight. */
module FlowConservation {
  import opened Prelude
  import opened Sums
  import opened Trace
  import opened ReplayedNode
  import opened ReplayedLink
  import opened Replay

  ghost function SentPackets(nodes: map<NodeId, RNode>): nat {
    Sum(nodes.Keys, n => if n in nodes then nodes[n].counts.sent.packets else 0)
  }

  ghost function ReceivedPackets(nodes: map<NodeId, RNode>): nat {
    Sum(nodes.Keys, n => if n in nodes then nodes[n].counts.received.packets else 0)
  }

  ghost function LostPackets(lost: map<LinkId, PacketStats>): nat {
    Sum(lost.Keys, l => if l in lost then lost[l].packets else 0)
  }

  /** The verifier sees a packet being sent that is in flight already. */
  predicate IsResend(v: VState, kind: StepKind) {
    kind.PacketInTransit? && kind.id in v.inFlight
  }

  function Resends(m: Metadata, log: seq<Step>): nat
    requires m.Valid() && InOrder(log)
  {
    if log == [] then 0
    else
      match ReplayLog(m, log[..|log| - 1])
      case Fails(_, _) => 0
      case Continues(v) =>
        Resends(m, log[..|log| - 1]) + if IsResend(v, log[|log| - 1].kind) then 1 else 0
  }

  /** What was sent is accounted for, but for `resends` packets that were sent again while in flight. */
  ghost predicate Balanced(v: VState, resends: nat) {
    SentPackets(v.nodes) == ReceivedPackets(v.nodes) + LostPackets(v.lost) + |v.inFlight| + resends
  }

  // ---- One object changes ---------------------------------------------------------------------

  lemma CountsChange(nodes: map<NodeId, RNode>, n: NodeId, node: RNode)
    requires n in nodes
    ensures SentPackets(nodes[n := node]) + nodes[n].counts.sent.packets
         == SentPackets(nodes) + node.counts.sent.packets
    ensures ReceivedPackets(nodes[n := node]) + nodes[n].counts.received.packets
         == ReceivedPackets(nodes) + node.counts.received.packets
  {
    var nodes' := nodes[n := node];
    assert nodes'.Keys == nodes.Keys;
    SumChange(nodes.Keys, n, i => if i in nodes then nodes[i].counts.sent.packets else 0,
              i => if i in nodes' then nodes'[i].counts.sent.packets else 0);
    SumChange(nodes.Keys, n, i => if i in nodes then nodes[i].counts.received.packets else 0,
              i => if i in nodes' then nodes'[i].counts.received.packets else 0);
  }

  lemma OneMoreLost(lost: map<LinkId, PacketStats>, l: LinkId, size: nat)
    ensures LostPackets(lost[l := Lost(lost, l).TrackOne(size)]) == LostPackets(lost) + 1
  {
    var lost' := lost[l := Lost(lost, l).TrackOne(size)];
    if l in lost {
      assert lost'.Keys == lost.Keys;
      SumChange(lost.Keys, l, i => if i in lost then lost[i].packets else 0, i => if i in lost' then lost'[i].packets else 0);
    } else {
      assert lost'.Keys == lost.Keys + {l};
      SumWith(lost.Keys, l, i => if i in lost' then lost'[i].packets else 0);
      SumSame(lost.Keys, i => if i in lost then lost[i].packets else 0, i => if i in lost' then lost'[i].packets else 0);
    }
  }

  lemma OneFewer(inFlight: map<PacketId, InFlightPacket>, id: PacketId)
    requires id in inFlight
    ensures |inFlight - {id}| + 1 == |inFlight|
  {
    assert (inFlight - {id}).Keys == inFlight.Keys - {id};
    assert |inFlight.Keys| == |inFlight| && |(inFlight - {id}).Keys| == |inFlight - {id}|;
  }

  lemma OneMore(inFlight: map<PacketId, InFlightPacket>, id: PacketId, f: InFlightPacket)
    ensures |inFlight[id := f]| == |inFlight| + if id in inFlight then 0 else 1
  {
    assert inFlight[id := f].Keys == inFlight.Keys + {id};
    assert |inFlight.Keys| == |inFlight| && |inFlight[id := f].Keys| == |inFlight[id := f]|;
  }

  lemma SameCounts(nodes: map<NodeId, RNode>, nodes': map<NodeId, RNode>)
    requires nodes'.Keys == nodes.Keys
    requires forall n :: n in nodes ==> nodes'[n].counts.sent == nodes[n].counts.sent
                                        && nodes'[n].counts.received == nodes[n].counts.received
    ensures SentPackets(nodes') == SentPackets(nodes) && ReceivedPackets(nodes') == ReceivedPackets(nodes)
  {
    SumSame(nodes.Keys, n => if n in nodes then nodes[n].counts.sent.packets else 0,
            n => if n in nodes' then nodes'[n].counts.sent.packets else 0);
    SumSame(nodes.Keys, n => if n in nodes then nodes[n].counts.received.packets else 0,
            n => if n in nodes' then nodes'[n].counts.received.packets else 0);
  }

  // ---- One step -------------------------------------------------------------------------------

  /** Sending and receiving are booked where they happen, and only there. */
  ghost predicate Books(before: RNode, after: RNode, sent: nat, received: nat) {
    && after.counts.sent.packets == before.counts.sent.packets + sent
    && after.counts.received.packets == before.counts.received.packets + received
  }

  lemma BalancedAfterNode(v: VState, n: NodeId, node: RNode, es: seq<NonFatalError>, resends: nat)
    requires Balanced(v, resends) && n in v.nodes && Books(v.nodes[n], node, 0, 0)
    ensures Balanced(v.(nodes := v.nodes[n := node]).Track(es), resends)
  {
    hide SentPackets, ReceivedPackets, LostPackets;
    CountsChange(v.nodes, n, node);
  }

  lemma BalancedAfterArrival(m: Metadata, v: VState, now: Duration, id: PacketId, number: nat, size: nat, n: NodeId,
                             dropped: bool, resends: nat)
    requires v.Valid(m) && v.lastStep == now && Balanced(v, resends)
    requires OnPacketInNode(m, v, now, id, number, size, n, dropped).Continues?
    ensures Balanced(OnPacketInNode(m, v, now, id, number, size, n, dropped).v, resends)
  {
    hide SentPackets, ReceivedPackets, LostPackets, ReceiveErrors, VState.Valid, RNode.PacketReceived, RNode.AddPacket;
    var v' := OnPacketInNode(m, v, now, id, number, size, n, dropped).v;
    CountsChange(v.nodes, n, v'.nodes[n]);
    if id in v.inFlight {
      OneFewer(v.inFlight, id);
      assert Books(v.nodes[n], v'.nodes[n], 0, 1) by { ReceivingBooks(v.nodes[n], id, number, size, dropped, now); }
    } else {
      assert Books(v.nodes[n], v'.nodes[n], 0, 0) by { EnteringBooks(v.nodes[n], id, size, now); }
    }
  }

  lemma ReceivingBooks(node: RNode, id: PacketId, number: nat, size: nat, dropped: bool, now: Duration)
    ensures var o := node.PacketReceived(id, number, size, dropped, now); o.Done? ==> Books(node, o.state, 0, 1)
  {
  }

  lemma EnteringBooks(node: RNode, id: PacketId, size: nat, now: Duration)
    ensures var o := node.AddPacket(id, size, now); o.Done? ==> Books(node, o.state, 0, 0)
  {
  }

  lemma BalancedAfterDeparture(m: Metadata, v: VState, now: Duration, id: PacketId, n: NodeId, l: LinkId, resends: nat)
    requires v.Valid(m) && v.lastStep == now && Balanced(v, resends)
    requires OnPacketInTransit(m, v, now, id, n, l).Continues?
    ensures Balanced(OnPacketInTransit(m, v, now, id, n, l).v, resends + if id in v.inFlight then 1 else 0)
  {
    hide SentPackets, ReceivedPackets, LostPackets, SendErrors, RLink.PacketSent, WindowSeconds;
    var v' := OnPacketInTransit(m, v, now, id, n, l).v;
    CountsChange(v.nodes, n, v'.nodes[n]);
    OneMore(v.inFlight, id, v'.inFlight[id]);
  }

  lemma BalancedAfterLoss(m: Metadata, v: VState, now: Duration, id: PacketId, l: LinkId, resends: nat)
    requires v.Valid(m) && v.lastStep == now && Balanced(v, resends)
    ensures Balanced(OnPacketLostInTransit(m, v, now, id, l).v, resends)
  {
    hide SentPackets, ReceivedPackets, LostPackets;
    if id in v.inFlight {
      OneMoreLost(v.lost, l, v.inFlight[id].size);
      OneFewer(v.inFlight, id);
    }
  }

  lemma BalancedAfterDrop(m: Metadata, v: VState, now: Duration, id: PacketId, n: NodeId, reason: DropReason, resends: nat)
    requires v.Valid(m) && v.lastStep == now && Balanced(v, resends)
    requires OnPacketDropped(m, v, now, id, n, reason).Continues?
    ensures Balanced(OnPacketDropped(m, v, now, id, n, reason).v, resends)
  {
    hide Balanced;
    BalancedAfterNode(v, n, OnPacketDropped(m, v, now, id, n, reason).v.nodes[n], [], resends);
  }

  lemma BalancedAfterLinkEvent(m: Metadata, v: VState, now: Duration, e: Option<LinkEvent>, resends: nat)
    requires v.Valid(m) && v.lastStep == now && Balanced(v, resends) && OnLinkEvent(m, v, now, e).Continues?
    ensures Balanced(OnLinkEvent(m, v, now, e).v, resends)
  {
    hide SentPackets, ReceivedPackets, LostPackets, VState.Valid, RLink.SetStatus;
  }

  lemma BalancedAfterNodeEvent(m: Metadata, v: VState, now: Duration, e: Option<NodeEvent>, resends: nat)
    requires v.Valid(m) && v.lastStep == now && Balanced(v, resends) && OnNodeEvent(m, v, now, e).Continues?
    ensures Balanced(OnNodeEvent(m, v, now, e).v, resends)
  {
    hide Balanced, VState.Valid;
    if e.Some? {
      BalancedAfterNode(v, e.value.node, OnNodeEvent(m, v, now, e).v.nodes[e.value.node], [], resends);
    } else {
      assert OnNodeEvent(m, v, now, e).v == v;
    }
  }

  lemma BalancedAfterEvent(m: Metadata, v: VState, now: Duration, kind: StepKind, resends: nat)
    requires v.Valid(m) && v.lastStep == now && Balanced(v, resends) && kind.NetworkEvent?
    requires OnStep(m, v, now, kind).Continues?
    ensures Balanced(OnStep(m, v, now, kind).v, resends)
  {
    hide Balanced, VState.Valid, OnLinkEvent, OnNodeEvent;
    BalancedAfterLinkEvent(m, v, now, kind.linkEvent, resends);
    BalancedAfterNodeEvent(m, OnLinkEvent(m, v, now, kind.linkEvent).v, now, kind.nodeEvent, resends);
  }

  lemma BalancedAfterOperation(v: VState, n: NodeId, o: Outcome<RNode>, resends: nat)
    requires Balanced(v, resends) && n in v.nodes && WithNode(v, n, o).Continues? && Books(v.nodes[n], o.state, 0, 0)
    ensures Balanced(WithNode(v, n, o).v, resends)
  {
    hide Balanced;
    BalancedAfterNode(v, n, o.state, o.errors, resends);
  }

  /** Operations that leave sending and receiving alone. */
  lemma OthersBookNothing(node: RNode, id: PacketId, size: nat, delay: Duration, now: Duration)
    requires node.Valid()
    ensures var o := node.PacketDuplicated(id, size, now); o.Done? ==> Books(node, o.state, 0, 0)
    ensures var o := node.RemovePacket(id); o.Done? ==> Books(node, o.state, 0, 0)
    ensures var o := node.PacketHasExtraDelay(id, delay); o.Done? ==> Books(node, o.state, 0, 0)
    ensures Books(node, node.PacketEcn(size), 0, 0)
  {
    hide RNode.Valid;
  }

  lemma ContinuesIfDone(v: VState, n: NodeId, o: Outcome<RNode>)
    requires WithNode(v, n, o).Continues?
    ensures o.Done?
  {
  }

  /** The other kinds of steps, which leave sending and receiving alone. */
  lemma BalancedAfterRest(m: Metadata, v: VState, now: Duration, kind: StepKind, resends: nat)
    requires v.Valid(m) && v.lastStep == now && Balanced(v, resends)
    requires kind.PacketDuplicated? || kind.PacketCongestionEvent? || kind.PacketDeliveredToApplication?
             || kind.PacketExtraDelay?
    requires OnStep(m, v, now, kind).Continues?
    ensures Balanced(OnStep(m, v, now, kind).v, resends)
  {
    hide Balanced, Books, VState.Valid, WithNode, RNode.PacketDuplicated, RNode.RemovePacket, RNode.PacketHasExtraDelay;
    NodeIsSound(m, v, kind.node);
    var node := v.nodes[kind.node];
    var o := match kind
      case PacketDuplicated(id, _, size, _) => node.PacketDuplicated(id, size, now)
      case PacketDeliveredToApplication(id, _, _, _) => node.RemovePacket(id)
      case PacketExtraDelay(id, _, delay) => node.PacketHasExtraDelay(id, delay)
      case PacketCongestionEvent(_, _, size, _) => Done(node.PacketEcn(size), []);
    ContinuesIfDone(v, kind.node, o);
    OthersBookNothing(node, kind.id, if kind.PacketDuplicated? || kind.PacketCongestionEvent? then kind.size else 0,
                      if kind.PacketExtraDelay? then kind.extraDelay else 0.0, now);
    BalancedAfterOperation(v, kind.node, o, resends);
  }

  lemma BalancedAfterStep(m: Metadata, v: VState, now: Duration, kind: StepKind, resends: nat)
    requires v.Valid(m) && v.lastStep == now && Balanced(v, resends)
    requires OnStep(m, v, now, kind).Continues?
    ensures Balanced(OnStep(m, v, now, kind).v, resends + if IsResend(v, kind) then 1 else 0)
  {
    hide Balanced, VState.Valid, OnPacketInNode, OnPacketInTransit, OnPacketLostInTransit, OnPacketDropped,
         OnPacketDuplicated, OnPacketCongestionEvent, OnPacketDelivered, OnPacketExtraDelay, OnLinkEvent, OnNodeEvent;
    match kind
    case PacketInNode(id, number, size, n, dropped) => BalancedAfterArrival(m, v, now, id, number, size, n, dropped, resends);
    case PacketInTransit(id, n, l) => BalancedAfterDeparture(m, v, now, id, n, l, resends);
    case PacketLostInTransit(id, l) => BalancedAfterLoss(m, v, now, id, l, resends);
    case PacketDropped(id, n, reason) => BalancedAfterDrop(m, v, now, id, n, reason, resends);
    case NetworkEvent(_, _) => BalancedAfterEvent(m, v, now, kind, resends);
    case _ => BalancedAfterRest(m, v, now, kind, resends);
  }

  lemma BalancedAfterUpdate(m: Metadata, v: VState, resends: nat)
    requires v.Valid(m) && Balanced(v, resends)
    ensures Balanced(UpdateMaxBufferUsage(m, v), resends)
  {
    hide SentPackets, ReceivedPackets, LostPackets, VState.Valid, UpdateFrom;
    UpdateKeepsTheRest(m, v, 0);
    SameCounts(v.nodes, UpdateFrom(m, v, 0).nodes);
  }

  lemma BalancedAtFirst(m: Metadata)
    requires m.Valid()
    ensures Balanced(Fresh(m), 0)
  {
    var nodes := Fresh(m).nodes;
    SumZero(nodes.Keys, n => if n in nodes then nodes[n].counts.sent.packets else 0);
    SumZero(nodes.Keys, n => if n in nodes then nodes[n].counts.received.packets else 0);
  }

  lemma {:induction false} BalancedAlways(m: Metadata, log: seq<Step>)
    requires m.Valid() && InOrder(log) && ReplayLog(m, log).Continues?
    ensures Balanced(ReplayLog(m, log).v, Resends(m, log))
  {
    hide Balanced, OnStep, VState.Valid, UpdateMaxBufferUsage, Fresh;
    if log == [] {
      BalancedAtFirst(m);
    } else {
      var init, last := log[..|log| - 1], log[|log| - 1];
      BalancedAlways(m, init);
      var v := ReplayLog(m, init).v;
      BalancedLater(m, v, last.time, Resends(m, init));
      BalancedAfterStep(m, Tick(m, v, last.time), last.time, last.kind, Resends(m, init));
    }
  }

  lemma BalancedLater(m: Metadata, v: VState, now: Duration, resends: nat)
    requires v.Valid(m) && v.lastStep <= now && Balanced(v, resends)
    ensures Tick(m, v, now).Valid(m) && Balanced(Tick(m, v, now), resends) && Tick(m, v, now).inFlight == v.inFlight
  {
    hide VState.Valid, UpdateMaxBufferUsage, SentPackets, ReceivedPackets, LostPackets;
    BalancedAfterUpdate(m, v, resends);
    UpdateKeepsInFlight(m, v);
  }

  lemma UpdateKeepsInFlight(m: Metadata, v: VState)
    requires v.Valid(m)
    ensures UpdateMaxBufferUsage(m, v).inFlight == v.inFlight
  {
    hide VState.Valid, UpdateFrom;
    UpdateKeepsTheRest(m, v, 0);
  }

  /**
   For every log in order that has no fatal error: the packets that nodes sent are those that nodes
   received, those lost in transit and those still in flight, plus one for each time that a packet
   was sent again while it was in flight.
   */
  lemma FlowIsConserved(m: Metadata, log: seq<Step>)
    requires m.Valid() && InOrder(log) && Verify(m, log).Continues?
    ensures var v := Verify(m, log).v;
            SentPackets(v.nodes)
            == ReceivedPackets(v.nodes) + LostPackets(v.lost) + |v.inFlight| + Resends(m, log)
  {
    hide SentPackets, ReceivedPackets, LostPackets, VState.Valid, UpdateMaxBufferUsage, ReplayLog, Resends;
    BalancedAlways(m, log);
    BalancedAfterUpdate(m, ReplayLog(m, log).v, Resends(m, log));
  }
}
