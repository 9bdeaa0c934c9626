/**
 What replaying a log does, step by step (simulation_verifier.rs, `verify`). The class in
 SimulationVerifier.dfy does this in place; here it is a function on values.
 */
module Replay {
  import opened Prelude
  import opened Trace
  import opened ReplayedNode
  import opened ReplayedLink

  datatype LinkMetadata = LinkMetadata(source: NodeId, target: NodeId, delay: Duration, bandwidth: nat)

  /**
   What the verifier knows of the network. `order` is the order in which iterating over the map of
   nodes visits them: arbitrary, but the same throughout, as no node is ever added or removed.
   */
  datatype Metadata = Metadata(bufferSizes: map<NodeId, nat>, links: map<LinkId, LinkMetadata>, order: seq<NodeId>) {
    ghost predicate Valid() {
      && (forall n :: n in bufferSizes <==> n in order)
      && (forall i, j :: 0 <= i < j < |order| ==> order[i] != order[j])
    }
  }

  datatype InFlightPacket = InFlightPacket(size: nat, sentAt: Duration, extraDelay: Duration, link: LinkId)

  datatype VState = VState(
    nodes: map<NodeId, RNode>, links: map<LinkId, RLink>, inFlight: map<PacketId, InFlightPacket>,
    lost: map<LinkId, PacketStats>, errors: seq<NonFatalError>, lastStep: Duration, lastUpdate: Option<Duration>)
  {
    ghost predicate Valid(m: Metadata) {
      && m.Valid()
      && nodes.Keys == m.bufferSizes.Keys
      && links.Keys == m.links.Keys
      && (forall n :: n in nodes ==> nodes[n].Valid() && nodes[n].id == n)
      && (forall l :: l in links ==> links[l].Valid())
      && (forall p :: p in inFlight ==> inFlight[p].link in m.links && inFlight[p].sentAt <= lastStep)
    }

    function Track(es: seq<NonFatalError>): VState {
      this.(errors := errors + es)
    }
  }

  lemma NodeIsSound(m: Metadata, v: VState, n: NodeId)
    requires v.Valid(m) && n in v.nodes
    ensures v.nodes[n].Valid() && v.nodes[n].id == n
  {
    hide RNode.Valid, RLink.Valid;
  }

  lemma FlightIsSound(m: Metadata, v: VState, id: PacketId)
    requires v.Valid(m) && id in v.inFlight
    ensures v.inFlight[id].link in m.links && v.inFlight[id].link in v.links && v.inFlight[id].sentAt <= v.lastStep
  {
    hide RNode.Valid, RLink.Valid;
  }

  datatype Verdict = Continues(v: VState) | Fails(fatal: FatalError, errors: seq<NonFatalError>)

  function Fresh(m: Metadata): VState {
    VState(map n | n in m.bufferSizes :: NewNode(n), map l | l in m.links :: NEW_LINK, map[], map[], [], 0.0, None)
  }

  function Lost(lost: map<LinkId, PacketStats>, l: LinkId): PacketStats {
    if l in lost then lost[l] else NO_PACKETS
  }

  /** Puts back a node after an operation on it. */
  function WithNode(v: VState, n: NodeId, o: Outcome<RNode>): Verdict {
    match o
    case Stop(fatal, es) => Fails(fatal, v.errors + es)
    case Done(node, es) => Continues(v.(nodes := v.nodes[n := node]).Track(es))
  }

  function ReceiveErrors(m: Metadata, v: VState, now: Duration, node: NodeId, f: InFlightPacket): seq<NonFatalError>
    requires f.link in m.links && f.link in v.links && f.sentAt <= now
  {
    var l := m.links[f.link];
    (if node != l.target then [DisconnectedPacketReceive(node, f.link)] else [])
    + (if now - f.sentAt < l.delay + f.extraDelay then [TooFastPacketReceive(node, f.link)] else [])
    + (match v.links[f.link].lastDown
       case Some(down) => if down >= f.sentAt then [OfflinePacketReceive(node, f.link, f.sentAt, down)] else []
       case None => [])
  }

  lemma ValidWithout(m: Metadata, v: VState, id: PacketId, es: seq<NonFatalError>)
    requires v.Valid(m)
    ensures v.(inFlight := v.inFlight - {id}).Track(es).Valid(m)
  {
    hide RNode.Valid, RLink.Valid;
  }

  /** A packet enters the network. */
  function OnEntry(m: Metadata, v: VState, now: Duration, id: PacketId, size: nat, node: NodeId): (r: Verdict)
    requires v.Valid(m) && v.lastStep == now
    ensures r.Continues? ==> r.v.Valid(m) && r.v.lastStep == now
  {
    if node !in v.nodes then Fails(MissingNode(node), v.errors)
    else WithNode(v, node, v.nodes[node].AddPacket(id, size, now))
  }

  /** A packet comes from another node. */
  function OnArrival(m: Metadata, v: VState, now: Duration, id: PacketId, number: nat, size: nat, node: NodeId, dropped: bool)
    : (r: Verdict)
    requires v.Valid(m) && v.lastStep == now
    ensures r.Continues? ==> r.v.Valid(m) && r.v.lastStep == now
  {
    if node !in v.nodes then Fails(MissingNode(node), v.errors)
    else WithNode(v, node, v.nodes[node].PacketReceived(id, number, size, dropped, now))
  }

  function OnPacketInNode(m: Metadata, v: VState, now: Duration, id: PacketId, number: nat, size: nat, node: NodeId,
                          dropped: bool): (r: Verdict)
    requires v.Valid(m) && v.lastStep == now
    ensures r.Continues? ==> r.v.Valid(m) && r.v.lastStep == now
  {
    if id in v.inFlight then
      var errors := ReceiveErrors(m, v, now, node, v.inFlight[id]);
      ValidWithout(m, v, id, errors);
      OnArrival(m, v.(inFlight := v.inFlight - {id}).Track(errors), now, id, number, size, node, dropped)
    else OnEntry(m, v, now, id, size, node)
  }

  function OnPacketDuplicated(m: Metadata, v: VState, now: Duration, id: PacketId, size: nat, node: NodeId): (r: Verdict)
    requires v.Valid(m) && v.lastStep == now
    ensures r.Continues? ==> r.v.Valid(m) && r.v.lastStep == now
  {
    if node !in v.nodes then Fails(MissingNode(node), v.errors)
    else WithNode(v, node, v.nodes[node].PacketDuplicated(id, size, now))
  }

  function OnPacketDropped(m: Metadata, v: VState, now: Duration, id: PacketId, node: NodeId, reason: DropReason): (r: Verdict)
    requires v.Valid(m) && v.lastStep == now
    ensures r.Continues? ==> r.v.Valid(m) && r.v.lastStep == now
  {
    if node !in v.nodes then Fails(MissingNode(node), v.errors)
    else WithNode(v, node, v.nodes[node].PacketDropped(id, reason))
  }

  function OnPacketLostInTransit(m: Metadata, v: VState, now: Duration, id: PacketId, link: LinkId): (r: Verdict)
    requires v.Valid(m) && v.lastStep == now
    ensures r.Continues? ==> r.v.Valid(m) && r.v.lastStep == now
  {
    if id in v.inFlight then
      Continues(v.(inFlight := v.inFlight - {id},
                   lost := v.lost[link := Lost(v.lost, link).TrackOne(v.inFlight[id].size)]))
    else Continues(v.Track([MissingLostPacket(id)]))
  }

  function SendErrors(m: Metadata, v: VState, id: PacketId, node: NodeId, link: LinkId, observed: nat): seq<NonFatalError>
    requires link in m.links && link in v.links
  {
    (if node != m.links[link].source then [DisconnectedPacketSend(node, link)] else [])
    + (if v.links[link].status.Down? then [OfflinePacketSend(node, link)] else [])
    + (if m.links[link].bandwidth < observed
       then [LinkBandwidthExceeded(node, link, id, m.links[link].bandwidth, observed)] else [])
  }

  lemma ValidWithSend(m: Metadata, v: VState, n: RNode, link: LinkId, l: RLink, id: PacketId, f: InFlightPacket,
                      es: seq<NonFatalError>)
    requires v.Valid(m) && n.Valid() && n.id in v.nodes && l.Valid()
    requires link in m.links && f.link == link && f.sentAt <= v.lastStep
    ensures v.(nodes := v.nodes[n.id := n], links := v.links[link := l], inFlight := v.inFlight[id := f]).Track(es).Valid(m)
  {
    hide RNode.Valid, RLink.Valid;
  }

  function OnPacketInTransit(m: Metadata, v: VState, now: Duration, id: PacketId, node: NodeId, link: LinkId): (r: Verdict)
    requires v.Valid(m) && v.lastStep == now
    ensures r.Continues? ==> r.v.Valid(m) && r.v.lastStep == now
  {
    if node !in v.nodes then Fails(MissingNode(node), v.errors)
    else
      match v.nodes[node].PacketSent(id)
      case Stop(fatal, es) => Fails(fatal, v.errors + es)
      case Done(n, es) =>
        if link !in m.links then Fails(MissingLink(link), v.errors + es)
        else
          var packet := v.nodes[node].packets[id];
          var bandwidth := m.links[link].bandwidth;
          var l := v.links[link].PacketSent(now, packet.size, bandwidth);
          var sendErrors := SendErrors(m, v, id, node, link, l.usage / WindowSeconds(bandwidth));
          ValidWithSend(m, v, n, link, l, id, InFlightPacket(packet.size, now, packet.extraDelay, link), es + sendErrors);
          Continues(v.(nodes := v.nodes[node := n], links := v.links[link := l],
                       inFlight := v.inFlight[id := InFlightPacket(packet.size, now, packet.extraDelay, link)])
                     .Track(es + sendErrors))
  }

  function OnPacketCongestionEvent(m: Metadata, v: VState, now: Duration, size: nat, node: NodeId): (r: Verdict)
    requires v.Valid(m) && v.lastStep == now
    ensures r.Continues? ==> r.v.Valid(m) && r.v.lastStep == now
  {
    if node !in v.nodes then Fails(MissingNode(node), v.errors)
    else WithNode(v, node, Done(v.nodes[node].PacketEcn(size), []))
  }

  function OnPacketDelivered(m: Metadata, v: VState, now: Duration, id: PacketId, node: NodeId): (r: Verdict)
    requires v.Valid(m) && v.lastStep == now
    ensures r.Continues? ==> r.v.Valid(m) && r.v.lastStep == now
  {
    if node !in v.nodes then Fails(MissingNode(node), v.errors)
    else WithNode(v, node, v.nodes[node].RemovePacket(id))
  }

  function OnPacketExtraDelay(m: Metadata, v: VState, now: Duration, id: PacketId, node: NodeId, delay: Duration): (r: Verdict)
    requires v.Valid(m) && v.lastStep == now
    ensures r.Continues? ==> r.v.Valid(m) && r.v.lastStep == now
  {
    if node !in v.nodes then Fails(MissingNode(node), v.errors)
    else WithNode(v, node, v.nodes[node].PacketHasExtraDelay(id, delay))
  }

  function OnLinkEvent(m: Metadata, v: VState, now: Duration, event: Option<LinkEvent>): (r: Verdict)
    requires v.Valid(m) && v.lastStep == now
    ensures r.Continues? ==> r.v.Valid(m) && r.v.lastStep == now
  {
    if event.None? || event.value.status.None? then Continues(v)
    else if event.value.link !in v.links then Fails(MissingLink(event.value.link), v.errors)
    else
      var l := event.value.link;
      Continues(v.(links := v.links[l := v.links[l].SetStatus(event.value.status.value, now)]))
  }

  function OnNodeEvent(m: Metadata, v: VState, now: Duration, event: Option<NodeEvent>): (r: Verdict)
    requires v.Valid(m) && v.lastStep == now
    ensures r.Continues? ==> r.v.Valid(m) && r.v.lastStep == now
  {
    if event.None? then Continues(v)
    else if event.value.node !in v.nodes then Fails(MissingNode(event.value.node), v.errors)
    else WithNode(v, event.value.node, Done(v.nodes[event.value.node].HandleEvent(event.value, now), []))
  }

  function OnStep(m: Metadata, v: VState, now: Duration, kind: StepKind): (r: Verdict)
    requires v.Valid(m) && v.lastStep == now
    ensures r.Continues? ==> r.v.Valid(m) && r.v.lastStep == now
  {
    match kind
    case PacketInNode(id, number, size, node, dropped) => OnPacketInNode(m, v, now, id, number, size, node, dropped)
    case PacketDuplicated(id, _, size, node) => OnPacketDuplicated(m, v, now, id, size, node)
    case PacketDropped(id, node, reason) => OnPacketDropped(m, v, now, id, node, reason)
    case PacketLostInTransit(id, link) => OnPacketLostInTransit(m, v, now, id, link)
    case PacketInTransit(id, node, link) => OnPacketInTransit(m, v, now, id, node, link)
    case PacketCongestionEvent(_, _, size, node) => OnPacketCongestionEvent(m, v, now, size, node)
    case PacketDeliveredToApplication(id, _, _, node) => OnPacketDelivered(m, v, now, id, node)
    case PacketExtraDelay(id, node, delay) => OnPacketExtraDelay(m, v, now, id, node, delay)
    case NetworkEvent(linkEvent, nodeEvent) =>
      match OnLinkEvent(m, v, now, linkEvent)
      case Fails(fatal, es) => Fails(fatal, es)
      case Continues(v') => OnNodeEvent(m, v', now, nodeEvent)
  }

  // ---- The running maximum of the buffers -----------------------------------------------------

  function Bump(m: Metadata, v: VState, n: NodeId): (v': VState)
    requires v.Valid(m) && n in v.nodes
    ensures v'.Valid(m)
  {
    v.(nodes := v.nodes[n := v.nodes[n].UpdateMaxUsage()])
  }

  /** Updates the nodes from the k-th on, up to the first one that has exceeded its buffer. */
  function UpdateFrom(m: Metadata, v: VState, k: nat): (v': VState)
    requires v.Valid(m) && k <= |m.order|
    ensures v'.Valid(m)
    decreases |m.order| - k
  {
    if k == |m.order| then v
    else
      var n := m.order[k];
      assert n in m.bufferSizes;
      var v' := Bump(m, v, n);
      if m.bufferSizes[n] < v'.nodes[n].maxUsage then
        v'.Track([NodeExceedsBufferSize(n, m.bufferSizes[n], v'.nodes[n].maxUsage)])
      else UpdateFrom(m, v', k + 1)
  }

  function UpdateMaxBufferUsage(m: Metadata, v: VState): (v': VState)
    requires v.Valid(m)
    ensures v'.Valid(m)
  {
    UpdateFrom(m, v, 0)
  }

  /** `after` is `before` but for its running maximum. */
  ghost predicate SameButMax(before: RNode, after: RNode) {
    after == before.(maxUsage := after.maxUsage)
  }

  lemma SameButMaxTransitive(a: RNode, b: RNode, c: RNode)
    requires SameButMax(a, b) && SameButMax(b, c)
    ensures SameButMax(a, c)
  {
  }

  /** `v'` is `v` but for running maxima and errors. */
  ghost predicate SameButMaxima(v: VState, v': VState) {
    && v'.nodes.Keys == v.nodes.Keys
    && v' == v.(nodes := v'.nodes, errors := v'.errors)
    && forall n :: n in v.nodes ==> SameButMax(v.nodes[n], v'.nodes[n])
  }

  lemma SameButMaximaTransitive(a: VState, b: VState, c: VState)
    requires SameButMaxima(a, b) && SameButMaxima(b, c)
    ensures SameButMaxima(a, c)
  {
    forall n | n in a.nodes
      ensures SameButMax(a.nodes[n], c.nodes[n])
    {
      SameButMaxTransitive(a.nodes[n], b.nodes[n], c.nodes[n]);
    }
  }

  lemma BumpKeepsTheRest(m: Metadata, v: VState, n: NodeId)
    requires v.Valid(m) && n in v.nodes
    ensures SameButMaxima(v, Bump(m, v, n))
  {
  }

  /** One round of the update: node `order[k]` is bumped, and may be the last one. */
  lemma UpdateRound(m: Metadata, v: VState, k: nat)
    requires v.Valid(m) && k < |m.order|
    ensures m.order[k] in v.nodes && m.order[k] in m.bufferSizes
    ensures Bump(m, v, m.order[k]).Valid(m) && m.order[k] in Bump(m, v, m.order[k]).nodes
    ensures var n := m.order[k];
            var v' := Bump(m, v, n);
            UpdateFrom(m, v, k)
            == if m.bufferSizes[n] < v'.nodes[n].maxUsage
               then v'.Track([NodeExceedsBufferSize(n, m.bufferSizes[n], v'.nodes[n].maxUsage)])
               else UpdateFrom(m, v', k + 1)
  {
    assert m.order[k] in m.bufferSizes;
  }

  lemma {:induction false} UpdateKeepsTheRest(m: Metadata, v: VState, k: nat)
    requires v.Valid(m) && k <= |m.order|
    ensures SameButMaxima(v, UpdateFrom(m, v, k))
    decreases |m.order| - k
  {
    hide VState.Valid, Bump, UpdateFrom, SameButMaxima;
    if k < |m.order| {
      UpdateRound(m, v, k);
      var v' := Bump(m, v, m.order[k]);
      BumpKeepsTheRest(m, v, m.order[k]);
      if m.bufferSizes[m.order[k]] < v'.nodes[m.order[k]].maxUsage {
        TrackKeepsTheRest(v, v', UpdateFrom(m, v, k));
      } else {
        UpdateKeepsTheRest(m, v', k + 1);
        SameButMaximaTransitive(v, v', UpdateFrom(m, v, k));
      }
    } else {
      NothingChanges(m, v, k);
    }
  }

  lemma TrackKeepsTheRest(v: VState, v': VState, v'': VState)
    requires SameButMaxima(v, v') && v'' == v'.(errors := v''.errors)
    ensures SameButMaxima(v, v'')
  {
  }

  lemma NothingChanges(m: Metadata, v: VState, k: nat)
    requires v.Valid(m) && k == |m.order|
    ensures SameButMaxima(v, UpdateFrom(m, v, k))
  {
  }

  /** The clock moves on: the buffers of the timestamp that ended are looked at first. */
  function Tick(m: Metadata, v: VState, now: Duration): (v': VState)
    requires v.Valid(m) && v.lastStep <= now
    ensures v'.Valid(m) && v'.lastStep == now
  {
    if now != v.lastStep then
      UpdateKeepsTheRest(m, v, 0);
      UpdateMaxBufferUsage(m, v).(lastUpdate := Some(v.lastStep), lastStep := now)
    else v
  }

  // ---- Whole logs -----------------------------------------------------------------------------

  function ReplayStep(m: Metadata, v: VState, s: Step): (r: Verdict)
    requires v.Valid(m) && v.lastStep <= s.time
    ensures r.Continues? ==> r.v.Valid(m) && r.v.lastStep == s.time
  {
    OnStep(m, Tick(m, v, s.time), s.time, s.kind)
  }

  lemma FreshIsValid(m: Metadata)
    requires m.Valid()
    ensures Fresh(m).Valid(m)
  {
  }

  function ReplayLog(m: Metadata, log: seq<Step>): (r: Verdict)
    requires m.Valid() && InOrder(log)
    ensures r.Continues? ==> r.v.Valid(m)
    ensures r.Continues? && log != [] ==> r.v.lastStep == log[|log| - 1].time
    ensures r.Continues? && log == [] ==> r.v.lastStep == 0.0
  {
    if log == [] then
      FreshIsValid(m);
      Continues(Fresh(m))
    else
      match ReplayLog(m, log[..|log| - 1])
      case Fails(fatal, es) => Fails(fatal, es)
      case Continues(v) => ReplayStep(m, v, log[|log| - 1])
  }

  function Conclude(m: Metadata, v: VState): (v': VState)
    requires v.Valid(m)
    ensures v'.Valid(m)
  {
    if v.lastUpdate != Some(v.lastStep) then UpdateMaxBufferUsage(m, v) else v
  }

  /** The verdict of `verify` on a log in order. */
  function Verify(m: Metadata, log: seq<Step>): Verdict
    requires m.Valid() && InOrder(log)
  {
    match ReplayLog(m, log)
    case Fails(fatal, es) => Fails(fatal, es)
    case Continues(v) => Continues(Conclude(m, v))
  }

}
