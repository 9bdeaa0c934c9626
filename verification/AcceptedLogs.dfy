/**
 The verifier accepts every log of a working network: nothing fatal, and only those complaints
 that the log justifies.
 */
module AcceptedLogs {
  import opened Prelude
  import opened Trace
  import opened PacketPacer
  import opened ReplayedLink
  import opened ReplayedNode
  import opened Replay
  import opened Network
  import opened PacketLog
  import opened Places
  import opened Ledger

  /** The verifier was given the same network. */
  ghost predicate Describes(m: Metadata, t: Topology)
    requires t.Valid()
  {
    && m.Valid()
    && m.bufferSizes.Keys == t.nodes.Keys && m.links.Keys == t.links.Keys
    && (forall n :: n in t.nodes ==> m.bufferSizes[n] == t.nodes[n].bufferSize)
    && (forall l :: l in t.links ==>
          m.links[l] == LinkMetadata(t.Source(l), t.Target(l), t.links[l].delay, t.links[l].bandwidth))
  }

  /**
   What may be reported about a working network, and when. The other errors are never reported.
   */
  ghost predicate Justified(t: Topology, exempt: set<NodeId>, log: seq<Step>, e: NonFatalError)
    requires t.Valid()
  {
    match e
    case NodeExceedsBufferSize(n, _, _) => n in exempt
    case NodeDownPacketSend(n, id) => SentWhileDown(log, id, n)
    case NodeDownPacketReceive(n, id) => id in Find(log) && Find(log)[id].at == Gone(WasRefusedAtSource(n))
    case TooFastPacketReceive(_, l) => l in t.links && Hastened(log, l, t.links[l].delay)
    case OfflinePacketReceive(_, l, sent, _) => l in t.links && DownAt(log, l, sent) && SentAt(log, l, sent)
    case LinkBandwidthExceeded(_, l, _, max, observed) =>
      && l in t.links && t.links[l].bandwidth > 0
      && max < observed
      && Within(observed, SendsOn(log, l), t.links[l].bandwidth)
    case NodeUpPacketDroppedOnArrival(_, _) => false
    case PacketSurvivedBufferCorruption(_, _) => false
    case MissingLostPacket(_) => false
    case OfflinePacketSend(_, _) => false
    case DisconnectedPacketSend(_, _) => false
    case DisconnectedPacketReceive(_, _) => false
  }

  ghost predicate AllJustified(t: Topology, exempt: set<NodeId>, log: seq<Step>, es: seq<NonFatalError>)
    requires t.Valid()
  {
    forall i :: 0 <= i < |es| ==> Justified(t, exempt, log, es[i])
  }

  // ---- What the verifier reports is a function of the log -------------------------------------

  /** A packet that was sent over link `l` at time `sent` arrives now. */
  function ArrivalReports(t: Topology, log: seq<Step>, now: Duration, n: NodeId, l: LinkId, sent: Duration)
    : seq<NonFatalError>
  {
    (if l in t.links && now < sent + t.links[l].delay then [TooFastPacketReceive(n, l)] else [])
    + match LinkSeen(log, l).lastDown
      case Some(down) => if sent <= down then [OfflinePacketReceive(n, l, sent, down)] else []
      case None => []
  }

  /** A packet is sent over a link whose history it ends. */
  function DepartureReports(t: Topology, log: seq<Step>, id: PacketId, n: NodeId, l: LinkId, h: seq<Sent>)
    : seq<NonFatalError>
    requires h != []
  {
    (if NodeSeen(log, n).status.Down? then [NodeDownPacketSend(n, id)] else [])
    + if l in t.links && t.links[l].bandwidth < Observed(h, t.links[l].bandwidth)
      then [LinkBandwidthExceeded(n, l, id, t.links[l].bandwidth, Observed(h, t.links[l].bandwidth))] else []
  }

  /** What is reported about one more step of a working network, buffers apart. */
  function ReportsOf(t: Topology, log: seq<Step>, step: Step): seq<NonFatalError> {
    match step.kind
    case PacketInNode(id, _, _, n, _) =>
      if id in Find(log) then
        var w := Find(log)[id];
        if w.at.OnLink? then ArrivalReports(t, log, step.time, n, w.at.link, w.since) else []
      else if NodeSeen(log, n).status.Down? then [NodeDownPacketReceive(n, id)] else []
    case PacketInTransit(id, n, l) =>
      DepartureReports(t, log, id, n, l, SendsOn(log, l) + [Sent(step.time, KnownSize(Find(log), id))])
    case _ => []
  }

  function Reports(t: Topology, log: seq<Step>): seq<NonFatalError> {
    if log == [] then []
    else Reports(t, log[..|log| - 1]) + ReportsOf(t, log[..|log| - 1], log[|log| - 1])
  }

  /** The reports that are not about the size of a buffer. */
  function Others(es: seq<NonFatalError>): seq<NonFatalError> {
    if es == [] then []
    else Others(es[..|es| - 1]) + if es[|es| - 1].NodeExceedsBufferSize? then [] else [es[|es| - 1]]
  }

  lemma {:induction false} OthersAppend(a: seq<NonFatalError>, b: seq<NonFatalError>)
    ensures Others(a + b) == Others(a) + Others(b)
  {
    if b == [] {
      assert a + b == a;
    } else {
      assert (a + b)[..|a + b| - 1] == a + b[..|b| - 1];
      OthersAppend(a, b[..|b| - 1]);
    }
  }

  lemma {:induction false} AllOthers(es: seq<NonFatalError>)
    requires forall i :: 0 <= i < |es| ==> !es[i].NodeExceedsBufferSize?
    ensures Others(es) == es
  {
    if es != [] {
      AllOthers(es[..|es| - 1]);
    }
  }

  lemma {:induction false} OthersAreErrors(es: seq<NonFatalError>)
    ensures forall e :: e in Others(es) <==> e in es && !e.NodeExceedsBufferSize?
  {
    if es != [] {
      OthersAreErrors(es[..|es| - 1]);
      assert es == es[..|es| - 1] + [es[|es| - 1]];
    }
  }

  // ---- The verifier's state is a function of the log ------------------------------------------

  ghost predicate TracksNode(log: seq<Step>, n: NodeId, node: RNode) {
    && NodeSeen(log, n) == NodeView(node.status, node.lastBufferClear)
    && node.packets == Inside(Find(log), n)
  }

  ghost predicate TracksLink(log: seq<Step>, l: LinkId, link: RLink, bandwidth: nat) {
    && LinkSeen(log, l) == LinkView(link.status, link.lastDown)
    && link.(status := Up, lastDown := None) == Replayed(NEW_LINK, SendsOn(log, l), bandwidth)
    && SentInOrder(SendsOn(log, l))
  }

  function Flying(packets: Register): map<PacketId, InFlightPacket> {
    map id | id in packets && packets[id].at.OnLink?
      :: InFlightPacket(packets[id].size, packets[id].since, 0.0, packets[id].at.link)
  }

  ghost predicate Tracks(t: Topology, log: seq<Step>, v: VState) {
    && (forall n :: n in v.nodes ==> TracksNode(log, n, v.nodes[n]))
    && (forall l :: l in v.links && l in t.links ==> TracksLink(log, l, v.links[l], t.links[l].bandwidth))
    && v.inFlight == Flying(Find(log))
  }

  /** The running maxima are within bounds. */
  ghost predicate MaximaFit(t: Topology, exempt: set<NodeId>, v: VState) {
    forall n :: n in v.nodes && n in t.nodes && n !in exempt ==> v.nodes[n].maxUsage <= t.nodes[n].bufferSize
  }

  // ---- Justifications last --------------------------------------------------------------------

  lemma WithinLater(bps: nat, h: seq<Sent>, s: Sent, bandwidth: nat)
    requires bandwidth > 0 && Within(bps, h, bandwidth)
    ensures Within(bps, h + [s], bandwidth)
  {
    hide BitsAllowed;
    AllowanceGrows(h, s, bandwidth);
  }

  /** A packet that is gone is never heard of again. */
  lemma GoneForGood(t: Topology, log: seq<Step>, step: Step, id: PacketId)
    requires t.Valid() && Proper(t, log, step) && id in Find(log) && Find(log)[id].at.Gone?
    ensures id in Find(log + [step]) && Find(log + [step])[id] == Find(log)[id]
  {
    hide Topology.Valid, Find, Inside;
    FindAppend(log, step);
  }

  lemma JustifiedLater(t: Topology, exempt: set<NodeId>, log: seq<Step>, step: Step, e: NonFatalError)
    requires t.Valid() && Proper(t, log, step) && Justified(t, exempt, log, e)
    ensures Justified(t, exempt, log + [step], e)
  {
    hide Topology.Valid, Find, Inside, Within, SendsOn, DownAt, SentAt, Hastened, SentWhileDown, Proper;
    match e
    case NodeDownPacketReceive(n, id) => GoneForGood(t, log, step, id);
    case NodeDownPacketSend(n, id) => SentWhileDownLater(log, step, id, n);
    case TooFastPacketReceive(_, l) => HastenedLater(log, step, l, t.links[l].delay);
    case OfflinePacketReceive(_, l, sent, _) =>
      DownAtLater(log, step, l, sent);
      SentAtLater(log, step, l, sent);
    case LinkBandwidthExceeded(_, l, _, _, observed) =>
      SendsOnAppend(log, step, l);
      if step.kind.PacketInTransit? && step.kind.link == l {
        WithinLater(observed, SendsOn(log, l), Sent(step.time, KnownSize(Find(log), step.kind.id)), t.links[l].bandwidth);
      } else {
        assert SendsOn(log + [step], l) == SendsOn(log, l);
      }
    case _ =>
  }

  // ---- One step -------------------------------------------------------------------------------

  /** From `v`, which tracks `log`, the verifier goes on to a state that tracks `log + [step]`, with the right reports. */
  ghost predicate Accepted(t: Topology, log: seq<Step>, step: Step, v: VState, r: Verdict) {
    && r.Continues?
    && Tracks(t, log + [step], r.v)
    && r.v.errors == v.errors + ReportsOf(t, log, step)
    && r.v.nodes.Keys == v.nodes.Keys && r.v.links.Keys == v.links.Keys
    && (forall n :: n in v.nodes ==> r.v.nodes[n].maxUsage == v.nodes[n].maxUsage)
  }

  predicate Counts(at: Location, n: NodeId) {
    at == AtNode(n) || at == Gone(WasRefusedAtSource(n))
  }

  lemma InsideMoved(before: Register, id: PacketId, w: Whereabouts, n: NodeId)
    ensures Inside(before[id := w], n)
         == if Counts(w.at, n) then Inside(before, n)[id := RPacket(w.since, w.size, 0.0)] else Inside(before, n) - {id}
  {
  }

  lemma FlyingMoved(before: Register, id: PacketId, w: Whereabouts)
    ensures Flying(before[id := w])
         == if w.at.OnLink? then Flying(before)[id := InFlightPacket(w.size, w.since, 0.0, w.at.link)]
            else Flying(before) - {id}
  {
  }

  /** The verifier's nodes, links and flying packets after packet `id` was moved, but not onto a link. */
  lemma TracksAfterMove(t: Topology, log: seq<Step>, v: VState, step: Step, id: PacketId, w: Whereabouts, v': VState)
    requires Tracks(t, log, v) && v'.nodes.Keys == v.nodes.Keys && v'.links == v.links
    requires !step.kind.NetworkEvent? && !step.kind.PacketInTransit? && !w.at.OnLink?
    requires Find(log + [step]) == Find(log)[id := w]
    requires v'.inFlight == v.inFlight - {id}
    requires forall n :: n in v.nodes ==>
               && v'.nodes[n].status == v.nodes[n].status && v'.nodes[n].lastBufferClear == v.nodes[n].lastBufferClear
               && v'.nodes[n].packets
                  == if Counts(w.at, n) then v.nodes[n].packets[id := RPacket(w.since, w.size, 0.0)]
                     else v.nodes[n].packets - {id}
    ensures Tracks(t, log + [step], v')
  {
    hide Find, Inside, Flying, NodeSeen, LinkSeen, SendsOn, Replayed, SentInOrder;
    FlyingMoved(Find(log), id, w);
    forall n | n in v'.nodes
      ensures TracksNode(log + [step], n, v'.nodes[n])
    {
      NodeSeenAppend(log, step, n);
      InsideMoved(Find(log), id, w, n);
    }
    forall l | l in v'.links && l in t.links
      ensures TracksLink(log + [step], l, v'.links[l], t.links[l].bandwidth)
    {
      LinkSeenAppend(log, step, l);
      SendsOnAppend(log, step, l);
      assert SendsOn(log, l) + [] == SendsOn(log, l);
    }
  }

  ghost predicate Ready(t: Topology, m: Metadata, log: seq<Step>, v: VState, now: Duration) {
    && t.Valid() && Describes(m, t) && v.Valid(m) && v.lastStep == now && Tracks(t, log, v)
  }

  /** What the verifier holds about a packet that the log mentions. */
  lemma Held(t: Topology, log: seq<Step>, v: VState, id: PacketId, n: NodeId)
    requires Tracks(t, log, v) && id in Find(log) && n in v.nodes
    ensures id in v.nodes[n].packets <==> Counts(Find(log)[id].at, n)
    ensures id in v.nodes[n].packets ==>
              v.nodes[n].packets[id] == RPacket(Find(log)[id].since, Find(log)[id].size, 0.0)
    ensures id in v.inFlight <==> Find(log)[id].at.OnLink?
    ensures id in v.inFlight ==>
              v.inFlight[id] == InFlightPacket(Find(log)[id].size, Find(log)[id].since, 0.0, Find(log)[id].at.link)
  {
    hide Find, Replayed, SendsOn, SentInOrder, NodeSeen, LinkSeen;
    assert TracksNode(log, n, v.nodes[n]);
  }

  lemma NotHeld(t: Topology, log: seq<Step>, v: VState, id: PacketId, n: NodeId)
    requires Tracks(t, log, v) && id !in Find(log) && n in v.nodes
    ensures id !in v.nodes[n].packets && id !in v.inFlight
  {
    hide Find, Replayed, SendsOn, SentInOrder, NodeSeen, LinkSeen;
    assert TracksNode(log, n, v.nodes[n]);
  }

  /** A packet leaves a node for good: it was dropped or read. */
  lemma AfterLeaving(t: Topology, m: Metadata, log: seq<Step>, v: VState, step: Step,
                     id: PacketId, n: NodeId, w: Whereabouts, node: RNode)
    requires Ready(t, m, log, v, step.time) && n in v.nodes
    requires id in Find(log) && Find(log)[id].at == AtNode(n) && w.at.Gone? && !w.at.fate.WasRefusedAtSource?
    requires !step.kind.NetworkEvent? && !step.kind.PacketInTransit?
    requires Find(log + [step]) == Find(log)[id := w] && ReportsOf(t, log, step) == []
    requires node == v.nodes[n].(packets := v.nodes[n].packets - {id}, usage := node.usage, counts := node.counts)
    ensures Accepted(t, log, step, v, Continues(v.(nodes := v.nodes[n := node]).Track([])))
  {
    hide Find, Topology.Valid, Describes, VState.Valid, Tracks;
    var v' := v.(nodes := v.nodes[n := node]).Track([]);
    assert v.errors + [] == v.errors;
    forall k | k in v.nodes
      ensures v'.nodes[k].packets == v.nodes[k].packets - {id}
      ensures id !in v.inFlight
    {
      Held(t, log, v, id, k);
    }
    TracksAfterMove(t, log, v, step, id, w, v');
  }

  lemma OnDrop(t: Topology, m: Metadata, log: seq<Step>, v: VState, step: Step)
    requires Ready(t, m, log, v, step.time) && step.kind.PacketDropped? && Proper(t, log, step)
    ensures Accepted(t, log, step, v, OnStep(m, v, step.time, step.kind))
  {
    hide Find, Topology.Valid, Tracks, Accepted;
    var PacketDropped(id, n, reason) := step.kind;
    FindAppend(log, step);
    Held(t, log, v, id, n);
    var node := v.nodes[n].PacketDropped(id, reason).state;
    AfterLeaving(t, m, log, v, step, id, n,
                 Whereabouts(Gone(WasDropped(reason)), step.time, KnownSize(Find(log), id)), node);
  }

  lemma OnRead(t: Topology, m: Metadata, log: seq<Step>, v: VState, step: Step)
    requires Ready(t, m, log, v, step.time) && step.kind.PacketDeliveredToApplication? && Proper(t, log, step)
    ensures Accepted(t, log, step, v, OnStep(m, v, step.time, step.kind))
  {
    hide Find, Topology.Valid, Tracks, Accepted;
    var PacketDeliveredToApplication(id, _, _, n) := step.kind;
    FindAppend(log, step);
    Held(t, log, v, id, n);
    var node := v.nodes[n].RemovePacket(id).state;
    AfterLeaving(t, m, log, v, step, id, n,
                 Whereabouts(Gone(WasRead), step.time, KnownSize(Find(log), id)), node);
  }

  lemma LossStep(m: Metadata, v: VState, now: Duration, id: PacketId, l: LinkId)
    requires v.Valid(m) && v.lastStep == now && id in v.inFlight
    ensures var r := OnStep(m, v, now, StepKind.PacketLostInTransit(id, l));
            r.Continues? && r.v == v.(inFlight := v.inFlight - {id}, lost := r.v.lost)
  {
    hide VState.Valid;
  }

  lemma OnLoss(t: Topology, m: Metadata, log: seq<Step>, v: VState, step: Step)
    requires Ready(t, m, log, v, step.time) && step.kind.PacketLostInTransit? && Proper(t, log, step)
    ensures Accepted(t, log, step, v, OnStep(m, v, step.time, step.kind))
  {
    hide Find, Topology.Valid, Tracks, Describes, VState.Valid, OnStep;
    var PacketLostInTransit(id, l) := step.kind;
    FindAppend(log, step);
    Flies(t, log, v, id);
    LossStep(m, v, step.time, id, l);
    var r := OnStep(m, v, step.time, step.kind);
    assert v.errors + [] == v.errors;
    forall k | k in v.nodes
      ensures r.v.nodes[k].packets == v.nodes[k].packets - {id}
    {
      Held(t, log, v, id, k);
    }
    TracksAfterMove(t, log, v, step, id, Whereabouts(Gone(WasLost), step.time, KnownSize(Find(log), id)), r.v);
  }

  lemma Flies(t: Topology, log: seq<Step>, v: VState, id: PacketId)
    requires Tracks(t, log, v) && id in Find(log) && Find(log)[id].at.OnLink?
    ensures id in v.inFlight
    ensures v.inFlight[id] == InFlightPacket(Find(log)[id].size, Find(log)[id].since, 0.0, Find(log)[id].at.link)
  {
    hide Find, Replayed, SendsOn, SentInOrder, NodeSeen, LinkSeen;
  }

  /** A packet comes to be in a node: it has just been made, or it arrived. */
  lemma AfterEntering(t: Topology, m: Metadata, log: seq<Step>, v: VState, step: Step,
                      id: PacketId, n: NodeId, w: Whereabouts, node: RNode, es: seq<NonFatalError>)
    requires Ready(t, m, log, v, step.time) && n in v.nodes && Counts(w.at, n)
    requires id in Find(log) ==> Find(log)[id].at.OnLink?
    requires !step.kind.NetworkEvent? && !step.kind.PacketInTransit?
    requires Find(log + [step]) == Find(log)[id := w]
    requires node == v.nodes[n].(packets := v.nodes[n].packets[id := RPacket(w.since, w.size, 0.0)],
                                 usage := node.usage, counts := node.counts, highest := node.highest)
    requires es == ReportsOf(t, log, step)
    ensures Accepted(t, log, step, v,
                     Continues(v.(nodes := v.nodes[n := node], inFlight := v.inFlight - {id}).Track(es)))
  {
    hide Find, Topology.Valid, Describes, VState.Valid, Tracks, ReportsOf;
    var v' := v.(nodes := v.nodes[n := node], inFlight := v.inFlight - {id}).Track(es);
    forall k | k in v.nodes
      ensures v'.nodes[k].packets
           == if Counts(w.at, k) then v.nodes[k].packets[id := RPacket(w.since, w.size, 0.0)]
              else v.nodes[k].packets - {id}
    {
      if id in Find(log) {
        Held(t, log, v, id, k);
      } else {
        NotHeld(t, log, v, id, k);
      }
    }
    TracksAfterMove(t, log, v, step, id, w, v');
  }

  lemma NodeStatus(t: Topology, log: seq<Step>, v: VState, n: NodeId)
    requires Tracks(t, log, v) && n in v.nodes
    ensures NodeSeen(log, n) == NodeView(v.nodes[n].status, v.nodes[n].lastBufferClear)
  {
    hide Find, Replayed, SendsOn, SentInOrder, NodeSeen, LinkSeen, Inside;
    assert TracksNode(log, n, v.nodes[n]);
  }

  lemma DuplicationStep(m: Metadata, v: VState, now: Duration, id: PacketId, number: nat, size: nat, n: NodeId)
    requires v.Valid(m) && v.lastStep == now && n in v.nodes && id !in v.nodes[n].packets && v.nodes[n].status.Up?
    ensures var node := v.nodes[n];
            OnStep(m, v, now, StepKind.PacketDuplicated(id, number, size, n))
            == Continues(v.(nodes := v.nodes[n := node.(packets := node.packets[id := RPacket(now, size, 0.0)],
                                                        usage := node.usage + size,
                                                        counts := node.PacketDuplicated(id, size, now).state.counts)]).Track([]))
  {
    hide RNode.Valid, VState.Valid;
  }

  lemma NodeIsItself(m: Metadata, v: VState, n: NodeId)
    requires v.Valid(m) && n in v.nodes
    ensures v.nodes[n].id == n
  {
  }

  lemma CreationStep(m: Metadata, v: VState, now: Duration, id: PacketId, number: nat, size: nat, n: NodeId, dropped: bool)
    requires v.Valid(m) && v.lastStep == now && n in v.nodes && id !in v.nodes[n].packets && id !in v.inFlight
    ensures var node := v.nodes[n];
            OnStep(m, v, now, PacketInNode(id, number, size, n, dropped))
            == Continues(v.(nodes := v.nodes[n := node.(packets := node.packets[id := RPacket(now, size, 0.0)],
                                                        usage := node.usage + size)])
                          .Track(if node.status.Down? then [NodeDownPacketReceive(n, id)] else []))
  {
    hide RNode.Valid, VState.Valid, OnPacketDuplicated, OnPacketDropped, OnPacketLostInTransit, OnPacketInTransit,
         OnPacketCongestionEvent, OnPacketDelivered, OnPacketExtraDelay, OnLinkEvent, OnNodeEvent, ReceiveErrors;
    NodeIsItself(m, v, n);
  }

  lemma OnDuplication(t: Topology, m: Metadata, log: seq<Step>, v: VState, step: Step)
    requires Ready(t, m, log, v, step.time) && step.kind.PacketDuplicated? && Proper(t, log, step)
    requires step.kind.node in v.nodes
    ensures Accepted(t, log, step, v, OnStep(m, v, step.time, step.kind))
  {
    hide Find, Topology.Valid, Tracks, Accepted, NodeSeen, OnStep, VState.Valid, Describes;
    var PacketDuplicated(id, number, size, n) := step.kind;
    FindAppend(log, step);
    NotHeld(t, log, v, id, n);
    NodeStatus(t, log, v, n);
    DuplicationStep(m, v, step.time, id, number, size, n);
    assert v.inFlight - {id} == v.inFlight;
    var node := v.nodes[n];
    AfterEntering(t, m, log, v, step, id, n, Whereabouts(AtNode(n), step.time, size),
                  node.(packets := node.packets[id := RPacket(step.time, size, 0.0)], usage := node.usage + size,
                        counts := node.PacketDuplicated(id, size, step.time).state.counts), []);
  }

  /** A packet shows up in the node where it was made. */
  lemma OnCreation(t: Topology, m: Metadata, log: seq<Step>, v: VState, step: Step)
    requires Ready(t, m, log, v, step.time) && step.kind.PacketInNode? && step.kind.id !in Find(log) && Proper(t, log, step)
    requires step.kind.node in v.nodes
    ensures Accepted(t, log, step, v, OnStep(m, v, step.time, step.kind))
  {
    hide Find, Topology.Valid, Tracks, Accepted, NodeSeen, OnStep, VState.Valid, Describes;
    var PacketInNode(id, number, size, n, dropped) := step.kind;
    FindAppend(log, step);
    NotHeld(t, log, v, id, n);
    NodeStatus(t, log, v, n);
    CreationStep(m, v, step.time, id, number, size, n, dropped);
    assert v.inFlight - {id} == v.inFlight;
    var at := if !dropped then AtNode(n) else Gone(WasRefusedAtSource(n));
    var node := v.nodes[n];
    AfterEntering(t, m, log, v, step, id, n, Whereabouts(at, step.time, size),
                  node.(packets := node.packets[id := RPacket(step.time, size, 0.0)], usage := node.usage + size),
                  if dropped then [NodeDownPacketReceive(n, id)] else []);
  }

  lemma ArrivalStep(m: Metadata, v: VState, now: Duration, id: PacketId, number: nat, size: nat, n: NodeId, dropped: bool)
    requires v.Valid(m) && v.lastStep == now && n in v.nodes && id !in v.nodes[n].packets && id in v.inFlight
    requires v.inFlight[id].link in m.links && v.inFlight[id].link in v.links && v.inFlight[id].sentAt <= now
    requires dropped <==> v.nodes[n].status.Down?
    ensures var node, r := v.nodes[n], OnStep(m, v, now, PacketInNode(id, number, size, n, dropped));
            && r.Continues?
            && n in r.v.nodes && r.v == v.(nodes := v.nodes[n := r.v.nodes[n]], inFlight := v.inFlight - {id})
                                        .Track(ReceiveErrors(m, v, now, n, v.inFlight[id]))
            && r.v.nodes[n] == node.(
                 packets := if dropped then node.packets else node.packets[id := RPacket(now, size, 0.0)],
                 usage := r.v.nodes[n].usage, counts := r.v.nodes[n].counts, highest := r.v.nodes[n].highest)
  {
    hide RNode.Valid, VState.Valid, OnPacketDuplicated, OnPacketDropped, OnPacketLostInTransit, OnPacketInTransit,
         OnPacketCongestionEvent, OnPacketDelivered, OnPacketExtraDelay, OnLinkEvent, OnNodeEvent, ReceiveErrors;
    assert forall es: seq<NonFatalError> :: es + [] == es;
  }

  lemma LinkStatus(t: Topology, log: seq<Step>, v: VState, l: LinkId)
    requires Tracks(t, log, v) && l in v.links && l in t.links
    ensures LinkSeen(log, l) == LinkView(v.links[l].status, v.links[l].lastDown)
  {
    hide Find, Replayed, SendsOn, SentInOrder, NodeSeen, LinkSeen, Inside, TracksNode;
    assert TracksLink(log, l, v.links[l], t.links[l].bandwidth);
  }

  lemma ReceiveErrorsReported(t: Topology, m: Metadata, log: seq<Step>, v: VState, now: Duration, id: PacketId,
                              w: Whereabouts, size: nat, n: NodeId)
    requires t.Valid() && Describes(m, t) && Lands(t, log, now, id, w, size, n)
    requires w.at.link in v.links && LinkSeen(log, w.at.link).lastDown == v.links[w.at.link].lastDown
    ensures w.at.link in m.links
    ensures ReceiveErrors(m, v, now, n, InFlightPacket(w.size, w.since, 0.0, w.at.link))
         == ArrivalReports(t, log, now, n, w.at.link, w.since)
  {
    hide Find, Topology.Valid, LinkSeen, DownAt, DelayWhenSent, Metadata.Valid;
    assert forall es: seq<NonFatalError> :: [] + es == es;
  }

  lemma KeysMatch(t: Topology, m: Metadata, log: seq<Step>, v: VState, now: Duration)
    requires Ready(t, m, log, v, now)
    ensures v.nodes.Keys == t.nodes.Keys && v.links.Keys == t.links.Keys == m.links.Keys
  {
    hide Topology.Valid, Tracks, Metadata.Valid, RNode.Valid, RLink.Valid;
  }

  lemma OnArrival(t: Topology, m: Metadata, log: seq<Step>, v: VState, step: Step)
    requires Ready(t, m, log, v, step.time) && step.kind.PacketInNode? && step.kind.id in Find(log) && Proper(t, log, step)
    ensures Accepted(t, log, step, v, OnStep(m, v, step.time, step.kind))
  {
    hide Find, Topology.Valid, Tracks, NodeSeen, LinkSeen, OnStep, VState.Valid, Describes, ArrivalReports, ReceiveErrors;
    var PacketInNode(id, number, size, n, dropped) := step.kind;
    var w := Find(log)[id];
    FindAppend(log, step);
    KeysMatch(t, m, log, v, step.time);
    Held(t, log, v, id, n);
    NodeStatus(t, log, v, n);
    LinkStatus(t, log, v, w.at.link);
    ReceiveErrorsReported(t, m, log, v, step.time, id, w, size, n);
    ArrivalStep(m, v, step.time, id, number, size, n, dropped);
    var r := OnStep(m, v, step.time, step.kind);
    forall k | k in v.nodes
      ensures id !in v.nodes[k].packets
    {
      Held(t, log, v, id, k);
    }
    var at := if !dropped then AtNode(n) else Gone(WasRefused);
    TracksAfterMove(t, log, v, step, id, Whereabouts(at, step.time, size), r.v);
  }

  // ---- Departures and events ------------------------------------------------------------------

  lemma TracksAfterDeparture(t: Topology, log: seq<Step>, v: VState, step: Step, v': VState)
    requires Tracks(t, log, v) && v'.nodes.Keys == v.nodes.Keys && step.kind.PacketInTransit?
    requires step.kind.id in Find(log) && Find(log)[step.kind.id].at == AtNode(step.kind.node)
    requires step.kind.link in v.links && step.kind.link in t.links
    requires SentInOrder(SendsOn(log + [step], step.kind.link))
    requires forall n :: n in v.nodes ==>
               && v'.nodes[n].status == v.nodes[n].status && v'.nodes[n].lastBufferClear == v.nodes[n].lastBufferClear
               && v'.nodes[n].packets == v.nodes[n].packets - {step.kind.id}
    requires var l, size := step.kind.link, Find(log)[step.kind.id].size;
             && v'.links == v.links[l := v.links[l].PacketSent(step.time, size, t.links[l].bandwidth)]
             && v'.inFlight == v.inFlight[step.kind.id := InFlightPacket(size, step.time, 0.0, l)]
    ensures Tracks(t, log + [step], v')
  {
    hide Find, Inside, Flying, NodeSeen, LinkSeen, SendsOn, SentInOrder, DropOld, Bits, WindowSeconds;
    var PacketInTransit(id, n, l) := step.kind;
    var w := Whereabouts(OnLink(l), step.time, Find(log)[id].size);
    FindAppend(log, step);
    FlyingMoved(Find(log), id, w);
    forall k | k in v'.nodes
      ensures TracksNode(log + [step], k, v'.nodes[k])
    {
      NodeSeenAppend(log, step, k);
      InsideMoved(Find(log), id, w, k);
    }
    forall k | k in v'.links && k in t.links
      ensures TracksLink(log + [step], k, v'.links[k], t.links[k].bandwidth)
    {
      LinkSeenAppend(log, step, k);
      SendsOnAppend(log, step, k);
      if k == l {
        var h := SendsOn(log + [step], k);
        assert h[..|h| - 1] == SendsOn(log, k);
      } else {
        assert SendsOn(log, k) + [] == SendsOn(log, k);
      }
    }
  }

  /** What the verifier observes is what the plain definition says. */
  lemma ObservedByVerifier(h: seq<Sent>, s: Sent, link: RLink, bandwidth: nat)
    requires SentInOrder(h + [s]) && link.(status := Up, lastDown := None) == Replayed(NEW_LINK, h, bandwidth)
    ensures link.PacketSent(s.at, s.size, bandwidth).usage / WindowSeconds(bandwidth) == Observed(h + [s], bandwidth)
  {
    hide DropOld, Bits, WindowSeconds;
    WindowIs(bandwidth);
    WindowIsRecentHistory(NEW_LINK, h + [s], bandwidth);
    assert (h + [s])[..|h|] == h;
  }

  lemma DepartureStep(m: Metadata, v: VState, now: Duration, id: PacketId, n: NodeId, l: LinkId)
    requires v.Valid(m) && v.lastStep == now && n in v.nodes && id in v.nodes[n].packets && l in m.links && l in v.links
    requires v.nodes[n].id == n && m.links[l].source == n && v.links[l].status.Up?
    requires var clear := v.nodes[n].lastBufferClear; clear.Some? ==> clear.value <= v.nodes[n].packets[id].arrivedAt
    ensures var node, p, r := v.nodes[n], v.nodes[n].packets[id], OnStep(m, v, now, StepKind.PacketInTransit(id, n, l));
            var bandwidth := m.links[l].bandwidth;
            var link := v.links[l].PacketSent(now, p.size, bandwidth);
            var observed := link.usage / WindowSeconds(bandwidth);
            && r.Continues?
            && n in r.v.nodes
            && r.v == v.(nodes := v.nodes[n := r.v.nodes[n]], links := v.links[l := link],
                         inFlight := v.inFlight[id := InFlightPacket(p.size, now, p.extraDelay, l)],
                         errors := r.v.errors)
            && r.v.nodes[n] == node.(packets := node.packets - {id},
                                     usage := r.v.nodes[n].usage, counts := r.v.nodes[n].counts)
            && r.v.errors == v.errors + (if node.status.Down? then [NodeDownPacketSend(n, id)] else [])
                             + if bandwidth < observed
                               then [LinkBandwidthExceeded(n, l, id, bandwidth, observed)] else []
  {
    hide VState.Valid, OnPacketInNode, OnPacketDuplicated, OnPacketDropped, OnPacketLostInTransit, RLink.PacketSent,
         OnPacketCongestionEvent, OnPacketDelivered, OnPacketExtraDelay, OnLinkEvent, OnNodeEvent, WindowSeconds;
    assert v.nodes[n].Valid() by { NodeIsSound(m, v, n); }
  }

  lemma DepartureFacts(t: Topology, log: seq<Step>, step: Step)
    requires t.Valid() && step.kind.PacketInTransit? && Proper(t, log, step)
    ensures Departs(t, log, step.time, step.kind.id, step.kind.node, step.kind.link)
    ensures var h := SendsOn(log, step.kind.link) + [Sent(step.time, Find(log)[step.kind.id].size)];
            SendsOn(log + [step], step.kind.link) == h && SentInOrder(h)
  {
    hide Find, Topology.Valid, LinkSeen, NodeSeen, SendsOn, Within, SentInOrder, Observed;
    SendsOnAppend(log, step, step.kind.link);
  }

  lemma MetadataOfLink(m: Metadata, t: Topology, l: LinkId)
    requires t.Valid() && Describes(m, t) && l in t.links
    ensures l in m.links && m.links[l] == LinkMetadata(t.Source(l), t.Target(l), t.links[l].delay, t.links[l].bandwidth)
  {
    hide Topology.Valid, Metadata.Valid;
  }

  lemma TracksSends(t: Topology, log: seq<Step>, v: VState, l: LinkId)
    requires Tracks(t, log, v) && l in v.links && l in t.links
    ensures v.links[l].(status := Up, lastDown := None) == Replayed(NEW_LINK, SendsOn(log, l), t.links[l].bandwidth)
  {
    hide Find, Replayed, SendsOn, SentInOrder, NodeSeen, LinkSeen, Inside, TracksNode;
  }

  lemma OnDeparture(t: Topology, m: Metadata, log: seq<Step>, v: VState, step: Step)
    requires Ready(t, m, log, v, step.time) && step.kind.PacketInTransit? && Proper(t, log, step)
    ensures Accepted(t, log, step, v, OnStep(m, v, step.time, step.kind))
  {
    hide Find, Topology.Valid, Tracks, NodeSeen, LinkSeen, OnStep, VState.Valid, Describes, Proper, SendsOn, SentInOrder,
         RLink.PacketSent, Within, WindowSeconds, Observed;
    var PacketInTransit(id, n, l) := step.kind;
    DepartureFacts(t, log, step);
    var size := Find(log)[id].size;
    KeysMatch(t, m, log, v, step.time);
    MetadataOfLink(m, t, l);
    NodeIsItself(m, v, n);
    Held(t, log, v, id, n);
    NodeStatus(t, log, v, n);
    LinkStatus(t, log, v, l);
    TracksSends(t, log, v, l);
    ObservedByVerifier(SendsOn(log, l), Sent(step.time, size), v.links[l], t.links[l].bandwidth);
    DepartureStep(m, v, step.time, id, n, l);
    var r := OnStep(m, v, step.time, step.kind);
    forall k | k in v.nodes
      ensures r.v.nodes[k].packets == v.nodes[k].packets - {id}
    {
      Held(t, log, v, id, k);
    }
    TracksAfterDeparture(t, log, v, step, r.v);
  }

  lemma TracksAfterEvent(t: Topology, log: seq<Step>, v: VState, step: Step, v': VState)
    requires Tracks(t, log, v) && step.kind.NetworkEvent?
    requires v'.nodes.Keys == v.nodes.Keys && v'.links.Keys == v.links.Keys && v'.inFlight == v.inFlight
    requires forall n :: n in v.nodes ==>
               v'.nodes[n] == if step.kind.nodeEvent.Some? && step.kind.nodeEvent.value.node == n
                              then v.nodes[n].HandleEvent(step.kind.nodeEvent.value, step.time) else v.nodes[n]
    requires forall l :: l in v.links ==>
               v'.links[l] == if SetsLink(step.kind, l)
                              then v.links[l].SetStatus(step.kind.linkEvent.value.status.value, step.time) else v.links[l]
    ensures Tracks(t, log + [step], v')
  {
    hide Find, Inside, Flying, NodeSeen, LinkSeen, SendsOn, SentInOrder, Replayed;
    FindAppend(log, step);
    forall n | n in v'.nodes
      ensures TracksNode(log + [step], n, v'.nodes[n])
    {
      NodeSeenAppend(log, step, n);
    }
    forall l | l in v'.links && l in t.links
      ensures TracksLink(log + [step], l, v'.links[l], t.links[l].bandwidth)
    {
      LinkSeenAppend(log, step, l);
      SendsOnAppend(log, step, l);
      assert SendsOn(log, l) + [] == SendsOn(log, l);
    }
  }

  lemma EventStep(m: Metadata, v: VState, now: Duration, kind: StepKind)
    requires v.Valid(m) && v.lastStep == now && kind.NetworkEvent?
    requires kind.linkEvent.Some? ==> kind.linkEvent.value.link in v.links
    requires kind.nodeEvent.Some? ==> kind.nodeEvent.value.node in v.nodes
    ensures var r := OnStep(m, v, now, kind);
            && r.Continues? && r.v.errors == v.errors && r.v.inFlight == v.inFlight
            && r.v.nodes.Keys == v.nodes.Keys && r.v.links.Keys == v.links.Keys
            && (forall n :: n in v.nodes ==>
                  r.v.nodes[n] == if kind.nodeEvent.Some? && kind.nodeEvent.value.node == n
                                  then v.nodes[n].HandleEvent(kind.nodeEvent.value, now) else v.nodes[n])
            && (forall l :: l in v.links ==>
                  r.v.links[l] == if SetsLink(kind, l)
                                  then v.links[l].SetStatus(kind.linkEvent.value.status.value, now) else v.links[l])
  {
    hide VState.Valid, OnPacketInNode, OnPacketDuplicated, OnPacketDropped, OnPacketLostInTransit,
         OnPacketCongestionEvent, OnPacketDelivered, OnPacketExtraDelay, OnPacketInTransit, RNode.HandleEvent,
         RLink.SetStatus;
  }

  lemma HandleEventKeepsMax(node: RNode, e: NodeEvent, now: Duration)
    ensures node.HandleEvent(e, now).maxUsage == node.maxUsage
  {
  }

  lemma OnEvent(t: Topology, m: Metadata, log: seq<Step>, v: VState, step: Step)
    requires Ready(t, m, log, v, step.time) && step.kind.NetworkEvent? && Proper(t, log, step)
    ensures Accepted(t, log, step, v, OnStep(m, v, step.time, step.kind))
  {
    hide Topology.Valid, Tracks, OnStep, VState.Valid, Describes, RNode.HandleEvent, RLink.SetStatus, SetsLink;
    KeysMatch(t, m, log, v, step.time);
    EventStep(m, v, step.time, step.kind);
    TracksAfterEvent(t, log, v, step, OnStep(m, v, step.time, step.kind).v);
    if step.kind.nodeEvent.Some? {
      var e := step.kind.nodeEvent.value;
      HandleEventKeepsMax(v.nodes[e.node], e, step.time);
    }
  }

  lemma OnProperStep(t: Topology, m: Metadata, log: seq<Step>, v: VState, step: Step)
    requires Ready(t, m, log, v, step.time) && Proper(t, log, step)
    ensures Accepted(t, log, step, v, OnStep(m, v, step.time, step.kind))
  {
    hide Ready, Find, Topology.Valid, Accepted, OnStep, NodeSeen, LinkSeen, Lands, Departs, VState.Valid;
    assert t.Valid() && v.Valid(m) && v.lastStep == step.time && v.nodes.Keys == t.nodes.Keys by {
      ReadyFacts(t, m, log, v, step.time);
    }
    match step.kind
    case PacketInNode(id, _, _, _, _) =>
      if id in Find(log) {
        OnArrival(t, m, log, v, step);
      } else {
        OnCreation(t, m, log, v, step);
      }
    case PacketDuplicated(_, _, _, _) => OnDuplication(t, m, log, v, step);
    case PacketDropped(_, _, _) => OnDrop(t, m, log, v, step);
    case PacketDeliveredToApplication(_, _, _, _) => OnRead(t, m, log, v, step);
    case PacketLostInTransit(_, _) => OnLoss(t, m, log, v, step);
    case PacketInTransit(_, _, _) => OnDeparture(t, m, log, v, step);
    case NetworkEvent(_, _) => OnEvent(t, m, log, v, step);
  }

  lemma ReadyFacts(t: Topology, m: Metadata, log: seq<Step>, v: VState, now: Duration)
    requires Ready(t, m, log, v, now)
    ensures t.Valid() && v.Valid(m) && v.lastStep == now && v.nodes.Keys == t.nodes.Keys
  {
    hide Topology.Valid, Tracks;
    KeysMatch(t, m, log, v, now);
  }

  // ---- The clock moves on ---------------------------------------------------------------------

  ghost predicate UsageFits(t: Topology, exempt: set<NodeId>, v: VState) {
    forall n :: n in v.nodes && n in t.nodes && n !in exempt ==> v.nodes[n].usage <= t.nodes[n].bufferSize
  }

  /** `es` says no other node than an exempt one has too small a buffer. */
  ghost predicate OnlyExempt(exempt: set<NodeId>, es: seq<NonFatalError>) {
    forall i :: 0 <= i < |es| && es[i].NodeExceedsBufferSize? ==> es[i].node in exempt
  }

  ghost predicate UpdatesTo(t: Topology, exempt: set<NodeId>, v: VState, v': VState) {
    && MaximaFit(t, exempt, v')
    && Others(v'.errors) == Others(v.errors)
    && (OnlyExempt(exempt, v.errors) ==> OnlyExempt(exempt, v'.errors))
  }

  lemma OthersWithBufferReport(es: seq<NonFatalError>, e: NonFatalError)
    requires e.NodeExceedsBufferSize?
    ensures Others(es + [e]) == Others(es)
  {
    assert (es + [e])[..|es|] == es;
  }

  lemma BumpFits(t: Topology, m: Metadata, exempt: set<NodeId>, v: VState, n: NodeId)
    requires v.Valid(m) && n in v.nodes && MaximaFit(t, exempt, v) && UsageFits(t, exempt, v)
    ensures var v' := Bump(m, v, n);
            MaximaFit(t, exempt, v') && UsageFits(t, exempt, v') && v'.errors == v.errors && n in v'.nodes
  {
    hide VState.Valid;
  }

  lemma {:induction false} UpdateFits(t: Topology, m: Metadata, exempt: set<NodeId>, v: VState, k: nat)
    requires t.Valid() && Describes(m, t) && v.Valid(m) && k <= |m.order|
    requires MaximaFit(t, exempt, v) && UsageFits(t, exempt, v)
    ensures UpdatesTo(t, exempt, v, UpdateFrom(m, v, k))
    decreases |m.order| - k
  {
    hide Topology.Valid, VState.Valid, Bump, UsageFits;
    if k < |m.order| {
      UpdateRound(m, v, k);
      var n := m.order[k];
      var v' := Bump(m, v, n);
      BumpFits(t, m, exempt, v, n);
      if m.bufferSizes[n] >= v'.nodes[n].maxUsage {
        UpdateFits(t, m, exempt, v', k + 1);
      } else {
        OthersWithBufferReport(v.errors, NodeExceedsBufferSize(n, m.bufferSizes[n], v'.nodes[n].maxUsage));
      }
    }
  }

  lemma UsageIsBytesInside(t: Topology, m: Metadata, exempt: set<NodeId>, log: seq<Step>, v: VState)
    requires v.Valid(m) && Tracks(t, log, v) && Fits(t, exempt, log)
    ensures UsageFits(t, exempt, v)
  {
    hide Find, Inside, NodeSeen, LinkSeen, TracksLink, Stored, Flying, Metadata.Valid, RLink.Valid;
    forall n | n in v.nodes && n in t.nodes && n !in exempt
      ensures v.nodes[n].usage <= t.nodes[n].bufferSize
    {
      assert TracksNode(log, n, v.nodes[n]);
      assert v.nodes[n].Valid();
    }
  }

  lemma TracksSameButMaxima(t: Topology, log: seq<Step>, v: VState, v': VState)
    requires Tracks(t, log, v) && v'.nodes.Keys == v.nodes.Keys && v'.links == v.links && v'.inFlight == v.inFlight
    requires forall n :: n in v.nodes ==> SameButMax(v.nodes[n], v'.nodes[n])
    ensures Tracks(t, log, v')
  {
    hide Find, Inside, NodeSeen, LinkSeen, TracksLink, Flying;
    forall n | n in v'.nodes
      ensures TracksNode(log, n, v'.nodes[n])
    {
      assert TracksNode(log, n, v.nodes[n]);
    }
  }

  /** What the verifier keeps while it replays a proper log. */
  ghost predicate Replaying(t: Topology, m: Metadata, exempt: set<NodeId>, log: seq<Step>, v: VState)
  {
    && t.Valid() && Describes(m, t) && v.Valid(m) && Tracks(t, log, v)
    && MaximaFit(t, exempt, v)
    && Others(v.errors) == Reports(t, log) && OnlyExempt(exempt, v.errors)
  }

  lemma ReplayingAfterUpdate(t: Topology, m: Metadata, exempt: set<NodeId>, log: seq<Step>, v: VState)
    requires Replaying(t, m, exempt, log, v) && Fits(t, exempt, log)
    ensures Replaying(t, m, exempt, log, UpdateMaxBufferUsage(m, v))
    ensures SameButMaxima(v, UpdateMaxBufferUsage(m, v))
  {
    hide Find, Topology.Valid, Tracks, VState.Valid, UpdateFrom, Describes, MaximaFit, Others, Reports;
    UsageIsBytesInside(t, m, exempt, log, v);
    UpdateFits(t, m, exempt, v, 0);
    UpdateKeepsTheRest(m, v, 0);
    TracksSameButMaxima(t, log, v, UpdateFrom(m, v, 0));
  }

  lemma ReplayingAfterTick(t: Topology, m: Metadata, exempt: set<NodeId>, log: seq<Step>, v: VState, now: Duration)
    requires Replaying(t, m, exempt, log, v) && v.lastStep <= now
    requires now != v.lastStep ==> Fits(t, exempt, log)
    ensures Replaying(t, m, exempt, log, Tick(m, v, now)) && Tick(m, v, now).lastStep == now
  {
    hide Find, Topology.Valid, VState.Valid, UpdateMaxBufferUsage, Describes, Fits, Others, Reports, TracksNode,
         TracksLink, Flying;
    if now != v.lastStep {
      ReplayingAfterUpdate(t, m, exempt, log, v);
    }
  }

  lemma ReplayingAfterStep(t: Topology, m: Metadata, exempt: set<NodeId>, log: seq<Step>, v: VState, step: Step)
    requires Replaying(t, m, exempt, log, v) && v.lastStep == step.time && Proper(t, log, step)
    ensures var r := OnStep(m, v, step.time, step.kind);
            r.Continues? && Replaying(t, m, exempt, log + [step], r.v)
  {
    hide Find, Topology.Valid, Tracks, VState.Valid, OnStep, Describes, Proper, ReportsOf, Others;
    OnProperStep(t, m, log, v, step);
    ReportsAppend(t, log, step);
    OthersAppend(v.errors, ReportsOf(t, log, step));
    ReportsAreOthers(t, log, step);
    AllOthers(ReportsOf(t, log, step));
  }

  lemma ReportsAppend(t: Topology, log: seq<Step>, step: Step)
    ensures Reports(t, log + [step]) == Reports(t, log) + ReportsOf(t, log, step)
  {
    hide ReportsOf;
    assert (log + [step])[..|log|] == log;
  }

  lemma ReportsAreOthers(t: Topology, log: seq<Step>, step: Step)
    ensures forall i :: 0 <= i < |ReportsOf(t, log, step)| ==> !ReportsOf(t, log, step)[i].NodeExceedsBufferSize?
  {
    hide Find, LinkSeen, NodeSeen, SendsOn, Observed;
  }

  // ---- Whole logs -----------------------------------------------------------------------------

  lemma ReplayingAtFirst(t: Topology, m: Metadata, exempt: set<NodeId>)
    requires t.Valid() && Describes(m, t)
    ensures Replaying(t, m, exempt, [], Fresh(m))
  {
    hide Topology.Valid, Describes, VState.Valid;
    DescribesValidly(t, m);
    FreshIsValid(m);
    FreshTracks(t, m);
  }

  lemma FreshTracks(t: Topology, m: Metadata)
    ensures Tracks(t, [], Fresh(m))
  {
    assert forall n :: Inside(map[], n) == map[];
    assert Flying(map[]) == map[];
  }

  lemma DescribesValidly(t: Topology, m: Metadata)
    requires t.Valid() && Describes(m, t)
    ensures m.Valid()
  {
    hide Topology.Valid, Metadata.Valid;
  }

  lemma {:induction false} ReplayingAlways(t: Topology, m: Metadata, exempt: set<NodeId>, log: seq<Step>)
    requires t.Valid() && Describes(m, t) && InOrder(log) && ProperLog(t, exempt, log)
    ensures ReplayLog(m, log).Continues? && Replaying(t, m, exempt, log, ReplayLog(m, log).v)
  {
    hide Topology.Valid, Replaying, OnStep, Tick, Proper, Fits;
    if log == [] {
      ReplayingAtFirst(t, m, exempt);
    } else {
      var init, last := log[..|log| - 1], log[|log| - 1];
      ReplayingAlways(t, m, exempt, init);
      var v := ReplayLog(m, init).v;
      ReplayingAfterTick(t, m, exempt, init, v, last.time);
      ReplayingIsValid(t, m, exempt, init, Tick(m, v, last.time));
      ReplayingAfterStep(t, m, exempt, init, Tick(m, v, last.time), last);
      assert init + [last] == log;
    }
  }

  lemma ReplayingIsValid(t: Topology, m: Metadata, exempt: set<NodeId>, log: seq<Step>, v: VState)
    requires Replaying(t, m, exempt, log, v)
    ensures v.Valid(m)
  {
    hide Topology.Valid, Tracks;
  }

  /**
   The verifier accepts the log of a working network: nothing is fatal, its state and its reports
   are those that the log determines, and no running maximum exceeds a buffer, but for exempt nodes.
   */
  lemma ProperLogsAreAccepted(t: Topology, m: Metadata, exempt: set<NodeId>, log: seq<Step>)
    requires t.Valid() && Describes(m, t) && InOrder(log) && ProperLog(t, exempt, log) && Fits(t, exempt, log)
    ensures Verify(m, log).Continues?
    ensures Replaying(t, m, exempt, log, Verify(m, log).v)
  {
    hide Topology.Valid, VState.Valid, UpdateMaxBufferUsage, Tracks, MaximaFit, Others, Reports, Describes, ProperLog,
         Fits;
    DescribesValidly(t, m);
    ReplayingAlways(t, m, exempt, log);
    ReplayingAfterUpdate(t, m, exempt, log, ReplayLog(m, log).v);
  }

  // ---- Reports are justified ------------------------------------------------------------------

  lemma {:induction false} FlyingWasSent(log: seq<Step>, id: PacketId)
    requires id in Find(log) && Find(log)[id].at.OnLink?
    ensures SentAt(log, Find(log)[id].at.link, Find(log)[id].since)
  {
    hide Find;
    FindNothing();
    if log != [] {
      var init, last := log[..|log| - 1], log[|log| - 1];
      FindAppend(init, last);
      assert init + [last] == log;
      if last.kind.PacketInTransit? && last.kind.id == id {
        assert log[|log| - 1] == last;
      } else {
        FlyingWasSent(init, id);
        SentAtLater(init, last, Find(log)[id].at.link, Find(log)[id].since);
      }
    }
  }

  lemma ReportsOfAreJustified(t: Topology, exempt: set<NodeId>, log: seq<Step>, step: Step)
    requires t.Valid() && Proper(t, log, step)
    ensures AllJustified(t, exempt, log + [step], ReportsOf(t, log, step))
  {
    hide Topology.Valid, Find, Inside, Within, SendsOn, Observed, DownAt, SentAt, Hastened, SentWhileDown,
         DelayWhenSent, LinkSeen, NodeSeen;
    match step.kind
    case PacketInNode(id, _, size, n, _) =>
      FindAppend(log, step);
      if id in Find(log) {
        var w := Find(log)[id];
        var l := w.at.link;
        FlyingWasSent(log, id);
        SentAtLater(log, step, l, w.since);
        if DownAt(log, l, w.since) {
          DownAtLater(log, step, l, w.since);
        }
        if DelayWhenSent(log, id, l, t.links[l].delay) < t.links[l].delay {
          SentEarlyIsHastened(log, id, l, t.links[l].delay);
          HastenedLater(log, step, l, t.links[l].delay);
        }
      }
    case PacketInTransit(id, n, l) =>
      SendsOnAppend(log, step, l);
      if NodeSeen(log, n).status.Down? {
        SentWhileDownNow(log, step);
      }
    case _ =>
  }

  lemma {:induction false} ReportsAreJustified(t: Topology, exempt: set<NodeId>, log: seq<Step>)
    requires t.Valid() && ProperLog(t, exempt, log)
    ensures AllJustified(t, exempt, log, Reports(t, log))
  {
    hide Topology.Valid, ReportsOf, Proper, Justified, Fits;
    if log != [] {
      var init, last := log[..|log| - 1], log[|log| - 1];
      assert init + [last] == log;
      ReportsAreJustified(t, exempt, init);
      ReportsOfAreJustified(t, exempt, init, last);
      var es := Reports(t, init);
      forall i | 0 <= i < |es|
        ensures Justified(t, exempt, log, es[i])
      {
        JustifiedLater(t, exempt, init, last, es[i]);
      }
    }
  }

  lemma ErrorsAreJustified(t: Topology, m: Metadata, exempt: set<NodeId>, log: seq<Step>, v: VState)
    requires Replaying(t, m, exempt, log, v) && t.Valid() && ProperLog(t, exempt, log)
    ensures AllJustified(t, exempt, log, v.errors)
  {
    hide Topology.Valid, Tracks, VState.Valid, MaximaFit, Others, Reports, Describes, ProperLog, DownAt, SentAt,
         Hastened, SentWhileDown, Within, Find, SendsOn;
    ReportsAreJustified(t, exempt, log);
    OthersAreErrors(v.errors);
    forall i | 0 <= i < |v.errors|
      ensures Justified(t, exempt, log, v.errors[i])
    {
      assert v.errors[i] in v.errors;
      if !v.errors[i].NodeExceedsBufferSize? {
        assert v.errors[i] in Others(v.errors);
      }
    }
  }
}
