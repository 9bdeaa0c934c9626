/** The verifier on logs of any kind: its state, its verdict, its reports and its statistics are those told from the log. */
module LogVerdicts {
  import opened Prelude
  import opened Sums
  import opened Trace
  import opened ReplayedNode
  import opened ReplayedLink
  import opened Replay
  import opened Ledger
  import opened AcceptedLogs
  import opened LogHistory

  // ---- What the verifier's state says about a log ---------------------------------------------

  /** `h` is the highest number that arrived in node `n`, or 0. */
  ghost predicate IsHighest(log: seq<Step>, n: NodeId, h: nat) {
    && (forall i :: 0 <= i < |log| && Arrives(log[..i], log[i].kind, n) ==> log[i].kind.number <= h)
    && (h == 0 || exists i :: 0 <= i < |log| && Arrives(log[..i], log[i].kind, n) && log[i].kind.number == h)
  }

  ghost predicate CountsAre(log: seq<Step>, n: NodeId, counts: Counters) {
    forall what :: Of(counts, what) == Tally(log, n, what)
  }

  ghost predicate KnowsNode(log: seq<Step>, n: NodeId, node: RNode) {
    && NodeSeen(log, n) == NodeView(node.status, node.lastBufferClear)
    && node.packets == Kept(log, n)
    && IsHighest(log, n, node.highest)
    && CountsAre(log, n, node.counts)
  }

  ghost predicate SentBy(h: seq<Sent>, now: Duration) {
    SentInOrder(h) && forall i :: 0 <= i < |h| ==> h[i].at <= now
  }

  ghost predicate KnowsLink(log: seq<Step>, l: LinkId, link: RLink, bandwidth: nat, now: Duration) {
    && LinkSeen(log, l) == LinkView(link.status, link.lastDown)
    && link.(status := Up, lastDown := None) == Replayed(NEW_LINK, Departures(log, l), bandwidth)
    && SentBy(Departures(log, l), now)
  }

  ghost predicate KnowsNodes(v: VState, log: seq<Step>) {
    forall n :: n in v.nodes ==> KnowsNode(log, n, v.nodes[n])
  }

  ghost predicate KnowsLinks(m: Metadata, v: VState, log: seq<Step>) {
    forall l :: l in v.links && l in m.links ==> KnowsLink(log, l, v.links[l], m.links[l].bandwidth, v.lastStep)
  }

  ghost predicate KnowsLosses(v: VState, log: seq<Step>) {
    forall l :: Lost(v.lost, l) == TallyLost(log, l)
  }

  ghost predicate Knows(m: Metadata, v: VState, log: seq<Step>) {
    KnowsNodes(v, log) && KnowsLinks(m, v, log) && KnowsLosses(v, log) && v.inFlight == OnTheWay(log)
  }

  // ---- One more record ------------------------------------------------------------------------

  lemma OnTheWayAppend(log: seq<Step>, step: Step)
    ensures OnTheWay(log + [step])
         == OnTheWayAfter(OnTheWay(log), if step.kind.PacketInTransit? then Kept(log, step.kind.node) else map[], step)
  {
    assert (log + [step])[..|log|] == log;
  }

  lemma KeptAppend(log: seq<Step>, step: Step, n: NodeId)
    ensures Kept(log + [step], n) == KeptAfter(Kept(log, n), OnTheWay(log).Keys, n, step)
  {
    assert (log + [step])[..|log|] == log;
  }

  lemma DeparturesAppend(log: seq<Step>, step: Step, l: LinkId)
    ensures Departures(log + [step], l)
         == Departures(log, l)
            + if step.kind.PacketInTransit? && step.kind.link == l && step.kind.id in Kept(log, step.kind.node)
              then [Sent(step.time, Kept(log, step.kind.node)[step.kind.id].size)] else []
  {
    assert (log + [step])[..|log|] == log;
  }

  lemma TallyAppend(log: seq<Step>, step: Step, n: NodeId, what: Counter)
    ensures Tally(log + [step], n, what) == Book(Tally(log, n, what), Booked(log, step.kind, n, what))
  {
    assert (log + [step])[..|log|] == log;
  }

  lemma TallyLostAppend(log: seq<Step>, step: Step, l: LinkId)
    ensures TallyLost(log + [step], l) == Book(TallyLost(log, l), BookedLoss(log, step.kind, l))
  {
    assert (log + [step])[..|log|] == log;
  }

  lemma HighestAppend(log: seq<Step>, step: Step, n: NodeId, h: nat)
    requires IsHighest(log, n, h)
    ensures IsHighest(log + [step], n, if Arrives(log, step.kind, n) then Max(h, step.kind.number) else h)
  {
    hide OnTheWay;
    var more := log + [step];
    var h' := if Arrives(log, step.kind, n) then Max(h, step.kind.number) else h;
    assert more[..|log|] == log;
    forall i | 0 <= i < |more| && Arrives(more[..i], more[i].kind, n)
      ensures more[i].kind.number <= h'
    {
      if i < |log| {
        assert more[..i] == log[..i];
      }
    }
    if i :| 0 <= i < |log| && Arrives(log[..i], log[i].kind, n) && log[i].kind.number == h {
      assert more[..i] == log[..i] && more[i] == log[i];
      if h' != h {
        assert Arrives(more[..|log|], more[|log|].kind, n);
      }
    }
  }

  lemma OvertakenMeansHigher(log: seq<Step>, n: NodeId, h: nat, number: nat)
    requires IsHighest(log, n, h)
    ensures Overtaken(log, n, number) <==> number < h
  {
    hide OnTheWay;
  }

  // ---- A node ---------------------------------------------------------------------------------

  ghost predicate CountsOneMore(before: Counters, after: Counters, log: seq<Step>, kind: StepKind, n: NodeId) {
    forall what :: Of(after, what) == Book(Of(before, what), Booked(log, kind, n, what))
  }

  lemma CountsAppend(log: seq<Step>, step: Step, n: NodeId, before: Counters, after: Counters)
    requires CountsAre(log, n, before) && CountsOneMore(before, after, log, step.kind, n)
    ensures CountsAre(log + [step], n, after)
  {
    hide Of, Booked, Book, Tally;
    forall what
      ensures Of(after, what) == Tally(log + [step], n, what)
    {
      TallyAppend(log, step, n, what);
    }
  }

  /** What an operation on a node has to make of it. */
  ghost predicate NodeGoesOn(log: seq<Step>, step: Step, n: NodeId, before: RNode, after: RNode) {
    && NodeAfter(NodeView(before.status, before.lastBufferClear), n, step) == NodeView(after.status, after.lastBufferClear)
    && after.packets == KeptAfter(before.packets, OnTheWay(log).Keys, n, step)
    && after.highest == (if Arrives(log, step.kind, n) then Max(before.highest, step.kind.number) else before.highest)
    && CountsOneMore(before.counts, after.counts, log, step.kind, n)
  }

  lemma KnowsNodeAppend(log: seq<Step>, step: Step, n: NodeId, before: RNode, after: RNode)
    requires KnowsNode(log, n, before) && NodeGoesOn(log, step, n, before, after)
    ensures KnowsNode(log + [step], n, after)
  {
    hide NodeSeen, NodeAfter, Kept, KeptAfter, OnTheWay, Arrives, IsHighest, CountsAre, CountsOneMore;
    NodeSeenAppend(log, step, n);
    KeptAppend(log, step, n);
    HighestAppend(log, step, n, before.highest);
    CountsAppend(log, step, n, before.counts, after.counts);
  }

  /** The record is about node `n`. */
  predicate Concerns(kind: StepKind, n: NodeId) {
    match kind
    case PacketLostInTransit(_, _) => false
    case NetworkEvent(_, onNode) => onNode.Some? && onNode.value.node == n
    case _ => kind.node == n
  }

  lemma OthersGoOn(log: seq<Step>, step: Step, n: NodeId, node: RNode)
    requires !Concerns(step.kind, n)
    ensures NodeGoesOn(log, step, n, node, node)
  {
    hide Kept, OnTheWay, Overtaken, NodeSeen;
    forall what
      ensures Booked(log, step.kind, n, what) == None
    {
    }
  }

  lemma KnowsOtherNode(log: seq<Step>, step: Step, n: NodeId, node: RNode)
    requires KnowsNode(log, n, node) && !Concerns(step.kind, n)
    ensures KnowsNode(log + [step], n, node)
  {
    hide KnowsNode, NodeGoesOn, Concerns;
    OthersGoOn(log, step, n, node);
    KnowsNodeAppend(log, step, n, node, node);
  }

  lemma KnowsNodesAppend(log: seq<Step>, step: Step, v: VState, v': VState, n: NodeId)
    requires KnowsNodes(v, log) && n in v.nodes && v'.nodes.Keys == v.nodes.Keys
    requires forall k :: k in v.nodes && k != n ==> v'.nodes[k] == v.nodes[k] && !Concerns(step.kind, k)
    requires NodeGoesOn(log, step, n, v.nodes[n], v'.nodes[n])
    ensures KnowsNodes(v', log + [step])
  {
    hide KnowsNode, NodeGoesOn, Concerns;
    forall k | k in v'.nodes
      ensures KnowsNode(log + [step], k, v'.nodes[k])
    {
      if k == n {
        KnowsNodeAppend(log, step, n, v.nodes[n], v'.nodes[n]);
      } else {
        KnowsOtherNode(log, step, k, v.nodes[k]);
      }
    }
  }

  lemma KnowsSameNodes(log: seq<Step>, step: Step, v: VState, v': VState)
    requires KnowsNodes(v, log) && v'.nodes == v.nodes
    requires forall k :: k in v.nodes ==> !Concerns(step.kind, k)
    ensures KnowsNodes(v', log + [step])
  {
    hide KnowsNode, Concerns;
    forall k | k in v'.nodes
      ensures KnowsNode(log + [step], k, v'.nodes[k])
    {
      KnowsOtherNode(log, step, k, v.nodes[k]);
    }
  }

  // ---- Links and losses -----------------------------------------------------------------------

  lemma KnowsLinkQuietly(log: seq<Step>, step: Step, l: LinkId, link: RLink, bandwidth: nat, now: Duration)
    requires KnowsLink(log, l, link, bandwidth, now) && !SetsLink(step.kind, l)
    requires !(step.kind.PacketInTransit? && step.kind.link == l)
    ensures KnowsLink(log + [step], l, link, bandwidth, now)
  {
    hide LinkSeen, Replayed, Departures, SentBy, Kept;
    LinkSeenAppend(log, step, l);
    DeparturesAppend(log, step, l);
    assert Departures(log, l) + [] == Departures(log, l);
  }

  lemma KnowsLinksQuietly(m: Metadata, log: seq<Step>, step: Step, v: VState, v': VState)
    requires KnowsLinks(m, v, log) && v'.links == v.links && v'.lastStep == v.lastStep
    requires !step.kind.PacketInTransit? && forall l :: l in v.links ==> !SetsLink(step.kind, l)
    ensures KnowsLinks(m, v', log + [step])
  {
    hide KnowsLink, SetsLink;
    forall l | l in v'.links && l in m.links
      ensures KnowsLink(log + [step], l, v'.links[l], m.links[l].bandwidth, v'.lastStep)
    {
      KnowsLinkQuietly(log, step, l, v.links[l], m.links[l].bandwidth, v.lastStep);
    }
  }

  lemma KnowsLossesQuietly(log: seq<Step>, step: Step, v: VState, v': VState)
    requires KnowsLosses(v, log) && v'.lost == v.lost && !step.kind.PacketLostInTransit?
    ensures KnowsLosses(v', log + [step])
  {
    hide TallyLost, OnTheWay;
    forall l
      ensures Lost(v'.lost, l) == TallyLost(log + [step], l)
    {
      TallyLostAppend(log, step, l);
    }
  }

  // ---- Operations on a node -------------------------------------------------------------------

  /** An operation on node `n` does what the log asks for: it goes on, or stops, with the right complaints. */
  ghost predicate OpIsRight(m: Metadata, log: seq<Step>, step: Step, before: RNode, o: Outcome<RNode>, es: seq<NonFatalError>) {
    match FatalOf(m, log, step.kind)
    case Some(fatal) => o == Stop(fatal, es)
    case None => o.Done? && o.errors == es && NodeGoesOn(log, step, before.id, before, o.state)
  }

  ghost predicate Known(m: Metadata, log: seq<Step>, n: NodeId, node: RNode) {
    n in m.bufferSizes && node.id == n && node.Valid() && KnowsNode(log, n, node)
  }

  lemma DuplicationIsRight(m: Metadata, log: seq<Step>, step: Step, node: RNode)
    requires step.kind.PacketDuplicated? && Known(m, log, step.kind.node, node)
    ensures OpIsRight(m, log, step, node, node.PacketDuplicated(step.kind.id, step.kind.size, step.time),
                      Complaints(m, log, step))
  {
    hide RNode.Valid, Kept, OnTheWay, NodeSeen, IsHighest, CountsAre, Overtaken;
  }

  lemma EntryIsRight(m: Metadata, log: seq<Step>, step: Step, node: RNode)
    requires step.kind.PacketInNode? && step.kind.id !in OnTheWay(log) && Known(m, log, step.kind.node, node)
    ensures OpIsRight(m, log, step, node, node.AddPacket(step.kind.id, step.kind.size, step.time), Complaints(m, log, step))
  {
    hide RNode.Valid, Kept, OnTheWay, NodeSeen, IsHighest, CountsAre, Overtaken;
  }

  lemma DropIsRight(m: Metadata, log: seq<Step>, step: Step, node: RNode)
    requires step.kind.PacketDropped? && Known(m, log, step.kind.node, node)
    ensures OpIsRight(m, log, step, node, node.PacketDropped(step.kind.id, step.kind.reason), Complaints(m, log, step))
  {
    hide RNode.Valid, Kept, OnTheWay, NodeSeen, IsHighest, CountsAre, Overtaken;
  }

  lemma ReadingIsRight(m: Metadata, log: seq<Step>, step: Step, node: RNode)
    requires step.kind.PacketDeliveredToApplication? && Known(m, log, step.kind.node, node)
    ensures OpIsRight(m, log, step, node, node.RemovePacket(step.kind.id), Complaints(m, log, step))
  {
    hide RNode.Valid, Kept, OnTheWay, NodeSeen, IsHighest, CountsAre, Overtaken;
  }

  lemma DelayIsRight(m: Metadata, log: seq<Step>, step: Step, node: RNode)
    requires step.kind.PacketExtraDelay? && Known(m, log, step.kind.node, node)
    ensures OpIsRight(m, log, step, node, node.PacketHasExtraDelay(step.kind.id, step.kind.extraDelay),
                      Complaints(m, log, step))
  {
    hide RNode.Valid, Kept, OnTheWay, NodeSeen, IsHighest, CountsAre, Overtaken;
  }

  lemma CongestionIsRight(m: Metadata, log: seq<Step>, step: Step, node: RNode)
    requires step.kind.PacketCongestionEvent? && Known(m, log, step.kind.node, node)
    ensures OpIsRight(m, log, step, node, Done(node.PacketEcn(step.kind.size), []), Complaints(m, log, step))
  {
    hide RNode.Valid, Kept, OnTheWay, NodeSeen, IsHighest, CountsAre, Overtaken;
  }

  lemma EventIsRight(m: Metadata, log: seq<Step>, step: Step, node: RNode)
    requires step.kind.NetworkEvent? && step.kind.nodeEvent.Some? && Known(m, log, step.kind.nodeEvent.value.node, node)
    ensures NodeGoesOn(log, step, node.id, node, node.HandleEvent(step.kind.nodeEvent.value, step.time))
  {
    hide RNode.Valid, Kept, OnTheWay, NodeSeen, IsHighest, CountsAre, Overtaken;
  }

  /** A packet that was on its way arrives: what the node itself has to say. */
  function ArrivalComplaints(m: Metadata, log: seq<Step>, n: NodeId, id: PacketId, dropped: bool): seq<NonFatalError> {
    if dropped then If(n in m.bufferSizes && NodeSeen(log, n).status == Up, NodeUpPacketDroppedOnArrival(n, id))
    else DownComplaint(m, log, n, NodeDownPacketReceive(n, id))
  }

  lemma ArrivalIsRight(m: Metadata, log: seq<Step>, step: Step, node: RNode)
    requires step.kind.PacketInNode? && step.kind.id in OnTheWay(log) && Known(m, log, step.kind.node, node)
    ensures OpIsRight(m, log, step, node,
                      node.PacketReceived(step.kind.id, step.kind.number, step.kind.size, step.kind.droppedOnArrival, step.time),
                      ArrivalComplaints(m, log, step.kind.node, step.kind.id, step.kind.droppedOnArrival))
  {
    hide RNode.Valid, Kept, OnTheWay, NodeSeen, IsHighest, CountsAre, Overtaken;
    OvertakenMeansHigher(log, step.kind.node, node.highest, step.kind.number);
  }

  /** What the node has to say of a packet that is sent. */
  function NodeSendComplaints(m: Metadata, log: seq<Step>, n: NodeId, id: PacketId): seq<NonFatalError> {
    var clear := NodeSeen(log, n).lastClear;
    DownComplaint(m, log, n, NodeDownPacketSend(n, id))
    + If(MissingAt(m, log, n, id).None? && clear.Some? && Kept(log, n)[id].arrivedAt < clear.value,
         PacketSurvivedBufferCorruption(n, id))
  }

  lemma SendIsRight(m: Metadata, log: seq<Step>, step: Step, node: RNode)
    requires step.kind.PacketInTransit? && Known(m, log, step.kind.node, node)
    ensures var o, es := node.PacketSent(step.kind.id), NodeSendComplaints(m, log, step.kind.node, step.kind.id);
            match MissingAt(m, log, step.kind.node, step.kind.id)
            case Some(fatal) => o == Stop(fatal, es)
            case None => o.Done? && o.errors == es && NodeGoesOn(log, step, node.id, node, o.state)
  {
    hide RNode.Valid, Kept, OnTheWay, NodeSeen, IsHighest, CountsAre, Overtaken;
  }

  // ---- Steps of the verifier ------------------------------------------------------------------

  ghost predicate StepIsRight(m: Metadata, v: VState, log: seq<Step>, step: Step, r: Verdict) {
    match FatalOf(m, log, step.kind)
    case Some(fatal) => r == Fails(fatal, v.errors + Complaints(m, log, step))
    case None => r.Continues? && Knows(m, r.v, log + [step]) && r.v.errors == v.errors + Complaints(m, log, step)
  }

  lemma KnownNode(m: Metadata, v: VState, log: seq<Step>, n: NodeId)
    requires v.Valid(m) && Knows(m, v, log) && n in v.nodes
    ensures Known(m, log, n, v.nodes[n])
  {
    hide RNode.Valid, RLink.Valid, KnowsNode, KnowsLink;
  }

  lemma NodesAre(m: Metadata, v: VState)
    requires v.Valid(m)
    ensures v.nodes.Keys == m.bufferSizes.Keys && v.links.Keys == m.links.Keys
  {
    hide RNode.Valid, RLink.Valid;
  }

  /** Records that only concern a node. */
  predicate OnlyNode(log: seq<Step>, kind: StepKind) {
    || kind.PacketDuplicated? || kind.PacketDropped? || kind.PacketDeliveredToApplication? || kind.PacketExtraDelay?
    || kind.PacketCongestionEvent? || (kind.PacketInNode? && kind.id !in OnTheWay(log))
  }

  lemma SameOnTheWay(log: seq<Step>, step: Step)
    requires OnlyNode(log, step.kind)
    ensures OnTheWay(log + [step]) == OnTheWay(log)
  {
    hide OnTheWay, Kept;
    OnTheWayAppend(log, step);
  }

  lemma NodeStepIsRight(m: Metadata, v: VState, log: seq<Step>, step: Step, o: Outcome<RNode>)
    requires v.Valid(m) && Knows(m, v, log) && OnlyNode(log, step.kind) && step.kind.node in v.nodes
    requires OpIsRight(m, log, step, v.nodes[step.kind.node], o, Complaints(m, log, step))
    ensures StepIsRight(m, v, log, step, WithNode(v, step.kind.node, o))
  {
    hide VState.Valid, NodeGoesOn, KnowsNodes, KnowsLinks, KnowsLosses, FatalOf, Complaints, OnTheWay;
    KnownNode(m, v, log, step.kind.node);
    if FatalOf(m, log, step.kind).None? {
      var v' := WithNode(v, step.kind.node, o).v;
      SameOnTheWay(log, step);
      KnowsNodesAppend(log, step, v, v', step.kind.node);
      KnowsLinksQuietly(m, log, step, v, v');
      KnowsLossesQuietly(log, step, v, v');
    }
  }

  lemma MissingNodeIsRight(m: Metadata, v: VState, log: seq<Step>, step: Step)
    requires OnlyNode(log, step.kind) && step.kind.node !in m.bufferSizes
    ensures StepIsRight(m, v, log, step, Fails(MissingNode(step.kind.node), v.errors))
  {
    hide Kept, OnTheWay, NodeSeen;
    assert v.errors + [] == v.errors;
    assert Complaints(m, log, step) == [];
  }

  lemma OnlyNodeIsRight(m: Metadata, v: VState, log: seq<Step>, step: Step)
    requires v.Valid(m) && v.lastStep == step.time && Knows(m, v, log) && OnlyNode(log, step.kind)
    ensures StepIsRight(m, v, log, step, OnStep(m, v, step.time, step.kind))
  {
    hide VState.Valid, Knows, Known, OpIsRight, StepIsRight, Complaints, WithNode, OnTheWay, RNode.PacketDuplicated,
         RNode.PacketDropped, RNode.RemovePacket, RNode.PacketHasExtraDelay, RNode.PacketEcn, RNode.AddPacket;
    NodesAre(m, v);
    InFlightIs(m, v, log);
    if step.kind.node !in v.nodes {
      MissingNodeIsRight(m, v, log, step);
    } else {
      KnownNode(m, v, log, step.kind.node);
      NodeIsSound(m, v, step.kind.node);
      var node := v.nodes[step.kind.node];
      match step.kind
      case PacketDuplicated(id, _, size, _) =>
        DuplicationIsRight(m, log, step, node);
        NodeStepIsRight(m, v, log, step, node.PacketDuplicated(id, size, step.time));
      case PacketDropped(id, _, reason) =>
        DropIsRight(m, log, step, node);
        NodeStepIsRight(m, v, log, step, node.PacketDropped(id, reason));
      case PacketDeliveredToApplication(id, _, _, _) =>
        ReadingIsRight(m, log, step, node);
        NodeStepIsRight(m, v, log, step, node.RemovePacket(id));
      case PacketExtraDelay(id, _, delay) =>
        DelayIsRight(m, log, step, node);
        NodeStepIsRight(m, v, log, step, node.PacketHasExtraDelay(id, delay));
      case PacketCongestionEvent(_, _, size, _) =>
        CongestionIsRight(m, log, step, node);
        NodeStepIsRight(m, v, log, step, Done(node.PacketEcn(size), []));
      case PacketInNode(id, _, size, _, _) =>
        EntryIsRight(m, log, step, node);
        NodeStepIsRight(m, v, log, step, node.AddPacket(id, size, step.time));
    }
  }

  lemma InFlightIs(m: Metadata, v: VState, log: seq<Step>)
    requires Knows(m, v, log)
    ensures v.inFlight == OnTheWay(log)
  {
    hide KnowsNodes, KnowsLinks, KnowsLosses;
  }

  // ---- Arrivals -------------------------------------------------------------------------------

  lemma ReceiveErrorsAre(m: Metadata, v: VState, log: seq<Step>, time: Duration, n: NodeId, f: InFlightPacket)
    requires KnowsLinks(m, v, log) && f.link in m.links && f.link in v.links && f.sentAt <= time
    ensures ReceiveErrors(m, v, time, n, f) == FlightComplaints(m, log, time, n, f)
  {
    hide LinkSeen, Departures, Replayed, SentBy;
    assert KnowsLink(log, f.link, v.links[f.link], m.links[f.link].bandwidth, v.lastStep);
  }

  lemma KnowsAfterArrival(m: Metadata, v: VState, log: seq<Step>, step: Step, node: RNode, es: seq<NonFatalError>)
    requires Knows(m, v, log) && step.kind.PacketInNode? && step.kind.id in OnTheWay(log) && step.kind.node in v.nodes
    requires NodeGoesOn(log, step, step.kind.node, v.nodes[step.kind.node], node)
    ensures Knows(m, v.(nodes := v.nodes[step.kind.node := node], inFlight := v.inFlight - {step.kind.id}, errors := es),
                  log + [step])
  {
    hide NodeGoesOn, KnowsNodes, KnowsLinks, KnowsLosses, OnTheWay;
    var v' := v.(nodes := v.nodes[step.kind.node := node], inFlight := v.inFlight - {step.kind.id}, errors := es);
    OnTheWayAppend(log, step);
    KnowsNodesAppend(log, step, v, v', step.kind.node);
    KnowsLinksQuietly(m, log, step, v, v');
    KnowsLossesQuietly(log, step, v, v');
  }

  lemma ArrivalComplaintsAre(m: Metadata, log: seq<Step>, step: Step)
    requires step.kind.PacketInNode? && step.kind.id in OnTheWay(log) && OnTheWay(log)[step.kind.id].link in m.links
    ensures Complaints(m, log, step)
         == FlightComplaints(m, log, step.time, step.kind.node, OnTheWay(log)[step.kind.id])
            + ArrivalComplaints(m, log, step.kind.node, step.kind.id, step.kind.droppedOnArrival)
  {
    hide OnTheWay, FlightComplaints;
  }

  lemma ArrivalStepIsRight(m: Metadata, v: VState, log: seq<Step>, step: Step)
    requires v.Valid(m) && v.lastStep == step.time && Knows(m, v, log)
    requires step.kind.PacketInNode? && step.kind.id in OnTheWay(log)
    ensures StepIsRight(m, v, log, step, OnStep(m, v, step.time, step.kind))
  {
    hide VState.Valid, KnowsNodes, KnowsLinks, KnowsLosses, Complaints, OnTheWay, Kept, ReceiveErrors, FlightComplaints,
         ArrivalComplaints, RNode.PacketReceived, NodeGoesOn, Known;
    NodesAre(m, v);
    var k, f := step.kind, OnTheWay(log)[step.kind.id];
    FlightIsSound(m, v, k.id);
    ReceiveErrorsAre(m, v, log, step.time, k.node, f);
    ArrivalComplaintsAre(m, log, step);
    ValidWithout(m, v, k.id, ReceiveErrors(m, v, step.time, k.node, f));
    var v1 := v.(inFlight := v.inFlight - {k.id}).Track(ReceiveErrors(m, v, step.time, k.node, f));
    if k.node in v.nodes {
      KnownNode(m, v, log, k.node);
      assert v.nodes[k.node].id == k.node by { NodeIsSound(m, v, k.node); }
      ArrivalIsRight(m, log, step, v.nodes[k.node]);
      var o := v.nodes[k.node].PacketReceived(k.id, k.number, k.size, k.droppedOnArrival, step.time);
      if FatalOf(m, log, k).None? {
        KnowsAfterArrival(m, v, log, step, o.state, v1.errors + o.errors);
      }
    } else {
      NothingToSay(m, log, k.node, k.id, k.droppedOnArrival);
    }
  }

  lemma NothingToSay(m: Metadata, log: seq<Step>, n: NodeId, id: PacketId, dropped: bool)
    requires n !in m.bufferSizes
    ensures ArrivalComplaints(m, log, n, id, dropped) == []
  {
  }

  // ---- Losses ---------------------------------------------------------------------------------

  lemma KnowsMoreLosses(log: seq<Step>, step: Step, v: VState, v': VState)
    requires KnowsLosses(v, log) && step.kind.PacketLostInTransit? && step.kind.id in OnTheWay(log)
    requires v'.lost == v.lost[step.kind.link := Lost(v.lost, step.kind.link).TrackOne(OnTheWay(log)[step.kind.id].size)]
    ensures KnowsLosses(v', log + [step])
  {
    hide TallyLost, OnTheWay;
    forall l
      ensures Lost(v'.lost, l) == TallyLost(log + [step], l)
    {
      TallyLostAppend(log, step, l);
    }
  }

  lemma NoMoreLosses(log: seq<Step>, step: Step, v: VState, v': VState)
    requires KnowsLosses(v, log) && step.kind.PacketLostInTransit? && step.kind.id !in OnTheWay(log) && v'.lost == v.lost
    ensures KnowsLosses(v', log + [step])
  {
    hide TallyLost, OnTheWay;
    forall l
      ensures Lost(v'.lost, l) == TallyLost(log + [step], l)
    {
      TallyLostAppend(log, step, l);
    }
  }

  lemma LossStepIsRight(m: Metadata, v: VState, log: seq<Step>, step: Step)
    requires v.Valid(m) && v.lastStep == step.time && Knows(m, v, log) && step.kind.PacketLostInTransit?
    ensures StepIsRight(m, v, log, step, OnStep(m, v, step.time, step.kind))
  {
    hide VState.Valid, KnowsNodes, KnowsLinks, KnowsLosses, OnTheWay, TallyLost;
    var v' := OnStep(m, v, step.time, step.kind).v;
    OnTheWayAppend(log, step);
    KnowsSameNodes(log, step, v, v');
    KnowsLinksQuietly(m, log, step, v, v');
    if step.kind.id in v.inFlight {
      KnowsMoreLosses(log, step, v, v');
      assert v.errors + [] == v.errors;
    } else {
      NoMoreLosses(log, step, v, v');
    }
  }

  // ---- Departures -----------------------------------------------------------------------------

  lemma ObservedHere(m: Metadata, v: VState, log: seq<Step>, l: LinkId, now: Duration, size: nat)
    requires KnowsLinks(m, v, log) && l in v.links && l in m.links && v.lastStep == now
    ensures var bandwidth := m.links[l].bandwidth;
            v.links[l].PacketSent(now, size, bandwidth).usage / WindowSeconds(bandwidth)
            == Observed(Departures(log, l) + [Sent(now, size)], bandwidth)
  {
    hide LinkSeen, Departures, Replayed, WindowSeconds, Observed, RLink.PacketSent;
    assert KnowsLink(log, l, v.links[l], m.links[l].bandwidth, v.lastStep);
    ObservedByVerifier(Departures(log, l), Sent(now, size), v.links[l], m.links[l].bandwidth);
  }

  lemma KnowsLinkAfterSend(log: seq<Step>, step: Step, link: RLink, bandwidth: nat)
    requires step.kind.PacketInTransit? && KnowsLink(log, step.kind.link, link, bandwidth, step.time)
    requires step.kind.id in Kept(log, step.kind.node)
    ensures KnowsLink(log + [step], step.kind.link,
                      link.PacketSent(step.time, Kept(log, step.kind.node)[step.kind.id].size, bandwidth), bandwidth, step.time)
  {
    hide LinkSeen, Departures, Kept, WindowSeconds, DropOld, Bits;
    var l := step.kind.link;
    LinkSeenAppend(log, step, l);
    DeparturesAppend(log, step, l);
    var h, more := Departures(log, l), Departures(log + [step], l);
    assert more[..|more| - 1] == h;
  }

  lemma KnowsLinksAfterSend(m: Metadata, log: seq<Step>, step: Step, v: VState, v': VState)
    requires KnowsLinks(m, v, log) && step.kind.PacketInTransit? && step.kind.id in Kept(log, step.kind.node)
    requires step.kind.link in v.links && step.kind.link in m.links && v.lastStep == step.time == v'.lastStep
    requires v'.links == v.links[step.kind.link := v.links[step.kind.link].PacketSent(
                           step.time, Kept(log, step.kind.node)[step.kind.id].size, m.links[step.kind.link].bandwidth)]
    ensures KnowsLinks(m, v', log + [step])
  {
    hide KnowsLink, RLink.PacketSent, Kept;
    forall l | l in v'.links && l in m.links
      ensures KnowsLink(log + [step], l, v'.links[l], m.links[l].bandwidth, v'.lastStep)
    {
      if l == step.kind.link {
        KnowsLinkAfterSend(log, step, v.links[l], m.links[l].bandwidth);
      } else {
        KnowsLinkQuietly(log, step, l, v.links[l], m.links[l].bandwidth, v.lastStep);
      }
    }
  }

  lemma KnowsAfterSend(m: Metadata, v: VState, log: seq<Step>, step: Step, node: RNode, link: RLink, f: InFlightPacket,
                       es: seq<NonFatalError>)
    requires Knows(m, v, log) && step.kind.PacketInTransit? && step.kind.node in v.nodes && v.lastStep == step.time
    requires step.kind.id in Kept(log, step.kind.node) && step.kind.link in v.links && step.kind.link in m.links
    requires NodeGoesOn(log, step, step.kind.node, v.nodes[step.kind.node], node)
    requires var p := Kept(log, step.kind.node)[step.kind.id];
             && link == v.links[step.kind.link].PacketSent(step.time, p.size, m.links[step.kind.link].bandwidth)
             && f == InFlightPacket(p.size, step.time, p.extraDelay, step.kind.link)
    ensures Knows(m, v.(nodes := v.nodes[step.kind.node := node], links := v.links[step.kind.link := link],
                        inFlight := v.inFlight[step.kind.id := f], errors := es), log + [step])
  {
    hide NodeGoesOn, KnowsNodes, KnowsLinks, KnowsLosses, OnTheWay, Kept, RLink.PacketSent;
    var v' := v.(nodes := v.nodes[step.kind.node := node], links := v.links[step.kind.link := link],
                 inFlight := v.inFlight[step.kind.id := f], errors := es);
    OnTheWayAppend(log, step);
    KnowsNodesAppend(log, step, v, v', step.kind.node);
    KnowsLinksAfterSend(m, log, step, v, v');
    KnowsLossesQuietly(log, step, v, v');
  }

  lemma SendErrorsAre(m: Metadata, v: VState, log: seq<Step>, id: PacketId, n: NodeId, l: LinkId, observed: nat)
    requires KnowsLinks(m, v, log) && l in v.links && l in m.links
    ensures SendErrors(m, v, id, n, l, observed)
         == If(n != m.links[l].source, DisconnectedPacketSend(n, l))
            + If(LinkSeen(log, l).status == Down, OfflinePacketSend(n, l))
            + If(m.links[l].bandwidth < observed, LinkBandwidthExceeded(n, l, id, m.links[l].bandwidth, observed))
  {
    hide LinkSeen, Departures, Replayed, SentBy;
    assert KnowsLink(log, l, v.links[l], m.links[l].bandwidth, v.lastStep);
  }

  lemma SendComplaintsAre(m: Metadata, log: seq<Step>, step: Step)
    requires step.kind.PacketInTransit?
    ensures var id, n, l := step.kind.id, step.kind.node, step.kind.link;
            && (FatalOf(m, log, step.kind).Some? ==> Complaints(m, log, step) == NodeSendComplaints(m, log, n, id))
            && (FatalOf(m, log, step.kind).None? ==>
                  && l in m.links && id in Kept(log, n)
                  && var h, bandwidth := Departures(log, l) + [Sent(step.time, Kept(log, n)[id].size)], m.links[l].bandwidth;
                     Complaints(m, log, step)
                     == NodeSendComplaints(m, log, n, id)
                        + (If(n != m.links[l].source, DisconnectedPacketSend(n, l))
                           + If(LinkSeen(log, l).status == Down, OfflinePacketSend(n, l))
                           + If(bandwidth < Observed(h, bandwidth),
                                LinkBandwidthExceeded(n, l, id, bandwidth, Observed(h, bandwidth)))))
  {
    hide Kept, NodeSeen, LinkSeen, Departures, Observed;
    var c := NodeSendComplaints(m, log, step.kind.node, step.kind.id);
    assert c + [] == c;
  }

  lemma DepartureStepIsRight(m: Metadata, v: VState, log: seq<Step>, step: Step)
    requires v.Valid(m) && v.lastStep == step.time && Knows(m, v, log) && step.kind.PacketInTransit?
    ensures StepIsRight(m, v, log, step, OnStep(m, v, step.time, step.kind))
  {
    hide VState.Valid, KnowsNodes, KnowsLinks, KnowsLosses, Complaints, OnTheWay, Kept, SendErrors, NodeSendComplaints,
         RNode.PacketSent, RLink.PacketSent, NodeGoesOn, KnowsNode, LinkSeen, Departures, Observed, WindowSeconds;
    NodesAre(m, v);
    var k := step.kind;
    SendComplaintsAre(m, log, step);
    if k.node in v.nodes {
      KnownNode(m, v, log, k.node);
      NodePackets(m, v, log, k.node);
      SendIsRight(m, log, step, v.nodes[k.node]);
      if FatalOf(m, log, k).None? {
        var o, p := v.nodes[k.node].PacketSent(k.id), Kept(log, k.node)[k.id];
        var bandwidth := m.links[k.link].bandwidth;
        var link := v.links[k.link].PacketSent(step.time, p.size, bandwidth);
        var observed := link.usage / WindowSeconds(bandwidth);
        ObservedHere(m, v, log, k.link, step.time, p.size);
        SendErrorsAre(m, v, log, k.id, k.node, k.link, observed);
        KnowsAfterSend(m, v, log, step, o.state, link, InFlightPacket(p.size, step.time, p.extraDelay, k.link),
                       v.errors + (o.errors + SendErrors(m, v, k.id, k.node, k.link, observed)));
      }
    } else {
      NoSendComplaints(m, log, k.node, k.id);
    }
  }

  lemma NodePackets(m: Metadata, v: VState, log: seq<Step>, n: NodeId)
    requires Knows(m, v, log) && n in v.nodes
    ensures v.nodes[n].packets == Kept(log, n)
  {
    hide KnowsLinks, KnowsLosses, Kept, NodeSeen, IsHighest, CountsAre;
    assert KnowsNode(log, n, v.nodes[n]);
  }

  lemma NoSendComplaints(m: Metadata, log: seq<Step>, n: NodeId, id: PacketId)
    requires n !in m.bufferSizes
    ensures NodeSendComplaints(m, log, n, id) == []
  {
    hide NodeSeen, Kept;
  }

  // ---- Events ---------------------------------------------------------------------------------

  lemma KnowsLinksAfterEvent(m: Metadata, log: seq<Step>, step: Step, v: VState, l: LinkId, status: Status, v': VState)
    requires KnowsLinks(m, v, log) && step.kind.NetworkEvent? && v.lastStep == step.time == v'.lastStep && l in v.links
    requires SetsLink(step.kind, l) && step.kind.linkEvent.value.status.value == status
    requires v'.links == v.links[l := v.links[l].SetStatus(status, step.time)]
    ensures KnowsLinks(m, v', log + [step])
  {
    hide LinkSeen, Departures, Replayed, SentBy, Kept;
    forall k | k in v'.links && k in m.links
      ensures KnowsLink(log + [step], k, v'.links[k], m.links[k].bandwidth, v'.lastStep)
    {
      assert KnowsLink(log, k, v.links[k], m.links[k].bandwidth, v.lastStep);
      LinkSeenAppend(log, step, k);
      DeparturesAppend(log, step, k);
      assert Departures(log, k) + [] == Departures(log, k);
    }
  }

  lemma KnowsLinksAtEvent(m: Metadata, log: seq<Step>, step: Step, v: VState, v': VState)
    requires v.Valid(m) && KnowsLinks(m, v, log) && step.kind.NetworkEvent? && v.lastStep == step.time == v'.lastStep
    requires OnLinkEvent(m, v, step.time, step.kind.linkEvent).Continues?
    requires v'.links == OnLinkEvent(m, v, step.time, step.kind.linkEvent).v.links
    ensures KnowsLinks(m, v', log + [step])
  {
    hide VState.Valid, KnowsLinks, RLink.SetStatus;
    var e := step.kind.linkEvent;
    if e.Some? && e.value.status.Some? {
      KnowsLinksAfterEvent(m, log, step, v, e.value.link, e.value.status.value, v');
    } else {
      KnowsLinksQuietly(m, log, step, v, v');
    }
  }

  lemma KnowsNodesAtEvent(m: Metadata, log: seq<Step>, step: Step, v: VState, v': VState)
    requires v.Valid(m) && Knows(m, v, log) && step.kind.NetworkEvent? && v.lastStep == step.time
    requires match step.kind.nodeEvent
             case None => v'.nodes == v.nodes
             case Some(e) => e.node in v.nodes && v'.nodes == v.nodes[e.node := v.nodes[e.node].HandleEvent(e, step.time)]
    ensures KnowsNodes(v', log + [step])
  {
    hide VState.Valid, KnowsNodes, KnowsLinks, KnowsLosses, RNode.HandleEvent, NodeGoesOn;
    match step.kind.nodeEvent
    case None => KnowsSameNodes(log, step, v, v');
    case Some(e) =>
      KnownNode(m, v, log, e.node);
      EventIsRight(m, log, step, v.nodes[e.node]);
      KnowsNodesAppend(log, step, v, v', e.node);
  }

  lemma EventStepIsRight(m: Metadata, v: VState, log: seq<Step>, step: Step)
    requires v.Valid(m) && v.lastStep == step.time && Knows(m, v, log) && step.kind.NetworkEvent?
    ensures StepIsRight(m, v, log, step, OnStep(m, v, step.time, step.kind))
  {
    hide VState.Valid, KnowsNodes, KnowsLinks, KnowsLosses, OnTheWay, RNode.HandleEvent, RLink.SetStatus;
    NodesAre(m, v);
    assert v.errors + [] == v.errors;
    if FatalOf(m, log, step.kind).None? {
      var v' := OnStep(m, v, step.time, step.kind).v;
      OnTheWayAppend(log, step);
      KnowsLinksAtEvent(m, log, step, v, v');
      KnowsNodesAtEvent(m, log, step, v, v');
      KnowsLossesQuietly(log, step, v, v');
    }
  }

  lemma EveryStepIsRight(m: Metadata, v: VState, log: seq<Step>, step: Step)
    requires v.Valid(m) && v.lastStep == step.time && Knows(m, v, log)
    ensures StepIsRight(m, v, log, step, OnStep(m, v, step.time, step.kind))
  {
    hide VState.Valid, Knows, StepIsRight, OnStep, OnTheWay;
    match step.kind
    case PacketInNode(id, _, _, _, _) =>
      if id in OnTheWay(log) {
        ArrivalStepIsRight(m, v, log, step);
      } else {
        OnlyNodeIsRight(m, v, log, step);
      }
    case PacketInTransit(_, _, _) => DepartureStepIsRight(m, v, log, step);
    case PacketLostInTransit(_, _) => LossStepIsRight(m, v, log, step);
    case NetworkEvent(_, _) => EventStepIsRight(m, v, log, step);
    case _ => OnlyNodeIsRight(m, v, log, step);
  }

  // ---- The clock ------------------------------------------------------------------------------

  lemma {:induction false} UpdateReportsBuffers(m: Metadata, v: VState, k: nat)
    requires v.Valid(m) && k <= |m.order|
    ensures Others(UpdateFrom(m, v, k).errors) == Others(v.errors)
    decreases |m.order| - k
  {
    hide VState.Valid, Bump, Others, UpdateFrom;
    if k < |m.order| {
      UpdateRound(m, v, k);
      var n := m.order[k];
      var v' := Bump(m, v, n);
      BumpSaysNothing(m, v, n);
      if m.bufferSizes[n] >= v'.nodes[n].maxUsage {
        UpdateReportsBuffers(m, v', k + 1);
      } else {
        OthersWithBufferReport(v.errors, NodeExceedsBufferSize(n, m.bufferSizes[n], v'.nodes[n].maxUsage));
      }
    } else {
      UpdateIsOver(m, v, k);
    }
  }

  lemma BumpSaysNothing(m: Metadata, v: VState, n: NodeId)
    requires v.Valid(m) && n in v.nodes
    ensures Bump(m, v, n).errors == v.errors
  {
  }

  lemma UpdateIsOver(m: Metadata, v: VState, k: nat)
    requires v.Valid(m) && k == |m.order|
    ensures UpdateFrom(m, v, k) == v
  {
  }

  lemma KnowsSameButMaxima(m: Metadata, v: VState, v': VState, log: seq<Step>)
    requires Knows(m, v, log) && SameButMaxima(v, v')
    ensures Knows(m, v', log)
  {
    hide Kept, OnTheWay, IsHighest, CountsAre, NodeSeen, KnowsLink, TallyLost;
    forall n | n in v'.nodes
      ensures KnowsNode(log, n, v'.nodes[n])
    {
      assert KnowsNode(log, n, v.nodes[n]);
    }
    assert forall l :: l in v'.links && l in m.links ==>
        KnowsLink(log, l, v.links[l], m.links[l].bandwidth, v.lastStep);
  }

  lemma KnowsLater(m: Metadata, v: VState, v': VState, log: seq<Step>)
    requires Knows(m, v, log) && v' == v.(lastUpdate := v'.lastUpdate, lastStep := v'.lastStep) && v.lastStep <= v'.lastStep
    ensures Knows(m, v', log)
  {
    hide Kept, OnTheWay, KnowsNode, TallyLost, LinkSeen, Replayed, Departures;
    forall l | l in v'.links && l in m.links
      ensures KnowsLink(log, l, v'.links[l], m.links[l].bandwidth, v'.lastStep)
    {
      assert KnowsLink(log, l, v.links[l], m.links[l].bandwidth, v.lastStep);
    }
  }

  lemma KnowsAfterUpdate(m: Metadata, v: VState, log: seq<Step>)
    requires v.Valid(m) && Knows(m, v, log)
    ensures Knows(m, UpdateMaxBufferUsage(m, v), log) && Others(UpdateMaxBufferUsage(m, v).errors) == Others(v.errors)
    ensures UpdateMaxBufferUsage(m, v).lastStep == v.lastStep
  {
    hide VState.Valid, Knows, UpdateFrom;
    UpdateKeepsTheRest(m, v, 0);
    UpdateReportsBuffers(m, v, 0);
    KnowsSameButMaxima(m, v, UpdateFrom(m, v, 0), log);
  }

  lemma KnowsAfterTick(m: Metadata, v: VState, log: seq<Step>, now: Duration)
    requires v.Valid(m) && v.lastStep <= now && Knows(m, v, log)
    ensures Knows(m, Tick(m, v, now), log) && Others(Tick(m, v, now).errors) == Others(v.errors)
  {
    hide VState.Valid, Knows, UpdateMaxBufferUsage;
    if now != v.lastStep {
      KnowsAfterUpdate(m, v, log);
      KnowsLater(m, UpdateMaxBufferUsage(m, v), Tick(m, v, now), log);
    }
  }

  // ---- Whole logs -----------------------------------------------------------------------------

  /** All the complaints about the steps of a log, in order. */
  function AllComplaints(m: Metadata, log: seq<Step>): seq<NonFatalError> {
    if log == [] then []
    else AllComplaints(m, log[..|log| - 1]) + Complaints(m, log[..|log| - 1], log[|log| - 1])
  }

  ghost predicate Fine(m: Metadata, log: seq<Step>) {
    forall i :: 0 <= i < |log| ==> FatalOf(m, log[..i], log[i].kind).None?
  }

  /** The i-th step is the first one that makes the verifier stop, with this error. */
  ghost predicate StopsAt(m: Metadata, log: seq<Step>, i: int, fatal: FatalError) {
    0 <= i < |log| && Fine(m, log[..i]) && FatalOf(m, log[..i], log[i].kind) == Some(fatal)
  }

  /** What the verifier comes to: it stops at the first step that is fatal, or goes through; and complains in between. */
  ghost predicate IsVerdict(m: Metadata, log: seq<Step>, r: Verdict) {
    match r
    case Continues(v) => Fine(m, log) && Others(v.errors) == AllComplaints(m, log)
    case Fails(fatal, es) => exists i :: StopsAt(m, log, i, fatal) && Others(es) == AllComplaints(m, log[..i + 1])
  }

  lemma ComplaintsAreOthers(m: Metadata, log: seq<Step>, step: Step)
    ensures Others(Complaints(m, log, step)) == Complaints(m, log, step)
  {
    NoBufferComplaints(m, log, step);
    AllOthers(Complaints(m, log, step));
  }

  ghost predicate NotOfBuffers(es: seq<NonFatalError>) {
    forall i :: 0 <= i < |es| ==> !es[i].NodeExceedsBufferSize?
  }

  lemma NeitherOfBuffers(a: seq<NonFatalError>, b: seq<NonFatalError>)
    requires NotOfBuffers(a) && NotOfBuffers(b)
    ensures NotOfBuffers(a + b)
  {
  }

  lemma FlightNotOfBuffers(m: Metadata, log: seq<Step>, time: Duration, n: NodeId, f: InFlightPacket)
    requires f.link in m.links
    ensures NotOfBuffers(FlightComplaints(m, log, time, n, f))
  {
    hide LinkSeen;
  }

  lemma SendNotOfBuffers(m: Metadata, log: seq<Step>, step: Step)
    requires step.kind.PacketInTransit?
    ensures NotOfBuffers(Complaints(m, log, step))
  {
    hide Kept, NodeSeen, LinkSeen, Departures, Observed;
  }

  lemma NoBufferComplaints(m: Metadata, log: seq<Step>, step: Step)
    ensures NotOfBuffers(Complaints(m, log, step))
  {
    hide Kept, OnTheWay, NodeSeen, FlightComplaints, FatalOf, MissingAt, NotOfBuffers, If, DownComplaint;
    match step.kind
    case PacketInNode(id, _, _, n, dropped) =>
      NodeNotOfBuffers(m, log, n, id);
      if id in OnTheWay(log) {
        var f := OnTheWay(log)[id];
        if f.link in m.links {
          FlightNotOfBuffers(m, log, step.time, n, f);
        }
        NeitherOfBuffers(if f.link in m.links then FlightComplaints(m, log, step.time, n, f) else [],
                         ArrivalComplaints(m, log, n, id, dropped));
      }
    case PacketDuplicated(id, _, _, n) => NodeNotOfBuffers(m, log, n, id);
    case PacketInTransit(id, n, l) => SendNotOfBuffers(m, log, step);
    case PacketLostInTransit(id, _) => LossNotOfBuffers(id !in OnTheWay(log), id);
    case _ => NoneOfBuffers();
  }

  lemma NodeNotOfBuffers(m: Metadata, log: seq<Step>, n: NodeId, id: PacketId)
    ensures NotOfBuffers(DownComplaint(m, log, n, NodeDownPacketReceive(n, id)))
    ensures forall dropped :: NotOfBuffers(ArrivalComplaints(m, log, n, id, dropped))
    ensures NotOfBuffers([])
  {
    hide NodeSeen;
  }

  lemma NoneOfBuffers()
    ensures NotOfBuffers([])
  {
  }

  lemma LossNotOfBuffers(lost: bool, id: PacketId)
    ensures NotOfBuffers(If(lost, MissingLostPacket(id)))
  {
  }

  lemma AllComplaintsAppend(m: Metadata, log: seq<Step>, step: Step)
    ensures AllComplaints(m, log + [step]) == AllComplaints(m, log) + Complaints(m, log, step)
  {
    hide Complaints;
    assert (log + [step])[..|log|] == log;
  }

  lemma KnowsAtFirst(m: Metadata)
    requires m.Valid()
    ensures Knows(m, Fresh(m), [])
  {
  }

  lemma FineAppend(m: Metadata, log: seq<Step>, step: Step)
    requires Fine(m, log)
    ensures FatalOf(m, log, step.kind).None? ==> Fine(m, log + [step])
    ensures forall fatal :: FatalOf(m, log, step.kind) == Some(fatal) ==> StopsAt(m, log + [step], |log|, fatal)
  {
    hide FatalOf;
    var more := log + [step];
    assert more[..|log|] == log;
    forall i | 0 <= i < |log|
      ensures FatalOf(m, more[..i], more[i].kind).None?
    {
      assert more[..i] == log[..i];
    }
  }

  lemma VerdictStays(m: Metadata, log: seq<Step>, step: Step, r: Verdict)
    requires r.Fails? && IsVerdict(m, log, r)
    ensures IsVerdict(m, log + [step], r)
  {
    hide FatalOf, AllComplaints, Others, Fine;
    var i :| StopsAt(m, log, i, r.fatal) && Others(r.errors) == AllComplaints(m, log[..i + 1]);
    assert (log + [step])[..i] == log[..i] && (log + [step])[..i + 1] == log[..i + 1];
    assert StopsAt(m, log + [step], i, r.fatal);
  }

  lemma VerdictAfterStep(m: Metadata, v: VState, log: seq<Step>, step: Step)
    requires v.Valid(m) && v.lastStep == step.time && Knows(m, v, log) && IsVerdict(m, log, Continues(v))
    ensures IsVerdict(m, log + [step], OnStep(m, v, step.time, step.kind))
    ensures var r := OnStep(m, v, step.time, step.kind); r.Continues? ==> Knows(m, r.v, log + [step])
  {
    hide VState.Valid, Knows, OnStep, FatalOf, Complaints, AllComplaints, Others, Fine;
    EveryStepIsRight(m, v, log, step);
    ComplaintsAreOthers(m, log, step);
    OthersAppend(v.errors, Complaints(m, log, step));
    AllComplaintsAppend(m, log, step);
    FineAppend(m, log, step);
    assert (log + [step])[..|log| + 1] == log + [step];
  }

  lemma {:induction false} ReplayIsRight(m: Metadata, log: seq<Step>)
    requires m.Valid() && InOrder(log)
    ensures IsVerdict(m, log, ReplayLog(m, log))
    ensures ReplayLog(m, log).Continues? ==> Knows(m, ReplayLog(m, log).v, log)
  {
    hide Knows, OnStep, VState.Valid, Tick, Fresh, Complaints, FatalOf, IsVerdict, Metadata.Valid;
    if log == [] {
      KnowsAtFirst(m);
      NothingIsFine(m);
    } else {
      var init, last := log[..|log| - 1], log[|log| - 1];
      assert init + [last] == log;
      ReplayIsRight(m, init);
      match ReplayLog(m, init)
      case Fails(_, _) => VerdictStays(m, init, last, ReplayLog(m, init));
      case Continues(v) =>
        KnowsAfterTick(m, v, init, last.time);
        VerdictAfterTick(m, init, v, Tick(m, v, last.time));
        VerdictAfterStep(m, Tick(m, v, last.time), init, last);
    }
  }

  lemma NothingIsFine(m: Metadata)
    ensures IsVerdict(m, [], Continues(Fresh(m)))
  {
  }

  lemma VerdictAfterTick(m: Metadata, log: seq<Step>, v: VState, v': VState)
    requires IsVerdict(m, log, Continues(v)) && Others(v'.errors) == Others(v.errors)
    ensures IsVerdict(m, log, Continues(v'))
  {
    hide Fine, AllComplaints, Others;
  }

  /**
   The verdict on every log in order: the verifier stops at the first step that is fatal, judged by
   the log before it, and with the error that this step calls for; if there is none it goes through.
   Either way, and buffers apart, its reports are the complaints about the steps it looked at, in order.
   */
  lemma VerdictOfLog(m: Metadata, log: seq<Step>)
    requires m.Valid() && InOrder(log)
    ensures match Verify(m, log)
            case Continues(v) => Fine(m, log) && Others(v.errors) == AllComplaints(m, log)
            case Fails(fatal, es) => exists i :: StopsAt(m, log, i, fatal) && Others(es) == AllComplaints(m, log[..i + 1])
  {
    hide Knows, VState.Valid, UpdateMaxBufferUsage, AllComplaints, Others, Fine, StopsAt, ReplayLog, Metadata.Valid;
    ReplayIsRight(m, log);
    if ReplayLog(m, log).Continues? {
      KnowsAfterUpdate(m, ReplayLog(m, log).v, log);
    }
  }

  // ---- The statistics -------------------------------------------------------------------------

  lemma VerifyKnows(m: Metadata, log: seq<Step>)
    requires m.Valid() && InOrder(log) && Verify(m, log).Continues?
    ensures Verify(m, log).v.Valid(m) && Knows(m, Verify(m, log).v, log)
  {
    hide Knows, VState.Valid, UpdateMaxBufferUsage, ReplayLog, Metadata.Valid, IsVerdict;
    ReplayIsRight(m, log);
    KnowsAfterUpdate(m, ReplayLog(m, log).v, log);
  }

  /** The records of a log that count in a statistic of node `n`. */
  ghost function BookedIn(log: seq<Step>, n: NodeId, what: Counter): set<int> {
    set i | 0 <= i < |log| && Booked(log[..i], log[i].kind, n, what).Some?
  }

  ghost function LossesOn(log: seq<Step>, l: LinkId): set<int> {
    set i | 0 <= i < |log| && BookedLoss(log[..i], log[i].kind, l).Some?
  }

  /** The size under which the i-th record counts. */
  ghost function SizeBooked(log: seq<Step>, n: NodeId, what: Counter, i: int): nat {
    if 0 <= i < |log| then SizeOf(Booked(log[..i], log[i].kind, n, what)) else 0
  }

  ghost function SizeLost(log: seq<Step>, l: LinkId, i: int): nat {
    if 0 <= i < |log| then SizeOf(BookedLoss(log[..i], log[i].kind, l)) else 0
  }

  function SizeOf(size: Option<nat>): nat {
    match size
    case Some(bytes) => bytes
    case None => 0
  }

  lemma BookedInAppend(log: seq<Step>, step: Step, n: NodeId, what: Counter)
    ensures BookedIn(log + [step], n, what)
         == BookedIn(log, n, what) + if Booked(log, step.kind, n, what).Some? then {|log|} else {}
    ensures |log| !in BookedIn(log, n, what)
  {
    hide Booked;
    assert forall i :: 0 <= i < |log| ==> (log + [step])[..i] == log[..i];
    assert (log + [step])[..|log|] == log;
  }

  lemma SizeBookedAppend(log: seq<Step>, step: Step, n: NodeId, what: Counter)
    ensures forall i :: 0 <= i < |log| ==> SizeBooked(log + [step], n, what, i) == SizeBooked(log, n, what, i)
    ensures SizeBooked(log + [step], n, what, |log|) == SizeOf(Booked(log, step.kind, n, what))
  {
    hide Booked;
    assert forall i :: 0 <= i < |log| ==> (log + [step])[..i] == log[..i];
    assert (log + [step])[..|log|] == log;
  }

  lemma NothingBooked(n: NodeId, what: Counter)
    ensures Tally([], n, what) == PacketStats(0, 0) && BookedIn([], n, what) == {}
    ensures Sum(BookedIn([], n, what), i => SizeBooked([], n, what, i)) == 0
  {
  }

  lemma BookedInIsInside(log: seq<Step>, n: NodeId, what: Counter)
    ensures forall i :: i in BookedIn(log, n, what) ==> 0 <= i < |log|
  {
  }

  lemma {:induction false} TallyCounts(log: seq<Step>, n: NodeId, what: Counter)
    ensures Tally(log, n, what).packets == |BookedIn(log, n, what)|
    ensures Tally(log, n, what).bytes == Sum(BookedIn(log, n, what), i => SizeBooked(log, n, what, i))
  {
    hide Booked, BookedIn, SizeBooked, Tally, Sum;
    if log == [] {
      NothingBooked(n, what);
    } else {
      var init, last := log[..|log| - 1], log[|log| - 1];
      assert init + [last] == log;
      TallyCounts(init, n, what);
      TallyAppend(init, last, n, what);
      BookedInAppend(init, last, n, what);
      SizeBookedAppend(init, last, n, what);
      BookedInIsInside(init, n, what);
      SumSame(BookedIn(init, n, what), i => SizeBooked(init, n, what, i), i => SizeBooked(log, n, what, i));
      if Booked(init, last.kind, n, what).Some? {
        SumWith(BookedIn(init, n, what), |init|, i => SizeBooked(log, n, what, i));
      } else {
        assert BookedIn(init, n, what) + {} == BookedIn(init, n, what);
      }
    }
  }

  lemma LossesAppend(log: seq<Step>, step: Step, l: LinkId)
    ensures LossesOn(log + [step], l) == LossesOn(log, l) + if BookedLoss(log, step.kind, l).Some? then {|log|} else {}
    ensures forall i :: i in LossesOn(log, l) ==> 0 <= i < |log|
    ensures forall i :: 0 <= i < |log| ==> SizeLost(log + [step], l, i) == SizeLost(log, l, i)
    ensures SizeLost(log + [step], l, |log|) == SizeOf(BookedLoss(log, step.kind, l))
  {
    hide BookedLoss;
    assert forall i :: 0 <= i < |log| ==> (log + [step])[..i] == log[..i];
    assert (log + [step])[..|log|] == log;
  }

  lemma NothingLost(l: LinkId)
    ensures TallyLost([], l) == PacketStats(0, 0) && LossesOn([], l) == {} && Sum(LossesOn([], l), i => SizeLost([], l, i)) == 0
  {
  }

  lemma {:induction false} TallyLostCounts(log: seq<Step>, l: LinkId)
    ensures TallyLost(log, l).packets == |LossesOn(log, l)|
    ensures TallyLost(log, l).bytes == Sum(LossesOn(log, l), i => SizeLost(log, l, i))
  {
    hide BookedLoss, LossesOn, SizeLost, TallyLost, Sum;
    if log == [] {
      NothingLost(l);
    } else {
      var init, last := log[..|log| - 1], log[|log| - 1];
      assert init + [last] == log;
      TallyLostCounts(init, l);
      TallyLostAppend(init, last, l);
      LossesAppend(init, last, l);
      SumSame(LossesOn(init, l), i => SizeLost(init, l, i), i => SizeLost(log, l, i));
      if BookedLoss(init, last.kind, l).Some? {
        SumWith(LossesOn(init, l), |init|, i => SizeLost(log, l, i));
      } else {
        assert LossesOn(init, l) + {} == LossesOn(init, l);
      }
    }
  }

  /**
   The statistics of nodes, for every log in order without a fatal error: each counter has as many
   packets as the log has records that count in it, and their bytes.
   */
  lemma NodeStatistics(m: Metadata, log: seq<Step>, n: NodeId, what: Counter)
    requires m.Valid() && InOrder(log) && Verify(m, log).Continues? && n in m.bufferSizes
    ensures n in Verify(m, log).v.nodes
    ensures var stats := Of(Verify(m, log).v.nodes[n].counts, what);
            && stats.packets == |BookedIn(log, n, what)|
            && stats.bytes == Sum(BookedIn(log, n, what), i => SizeBooked(log, n, what, i))
  {
    hide Verify, VState.Valid, KnowsLinks, KnowsLosses, Kept, OnTheWay, NodeSeen, IsHighest, Of, Tally, Metadata.Valid;
    VerifyKnows(m, log);
    NodesAre(m, Verify(m, log).v);
    assert KnowsNode(log, n, Verify(m, log).v.nodes[n]);
    TallyCounts(log, n, what);
  }

  /**
   The statistics of links: the packets lost on a link are the records of a loss there of a packet on
   its way, and the maximum bandwidth is the largest one ever in use.
   */
  lemma LinkStatistics(m: Metadata, log: seq<Step>, l: LinkId)
    requires m.Valid() && InOrder(log) && Verify(m, log).Continues?
    ensures var v := Verify(m, log).v;
            && Lost(v.lost, l).packets == |LossesOn(log, l)|
            && Lost(v.lost, l).bytes == Sum(LossesOn(log, l), i => SizeLost(log, l, i))
            && (l in m.links ==>
                  l in v.links && v.links[l].maxBps == MaxObserved(Departures(log, l), m.links[l].bandwidth))
  {
    hide Verify, VState.Valid, KnowsNodes, OnTheWay, TallyLost, LinkSeen, Departures, Observed, Replayed, Metadata.Valid;
    VerifyKnows(m, log);
    NodesAre(m, Verify(m, log).v);
    TallyLostCounts(log, l);
    if l in m.links {
      assert KnowsLink(log, l, Verify(m, log).v.links[l], m.links[l].bandwidth, Verify(m, log).v.lastStep);
      WindowIsRecentHistory(NEW_LINK, Departures(log, l), m.links[l].bandwidth);
    }
  }

  /** What the verifier counts in a node is the bytes of the packets that the log keeps there. */
  lemma UsageIsBytesKept(m: Metadata, log: seq<Step>, n: NodeId)
    requires m.Valid() && InOrder(log) && ReplayLog(m, log).Continues? && n in m.bufferSizes
    ensures n in ReplayLog(m, log).v.nodes && ReplayLog(m, log).v.nodes[n].usage == BytesKept(log, n)
  {
    hide ReplayLog, Stored, Kept, VState.Valid, Metadata.Valid;
    ReplayIsRight(m, log);
    var v := ReplayLog(m, log).v;
    NodesAre(m, v);
    NodePackets(m, v, log, n);
    NodeIsSound(m, v, n);
  }
}
