/** The verifier itself: the class that replays a log in place (simulation_verifier.rs). */
module SimulationVerifier {
  import opened Prelude
  import opened StableSort
  import opened Trace
  import opened ReplayedNode
  import opened ReplayedLink
  import opened Replay

  /** What `verify` returns. */
  datatype Report =
    | Verified(
        statsByNode: map<NodeId, (Counters, nat)>, statsByLink: map<LinkId, (PacketStats, nat)>,
        errors: seq<NonFatalError>)
    | Invalid(fatal: FatalError, errors: seq<NonFatalError>)

  function NodeStatsOf(v: VState): map<NodeId, (Counters, nat)> {
    map n | n in v.nodes :: (v.nodes[n].counts, v.nodes[n].maxUsage)
  }

  function LinkStatsOf(v: VState): map<LinkId, (PacketStats, nat)> {
    map l | l in v.lost.Keys + v.links.Keys :: (Lost(v.lost, l), if l in v.links then v.links[l].maxBps else 0)
  }

  function ReportOf(verdict: Verdict): Report {
    match verdict
    case Fails(fatal, es) => Invalid(fatal, es)
    case Continues(v) => Verified(NodeStatsOf(v), LinkStatsOf(v), v.errors)
  }

  ghost function NodeStates(nodes: map<NodeId, ReplayedNode>): map<NodeId, RNode>
    reads nodes.Values
  {
    map n | n in nodes :: nodes[n].State()
  }

  ghost function LinkStates(links: map<LinkId, ReplayedLink>): map<LinkId, RLink>
    reads links.Values
  {
    map l | l in links :: links[l].State()
  }

  class SimulationVerifier {
    const metadata: Metadata
    const tracker: ErrorTracker
    const nodes: map<NodeId, ReplayedNode>
    const links: map<LinkId, ReplayedLink>
    var steps: seq<Step>
    var inFlight: map<PacketId, InFlightPacket>
    var lost: map<LinkId, PacketStats>

    ghost function Repr(): set<object> {
      {this, tracker} + nodes.Values + links.Values
    }

    ghost predicate Distinct() {
      && (forall n, k :: n in nodes && k in nodes && n != k ==> nodes[n] != nodes[k])
      && (forall l, k :: l in links && k in links && l != k ==> links[l] != links[k])
      && (forall n :: n in nodes ==> nodes[n].id == n && nodes[n].tracker == tracker)
    }

    ghost function View(lastStep: Duration, lastUpdate: Option<Duration>): VState
      reads Repr()
    {
      VState(NodeStates(nodes), LinkStates(links), inFlight, lost, tracker.errors, lastStep, lastUpdate)
    }

    constructor (steps: seq<Step>, metadata: Metadata)
      requires metadata.Valid()
      ensures fresh(Repr()) && Distinct() && this.metadata == metadata
      ensures this.steps == Sort(steps, Earlier)
      ensures View(0.0, None) == Fresh(metadata)
    {
      hide Metadata.Valid, Sort, IsSorted, NodeStates, LinkStates;
      var errorTracker := new ErrorTracker();
      var replayedNodes := NewNodes(metadata, errorTracker);
      var replayedLinks := NewLinks(metadata);
      this.metadata, this.tracker := metadata, errorTracker;
      this.nodes, this.links := replayedNodes, replayedLinks;
      this.steps := if IsSorted(steps) then steps else Sort(steps, Earlier);
      inFlight, lost := map[], map[];
      new;
      SortedIsKept(steps);
    }

    ghost predicate Sound(lastStep: Duration, lastUpdate: Option<Duration>)
      reads Repr()
    {
      Distinct() && View(lastStep, lastUpdate).Valid(metadata)
    }

    /** The verifier has done what `verdict` says, and returned `failure`. */
    ghost predicate Follows(failure: Option<FatalError>, verdict: Verdict, lastStep: Duration, lastUpdate: Option<Duration>)
      reads Repr()
    {
      match verdict
      case Continues(v) => failure.None? && View(lastStep, lastUpdate) == v
      case Fails(fatal, es) => failure == Some(fatal) && tracker.errors == es
    }

    /** Only node `n` has changed. */
    twostate lemma NodeChanged(n: NodeId)
      requires n in nodes && Distinct()
      requires forall k :: k in nodes && k != n ==> nodes[k].State() == old(nodes[k].State())
      ensures NodeStates(nodes) == old(NodeStates(nodes))[n := nodes[n].State()]
    {
    }

    twostate lemma LinkChanged(l: LinkId)
      requires l in links && Distinct()
      requires forall k :: k in links && k != l ==> links[k].State() == old(links[k].State())
      ensures LinkStates(links) == old(LinkStates(links))[l := links[l].State()]
    {
    }

    /** The first part of receiving a packet that was in flight: checks on the link it came from. */
    method CheckArrival(now: Duration, n: NodeId, f: InFlightPacket, ghost v: VState)
      requires f.link in metadata.links && f.link in links && f.sentAt <= now && v.links == LinkStates(links)
      modifies tracker
      ensures tracker.errors == old(tracker.errors) + ReceiveErrors(metadata, v, now, n, f)
    {
      var l := metadata.links[f.link];
      if n != l.target {
        tracker.Track(DisconnectedPacketReceive(n, f.link));
      }
      var timeInFlight := now - f.sentAt;
      if timeInFlight < l.delay + f.extraDelay {
        tracker.Track(TooFastPacketReceive(n, f.link));
      }
      match links[f.link].lastDown {
        case Some(down) =>
          if down >= f.sentAt {
            tracker.Track(OfflinePacketReceive(n, f.link, f.sentAt, down));
          }
        case None =>
      }
    }

    lemma SoundNode(lastStep: Duration, lastUpdate: Option<Duration>, n: NodeId)
      requires Sound(lastStep, lastUpdate)
      ensures n in nodes <==> n in View(lastStep, lastUpdate).nodes
      ensures n in nodes ==> nodes[n].State() == View(lastStep, lastUpdate).nodes[n] && nodes[n].State().Valid()
    {
      hide RNode.Valid, RLink.Valid;
    }

    lemma SoundFlight(lastStep: Duration, lastUpdate: Option<Duration>, id: PacketId)
      requires Sound(lastStep, lastUpdate) && id in inFlight
      ensures inFlight[id].link in metadata.links && inFlight[id].link in links && inFlight[id].sentAt <= lastStep
    {
      hide RNode.Valid, RLink.Valid;
      var v := View(lastStep, lastUpdate);
      assert id in v.inFlight;
    }

    method PacketReceived(now: Duration, id: PacketId, number: nat, size: nat, n: NodeId, dropped: bool,
                          ghost lastUpdate: Option<Duration>)
      returns (failure: Option<FatalError>)
      requires Sound(now, lastUpdate) && id in inFlight
      modifies Repr()
      ensures steps == old(steps)
      ensures Follows(failure, OnPacketInNode(metadata, old(View(now, lastUpdate)), now, id, number, size, n, dropped),
                      now, lastUpdate)
    {
      hide VState.Valid, RNode.Valid, RNode.PacketReceived, RNode.AddPacket, NodeStates, LinkStates, ReceiveErrors;
      SoundNode(now, lastUpdate, n);
      SoundFlight(now, lastUpdate, id);
      var f := inFlight[id];
      inFlight := inFlight - {id};
      CheckArrival(now, n, f, old(View(now, lastUpdate)));
      if n !in nodes {
        return Some(MissingNode(n));
      }
      failure := nodes[n].PacketReceived(id, number, size, dropped, now);
      NodeChanged(n);
    }

    method PacketInNode(now: Duration, id: PacketId, number: nat, size: nat, n: NodeId, dropped: bool,
                        ghost lastUpdate: Option<Duration>)
      returns (failure: Option<FatalError>)
      requires Sound(now, lastUpdate)
      modifies Repr()
      ensures steps == old(steps)
      ensures Follows(failure, OnPacketInNode(metadata, old(View(now, lastUpdate)), now, id, number, size, n, dropped),
                      now, lastUpdate)
    {
      hide VState.Valid, RNode.Valid, RNode.PacketReceived, RNode.AddPacket, NodeStates, LinkStates, ReceiveErrors;
      if id in inFlight {
        failure := PacketReceived(now, id, number, size, n, dropped, lastUpdate);
      } else {
        SoundNode(now, lastUpdate, n);
        if n !in nodes {
          return Some(MissingNode(n));
        }
        failure := nodes[n].AddPacketToBuffer(id, size, now);
        NodeChanged(n);
      }
    }

    method PacketDuplicated(now: Duration, id: PacketId, size: nat, n: NodeId, ghost lastUpdate: Option<Duration>)
      returns (failure: Option<FatalError>)
      requires Sound(now, lastUpdate)
      modifies Repr()
      ensures steps == old(steps)
      ensures Follows(failure, OnPacketDuplicated(metadata, old(View(now, lastUpdate)), now, id, size, n), now, lastUpdate)
    {
      hide VState.Valid, RNode.Valid, NodeStates, LinkStates, RNode.PacketDuplicated;
      SoundNode(now, lastUpdate, n);
      if n !in nodes {
        return Some(MissingNode(n));
      }
      failure := nodes[n].PacketDuplicated(id, size, now);
      NodeChanged(n);
    }

    method PacketDropped(now: Duration, id: PacketId, n: NodeId, reason: DropReason, ghost lastUpdate: Option<Duration>)
      returns (failure: Option<FatalError>)
      requires Sound(now, lastUpdate)
      modifies Repr()
      ensures steps == old(steps)
      ensures Follows(failure, OnPacketDropped(metadata, old(View(now, lastUpdate)), now, id, n, reason), now, lastUpdate)
    {
      hide VState.Valid, RNode.Valid, NodeStates, LinkStates, RNode.PacketDropped;
      SoundNode(now, lastUpdate, n);
      if n !in nodes {
        return Some(MissingNode(n));
      }
      failure := nodes[n].PacketDropped(id, reason);
      NodeChanged(n);
    }

    method PacketDelivered(now: Duration, id: PacketId, n: NodeId, ghost lastUpdate: Option<Duration>)
      returns (failure: Option<FatalError>)
      requires Sound(now, lastUpdate)
      modifies Repr()
      ensures steps == old(steps)
      ensures Follows(failure, OnPacketDelivered(metadata, old(View(now, lastUpdate)), now, id, n), now, lastUpdate)
    {
      hide VState.Valid, RNode.Valid, NodeStates, LinkStates, RNode.RemovePacket;
      SoundNode(now, lastUpdate, n);
      if n !in nodes {
        return Some(MissingNode(n));
      }
      failure := nodes[n].PacketDeliveredToAppLayer(id);
      NodeChanged(n);
    }

    method PacketExtraDelay(now: Duration, id: PacketId, n: NodeId, delay: Duration, ghost lastUpdate: Option<Duration>)
      returns (failure: Option<FatalError>)
      requires Sound(now, lastUpdate)
      modifies Repr()
      ensures steps == old(steps)
      ensures Follows(failure, OnPacketExtraDelay(metadata, old(View(now, lastUpdate)), now, id, n, delay), now, lastUpdate)
    {
      hide VState.Valid, RNode.Valid, NodeStates, LinkStates, RNode.PacketHasExtraDelay;
      SoundNode(now, lastUpdate, n);
      if n !in nodes {
        return Some(MissingNode(n));
      }
      failure := nodes[n].PacketHasExtraDelay(id, delay);
      NodeChanged(n);
    }

    method PacketCongestionEvent(now: Duration, size: nat, n: NodeId, ghost lastUpdate: Option<Duration>)
      returns (failure: Option<FatalError>)
      requires Sound(now, lastUpdate)
      modifies Repr()
      ensures steps == old(steps)
      ensures Follows(failure, OnPacketCongestionEvent(metadata, old(View(now, lastUpdate)), now, size, n), now, lastUpdate)
    {
      hide VState.Valid, RNode.Valid, NodeStates, LinkStates, RNode.PacketEcn;
      SoundNode(now, lastUpdate, n);
      if n !in nodes {
        return Some(MissingNode(n));
      }
      nodes[n].PacketEcn(size);
      failure := None;
      NodeChanged(n);
    }

    method PacketLostInTransit(now: Duration, id: PacketId, l: LinkId, ghost lastUpdate: Option<Duration>)
      returns (failure: Option<FatalError>)
      requires Sound(now, lastUpdate)
      modifies Repr()
      ensures steps == old(steps)
      ensures Follows(failure, OnPacketLostInTransit(metadata, old(View(now, lastUpdate)), now, id, l), now, lastUpdate)
    {
      hide VState.Valid, RNode.Valid, NodeStates, LinkStates, PacketStats.TrackOne;
      if id in inFlight {
        lost := lost[l := Lost(lost, l).TrackOne(inFlight[id].size)];
        inFlight := inFlight - {id};
      } else {
        tracker.Track(MissingLostPacket(id));
      }
      failure := None;
    }

    lemma SoundLink(lastStep: Duration, lastUpdate: Option<Duration>, l: LinkId)
      requires Sound(lastStep, lastUpdate)
      ensures l in metadata.links <==> l in links
      ensures l in links <==> l in View(lastStep, lastUpdate).links
      ensures l in links ==> links[l].State() == View(lastStep, lastUpdate).links[l] && links[l].State().Valid()
    {
      hide RNode.Valid, RLink.Valid;
    }

    method PacketInTransit(now: Duration, id: PacketId, n: NodeId, l: LinkId, ghost lastUpdate: Option<Duration>)
      returns (failure: Option<FatalError>)
      requires Sound(now, lastUpdate)
      modifies Repr()
      ensures steps == old(steps)
      ensures Follows(failure, OnPacketInTransit(metadata, old(View(now, lastUpdate)), now, id, n, l), now, lastUpdate)
    {
      hide VState.Valid, RNode.Valid, RLink.Valid, RNode.PacketSent, RLink.PacketSent, NodeStates, LinkStates,
           WindowSeconds;
      SoundNode(now, lastUpdate, n);
      SoundLink(now, lastUpdate, l);
      if n !in nodes {
        return Some(MissingNode(n));
      }
      var sent := nodes[n].PacketSent(id);
      NodeChanged(n);
      if sent.Err? {
        return Some(sent.error);
      }
      if l !in metadata.links {
        return Some(MissingLink(l));
      }
      var observed := CheckDeparture(now, id, n, l, sent.value, old(View(now, lastUpdate)));
      inFlight := inFlight[id := InFlightPacket(sent.value.size, now, sent.value.extraDelay, l)];
      failure := None;
    }

    /** The part of sending a packet that concerns the link. */
    method CheckDeparture(now: Duration, id: PacketId, n: NodeId, l: LinkId, packet: RPacket, ghost v: VState)
      returns (observed: nat)
      requires Distinct() && l in metadata.links && l in links && links[l].State().Valid()
      requires v.links == LinkStates(links) && l in v.links && v.links[l] == links[l].State()
      modifies links[l], tracker
      ensures LinkStates(links)
           == v.links[l := v.links[l].PacketSent(now, packet.size, metadata.links[l].bandwidth)]
      ensures observed == links[l].State().usage / WindowSeconds(metadata.links[l].bandwidth)
      ensures links[l].State() == v.links[l].PacketSent(now, packet.size, metadata.links[l].bandwidth)
      ensures tracker.errors == old(tracker.errors) + SendErrors(metadata, v, id, n, l, observed)
    {
      hide RLink.PacketSent, WindowSeconds, RLink.Valid, LinkStates;
      var link := metadata.links[l];
      if n != link.source {
        tracker.Track(DisconnectedPacketSend(n, l));
      }
      if links[l].status.Down? {
        tracker.Track(OfflinePacketSend(n, l));
      }
      observed := links[l].PacketSent(now, packet.size, link.bandwidth);
      LinkChanged(l);
      if link.bandwidth < observed {
        tracker.Track(LinkBandwidthExceeded(n, l, id, link.bandwidth, observed));
      }
    }

    method NetworkEvent(now: Duration, linkEvent: Option<LinkEvent>, nodeEvent: Option<NodeEvent>,
                        ghost lastUpdate: Option<Duration>)
      returns (failure: Option<FatalError>)
      requires Sound(now, lastUpdate)
      modifies Repr()
      ensures steps == old(steps)
      ensures Follows(failure, OnStep(metadata, old(View(now, lastUpdate)), now, StepKind.NetworkEvent(linkEvent, nodeEvent)),
                      now, lastUpdate)
    {
      hide VState.Valid, RNode.Valid, RLink.Valid, RNode.HandleEvent, RLink.SetStatus, NodeStates, LinkStates;
      if linkEvent.Some? && linkEvent.value.status.Some? {
        var l := linkEvent.value.link;
        SoundLink(now, lastUpdate, l);
        if l !in links {
          return Some(MissingLink(l));
        }
        links[l].SetStatus(linkEvent.value.status.value, now);
        LinkChanged(l);
      }
      assert View(now, lastUpdate) == OnLinkEvent(metadata, old(View(now, lastUpdate)), now, linkEvent).v;
      if nodeEvent.Some? {
        var n := nodeEvent.value.node;
        SoundNode(now, lastUpdate, n);
        if n !in nodes {
          return Some(MissingNode(n));
        }
        label linked:
        nodes[n].HandleEvent(nodeEvent.value, now);
        NodeChanged@linked(n);
      }
      failure := None;
    }

    method UpdateMaxBufferUsage(ghost lastStep: Duration, ghost lastUpdate: Option<Duration>)
      returns (failure: Option<NonFatalError>)
      requires Sound(lastStep, lastUpdate)
      modifies nodes.Values
      ensures Replay.UpdateMaxBufferUsage(metadata, old(View(lastStep, lastUpdate)))
           == match failure
              case None => View(lastStep, lastUpdate)
              case Some(e) => View(lastStep, lastUpdate).Track([e])
    {
      hide VState.Valid, RNode.Valid, RLink.Valid, NodeStates, LinkStates, UpdateFrom;
      ghost var v := View(lastStep, lastUpdate);
      for k := 0 to |metadata.order|
        invariant Sound(lastStep, lastUpdate) && tracker.errors == old(tracker.errors)
        invariant UpdateFrom(metadata, View(lastStep, lastUpdate), k) == UpdateFrom(metadata, v, 0)
      {
        var n := metadata.order[k];
        ghost var before := View(lastStep, lastUpdate);
        UpdateRound(metadata, before, k);
        SoundNode(lastStep, lastUpdate, n);
        label round:
        var usage := nodes[n].UpdateMaxBufferUsage();
        NodeChanged@round(n);
        assert View(lastStep, lastUpdate) == Bump(metadata, before, n);
        SoundNode(lastStep, lastUpdate, n);
        if metadata.bufferSizes[n] < usage {
          return Some(NodeExceedsBufferSize(n, metadata.bufferSizes[n], usage));
        }
      }
      NothingToUpdate(metadata, View(lastStep, lastUpdate));
      failure := None;
    }

    method UpdateAndTrack(ghost lastStep: Duration, ghost lastUpdate: Option<Duration>)
      requires Sound(lastStep, lastUpdate)
      modifies nodes.Values, tracker
      ensures View(lastStep, lastUpdate)
           == Replay.UpdateMaxBufferUsage(metadata, old(View(lastStep, lastUpdate)))
    {
      hide VState.Valid, NodeStates, LinkStates, Replay.UpdateMaxBufferUsage;
      var failure := UpdateMaxBufferUsage(lastStep, lastUpdate);
      match failure {
        case Some(e) => tracker.Track(e);
        case None =>
      }
    }

    /** One step of the log, once the clock is right. */
    method ReplayKind(now: Duration, kind: StepKind, ghost lastUpdate: Option<Duration>) returns (failure: Option<FatalError>)
      requires Sound(now, lastUpdate)
      modifies Repr()
      ensures steps == old(steps)
      ensures Follows(failure, OnStep(metadata, old(View(now, lastUpdate)), now, kind), now, lastUpdate)
    {
      hide VState.Valid, NodeStates, LinkStates, OnPacketInNode, OnPacketDuplicated, OnPacketDropped,
           OnPacketLostInTransit, OnPacketInTransit, OnPacketCongestionEvent, OnPacketDelivered, OnPacketExtraDelay;
      match kind {
        case PacketInNode(id, number, size, n, dropped) => failure := PacketInNode(now, id, number, size, n, dropped, lastUpdate);
        case PacketDuplicated(id, _, size, n) => failure := PacketDuplicated(now, id, size, n, lastUpdate);
        case PacketDropped(id, n, reason) => failure := PacketDropped(now, id, n, reason, lastUpdate);
        case PacketLostInTransit(id, l) => failure := PacketLostInTransit(now, id, l, lastUpdate);
        case PacketInTransit(id, n, l) => failure := PacketInTransit(now, id, n, l, lastUpdate);
        case PacketCongestionEvent(_, _, size, n) => failure := PacketCongestionEvent(now, size, n, lastUpdate);
        case PacketDeliveredToApplication(id, _, _, n) => failure := PacketDelivered(now, id, n, lastUpdate);
        case PacketExtraDelay(id, n, delay) => failure := PacketExtraDelay(now, id, n, delay, lastUpdate);
        case NetworkEvent(linkEvent, nodeEvent) => failure := NetworkEvent(now, linkEvent, nodeEvent, lastUpdate);
      }
    }

    /**
     Replays the whole log. There is no requirement on the log: on every list of steps the verifier
     runs to its end, without a missing entry or a negative difference.
     */
    method Verify() returns (report: Report)
      requires metadata.Valid() && Distinct() && InOrder(steps) && View(0.0, None) == Fresh(metadata)
      modifies Repr()
      ensures report == ReportOf(Replay.Verify(metadata, old(steps)))
    {
      hide VState.Valid, NodeStates, LinkStates, Fresh, OnStep, Replay.UpdateMaxBufferUsage;
      var log := steps;
      steps := [];
      var lastStep: Duration := 0.0;
      var lastUpdate: Option<Duration> := None;
      FreshIsValid(metadata);
      for i := 0 to |log|
        invariant Sound(lastStep, lastUpdate)
        invariant ReplayLog(metadata, log[..i]) == Continues(View(lastStep, lastUpdate))
      {
        var s := log[i];
        assert log[..i + 1][..i] == log[..i];
        assert lastStep <= s.time;
        ghost var before := View(lastStep, lastUpdate);
        if s.time != lastStep {
          UpdateAndTrack(lastStep, lastUpdate);
          lastUpdate := Some(lastStep);
          lastStep := s.time;
        }
        assert View(lastStep, lastUpdate) == Tick(metadata, before, s.time);
        var failure := ReplayKind(s.time, s.kind, lastUpdate);
        if failure.Some? {
          FailureStays(metadata, log, i + 1);
          return Invalid(failure.value, tracker.errors);
        }
      }
      assert log[..|log|] == log;
      if lastUpdate != Some(lastStep) {
        UpdateAndTrack(lastStep, lastUpdate);
      }
      report := Collect(lastStep, lastUpdate);
    }

    /** The statistics in the end. */
    method Collect(ghost lastStep: Duration, ghost lastUpdate: Option<Duration>) returns (report: Report)
      ensures report == ReportOf(Continues(View(lastStep, lastUpdate)))
    {
      var statsByNode := map n | n in nodes :: (nodes[n].counts, nodes[n].maxBufferUsage);
      var statsByLink := map l | l in lost.Keys + links.Keys ::
        (Lost(lost, l), if l in links then links[l].maxBandwidthUsage else 0);
      report := Verified(statsByNode, statsByLink, tracker.errors);
    }
  }

  lemma NothingToUpdate(m: Metadata, v: VState)
    requires v.Valid(m)
    ensures UpdateFrom(m, v, |m.order|) == v
  {
    hide VState.Valid;
  }

  /** A log that fails early fails altogether, in the same way. */
  lemma {:induction false} FailureStays(m: Metadata, log: seq<Step>, i: nat)
    requires m.Valid() && InOrder(log) && i <= |log| && ReplayLog(m, log[..i]).Fails?
    ensures ReplayLog(m, log) == ReplayLog(m, log[..i])
    decreases |log|
  {
    if i < |log| {
      assert log[..|log| - 1][..i] == log[..i];
      FailureStays(m, log[..|log| - 1], i);
    } else {
      assert log[..i] == log;
    }
  }

  method NewNodes(metadata: Metadata, tracker: ErrorTracker) returns (nodes: map<NodeId, ReplayedNode>)
    requires metadata.Valid()
    ensures nodes.Keys == metadata.bufferSizes.Keys
    ensures forall n :: n in nodes ==>
              fresh(nodes[n]) && nodes[n].id == n && nodes[n].State() == NewNode(n) && nodes[n].tracker == tracker
    ensures NodeStates(nodes) == Fresh(metadata).nodes
    ensures forall n, k :: n in nodes && k in nodes && n != k ==> nodes[n] != nodes[k]
  {
    nodes := map[];
    for i := 0 to |metadata.order|
      invariant forall n :: n in nodes <==> n in metadata.order[..i]
      invariant forall n :: n in nodes ==>
                  fresh(nodes[n]) && nodes[n].id == n && nodes[n].State() == NewNode(n) && nodes[n].tracker == tracker
      invariant forall n, k :: n in nodes && k in nodes && n != k ==> nodes[n] != nodes[k]
    {
      var node := new ReplayedNode(metadata.order[i], tracker);
      nodes := nodes[metadata.order[i] := node];
    }
  }

  method NewLinks(metadata: Metadata) returns (links: map<LinkId, ReplayedLink>)
    ensures links.Keys == metadata.links.Keys
    ensures forall l :: l in links ==> fresh(links[l]) && links[l].State() == NEW_LINK
    ensures LinkStates(links) == Fresh(metadata).links
    ensures forall l, k :: l in links && k in links && l != k ==> links[l] != links[k]
  {
    links := map[];
    var ids := metadata.links.Keys;
    var left := ids;
    while left != {}
      invariant links.Keys == ids - left && left <= ids
      invariant forall l :: l in links ==> fresh(links[l]) && links[l].State() == NEW_LINK
      invariant forall l, k :: l in links && k in links && l != k ==> links[l] != links[k]
      decreases |left|
    {
      var id :| id in left;
      var link := new ReplayedLink();
      links := links[id := link];
      left := left - {id};
    }
  }

  /** `is_sorted_by_key` */
  predicate IsSorted(steps: seq<Step>) {
    forall i :: 0 < i < |steps| ==> steps[i - 1].time <= steps[i].time
  }

  lemma {:induction false} SortedSteps(steps: seq<Step>, i: nat, j: nat)
    requires IsSorted(steps) && i < j < |steps|
    ensures Earlier(steps[i], steps[j])
    decreases j
  {
    if i < j - 1 {
      SortedSteps(steps, i, j - 1);
    }
  }

  lemma SortedIsKept(steps: seq<Step>)
    ensures IsSorted(steps) ==> Sort(steps, Earlier) == steps
  {
    if IsSorted(steps) {
      forall i, j | 0 <= i < j < |steps|
        ensures Earlier(steps[i], steps[j])
      {
        SortedSteps(steps, i, j);
      }
      SortOfSorted(steps, Earlier);
    }
  }

  lemma SortedIsInOrder(steps: seq<Step>)
    ensures InOrder(Sort(steps, Earlier)) && multiset(Sort(steps, Earlier)) == multiset(steps)
  {
    SortCorrect(steps, Earlier);
    var sorted := Sort(steps, Earlier);
    assert forall i, j :: 0 <= i < j < |sorted| ==> Earlier(sorted[i], sorted[j]);
  }

  /**
   A new verifier put to work on some steps, in any order and of any kind: it always comes to a
   verdict, the one on the same steps in the order of time.
   */
  method VerifyLog(steps: seq<Step>, metadata: Metadata) returns (report: Report)
    requires metadata.Valid()
    ensures InOrder(Sort(steps, Earlier)) && multiset(Sort(steps, Earlier)) == multiset(steps)
    ensures report == ReportOf(Replay.Verify(metadata, Sort(steps, Earlier)))
  {
    hide Metadata.Valid, Sort, InOrder, Replay.Verify, Fresh, NodeStates, LinkStates;
    SortedIsInOrder(steps);
    var verifier := new SimulationVerifier(steps, metadata);
    report := verifier.Verify();
  }
}
