/** The two programs agree: the verifier accepts the log of every run of the network. */
module Acceptance {
  import opened Prelude
  import opened Trace
  import opened PacketPacer
  import opened ReplayedLink
  import opened ReplayedNode
  import opened Replay
  import opened Network
  import opened PacketLog
  import opened Soundness
  import opened Places
  import opened Ledger
  import opened AcceptedLogs
  import opened TracedRuns
  import opened Destinations
  import opened FlowConservation
  import opened LogHistory
  import opened LogVerdicts
  import opened BufferReports

  ghost function Endpoints(t: Topology, actions: seq<Action>): set<NodeId>
    requires IsRun(t, actions)
  {
    set n | n in t.nodes && Served(t, actions, n)
  }

  lemma RunLogIsInOrder(t: Topology, actions: seq<Action>)
    requires IsRun(t, actions)
    ensures InOrder(StateAfter(t, actions).log)
  {
    hide Sound, StateAfter, IsRun;
    RunIsFine(t, actions);
  }

  /** What the verifier says of the log of a run. */
  ghost predicate WellReceived(t: Topology, m: Metadata, endpoints: set<NodeId>, log: seq<Step>)
    requires t.Valid() && m.Valid() && InOrder(log)
  {
    && Verify(m, log).Continues?
    && Replaying(t, m, endpoints, log, Verify(m, log).v)
    && AllJustified(t, endpoints, log, Verify(m, log).v.errors)
  }

  /**
   Acceptance: replaying the log of any run ends without a fatal error. Every report is one of the
   few that the log justifies, and leaving buffers apart, the reports are exactly those that the
   log determines.
   */
  lemma RunsAreAccepted(t: Topology, m: Metadata, actions: seq<Action>)
    requires IsRun(t, actions) && t.Valid() && Describes(m, t)
    ensures m.Valid() && InOrder(StateAfter(t, actions).log)
    ensures ProperLog(t, Endpoints(t, actions), StateAfter(t, actions).log)
    ensures WellReceived(t, m, Endpoints(t, actions), StateAfter(t, actions).log)
  {
    hide Topology.Valid, IsRun, StateAfter, Logged, ProperLog, Fits, Served, Describes, Replaying, AllJustified;
    DescribesValidly(t, m);
    RunLogIsInOrder(t, actions);
    var endpoints, log := Endpoints(t, actions), StateAfter(t, actions).log;
    RunsAreTraced(t, actions, endpoints);
    ProperLogsAreAccepted(t, m, endpoints, log);
    ErrorsAreJustified(t, m, endpoints, log, Verify(m, log).v);
  }

  // ---- What follows for single reports --------------------------------------------------------

  /** Errors that mean that the simulator does not do what it should. */
  predicate Accuses(e: NonFatalError) {
    || e.DisconnectedPacketSend? || e.DisconnectedPacketReceive? || e.OfflinePacketSend? || e.MissingLostPacket?
    || e.NodeUpPacketDroppedOnArrival? || e.PacketSurvivedBufferCorruption?
  }

  /** No event lowers a delay, and no event takes a link down at a moment at which it sends. */
  ghost predicate CalmLinks(t: Topology, log: seq<Step>) {
    forall l :: l in t.links ==>
      && !Hastened(log, l, t.links[l].delay)
      && forall time: Duration :: SentAt(log, l, time) ==> !DownAt(log, l, time)
  }

  lemma JustifiedMeans(t: Topology, endpoints: set<NodeId>, log: seq<Step>, e: NonFatalError)
    requires t.Valid() && Justified(t, endpoints, log, e)
    ensures !Accuses(e)
    ensures CalmLinks(t, log) ==> !e.OfflinePacketReceive? && !e.TooFastPacketReceive?
    ensures e.NodeExceedsBufferSize? ==> e.node in endpoints
    ensures e.NodeDownPacketReceive? ==>
              e.id in Find(log) && Find(log)[e.id].at == Gone(WasRefusedAtSource(e.node))
  {
    hide Topology.Valid, Hastened, SentWhileDown, SentAt, DownAt, Find, SendsOn, Within;
  }

  /**
   For every run: no report says that the simulator misbehaved; a node is only said to receive
   while it is down when an application sent from it then; and only a node that some application
   sends to, or sends from while it is down, is ever said to hold more than its buffer.
   */
  lemma NoReportAccuses(t: Topology, m: Metadata, actions: seq<Action>, e: NonFatalError)
    requires IsRun(t, actions) && t.Valid() && Describes(m, t)
    requires m.Valid() && InOrder(StateAfter(t, actions).log)
    requires Verify(m, StateAfter(t, actions).log).Continues?
    requires e in Verify(m, StateAfter(t, actions).log).v.errors
    ensures !Accuses(e)
    ensures e.NodeDownPacketReceive? ==>
              var packets := Find(StateAfter(t, actions).log);
              e.id in packets && packets[e.id].at == Gone(WasRefusedAtSource(e.node))
    ensures e.NodeExceedsBufferSize? ==> IsDestination(t, actions, e.node) || SendsWhileDown(t, actions, e.node)
  {
    hide Topology.Valid, IsRun, StateAfter, ProperLog, Served, Describes, Replaying, Justified, Verify, IsDestination,
         SendsWhileDown;
    RunsAreAccepted(t, m, actions);
    JustifiedMeans(t, Endpoints(t, actions), StateAfter(t, actions).log, e);
    if e.NodeExceedsBufferSize? {
      OnlyEndpointsServe(t, actions, e.node);
    }
  }

  /**
   Timed acceptance, for every run: unless an event lowers the delay of a link, or takes a link
   down at the very moment of a send over it, no packet is said to arrive too fast, or over a link
   that was down.
   */
  lemma TimedAcceptance(t: Topology, m: Metadata, actions: seq<Action>, e: NonFatalError)
    requires IsRun(t, actions) && t.Valid() && Describes(m, t)
    requires m.Valid() && InOrder(StateAfter(t, actions).log)
    requires Verify(m, StateAfter(t, actions).log).Continues?
    requires e in Verify(m, StateAfter(t, actions).log).v.errors
    requires CalmLinks(t, StateAfter(t, actions).log)
    ensures !e.TooFastPacketReceive? && !e.OfflinePacketReceive?
  {
    hide Topology.Valid, IsRun, StateAfter, ProperLog, Served, Describes, Replaying, Justified, Verify, CalmLinks;
    RunsAreAccepted(t, m, actions);
    JustifiedMeans(t, Endpoints(t, actions), StateAfter(t, actions).log, e);
  }

  // ---- Bandwidth ------------------------------------------------------------------------------

  lemma {:induction false} MaximumIsWithin(t: Topology, exempt: set<NodeId>, log: seq<Step>, l: LinkId)
    requires t.Valid() && ProperLog(t, exempt, log) && l in t.links && t.links[l].bandwidth > 0
    ensures Within(MaxObserved(SendsOn(log, l), t.links[l].bandwidth), SendsOn(log, l), t.links[l].bandwidth)
  {
    hide Topology.Valid, Fits, Observed, Find, Within, Proper, NodeSeen, LinkSeen, SentInOrder, SendsOn;
    var bandwidth := t.links[l].bandwidth;
    if log == [] {
      NothingIsWithin(l, bandwidth);
    } else {
      var init, last := log[..|log| - 1], log[|log| - 1];
      assert init + [last] == log;
      MaximumIsWithin(t, exempt, init, l);
      SendsOnAppend(init, last, l);
      if last.kind.PacketInTransit? && last.kind.link == l {
        DepartureFacts(t, init, last);
        var h, x := SendsOn(init, l), Sent(last.time, Find(init)[last.kind.id].size);
        assert (h + [x])[..|h|] == h;
        WithinLater(MaxObserved(h, bandwidth), h, x, bandwidth);
      } else {
        assert SendsOn(log, l) == SendsOn(init, l);
      }
    }
  }

  lemma NothingIsWithin(l: LinkId, bandwidth: nat)
    requires bandwidth > 0
    ensures SendsOn([], l) == [] && Within(0, [], bandwidth)
  {
  }

  /**
   For every run and every link: the maximum bandwidth that the verifier puts in its statistics is
   the largest one ever in use, as plainly defined on the transmissions in the log, and within the
   link's bandwidth but for one batch of the pacer and the largest packet.
   */
  lemma ReportedBandwidth(t: Topology, m: Metadata, actions: seq<Action>, l: LinkId)
    requires IsRun(t, actions) && t.Valid() && Describes(m, t) && l in t.links
    requires m.Valid() && InOrder(StateAfter(t, actions).log)
    requires Verify(m, StateAfter(t, actions).log).Continues?
    ensures var h, v := SendsOn(StateAfter(t, actions).log, l), Verify(m, StateAfter(t, actions).log).v;
            && t.links[l].bandwidth > 0 && l in v.links
            && v.links[l].maxBps == MaxObserved(h, t.links[l].bandwidth)
            && Within(v.links[l].maxBps, h, t.links[l].bandwidth)
  {
    hide Topology.Valid, IsRun, StateAfter, ProperLog, Served, Describes, Verify, Within, Observed, SendsOn, Tracks,
         VState.Valid;
    RunsAreAccepted(t, m, actions);
    var log := StateAfter(t, actions).log;
    var v := Verify(m, log).v;
    BandwidthFacts(t, m, Endpoints(t, actions), log, v, l);
    MaximumIsWithin(t, Endpoints(t, actions), log, l);
  }

  lemma BandwidthFacts(t: Topology, m: Metadata, exempt: set<NodeId>, log: seq<Step>, v: VState, l: LinkId)
    requires Replaying(t, m, exempt, log, v) && l in t.links
    ensures l in v.links && t.links[l].bandwidth > 0
    ensures v.links[l].maxBps == MaxObserved(SendsOn(log, l), t.links[l].bandwidth)
  {
    hide Observed, SendsOn, Others, Reports, MaximaFit, Find, Bits, DropOld, Topology.Valid;
    LinkHasBandwidth(t, l);
    KeysMatch(t, m, log, v, v.lastStep);
    assert TracksLink(log, l, v.links[l], t.links[l].bandwidth);
    WindowIsRecentHistory(NEW_LINK, SendsOn(log, l), t.links[l].bandwidth);
  }

  lemma LinkHasBandwidth(t: Topology, l: LinkId)
    requires t.Valid() && l in t.links
    ensures t.links[l].bandwidth > 0
  {
  }

  // ---- Flow -----------------------------------------------------------------------------------

  lemma NotAResend(t: Topology, log: seq<Step>, v: VState, step: Step)
    requires t.Valid() && Tracks(t, log, v) && Proper(t, log, step)
    ensures !IsResend(v, step.kind)
  {
    hide Topology.Valid, Find, NodeSeen, LinkSeen, SendsOn, Within, Observed, Replayed, TracksNode, TracksLink;
  }

  lemma {:induction false} NoResends(t: Topology, m: Metadata, exempt: set<NodeId>, log: seq<Step>)
    requires t.Valid() && Describes(m, t) && InOrder(log) && ProperLog(t, exempt, log)
    ensures m.Valid() && Resends(m, log) == 0
  {
    hide Topology.Valid, Proper, Fits, Describes, IsResend, Tracks, VState.Valid, MaximaFit, Others, Reports, ReplayStep;
    DescribesValidly(t, m);
    if log != [] {
      var init, last := log[..|log| - 1], log[|log| - 1];
      NoResends(t, m, exempt, init);
      ReplayingAlways(t, m, exempt, init);
      NotAResend(t, init, ReplayLog(m, init).v, last);
    }
  }

  /**
   For every run: the packets that the verifier counts as sent are those it counts as received, those
   it counts as lost, and those that it takes to be on their way.
   */
  lemma RunsConserveFlow(t: Topology, m: Metadata, actions: seq<Action>)
    requires IsRun(t, actions) && t.Valid() && Describes(m, t)
    requires m.Valid() && InOrder(StateAfter(t, actions).log)
    ensures Verify(m, StateAfter(t, actions).log).Continues?
    ensures var v := Verify(m, StateAfter(t, actions).log).v;
            SentPackets(v.nodes) == ReceivedPackets(v.nodes) + LostPackets(v.lost) + |v.inFlight|
  {
    hide Topology.Valid, IsRun, StateAfter, ProperLog, Served, Describes, Replaying, AllJustified, Verify, Resends,
         SentPackets, ReceivedPackets, LostPackets;
    RunsAreAccepted(t, m, actions);
    NoResends(t, m, Endpoints(t, actions), StateAfter(t, actions).log);
    FlowIsConserved(m, StateAfter(t, actions).log);
  }

  // ---- Reports are exact ----------------------------------------------------------------------

  lemma {:induction false} ReportsByStep(t: Topology, log: seq<Step>, e: NonFatalError)
    ensures e in Reports(t, log) <==> exists i :: 0 <= i < |log| && e in ReportsOf(t, log[..i], log[i])
  {
    hide ReportsOf;
    if log != [] {
      var init, last := log[..|log| - 1], log[|log| - 1];
      ReportsByStep(t, init, e);
      if i :| 0 <= i < |init| && e in ReportsOf(t, init[..i], init[i]) {
        assert log[..i] == init[..i] && log[i] == init[i];
      }
      if i :| 0 <= i < |init| && e in ReportsOf(t, log[..i], log[i]) {
        assert log[..i] == init[..i] && log[i] == init[i];
      }
    }
  }

  /**
   For every run: buffers apart, the verifier reports an error if and only if some step of the log
   calls for it, judged by the log before that step.
   */
  lemma ReportsAreExact(t: Topology, m: Metadata, actions: seq<Action>, e: NonFatalError)
    requires IsRun(t, actions) && t.Valid() && Describes(m, t) && !e.NodeExceedsBufferSize?
    requires m.Valid() && InOrder(StateAfter(t, actions).log)
    ensures Verify(m, StateAfter(t, actions).log).Continues?
    ensures var log := StateAfter(t, actions).log;
            e in Verify(m, log).v.errors <==> exists i :: 0 <= i < |log| && e in ReportsOf(t, log[..i], log[i])
  {
    hide Topology.Valid, IsRun, StateAfter, ProperLog, Served, Describes, AllJustified, Verify, Tracks, VState.Valid,
         Reports, ReportsOf, Others, MaximaFit;
    RunsAreAccepted(t, m, actions);
    var log := StateAfter(t, actions).log;
    OthersAreErrors(Verify(m, log).v.errors);
    ReportsByStep(t, log, e);
  }

  /**
   The i-th step is the arrival of a packet over a link that an event took down at the moment at
   which the packet was sent: too late for the network, which then takes the packet to be safe.
   */
  ghost predicate ArrivesDespite(log: seq<Step>, i: int) {
    && 0 <= i < |log| && log[i].kind.PacketInNode?
    && var packets := Find(log[..i]);
       && log[i].kind.id in packets && packets[log[i].kind.id].at.OnLink?
       && DownAt(log[..i], packets[log[i].kind.id].at.link, packets[log[i].kind.id].since)
  }

  lemma {:induction false} LastDownIsLatest(log: seq<Step>, l: LinkId, time: Duration)
    requires InOrder(log) && DownAt(log, l, time)
    ensures LinkSeen(log, l).lastDown.Some? && time <= LinkSeen(log, l).lastDown.value
  {
    var i :| 0 <= i < |log| && log[i].time == time && SetsLink(log[i].kind, l)
             && log[i].kind.linkEvent.value.status.value.Down?;
    if i < |log| - 1 {
      var init := log[..|log| - 1];
      assert init[i] == log[i];
      assert DownAt(init, l, time);
      LastDownIsLatest(init, l, time);
    }
  }

  lemma OfflineReportOfStep(t: Topology, log: seq<Step>, i: nat)
    requires t.Valid() && InOrder(log) && i < |log| && Proper(t, log[..i], log[i])
    ensures (exists e :: e in ReportsOf(t, log[..i], log[i]) && e.OfflinePacketReceive?) <==> ArrivesDespite(log, i)
  {
    hide Topology.Valid, Find, LinkSeen, NodeSeen, DownAt, SendsOn, Within, Observed, DelayWhenSent;
    var init, kind := log[..i], log[i].kind;
    if kind.PacketInNode? && kind.id in Find(init) {
      var w := Find(init)[kind.id];
      var l, n := w.at.link, kind.node;
      if DownAt(init, l, w.since) {
        LastDownIsLatest(init, l, w.since);
        var e := OfflinePacketReceive(n, l, w.since, LinkSeen(init, l).lastDown.value);
        var es := ArrivalReports(t, init, log[i].time, n, l, w.since);
        assert es[|es| - 1] == e;
        assert e in ReportsOf(t, init, log[i]);
      }
    }
  }

  /**
   For every run: a packet is reported to have arrived over an offline link if and only if one
   arrives that was sent at the very moment of an event that takes its link down.
   */
  lemma OfflineReportIsExact(t: Topology, m: Metadata, actions: seq<Action>)
    requires IsRun(t, actions) && t.Valid() && Describes(m, t)
    requires m.Valid() && InOrder(StateAfter(t, actions).log)
    ensures Verify(m, StateAfter(t, actions).log).Continues?
    ensures var log := StateAfter(t, actions).log;
            (exists e :: e in Verify(m, log).v.errors && e.OfflinePacketReceive?) <==> exists i :: ArrivesDespite(log, i)
  {
    hide Topology.Valid, IsRun, StateAfter, Served, Describes, Replaying, AllJustified, Verify, ReportsOf,
         ArrivesDespite, Proper, Fits;
    RunsAreAccepted(t, m, actions);
    var log := StateAfter(t, actions).log;
    if e :| e in Verify(m, log).v.errors && e.OfflinePacketReceive? {
      ReportsAreExact(t, m, actions, e);
      var i :| 0 <= i < |log| && e in ReportsOf(t, log[..i], log[i]);
      ProperAt(t, Endpoints(t, actions), log, i);
      OfflineReportOfStep(t, log, i);
    }
    if i :| ArrivesDespite(log, i) {
      assert 0 <= i < |log| by { DespiteFacts(log, i); }
      ProperAt(t, Endpoints(t, actions), log, i);
      OfflineReportOfStep(t, log, i);
      var e :| e in ReportsOf(t, log[..i], log[i]) && e.OfflinePacketReceive?;
      ReportsAreExact(t, m, actions, e);
    }
  }

  lemma DespiteFacts(log: seq<Step>, i: int)
    requires ArrivesDespite(log, i)
    ensures 0 <= i < |log|
  {
  }

  // ---- Buffers --------------------------------------------------------------------------------

  lemma KeptIsInside(t: Topology, m: Metadata, exempt: set<NodeId>, log: seq<Step>, n: NodeId)
    requires t.Valid() && Describes(m, t) && InOrder(log) && ProperLog(t, exempt, log) && n in t.nodes
    ensures BytesKept(log, n) == BytesInside(log, n)
  {
    hide Topology.Valid, ProperLog, Metadata.Valid, Find, Kept, BytesKept, Inside, Stored, ReplayLog, NodeSeen, LinkSeen, TracksLink,
         MaximaFit, Others, Reports;
    DescribesValidly(t, m);
    ReplayingAlways(t, m, exempt, log);
    UsageIsBytesKept(m, log, n);
    var v := ReplayLog(m, log).v;
    NodeIsSound(m, v, n);
    assert TracksNode(log, n, v.nodes[n]);
  }

  /** At the end of some timestamp, node `n` holds more than fits in its buffer. */
  ghost predicate Overflows(t: Topology, log: seq<Step>, n: NodeId) {
    n in t.nodes && exists i :: 0 <= i <= |log| && EndsTimestamp(log, i) && t.nodes[n].bufferSize < BytesInside(log[..i], n)
  }

  lemma OverflowIsPeak(t: Topology, m: Metadata, exempt: set<NodeId>, log: seq<Step>, n: NodeId)
    requires t.Valid() && Describes(m, t) && InOrder(log) && ProperLog(t, exempt, log) && n in t.nodes
    ensures Overflows(t, log, n) <==> t.nodes[n].bufferSize < Peak(log, n)
  {
    hide Topology.Valid, ProperLog, Describes, BytesKept, BytesInside, Peak, EndsTimestamp;
    PeakIsMaximum(log, n);
    forall i | 0 <= i <= |log|
      ensures BytesKept(log[..i], n) == BytesInside(log[..i], n)
    {
      ProperPrefix(t, exempt, log, i);
      KeptIsInside(t, m, exempt, log[..i], n);
    }
  }

  /**
   For every run: a node is reported to exceed its buffer if and only if some node holds more than
   fits in its buffer at the end of some timestamp, waiting packets included.
   */
  lemma BufferReportsOfRuns(t: Topology, m: Metadata, actions: seq<Action>)
    requires IsRun(t, actions) && t.Valid() && Describes(m, t)
    requires m.Valid() && InOrder(StateAfter(t, actions).log)
    ensures Verify(m, StateAfter(t, actions).log).Continues?
    ensures var log := StateAfter(t, actions).log;
            Reported(Verify(m, log).v.errors) <==> exists n :: Overflows(t, log, n)
  {
    hide Topology.Valid, IsRun, StateAfter, ProperLog, Served, Replaying, AllJustified, Verify, Overflows, Peak, Reported,
         Metadata.Valid;
    RunsAreAccepted(t, m, actions);
    var log := StateAfter(t, actions).log;
    BufferReportIsExact(m, log);
    forall n | n in t.nodes
      ensures Overflows(t, log, n) <==> t.nodes[n].bufferSize < Peak(log, n)
    {
      OverflowIsPeak(t, m, Endpoints(t, actions), log, n);
    }
    forall n | Overflows(t, log, n)
      ensures n in t.nodes
    {
      OverflowsNode(t, log, n);
    }
  }

  lemma OverflowsNode(t: Topology, log: seq<Step>, n: NodeId)
    requires Overflows(t, log, n)
    ensures n in t.nodes
  {
  }
}
