/** The report that the verifier returns, for logs of any kind: all that is in it is told from the log. */
module Reports {
  import opened Prelude
  import opened Sums
  import opened Trace
  import opened ReplayedNode
  import opened ReplayedLink
  import opened Replay
  import opened AcceptedLogs
  import opened LogHistory
  import opened LogVerdicts
  import opened BufferReports
  import opened SimulationVerifier

  /** Packets and bytes that the log has for a statistic of a node, and of a link. */
  ghost function StatsOfNode(log: seq<Step>, n: NodeId, what: Counter): PacketStats {
    PacketStats(|BookedIn(log, n, what)|, Sum(BookedIn(log, n, what), i => SizeBooked(log, n, what, i)))
  }

  ghost function LossesOfLink(log: seq<Step>, l: LinkId): PacketStats {
    PacketStats(|LossesOn(log, l)|, Sum(LossesOn(log, l), i => SizeLost(log, l, i)))
  }

  ghost predicate TellsNodes(m: Metadata, log: seq<Step>, r: Report)
    requires r.Verified?
  {
    && r.statsByNode.Keys == m.bufferSizes.Keys
    && (forall n, what :: n in m.bufferSizes ==> Of(r.statsByNode[n].0, what) == StatsOfNode(log, n, what))
    && (forall n :: n in m.bufferSizes && !Reported(r.errors) ==> r.statsByNode[n].1 == Peak(log, n))
  }

  ghost predicate TellsLinks(m: Metadata, log: seq<Step>, r: Report)
    requires r.Verified?
  {
    && m.links.Keys <= r.statsByLink.Keys
    && (forall l :: l in r.statsByLink ==> r.statsByLink[l].0 == LossesOfLink(log, l))
    && (forall l :: l in m.links ==> r.statsByLink[l].1 == MaxObserved(Departures(log, l), m.links[l].bandwidth))
  }

  /** The report for a log in which no step is fatal. */
  ghost predicate IsReport(m: Metadata, log: seq<Step>, r: Report) {
    && r.Verified?
    && Others(r.errors) == AllComplaints(m, log)
    && (Reported(r.errors) <==> exists n :: n in m.bufferSizes && m.bufferSizes[n] < Peak(log, n))
    && TellsNodes(m, log, r) && TellsLinks(m, log, r)
  }

  lemma NodesAreTold(m: Metadata, log: seq<Step>)
    requires m.Valid() && InOrder(log) && Verify(m, log).Continues?
    ensures TellsNodes(m, log, ReportOf(Verify(m, log)))
  {
    hide Metadata.Valid, Verify, Reported, StatsOfNode, Of, Peak;
    var v := Verify(m, log).v;
    VerifyKnows(m, log);
    NodesAre(m, v);
    BufferReportIsExact(m, log);
    forall n, what | n in m.bufferSizes
      ensures Of(v.nodes[n].counts, what) == StatsOfNode(log, n, what)
    {
      NodeIsTold(m, log, n, what);
    }
  }

  lemma NodeIsTold(m: Metadata, log: seq<Step>, n: NodeId, what: Counter)
    requires m.Valid() && InOrder(log) && Verify(m, log).Continues? && n in m.bufferSizes
    ensures n in Verify(m, log).v.nodes && Of(Verify(m, log).v.nodes[n].counts, what) == StatsOfNode(log, n, what)
  {
    hide Metadata.Valid, Verify, BookedIn, SizeBooked, Of, Sum;
    NodeStatistics(m, log, n, what);
  }

  lemma LinksAreTold(m: Metadata, log: seq<Step>)
    requires m.Valid() && InOrder(log) && Verify(m, log).Continues?
    ensures TellsLinks(m, log, ReportOf(Verify(m, log)))
  {
    hide Metadata.Valid, Verify, LossesOfLink, Departures, MaxObserved, Lost;
    var v := Verify(m, log).v;
    VerifyKnows(m, log);
    NodesAre(m, v);
    forall l
      ensures Lost(v.lost, l) == LossesOfLink(log, l)
      ensures l in m.links ==> v.links[l].maxBps == MaxObserved(Departures(log, l), m.links[l].bandwidth)
    {
      LinkIsTold(m, log, l);
    }
  }

  lemma LinkIsTold(m: Metadata, log: seq<Step>, l: LinkId)
    requires m.Valid() && InOrder(log) && Verify(m, log).Continues?
    ensures var v := Verify(m, log).v;
            && Lost(v.lost, l) == LossesOfLink(log, l)
            && (l in m.links ==>
                  l in v.links && v.links[l].maxBps == MaxObserved(Departures(log, l), m.links[l].bandwidth))
  {
    hide Metadata.Valid, Verify, LossesOn, SizeLost, Departures, MaxObserved, Sum;
    LinkStatistics(m, log, l);
  }

  /**
   For every log in order: the verifier's report is the one told from the log if no step of it is fatal,
   and else the error of the first step that is, and the complaints up to there.
   */
  lemma ReportIsTold(m: Metadata, log: seq<Step>)
    requires m.Valid() && InOrder(log)
    ensures LogVerdicts.Fine(m, log) ==> IsReport(m, log, ReportOf(Verify(m, log)))
    ensures !LogVerdicts.Fine(m, log) ==>
              var r := ReportOf(Verify(m, log));
              r.Invalid? && exists i :: StopsAt(m, log, i, r.fatal) && Others(r.errors) == AllComplaints(m, log[..i + 1])
  {
    hide Metadata.Valid, Verify, FatalOf, AllComplaints, Others, Reported, Peak, TellsNodes, TellsLinks, NodeStatsOf, LinkStatsOf;
    VerdictOfLog(m, log);
    match Verify(m, log)
    case Fails(fatal, es) =>
      var i :| StopsAt(m, log, i, fatal) && Others(es) == AllComplaints(m, log[..i + 1]);
      assert FatalOf(m, log[..i], log[i].kind).Some?;
    case Continues(v) =>
      BufferReportIsExact(m, log);
      NodesAreTold(m, log);
      LinksAreTold(m, log);
  }
}
