/** What the verifier says about buffers: its report is exact, and so are the maxima in its statistics. */
module BufferReports {
  import opened Prelude
  import opened Trace
  import opened ReplayedNode
  import opened ReplayedLink
  import opened Replay
  import opened LogHistory
  import opened LogVerdicts

  /** The largest usage of node `n` at the end of a timestamp that is over. */
  ghost function PastPeak(log: seq<Step>, n: NodeId): nat {
    if log == [] then 0
    else
      var init, last := log[..|log| - 1], log[|log| - 1];
      if MovesClock(init, last) then Max(PastPeak(init, n), BytesKept(init, n)) else PastPeak(init, n)
  }

  /** The largest usage at the end of a timestamp. */
  ghost function Peak(log: seq<Step>, n: NodeId): nat {
    Max(PastPeak(log, n), BytesKept(log, n))
  }

  /** The first `i` steps of the log are all the steps up to some time. */
  ghost predicate EndsTimestamp(log: seq<Step>, i: nat) {
    i == |log| || (i < |log| && MovesClock(log[..i], log[i]))
  }

  lemma {:induction false} PastPeakIsMaximum(log: seq<Step>, n: NodeId)
    ensures forall i :: 0 <= i < |log| && EndsTimestamp(log, i) ==> BytesKept(log[..i], n) <= PastPeak(log, n)
    ensures PastPeak(log, n) > 0 ==>
              exists i :: 0 <= i < |log| && EndsTimestamp(log, i) && BytesKept(log[..i], n) == PastPeak(log, n)
  {
    hide BytesKept;
    if log != [] {
      var init, last := log[..|log| - 1], log[|log| - 1];
      PastPeakIsMaximum(init, n);
      forall i | 0 <= i < |log| && EndsTimestamp(log, i)
        ensures BytesKept(log[..i], n) <= PastPeak(log, n)
      {
        if i < |init| {
          assert log[..i] == init[..i] && log[i] == init[i];
          assert EndsTimestamp(init, i);
        }
      }
      if PastPeak(log, n) > 0 {
        if PastPeak(log, n) == PastPeak(init, n) {
          var i :| 0 <= i < |init| && EndsTimestamp(init, i) && BytesKept(init[..i], n) == PastPeak(init, n);
          assert log[..i] == init[..i] && log[i] == init[i];
          assert EndsTimestamp(log, i);
        } else {
          assert EndsTimestamp(log, |init|) && BytesKept(log[..|init|], n) == PastPeak(log, n);
        }
      }
    }
  }

  /** `Peak` is what its name says: no end of a timestamp has more, and some one has as much. */
  lemma PeakIsMaximum(log: seq<Step>, n: NodeId)
    ensures forall i :: 0 <= i <= |log| && EndsTimestamp(log, i) ==> BytesKept(log[..i], n) <= Peak(log, n)
    ensures exists i :: 0 <= i <= |log| && EndsTimestamp(log, i) && BytesKept(log[..i], n) == Peak(log, n)
  {
    hide BytesKept, PastPeak;
    assert log[..|log|] == log;
    assert EndsTimestamp(log, |log|);
    PastPeakIsMaximum(log, n);
    if Peak(log, n) == PastPeak(log, n) > 0 {
      var i :| 0 <= i < |log| && EndsTimestamp(log, i) && BytesKept(log[..i], n) == PastPeak(log, n);
      assert BytesKept(log[..i], n) == Peak(log, n);
    } else {
      assert BytesKept(log[..|log|], n) == Peak(log, n);
    }
  }

  // ---- The verifier's maxima ------------------------------------------------------------------

  ghost predicate Reported(es: seq<NonFatalError>) {
    exists i :: 0 <= i < |es| && es[i].NodeExceedsBufferSize?
  }

  /** Until something is reported the maxima are `peak`, and within bounds; then some peak is not. */
  ghost predicate Exact(m: Metadata, v: VState, peak: map<NodeId, nat>)
    requires v.Valid(m)
  {
    && peak.Keys == m.bufferSizes.Keys
    && (!Reported(v.errors) ==> forall n :: n in v.nodes ==> v.nodes[n].maxUsage == peak[n] <= m.bufferSizes[n])
    && (Reported(v.errors) ==> exists n :: n in peak && m.bufferSizes[n] < peak[n])
  }

  /** What an update makes of the peaks. */
  function Raised(v: VState, peak: map<NodeId, nat>): map<NodeId, nat>
    requires v.nodes.Keys == peak.Keys
  {
    map n | n in peak :: Max(peak[n], v.nodes[n].usage)
  }

  /** An update that has come as far as the k-th node, without a report. */
  ghost predicate HalfUpdated(m: Metadata, v: VState, peak: map<NodeId, nat>, k: nat)
    requires v.Valid(m) && k <= |m.order|
  {
    && peak.Keys == m.bufferSizes.Keys && !Reported(v.errors)
    && (forall i :: 0 <= i < k ==>
          m.order[i] in v.nodes && v.nodes[m.order[i]].maxUsage == Raised(v, peak)[m.order[i]] <= m.bufferSizes[m.order[i]])
    && (forall i :: k <= i < |m.order| ==>
          m.order[i] in v.nodes && v.nodes[m.order[i]].maxUsage == peak[m.order[i]] <= m.bufferSizes[m.order[i]])
  }

  lemma ReportedNow(es: seq<NonFatalError>, e: NonFatalError)
    requires e.NodeExceedsBufferSize?
    ensures Reported(es + [e])
  {
    assert (es + [e])[|es|] == e;
  }

  lemma StillReported(es: seq<NonFatalError>, more: seq<NonFatalError>)
    requires forall i :: 0 <= i < |more| ==> !more[i].NodeExceedsBufferSize?
    ensures Reported(es + more) <==> Reported(es)
  {
    if i :| 0 <= i < |es| && es[i].NodeExceedsBufferSize? {
      assert (es + more)[i] == es[i];
    }
  }

  lemma OrderIsDistinct(m: Metadata, v: VState, i: nat, k: nat)
    requires v.Valid(m) && i < |m.order| && k < |m.order|
    ensures m.order[i] in v.nodes && (m.order[i] == m.order[k] ==> i == k)
  {
    hide RNode.Valid, RLink.Valid;
    assert m.order[i] in m.bufferSizes;
  }

  lemma RaisedAfterBump(m: Metadata, v: VState, peak: map<NodeId, nat>, n: NodeId)
    requires v.Valid(m) && n in v.nodes && v.nodes.Keys == peak.Keys
    ensures Bump(m, v, n).nodes.Keys == peak.Keys && Raised(Bump(m, v, n), peak) == Raised(v, peak)
    ensures Bump(m, v, n).nodes == v.nodes[n := v.nodes[n].UpdateMaxUsage()] && Bump(m, v, n).errors == v.errors
  {
    hide VState.Valid;
  }

  lemma HalfUpdatedNext(m: Metadata, v: VState, peak: map<NodeId, nat>, k: nat)
    requires v.Valid(m) && k < |m.order| && HalfUpdated(m, v, peak, k)
    requires m.order[k] in v.nodes && Bump(m, v, m.order[k]).Valid(m) && v.nodes.Keys == peak.Keys
    requires var v' := Bump(m, v, m.order[k]);
             m.order[k] in v'.nodes && v'.nodes[m.order[k]].maxUsage <= m.bufferSizes[m.order[k]]
    ensures HalfUpdated(m, Bump(m, v, m.order[k]), peak, k + 1)
    ensures Raised(Bump(m, v, m.order[k]), peak) == Raised(v, peak)
  {
    hide VState.Valid, Bump, Reported;
    RaisedAfterBump(m, v, peak, m.order[k]);
    forall i | 0 <= i < |m.order|
      ensures m.order[i] in v.nodes && (m.order[i] == m.order[k] ==> i == k)
    {
      OrderIsDistinct(m, v, i, k);
    }
  }

  lemma {:induction false} UpdateIsExact(m: Metadata, v: VState, peak: map<NodeId, nat>, k: nat)
    requires v.Valid(m) && k <= |m.order| && HalfUpdated(m, v, peak, k)
    ensures Exact(m, UpdateFrom(m, v, k), Raised(v, peak))
    decreases |m.order| - k
  {
    hide VState.Valid, Bump, UpdateFrom, HalfUpdated, Exact, Raised;
    PeakKeys(m, v, peak, k);
    if k < |m.order| {
      UpdateRound(m, v, k);
      var n := m.order[k];
      var v' := Bump(m, v, n);
      if m.bufferSizes[n] < v'.nodes[n].maxUsage {
        ReportIsRight(m, v, peak, k);
      } else {
        HalfUpdatedNext(m, v, peak, k);
        UpdateIsExact(m, v', peak, k + 1);
      }
    } else {
      AllUpdated(m, v, peak);
    }
  }

  lemma PeakKeys(m: Metadata, v: VState, peak: map<NodeId, nat>, k: nat)
    requires v.Valid(m) && k <= |m.order| && HalfUpdated(m, v, peak, k)
    ensures peak.Keys == m.bufferSizes.Keys == v.nodes.Keys
  {
  }

  lemma ReportIsRight(m: Metadata, v: VState, peak: map<NodeId, nat>, k: nat)
    requires v.Valid(m) && k < |m.order| && HalfUpdated(m, v, peak, k)
    requires m.order[k] in v.nodes && Bump(m, v, m.order[k]).Valid(m)
    requires var n := m.order[k];
             var v' := Bump(m, v, n);
             && n in v'.nodes && n in m.bufferSizes && m.bufferSizes[n] < v'.nodes[n].maxUsage
             && UpdateFrom(m, v, k) == v'.Track([NodeExceedsBufferSize(n, m.bufferSizes[n], v'.nodes[n].maxUsage)])
    ensures Exact(m, UpdateFrom(m, v, k), Raised(v, peak))
  {
    hide UpdateFrom, VState.Valid, Exact, HalfUpdated, Reported;
    var n := m.order[k];
    RaisedTooFar(m, v, peak, k);
    ReportedNow(v.errors, NodeExceedsBufferSize(n, m.bufferSizes[n], Bump(m, v, n).nodes[n].maxUsage));
    ReportIsExact(m, UpdateFrom(m, v, k), Raised(v, peak), n);
  }

  lemma RaisedTooFar(m: Metadata, v: VState, peak: map<NodeId, nat>, k: nat)
    requires v.Valid(m) && k < |m.order| && HalfUpdated(m, v, peak, k)
    requires m.order[k] in v.nodes && m.order[k] in m.bufferSizes
    requires m.bufferSizes[m.order[k]] < Bump(m, v, m.order[k]).nodes[m.order[k]].maxUsage
    ensures v.nodes.Keys == peak.Keys == m.bufferSizes.Keys && m.bufferSizes[m.order[k]] < Raised(v, peak)[m.order[k]]
  {
    hide RNode.Valid, RLink.Valid, Reported;
  }

  lemma ReportIsExact(m: Metadata, w: VState, peak: map<NodeId, nat>, n: NodeId)
    requires w.Valid(m) && peak.Keys == m.bufferSizes.Keys && n in peak && m.bufferSizes[n] < peak[n] && Reported(w.errors)
    ensures Exact(m, w, peak)
  {
    hide VState.Valid, Reported;
  }

  lemma AllUpdated(m: Metadata, v: VState, peak: map<NodeId, nat>)
    requires v.Valid(m) && HalfUpdated(m, v, peak, |m.order|)
    ensures Exact(m, UpdateFrom(m, v, |m.order|), Raised(v, peak))
  {
    hide RNode.Valid, RLink.Valid;
    forall n | n in v.nodes
      ensures v.nodes[n].maxUsage == Raised(v, peak)[n] <= m.bufferSizes[n]
    {
      var i :| 0 <= i < |m.order| && m.order[i] == n;
    }
  }

  lemma {:induction false} UpdateOnlyReports(m: Metadata, v: VState, k: nat)
    requires v.Valid(m) && k <= |m.order|
    ensures |v.errors| <= |UpdateFrom(m, v, k).errors|
    ensures UpdateFrom(m, v, k).errors[..|v.errors|] == v.errors
    decreases |m.order| - k
  {
    hide VState.Valid, UpdateFrom, Bump;
    if k < |m.order| {
      UpdateRound(m, v, k);
      BumpKeepsTheRest(m, v, m.order[k]);
      BumpKeepsErrors(m, v, m.order[k]);
      var v' := Bump(m, v, m.order[k]);
      if m.bufferSizes[m.order[k]] >= v'.nodes[m.order[k]].maxUsage {
        UpdateOnlyReports(m, v', k + 1);
      }
    } else {
      NothingLeft(m, v, k);
    }
  }

  lemma BumpKeepsErrors(m: Metadata, v: VState, n: NodeId)
    requires v.Valid(m) && n in v.nodes
    ensures Bump(m, v, n).errors == v.errors
  {
    hide VState.Valid;
  }

  lemma NothingLeft(m: Metadata, v: VState, k: nat)
    requires v.Valid(m) && k == |m.order|
    ensures UpdateFrom(m, v, k) == v
  {
    hide VState.Valid;
  }

  lemma StartOfUpdate(m: Metadata, v: VState, peak: map<NodeId, nat>)
    requires v.Valid(m) && Exact(m, v, peak) && !Reported(v.errors)
    ensures HalfUpdated(m, v, peak, 0)
  {
    hide RNode.Valid, RLink.Valid, Reported;
    forall i | 0 <= i < |m.order|
      ensures m.order[i] in v.nodes
    {
      assert m.order[i] in m.bufferSizes;
    }
  }

  lemma ExactAfterUpdate(m: Metadata, v: VState, peak: map<NodeId, nat>)
    requires v.Valid(m) && Exact(m, v, peak) && v.nodes.Keys == peak.Keys
    ensures Exact(m, UpdateMaxBufferUsage(m, v), Raised(v, peak))
  {
    hide VState.Valid, UpdateFrom;
    if Reported(v.errors) {
      UpdateOnlyReports(m, v, 0);
      var i :| 0 <= i < |v.errors| && v.errors[i].NodeExceedsBufferSize?;
      var es := UpdateFrom(m, v, 0).errors;
      assert es[i] == es[..|v.errors|][i];
      var n :| n in peak && m.bufferSizes[n] < peak[n];
      assert m.bufferSizes[n] < Raised(v, peak)[n];
    } else {
      StartOfUpdate(m, v, peak);
      UpdateIsExact(m, v, peak, 0);
    }
  }

  // ---- Other steps leave the maxima alone -----------------------------------------------------

  /** `v'` has the running maxima of `v`, its counts of packets without TTL, and no more reports about buffers. */
  ghost predicate SameMaxima(v: VState, v': VState) {
    && v'.nodes.Keys == v.nodes.Keys
    && (forall n :: n in v.nodes ==> v'.nodes[n].maxUsage == v.nodes[n].maxUsage
                                     && v'.nodes[n].counts.zeroTtl == v.nodes[n].counts.zeroTtl)
    && |v.errors| <= |v'.errors| && v'.errors[..|v.errors|] == v.errors
    && forall i :: |v.errors| <= i < |v'.errors| ==> !v'.errors[i].NodeExceedsBufferSize?
  }

  lemma ReceivingKeepsMaximum(node: RNode, id: PacketId, number: nat, size: nat, dropped: bool, now: Duration)
    ensures var o := node.AddPacket(id, size, now);
            && (o.Done? ==> o.state.maxUsage == node.maxUsage && o.state.counts.zeroTtl == node.counts.zeroTtl)
            && forall i :: 0 <= i < |o.errors| ==> !o.errors[i].NodeExceedsBufferSize?
    ensures var o := node.PacketReceived(id, number, size, dropped, now);
            && (o.Done? ==> o.state.maxUsage == node.maxUsage && o.state.counts.zeroTtl == node.counts.zeroTtl)
            && forall i :: 0 <= i < |o.errors| ==> !o.errors[i].NodeExceedsBufferSize?
  {
    hide RNode.Valid;
  }

  lemma MaximaAfterArrival(m: Metadata, v: VState, now: Duration, id: PacketId, number: nat, size: nat, n: NodeId, dropped: bool)
    requires v.Valid(m) && v.lastStep == now && OnPacketInNode(m, v, now, id, number, size, n, dropped).Continues?
    ensures SameMaxima(v, OnPacketInNode(m, v, now, id, number, size, n, dropped).v)
  {
    hide RNode.Valid, RLink.Valid, OnArrival, OnEntry, ReceiveErrors, SameMaxima;
    if id in v.inFlight {
      var errors := ReceiveErrors(m, v, now, n, v.inFlight[id]);
      ValidWithout(m, v, id, errors);
      var landed := v.(inFlight := v.inFlight - {id}).Track(errors);
      MaximaOnArrival(m, landed, now, id, number, size, n, dropped);
      MaximaAfterLanding(m, v, now, n, id, landed);
      SameMaximaTwice(v, landed, OnArrival(m, landed, now, id, number, size, n, dropped).v);
    } else {
      MaximaOnEntry(m, v, now, id, size, n);
    }
  }

  lemma SameMaximaTwice(a: VState, b: VState, c: VState)
    requires SameMaxima(a, b) && SameMaxima(b, c)
    ensures SameMaxima(a, c)
  {
    forall i | |a.errors| <= i < |c.errors|
      ensures !c.errors[i].NodeExceedsBufferSize?
    {
      if i < |b.errors| {
        assert c.errors[..|b.errors|][i] == b.errors[i];
      }
    }
    assert c.errors[..|a.errors|] == c.errors[..|b.errors|][..|a.errors|];
  }

  lemma MaximaAfterLanding(m: Metadata, v: VState, now: Duration, n: NodeId, id: PacketId, landed: VState)
    requires v.Valid(m) && v.lastStep == now && id in v.inFlight
    requires landed == v.(inFlight := v.inFlight - {id}).Track(ReceiveErrors(m, v, now, n, v.inFlight[id]))
    ensures SameMaxima(v, landed)
  {
  }

  lemma MaximaOnArrival(m: Metadata, v: VState, now: Duration, id: PacketId, number: nat, size: nat, n: NodeId, dropped: bool)
    requires v.Valid(m) && v.lastStep == now && OnArrival(m, v, now, id, number, size, n, dropped).Continues?
    ensures SameMaxima(v, OnArrival(m, v, now, id, number, size, n, dropped).v)
  {
    hide RNode.Valid, RLink.Valid, RNode.PacketReceived;
    ReceivingKeepsMaximum(v.nodes[n], id, number, size, dropped, now);
  }

  lemma MaximaOnEntry(m: Metadata, v: VState, now: Duration, id: PacketId, size: nat, n: NodeId)
    requires v.Valid(m) && v.lastStep == now && OnEntry(m, v, now, id, size, n).Continues?
    ensures SameMaxima(v, OnEntry(m, v, now, id, size, n).v)
  {
    hide RNode.Valid, RLink.Valid, RNode.AddPacket;
    ReceivingKeepsMaximum(v.nodes[n], id, 0, size, false, now);
  }

  lemma MaximaAfterDeparture(m: Metadata, v: VState, now: Duration, id: PacketId, n: NodeId, l: LinkId)
    requires v.Valid(m) && v.lastStep == now && OnPacketInTransit(m, v, now, id, n, l).Continues?
    ensures SameMaxima(v, OnPacketInTransit(m, v, now, id, n, l).v)
  {
    hide RLink.PacketSent, WindowSeconds, VState.Valid;
  }

  /** An operation on a node leaves its maximum alone and reports nothing about its buffer. */
  ghost predicate KeepsMaximum(node: RNode, o: Outcome<RNode>) {
    && (o.Done? ==> o.state.maxUsage == node.maxUsage && o.state.counts.zeroTtl == node.counts.zeroTtl)
    && forall i :: 0 <= i < |o.errors| ==> !o.errors[i].NodeExceedsBufferSize?
  }

  lemma NodeStepsKeepMaximum(node: RNode, id: PacketId, size: nat, reason: DropReason, delay: Duration, now: Duration)
    requires node.Valid()
    ensures KeepsMaximum(node, node.PacketDuplicated(id, size, now)) && KeepsMaximum(node, node.PacketDropped(id, reason))
    ensures KeepsMaximum(node, node.RemovePacket(id)) && KeepsMaximum(node, node.PacketHasExtraDelay(id, delay))
  {
  }

  lemma MaximaAfterOperation(v: VState, n: NodeId, o: Outcome<RNode>)
    requires n in v.nodes && WithNode(v, n, o).Continues? && KeepsMaximum(v.nodes[n], o)
    ensures SameMaxima(v, WithNode(v, n, o).v)
  {
  }

  lemma MaximaAfterNodeStep(m: Metadata, v: VState, now: Duration, kind: StepKind)
    requires v.Valid(m) && v.lastStep == now && OnStep(m, v, now, kind).Continues?
    requires kind.PacketDuplicated? || kind.PacketDropped? || kind.PacketCongestionEvent?
             || kind.PacketDeliveredToApplication? || kind.PacketExtraDelay?
    ensures SameMaxima(v, OnStep(m, v, now, kind).v)
  {
    hide VState.Valid, OnLinkEvent, OnNodeEvent, OnPacketInNode, OnPacketInTransit, OnPacketLostInTransit, WithNode,
         SameMaxima, RNode.PacketDuplicated, RNode.PacketDropped, RNode.RemovePacket, RNode.PacketHasExtraDelay;
    var node := v.nodes[kind.node];
    NodeIsSound(m, v, kind.node);
    match kind
    case PacketDuplicated(id, _, size, n) =>
      NodeStepsKeepMaximum(node, id, size, Random, 0.0, now);
      MaximaAfterOperation(v, n, node.PacketDuplicated(id, size, now));
    case PacketDropped(id, n, reason) =>
      NodeStepsKeepMaximum(node, id, 0, reason, 0.0, now);
      MaximaAfterOperation(v, n, node.PacketDropped(id, reason));
    case PacketDeliveredToApplication(id, _, _, n) =>
      NodeStepsKeepMaximum(node, id, 0, Random, 0.0, now);
      MaximaAfterOperation(v, n, node.RemovePacket(id));
    case PacketExtraDelay(id, n, delay) =>
      NodeStepsKeepMaximum(node, id, 0, Random, delay, now);
      MaximaAfterOperation(v, n, node.PacketHasExtraDelay(id, delay));
    case PacketCongestionEvent(_, _, size, n) =>
      MaximaAfterOperation(v, n, Done(node.PacketEcn(size), []));
  }

  lemma MaximaAfterLinkEvent(m: Metadata, v: VState, now: Duration, e: Option<LinkEvent>)
    requires v.Valid(m) && v.lastStep == now && OnLinkEvent(m, v, now, e).Continues?
    ensures SameMaxima(v, OnLinkEvent(m, v, now, e).v)
  {
    hide VState.Valid, RLink.SetStatus;
  }

  lemma MaximaAfterNodeEvent(m: Metadata, v: VState, now: Duration, e: Option<NodeEvent>)
    requires v.Valid(m) && v.lastStep == now && OnNodeEvent(m, v, now, e).Continues?
    ensures SameMaxima(v, OnNodeEvent(m, v, now, e).v)
  {
    hide VState.Valid;
  }

  lemma MaximaAfterEvent(m: Metadata, v: VState, now: Duration, kind: StepKind)
    requires v.Valid(m) && v.lastStep == now && kind.NetworkEvent? && OnStep(m, v, now, kind).Continues?
    ensures SameMaxima(v, OnStep(m, v, now, kind).v)
  {
    hide VState.Valid, OnLinkEvent, OnNodeEvent, SameMaxima;
    MaximaAfterLinkEvent(m, v, now, kind.linkEvent);
    MaximaAfterNodeEvent(m, OnLinkEvent(m, v, now, kind.linkEvent).v, now, kind.nodeEvent);
    SameMaximaTwice(v, OnLinkEvent(m, v, now, kind.linkEvent).v, OnStep(m, v, now, kind).v);
  }

  lemma MaximaAfterStep(m: Metadata, v: VState, now: Duration, kind: StepKind)
    requires v.Valid(m) && v.lastStep == now && OnStep(m, v, now, kind).Continues?
    ensures SameMaxima(v, OnStep(m, v, now, kind).v)
  {
    hide SameMaxima, VState.Valid, OnPacketInNode, OnPacketInTransit, OnPacketDuplicated,
         OnPacketDropped, OnPacketCongestionEvent, OnPacketDelivered, OnPacketExtraDelay, OnLinkEvent, OnNodeEvent;
    match kind
    case PacketInNode(id, number, size, n, dropped) => MaximaAfterArrival(m, v, now, id, number, size, n, dropped);
    case PacketInTransit(id, n, l) => MaximaAfterDeparture(m, v, now, id, n, l);
    case PacketLostInTransit(id, l) => MaximaAfterLoss(m, v, now, id, l);
    case NetworkEvent(_, _) => MaximaAfterEvent(m, v, now, kind);
    case _ => MaximaAfterNodeStep(m, v, now, kind);
  }

  lemma MaximaAfterLoss(m: Metadata, v: VState, now: Duration, id: PacketId, l: LinkId)
    requires v.Valid(m) && v.lastStep == now
    ensures SameMaxima(v, OnPacketLostInTransit(m, v, now, id, l).v)
  {
    hide VState.Valid;
  }

  lemma ExactWithSameMaxima(m: Metadata, v: VState, v': VState, peak: map<NodeId, nat>)
    requires v.Valid(m) && v'.Valid(m) && Exact(m, v, peak) && SameMaxima(v, v') && v.nodes.Keys == peak.Keys
    ensures Exact(m, v', peak)
  {
    hide VState.Valid, Reported;
    var more := v'.errors[|v.errors|..];
    assert v'.errors == v.errors + more;
    StillReported(v.errors, more);
  }

  // ---- Whole logs -----------------------------------------------------------------------------

  ghost function PastPeaks(m: Metadata, log: seq<Step>): map<NodeId, nat> {
    map n | n in m.bufferSizes :: PastPeak(log, n)
  }

  ghost function Peaks(m: Metadata, log: seq<Step>): map<NodeId, nat> {
    map n | n in m.bufferSizes :: Peak(log, n)
  }

  lemma KeysOf(m: Metadata, v: VState)
    requires v.Valid(m)
    ensures m.Valid() && v.nodes.Keys == m.bufferSizes.Keys
  {
    hide RNode.Valid, RLink.Valid;
  }

  lemma PastPeakAppend(init: seq<Step>, last: Step, n: NodeId)
    ensures PastPeak(init + [last], n)
         == if MovesClock(init, last) then Max(PastPeak(init, n), BytesKept(init, n)) else PastPeak(init, n)
  {
    assert (init + [last])[..|init|] == init;
  }

  lemma PastPeaksAppend(m: Metadata, init: seq<Step>, last: Step)
    requires m.Valid() && InOrder(init + [last]) && InOrder(init)
    requires ReplayLog(m, init).Continues? && ReplayLog(m, init).v.nodes.Keys == m.bufferSizes.Keys
    ensures PastPeaks(m, init + [last])
         == if MovesClock(init, last) then Raised(ReplayLog(m, init).v, PastPeaks(m, init)) else PastPeaks(m, init)
  {
    hide ReplayLog, VState.Valid, BytesKept, PastPeak, InOrder, MovesClock;
    forall n | n in m.bufferSizes
      ensures ReplayLog(m, init).v.nodes[n].usage == BytesKept(init, n)
      ensures PastPeak(init + [last], n)
           == if MovesClock(init, last) then Max(PastPeak(init, n), BytesKept(init, n)) else PastPeak(init, n)
    {
      UsageIsBytesKept(m, init, n);
      PastPeakAppend(init, last, n);
    }
  }

  lemma ExactAfterTick(m: Metadata, v: VState, now: Duration, peak: map<NodeId, nat>)
    requires v.Valid(m) && v.lastStep <= now && Exact(m, v, peak) && v.nodes.Keys == peak.Keys
    ensures var v' := Tick(m, v, now);
            v'.nodes.Keys == peak.Keys && Exact(m, v', if now != v.lastStep then Raised(v, peak) else peak)
  {
    hide VState.Valid, UpdateMaxBufferUsage, Raised, Reported;
    if now != v.lastStep {
      ExactAfterUpdate(m, v, peak);
      KeysOf(m, v);
      KeysOf(m, UpdateMaxBufferUsage(m, v));
      assert Exact(m, UpdateMaxBufferUsage(m, v), Raised(v, peak));
    }
  }

  lemma ExactAtFirst(m: Metadata)
    requires m.Valid()
    ensures Fresh(m).Valid(m) && Exact(m, Fresh(m), PastPeaks(m, []))
  {
    FreshIsValid(m);
  }

  lemma {:induction false} ExactAlways(m: Metadata, log: seq<Step>)
    requires m.Valid() && InOrder(log) && ReplayLog(m, log).Continues?
    ensures Exact(m, ReplayLog(m, log).v, PastPeaks(m, log))
  {
    hide Exact, OnStep, VState.Valid, Tick, Fresh, PastPeaks, Raised;
    if log == [] {
      ExactAtFirst(m);
    } else {
      var init, last := log[..|log| - 1], log[|log| - 1];
      ExactAlways(m, init);
      var v := ReplayLog(m, init).v;
      assert init + [last] == log;
      KeysOf(m, v);
      PastPeakKeys(m, init);
      PastPeaksAppend(m, init, last);
      ExactAfterTick(m, v, last.time, PastPeaks(m, init));
      PastPeakKeys(m, log);
      var v1 := Tick(m, v, last.time);
      MaximaAfterStep(m, v1, last.time, last.kind);
      ExactWithSameMaxima(m, v1, ReplayLog(m, log).v, PastPeaks(m, log));
    }
  }

  lemma PastPeakKeys(m: Metadata, log: seq<Step>)
    requires m.Valid() && InOrder(log)
    ensures PastPeaks(m, log).Keys == m.bufferSizes.Keys
  {
    hide Metadata.Valid;
  }

  /** The update after the last step always takes place: the last timestamp was not looked at before. */
  lemma {:induction false} LastUpdateIsEarlier(m: Metadata, log: seq<Step>)
    requires m.Valid() && InOrder(log) && ReplayLog(m, log).Continues?
    ensures var v := ReplayLog(m, log).v; v.lastUpdate.Some? ==> v.lastUpdate.value < v.lastStep
  {
    hide VState.Valid, UpdateMaxBufferUsage, OnStep;
    if log != [] {
      var init, last := log[..|log| - 1], log[|log| - 1];
      LastUpdateIsEarlier(m, init);
      StepKeepsLastUpdate(m, Tick(m, ReplayLog(m, init).v, last.time), last.time, last.kind);
    }
  }

  lemma StepKeepsLastUpdate(m: Metadata, v: VState, now: Duration, kind: StepKind)
    requires v.Valid(m) && v.lastStep == now && OnStep(m, v, now, kind).Continues?
    ensures OnStep(m, v, now, kind).v.lastUpdate == v.lastUpdate
  {
    hide VState.Valid, RLink.PacketSent, ReceiveErrors, SendErrors;
  }

  /**
   For every log in order without a fatal error: a buffer that is too small is reported if and only
   if, at the end of some timestamp, some node holds more than its buffer. Without such a report,
   the maximum in a node's statistics is the largest usage at the end of a timestamp.
   */
  lemma BufferReportIsExact(m: Metadata, log: seq<Step>)
    requires m.Valid() && InOrder(log) && Verify(m, log).Continues?
    ensures Reported(Verify(m, log).v.errors)
       <==> exists n :: n in m.bufferSizes && m.bufferSizes[n] < Peak(log, n)
    ensures !Reported(Verify(m, log).v.errors) ==>
              forall n :: n in m.bufferSizes ==>
                n in Verify(m, log).v.nodes && Verify(m, log).v.nodes[n].maxUsage == Peak(log, n)
  {
    hide VState.Valid, UpdateMaxBufferUsage, ReplayLog, PastPeak, BytesKept, Reported;
    ExactAlways(m, log);
    LastUpdateIsEarlier(m, log);
    var v := ReplayLog(m, log).v;
    KeysOf(m, v);
    ExactAfterUpdate(m, v, PastPeaks(m, log));
    KeysOf(m, UpdateMaxBufferUsage(m, v));
    assert Raised(v, PastPeaks(m, log)) == Peaks(m, log) by { RaisedPeaks(m, log); }
    assert Exact(m, UpdateMaxBufferUsage(m, v), Peaks(m, log));
  }

  lemma RaisedPeaks(m: Metadata, log: seq<Step>)
    requires m.Valid() && InOrder(log) && ReplayLog(m, log).Continues?
    requires ReplayLog(m, log).v.nodes.Keys == m.bufferSizes.Keys
    ensures Raised(ReplayLog(m, log).v, PastPeaks(m, log)) == Peaks(m, log)
  {
    hide ReplayLog, PastPeak, BytesKept, VState.Valid, Metadata.Valid, InOrder;
    forall n | n in m.bufferSizes
      ensures ReplayLog(m, log).v.nodes[n].usage == BytesKept(log, n)
    {
      UsageIsBytesKept(m, log, n);
    }
  }

  // ---- What a report says ---------------------------------------------------------------------

  /** Maxima are no more than `bound`, and each report names a buffer and a larger usage within the bound. */
  ghost predicate TrueReports(m: Metadata, v: VState, bound: map<NodeId, nat>) {
    && (forall n :: n in v.nodes ==> n in bound && v.nodes[n].maxUsage <= bound[n])
    && forall e :: e in v.errors && e.NodeExceedsBufferSize? ==> TrueReport(m, e, bound)
  }

  predicate TrueReport(m: Metadata, e: NonFatalError, bound: map<NodeId, nat>)
    requires e.NodeExceedsBufferSize?
  {
    && e.node in m.bufferSizes && e.node in bound
    && e.bufferSize == m.bufferSizes[e.node] < e.maxUsage <= bound[e.node]
  }

  lemma BumpIsTrue(m: Metadata, v: VState, n: NodeId, bound: map<NodeId, nat>)
    requires v.Valid(m) && n in v.nodes && TrueReports(m, v, bound)
    requires forall k :: k in v.nodes ==> v.nodes[k].usage <= bound[k]
    ensures TrueReports(m, Bump(m, v, n), bound)
    ensures forall k :: k in Bump(m, v, n).nodes ==> Bump(m, v, n).nodes[k].usage <= bound[k]
  {
    hide VState.Valid, TrueReport;
  }

  lemma {:induction false} UpdateIsTrue(m: Metadata, v: VState, k: nat, bound: map<NodeId, nat>)
    requires v.Valid(m) && k <= |m.order| && TrueReports(m, v, bound)
    requires forall n :: n in v.nodes ==> v.nodes[n].usage <= bound[n]
    ensures TrueReports(m, UpdateFrom(m, v, k), bound)
    decreases |m.order| - k
  {
    hide VState.Valid, UpdateFrom, Bump;
    if k < |m.order| {
      UpdateRound(m, v, k);
      var v' := Bump(m, v, m.order[k]);
      BumpIsTrue(m, v, m.order[k], bound);
      if m.bufferSizes[m.order[k]] >= v'.nodes[m.order[k]].maxUsage {
        UpdateIsTrue(m, v', k + 1, bound);
      }
    } else {
      NothingLeft(m, v, k);
    }
  }

  lemma TrueWithMore(m: Metadata, v: VState, bound: map<NodeId, nat>, more: map<NodeId, nat>)
    requires TrueReports(m, v, bound) && bound.Keys == more.Keys && forall n :: n in bound ==> bound[n] <= more[n]
    ensures TrueReports(m, v, more)
  {
  }

  lemma TrueWithSameMaxima(m: Metadata, v: VState, v': VState, bound: map<NodeId, nat>)
    requires TrueReports(m, v, bound) && SameMaxima(v, v')
    ensures TrueReports(m, v', bound)
  {
    hide TrueReport;
    forall e | e in v'.errors && e.NodeExceedsBufferSize?
      ensures TrueReport(m, e, bound)
    {
      var i :| 0 <= i < |v'.errors| && v'.errors[i] == e;
      assert i < |v.errors|;
      assert v'.errors[..|v.errors|][i] == e;
    }
  }

  lemma TrueAfterUpdate(m: Metadata, v: VState, peak: map<NodeId, nat>)
    requires v.Valid(m) && TrueReports(m, v, peak) && v.nodes.Keys == peak.Keys
    ensures TrueReports(m, UpdateMaxBufferUsage(m, v), Raised(v, peak))
  {
    hide VState.Valid, UpdateFrom, TrueReports;
    TrueWithMore(m, v, peak, Raised(v, peak));
    UpdateIsTrue(m, v, 0, Raised(v, peak));
  }

  lemma TrueAfterTick(m: Metadata, v: VState, now: Duration, peak: map<NodeId, nat>)
    requires v.Valid(m) && v.lastStep <= now && TrueReports(m, v, peak) && v.nodes.Keys == peak.Keys
    ensures TrueReports(m, Tick(m, v, now), if now != v.lastStep then Raised(v, peak) else peak)
  {
    hide VState.Valid, UpdateMaxBufferUsage, Raised, TrueReport;
    if now != v.lastStep {
      TrueAfterUpdate(m, v, peak);
    }
  }

  lemma TrueAtFirst(m: Metadata)
    requires m.Valid()
    ensures TrueReports(m, Fresh(m), PastPeaks(m, []))
  {
  }

  lemma {:induction false} TrueAlways(m: Metadata, log: seq<Step>)
    requires m.Valid() && InOrder(log) && ReplayLog(m, log).Continues?
    ensures TrueReports(m, ReplayLog(m, log).v, PastPeaks(m, log))
  {
    hide TrueReports, OnStep, VState.Valid, Tick, Fresh, PastPeaks, Raised;
    if log == [] {
      TrueAtFirst(m);
    } else {
      var init, last := log[..|log| - 1], log[|log| - 1];
      TrueAlways(m, init);
      var v := ReplayLog(m, init).v;
      assert init + [last] == log;
      KeysOf(m, v);
      PastPeakKeys(m, init);
      PastPeaksAppend(m, init, last);
      TrueAfterTick(m, v, last.time, PastPeaks(m, init));
      var v1 := Tick(m, v, last.time);
      MaximaAfterStep(m, v1, last.time, last.kind);
      TrueWithSameMaxima(m, v1, ReplayLog(m, log).v, PastPeaks(m, log));
    }
  }

  /**
   For every log in order without a fatal error: a report about a buffer names its size, and a usage
   that is larger, and no larger than the peak of the node.
   */
  lemma BufferReportsAreTrue(m: Metadata, log: seq<Step>, e: NonFatalError)
    requires m.Valid() && InOrder(log) && Verify(m, log).Continues?
    requires e in Verify(m, log).v.errors && e.NodeExceedsBufferSize?
    ensures e.node in m.bufferSizes && e.bufferSize == m.bufferSizes[e.node] < e.maxUsage <= Peak(log, e.node)
  {
    hide VState.Valid, UpdateMaxBufferUsage, ReplayLog, PastPeak, BytesKept;
    TrueAlways(m, log);
    LastUpdateIsEarlier(m, log);
    var v := ReplayLog(m, log).v;
    KeysOf(m, v);
    TrueAfterUpdate(m, v, PastPeaks(m, log));
    assert Raised(v, PastPeaks(m, log)) == Peaks(m, log) by { RaisedPeaks(m, log); }
  }

  // ---- The count that stays at zero -----------------------------------------------------------

  ghost predicate NoZeroTtl(v: VState) {
    forall n :: n in v.nodes ==> v.nodes[n].counts.zeroTtl == NO_PACKETS
  }

  lemma NoZeroTtlAfterUpdate(m: Metadata, v: VState)
    requires v.Valid(m) && NoZeroTtl(v)
    ensures NoZeroTtl(UpdateMaxBufferUsage(m, v))
  {
    hide VState.Valid, UpdateFrom;
    UpdateKeepsTheRest(m, v, 0);
  }

  lemma {:induction false} NoZeroTtlAlways(m: Metadata, log: seq<Step>)
    requires m.Valid() && InOrder(log) && ReplayLog(m, log).Continues?
    ensures NoZeroTtl(ReplayLog(m, log).v)
  {
    hide VState.Valid, UpdateMaxBufferUsage, OnStep;
    if log != [] {
      var init, last := log[..|log| - 1], log[|log| - 1];
      NoZeroTtlAlways(m, init);
      var v := ReplayLog(m, init).v;
      NoZeroTtlAfterUpdate(m, v);
      MaximaAfterStep(m, Tick(m, v, last.time), last.time, last.kind);
    }
  }

  /** For every log, whatever the reasons for which it drops packets: no packet is counted as dropped for its TTL. */
  lemma ZeroTtlIsNeverCounted(m: Metadata, log: seq<Step>, n: NodeId)
    requires m.Valid() && InOrder(log) && Verify(m, log).Continues? && n in Verify(m, log).v.nodes
    ensures Verify(m, log).v.nodes[n].counts.zeroTtl == NO_PACKETS
  {
    hide VState.Valid, UpdateMaxBufferUsage, ReplayLog;
    NoZeroTtlAlways(m, log);
    NoZeroTtlAfterUpdate(m, ReplayLog(m, log).v);
  }
}
