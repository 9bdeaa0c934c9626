/** Packets that a node keeps while it is down: those behind links that wait. */
module Waiting {
  import opened Prelude
  import opened Trace
  import opened PacketPacer
  import opened Network
  import opened Soundness
  import opened Queues
  import opened Pacing
  import opened TracedRuns

  predicate BringsUpNode(a: Action, n: NodeId) {
    a.NodeChanging? && a.nodeEvent.node == n && a.nodeEvent.status == Some(Up)
  }

  /** The task of link `l` waits with a packet that nobody handled. */
  ghost predicate WaitsWithPacket(s: Net, l: LinkId) {
    l in s.links && s.links[l].task.Busy? && s.links[l].task.phase.Sleeping? && !Handled(s, l)
  }

  /** Node `n` is down, and all the links that leave from it wait. */
  ghost predicate AllWait(t: Topology, s: Net, n: NodeId)
    requires t.Valid()
  {
    && n in s.nodes && s.nodes[n].status == Down && !CameUp(s, n)
    && forall l :: l in t.links && t.Source(l) == n ==> WaitsWithPacket(s, l)
  }

  // ---- Steps that concern no link's task ------------------------------------------------------

  /** No task, flag or clock changes, node `n` keeps its status, and no record brings it up. */
  ghost predicate Uneventful(s: Net, s': Net, n: NodeId) {
    && s'.links.Keys == s.links.Keys && s'.carried == s.carried && s'.handled == s.handled && s'.now == s.now
    && s'.nodes.Keys == s.nodes.Keys && (n in s.nodes ==> s'.nodes[n].status == s.nodes[n].status)
    && (forall l :: l in s.links ==> s'.links[l].task == s.links[l].task)
    && |s.log| <= |s'.log| && s'.log[..|s.log|] == s.log
    && forall i :: |s.log| <= i < |s'.log| ==> !BringsUp(s'.log[i].kind, n)
  }

  lemma UneventfulTwice(a: Net, b: Net, c: Net, n: NodeId)
    requires Uneventful(a, b, n) && Uneventful(b, c, n)
    ensures Uneventful(a, c, n)
  {
    assert c.log[..|a.log|] == c.log[..|b.log|][..|a.log|];
    forall i | |a.log| <= i < |c.log|
      ensures !BringsUp(c.log[i].kind, n)
    {
      if i < |b.log| {
        assert c.log[..|b.log|][i] == b.log[i];
      }
    }
  }

  lemma RecordIsUneventful(s: Net, kind: StepKind, n: NodeId)
    requires !BringsUp(kind, n)
    ensures Uneventful(s, s.Record(kind), n)
  {
  }

  lemma EnqueueIsUneventful(s: Net, m: NodeId, p: Packet, n: NodeId)
    requires m in s.nodes
    ensures Uneventful(s, Enqueue(s, m, p), n)
  {
  }

  lemma StoreIsUneventful(t: Topology, s: Net, m: NodeId, p: Packet, luck: Luck, n: NodeId)
    requires m in s.nodes && m in t.nodes
    ensures Uneventful(s, Store(t, s, m, p, luck), n)
  {
    hide Uneventful, Enqueue;
    RecordIsUneventful(s, PacketDropped(p.id, m, Random), n);
    EnqueueIsUneventful(s, m, p, n);
    var twin := p.(id := luck.freshId, duplicate := true);
    var s1 := Enqueue(s, m, p);
    var s2 := s1.(ids := s1.ids + {luck.freshId}).Record(DuplicationRecord(m, twin));
    TwinIsUneventful(s1, s2, DuplicationRecord(m, twin), n);
    EnqueueIsUneventful(s2, m, twin, n);
    UneventfulTwice(s1, s2, Enqueue(s2, m, twin), n);
    UneventfulTwice(s, s1, Enqueue(s2, m, twin), n);
  }

  lemma TwinIsUneventful(s: Net, s': Net, kind: StepKind, n: NodeId)
    requires s' == s.(ids := s'.ids).Record(kind) && !BringsUp(kind, n)
    ensures Uneventful(s, s', n)
  {
  }

  lemma DeliverIsUneventful(s: Net, m: NodeId, p: Packet, n: NodeId)
    requires m in s.nodes
    ensures Uneventful(s, Deliver(s, m, p), n)
  {
  }

  lemma ForwardIsUneventful(t: Topology, s: Net, m: NodeId, p: Packet, luck: Luck, n: NodeId)
    requires m in s.nodes && m in t.nodes
    ensures Uneventful(s, Forward(t, s, m, p, luck), n)
  {
    hide Uneventful, Store, Deliver;
    RecordIsUneventful(s, ArrivalRecord(m, p, true), n);
    var s1 := s.Record(ArrivalRecord(m, p, false));
    RecordIsUneventful(s, ArrivalRecord(m, p, false), n);
    if s.nodes[m].status.Up? {
      DeliverIsUneventful(s1, m, p, n);
      UneventfulTwice(s, s1, Deliver(s1, m, p), n);
      RecordIsUneventful(s1, PacketDropped(p.id, m, ZeroTtl), n);
      UneventfulTwice(s, s1, s1.Record(PacketDropped(p.id, m, ZeroTtl)), n);
      StoreIsUneventful(t, s1, m, Hop(p), luck, n);
      UneventfulTwice(s, s1, Store(t, s1, m, Hop(p), luck), n);
    }
  }

  lemma InjectIsUneventful(t: Topology, s: Net, m: NodeId, id: PacketId, d: Datagram, luck: Luck, n: NodeId)
    requires Sound(t, s) && m in s.nodes && m in t.nodes
    ensures Uneventful(s, Inject(t, s, m, id, d, luck), n)
  {
    hide Sound, Forward;
    var s1 := s.(nextNumber := s.nextNumber + 1, ids := s.ids + {id});
    ForwardIsUneventful(t, s1, m, Packet(id, s.nextNumber, d.payload, d.dest, d.port, d.ttl, false), luck, n);
  }

  lemma LandIsUneventful(t: Topology, s: Net, l: LinkId, x: InTransit, luck: Luck, n: NodeId)
    requires Sound(t, s) && t.Valid() && l in s.links && l in t.links && t.Target(l) in s.nodes && t.Target(l) in t.nodes
    ensures Uneventful(s, Land(t, s, l, x, luck), n)
  {
    hide Sound, Forward, Topology.Valid, Uneventful;
    var s1 := TakeOff(s, l, x);
    TakeOffIsUneventful(s, l, x, n);
    RecordIsUneventful(s1, PacketLostInTransit(x.packet.id, l), n);
    ForwardIsUneventful(t, s1, t.Target(l), x.packet, luck, n);
    UneventfulTwice(s, s1, Land(t, s, l, x, luck), n);
  }

  lemma TakeOffIsUneventful(s: Net, l: LinkId, x: InTransit, n: NodeId)
    requires l in s.links
    ensures Uneventful(s, TakeOff(s, l, x), n)
  {
  }

  lemma DispatchIsUneventful(t: Topology, s: Net, m: NodeId, rolls: seq<real>, n: NodeId)
    requires CanDispatch(t, s, m, rolls)
    ensures Uneventful(s, Dispatch(t, s, m, rolls), n)
  {
    hide Topology.Valid, LinkSound, Offer;
    DispatchKeepsPace(t, s, m, rolls);
  }

  lemma ReadIsUneventful(s: Net, m: NodeId, x: InTransit, n: NodeId)
    requires m in s.nodes
    ensures Uneventful(s, Read(s, m, x), n)
  {
  }

  lemma LinkChangeIsUneventful(s: Net, e: LinkEvent, n: NodeId)
    ensures Uneventful(s, LinkChange(s, e), n)
  {
    hide ChangedLink;
  }

  lemma UneventfulWaits(t: Topology, s: Net, s': Net, n: NodeId)
    requires t.Valid() && AllWait(t, s, n) && Uneventful(s, s', n)
    ensures AllWait(t, s', n)
  {
    hide Topology.Valid;
    forall i | 0 <= i < |s'.log| && s'.log[i].time == s'.now
      ensures !BringsUp(s'.log[i].kind, n)
    {
      if i < |s.log| {
        assert s'.log[..|s.log|][i] == s.log[i];
      }
    }
  }

  /** What the links from node `n` carried stays as it is. */
  ghost predicate CarriesNoMore(t: Topology, s: Net, s': Net, n: NodeId)
    requires t.Valid()
  {
    forall l :: l in t.links && t.Source(l) == n && l in s.carried ==> l in s'.carried && s'.carried[l] == s.carried[l]
  }

  // ---- Steps of other links -------------------------------------------------------------------

  lemma NodeChangeWaits(t: Topology, s: Net, e: NodeEvent, n: NodeId)
    requires t.Valid() && AllWait(t, s, n) && !(e.node == n && e.status == Some(Up))
    ensures AllWait(t, NodeChange(s, e), n)
  {
    hide Topology.Valid;
  }

  lemma PassingWaits(t: Topology, s: Net, until: Duration, n: NodeId)
    requires t.Valid() && AllWait(t, s, n) && s.now <= until && forall i :: 0 <= i < |s.log| ==> s.log[i].time <= s.now
    ensures AllWait(t, s.(now := until), n)
  {
    hide Topology.Valid;
  }

  /** Another link goes on, and perhaps sets the flag of a packet of its own source. */
  lemma OtherLinkWaits(t: Topology, s: Net, s': Net, m: LinkId, n: NodeId)
    requires Queued(t, s) && Sound(t, s) && t.Valid() && AllWait(t, s, n) && m in t.links && t.Source(m) != n
    requires s'.links.Keys == s.links.Keys && s'.now == s.now && n in s'.nodes && s'.nodes[n].status == s.nodes[n].status
    requires forall l :: l in s.links && l != m ==> s'.links[l] == s.links[l]
    requires |s.log| <= |s'.log| && s'.log[..|s.log|] == s.log
    requires forall i :: |s.log| <= i < |s'.log| ==> !BringsUp(s'.log[i].kind, n)
    requires forall k :: k in s'.handled && k !in s.handled ==> k < |s.accepted| && s.accepted[k].node == t.Source(m)
    ensures AllWait(t, s', n)
  {
    hide Queued, Sound, Topology.Valid;
    forall l | l in t.links && t.Source(l) == n
      ensures WaitsWithPacket(s', l)
    {
      assert WaitsWithPacket(s, l);
      TicketIsOfSource(t, s, l);
    }
    forall i | 0 <= i < |s'.log| && s'.log[i].time == s'.now
      ensures !BringsUp(s'.log[i].kind, n)
    {
      if i < |s.log| {
        assert s'.log[..|s.log|][i] == s.log[i];
      }
    }
  }

  lemma FinishWaits(t: Topology, s: Net, m: LinkId, n: NodeId)
    requires Queued(t, s) && Fine(t, s) && Sound(t, s) && t.Valid() && AllWait(t, s, n) && InOffering(s, m)
    ensures AllWait(t, Finish(t, s, m), n) && CarriesNoMore(t, s, Finish(t, s, m), n)
  {
    hide Queued, Fine, Sound, Topology.Valid, Finish, CameUp, AllWait;
    FinishIsElsewhere(t, s, m, n);
    TicketIsOfSource(t, s, m);
    OffersAreNotWaiting(t, s, m, n);
    WaitingNode(t, s, n);
    OtherLinkWaits(t, s, Finish(t, s, m), m, n);
  }

  /** What finishing a round changes. */
  lemma FinishIsElsewhere(t: Topology, s: Net, m: LinkId, n: NodeId)
    requires Fine(t, s) && Sound(t, s) && InOffering(s, m)
    ensures var s', k := Finish(t, s, m), s.links[m].task.packet.ticket;
            && s'.links.Keys == s.links.Keys && s'.now == s.now && s'.nodes.Keys == s.nodes.Keys
            && (n in s.nodes ==> s'.nodes[n].status == s.nodes[n].status)
            && (forall l :: l in s.links && l != m ==> s'.links[l] == s.links[l])
            && (forall l :: l in s.carried && l != m ==> l in s'.carried && s'.carried[l] == s.carried[l])
            && |s.log| <= |s'.log| && s'.log[..|s.log|] == s.log
            && (forall i :: |s.log| <= i < |s'.log| ==> !BringsUp(s'.log[i].kind, n))
            && (forall j :: j in s'.handled && j !in s.handled ==> j == k)
  {
    hide Fine, Sound, Topology.Valid, Topology.TransmissionTime, Batch.Add;
    BusyFacts(t, s, m);
  }

  lemma OffersAreNotWaiting(t: Topology, s: Net, m: LinkId, n: NodeId)
    requires t.Valid() && AllWait(t, s, n) && m in s.links && m in t.links && !WaitsWithPacket(s, m)
    ensures t.Source(m) != n
  {
    hide Topology.Valid;
  }

  lemma TakeWaits(t: Topology, s: Net, m: LinkId, n: NodeId)
    requires Queued(t, s) && Sound(t, s) && t.Valid() && AllWait(t, s, n)
    requires m in s.links && s.links[m].task.Idle? && s.links[m].queue != []
    ensures AllWait(t, Take(t, s, m), n) && Take(t, s, m).carried == s.carried
  {
    hide Queued, Topology.Valid, NodeSound, Topology.TransmissionTime, Batch.At, Batch.Wait, Batch.CanSend, CameUp, AllWait;
    OffersAreNotWaiting(t, s, m, n);
    assert n in s.nodes by { WaitingNode(t, s, n); }
    OtherLinkWaits(t, s, Take(t, s, m), m, n);
  }

  lemma WaitingNode(t: Topology, s: Net, n: NodeId)
    requires t.Valid() && AllWait(t, s, n)
    ensures n in s.nodes && !CameUp(s, n)
  {
    hide Topology.Valid, CameUp;
  }

  lemma TaskChangeWaits(t: Topology, s: Net, m: LinkId, task: LinkTask, n: NodeId)
    requires Queued(t, s) && Sound(t, s) && t.Valid() && AllWait(t, s, n) && m in s.links && m in t.links && t.Source(m) != n
    ensures AllWait(t, WithTask(s, m, task), n)
  {
    hide Queued, Sound, Topology.Valid, CameUp, AllWait;
    WaitingNode(t, s, n);
    OtherLinkWaits(t, s, WithTask(s, m, task), m, n);
  }

  /** Who may wake up is not one of the links that wait for node `n`. */
  lemma WakesElsewhere(t: Topology, s: Net, m: LinkId, n: NodeId)
    requires Sound(t, s) && t.Valid() && AllWait(t, s, n) && m in s.links && m in t.links && CanWake(t, s, m)
    ensures t.Source(m) != n
  {
    hide Sound, Topology.Valid, CameUp, AllWait;
    WaitingNode(t, s, n);
    if Handled(s, m) {
      OffersAreNotWaiting(t, s, m, n);
    }
  }

  lemma WaitsAfterStep(t: Topology, s: Net, a: Action, n: NodeId)
    requires Queued(t, s) && t.Valid() && AllWait(t, s, n) && Enabled(t, s, a) && !BringsUpNode(a, n)
    ensures AllWait(t, Apply(t, s, a), n) && CarriesNoMore(t, s, Apply(t, s, a), n)
  {
    hide Queued, Fine, Sound, AllWait, Uneventful, Inject, Land, Take, Finish, Dispatch, Read, LinkChange, NodeChange, WithTask,
         CanDispatch, CameUp, Topology.Valid;
    QueuedIsSound(t, s);
    var s' := Apply(t, s, a);
    match a
    case Injecting(m, id, d, luck) =>
      InjectIsUneventful(t, s, m, id, d, luck, n);
      StillWaiting(t, s, s', n);
    case Dispatching(m, rolls) =>
      DispatchIsUneventful(t, s, m, rolls, n);
      StillWaiting(t, s, s', n);
    case Landing(l, x, luck) =>
      TargetIsNode(t, s, l);
      LandIsUneventful(t, s, l, x, luck, n);
      StillWaiting(t, s, s', n);
    case Reading(m, x) =>
      ReadIsUneventful(s, m, x, n);
      StillWaiting(t, s, s', n);
    case LinkChanging(e) =>
      LinkChangeIsUneventful(s, e, n);
      StillWaiting(t, s, s', n);
    case NodeChanging(e) =>
      NodeChangeWaits(t, s, e, n);
      NodeChangeCarries(s, e);
    case Passing(until) =>
      LogIsPast(t, s);
      PassingWaits(t, s, until, n);
    case Taking(l) => TakeWaits(t, s, l, n);
    case Waking(l) =>
      WakesElsewhere(t, s, l, n);
      TaskChangeWaits(t, s, l, Busy(s.links[l].task.packet, Offering), n);
      TaskChangeCarries(s, l, Busy(s.links[l].task.packet, Offering));
    case GivingWay(l) =>
      var copy := s.links[l].task.packet;
      OffersAreNotWaiting(t, s, l, n);
      TaskChangeWaits(t, s, l, Busy(copy.(preferred := copy.preferred[1..]), Offering), n);
      TaskChangeCarries(s, l, Busy(copy.(preferred := copy.preferred[1..]), Offering));
    case Finishing(l) => FinishWaits(t, s, l, n);
  }

  lemma StillWaiting(t: Topology, s: Net, s': Net, n: NodeId)
    requires t.Valid() && AllWait(t, s, n) && Uneventful(s, s', n)
    ensures AllWait(t, s', n) && CarriesNoMore(t, s, s', n)
  {
    hide Topology.Valid, AllWait;
    UneventfulWaits(t, s, s', n);
  }

  lemma NodeChangeCarries(s: Net, e: NodeEvent)
    ensures NodeChange(s, e).carried == s.carried
  {
  }

  lemma TaskChangeCarries(s: Net, l: LinkId, task: LinkTask)
    requires l in s.links
    ensures WithTask(s, l, task).carried == s.carried
  {
  }

  lemma LogIsPast(t: Topology, s: Net)
    requires Fine(t, s)
    ensures forall i :: 0 <= i < |s.log| ==> s.log[i].time <= s.now
  {
    hide Sound;
  }

  /**
   In every run: once a node is down and all the links from it wait, they go on waiting, and nothing
   leaves the node, until an event brings it up, whatever else happens.
   */
  lemma {:induction false} WaitingLinksHold(t: Topology, actions: seq<Action>, more: seq<Action>, n: NodeId)
    requires IsRun(t, actions) && IsRun(t, actions + more) && t.Valid() && AllWait(t, StateAfter(t, actions), n)
    requires forall i :: 0 <= i < |more| ==> !BringsUpNode(more[i], n)
    ensures AllWait(t, StateAfter(t, actions + more), n)
    ensures CarriesNoMore(t, StateAfter(t, actions), StateAfter(t, actions + more), n)
    decreases |more|
  {
    hide IsRun, StateAfter, Apply, Enabled, AllWait, Queued, Topology.Valid;
    if more == [] {
      assert actions + more == actions;
    } else {
      var init, last := more[..|more| - 1], more[|more| - 1];
      assert (actions + more)[..|actions + more| - 1] == actions + init;
      LastStep(t, actions + more);
      WaitingLinksHold(t, actions, init, n);
      RunIsQueued(t, actions + init);
      WaitsAfterStep(t, StateAfter(t, actions + init), last, n);
    }
  }
}
