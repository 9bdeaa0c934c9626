/** Which nodes serve applications: only those that packets are sent to, or that send while they are down. */
module Destinations {
  import opened Prelude
  import opened Trace
  import opened PacketPacer
  import opened Network
  import opened PacketLog
  import opened Soundness
  import opened Queues
  import opened Places
  import opened Pacing
  import opened Ledger
  import opened Termination
  import opened Copies
  import opened Lineage
  import opened TracedRuns

  /** Some application sends a packet to node `n`. */
  ghost predicate IsDestination(t: Topology, actions: seq<Action>, n: NodeId) {
    n in t.nodes
    && exists i :: 0 <= i < |actions| && actions[i].Injecting? && actions[i].datagram.dest == t.nodes[n].canonical
  }

  /** Some application sends a packet from node `n` while the node is down. */
  ghost predicate SendsWhileDown(t: Topology, actions: seq<Action>, n: NodeId) {
    exists i :: 0 <= i < |actions| && actions[i].Injecting? && actions[i].node == n && IsRun(t, actions[..i])
                && n in StateAfter(t, actions[..i]).nodes && StateAfter(t, actions[..i]).nodes[n].status.Down?
  }

  // ---- Inboxes --------------------------------------------------------------------------------

  /** What is new in the inboxes is `p`, and it is where it was sent to. */
  ghost predicate OnlyDelivers(t: Topology, s: Net, p: Packet, s': Net) {
    && s'.nodes.Keys == s.nodes.Keys
    && forall n, x :: n in s.nodes && x in s'.nodes[n].inbox && x !in s.nodes[n].inbox ==>
         x.packet == p && n in t.nodes && p.dest == t.nodes[n].canonical
  }

  ghost predicate SameInboxes(s: Net, s': Net) {
    s'.nodes.Keys == s.nodes.Keys && forall n :: n in s.nodes ==> s'.nodes[n].inbox <= s.nodes[n].inbox
  }

  lemma EnqueueKeepsInboxes(s: Net, n: NodeId, p: Packet)
    requires n in s.nodes
    ensures SameInboxes(s, Enqueue(s, n, p))
  {
  }

  lemma SameInboxesTwice(a: Net, b: Net, c: Net)
    requires SameInboxes(a, b) && SameInboxes(b, c)
    ensures SameInboxes(a, c)
  {
  }

  lemma StoreKeepsInboxes(t: Topology, s: Net, n: NodeId, p: Packet, luck: Luck)
    requires n in s.nodes && n in t.nodes
    ensures SameInboxes(s, Store(t, s, n, p, luck))
  {
    hide SameInboxes, Enqueue;
    EnqueueKeepsInboxes(s, n, p);
    var s1 := Enqueue(s, n, p);
    var twin := p.(id := luck.freshId, duplicate := true);
    var s2 := s1.(ids := s1.ids + {luck.freshId}).Record(DuplicationRecord(n, twin));
    SameNodesSameInboxes(s1, s2);
    SameNodesSameInboxes(s, s.Record(PacketDropped(p.id, n, Random)));
    EnqueueKeepsInboxes(s2, n, twin);
    SameInboxesTwice(s1, s2, Enqueue(s2, n, twin));
    SameInboxesTwice(s, s1, Enqueue(s2, n, twin));
  }

  lemma SameNodesSameInboxes(s: Net, s': Net)
    requires s'.nodes == s.nodes
    ensures SameInboxes(s, s')
  {
  }

  lemma ForwardDelivers(t: Topology, s: Net, n: NodeId, p: Packet, luck: Luck)
    requires n in s.nodes && n in t.nodes
    ensures OnlyDelivers(t, s, p, Forward(t, s, n, p, luck))
  {
    hide Store;
    var s1 := s.Record(ArrivalRecord(n, p, false));
    if s.nodes[n].status.Up? && t.nodes[n].canonical != p.dest && Hop(p).ttl > 0 {
      StoreKeepsInboxes(t, s1, n, Hop(p), luck);
    }
  }

  /** Each packet in an inbox was sent there. */
  ghost predicate WellDelivered(t: Topology, s: Net, sent: seq<Datagram>) {
    forall n, x :: n in s.nodes && x in s.nodes[n].inbox ==> SentTo(t, n, x, sent)
  }

  predicate SentTo(t: Topology, n: NodeId, x: InTransit, sent: seq<Datagram>) {
    n in t.nodes && x.packet.number < |sent| && sent[x.packet.number].dest == t.nodes[n].canonical
  }

  lemma WellDeliveredAfter(t: Topology, s: Net, sent: seq<Datagram>, p: Packet, s': Net, sent': seq<Datagram>)
    requires WellDelivered(t, s, sent) && OnlyDelivers(t, s, p, s')
    requires p.number < |sent'| && sent'[p.number].dest == p.dest
    requires |sent| <= |sent'| && sent'[..|sent|] == sent
    ensures WellDelivered(t, s', sent')
  {
    forall n, x | n in s'.nodes && x in s'.nodes[n].inbox
      ensures SentTo(t, n, x, sent')
    {
      if x in s.nodes[n].inbox {
        assert SentTo(t, n, x, sent);
        assert sent'[x.packet.number] == sent'[..|sent|][x.packet.number];
      } else {
        assert n in s.nodes && x !in s.nodes[n].inbox;
        assert x.packet == p;
      }
    }
  }

  lemma WellDeliveredStays(t: Topology, s: Net, sent: seq<Datagram>, s': Net)
    requires WellDelivered(t, s, sent) && SameInboxes(s, s')
    ensures WellDelivered(t, s', sent)
  {
    forall n, x | n in s'.nodes && x in s'.nodes[n].inbox
      ensures SentTo(t, n, x, sent)
    {
      assert n in s.nodes && x in s.nodes[n].inbox;
    }
  }

  lemma OthersKeepInboxes(t: Topology, s: Net, a: Action)
    requires Fine(t, s) && Enabled(t, s, a) && !a.Injecting? && !a.Landing?
    ensures SameInboxes(s, Apply(t, s, a))
  {
    hide Fine, Sound, CanDispatch, CameUp, Finish, Dispatch, Take, Read, LinkChange, NodeChange, WithTask, SameInboxes;
    match a
    case Finishing(l) => FinishKeepsInboxes(t, s, l);
    case Dispatching(n, rolls) => DispatchKeepsInboxes(t, s, n, rolls);
    case Taking(l) => TakeKeepsInboxes(t, s, l);
    case Reading(n, x) => ReadKeepsInboxes(s, n, x);
    case LinkChanging(e) => LinkChangeKeepsInboxes(s, e);
    case NodeChanging(e) => NodeChangeKeepsInboxes(s, e);
    case Waking(l) => TaskChangeKeepsInboxes(s, l, Busy(s.links[l].task.packet, Offering));
    case GivingWay(l) =>
      var copy := s.links[l].task.packet;
      TaskChangeKeepsInboxes(s, l, Busy(copy.(preferred := copy.preferred[1..]), Offering));
    case Passing(until) => PassingKeepsInboxes(s, until);
  }

  lemma ReadKeepsInboxes(s: Net, n: NodeId, x: InTransit)
    requires n in s.nodes
    ensures SameInboxes(s, Read(s, n, x))
  {
  }

  lemma LinkChangeKeepsInboxes(s: Net, e: LinkEvent)
    ensures SameInboxes(s, LinkChange(s, e))
  {
    hide ChangedLink;
  }

  lemma NodeChangeKeepsInboxes(s: Net, e: NodeEvent)
    ensures SameInboxes(s, NodeChange(s, e))
  {
  }

  lemma TaskChangeKeepsInboxes(s: Net, l: LinkId, task: LinkTask)
    requires l in s.links
    ensures SameInboxes(s, WithTask(s, l, task))
  {
  }

  lemma PassingKeepsInboxes(s: Net, until: Duration)
    ensures SameInboxes(s, s.(now := until))
  {
  }

  lemma TakeKeepsInboxes(t: Topology, s: Net, l: LinkId)
    requires Sound(t, s) && l in s.links && s.links[l].task.Idle? && s.links[l].queue != []
    ensures SameInboxes(s, Take(t, s, l))
  {
    hide Topology.Valid, Topology.TransmissionTime, NodeSound, Batch.At, Batch.Wait, Batch.CanSend;
  }

  lemma DispatchKeepsInboxes(t: Topology, s: Net, n: NodeId, rolls: seq<real>)
    requires CanDispatch(t, s, n, rolls)
    ensures SameInboxes(s, Dispatch(t, s, n, rolls))
  {
    hide Topology.Valid, LinkSound, Offer;
  }

  lemma FinishKeepsInboxes(t: Topology, s: Net, l: LinkId)
    requires Fine(t, s) && Sound(t, s) && InOffering(s, l)
    ensures SameInboxes(s, Finish(t, s, l))
  {
    hide Fine, Sound, Topology.Valid, Topology.TransmissionTime, Batch.Add;
    BusyFacts(t, s, l);
  }

  lemma InjectDelivers(t: Topology, s: Net, n: NodeId, id: PacketId, d: Datagram, luck: Luck)
    requires Sound(t, s) && n in s.nodes && n in t.nodes
    ensures OnlyDelivers(t, s, Packet(id, s.nextNumber, d.payload, d.dest, d.port, d.ttl, false), Inject(t, s, n, id, d, luck))
  {
    hide Sound, Forward, OnlyDelivers;
    var p := Packet(id, s.nextNumber, d.payload, d.dest, d.port, d.ttl, false);
    var s1 := s.(nextNumber := s.nextNumber + 1, ids := s.ids + {id});
    ForwardDelivers(t, s1, n, p, luck);
    DeliversFrom(t, s, s1, p, Inject(t, s, n, id, d, luck));
  }

  lemma DeliversFrom(t: Topology, s: Net, s1: Net, p: Packet, s': Net)
    requires s1.nodes == s.nodes && OnlyDelivers(t, s1, p, s')
    ensures OnlyDelivers(t, s, p, s')
  {
  }

  lemma LandDelivers(t: Topology, s: Net, l: LinkId, x: InTransit, luck: Luck)
    requires Sound(t, s) && t.Valid() && l in s.links && l in t.links && t.Target(l) in s.nodes && t.Target(l) in t.nodes
    ensures OnlyDelivers(t, s, x.packet, Land(t, s, l, x, luck))
  {
    hide Sound, Forward, Topology.Valid, OnlyDelivers;
    var s1 := TakeOff(s, l, x);
    if WasDownAfter(s.links[l], x.sent) {
      RecordDeliversNothing(t, s, x.packet, s1.Record(PacketLostInTransit(x.packet.id, l)));
    } else {
      ForwardDelivers(t, s1, t.Target(l), x.packet, luck);
      DeliversFrom(t, s, s1, x.packet, Land(t, s, l, x, luck));
    }
  }

  lemma RecordDeliversNothing(t: Topology, s: Net, p: Packet, s': Net)
    requires s'.nodes == s.nodes
    ensures OnlyDelivers(t, s, p, s')
  {
  }

  lemma AirFits(s: Net, l: LinkId, x: InTransit, hops: map<PacketId, nat>, sent: seq<Datagram>)
    requires Fit(s, hops, sent) && l in s.links && x in s.links[l].inTransit
    ensures Within(hops, sent, x.packet, 0)
  {
    hide Within;
  }

  lemma WellDeliveredAfterStep(t: Topology, s: Net, a: Action, hops: map<PacketId, nat>, sent: seq<Datagram>)
    requires Queued(t, s) && Fit(s, hops, sent) && WellDelivered(t, s, sent) && Enabled(t, s, a) && s.nextNumber == |sent|
    ensures WellDelivered(t, Apply(t, s, a), if a.Injecting? then sent + [a.datagram] else sent)
  {
    hide Queued, Fine, Sound, Fit, Inject, Land, WellDelivered, OnlyDelivers, SameInboxes, CanDispatch, Take, Finish, Dispatch, Read,
         LinkChange, NodeChange, WithTask, Topology.Valid, CanWake, MustYield;
    QueuedIsSound(t, s);
    match a
    case Injecting(n, id, d, luck) =>
      InjectDelivers(t, s, n, id, d, luck);
      WellDeliveredAfter(t, s, sent, Packet(id, s.nextNumber, d.payload, d.dest, d.port, d.ttl, false),
                         Apply(t, s, a), sent + [d]);
    case Landing(l, x, luck) =>
      TargetExists(t, s, l);
      LandDelivers(t, s, l, x, luck);
      AirFits(s, l, x, hops, sent);
      WellDeliveredAfter(t, s, sent, x.packet, Apply(t, s, a), sent);
    case _ =>
      OthersKeepInboxes(t, s, a);
      WellDeliveredStays(t, s, sent, Apply(t, s, a));
  }

  // ---- Packets that could not be sent ---------------------------------------------------------

  ghost predicate Refused(log: seq<Step>, n: NodeId, id: PacketId) {
    id in Find(log) && Find(log)[id].at == Gone(WasRefusedAtSource(n))
  }

  /** Only in node `where`, if there is one, have packets been refused since `log`. */
  ghost predicate RefusedOnly(log: seq<Step>, log': seq<Step>, where: Option<NodeId>) {
    forall n, id :: Refused(log', n, id) && where != Some(n) ==> Refused(log, n, id)
  }

  lemma RefusedOnlyTwice(a: seq<Step>, b: seq<Step>, c: seq<Step>, where: Option<NodeId>)
    requires RefusedOnly(a, b, where) && RefusedOnly(b, c, None)
    ensures RefusedOnly(a, c, where)
  {
    hide Refused;
  }

  lemma RefusedAfterRecord(s: Net, kind: StepKind)
    ensures RefusedOnly(s.log, s.Record(kind).log,
                        if kind.PacketInNode? && kind.droppedOnArrival && kind.id !in Find(s.log) then Some(kind.node) else None)
  {
    hide Find;
    FindAppend(s.log, Step(s.now, kind));
  }

  lemma RefusedAfterEnqueue(s: Net, n: NodeId, p: Packet)
    requires n in s.nodes
    ensures RefusedOnly(s.log, Enqueue(s, n, p).log, None)
  {
    hide Refused;
    RefusedAfterRecord(s, PacketDropped(p.id, n, BufferFull));
  }

  lemma RefusedAfterStore(t: Topology, s: Net, n: NodeId, p: Packet, luck: Luck)
    requires n in s.nodes && n in t.nodes
    ensures RefusedOnly(s.log, Store(t, s, n, p, luck).log, None)
  {
    hide RefusedOnly, Enqueue;
    RefusedAfterRecord(s, PacketDropped(p.id, n, Random));
    RefusedAfterEnqueue(s, n, p);
    var s1 := Enqueue(s, n, p);
    var twin := p.(id := luck.freshId, duplicate := true);
    var s2 := s1.(ids := s1.ids + {luck.freshId});
    RefusedAfterRecord(s2, DuplicationRecord(n, twin));
    RefusedAfterEnqueue(s2.Record(DuplicationRecord(n, twin)), n, twin);
    var s3 := Enqueue(s2.Record(DuplicationRecord(n, twin)), n, twin);
    RefusedOnlyTwice(s1.log, s2.Record(DuplicationRecord(n, twin)).log, s3.log, None);
    RefusedOnlyTwice(s.log, s1.log, s3.log, None);
  }

  lemma RefusedAfterForward(t: Topology, s: Net, n: NodeId, p: Packet, luck: Luck)
    requires n in s.nodes && n in t.nodes
    ensures RefusedOnly(s.log, Forward(t, s, n, p, luck).log,
                        if s.nodes[n].status.Down? && p.id !in Find(s.log) then Some(n) else None)
  {
    hide RefusedOnly, Store, Find;
    RefusedAfterRecord(s, ArrivalRecord(n, p, true));
    var s1 := s.Record(ArrivalRecord(n, p, false));
    RefusedAfterRecord(s, ArrivalRecord(n, p, false));
    if s.nodes[n].status.Up? {
      RefusedAfterRecord(s1, PacketDropped(p.id, n, ZeroTtl));
      RefusedOnlyTwice(s.log, s1.log, s1.Record(PacketDropped(p.id, n, ZeroTtl)).log, None);
      RefusedAfterStore(t, s1, n, Hop(p), luck);
      RefusedOnlyTwice(s.log, s1.log, Store(t, s1, n, Hop(p), luck).log, None);
    }
  }

  lemma NothingRefused(log: seq<Step>)
    ensures RefusedOnly(log, log, None)
  {
  }

  lemma RefusedAfterLand(t: Topology, s: Net, l: LinkId, x: InTransit, luck: Luck)
    requires Sound(t, s) && t.Valid() && l in s.links && l in t.links && t.Target(l) in s.nodes && t.Target(l) in t.nodes
    requires x.packet.id in Find(s.log)
    ensures RefusedOnly(s.log, Land(t, s, l, x, luck).log, None)
  {
    hide Sound, Forward, Topology.Valid, RefusedOnly, Find;
    RefusedAfterRecord(TakeOff(s, l, x), PacketLostInTransit(x.packet.id, l));
    RefusedAfterForward(t, TakeOff(s, l, x), t.Target(l), x.packet, luck);
  }

  lemma RefusedAfterInject(t: Topology, s: Net, n: NodeId, id: PacketId, d: Datagram, luck: Luck)
    requires Sound(t, s) && n in s.nodes && n in t.nodes
    ensures RefusedOnly(s.log, Inject(t, s, n, id, d, luck).log, if s.nodes[n].status.Down? then Some(n) else None)
  {
    hide Sound, Forward, RefusedOnly, Find;
    var s1 := s.(nextNumber := s.nextNumber + 1, ids := s.ids + {id});
    var p := Packet(id, s.nextNumber, d.payload, d.dest, d.port, d.ttl, false);
    RefusedAfterForward(t, s1, n, p, luck);
    MoreMayBeRefused(s.log, Forward(t, s1, n, p, luck).log, n);
  }

  lemma MoreMayBeRefused(a: seq<Step>, b: seq<Step>, n: NodeId)
    ensures RefusedOnly(a, b, None) ==> RefusedOnly(a, b, Some(n))
  {
    hide Refused;
  }

  lemma RefusedAfterFinish(t: Topology, s: Net, l: LinkId)
    requires Fine(t, s) && Sound(t, s) && InOffering(s, l)
    ensures RefusedOnly(s.log, Finish(t, s, l).log, None)
  {
    hide Fine, Sound, Topology.Valid, Topology.TransmissionTime, Batch.Add, RefusedOnly;
    BusyFacts(t, s, l);
    var b := s.accepted[s.links[l].task.packet.ticket];
    NothingRefused(s.log);
    RefusedAfterRecord(s, PacketDropped(b.packet.id, b.node, BufferCleared));
    RefusedAfterRecord(s, PacketInTransit(b.packet.id, b.node, l));
  }

  lemma RefusedAfterOthers(t: Topology, s: Net, a: Action)
    requires Enabled(t, s, a) && (Quiet(a) || a.Reading? || a.LinkChanging? || a.NodeChanging?)
    ensures RefusedOnly(s.log, Apply(t, s, a).log, None)
  {
    hide Sound, CanDispatch, Dispatch, Take, WithTask, ChangedLink, ChangedNode, RefusedOnly, Handled;
    NothingRefused(s.log);
    match a
    case Reading(n, x) =>
      RefusedAfterRecord(s, PacketDeliveredToApplication(x.packet.id, x.packet.number, x.packet.Size(), n));
    case LinkChanging(e) => RefusedAfterRecord(s, NetworkEvent(Some(e), None));
    case NodeChanging(e) => RefusedAfterRecord(s, NetworkEvent(None, Some(e)));
    case _ => QuietStepSaysNoMore(t, s, a);
  }

  lemma RefusedAfterStep(t: Topology, s: Net, a: Action)
    requires Queued(t, s) && Logged(t, s) && Enabled(t, s, a)
    ensures RefusedOnly(s.log, Apply(t, s, a).log,
                        if a.Injecting? && a.node in s.nodes && s.nodes[a.node].status.Down? then Some(a.node) else None)
  {
    hide Queued, Fine, Sound, Logged, RefusedOnly, Inject, Land, Take, Finish, Dispatch, Read, LinkChange, NodeChange, WithTask,
         CanDispatch, Topology.Valid, CanWake, MustYield;
    QueuedIsSound(t, s);
    match a
    case Injecting(n, id, d, luck) => RefusedAfterInject(t, s, n, id, d, luck);
    case Landing(l, x, luck) =>
      TargetExists(t, s, l);
      AirIsKnown(t, s, l, x);
      RefusedAfterLand(t, s, l, x, luck);
    case Finishing(l) => RefusedAfterFinish(t, s, l);
    case _ => RefusedAfterOthers(t, s, a);
  }

  lemma AirIsKnown(t: Topology, s: Net, l: LinkId, x: InTransit)
    requires Logged(t, s) && l in s.links && l in t.links && x in s.links[l].inTransit
    ensures x.packet.id in Find(s.log)
  {
    hide NodesLogged, LinksLogged, TicketsLogged, SendsLogged, AirLogged, Find;
    AirIsFound(s.log, l, s.links[l], x, t.links[l].delay);
  }

  // ---- Runs -----------------------------------------------------------------------------------

  lemma {:induction false} DeliveriesAreSent(t: Topology, actions: seq<Action>)
    requires IsRun(t, actions)
    ensures WellDelivered(t, StateAfter(t, actions), Sent(actions))
  {
    hide IsRun, StateAfter, Apply, Enabled, WellDelivered, Fit, Queued;
    LastStep(t, actions);
    if actions == [] {
      NoInboxes(t);
    } else {
      var init, last := actions[..|actions| - 1], actions[|actions| - 1];
      DeliveriesAreSent(t, init);
      HopsFit(t, init);
      RunIsQueued(t, init);
      NumbersInOrder(t, init);
      WellDeliveredAfterStep(t, StateAfter(t, init), last, Hops(t, init), Sent(init));
      assert Sent(init) + [] == Sent(init);
    }
  }

  lemma NoInboxes(t: Topology)
    ensures WellDelivered(t, Initial(t), [])
  {
  }

  lemma {:induction false} SentByAction(actions: seq<Action>, k: nat)
    requires k < |Sent(actions)|
    ensures exists i :: 0 <= i < |actions| && actions[i].Injecting? && actions[i].datagram == Sent(actions)[k]
  {
    var init, last := actions[..|actions| - 1], actions[|actions| - 1];
    if k < |Sent(init)| {
      SentByAction(init, k);
      var i :| 0 <= i < |init| && init[i].Injecting? && init[i].datagram == Sent(init)[k];
      assert actions[i] == init[i];
    } else {
      assert actions[|actions| - 1].datagram == Sent(actions)[k];
    }
  }

  lemma SendsWhileDownLater(t: Topology, actions: seq<Action>, n: NodeId)
    requires actions != [] && SendsWhileDown(t, actions[..|actions| - 1], n)
    ensures SendsWhileDown(t, actions, n)
  {
    hide IsRun, StateAfter;
    var init := actions[..|actions| - 1];
    var i :| 0 <= i < |init| && init[i].Injecting? && init[i].node == n && IsRun(t, init[..i])
             && n in StateAfter(t, init[..i]).nodes && StateAfter(t, init[..i]).nodes[n].status.Down?;
    assert actions[i] == init[i] && actions[..i] == init[..i];
  }

  lemma SendsWhileDownNow(t: Topology, actions: seq<Action>, n: NodeId)
    requires actions != [] && IsRun(t, actions[..|actions| - 1]) && actions[|actions| - 1].Injecting?
    requires actions[|actions| - 1].node == n
    requires var s := StateAfter(t, actions[..|actions| - 1]); n in s.nodes && s.nodes[n].status.Down?
    ensures SendsWhileDown(t, actions, n)
  {
    hide IsRun, StateAfter;
    assert actions[..|actions| - 1] == actions[..|actions| - 1];
  }

  /** A packet that was refused at its source was sent from a node that was down. */
  lemma {:induction false} RefusalsAreSends(t: Topology, actions: seq<Action>, n: NodeId, id: PacketId)
    requires IsRun(t, actions) && Refused(StateAfter(t, actions).log, n, id)
    ensures SendsWhileDown(t, actions, n)
  {
    hide IsRun, StateAfter, Apply, Enabled, Refused, Queued, Logged, SendsWhileDown, ProperLog, Fits;
    LastStep(t, actions);
    if actions == [] {
      NoneRefused(t, n, id);
    } else {
      var init, last := actions[..|actions| - 1], actions[|actions| - 1];
      RunIsQueued(t, init);
      RunsAreTraced(t, init, AllNodes(t));
      RefusedAfterStep(t, StateAfter(t, init), last);
      if Refused(StateAfter(t, init).log, n, id) {
        RefusalsAreSends(t, init, n, id);
        SendsWhileDownLater(t, actions, n);
      } else {
        SendsWhileDownNow(t, actions, n);
      }
    }
  }

  ghost function AllNodes(t: Topology): set<NodeId> {
    t.nodes.Keys
  }

  lemma NoneRefused(t: Topology, n: NodeId, id: PacketId)
    ensures !Refused(Initial(t).log, n, id)
  {
  }

  /**
   In every run: a node serves applications, in that packets wait in it to be read or could not be
   sent from it, only if some application sends a packet to it, or sends from it while it is down.
   */
  lemma {:induction false} OnlyEndpointsServe(t: Topology, actions: seq<Action>, n: NodeId)
    requires IsRun(t, actions) && n in t.nodes && Served(t, actions, n)
    ensures IsDestination(t, actions, n) || SendsWhileDown(t, actions, n)
  {
    hide IsRun, StateAfter, Apply, Enabled, Serves, SendsWhileDown, WellDelivered;
    LastStep(t, actions);
    if Serves(StateAfter(t, actions), n) {
      DeliveriesAreSent(t, actions);
      ServingMeans(t, actions, n);
    } else {
      OnlyEndpointsServe(t, actions[..|actions| - 1], n);
      var init := actions[..|actions| - 1];
      if SendsWhileDown(t, init, n) {
        SendsWhileDownLater(t, actions, n);
      } else {
        var i :| 0 <= i < |init| && init[i].Injecting? && init[i].datagram.dest == t.nodes[n].canonical;
        assert actions[i] == init[i];
      }
    }
  }

  lemma ServingMeans(t: Topology, actions: seq<Action>, n: NodeId)
    requires IsRun(t, actions) && n in t.nodes && Serves(StateAfter(t, actions), n)
    requires WellDelivered(t, StateAfter(t, actions), Sent(actions))
    ensures IsDestination(t, actions, n) || SendsWhileDown(t, actions, n)
  {
    hide IsRun, StateAfter, SendsWhileDown, Find;
    var s := StateAfter(t, actions);
    if n in s.nodes && s.nodes[n].inbox != multiset{} {
      var x :| x in s.nodes[n].inbox;
      SentByAction(actions, x.packet.number);
    } else {
      var id :| id in Find(s.log) && Find(s.log)[id].at == Gone(WasRefusedAtSource(n));
      RefusalsAreSends(t, actions, n, id);
    }
  }
}
