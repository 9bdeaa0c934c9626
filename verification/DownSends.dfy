/** When a node sends packets while it is down: exactly when it goes down with packets that can leave. */
module DownSends {
  import opened Prelude
  import opened Trace
  import opened PacketPacer
  import opened Cidr
  import opened Routing
  import opened ReplayedNode
  import opened Replay
  import opened Network
  import opened PacketLog
  import opened Soundness
  import opened Queues
  import opened Buffers
  import opened Places
  import opened Pacing
  import opened Ledger
  import opened Termination
  import opened AcceptedLogs
  import opened TracedRuns
  import opened Acceptance
  import opened Offers

  predicate TakesDown(a: Action, n: NodeId) {
    a.NodeChanging? && a.nodeEvent.node == n && a.nodeEvent.status == Some(Down)
  }

  /** Whenever an event takes node `n` down, the node holds no packet. */
  ghost predicate GoesDownEmpty(t: Topology, actions: seq<Action>, n: NodeId) {
    forall i :: 0 <= i < |actions| && TakesDown(actions[i], n) && IsRun(t, actions[..i]) ==>
      HeldTickets(StateAfter(t, actions[..i]), n) == {}
  }

  ghost predicate EmptyWhenDown(s: Net, n: NodeId) {
    n in s.nodes && s.nodes[n].status.Down? ==> HeldTickets(s, n) == {}
  }

  // ---- A node that is down takes nothing in ---------------------------------------------------

  /** Nodes keep their status, and node `n` holds no more than it did, unless it is up. */
  ghost predicate TakesNothingDown(s: Net, s': Net, n: NodeId) {
    && s'.nodes.Keys == s.nodes.Keys
    && (forall m :: m in s.nodes ==> s'.nodes[m].status == s.nodes[m].status)
    && (n in s.nodes && s.nodes[n].status.Down? ==> HeldTickets(s', n) <= HeldTickets(s, n))
  }

  lemma TakesNothingTwice(a: Net, b: Net, c: Net, n: NodeId)
    requires TakesNothingDown(a, b, n) && TakesNothingDown(b, c, n)
    ensures TakesNothingDown(a, c, n)
  {
    hide HeldTickets;
  }

  lemma SameTicketsTaken(s: Net, s': Net, n: NodeId)
    requires s'.nodes.Keys == s.nodes.Keys && forall m :: m in s.nodes ==> s'.nodes[m].status == s.nodes[m].status
    requires s'.accepted == s.accepted && s.handled.Keys <= s'.handled.Keys
    ensures TakesNothingDown(s, s', n)
  {
  }

  lemma EnqueueTakesNothingDown(s: Net, m: NodeId, p: Packet, n: NodeId)
    requires m in s.nodes && s.nodes[m].status.Up?
    ensures TakesNothingDown(s, Enqueue(s, m, p), n)
  {
  }

  lemma StoreTakesNothingDown(t: Topology, s: Net, m: NodeId, p: Packet, luck: Luck, n: NodeId)
    requires m in s.nodes && m in t.nodes && s.nodes[m].status.Up?
    ensures TakesNothingDown(s, Store(t, s, m, p, luck), n)
  {
    hide TakesNothingDown, Enqueue;
    SameTicketsTaken(s, s.Record(PacketDropped(p.id, m, Random)), n);
    EnqueueTakesNothingDown(s, m, p, n);
    var s1 := Enqueue(s, m, p);
    assert s1.nodes[m].status.Up? by { StillUp(s, s1, m, n); }
    var twin := p.(id := luck.freshId, duplicate := true);
    var s2 := s1.(ids := s1.ids + {luck.freshId}).Record(DuplicationRecord(m, twin));
    SameTicketsTaken(s1, s2, n);
    EnqueueTakesNothingDown(s2, m, twin, n);
    TakesNothingTwice(s1, s2, Enqueue(s2, m, twin), n);
    TakesNothingTwice(s, s1, Enqueue(s2, m, twin), n);
  }

  lemma StillUp(s: Net, s': Net, m: NodeId, n: NodeId)
    requires TakesNothingDown(s, s', n) && m in s.nodes
    ensures m in s'.nodes && s'.nodes[m].status == s.nodes[m].status
  {
    hide HeldTickets;
  }

  lemma ForwardTakesNothingDown(t: Topology, s: Net, m: NodeId, p: Packet, luck: Luck, n: NodeId)
    requires m in s.nodes && m in t.nodes
    ensures TakesNothingDown(s, Forward(t, s, m, p, luck), n)
  {
    hide TakesNothingDown, Store;
    SameTicketsTaken(s, s.Record(ArrivalRecord(m, p, true)), n);
    if s.nodes[m].status.Up? {
      var s1 := s.Record(ArrivalRecord(m, p, false));
      SameTicketsTaken(s, s1, n);
      SameTicketsTaken(s, Deliver(s1, m, p), n);
      SameTicketsTaken(s, s1.Record(PacketDropped(p.id, m, ZeroTtl)), n);
      StoreTakesNothingDown(t, s1, m, Hop(p), luck, n);
      TakesNothingTwice(s, s1, Store(t, s1, m, Hop(p), luck), n);
    }
  }

  lemma InjectTakesNothingDown(t: Topology, s: Net, m: NodeId, id: PacketId, d: Datagram, luck: Luck, n: NodeId)
    requires Sound(t, s) && m in s.nodes && m in t.nodes
    ensures TakesNothingDown(s, Inject(t, s, m, id, d, luck), n)
  {
    hide Sound, Forward, TakesNothingDown;
    var s1 := s.(nextNumber := s.nextNumber + 1, ids := s.ids + {id});
    var p := Packet(id, s.nextNumber, d.payload, d.dest, d.port, d.ttl, false);
    SameTicketsTaken(s, s1, n);
    ForwardTakesNothingDown(t, s1, m, p, luck, n);
    TakesNothingTwice(s, s1, Forward(t, s1, m, p, luck), n);
  }

  lemma LandTakesNothingDown(t: Topology, s: Net, l: LinkId, x: InTransit, luck: Luck, n: NodeId)
    requires Sound(t, s) && t.Valid() && l in s.links && l in t.links && t.Target(l) in s.nodes && t.Target(l) in t.nodes
    ensures TakesNothingDown(s, Land(t, s, l, x, luck), n)
  {
    hide Sound, Forward, Topology.Valid, TakesNothingDown;
    var s1 := TakeOff(s, l, x);
    SameTicketsTaken(s, s1, n);
    SameTicketsTaken(s, s1.Record(PacketLostInTransit(x.packet.id, l)), n);
    ForwardTakesNothingDown(t, s1, t.Target(l), x.packet, luck, n);
    TakesNothingTwice(s, s1, Forward(t, s1, t.Target(l), x.packet, luck), n);
  }

  lemma FinishTakesNothing(t: Topology, s: Net, l: LinkId, n: NodeId)
    requires Fine(t, s) && Sound(t, s) && InOffering(s, l)
    ensures TakesNothingDown(s, Finish(t, s, l), n)
  {
    hide Fine, Sound, Topology.Valid, Topology.TransmissionTime, Batch.Add, TakesNothingDown;
    BusyFacts(t, s, l);
    SameTicketsTaken(s, Finish(t, s, l), n);
  }

  lemma QuietTakesNothing(t: Topology, s: Net, a: Action, n: NodeId)
    requires Enabled(t, s, a) && (Quiet(a) || a.Reading? || a.LinkChanging?)
    ensures TakesNothingDown(s, Apply(t, s, a), n)
  {
    hide Sound, CanDispatch, Dispatch, Take, WithTask, Handled, ChangedLink, TakesNothingDown;
    if Quiet(a) {
      QuietStepSaysNoMore(t, s, a);
    }
    SameTicketsTaken(s, Apply(t, s, a), n);
  }

  lemma EmptyAfterStep(t: Topology, s: Net, a: Action, n: NodeId)
    requires Queued(t, s) && Enabled(t, s, a) && EmptyWhenDown(s, n)
    requires TakesDown(a, n) ==> HeldTickets(s, n) == {}
    ensures EmptyWhenDown(Apply(t, s, a), n)
  {
    hide Queued, Fine, Sound, TakesNothingDown, Inject, Land, Take, Finish, Dispatch, Read, LinkChange, WithTask,
         CanDispatch, Topology.Valid, CanWake, MustYield, HeldTickets;
    QueuedIsSound(t, s);
    match a
    case Injecting(m, id, d, luck) =>
      InjectTakesNothingDown(t, s, m, id, d, luck, n);
      EmptyStays(s, Apply(t, s, a), n);
    case Landing(l, x, luck) =>
      TargetExists(t, s, l);
      LandTakesNothingDown(t, s, l, x, luck, n);
      EmptyStays(s, Apply(t, s, a), n);
    case Finishing(l) =>
      FinishTakesNothing(t, s, l, n);
      EmptyStays(s, Apply(t, s, a), n);
    case NodeChanging(e) => SameHeld(s, NodeChange(s, e), n);
    case _ =>
      QuietTakesNothing(t, s, a, n);
      EmptyStays(s, Apply(t, s, a), n);
  }

  lemma EmptyStays(s: Net, s': Net, n: NodeId)
    requires EmptyWhenDown(s, n) && TakesNothingDown(s, s', n)
    ensures EmptyWhenDown(s', n)
  {
  }

  lemma SameHeld(s: Net, s': Net, n: NodeId)
    requires s'.accepted == s.accepted && s'.handled == s.handled
    ensures HeldTickets(s', n) == HeldTickets(s, n)
  {
  }

  // ---- Records of departures ------------------------------------------------------------------

  /** The log goes on, without a departure from node `n` while it is down. */
  ghost predicate NoDownSend(log: seq<Step>, log': seq<Step>, n: NodeId) {
    forall id :: SentWhileDown(log', id, n) ==> SentWhileDown(log, id, n)
  }

  lemma NoDownSendTwice(a: seq<Step>, b: seq<Step>, c: seq<Step>, n: NodeId)
    requires NoDownSend(a, b, n) && NoDownSend(b, c, n)
    ensures NoDownSend(a, c, n)
  {
    hide SentWhileDown;
  }

  lemma NoDownSendInRecord(s: Net, kind: StepKind, n: NodeId)
    requires kind.PacketInTransit? && kind.node == n ==> NodeSeen(s.log, n).status.Up?
    ensures NoDownSend(s.log, s.Record(kind).log, n)
  {
    hide NodeSeen;
    var log := s.Record(kind).log;
    forall id | SentWhileDown(log, id, n)
      ensures SentWhileDown(s.log, id, n)
    {
      var i :| 0 <= i < |log| && log[i].kind.PacketInTransit? && log[i].kind.id == id && log[i].kind.node == n
               && NodeSeen(log[..i], n).status.Down?;
      assert log[..|s.log|] == s.log;
      if i < |s.log| {
        assert s.log[i] == log[i] && s.log[..i] == log[..i];
      }
    }
  }

  lemma NoDownSendInEnqueue(s: Net, m: NodeId, p: Packet, n: NodeId)
    requires m in s.nodes
    ensures NoDownSend(s.log, Enqueue(s, m, p).log, n)
  {
    hide SentWhileDown;
    NoDownSendInRecord(s, PacketDropped(p.id, m, BufferFull), n);
  }

  lemma NoDownSendInStore(t: Topology, s: Net, m: NodeId, p: Packet, luck: Luck, n: NodeId)
    requires m in s.nodes && m in t.nodes
    ensures NoDownSend(s.log, Store(t, s, m, p, luck).log, n)
  {
    hide NoDownSend, Enqueue;
    NoDownSendInRecord(s, PacketDropped(p.id, m, Random), n);
    NoDownSendInEnqueue(s, m, p, n);
    var s1 := Enqueue(s, m, p);
    var twin := p.(id := luck.freshId, duplicate := true);
    var s2 := s1.(ids := s1.ids + {luck.freshId});
    var s3 := s2.Record(DuplicationRecord(m, twin));
    NoDownSendInRecord(s2, DuplicationRecord(m, twin), n);
    NoDownSendInEnqueue(s3, m, twin, n);
    NoDownSendTwice(s1.log, s3.log, Enqueue(s3, m, twin).log, n);
    NoDownSendTwice(s.log, s1.log, Enqueue(s3, m, twin).log, n);
  }

  lemma NoDownSendInForward(t: Topology, s: Net, m: NodeId, p: Packet, luck: Luck, n: NodeId)
    requires m in s.nodes && m in t.nodes
    ensures NoDownSend(s.log, Forward(t, s, m, p, luck).log, n)
  {
    hide NoDownSend, Store;
    NoDownSendInRecord(s, ArrivalRecord(m, p, true), n);
    var s1 := s.Record(ArrivalRecord(m, p, false));
    NoDownSendInRecord(s, ArrivalRecord(m, p, false), n);
    NoDownSendInRecord(s1, PacketDropped(p.id, m, ZeroTtl), n);
    NoDownSendTwice(s.log, s1.log, s1.Record(PacketDropped(p.id, m, ZeroTtl)).log, n);
    NoDownSendInStore(t, s1, m, Hop(p), luck, n);
    NoDownSendTwice(s.log, s1.log, Store(t, s1, m, Hop(p), luck).log, n);
  }

  lemma NoDownSendInLand(t: Topology, s: Net, l: LinkId, x: InTransit, luck: Luck, n: NodeId)
    requires Sound(t, s) && t.Valid() && l in s.links && l in t.links && t.Target(l) in s.nodes && t.Target(l) in t.nodes
    ensures NoDownSend(s.log, Land(t, s, l, x, luck).log, n)
  {
    hide Sound, Forward, Topology.Valid, NoDownSend;
    NoDownSendInRecord(TakeOff(s, l, x), PacketLostInTransit(x.packet.id, l), n);
    NoDownSendInForward(t, TakeOff(s, l, x), t.Target(l), x.packet, luck, n);
  }

  lemma NothingIsSent(log: seq<Step>, n: NodeId)
    ensures NoDownSend(log, log, n)
  {
  }

  /** A packet that leaves is held: its node is up, if nodes that are down hold nothing. */
  lemma NoDownSendInFinish(t: Topology, s: Net, l: LinkId, n: NodeId)
    requires Fine(t, s) && Sound(t, s) && Logged(t, s) && InOffering(s, l) && EmptyWhenDown(s, n)
    ensures NoDownSend(s.log, Finish(t, s, l).log, n)
  {
    hide Fine, Sound, Topology.Valid, Topology.TransmissionTime, Batch.Add, NoDownSend, Logged, NodeSeen;
    BusyFacts(t, s, l);
    var k := s.links[l].task.packet.ticket;
    var b := s.accepted[k];
    NothingIsSent(s.log, n);
    NoDownSendInRecord(s, PacketDropped(b.packet.id, b.node, BufferCleared), n);
    if !Handled(s, l) {
      assert k in HeldTickets(s, b.node);
      NodeIsLogged(t, s, b.node);
      NoDownSendInRecord(s, PacketInTransit(b.packet.id, b.node, l), n);
    }
  }

  lemma NoDownSendInOthers(t: Topology, s: Net, a: Action, n: NodeId)
    requires Enabled(t, s, a) && (Quiet(a) || a.Reading? || a.LinkChanging? || a.NodeChanging?)
    ensures NoDownSend(s.log, Apply(t, s, a).log, n)
  {
    hide Sound, CanDispatch, Dispatch, Take, WithTask, ChangedLink, ChangedNode, NoDownSend, Handled;
    NothingIsSent(s.log, n);
    match a
    case Reading(m, x) =>
      NoDownSendInRecord(s, PacketDeliveredToApplication(x.packet.id, x.packet.number, x.packet.Size(), m), n);
    case LinkChanging(e) => NoDownSendInRecord(s, NetworkEvent(Some(e), None), n);
    case NodeChanging(e) => NoDownSendInRecord(s, NetworkEvent(None, Some(e)), n);
    case _ => QuietStepSaysNoMore(t, s, a);
  }

  lemma NoDownSendInStep(t: Topology, s: Net, a: Action, n: NodeId)
    requires Queued(t, s) && Logged(t, s) && Enabled(t, s, a) && EmptyWhenDown(s, n)
    ensures NoDownSend(s.log, Apply(t, s, a).log, n)
  {
    hide Queued, Fine, Sound, Logged, NoDownSend, Inject, Land, Take, Finish, Dispatch, Read, LinkChange, NodeChange, WithTask,
         CanDispatch, Topology.Valid, CanWake, MustYield, EmptyWhenDown;
    QueuedIsSound(t, s);
    match a
    case Injecting(m, id, d, luck) => NoDownSendInInject(t, s, m, id, d, luck, n);
    case Landing(l, x, luck) =>
      TargetExists(t, s, l);
      NoDownSendInLand(t, s, l, x, luck, n);
    case Finishing(l) => NoDownSendInFinish(t, s, l, n);
    case _ => NoDownSendInOthers(t, s, a, n);
  }

  lemma NoDownSendInInject(t: Topology, s: Net, m: NodeId, id: PacketId, d: Datagram, luck: Luck, n: NodeId)
    requires Sound(t, s) && m in s.nodes && m in t.nodes
    ensures NoDownSend(s.log, Inject(t, s, m, id, d, luck).log, n)
  {
    hide Sound, Forward, NoDownSend;
    NoDownSendInForward(t, s.(nextNumber := s.nextNumber + 1, ids := s.ids + {id}), m,
                        Packet(id, s.nextNumber, d.payload, d.dest, d.port, d.ttl, false), luck, n);
  }

  // ---- Nodes that go down empty ---------------------------------------------------------------

  lemma GoesDownEmptyBefore(t: Topology, actions: seq<Action>, n: NodeId)
    requires actions != [] && GoesDownEmpty(t, actions, n)
    ensures GoesDownEmpty(t, actions[..|actions| - 1], n)
    ensures TakesDown(actions[|actions| - 1], n) && IsRun(t, actions[..|actions| - 1]) ==>
              HeldTickets(StateAfter(t, actions[..|actions| - 1]), n) == {}
  {
    hide IsRun, StateAfter, HeldTickets;
    var init := actions[..|actions| - 1];
    forall i | 0 <= i < |init| && TakesDown(init[i], n) && IsRun(t, init[..i])
      ensures HeldTickets(StateAfter(t, init[..i]), n) == {}
    {
      assert actions[i] == init[i] && actions[..i] == init[..i];
    }
    var last := |actions| - 1;
    assert actions[..last] == init;
    if TakesDown(actions[last], n) && IsRun(t, actions[..last]) {
      assert HeldTickets(StateAfter(t, actions[..last]), n) == {};
    }
  }

  lemma {:induction false} EmptyNodesStaySilent(t: Topology, actions: seq<Action>, n: NodeId)
    requires IsRun(t, actions) && GoesDownEmpty(t, actions, n)
    ensures EmptyWhenDown(StateAfter(t, actions), n)
    ensures forall id :: !SentWhileDown(StateAfter(t, actions).log, id, n)
  {
    hide IsRun, StateAfter, Apply, Enabled, EmptyWhenDown, GoesDownEmpty, SentWhileDown, Logged, Queued, ProperLog, Fits;
    LastStep(t, actions);
    if actions == [] {
      SilentAtFirst(t, n);
    } else {
      var init, last := actions[..|actions| - 1], actions[|actions| - 1];
      GoesDownEmptyBefore(t, actions, n);
      EmptyNodesStaySilent(t, init, n);
      RunIsQueued(t, init);
      RunsAreTraced(t, init, Endpoints(t, init));
      EmptyAfterStep(t, StateAfter(t, init), last, n);
      NoDownSendInStep(t, StateAfter(t, init), last, n);
    }
  }

  lemma SilentAtFirst(t: Topology, n: NodeId)
    ensures EmptyWhenDown(Initial(t), n)
    ensures forall id :: !SentWhileDown(Initial(t).log, id, n)
  {
  }

  /**
   For every run: a node that holds no packet whenever an event takes it down is never reported to
   send while it is down.
   */
  lemma NoDownSendIfEmpty(t: Topology, m: Metadata, actions: seq<Action>, n: NodeId, id: PacketId)
    requires IsRun(t, actions) && t.Valid() && Describes(m, t) && GoesDownEmpty(t, actions, n)
    requires m.Valid() && InOrder(StateAfter(t, actions).log)
    ensures Verify(m, StateAfter(t, actions).log).Continues?
    ensures NodeDownPacketSend(n, id) !in Verify(m, StateAfter(t, actions).log).v.errors
  {
    hide Topology.Valid, IsRun, StateAfter, ProperLog, Served, Describes, Replaying, Verify, GoesDownEmpty, SentWhileDown;
    RunsAreAccepted(t, m, actions);
    EmptyNodesStaySilent(t, actions, n);
  }

  // ---- Nodes that go down with a packet that can leave ----------------------------------------

  /** The task of link `l` is not waiting for anything. */
  predicate NotWaiting(s: Net, l: LinkId) {
    l in s.links && (s.links[l].task.Busy? && s.links[l].task.phase.Sleeping? ==> Handled(s, l))
  }

  /** The link could send any packet that node `n` holds at once. */
  ghost predicate RoomForAll(t: Topology, s: Net, n: NodeId, l: LinkId)
    requires t.Valid()
  {
    && l in s.links && l in t.links && s.links[l].batch.created <= s.now
    && forall k :: k in HeldTickets(s, n) ==>
         k < |s.accepted| && s.links[l].batch.CanSend(s.now, t.TransmissionTime(l, SizeOf(s, k)))
  }

  /** Node `n` is down, and its link `l` is up, not waiting, and has room for what the node holds. */
  ghost predicate LinkReady(t: Topology, s: Net, n: NodeId, l: LinkId)
    requires t.Valid()
  {
    && n in s.nodes && s.nodes[n].status.Down?
    && l in s.links && l in t.links && s.links[l].status.Up? && t.Source(l) == n
    && NotWaiting(s, l) && RoomForAll(t, s, n, l)
  }

  /** Node `n` holds packet `k`, which no clear wiped out and which is on offer to link `l`. */
  ghost predicate Poised(t: Topology, s: Net, n: NodeId, k: nat, l: LinkId)
    requires t.Valid()
  {
    LinkReady(t, s, n, l) && k in HeldTickets(s, n) && !ClearedFromBuffer(s, k) && Offered(s.links[l], k)
  }

  /** What brings link `l` on. */
  function NextMove(s: Net, l: LinkId): Action
    requires l in s.links
  {
    match s.links[l].task
    case Idle => Taking(l)
    case Busy(_, Sleeping(_)) => Waking(l)
    case Busy(_, Offering) => if MustYield(s, l) then GivingWay(l) else Finishing(l)
  }

  /** The actions of such a continuation: no time passes, and applications and events take no part in it. */
  predicate IsMove(a: Action) {
    a.Dispatching? || a.Taking? || a.Waking? || a.GivingWay? || a.Finishing?
  }

  lemma NextMoveIsEnabled(t: Topology, s: Net, n: NodeId, k: nat, l: LinkId)
    requires t.Valid() && Sound(t, s) && Poised(t, s, n, k, l)
    ensures Enabled(t, s, NextMove(s, l)) && IsMove(NextMove(s, l))
  {
    hide Sound, Topology.Valid, HeldTickets, CameUp, RoomForAll;
  }

  /** The link sends in its next move. */
  ghost predicate SendsNext(s: Net, l: LinkId)
    requires l in s.links
  {
    NextMove(s, l).Finishing? && Termination.Sends(s, l)
  }

  lemma RoomStaysForAll(t: Topology, s: Net, s': Net, n: NodeId, l: LinkId)
    requires t.Valid() && RoomForAll(t, s, n, l) && l in s'.links && s'.now == s.now && s'.accepted == s.accepted
    requires HeldTickets(s', n) <= HeldTickets(s, n)
    requires s'.links[l].batch == s.links[l].batch || s'.links[l].batch == s.links[l].batch.At(s.now)
    ensures RoomForAll(t, s', n, l)
  {
    hide Topology.Valid, Topology.TransmissionTime, HeldTickets;
  }

  lemma QuickPath(t: Topology, s: Net, l: LinkId)
    requires Sound(t, s) && l in s.links && s.links[l].task.Idle? && s.links[l].queue != []
    ensures var s' := Take(t, s, l);
            && l in s'.links && s'.links[l].batch == s.links[l].batch.At(s.now) && s'.links[l].status == s.links[l].status
            && s'.links[l].task.Busy? && s'.links[l].task.packet == s.links[l].queue[0]
            && s'.nodes == s.nodes && s'.accepted == s.accepted && s'.handled == s.handled && s'.now == s.now
    ensures s.links[l].batch.created <= s.now && l in t.links && s.links[l].queue[0].ticket < |s.accepted|
    ensures s.links[l].status.Up?
            && s.links[l].batch.CanSend(s.now, t.TransmissionTime(l, SizeOf(s, s.links[l].queue[0].ticket)))
            ==> Take(t, s, l).links[l].task.phase.Offering?
  {
    hide Topology.Valid, Topology.TransmissionTime, NodeSound, Batch.At, Batch.Wait, Batch.CanSend;
  }

  /** What is in a link's queue and was not handled is held by its source. */
  lemma QueueIsHeld(t: Topology, s: Net, l: LinkId)
    requires Queued(t, s) && Sound(t, s) && t.Valid() && l in s.links && s.links[l].queue != []
    ensures l in t.links && s.links[l].queue[0].ticket < |s.accepted|
    ensures s.links[l].queue[0].ticket in s.handled || s.links[l].queue[0].ticket in HeldTickets(s, t.Source(l))
  {
    hide Topology.Valid, Timely, NodeSound, BuffersOrdered, AllWon, Line, HeldTickets;
    LineHasQueue(s.carried[l], s.links[l]);
    assert LineOrdered(s.accepted, Line(s.carried[l], s.links[l]), s.nodes[t.Source(l)].outbound, t.Source(l));
    assert LinkSound(s.links[l], |s.accepted|, s.now);
    if s.links[l].queue[0].ticket !in s.handled {
      HeldMeans(s, s.links[l].queue[0].ticket, t.Source(l));
    }
  }

  lemma LineHasQueue(carried: seq<Carried>, link: LinkState)
    requires link.queue != []
    ensures exists i :: 0 <= i < |Line(carried, link)| && Line(carried, link)[i] == link.queue[0].ticket
  {
    var i := |carried| + if link.task.Busy? then 1 else 0;
    assert Line(carried, link)[i] == link.queue[0].ticket;
  }

  lemma HeldMeans(s: Net, k: nat, n: NodeId)
    requires k < |s.accepted| && s.accepted[k].node == n && k !in s.handled
    ensures k in HeldTickets(s, n)
  {
  }

  lemma PoisedAfterTake(t: Topology, s: Net, n: NodeId, k: nat, l: LinkId)
    requires Queued(t, s) && t.Valid() && Sound(t, s) && Poised(t, s, n, k, l)
    requires s.links[l].task.Idle? && s.links[l].queue != []
    ensures Poised(t, Take(t, s, l), n, k, l)
  {
    hide Queued, Sound, Topology.Valid, Topology.TransmissionTime, Take, Batch.At, Batch.CanSend, Offered;
    QuickPath(t, s, l);
    QueueIsHeld(t, s, l);
    TakeKeepsOffer(t, s, l, k);
    assert HeldTickets(Take(t, s, l), n) == HeldTickets(s, n);
    RoomStaysForAll(t, s, Take(t, s, l), n, l);
  }

  lemma TakeKeepsOffer(t: Topology, s: Net, l: LinkId, k: nat)
    requires Sound(t, s) && l in s.links && s.links[l].task.Idle? && s.links[l].queue != [] && Offered(s.links[l], k)
    ensures l in Take(t, s, l).links && Offered(Take(t, s, l).links[l], k)
  {
    hide Topology.Valid, Topology.TransmissionTime, NodeSound, Batch.At, Batch.Wait, Batch.CanSend, Offered;
    TakingKeepsOffers(s.links[l], Take(t, s, l).links[l], k);
  }

  lemma PoisedAfterTaskChange(t: Topology, s: Net, n: NodeId, k: nat, l: LinkId, task: LinkTask)
    requires t.Valid() && Poised(t, s, n, k, l) && s.links[l].task.Busy? && task.Busy? && task.phase.Offering?
    requires task.packet.ticket == s.links[l].task.packet.ticket
    ensures Poised(t, WithTask(s, l, task), n, k, l)
  {
    hide Topology.Valid, RoomForAll;
    assert HeldTickets(WithTask(s, l, task), n) == HeldTickets(s, n);
    RoomStaysForAll(t, s, WithTask(s, l, task), n, l);
    if i :| 0 <= i < |s.links[l].queue| && s.links[l].queue[i].ticket == k {
      assert WithTask(s, l, task).links[l].queue[i].ticket == k;
    }
  }

  /** The link is done with another packet, which it does not send. */
  lemma PoisedAfterFinish(t: Topology, s: Net, n: NodeId, k: nat, l: LinkId)
    requires t.Valid() && Fine(t, s) && Sound(t, s) && Poised(t, s, n, k, l) && InOffering(s, l) && !Termination.Sends(s, l)
    ensures Poised(t, Finish(t, s, l), n, k, l)
  {
    hide Topology.Valid, Fine, Sound, Transmit, RoomForAll;
    BusyFacts(t, s, l);
    var ticket, s' := s.links[l].task.packet.ticket, Finish(t, s, l);
    assert ticket != k;
    var i :| 0 <= i < |s.links[l].queue| && s.links[l].queue[i].ticket == k;
    assert s'.links[l].queue[i].ticket == k;
    assert k in HeldTickets(s', n);
    RoomStaysForAll(t, s, s', n, l);
  }

  lemma PoisedAfterMove(t: Topology, s: Net, n: NodeId, k: nat, l: LinkId)
    requires Queued(t, s) && t.Valid() && Poised(t, s, n, k, l) && Enabled(t, s, NextMove(s, l)) && !SendsNext(s, l)
    ensures Poised(t, Apply(t, s, NextMove(s, l)), n, k, l)
  {
    hide Queued, Fine, Sound, Topology.Valid, Poised, Take, Finish, WithTask, Termination.Sends, CameUp;
    QueuedIsSound(t, s);
    PoisedLink(t, s, n, k, l);
    match s.links[l].task
    case Idle => PoisedAfterTake(t, s, n, k, l);
    case Busy(copy, Sleeping(until)) => PoisedAfterTaskChange(t, s, n, k, l, Busy(copy, Offering));
    case Busy(copy, Offering) =>
      if MustYield(s, l) {
        PoisedAfterTaskChange(t, s, n, k, l, Busy(copy.(preferred := copy.preferred[1..]), Offering));
      } else {
        PoisedAfterFinish(t, s, n, k, l);
      }
  }

  /** A packet that leaves a node that is down is recorded to do so. */
  lemma SendingIsRecorded(t: Topology, s: Net, n: NodeId, k: nat, l: LinkId)
    requires Queued(t, s) && t.Valid() && Logged(t, s) && Poised(t, s, n, k, l) && InOffering(s, l) && Termination.Sends(s, l)
    requires Sound(t, s)
    ensures var id := s.accepted[s.links[l].task.packet.ticket].packet.id; SentWhileDown(Finish(t, s, l).log, id, n)
  {
    hide Queued, Fine, Sound, Topology.Valid, Logged, HeldTickets, Offered, NodeSeen, Batch.Add, Topology.TransmissionTime,
         SentWhileDown, RoomForAll;
    QueuedIsSound(t, s);
    BusyFacts(t, s, l);
    TicketIsOfSource(t, s, l);
    NodeIsLogged(t, s, n);
    var b := s.accepted[s.links[l].task.packet.ticket];
    SentWhileDownNow(s.log, Step(s.now, PacketInTransit(b.packet.id, b.node, l)));
  }

  /** A run goes on until the link sends something, from a node that is down. */
  lemma {:induction false} DriveOn(t: Topology, actions: seq<Action>, n: NodeId, k: nat, l: LinkId)
    returns (more: seq<Action>, id: PacketId)
    requires IsRun(t, actions) && t.Valid() && Poised(t, StateAfter(t, actions), n, k, l)
    ensures IsRun(t, actions + more) && forall i :: 0 <= i < |more| ==> IsMove(more[i])
    ensures SentWhileDown(StateAfter(t, actions + more).log, id, n)
    decreases Measure(t).Total(StateAfter(t, actions))
  {
    hide IsRun, StateAfter, Apply, Enabled, Poised, SentWhileDown, Queued, Sound, Logged, Topology.Valid, Weights.Total, NextMove,
         Termination.Sends, ProperLog, Fits;
    var s := StateAfter(t, actions);
    assert l in s.links by { PoisedLink(t, s, n, k, l); }
    var a := NextMove(s, l);
    RunIsQueued(t, actions);
    QueuedIsSound(t, s);
    NextMoveIsEnabled(t, s, n, k, l);
    RunGrows(t, actions, a);
    if SendsNext(s, l) {
      RunsAreTraced(t, actions, Endpoints(t, actions));
      FinishingSends(t, s, n, k, l);
      more, id := [a], s.accepted[s.links[l].task.packet.ticket].packet.id;
    } else {
      PoisedAfterMove(t, s, n, k, l);
      PacketStepsDecrease(t, s, a);
      var rest;
      rest, id := DriveOn(t, actions + [a], n, k, l);
      more := [a] + rest;
      assert actions + [a] + rest == actions + more;
    }
  }

  lemma PoisedLink(t: Topology, s: Net, n: NodeId, k: nat, l: LinkId)
    requires t.Valid() && Poised(t, s, n, k, l)
    ensures l in s.links
  {
    hide Topology.Valid, HeldTickets, Offered, RoomForAll;
  }

  lemma FinishingSends(t: Topology, s: Net, n: NodeId, k: nat, l: LinkId)
    requires Queued(t, s) && t.Valid() && Logged(t, s) && Poised(t, s, n, k, l) && l in s.links && SendsNext(s, l)
    requires Enabled(t, s, NextMove(s, l))
    ensures InOffering(s, l) && s.links[l].task.packet.ticket < |s.accepted|
    ensures SentWhileDown(Apply(t, s, NextMove(s, l)).log, s.accepted[s.links[l].task.packet.ticket].packet.id, n)
  {
    hide Queued, Logged, Topology.Valid, Poised, SentWhileDown, Sound, Finish, CameUp;
    QueuedIsSound(t, s);
    SendingIsRecorded(t, s, n, k, l);
  }

  // ---- Packets still in the node's channel ----------------------------------------------------

  /** Node `n` holds packet `k`, which no clear wiped out and which may leave over link `l`, which is ready. */
  ghost predicate HoldsFor(t: Topology, s: Net, n: NodeId, k: nat, l: LinkId)
    requires t.Valid()
  {
    && LinkReady(t, s, n, l) && n in t.nodes
    && k in HeldTickets(s, n) && !ClearedFromBuffer(s, k)
    && (var c := t.Candidates(n, s.accepted[k].packet.dest); c.Ok? && l in c.value)
  }

  /** All the packets in the channel of node `n` have a route, with its links. */
  ghost predicate AllRoutable(t: Topology, s: Net, n: NodeId)
    requires t.Valid()
  {
    n in s.nodes && n in t.nodes
    && forall i :: 0 <= i < |s.nodes[n].outbound| && s.nodes[n].outbound[i] < |s.accepted| ==>
         var c := t.Candidates(n, s.accepted[s.nodes[n].outbound[i]].packet.dest); c.Ok? && c.value != []
  }

  function Rolls(count: nat): (rolls: seq<real>)
    ensures |rolls| == count
  {
    seq(count, i => 1.0)
  }

  ghost function FirstRolls(t: Topology, s: Net, n: NodeId): seq<real>
    requires t.Valid() && AllRoutable(t, s, n) && s.nodes[n].outbound != [] && s.nodes[n].outbound[0] < |s.accepted|
  {
    Rolls(|t.Candidates(n, s.accepted[s.nodes[n].outbound[0]].packet.dest).value|)
  }

  lemma FirstExists(t: Topology, s: Net, n: NodeId)
    requires Sound(t, s) && n in s.nodes && s.nodes[n].outbound != []
    ensures s.nodes[n].outbound[0] < |s.accepted|
  {
    hide Topology.Valid, LinkSound;
  }

  lemma MayDispatch(t: Topology, s: Net, n: NodeId)
    requires Sound(t, s) && t.Valid() && AllRoutable(t, s, n) && s.nodes[n].outbound != []
    requires s.nodes[n].outbound[0] < |s.accepted|
    ensures Enabled(t, s, Dispatching(n, FirstRolls(t, s, n)))
    ensures Apply(t, s, Dispatching(n, FirstRolls(t, s, n))) == Dispatch(t, s, n, FirstRolls(t, s, n))
  {
    hide Sound, Topology.Valid;
  }

  lemma HoldsAfterDispatching(t: Topology, s: Net, n: NodeId, rolls: seq<real>, k: nat, l: LinkId)
    requires t.Valid() && CanDispatch(t, s, n, rolls) && HoldsFor(t, s, n, k, l) && AllRoutable(t, s, n)
    ensures var s' := Dispatch(t, s, n, rolls);
            && HoldsFor(t, s', n, k, l) && AllRoutable(t, s', n)
            && s'.nodes[n].outbound == s.nodes[n].outbound[1..]
  {
    hide Topology.Valid, LinkSound, Offer, RoomForAll;
    var s' := Dispatch(t, s, n, rolls);
    assert HeldTickets(s', n) == HeldTickets(s, n);
    var ticket := s.nodes[n].outbound[0];
    var candidates := t.Candidates(n, s.accepted[ticket].packet.dest).value;
    OfferOnlyQueues(t, s.links, ticket, candidates, 0, rolls, l);
    RoomStaysForAll(t, s, s', n, l);
  }

  lemma OfferedIsPoised(t: Topology, s: Net, n: NodeId, k: nat, l: LinkId)
    requires t.Valid() && HoldsFor(t, s, n, k, l) && OnOffer(t, s) && k !in s.nodes[n].outbound
    ensures Poised(t, s, n, k, l)
  {
    hide Topology.Valid, Offered;
    var c := t.Candidates(n, s.accepted[k].packet.dest);
    var i :| 0 <= i < |c.value| && c.value[i] == l;
  }

  lemma {:induction false} DrainChannel(t: Topology, actions: seq<Action>, n: NodeId, k: nat, l: LinkId)
    returns (more: seq<Action>, id: PacketId)
    requires IsRun(t, actions) && t.Valid()
    requires HoldsFor(t, StateAfter(t, actions), n, k, l) && AllRoutable(t, StateAfter(t, actions), n)
    ensures IsRun(t, actions + more) && forall i :: 0 <= i < |more| ==> IsMove(more[i])
    ensures SentWhileDown(StateAfter(t, actions + more).log, id, n)
    decreases |StateAfter(t, actions).nodes[n].outbound|
  {
    hide IsRun, StateAfter, Apply, Enabled, HeldTickets, SentWhileDown, Queued, Sound, Topology.Valid, OnOffer, Poised, AllRoutable,
         CanDispatch, Dispatch;
    var s := StateAfter(t, actions);
    RunIsQueued(t, actions);
    QueuedIsSound(t, s);
    if k !in s.nodes[n].outbound {
      HeldPacketsAreOffered(t, actions);
      OfferedIsPoised(t, s, n, k, l);
      more, id := DriveOn(t, actions, n, k, l);
    } else {
      FirstExists(t, s, n);
      var a := Dispatching(n, FirstRolls(t, s, n));
      MayDispatch(t, s, n);
      RunGrows(t, actions, a);
      assert CanDispatch(t, s, n, FirstRolls(t, s, n)) by { DispatchIsPossible(t, s, n, FirstRolls(t, s, n)); }
      HoldsAfterDispatching(t, s, n, FirstRolls(t, s, n), k, l);
      var rest;
      rest, id := DrainChannel(t, actions + [a], n, k, l);
      more := [a] + rest;
      assert actions + [a] + rest == actions + more;
    }
  }

  lemma DispatchIsPossible(t: Topology, s: Net, n: NodeId, rolls: seq<real>)
    requires Enabled(t, s, Dispatching(n, rolls))
    ensures CanDispatch(t, s, n, rolls)
  {
    hide CanDispatch;
  }

  lemma DownSendIsReported(t: Topology, m: Metadata, actions: seq<Action>, n: NodeId, id: PacketId)
    requires IsRun(t, actions) && t.Valid() && Describes(m, t) && SentWhileDown(StateAfter(t, actions).log, id, n)
    requires m.Valid() && InOrder(StateAfter(t, actions).log)
    ensures Verify(m, StateAfter(t, actions).log).Continues?
    ensures NodeDownPacketSend(n, id) in Verify(m, StateAfter(t, actions).log).v.errors
  {
    hide IsRun, StateAfter, Topology.Valid, Describes, Verify, NodeSeen, SendsOn, Find, Metadata.Valid;
    var log := StateAfter(t, actions).log;
    var i :| 0 <= i < |log| && log[i].kind.PacketInTransit? && log[i].kind.id == id && log[i].kind.node == n
             && NodeSeen(log[..i], n).status.Down?;
    var e := NodeDownPacketSend(n, id);
    assert ReportsOf(t, log[..i], log[i])[0] == e;
    assert e in ReportsOf(t, log[..i], log[i]);
    ReportsAreExact(t, m, actions, e);
  }

  /**
   For every run that has come to a state in which a node is down, holds a packet that no clear wiped
   out, and has a link that could send at once, is not waiting, and leads on: at the same moment,
   without any application or event taking part, the run can go on so that the verifier reports the
   node to send while it is down. (A link that waits for bandwidth waits for the node, too.)
   */
  lemma HeldPacketsLeave(t: Topology, m: Metadata, actions: seq<Action>, n: NodeId, k: nat, l: LinkId)
    returns (more: seq<Action>, id: PacketId)
    requires IsRun(t, actions) && t.Valid() && Describes(m, t)
    requires HoldsFor(t, StateAfter(t, actions), n, k, l) && AllRoutable(t, StateAfter(t, actions), n)
    ensures IsRun(t, actions + more) && forall i :: 0 <= i < |more| ==> IsMove(more[i])
    ensures m.Valid() && InOrder(StateAfter(t, actions + more).log)
    ensures Verify(m, StateAfter(t, actions + more).log).Continues?
    ensures NodeDownPacketSend(n, id) in Verify(m, StateAfter(t, actions + more).log).v.errors
  {
    hide IsRun, StateAfter, Topology.Valid, Describes, Verify, HoldsFor, AllRoutable, SentWhileDown;
    more, id := DrainChannel(t, actions, n, k, l);
    DescribesValidly(t, m);
    RunLogIsInOrder(t, actions + more);
    DownSendIsReported(t, m, actions + more, n, id);
  }
}
