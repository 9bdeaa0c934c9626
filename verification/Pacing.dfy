/** The pacers of a running network: their assertions hold and what they let through is bounded. */
module Pacing {
  import opened Prelude
  import opened Trace
  import opened PacketPacer
  import opened ReplayedLink
  import opened Routing
  import opened Network
  import opened Soundness
  import opened Queues

  function TicketSize(accepted: seq<Buffered>, ticket: nat): nat {
    if ticket < |accepted| then accepted[ticket].packet.Size() else 0
  }

  /** What a link has carried, as times and sizes. */
  function Sends(accepted: seq<Buffered>, carried: seq<Carried>): (h: seq<Sent>)
    ensures |h| == |carried|
    ensures forall i :: 0 <= i < |h| ==> h[i] == Sent(carried[i].at, TicketSize(accepted, carried[i].ticket))
  {
    if carried == [] then []
    else
      var last := carried[|carried| - 1];
      Sends(accepted, carried[..|carried| - 1]) + [Sent(last.at, TicketSize(accepted, last.ticket))]
  }

  lemma SendsGrow(accepted: seq<Buffered>, more: seq<Buffered>, carried: seq<Carried>)
    requires forall i :: 0 <= i < |carried| ==> carried[i].ticket < |accepted|
    requires |accepted| <= |more| && more[..|accepted|] == accepted
    ensures Sends(more, carried) == Sends(accepted, carried)
  {
    forall i | 0 <= i < |carried|
      ensures Sends(more, carried)[i] == Sends(accepted, carried)[i]
    {
      assert more[carried[i].ticket] == more[..|accepted|][carried[i].ticket];
    }
  }

  lemma SendsAppend(accepted: seq<Buffered>, carried: seq<Carried>, c: Carried)
    ensures Sends(accepted, carried + [c])
         == Sends(accepted, carried) + [Sent(c.at, TicketSize(accepted, c.ticket))]
  {
    assert (carried + [c])[..|carried|] == carried;
  }

  lemma TransmissionsAppend(h: seq<Sent>, x: Sent, bandwidth: nat)
    requires bandwidth > 0
    ensures Transmissions(h + [x], bandwidth)
         == Transmissions(h, bandwidth) + [Sending(x.at, PacketDelay(bandwidth, x.size))]
  {
    assert (h + [x])[..|h|] == h;
  }

  /** From `from` on the batch has room for a packet of this transmission time, as long as nothing is sent. */
  ghost predicate RoomFrom(b: Batch, from: Duration, packetDelay: Duration) {
    forall later: Duration :: from <= later && b.created <= later ==> b.CanSend(later, packetDelay)
  }

  /** When the link's task may send its packet without the pacer's assertion failing. */
  ghost predicate TaskReady(batch: Batch, task: LinkTask, now: Duration, packetDelay: Duration) {
    match task
    case Idle => true
    case Busy(_, Sleeping(until)) => RoomFrom(batch, until, packetDelay)
    case Busy(_, Offering) => RoomFrom(batch, now, packetDelay)
  }

  ghost predicate PacedLink(batch: Batch, now: Duration, h: seq<Sent>, bandwidth: nat)
    requires bandwidth > 0
  {
    && batch.created <= now
    && Paced(batch, Transmissions(h, bandwidth))
    && SentBy(Transmissions(h, bandwidth), now)
  }

  function TaskDelay(t: Topology, s: Net, l: LinkId): Duration
    requires t.Valid() && l in t.links && l in s.links
  {
    match s.links[l].task
    case Idle => 0.0
    case Busy(copy, _) => t.TransmissionTime(l, TicketSize(s.accepted, copy.ticket))
  }

  ghost predicate LinkPacing(t: Topology, s: Net, l: LinkId)
    requires t.Valid() && l in t.links && l in s.links && l in s.carried
  {
    && PacedLink(s.links[l].batch, s.now, Sends(s.accepted, s.carried[l]), t.links[l].bandwidth)
    && (s.links[l].task.Busy? && !Handled(s, l) ==>
          TaskReady(s.links[l].batch, s.links[l].task, s.now, TaskDelay(t, s, l)))
  }

  ghost predicate InPace(t: Topology, s: Net)
    requires Sound(t, s)
  {
    forall l :: l in s.links ==> LinkPacing(t, s, l)
  }

  // ---- Steps of one link ----------------------------------------------------------------------

  lemma RoomAfterTake(b: Batch, now: Duration, packetDelay: Duration)
    requires b.created <= now
    ensures RoomFrom(b.At(now), now + b.Wait(now, packetDelay), packetDelay)
    ensures b.CanSend(now, packetDelay) ==> RoomFrom(b.At(now), now, packetDelay)
  {
  }

  lemma PacedLinkAfterTake(b: Batch, now: Duration, h: seq<Sent>, bandwidth: nat)
    requires bandwidth > 0 && PacedLink(b, now, h, bandwidth)
    ensures PacedLink(b.At(now), now, h, bandwidth)
  {
    hide Paced;
    PacedAfterCheck(b, Transmissions(h, bandwidth), now);
  }

  lemma PacedLinkAfterSend(b: Batch, now: Duration, h: seq<Sent>, bandwidth: nat, size: nat)
    requires bandwidth > 0 && PacedLink(b, now, h, bandwidth) && b.CanSend(now, PacketDelay(bandwidth, size))
    ensures PacedLink(b.Add(now, PacketDelay(bandwidth, size)), now, h + [Sent(now, size)], bandwidth)
  {
    hide Paced, SentBy, PacketDelay;
    PacedAfterSend(b, Transmissions(h, bandwidth), now, PacketDelay(bandwidth, size));
    TransmissionsAppend(h, Sent(now, size), bandwidth);
  }

  lemma PacedLinkLater(b: Batch, now: Duration, later: Duration, h: seq<Sent>, bandwidth: nat)
    requires bandwidth > 0 && PacedLink(b, now, h, bandwidth) && now <= later
    ensures PacedLink(b, later, h, bandwidth)
  {
    hide Paced;
  }

  lemma ReadyLater(b: Batch, task: LinkTask, now: Duration, later: Duration, packetDelay: Duration)
    requires TaskReady(b, task, now, packetDelay) && now <= later
    ensures TaskReady(b, task, later, packetDelay)
  {
  }

  // ---- Whole states ---------------------------------------------------------------------------

  /** What pacing depends on is the same, but for tickets that are newly accepted or handled. */
  ghost predicate SamePace(s: Net, s': Net) {
    && s'.now == s.now && s'.carried == s.carried && s'.links.Keys == s.links.Keys
    && |s.accepted| <= |s'.accepted| && s'.accepted[..|s.accepted|] == s.accepted
    && s.handled.Keys <= s'.handled.Keys
    && forall l :: l in s.links ==> s'.links[l].batch == s.links[l].batch && s'.links[l].task == s.links[l].task
  }

  ghost predicate TicketsOf(s: Net, l: LinkId) {
    && l in s.links && l in s.carried
    && (s.links[l].task.Busy? ==> s.links[l].task.packet.ticket < |s.accepted|)
    && forall i :: 0 <= i < |s.carried[l]| ==> s.carried[l][i].ticket < |s.accepted|
  }

  lemma TicketsAreSound(t: Topology, s: Net, l: LinkId)
    requires Queued(t, s) && l in s.links
    ensures Sound(t, s) && t.Valid() && l in t.links && TicketsOf(s, l)
  {
    hide Topology.Valid, Timely, LinesOrdered, BuffersOrdered, NodeSound;
    assert LinkSound(s.links[l], |s.accepted|, s.now);
    assert Won(s, l);
  }

  lemma LinkPacingWithSamePace(t: Topology, s: Net, s': Net, l: LinkId)
    requires t.Valid() && l in t.links && TicketsOf(s, l) && LinkPacing(t, s, l)
    requires SamePace(s, s')
    ensures LinkPacing(t, s', l)
  {
    hide PacedLink, TaskReady, Topology.Valid, Topology.TransmissionTime;
    SendsGrow(s.accepted, s'.accepted, s.carried[l]);
    if s.links[l].task.Busy? {
      var k := s.links[l].task.packet.ticket;
      assert s'.accepted[k] == s'.accepted[..|s.accepted|][k];
    }
  }

  lemma InPaceWithSamePace(t: Topology, s: Net, s': Net)
    requires Queued(t, s) && Sound(t, s) && InPace(t, s) && Sound(t, s') && SamePace(s, s')
    ensures InPace(t, s')
  {
    hide LinkPacing, SamePace, Topology.Valid, Queued, NodeSound, LinkSound;
    forall l | l in s'.links
      ensures LinkPacing(t, s', l)
    {
      assert l in s.links;
      TicketsAreSound(t, s, l);
      LinkPacingWithSamePace(t, s, s', l);
    }
  }

  lemma InPaceWithLink(t: Topology, s: Net, l: LinkId, s': Net)
    requires Queued(t, s) && Sound(t, s) && InPace(t, s) && Sound(t, s') && l in s.links
    requires s'.now == s.now && s'.accepted == s.accepted && s.handled.Keys <= s'.handled.Keys
    requires forall m :: m in s.links && m != l ==> s'.links[m] == s.links[m] && s'.carried[m] == s.carried[m]
    requires LinkPacing(t, s', l)
    ensures InPace(t, s')
  {
    hide LinkPacing, Topology.Valid, Queued, NodeSound, LinkSound;
    forall m | m in s'.links && m != l
      ensures LinkPacing(t, s', m)
    {
      TicketsAreSound(t, s, m);
      LinkPacingOfOther(t, s, s', m);
    }
  }

  lemma LinkPacingOfOther(t: Topology, s: Net, s': Net, m: LinkId)
    requires t.Valid() && m in t.links && m in s.links && m in s'.links && m in s.carried && m in s'.carried
    requires s'.now == s.now && s'.accepted == s.accepted && s.handled.Keys <= s'.handled.Keys
    requires s'.links[m] == s.links[m] && s'.carried[m] == s.carried[m] && LinkPacing(t, s, m)
    ensures LinkPacing(t, s', m)
  {
    hide PacedLink, TaskReady, Topology.Valid, Topology.TransmissionTime;
  }

  // ---- Steps that leave the pacers alone ------------------------------------------------------

  lemma SamePaceTwice(a: Net, b: Net, c: Net)
    requires SamePace(a, b) && SamePace(b, c)
    ensures SamePace(a, c)
  {
    assert c.accepted[..|a.accepted|] == c.accepted[..|b.accepted|][..|a.accepted|];
  }

  lemma EnqueueKeepsPace(s: Net, n: NodeId, p: Packet)
    requires n in s.nodes
    ensures SamePace(s, Enqueue(s, n, p))
  {
  }

  lemma RecordKeepsPace(s: Net, kind: StepKind)
    ensures SamePace(s, s.Record(kind))
  {
  }

  lemma StoreKeepsPace(t: Topology, s: Net, n: NodeId, p: Packet, luck: Luck)
    requires n in s.nodes && n in t.nodes
    ensures SamePace(s, Store(t, s, n, p, luck))
  {
    RecordKeepsPace(s, PacketDropped(p.id, n, Random));
    EnqueueKeepsPace(s, n, p);
    var s1 := Enqueue(s, n, p);
    var twin := p.(id := luck.freshId, duplicate := true);
    var s2 := s1.(ids := s1.ids + {luck.freshId}).Record(DuplicationRecord(n, twin));
    assert SamePace(s1, s2);
    EnqueueKeepsPace(s2, n, twin);
    SamePaceTwice(s1, s2, Enqueue(s2, n, twin));
    SamePaceTwice(s, s1, Enqueue(s2, n, twin));
  }

  lemma ForwardKeepsPace(t: Topology, s: Net, n: NodeId, p: Packet, luck: Luck)
    requires n in s.nodes && n in t.nodes
    ensures SamePace(s, Forward(t, s, n, p, luck))
  {
    RecordKeepsPace(s, ArrivalRecord(n, p, true));
    RecordKeepsPace(s, ArrivalRecord(n, p, false));
    var s1 := s.Record(ArrivalRecord(n, p, false));
    assert SamePace(s, Deliver(s1, n, p));
    assert SamePace(s, s1.Record(PacketDropped(p.id, n, ZeroTtl)));
    hide SamePace, Store, Deliver;
    StoreKeepsPace(t, s1, n, Hop(p), luck);
    SamePaceTwice(s, s1, Store(t, s1, n, Hop(p), luck));
  }

  lemma InjectKeepsPace(t: Topology, s: Net, n: NodeId, id: PacketId, d: Datagram, luck: Luck)
    requires Sound(t, s) && n in s.nodes && n in t.nodes
    ensures SamePace(s, Inject(t, s, n, id, d, luck))
  {
    hide Sound, Forward;
    var s1 := s.(nextNumber := s.nextNumber + 1, ids := s.ids + {id});
    var p := Packet(id, s.nextNumber, d.payload, d.dest, d.port, d.ttl, false);
    ForwardKeepsPace(t, s1, n, p, luck);
    SamePaceTwice(s, s1, Forward(t, s1, n, p, luck));
  }

  lemma LandKeepsPace(t: Topology, s: Net, l: LinkId, x: InTransit, luck: Luck)
    requires Sound(t, s) && l in s.links
    ensures SamePace(s, Land(t, s, l, x, luck))
  {
    hide Topology.Valid, NodeSound, LinkSound, Forward;
    var s1 := TakeOff(s, l, x);
    ForwardKeepsPace(t, s1, t.Target(l), x.packet, luck);
    SamePaceTwice(s, s1, Forward(t, s1, t.Target(l), x.packet, luck));
  }

  lemma DispatchKeepsPace(t: Topology, s: Net, n: NodeId, rolls: seq<real>)
    requires CanDispatch(t, s, n, rolls)
    ensures SamePace(s, Dispatch(t, s, n, rolls))
  {
    hide Topology.Valid, LinkSound, Offer;
    var ticket := s.nodes[n].outbound[0];
    var candidates := t.Candidates(n, s.accepted[ticket].packet.dest).value;
    forall l | l in s.links
      ensures var link := Offer(t, s.links, ticket, candidates, 0, rolls)[l];
              link.task == s.links[l].task && link.batch == s.links[l].batch
    {
      OfferOnlyQueues(t, s.links, ticket, candidates, 0, rolls, l);
    }
  }

  lemma LinkChangeKeepsPace(s: Net, e: LinkEvent)
    ensures SamePace(s, LinkChange(s, e))
  {
    hide ChangedLink;
  }

  lemma NodeChangeKeepsPace(s: Net, e: NodeEvent)
    ensures SamePace(s, NodeChange(s, e))
  {
  }

  lemma ReadKeepsPace(s: Net, n: NodeId, x: InTransit)
    requires n in s.nodes
    ensures SamePace(s, Read(s, n, x))
  {
  }

  /** The actions in which no pacer takes part. */
  predicate PacerIdle(a: Action) {
    a.Injecting? || a.Dispatching? || a.Landing? || a.Reading? || a.LinkChanging? || a.NodeChanging?
  }

  lemma StepKeepsPace(t: Topology, s: Net, a: Action)
    requires Fine(t, s) && Enabled(t, s, a) && PacerIdle(a)
    ensures SamePace(s, Apply(t, s, a))
  {
    hide Fine, Sound, SamePace, Inject, Land, Dispatch, Read, LinkChange, NodeChange, CanDispatch;
    FineKeys(t, s);
    match a
    case Injecting(n, id, d, luck) => InjectKeepsPace(t, s, n, id, d, luck);
    case Dispatching(n, rolls) => DispatchKeepsPace(t, s, n, rolls);
    case Landing(m, x, luck) => LandKeepsPace(t, s, m, x, luck);
    case Reading(n, x) => ReadKeepsPace(s, n, x);
    case LinkChanging(e) => LinkChangeKeepsPace(s, e);
    case NodeChanging(e) => NodeChangeKeepsPace(s, e);
  }

  // ---- Steps of a pacer -----------------------------------------------------------------------

  lemma HasBandwidth(t: Topology, l: LinkId)
    requires t.Valid() && l in t.links
    ensures t.links[l].bandwidth > 0
  {
  }

  lemma LinkPacingAfterTake(t: Topology, s: Net, l: LinkId)
    requires Sound(t, s) && t.Valid() && l in t.links && l in s.links && l in s.carried && LinkPacing(t, s, l)
    requires s.links[l].task.Idle? && s.links[l].queue != []
    ensures LinkPacing(t, Take(t, s, l), l)
  {
    hide Topology.Valid, NodeSound, Batch.At, Batch.Wait, Batch.CanSend, RoomFrom, PacketDelay, PacedLink;
    HasBandwidth(t, l);
    assert PacedLink(s.links[l].batch, s.now, Sends(s.accepted, s.carried[l]), t.links[l].bandwidth);
    assert s.links[l].batch.created <= s.now;
    var copy := s.links[l].queue[0];
    RoomAfterTake(s.links[l].batch, s.now, t.TransmissionTime(l, SizeOf(s, copy.ticket)));
    PacedLinkAfterTake(s.links[l].batch, s.now, Sends(s.accepted, s.carried[l]), t.links[l].bandwidth);
  }

  lemma InPaceAfterTake(t: Topology, s: Net, l: LinkId)
    requires Queued(t, s) && Sound(t, s) && InPace(t, s)
    requires l in s.links && s.links[l].task.Idle? && s.links[l].queue != []
    requires Sound(t, Take(t, s, l))
    ensures InPace(t, Take(t, s, l))
  {
    hide Queued, InPace, Topology.Valid, NodeSound;
    InPaceAt(t, s, l);
    LinkPacingAfterTake(t, s, l);
    InPaceWithLink(t, s, l, Take(t, s, l));
  }

  lemma InPaceAt(t: Topology, s: Net, l: LinkId)
    requires Sound(t, s) && InPace(t, s) && l in s.links
    ensures t.Valid() && l in t.links && l in s.carried && LinkPacing(t, s, l)
  {
    hide Topology.Valid, LinkPacing, NodeSound, LinkSound;
  }

  lemma InPaceAfterTaskChange(t: Topology, s: Net, l: LinkId, task: LinkTask)
    requires Queued(t, s) && Sound(t, s) && InPace(t, s)
    requires l in s.links && s.links[l].task.Busy? && task.Busy? && task.phase == Offering
    requires Sound(t, WithTask(s, l, task))
    requires task.packet.ticket == s.links[l].task.packet.ticket
    requires !Handled(s, l) && s.links[l].task.phase.Sleeping? ==> s.links[l].task.phase.until <= s.now
    ensures InPace(t, WithTask(s, l, task))
  {
    hide Queued, InPace, Topology.Valid, NodeSound, LinkSound, RoomFrom, PacedLink, Topology.TransmissionTime;
    InPaceAt(t, s, l);
    if !Handled(s, l) && s.links[l].task.phase.Sleeping? {
      RoomStays(s.links[l].batch, s.links[l].task.phase.until, s.now, TaskDelay(t, s, l));
    }
    HasBandwidth(t, l);
    InPaceWithLink(t, s, l, WithTask(s, l, task));
  }

  lemma RoomStays(b: Batch, from: Duration, later: Duration, packetDelay: Duration)
    requires RoomFrom(b, from, packetDelay) && from <= later
    ensures RoomFrom(b, later, packetDelay)
  {
  }

  lemma InPaceAfterIdle(t: Topology, s: Net, s': Net, l: LinkId)
    requires Queued(t, s) && Sound(t, s) && InPace(t, s) && Sound(t, s') && l in s.links
    requires s'.now == s.now && s'.accepted == s.accepted && s.handled.Keys <= s'.handled.Keys
    requires s'.links == s.links[l := s.links[l].(task := Idle)] && s'.carried == s.carried
    ensures InPace(t, s')
  {
    hide Queued, InPace, Topology.Valid, NodeSound, LinkSound, RoomFrom, PacedLink, Topology.TransmissionTime;
    InPaceAt(t, s, l);
    HasBandwidth(t, l);
    InPaceWithLink(t, s, l, s');
  }

  /** The assertion in `send` (and the one in `track_send`) holds whenever a packet is about to be sent. */
  lemma RoomToSend(t: Topology, s: Net, l: LinkId)
    requires Queued(t, s) && Sound(t, s) && InPace(t, s) && InOffering(s, l) && !Handled(s, l)
    ensures t.Valid() && l in t.links && s.links[l].batch.created <= s.now
    ensures s.links[l].task.packet.ticket < |s.accepted|
    ensures s.links[l].batch.CanSend(s.now, t.TransmissionTime(l, SizeOf(s, s.links[l].task.packet.ticket)))
  {
    hide Queued, InPace, Topology.Valid, NodeSound, PacedLink, Topology.TransmissionTime, Batch.At;
    InPaceAt(t, s, l);
    HasBandwidth(t, l);
  }

  lemma LinkPacingAfterSend(t: Topology, s: Net, l: LinkId, s': Net)
    requires t.Valid() && l in t.links && l in s.links && l in s.carried && LinkPacing(t, s, l)
    requires s.links[l].batch.created <= s.now && InOffering(s, l) && s.links[l].task.packet.ticket < |s.accepted|
    requires s.links[l].batch.CanSend(s.now, t.TransmissionTime(l, SizeOf(s, s.links[l].task.packet.ticket)))
    requires s'.now == s.now && s'.accepted == s.accepted && l in s'.links && l in s'.carried
    requires s'.carried[l] == s.carried[l] + [Carried(s.links[l].task.packet.ticket, s.now)]
    requires s'.links[l].task == Idle
    requires s'.links[l].batch
          == s.links[l].batch.Add(s.now, t.TransmissionTime(l, SizeOf(s, s.links[l].task.packet.ticket)))
    ensures LinkPacing(t, s', l)
  {
    hide Topology.Valid, PacedLink, Batch.Add, Batch.CanSend, PacketDelay;
    HasBandwidth(t, l);
    var ticket := s.links[l].task.packet.ticket;
    PacedLinkAfterSend(s.links[l].batch, s.now, Sends(s.accepted, s.carried[l]), t.links[l].bandwidth, SizeOf(s, ticket));
    SendsAppend(s.accepted, s.carried[l], Carried(ticket, s.now));
  }

  lemma TransmitFacts(t: Topology, s: Net, l: LinkId)
    requires Sound(t, s) && InOffering(s, l)
    ensures var s', ticket := Transmit(t, s, l), s.links[l].task.packet.ticket;
            && ticket < |s.accepted| && t.Valid() && l in t.links && l in s.carried && s.links[l].batch.created <= s.now
            && s'.now == s.now && s'.accepted == s.accepted && s'.handled == s.handled[ticket := SentOver(l)]
            && s'.carried == s.carried[l := s.carried[l] + [Carried(ticket, s.now)]]
            && l in s'.links && s'.links == s.links[l := s'.links[l]]
            && s'.links[l].task == Idle
            && s'.links[l].batch == s.links[l].batch.Add(s.now, t.TransmissionTime(l, SizeOf(s, ticket)))
  {
    hide Topology.Valid, NodeSound, Batch.Add, PacketDelay, Topology.TransmissionTime;
  }

  lemma InPaceAfterTransmit(t: Topology, s: Net, l: LinkId)
    requires Queued(t, s) && Sound(t, s) && InPace(t, s) && InOffering(s, l) && !Handled(s, l)
    requires Sound(t, Transmit(t, s, l))
    ensures InPace(t, Transmit(t, s, l))
  {
    hide Queued, InPace, Topology.Valid, NodeSound, LinkSound, LinkPacing, Topology.TransmissionTime, Batch.Add,
         Batch.CanSend, Transmit;
    InPaceAt(t, s, l);
    RoomToSend(t, s, l);
    TransmitFacts(t, s, l);
    LinkPacingAfterSend(t, s, l, Transmit(t, s, l));
    InPaceWithLink(t, s, l, Transmit(t, s, l));
  }

  lemma InPaceAfterFinish(t: Topology, s: Net, l: LinkId)
    requires Queued(t, s) && Sound(t, s) && InPace(t, s) && InOffering(s, l) && Sound(t, Finish(t, s, l))
    ensures InPace(t, Finish(t, s, l))
  {
    hide Queued, InPace, Topology.Valid, NodeSound, LinkSound, Transmit;
    QueuedIsSound(t, s);
    BusyFacts(t, s, l);
    if Handled(s, l) || ClearedFromBuffer(s, s.links[l].task.packet.ticket) {
      InPaceAfterIdle(t, s, Finish(t, s, l), l);
    } else {
      InPaceAfterTransmit(t, s, l);
    }
  }

  lemma LinkPacingLater(t: Topology, s: Net, until: Duration, l: LinkId)
    requires t.Valid() && l in t.links && l in s.links && l in s.carried && LinkPacing(t, s, l) && s.now <= until
    ensures LinkPacing(t, s.(now := until), l)
  {
    hide Topology.Valid, PacedLink, TaskReady, Topology.TransmissionTime;
    HasBandwidth(t, l);
    PacedLinkLater(s.links[l].batch, s.now, until, Sends(s.accepted, s.carried[l]), t.links[l].bandwidth);
    if s.links[l].task.Busy? && !Handled(s, l) {
      ReadyLater(s.links[l].batch, s.links[l].task, s.now, until, TaskDelay(t, s, l));
    }
  }

  lemma InPaceLater(t: Topology, s: Net, until: Duration)
    requires Sound(t, s) && InPace(t, s) && s.now <= until && Sound(t, s.(now := until))
    ensures InPace(t, s.(now := until))
  {
    hide LinkPacing, Topology.Valid, NodeSound, LinkSound;
    forall l | l in s.links
      ensures LinkPacing(t, s.(now := until), l)
    {
      LinkPacingLater(t, s, until, l);
    }
  }

  lemma InPaceInitially(t: Topology)
    requires t.Valid() && Sound(t, Initial(t))
    ensures InPace(t, Initial(t))
  {
    hide Topology.Valid, NodeSound, LinkSound;
    forall l | l in t.links
      ensures LinkPacing(t, Initial(t), l)
    {
      HasBandwidth(t, l);
    }
  }

  lemma QueuedIsSound(t: Topology, s: Net)
    requires Queued(t, s)
    ensures Fine(t, s) && Sound(t, s) && t.Valid()
    ensures s.nodes.Keys == t.nodes.Keys && s.links.Keys == t.links.Keys == s.carried.Keys
  {
    hide Topology.Valid, Timely, NodeSound, LinkSound, LinesOrdered, BuffersOrdered, AllWon;
  }

  lemma InPaceAfterStep(t: Topology, s: Net, a: Action)
    requires Queued(t, s) && Sound(t, s) && InPace(t, s) && Enabled(t, s, a) && Sound(t, Apply(t, s, a))
    ensures InPace(t, Apply(t, s, a))
  {
    hide Queued, InPace, Sound, SamePace, Inject, Land, Take, Finish, Dispatch, Read, LinkChange, NodeChange, CanDispatch,
         WithTask;
    QueuedIsSound(t, s);
    if PacerIdle(a) {
      StepKeepsPace(t, s, a);
      InPaceWithSamePace(t, s, Apply(t, s, a));
    } else {
      match a
      case Taking(l) => InPaceAfterTake(t, s, l);
      case Waking(l) => InPaceAfterTaskChange(t, s, l, Busy(s.links[l].task.packet, Offering));
      case GivingWay(l) =>
        var copy := s.links[l].task.packet;
        InPaceAfterTaskChange(t, s, l, Busy(copy.(preferred := copy.preferred[1..]), Offering));
      case Finishing(l) => InPaceAfterFinish(t, s, l);
      case Passing(until) => InPaceLater(t, s, until);
    }
  }

  lemma {:induction false} RunIsInPace(t: Topology, actions: seq<Action>)
    requires IsRun(t, actions)
    ensures Sound(t, StateAfter(t, actions)) && InPace(t, StateAfter(t, actions))
  {
    hide Queued, Enabled, InPace, Sound, IsRun, StateAfter, Apply;
    LastStep(t, actions);
    RunIsQueued(t, actions);
    QueuedIsSound(t, StateAfter(t, actions));
    if actions == [] {
      InPaceInitially(t);
    } else {
      var before := StateAfter(t, actions[..|actions| - 1]);
      RunIsInPace(t, actions[..|actions| - 1]);
      RunIsQueued(t, actions[..|actions| - 1]);
      InPaceAfterStep(t, before, actions[|actions| - 1]);
    }
  }

  /**
   The pacer's assertions never fire: in every run, when a link's task is about to send a packet
   that nobody handled yet, the pacer has room for it, however long it was waited for.
   */
  lemma AssertionsHold(t: Topology, actions: seq<Action>, l: LinkId)
    requires IsRun(t, actions) && InOffering(StateAfter(t, actions), l) && !Handled(StateAfter(t, actions), l)
    ensures var s := StateAfter(t, actions);
            && t.Valid() && l in t.links && s.links[l].batch.created <= s.now
            && s.links[l].task.packet.ticket < |s.accepted|
            && s.links[l].batch.CanSend(s.now, t.TransmissionTime(l, SizeOf(s, s.links[l].task.packet.ticket)))
  {
    hide Queued, InPace, Sound, Topology.Valid, Topology.TransmissionTime, Batch.CanSend;
    RunIsInPace(t, actions);
    RunIsQueued(t, actions);
    RoomToSend(t, StateAfter(t, actions), l);
  }

  // ---- Any window of time ---------------------------------------------------------------------

  /** What link `l` carried stays, and at most one packet, sent just now, comes on top. */
  ghost predicate CarriesOn(s: Net, s': Net, l: LinkId)
    requires l in s.carried && l in s'.carried
  {
    && |s.accepted| <= |s'.accepted| && s'.accepted[..|s.accepted|] == s.accepted
    && (|| s'.carried[l] == s.carried[l]
        || (s'.carried[l] != [] && s'.carried[l][..|s'.carried[l]| - 1] == s.carried[l]
            && s'.carried[l][|s'.carried[l]| - 1].at == s'.now && s'.now == s.now && s'.accepted == s.accepted))
  }

  lemma CarriesOnAfterFinish(t: Topology, s: Net, m: LinkId, l: LinkId)
    requires Fine(t, s) && InOffering(s, m) && Sound(t, s) && l in s.links && l in s.carried
    ensures l in Finish(t, s, m).carried && CarriesOn(s, Finish(t, s, m), l)
  {
    hide Fine, Sound, Transmit;
    BusyFacts(t, s, m);
    TransmitFacts(t, s, m);
  }

  lemma CarriesOnWithSameCarried(s: Net, s': Net, l: LinkId)
    requires l in s.carried && s'.carried == s.carried
    requires |s.accepted| <= |s'.accepted| && s'.accepted[..|s.accepted|] == s.accepted
    ensures CarriesOn(s, s', l)
  {
  }

  lemma SamePaceCarriesOn(s: Net, s': Net, l: LinkId)
    requires SamePace(s, s') && l in s.carried
    ensures l in s'.carried && CarriesOn(s, s', l)
  {
  }

  lemma TakeCarriesOn(t: Topology, s: Net, m: LinkId, l: LinkId)
    requires Sound(t, s) && m in s.links && s.links[m].task.Idle? && s.links[m].queue != [] && l in s.carried
    ensures l in Take(t, s, m).carried && CarriesOn(s, Take(t, s, m), l)
  {
    hide Topology.Valid, Topology.TransmissionTime, NodeSound, Batch.At, Batch.Wait, Batch.CanSend;
    CarriesOnWithSameCarried(s, Take(t, s, m), l);
  }

  lemma TaskChangeCarriesOn(s: Net, m: LinkId, task: LinkTask, l: LinkId)
    requires m in s.links && l in s.carried
    ensures l in WithTask(s, m, task).carried && CarriesOn(s, WithTask(s, m, task), l)
  {
  }

  lemma CarriesOnAfterStep(t: Topology, s: Net, a: Action, l: LinkId)
    requires Fine(t, s) && Enabled(t, s, a) && l in s.links && l in s.carried
    ensures l in Apply(t, s, a).carried && CarriesOn(s, Apply(t, s, a), l)
  {
    hide Fine, Sound, CarriesOn, SamePace, Inject, Land, Take, Finish, Dispatch, Read, LinkChange, NodeChange,
         CanDispatch, WithTask;
    if PacerIdle(a) {
      StepKeepsPace(t, s, a);
      SamePaceCarriesOn(s, Apply(t, s, a), l);
    } else {
      FineKeys(t, s);
      match a
      case Taking(m) => TakeCarriesOn(t, s, m, l);
      case Waking(m) => TaskChangeCarriesOn(s, m, Busy(s.links[m].task.packet, Offering), l);
      case GivingWay(m) =>
        var copy := s.links[m].task.packet;
        TaskChangeCarriesOn(s, m, Busy(copy.(preferred := copy.preferred[1..]), Offering), l);
      case Finishing(m) => CarriesOnAfterFinish(t, s, m, l);
      case Passing(until) => CarriesOnWithSameCarried(s, s.(now := until), l);
    }
  }

  /** What a link carried, as its pacer sees it. */
  function CarriedOn(t: Topology, s: Net, l: LinkId): seq<Sending>
    requires t.Valid() && l in t.links && l in s.carried
  {
    Transmissions(Sends(s.accepted, s.carried[l]), t.links[l].bandwidth)
  }

  lemma CarriedOnFacts(t: Topology, s: Net, l: LinkId)
    requires Queued(t, s) && Sound(t, s) && InPace(t, s) && l in t.links
    ensures t.Valid() && l in s.carried && l in s.links && s.links[l].batch.created <= s.now
    ensures Paced(s.links[l].batch, CarriedOn(t, s, l)) && SentBy(CarriedOn(t, s, l), s.now)
  {
    hide Queued, Topology.Valid, NodeSound, TaskReady, Topology.TransmissionTime, Paced;
    InPaceAt(t, s, l);
    HasBandwidth(t, l);
  }

  lemma TakeIs(t: Topology, s: Net, l: LinkId)
    requires Sound(t, s) && l in s.links && s.links[l].task.Idle? && s.links[l].queue != []
    ensures t.Valid() && l in t.links && s.links[l].queue[0].ticket < |s.accepted| && s.links[l].batch.created <= s.now
    ensures var link, time := s.links[l], t.TransmissionTime(l, SizeOf(s, s.links[l].queue[0].ticket));
            && l in Take(t, s, l).links
            && Take(t, s, l).links[l].task
               == Busy(link.queue[0], if link.status.Up? && link.batch.CanSend(s.now, time) then Offering
                                      else Sleeping(s.now + link.batch.Wait(s.now, time)))
  {
    hide Topology.Valid, Topology.TransmissionTime, NodeSound, Batch.At, Batch.Wait, Batch.CanSend;
  }

  lemma TransmissionTimeIs(t: Topology, l: LinkId, size: nat)
    requires t.Valid() && l in t.links
    ensures t.links[l].bandwidth > 0 && t.TransmissionTime(l, size) == (8 * size) as real / t.links[l].bandwidth as real
  {
  }

  /**
   In every run, when a link's task takes a packet: it may send it at once if and only if the link is
   up and it carried nothing yet, or the last batch it carried is over, or the batch and the packet
   together take less than two milliseconds. Else it waits, until the end of that batch if there is
   no room for the packet.
   */
  lemma QuickPathIsExact(t: Topology, actions: seq<Action>, l: LinkId)
    requires IsRun(t, actions + [Taking(l)]) && IsRun(t, actions) && l in t.links
    ensures l in StateAfter(t, actions).links && l in StateAfter(t, actions + [Taking(l)]).links
    ensures l in StateAfter(t, actions).carried && t.Valid() && t.links[l].bandwidth > 0
    ensures var s, after := StateAfter(t, actions), StateAfter(t, actions + [Taking(l)]);
            && s.links[l].queue != [] && s.links[l].queue[0].ticket < |s.accepted|
            && (var copy, h := s.links[l].queue[0], CarriedOn(t, s, l);
                var size := s.accepted[copy.ticket].packet.Size();
                var room := h == [] || BatchEnd(h) <= s.now
                            || BatchTime(h) + (8 * size) as real / t.links[l].bandwidth as real < 0.002;
                after.links[l].task == Busy(copy, if s.links[l].status.Up? && room then Offering
                                                  else Sleeping(if room then s.now else BatchEnd(h))))
  {
    hide Queued, InPace, Sound, Topology.Valid, Topology.TransmissionTime, CarriedOn, IsRun, StateAfter, Take, BatchTime, BatchEnd,
         Batch.CanSend, Batch.Wait, IsLastBatch;
    assert (actions + [Taking(l)])[..|actions|] == actions;
    LastStep(t, actions + [Taking(l)]);
    RunIsInPace(t, actions);
    RunIsQueued(t, actions);
    var s := StateAfter(t, actions);
    CarriedOnFacts(t, s, l);
    TakeIs(t, s, l);
    var size := SizeOf(s, s.links[l].queue[0].ticket);
    TransmissionTimeIs(t, l, size);
    RoomIsExact(s.links[l].batch, CarriedOn(t, s, l), s.now, t.TransmissionTime(l, size));
  }

  lemma LateSendDoesNotCount(t: Topology, s: Net, s': Net, l: LinkId, from: Duration, to: Duration)
    requires t.Valid() && l in t.links && TicketsOf(s, l) && l in s'.carried && CarriesOn(s, s', l) && to < s'.now
    ensures SentWithin(CarriedOn(t, s', l), from, to) == SentWithin(CarriedOn(t, s, l), from, to)
    ensures Largest(CarriedOn(t, s, l)) <= Largest(CarriedOn(t, s', l))
  {
    hide Topology.Valid, PacketDelay;
    HasBandwidth(t, l);
    if s'.carried[l] == s.carried[l] {
      SendsGrow(s.accepted, s'.accepted, s.carried[l]);
    } else {
      var h, h' := CarriedOn(t, s, l), CarriedOn(t, s', l);
      var c := s'.carried[l][|s.carried[l]|];
      assert s'.carried[l] == s.carried[l] + [c];
      SendsAppend(s.accepted, s.carried[l], c);
      TransmissionsAppend(Sends(s.accepted, s.carried[l]), Sent(c.at, TicketSize(s.accepted, c.ticket)), t.links[l].bandwidth);
      assert h'[..|h'| - 1] == h;
    }
  }

  /**
   In every run, for every link and every window of time: what the link carried in the window takes
   at most the length of the window to transmit, plus one full batch and the largest packet.
   */
  lemma {:induction false} LinksKeepTheirRate(t: Topology, actions: seq<Action>, l: LinkId, from: Duration, to: Duration)
    requires IsRun(t, actions) && l in t.links && from <= to
    ensures l in StateAfter(t, actions).carried
    ensures var h := CarriedOn(t, StateAfter(t, actions), l);
            SentWithin(h, from, to) <= to - from + 0.002 + MaxTime(0.002, Largest(h))
  {
    hide Queued, InPace, Sound, Topology.Valid, Paced, SentSince, SentWithin, Largest, CarriedOn, CarriesOn, Enabled,
         Apply, IsRun, StateAfter;
    LastStep(t, actions);
    RunIsInPace(t, actions);
    RunIsQueued(t, actions);
    var s := StateAfter(t, actions);
    CarriedOnFacts(t, s, l);
    if s.now <= to {
      WindowIsSuffix(CarriedOn(t, s, l), from, to);
      if from <= s.now {
        LastWindowBound(s.links[l].batch, CarriedOn(t, s, l), from, s.now);
      } else {
        NothingSince(CarriedOn(t, s, l), s.now, from);
      }
    } else {
      var init, last := actions[..|actions| - 1], actions[|actions| - 1];
      var before := StateAfter(t, init);
      LinksKeepTheirRate(t, init, l, from, to);
      RunIsQueued(t, init);
      QueuedIsSound(t, before);
      TicketsAreSound(t, before, l);
      CarriesOnAfterStep(t, before, last, l);
      LateSendDoesNotCount(t, before, s, l, from, to);
    }
  }
}
