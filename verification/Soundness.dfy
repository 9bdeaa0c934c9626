/** Every state a run reaches is well formed, and time only moves forward in it. */
module Soundness {
  import opened Prelude
  import opened Trace
  import opened PacketPacer
  import opened Routing
  import opened Network

  ghost predicate SentByNow(inTransit: multiset<InTransit>, now: Duration) {
    forall x :: x in inTransit ==> x.sent <= now
  }

  ghost predicate CarriedByNow(carried: seq<Carried>, now: Duration) {
    && (forall i :: 0 <= i < |carried| ==> carried[i].at <= now)
    && (forall i, j :: 0 <= i < j < |carried| ==> carried[i].at <= carried[j].at)
  }

  /** The log is in order and nothing in the state lies in the future. */
  ghost predicate Timely(s: Net) {
    && InOrder(s.log)
    && (forall i :: 0 <= i < |s.log| ==> s.log[i].time <= s.now)
    && (forall i :: 0 <= i < |s.accepted| ==> s.accepted[i].since <= s.now)
    && (forall l :: l in s.links ==> SentByNow(s.links[l].inTransit, s.now))
    && (forall l :: l in s.carried ==> CarriedByNow(s.carried[l], s.now))
  }

  ghost predicate Fine(t: Topology, s: Net) {
    Sound(t, s) && Timely(s)
  }

  // ---- One object changes ---------------------------------------------------------------------

  lemma FineWithLink(t: Topology, s: Net, l: LinkId, link: LinkState)
    requires Fine(t, s) && l in s.links
    requires LinkSound(link, |s.accepted|, s.now) && SentByNow(link.inTransit, s.now)
    ensures Fine(t, s.SetLink(l, link))
  {
    hide Topology.Valid, LinkSound, NodeSound, SentByNow, CarriedByNow;
  }

  ghost predicate LinksFine(links: map<LinkId, LinkState>, tickets: nat, now: Duration) {
    forall l :: l in links ==> LinkSound(links[l], tickets, now) && SentByNow(links[l].inTransit, now)
  }

  lemma FineWithLinks(t: Topology, s: Net, links: map<LinkId, LinkState>)
    requires Fine(t, s) && links.Keys == s.links.Keys && LinksFine(links, |s.accepted|, s.now)
    ensures Fine(t, s.(links := links))
  {
    hide Topology.Valid, LinkSound, NodeSound, SentByNow, CarriedByNow;
  }

  lemma FineWithNode(t: Topology, s: Net, n: NodeId, node: NodeState)
    requires Fine(t, s) && n in s.nodes && NodeSound(node, |s.accepted|)
    ensures Fine(t, s.SetNode(n, node))
  {
    hide Topology.Valid, LinkSound, NodeSound, SentByNow, CarriedByNow;
  }

  lemma FineAfterRecord(t: Topology, s: Net, kind: StepKind)
    requires Fine(t, s)
    ensures Fine(t, s.Record(kind))
  {
    hide Topology.Valid, LinkSound, NodeSound, SentByNow, CarriedByNow;
  }

  lemma FineWithIds(t: Topology, s: Net, ids: set<PacketId>, nextNumber: nat)
    requires Fine(t, s)
    ensures Fine(t, s.(ids := ids, nextNumber := nextNumber))
  {
    hide Topology.Valid, LinkSound, NodeSound, SentByNow, CarriedByNow;
  }

  lemma FineWithAccepted(t: Topology, s: Net, b: Buffered)
    requires Fine(t, s) && b.node in t.nodes && b.since <= s.now
    ensures Fine(t, s.(accepted := s.accepted + [b]))
  {
    hide Topology.Valid, SentByNow, CarriedByNow;
  }

  lemma FineAfterMark(t: Topology, s: Net, ticket: nat, how: Handling)
    requires Fine(t, s)
    ensures Fine(t, Mark(s, ticket, how))
  {
    hide Topology.Valid, LinkSound, NodeSound, SentByNow, CarriedByNow;
  }

  lemma FineAfterCarry(t: Topology, s: Net, l: LinkId, ticket: nat)
    requires Fine(t, s) && l in s.carried
    ensures Fine(t, Carry(s, l, ticket))
  {
    hide Topology.Valid, LinkSound, NodeSound, SentByNow;
  }

  lemma FineAfterRelease(t: Topology, s: Net, n: NodeId, size: nat)
    requires Fine(t, s) && n in s.nodes
    ensures Fine(t, Release(s, n, size))
  {
    hide Topology.Valid, Timely, LinkSound;
    FineWithNode(t, s, n, s.nodes[n].(available := s.nodes[n].available + size));
  }

  lemma FineAfterPutOn(t: Topology, s: Net, l: LinkId, x: InTransit, time: Duration)
    requires Fine(t, s) && l in s.links && s.links[l].batch.created <= s.now && x.sent == s.now
    ensures Fine(t, PutOn(s, l, x, time))
  {
    hide Topology.Valid;
    FineWithLink(t, s, l, PutOn(s, l, x, time).links[l]);
  }

  // ---- Whole steps ----------------------------------------------------------------------------

  lemma FineAfterEnqueue(t: Topology, s: Net, n: NodeId, p: Packet)
    requires Fine(t, s) && n in s.nodes
    ensures Fine(t, Enqueue(s, n, p)) && Enqueue(s, n, p).nodes.Keys == s.nodes.Keys
  {
    hide Topology.Valid, Timely, LinkSound;
    FineAfterRecord(t, s, PacketDropped(p.id, n, BufferFull));
    FineWithAccepted(t, s, Buffered(n, s.now, p));
    var node := s.nodes[n];
    if node.available >= p.Size() {
      FineWithNode(t, s.(accepted := s.accepted + [Buffered(n, s.now, p)]), n,
                   node.(available := node.available - p.Size(), outbound := node.outbound + [|s.accepted|]));
    }
  }

  lemma FineAfterStore(t: Topology, s: Net, n: NodeId, p: Packet, luck: Luck)
    requires Fine(t, s) && n in s.nodes && n in t.nodes
    ensures Fine(t, Store(t, s, n, p, luck))
  {
    hide Fine, Enqueue;
    var twin := p.(id := luck.freshId, duplicate := true);
    FineAfterRecord(t, s, PacketDropped(p.id, n, Random));
    FineAfterEnqueue(t, s, n, p);
    var s1 := Enqueue(s, n, p);
    var s2 := s1.(ids := s1.ids + {luck.freshId});
    FineWithIds(t, s1, s1.ids + {luck.freshId}, s1.nextNumber);
    FineAfterRecord(t, s2, DuplicationRecord(n, twin));
    FineAfterEnqueue(t, s2.Record(DuplicationRecord(n, twin)), n, twin);
  }

  lemma FineAfterForward(t: Topology, s: Net, n: NodeId, p: Packet, luck: Luck)
    requires Fine(t, s) && n in s.nodes && n in t.nodes
    ensures Fine(t, Forward(t, s, n, p, luck))
  {
    FineAfterRecord(t, s, ArrivalRecord(n, p, true));
    FineAfterRecord(t, s, ArrivalRecord(n, p, false));
    var s1 := s.Record(ArrivalRecord(n, p, false));
    assert NodeSound(s1.nodes[n].(inbox := s1.nodes[n].inbox + multiset{InTransit(p, s1.now, 0.0)}), |s1.accepted|);
    hide Fine, Store;
    FineWithNode(t, s1, n, s1.nodes[n].(inbox := s1.nodes[n].inbox + multiset{InTransit(p, s1.now, 0.0)}));
    FineAfterRecord(t, s1, PacketDropped(p.id, n, ZeroTtl));
    FineAfterStore(t, s1, n, Hop(p), luck);
  }

  lemma {:induction false} LinksFineAfterOffer(t: Topology, links: map<LinkId, LinkState>, ticket: nat, candidates: seq<LinkId>,
                                               k: nat, rolls: seq<real>, tickets: nat, now: Duration)
    requires k <= |candidates| == |rolls| && ticket < tickets
    requires forall i :: 0 <= i < |candidates| ==> candidates[i] in links && candidates[i] in t.links
    requires LinksFine(links, tickets, now)
    ensures LinksFine(Offer(t, links, ticket, candidates, k, rolls), tickets, now)
    decreases |candidates| - k
  {
    if k < |candidates| {
      var l := candidates[k];
      var extra := if rolls[k] < t.links[l].extraDelayRatio then t.links[l].extraDelay else 0.0;
      var links' := links[l := links[l].(queue := links[l].queue + [Outgoing(ticket, extra, candidates)])];
      assert LinksFine(links', tickets, now);
      LinksFineAfterOffer(t, links', ticket, candidates, k + 1, rolls, tickets, now);
    }
  }

  /** Offering a packet changes nothing but queues. */
  lemma {:induction false} OfferOnlyQueues(t: Topology, links: map<LinkId, LinkState>, ticket: nat, candidates: seq<LinkId>,
                                           k: nat, rolls: seq<real>, l: LinkId)
    requires k <= |candidates| == |rolls| && l in links
    requires forall i :: 0 <= i < |candidates| ==> candidates[i] in links && candidates[i] in t.links
    ensures var link := Offer(t, links, ticket, candidates, k, rolls)[l]; link == links[l].(queue := link.queue)
    decreases |candidates| - k
  {
    if k < |candidates| {
      var m := candidates[k];
      var extra := if rolls[k] < t.links[m].extraDelayRatio then t.links[m].extraDelay else 0.0;
      OfferOnlyQueues(t, links[m := links[m].(queue := links[m].queue + [Outgoing(ticket, extra, candidates)])],
                      ticket, candidates, k + 1, rolls, l);
    }
  }

  lemma FineAfterDispatch(t: Topology, s: Net, n: NodeId, rolls: seq<real>)
    requires Fine(t, s) && CanDispatch(t, s, n, rolls)
    ensures Fine(t, Dispatch(t, s, n, rolls))
  {
    hide Topology.Valid, LinkSound, SentByNow, CarriedByNow;
    var ticket := s.nodes[n].outbound[0];
    var candidates := t.Candidates(n, s.accepted[ticket].packet.dest).value;
    var node := s.nodes[n].(outbound := s.nodes[n].outbound[1..]);
    assert NodeSound(node, |s.accepted|);
    FineWithNode(t, s, n, node);
    LinksFineAfterOffer(t, s.links, ticket, candidates, 0, rolls, |s.accepted|, s.now);
    FineWithLinks(t, s.SetNode(n, node), Offer(t, s.links, ticket, candidates, 0, rolls));
  }

  lemma FineAfterUnbuffer(t: Topology, s: Net, l: LinkId, ticket: nat)
    requires Fine(t, s) && l in s.links && ticket < |s.accepted|
    ensures Fine(t, Unbuffer(s, l, ticket))
  {
    hide Topology.Valid;
    var b := s.accepted[ticket];
    var s1 := Mark(s, ticket, SentOver(l));
    FineAfterMark(t, s, ticket, SentOver(l));
    FineAfterCarry(t, s1, l, ticket);
    FineAfterRelease(t, Carry(s1, l, ticket), b.node, b.packet.Size());
  }

  lemma FineKeys(t: Topology, s: Net)
    requires Fine(t, s)
    ensures Sound(t, s) && t.Valid()
    ensures s.nodes.Keys == t.nodes.Keys && s.links.Keys == t.links.Keys == s.carried.Keys
  {
    hide Topology.Valid;
  }

  /** What a link's task may rely on. */
  lemma BusyFacts(t: Topology, s: Net, l: LinkId)
    requires Fine(t, s) && l in s.links && s.links[l].task.Busy?
    ensures Sound(t, s) && t.Valid() && l in t.links && l in s.carried
    ensures s.links[l].batch.created <= s.now
    ensures s.links[l].task.packet.ticket < |s.accepted|
    ensures s.accepted[s.links[l].task.packet.ticket].node in s.nodes
  {
    hide Topology.Valid;
  }

  lemma FineAfterTransmit(t: Topology, s: Net, l: LinkId)
    requires Fine(t, s) && InOffering(s, l)
    ensures Fine(t, Transmit(t, s, l))
  {
    hide Topology.Valid, Fine, Sound, PutOn, Unbuffer;
    BusyFacts(t, s, l);
    var copy := s.links[l].task.packet;
    var b := s.accepted[copy.ticket];
    FineAfterUnbuffer(t, s, l, copy.ticket);
    var s1 := Unbuffer(s, l, copy.ticket);
    var x := InTransit(b.packet, s.now, s.links[l].delay + copy.extraDelay);
    var time := t.TransmissionTime(l, b.packet.Size());
    FineAfterRecord(t, s1, PacketInTransit(b.packet.id, b.node, l));
    FineAfterPutOn(t, s1.Record(PacketInTransit(b.packet.id, b.node, l)), l, x, time);
  }

  lemma FineAfterTake(t: Topology, s: Net, l: LinkId)
    requires Fine(t, s) && l in s.links && s.links[l].task.Idle? && s.links[l].queue != []
    ensures Fine(t, Take(t, s, l))
  {
    hide Topology.Valid, Topology.TransmissionTime;
    FineWithLink(t, s, l, Take(t, s, l).links[l]);
  }

  lemma FineAfterTaskChange(t: Topology, s: Net, l: LinkId, task: LinkTask)
    requires Fine(t, s) && l in s.links && s.links[l].task.Busy?
    requires task.Busy? && task.packet.ticket == s.links[l].task.packet.ticket
    ensures Fine(t, WithTask(s, l, task))
  {
    hide Topology.Valid;
    FineWithLink(t, s, l, s.links[l].(task := task));
  }

  lemma FineAfterGiveWay(t: Topology, s: Net, l: LinkId)
    requires Fine(t, s) && InOffering(s, l) && MustYield(s, l)
    ensures Fine(t, GiveWay(s, l))
  {
    var copy := s.links[l].task.packet;
    FineAfterTaskChange(t, s, l, Busy(copy.(preferred := copy.preferred[1..]), Offering));
  }

  lemma FineAfterIdle(t: Topology, s: Net, l: LinkId)
    requires Fine(t, s) && l in s.links
    ensures Fine(t, WithTask(s, l, Idle))
  {
    hide Topology.Valid;
    FineWithLink(t, s, l, s.links[l].(task := Idle));
  }

  lemma FineAfterDropCleared(t: Topology, s: Net, l: LinkId)
    requires Fine(t, s) && InOffering(s, l)
    ensures Fine(t, DropCleared(t, s, l))
  {
    hide Topology.Valid, Fine, Sound, WithTask;
    BusyFacts(t, s, l);
    var ticket := s.links[l].task.packet.ticket;
    var b := s.accepted[ticket];
    FineAfterMark(t, s, ticket, ClearDropped);
    FineAfterIdle(t, Mark(s, ticket, ClearDropped), l);
    FineAfterRecord(t, WithTask(Mark(s, ticket, ClearDropped), l, Idle),
                    PacketDropped(b.packet.id, b.node, BufferCleared));
  }

  lemma FineAfterFinish(t: Topology, s: Net, l: LinkId)
    requires Fine(t, s) && InOffering(s, l)
    ensures Fine(t, Finish(t, s, l))
  {
    hide Topology.Valid, Fine, Sound, Transmit, DropCleared, WithTask;
    BusyFacts(t, s, l);
    FineAfterIdle(t, s, l);
    FineAfterTransmit(t, s, l);
    FineAfterDropCleared(t, s, l);
  }

  lemma FineAfterTakeOff(t: Topology, s: Net, l: LinkId, x: InTransit)
    requires Fine(t, s) && l in s.links
    ensures Fine(t, TakeOff(s, l, x)) && TakeOff(s, l, x).nodes == s.nodes
  {
    FineWithLink(t, s, l, s.links[l].(inTransit := s.links[l].inTransit - multiset{x}));
  }

  lemma FineAfterLinkChange(t: Topology, s: Net, e: LinkEvent)
    requires Fine(t, s)
    ensures Fine(t, LinkChange(s, e))
  {
    if e.link in s.links {
      FineWithLink(t, s, e.link, ChangedLink(s.links[e.link], e, s.now));
      FineAfterRecord(t, s.SetLink(e.link, ChangedLink(s.links[e.link], e, s.now)), NetworkEvent(Some(e), None));
    }
  }

  lemma FineAfterNodeChange(t: Topology, s: Net, e: NodeEvent)
    requires Fine(t, s)
    ensures Fine(t, NodeChange(s, e))
  {
    if e.node in s.nodes {
      FineWithNode(t, s, e.node, ChangedNode(s.nodes[e.node], e, s.now));
      FineAfterRecord(t, s.SetNode(e.node, ChangedNode(s.nodes[e.node], e, s.now)), NetworkEvent(None, Some(e)));
    }
  }

  lemma FineAfterRead(t: Topology, s: Net, n: NodeId, x: InTransit)
    requires Fine(t, s) && n in s.nodes
    ensures Fine(t, Read(s, n, x))
  {
    var node := s.nodes[n].(inbox := s.nodes[n].inbox - multiset{x});
    FineWithNode(t, s, n, node);
    FineAfterRecord(t, s.SetNode(n, node),
                    PacketDeliveredToApplication(x.packet.id, x.packet.number, x.packet.Size(), n));
  }

  lemma FineAfterPassing(t: Topology, s: Net, until: Duration)
    requires Fine(t, s) && s.now <= until
    ensures Fine(t, s.(now := until))
  {
    hide Topology.Valid;
  }

  lemma FineInitially(t: Topology)
    requires t.Valid()
    ensures Fine(t, Initial(t))
  {
    hide Topology.Valid;
  }

  lemma FineAfterInject(t: Topology, s: Net, n: NodeId, id: PacketId, d: Datagram, luck: Luck)
    requires Fine(t, s) && n in s.nodes
    ensures Fine(t, Inject(t, s, n, id, d, luck))
  {
    hide Topology.Valid, Forward;
    FineWithIds(t, s, s.ids + {id}, s.nextNumber + 1);
    FineAfterForward(t, s.(nextNumber := s.nextNumber + 1, ids := s.ids + {id}), n,
                     Packet(id, s.nextNumber, d.payload, d.dest, d.port, d.ttl, false), luck);
  }

  lemma FineAfterLand(t: Topology, s: Net, l: LinkId, x: InTransit, luck: Luck)
    requires Fine(t, s) && l in s.links
    ensures Fine(t, Land(t, s, l, x, luck))
  {
    hide Topology.Valid, Forward, TakeOff;
    FineAfterTakeOff(t, s, l, x);
    FineAfterRecord(t, TakeOff(s, l, x), PacketLostInTransit(x.packet.id, l));
    FineAfterForward(t, TakeOff(s, l, x), t.Target(l), x.packet, luck);
  }

  lemma FineAfterStep(t: Topology, s: Net, a: Action)
    requires Fine(t, s) && Enabled(t, s, a)
    ensures Fine(t, Apply(t, s, a))
  {
    hide Fine, Sound, Inject, Land, Take, Finish, Dispatch, Read, LinkChange, NodeChange, WithTask, CanDispatch;
    match a
    case Injecting(n, id, d, luck) =>
      FineAfterInject(t, s, n, id, d, luck);
    case Dispatching(n, rolls) => FineAfterDispatch(t, s, n, rolls);
    case Taking(l) => FineAfterTake(t, s, l);
    case Waking(l) => FineAfterTaskChange(t, s, l, Busy(s.links[l].task.packet, Offering));
    case GivingWay(l) => FineAfterGiveWay(t, s, l);
    case Finishing(l) => FineAfterFinish(t, s, l);
    case Landing(l, x, luck) => FineAfterLand(t, s, l, x, luck);
    case Reading(n, x) => FineAfterRead(t, s, n, x);
    case LinkChanging(e) => FineAfterLinkChange(t, s, e);
    case NodeChanging(e) => FineAfterNodeChange(t, s, e);
    case Passing(until) => FineAfterPassing(t, s, until);
  }

  /** In every run: the state is well formed, the log is in order and nothing lies in the future. */
  lemma {:induction false} RunIsFine(t: Topology, actions: seq<Action>)
    requires IsRun(t, actions)
    ensures Fine(t, StateAfter(t, actions))
  {
    hide Topology.Valid, Fine, IsRun, StateAfter, Apply, Enabled;
    LastStep(t, actions);
    if actions == [] {
      FineInitially(t);
    } else {
      RunIsFine(t, actions[..|actions| - 1]);
      FineAfterStep(t, StateAfter(t, actions[..|actions| - 1]), actions[|actions| - 1]);
    }
  }
}
