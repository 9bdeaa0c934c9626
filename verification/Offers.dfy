/** A packet that a node holds is in the node's channel, or on offer to every link that leads on. */
module Offers {
  import opened Prelude
  import opened Trace
  import opened PacketPacer
  import opened Cidr
  import opened Routing
  import opened Network
  import opened Soundness
  import opened Queues
  import opened Pacing

  /** A copy of packet `k` is in the hands or in the queue of the link. */
  ghost predicate Offered(link: LinkState, k: nat) {
    || (link.task.Busy? && link.task.packet.ticket == k)
    || exists i :: 0 <= i < |link.queue| && link.queue[i].ticket == k
  }

  /** Packet `k` is on offer to all the links that lead to its destination. */
  ghost predicate OfferedToAll(t: Topology, links: map<LinkId, LinkState>, b: Buffered, k: nat)
    requires t.Valid() && b.node in t.nodes
  {
    var c := t.Candidates(b.node, b.packet.dest);
    c.Ok? && forall i :: 0 <= i < |c.value| ==> c.value[i] in links && Offered(links[c.value[i]], k)
  }

  ghost predicate OnOffer(t: Topology, s: Net)
    requires t.Valid()
  {
    forall k :: 0 <= k < |s.accepted| && k !in s.handled ==>
      && s.accepted[k].node in t.nodes && s.accepted[k].node in s.nodes
      && (k in s.nodes[s.accepted[k].node].outbound || OfferedToAll(t, s.links, s.accepted[k], k))
  }

  // ---- Steps ----------------------------------------------------------------------------------

  /** What was on offer in `links` is so in `more`, but for packets in `done`. */
  ghost predicate OffersStay(links: map<LinkId, LinkState>, more: map<LinkId, LinkState>, done: set<nat>) {
    && links.Keys == more.Keys
    && forall l, k: nat {:trigger Offered(links[l], k)} {:trigger Offered(more[l], k)} ::
         l in links && k !in done && Offered(links[l], k) ==> Offered(more[l], k)
  }

  lemma StillOffered(t: Topology, links: map<LinkId, LinkState>, more: map<LinkId, LinkState>, done: set<nat>, b: Buffered, k: nat)
    requires t.Valid() && b.node in t.nodes && OfferedToAll(t, links, b, k) && OffersStay(links, more, done) && k !in done
    ensures OfferedToAll(t, more, b, k)
  {
    hide Topology.Valid, Offered;
  }

  /** Nothing leaves a channel, and what leaves a link was handled. */
  lemma OnOfferStays(t: Topology, s: Net, s': Net)
    requires t.Valid() && OnOffer(t, s) && s'.accepted == s.accepted && s.handled.Keys <= s'.handled.Keys
    requires s'.nodes.Keys == s.nodes.Keys && forall n :: n in s.nodes ==> s'.nodes[n].outbound == s.nodes[n].outbound
    requires OffersStay(s.links, s'.links, s'.handled.Keys)
    ensures OnOffer(t, s')
  {
    hide Topology.Valid, OffersStay, OfferedToAll;
    forall k | 0 <= k < |s'.accepted| && k !in s'.handled
      ensures s'.accepted[k].node in t.nodes && s'.accepted[k].node in s'.nodes
      ensures k in s'.nodes[s'.accepted[k].node].outbound || OfferedToAll(t, s'.links, s'.accepted[k], k)
    {
      if k !in s.nodes[s.accepted[k].node].outbound {
        StillOffered(t, s.links, s'.links, s'.handled.Keys, s.accepted[k], k);
      }
    }
  }

  lemma SameLinksStay(links: map<LinkId, LinkState>, more: map<LinkId, LinkState>, done: set<nat>)
    requires links.Keys == more.Keys
    requires forall l :: l in links ==> more[l].queue == links[l].queue && more[l].task == links[l].task
    ensures OffersStay(links, more, done)
  {
  }

  lemma OnOfferAfterEnqueue(t: Topology, s: Net, n: NodeId, p: Packet)
    requires t.Valid() && OnOffer(t, s) && n in s.nodes && n in t.nodes
    ensures OnOffer(t, Enqueue(s, n, p))
  {
    hide Topology.Valid, OfferedToAll;
  }

  lemma OnOfferQuietly(t: Topology, s: Net, s': Net)
    requires t.Valid() && OnOffer(t, s) && s'.accepted == s.accepted && s'.handled == s.handled && s'.nodes.Keys == s.nodes.Keys
    requires forall n :: n in s.nodes ==> s'.nodes[n].outbound == s.nodes[n].outbound
    requires s'.links.Keys == s.links.Keys
    requires forall l :: l in s.links ==> s'.links[l].queue == s.links[l].queue && s'.links[l].task == s.links[l].task
    ensures OnOffer(t, s')
  {
    hide Topology.Valid, OffersStay, OnOffer;
    SameLinksStay(s.links, s'.links, s'.handled.Keys);
    OnOfferStays(t, s, s');
  }

  lemma OnOfferAfterStore(t: Topology, s: Net, n: NodeId, p: Packet, luck: Luck)
    requires t.Valid() && OnOffer(t, s) && n in s.nodes && n in t.nodes
    ensures OnOffer(t, Store(t, s, n, p, luck))
  {
    hide Topology.Valid, OnOffer, Enqueue;
    OnOfferQuietly(t, s, s.Record(PacketDropped(p.id, n, Random)));
    OnOfferAfterEnqueue(t, s, n, p);
    var s1 := Enqueue(s, n, p);
    var twin := p.(id := luck.freshId, duplicate := true);
    var s2 := s1.(ids := s1.ids + {luck.freshId}).Record(DuplicationRecord(n, twin));
    OnOfferQuietly(t, s1, s2);
    OnOfferAfterEnqueue(t, s2, n, twin);
  }

  lemma OnOfferAfterForward(t: Topology, s: Net, n: NodeId, p: Packet, luck: Luck)
    requires t.Valid() && OnOffer(t, s) && n in s.nodes && n in t.nodes
    ensures OnOffer(t, Forward(t, s, n, p, luck))
  {
    hide Topology.Valid, OnOffer, Store;
    OnOfferQuietly(t, s, s.Record(ArrivalRecord(n, p, true)));
    var s1 := s.Record(ArrivalRecord(n, p, false));
    OnOfferQuietly(t, s, s1);
    OnOfferQuietly(t, s1, Deliver(s1, n, p));
    OnOfferQuietly(t, s1, s1.Record(PacketDropped(p.id, n, ZeroTtl)));
    OnOfferAfterStore(t, s1, n, Hop(p), luck);
  }

  lemma OnOfferAfterInject(t: Topology, s: Net, n: NodeId, id: PacketId, d: Datagram, luck: Luck)
    requires t.Valid() && Sound(t, s) && OnOffer(t, s) && n in s.nodes && n in t.nodes
    ensures OnOffer(t, Inject(t, s, n, id, d, luck))
  {
    hide Topology.Valid, Sound, OnOffer, Forward;
    var s1 := s.(nextNumber := s.nextNumber + 1, ids := s.ids + {id});
    OnOfferQuietly(t, s, s1);
    OnOfferAfterForward(t, s1, n, Packet(id, s.nextNumber, d.payload, d.dest, d.port, d.ttl, false), luck);
  }

  lemma OnOfferAfterLand(t: Topology, s: Net, l: LinkId, x: InTransit, luck: Luck)
    requires t.Valid() && Sound(t, s) && OnOffer(t, s) && l in s.links && l in t.links
    requires t.Target(l) in s.nodes && t.Target(l) in t.nodes
    ensures OnOffer(t, Land(t, s, l, x, luck))
  {
    hide Topology.Valid, Sound, OnOffer, Forward;
    OnOfferQuietly(t, s, TakeOff(s, l, x));
    OnOfferQuietly(t, s, TakeOff(s, l, x).Record(PacketLostInTransit(x.packet.id, l)));
    OnOfferAfterForward(t, TakeOff(s, l, x), t.Target(l), x.packet, luck);
  }

  // ---- Offering -------------------------------------------------------------------------------

  lemma CopyIsOffered(link: LinkState, copy: Outgoing)
    ensures Offered(link.(queue := link.queue + [copy]), copy.ticket)
    ensures forall k :: Offered(link, k) ==> Offered(link.(queue := link.queue + [copy]), k)
  {
    var more := link.(queue := link.queue + [copy]);
    assert more.queue[|link.queue|] == copy;
    forall k | Offered(link, k)
      ensures Offered(more, k)
    {
      if i :| 0 <= i < |link.queue| && link.queue[i].ticket == k {
        assert more.queue[i] == link.queue[i];
      }
    }
  }

  lemma {:induction false} OfferOffers(t: Topology, links: map<LinkId, LinkState>, ticket: nat, candidates: seq<LinkId>,
                                       k: nat, rolls: seq<real>)
    requires k <= |candidates| == |rolls|
    requires forall i :: 0 <= i < |candidates| ==> candidates[i] in links && candidates[i] in t.links
    ensures OffersStay(links, Offer(t, links, ticket, candidates, k, rolls), {})
    ensures forall i :: k <= i < |candidates| ==> Offered(Offer(t, links, ticket, candidates, k, rolls)[candidates[i]], ticket)
    decreases |candidates| - k
  {
    hide Offered;
    if k < |candidates| {
      var l := candidates[k];
      var extra := if rolls[k] < t.links[l].extraDelayRatio then t.links[l].extraDelay else 0.0;
      var copy := Outgoing(ticket, extra, candidates);
      var links' := links[l := links[l].(queue := links[l].queue + [copy])];
      CopyIsOffered(links[l], copy);
      OfferOffers(t, links', ticket, candidates, k + 1, rolls);
      var offered := Offer(t, links', ticket, candidates, k + 1, rolls);
      assert Offered(links'[l], copy.ticket) && copy.ticket == ticket;
      forall i | k <= i < |candidates|
        ensures Offered(offered[candidates[i]], ticket)
      {
        if i == k {
          assert candidates[i] == l && l in links';
        }
      }
      forall m, j: nat | m in links && Offered(links[m], j)
        ensures Offered(offered[m], j)
      {
        assert m in links' && Offered(links'[m], j);
      }
    }
  }

  lemma OnOfferAfterDispatch(t: Topology, s: Net, n: NodeId, rolls: seq<real>)
    requires t.Valid() && OnOffer(t, s) && CanDispatch(t, s, n, rolls)
    requires BuffersOrdered(s)
    ensures OnOffer(t, Dispatch(t, s, n, rolls))
  {
    hide Topology.Valid, LinkSound, Offer, Offered, OffersStay;
    var outbound := s.nodes[n].outbound;
    var ticket := outbound[0];
    var candidates := t.Candidates(n, s.accepted[ticket].packet.dest).value;
    OfferOffers(t, s.links, ticket, candidates, 0, rolls);
    var s' := Dispatch(t, s, n, rolls);
    forall k | 0 <= k < |s'.accepted| && k !in s'.handled
      ensures s'.accepted[k].node in t.nodes && s'.accepted[k].node in s'.nodes
      ensures k in s'.nodes[s'.accepted[k].node].outbound || OfferedToAll(t, s'.links, s'.accepted[k], k)
    {
      var m := s.accepted[k].node;
      if k == ticket {
        assert m == n;
      } else if k in s.nodes[m].outbound {
        assert outbound == [outbound[0]] + outbound[1..];
      } else {
        StillOffered(t, s.links, s'.links, {}, s.accepted[k], k);
      }
    }
  }

  // ---- Links ----------------------------------------------------------------------------------

  lemma OffersStayWithLink(links: map<LinkId, LinkState>, l: LinkId, link: LinkState, done: set<nat>)
    requires l in links && forall k: nat :: k !in done && Offered(links[l], k) ==> Offered(link, k)
    ensures OffersStay(links, links[l := link], done)
  {
    hide Offered;
  }

  lemma TakingKeepsOffers(link: LinkState, link': LinkState, k: nat)
    requires link.queue != [] && link'.queue == link.queue[1..] && link'.task.Busy? && link'.task.packet == link.queue[0]
    requires link.task.Idle? && Offered(link, k)
    ensures Offered(link', k)
  {
    var i :| 0 <= i < |link.queue| && link.queue[i].ticket == k;
    if i > 0 {
      assert link'.queue[i - 1] == link.queue[i];
    }
  }

  lemma OnOfferAfterTake(t: Topology, s: Net, l: LinkId)
    requires t.Valid() && Sound(t, s) && OnOffer(t, s) && l in s.links && s.links[l].task.Idle? && s.links[l].queue != []
    ensures OnOffer(t, Take(t, s, l))
  {
    hide Topology.Valid, OnOffer, Topology.TransmissionTime, NodeSound, Batch.At, Batch.Wait, Batch.CanSend, Offered, OffersStay;
    var link' := Take(t, s, l).links[l];
    forall k: nat | Offered(s.links[l], k)
      ensures Offered(link', k)
    {
      TakingKeepsOffers(s.links[l], link', k);
    }
    OffersStayWithLink(s.links, l, link', s.handled.Keys);
    OnOfferStays(t, s, Take(t, s, l));
  }

  lemma OnOfferAfterTaskChange(t: Topology, s: Net, l: LinkId, task: LinkTask)
    requires t.Valid() && OnOffer(t, s) && l in s.links && s.links[l].task.Busy?
    requires task.Busy? && task.packet.ticket == s.links[l].task.packet.ticket
    ensures OnOffer(t, WithTask(s, l, task))
  {
    hide Topology.Valid, OnOffer, OffersStay;
    OffersStayWithLink(s.links, l, s.links[l].(task := task), s.handled.Keys);
    OnOfferStays(t, s, WithTask(s, l, task));
  }

  /** A link is done with a packet that is handled by then. */
  lemma OnOfferAfterDone(t: Topology, s: Net, l: LinkId, s': Net)
    requires t.Valid() && OnOffer(t, s) && l in s.links && s.links[l].task.Busy?
    requires s'.accepted == s.accepted && s.handled.Keys <= s'.handled.Keys && s.links[l].task.packet.ticket in s'.handled
    requires s'.nodes.Keys == s.nodes.Keys && forall n :: n in s.nodes ==> s'.nodes[n].outbound == s.nodes[n].outbound
    requires l in s'.links && s'.links == s.links[l := s'.links[l]] && s'.links[l].queue == s.links[l].queue
    ensures OnOffer(t, s')
  {
    hide Topology.Valid, OnOffer, OffersStay;
    OffersStayWithLink(s.links, l, s'.links[l], s'.handled.Keys);
    OnOfferStays(t, s, s');
  }

  lemma FinishIsDone(t: Topology, s: Net, l: LinkId)
    requires Fine(t, s) && Sound(t, s) && InOffering(s, l)
    ensures var s' := Finish(t, s, l);
            && s'.accepted == s.accepted && s.handled.Keys <= s'.handled.Keys && s.links[l].task.packet.ticket in s'.handled
            && s'.nodes.Keys == s.nodes.Keys && (forall n :: n in s.nodes ==> s'.nodes[n].outbound == s.nodes[n].outbound)
            && l in s'.links && s'.links == s.links[l := s'.links[l]] && s'.links[l].queue == s.links[l].queue
  {
    hide Fine, Sound, Topology.Valid, Topology.TransmissionTime, Batch.Add;
    BusyFacts(t, s, l);
  }

  lemma OnOfferAfterStep(t: Topology, s: Net, a: Action)
    requires Queued(t, s) && t.Valid() && OnOffer(t, s) && Enabled(t, s, a)
    ensures OnOffer(t, Apply(t, s, a))
  {
    hide Queued, Fine, Sound, OnOffer, Inject, Land, Take, Finish, Dispatch, Read, LinkChange, NodeChange, WithTask, CanDispatch,
         Topology.Valid, CanWake, MustYield;
    QueuedIsSound(t, s);
    match a
    case Injecting(n, id, d, luck) => OnOfferAfterInject(t, s, n, id, d, luck);
    case Dispatching(n, rolls) =>
      assert BuffersOrdered(s) by { QueuedInOrder(t, s); }
      OnOfferAfterDispatch(t, s, n, rolls);
    case Taking(l) => OnOfferAfterTake(t, s, l);
    case Waking(l) => WakingKeepsTicket(t, s, l);
    case GivingWay(l) => YieldingKeepsTicket(t, s, l);
    case Finishing(l) =>
      FinishIsDone(t, s, l);
      OnOfferAfterDone(t, s, l, Finish(t, s, l));
    case Landing(l, x, luck) =>
      FineTarget(t, s, l);
      OnOfferAfterLand(t, s, l, x, luck);
    case Reading(n, x) => ReadingKeepsOffers(t, s, n, x);
    case LinkChanging(e) => LinkChangeKeepsOffers(t, s, e);
    case NodeChanging(e) => NodeChangeKeepsOffers(t, s, e);
    case Passing(until) => OnOfferQuietly(t, s, s.(now := until));
  }

  lemma WakingKeepsTicket(t: Topology, s: Net, l: LinkId)
    requires t.Valid() && Sound(t, s) && OnOffer(t, s) && CanWake(t, s, l)
    ensures OnOffer(t, WithTask(s, l, Busy(s.links[l].task.packet, Offering)))
  {
    hide Topology.Valid, OnOffer, WithTask;
    OnOfferAfterTaskChange(t, s, l, Busy(s.links[l].task.packet, Offering));
  }

  lemma YieldingKeepsTicket(t: Topology, s: Net, l: LinkId)
    requires t.Valid() && OnOffer(t, s) && InOffering(s, l) && MustYield(s, l)
    ensures OnOffer(t, GiveWay(s, l))
  {
    hide Topology.Valid, OnOffer, WithTask;
    var copy := s.links[l].task.packet;
    OnOfferAfterTaskChange(t, s, l, Busy(copy.(preferred := copy.preferred[1..]), Offering));
  }

  lemma QueuedInOrder(t: Topology, s: Net)
    requires Queued(t, s)
    ensures BuffersOrdered(s)
  {
    hide Topology.Valid, Fine, LinesOrdered, BuffersOrdered, AllWon;
  }

  lemma FineTarget(t: Topology, s: Net, l: LinkId)
    requires Fine(t, s) && l in s.links
    ensures t.Valid() && l in t.links && t.Target(l) in s.nodes && t.Target(l) in t.nodes
  {
    hide Topology.Valid, NodeSound, LinkSound;
  }

  lemma ReadingKeepsOffers(t: Topology, s: Net, n: NodeId, x: InTransit)
    requires t.Valid() && OnOffer(t, s) && n in s.nodes
    ensures OnOffer(t, Read(s, n, x))
  {
    hide Topology.Valid, OnOffer;
    OnOfferQuietly(t, s, Read(s, n, x));
  }

  lemma LinkChangeKeepsOffers(t: Topology, s: Net, e: LinkEvent)
    requires t.Valid() && OnOffer(t, s)
    ensures OnOffer(t, LinkChange(s, e))
  {
    hide Topology.Valid, OnOffer, ChangedLink;
    OnOfferQuietly(t, s, LinkChange(s, e));
  }

  lemma NodeChangeKeepsOffers(t: Topology, s: Net, e: NodeEvent)
    requires t.Valid() && OnOffer(t, s)
    ensures OnOffer(t, NodeChange(s, e))
  {
    hide Topology.Valid, OnOffer;
    OnOfferQuietly(t, s, NodeChange(s, e));
  }

  lemma OnOfferInitially(t: Topology)
    requires t.Valid()
    ensures OnOffer(t, Initial(t))
  {
    hide Topology.Valid;
  }

  /** In every run: a packet that a node holds waits in its channel, or is on offer to every link that leads on. */
  lemma {:induction false} HeldPacketsAreOffered(t: Topology, actions: seq<Action>)
    requires IsRun(t, actions)
    ensures t.Valid() && OnOffer(t, StateAfter(t, actions))
  {
    hide IsRun, StateAfter, Apply, Enabled, OnOffer, Queued, Topology.Valid;
    LastStep(t, actions);
    if actions == [] {
      OnOfferInitially(t);
    } else {
      HeldPacketsAreOffered(t, actions[..|actions| - 1]);
      RunIsQueued(t, actions[..|actions| - 1]);
      OnOfferAfterStep(t, StateAfter(t, actions[..|actions| - 1]), actions[|actions| - 1]);
    }
  }
}
