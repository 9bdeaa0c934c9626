/**
 Which links a packet is offered to, in which order they are preferred, with which delay, and how a
 link gives the others a chance before it sends.
 */
module Preferences {
  import opened Prelude
  import opened Trace
  import opened PacketPacer
  import opened Cidr
  import opened StableSort
  import opened Routing
  import opened Network
  import opened Soundness
  import opened Queues
  import opened Pacing
  import opened Ledger
  import opened TracedRuns
  import Termination

  // ---- The candidates -------------------------------------------------------------------------

  /**
   The links that a packet is offered to: those of the connected routes that lead to its destination
   come first, and then those of the other routes that do, from cheap to expensive.
   */
  lemma CandidatesInOrder(t: Topology, n: NodeId, dest: IpAddr, interfaces: seq<Interface>, linkTargets: map<IpAddr, IpAddr>)
    returns (first: seq<NodeRoute>, rest: seq<NodeRoute>)
    requires t.Valid() && n in t.nodes && ValidInterfaces(interfaces)
    requires t.nodes[n].routes == AllConnected(interfaces, linkTargets) + Sort(AllOthers(interfaces), Cheaper)
    requires t.Candidates(n, dest).Ok?
    ensures var walk, links := first + rest, t.Candidates(n, dest).value;
            && |links| == |walk|
            && forall i :: 0 <= i < |walk| ==>
                 (walk[i].via, walk[i].route.next) in t.linkAt && links[i] == t.linkAt[(walk[i].via, walk[i].route.next)]
    ensures forall r :: r in first <==> IsConnected(interfaces, linkTargets, r) && r.route.LeadsTo(dest)
    ensures forall r :: r in rest <==> IsOther(interfaces, r) && r.route.LeadsTo(dest)
    ensures forall i, j :: 0 <= i < j < |rest| ==>
              || rest[i].route.cost < rest[j].route.cost
              || (rest[i].route.cost == rest[j].route.cost && rest[i].via.bits as nat <= rest[j].via.bits as nat)
  {
    hide Topology.Valid, IsConnected, IsOther, Sort, Route.LeadsTo, AllConnected, AllOthers, FromCheapOn;
    first, rest := WalkOrder(interfaces, linkTargets, dest);
    CheapOnMeans(rest);
    LinksOfAreLinks(first + rest, t.linkAt);
  }

  lemma CheapOnMeans(routes: seq<NodeRoute>)
    requires FromCheapOn(routes)
    ensures forall i, j :: 0 <= i < j < |routes| ==>
              || routes[i].route.cost < routes[j].route.cost
              || (routes[i].route.cost == routes[j].route.cost && routes[i].via.bits as nat <= routes[j].via.bits as nat)
  {
  }

  // ---- The copies -----------------------------------------------------------------------------

  /** The copies that go to link `l`: one for each place it has among the candidates, held up if the roll says so. */
  function Copies(info: LinkInfo, l: LinkId, ticket: nat, all: seq<LinkId>, candidates: seq<LinkId>, rolls: seq<real>)
    : seq<Outgoing>
    requires |rolls| == |candidates|
  {
    if candidates == [] then []
    else
      (if candidates[0] != l then []
       else if rolls[0] < info.extraDelayRatio then [Outgoing(ticket, info.extraDelay, all)]
       else [Outgoing(ticket, 0.0, all)])
      + Copies(info, l, ticket, all, candidates[1..], rolls[1..])
  }

  lemma {:induction false} OfferCopies(t: Topology, links: map<LinkId, LinkState>, ticket: nat, candidates: seq<LinkId>, k: nat,
                                       rolls: seq<real>, l: LinkId)
    requires k <= |candidates| == |rolls| && l in links && l in t.links
    requires forall i :: 0 <= i < |candidates| ==> candidates[i] in links && candidates[i] in t.links
    ensures Offer(t, links, ticket, candidates, k, rolls)[l]
         == links[l].(queue := links[l].queue + Copies(t.links[l], l, ticket, candidates, candidates[k..], rolls[k..]))
    decreases |candidates| - k
  {
    var q := links[l].queue;
    if k == |candidates| {
      assert q + [] == q;
    } else {
      var m := candidates[k];
      var extra := if rolls[k] < t.links[m].extraDelayRatio then t.links[m].extraDelay else 0.0;
      var copy := Outgoing(ticket, extra, candidates);
      var more := Copies(t.links[l], l, ticket, candidates, candidates[k + 1..], rolls[k + 1..]);
      OfferCopies(t, links[m := links[m].(queue := links[m].queue + [copy])], ticket, candidates, k + 1, rolls, l);
      assert candidates[k..][1..] == candidates[k + 1..] && rolls[k..][1..] == rolls[k + 1..];
      assert q + [copy] + more == q + ([copy] + more);
      assert [] + more == more;
    }
  }

  /**
   In every run, when a node's buffer processor takes a packet: it is the first one in the channel, and
   each link gets the copies that are for it at the end of its queue, and nothing else changes in it.
   */
  lemma OffersAreExact(t: Topology, actions: seq<Action>, n: NodeId, rolls: seq<real>, l: LinkId)
    requires IsRun(t, actions) && IsRun(t, actions + [Dispatching(n, rolls)]) && l in t.links
    ensures t.Valid() && n in t.nodes && n in StateAfter(t, actions).nodes && StateAfter(t, actions).nodes[n].outbound != []
    ensures var s, after := StateAfter(t, actions), StateAfter(t, actions + [Dispatching(n, rolls)]);
            var ticket := s.nodes[n].outbound[0];
            && ticket < |s.accepted| && t.Candidates(n, s.accepted[ticket].packet.dest).Ok?
            && (var links := t.Candidates(n, s.accepted[ticket].packet.dest).value;
                && |rolls| == |links| && l in s.links && l in after.links
                && after.links[l] == s.links[l].(queue := s.links[l].queue + Copies(t.links[l], l, ticket, links, links, rolls)))
            && n in after.nodes && after.nodes[n].outbound == s.nodes[n].outbound[1..]
  {
    hide IsRun, StateAfter, Topology.Valid, CanDispatch, Dispatch, Copies;
    var a := Dispatching(n, rolls);
    assert (actions + [a])[..|actions|] == actions;
    LastStep(t, actions + [a]);
    DispatchFacts(t, StateAfter(t, actions), n, rolls, l);
    DispatchOffers(t, StateAfter(t, actions), n, rolls, l);
  }

  lemma DispatchOffers(t: Topology, s: Net, n: NodeId, rolls: seq<real>, l: LinkId)
    requires CanDispatch(t, s, n, rolls) && t.Valid() && n in t.nodes && l in t.links && l in s.links
    requires s.nodes[n].outbound[0] < |s.accepted|
    ensures var ticket, s' := s.nodes[n].outbound[0], Dispatch(t, s, n, rolls);
            var links := t.Candidates(n, s.accepted[ticket].packet.dest).value;
            && |rolls| == |links| && l in s'.links && n in s'.nodes
            && s'.links[l] == s.links[l].(queue := s.links[l].queue + Copies(t.links[l], l, ticket, links, links, rolls))
            && s'.nodes[n].outbound == s.nodes[n].outbound[1..]
  {
    hide Topology.Valid, CanDispatch, Offer, Copies;
    DispatchFacts(t, s, n, rolls, l);
    var ticket := s.nodes[n].outbound[0];
    var links := t.Candidates(n, s.accepted[ticket].packet.dest).value;
    OfferCopies(t, s.links, ticket, links, 0, rolls, l);
    assert links[0..] == links && rolls[0..] == rolls;
  }

  lemma DispatchFacts(t: Topology, s: Net, n: NodeId, rolls: seq<real>, l: LinkId)
    requires CanDispatch(t, s, n, rolls) && l in t.links
    ensures t.Valid() && n in t.nodes && n in s.nodes && s.nodes[n].outbound != [] && l in s.links
    ensures var ticket := s.nodes[n].outbound[0];
            && ticket < |s.accepted| && t.Candidates(n, s.accepted[ticket].packet.dest).Ok?
            && (var links := t.Candidates(n, s.accepted[ticket].packet.dest).value;
                && |links| == |rolls|
                && forall i :: 0 <= i < |links| ==> links[i] in s.links && links[i] in t.links)
  {
    hide Topology.Valid, LinkSound;
  }

  // ---- Giving way -----------------------------------------------------------------------------

  /** How often the task of link `l` gave way since it last took a packet. */
  function Yields(actions: seq<Action>, l: LinkId): nat {
    if actions == [] then 0
    else
      var init, last := actions[..|actions| - 1], actions[|actions| - 1];
      if last == Taking(l) then 0 else Yields(init, l) + if last == GivingWay(l) then 1 else 0
  }

  /** The links that a buffered packet is offered to. */
  ghost predicate IsOfferedTo(t: Topology, b: Buffered, links: seq<LinkId>)
    requires t.Valid()
  {
    b.node in t.nodes && t.Candidates(b.node, b.packet.dest) == Ok(links)
  }

  /**
   A copy in the hands of link `l`, which gave way `turns` times for it: to all the links before it
   among the candidates, but not to itself. It is held up by nothing or by what the link may add.
   */
  ghost predicate CopyIsRight(t: Topology, accepted: seq<Buffered>, l: LinkId, copy: Outgoing, turns: nat)
    requires t.Valid() && l in t.links
  {
    && copy.ticket < |accepted| && (copy.extraDelay == 0.0 || copy.extraDelay == t.links[l].extraDelay)
    && exists links ::
         && IsOfferedTo(t, accepted[copy.ticket], links) && l in links
         && turns <= |links| && copy.preferred == links[turns..] && l !in links[..turns]
  }

  ghost predicate LinkIsRight(t: Topology, accepted: seq<Buffered>, l: LinkId, link: LinkState, turns: nat)
    requires t.Valid() && l in t.links
  {
    && (forall i :: 0 <= i < |link.queue| ==> CopyIsRight(t, accepted, l, link.queue[i], 0))
    && (link.task.Busy? ==> CopyIsRight(t, accepted, l, link.task.packet, turns))
    && (link.task.Busy? && link.task.phase.Sleeping? ==> turns == 0)
  }

  ghost predicate CopiesAreRight(t: Topology, s: Net, actions: seq<Action>)
    requires t.Valid()
  {
    forall l :: l in s.links && l in t.links ==> LinkIsRight(t, s.accepted, l, s.links[l], Yields(actions, l))
  }

  lemma YieldsAppend(actions: seq<Action>, a: Action, l: LinkId)
    ensures Yields(actions + [a], l) == if a == Taking(l) then 0 else Yields(actions, l) + if a == GivingWay(l) then 1 else 0
  {
    assert (actions + [a])[..|actions|] == actions;
  }

  lemma CopyStaysRight(t: Topology, accepted: seq<Buffered>, more: seq<Buffered>, l: LinkId, copy: Outgoing, turns: nat)
    requires t.Valid() && l in t.links && CopyIsRight(t, accepted, l, copy, turns)
    requires |accepted| <= |more| && more[..|accepted|] == accepted
    ensures CopyIsRight(t, more, l, copy, turns)
  {
    hide Topology.Valid, IsOfferedTo;
    assert more[copy.ticket] == more[..|accepted|][copy.ticket];
  }

  lemma LinkStaysRight(t: Topology, accepted: seq<Buffered>, more: seq<Buffered>, l: LinkId, link: LinkState, link': LinkState,
                       turns: nat)
    requires t.Valid() && l in t.links && LinkIsRight(t, accepted, l, link, turns)
    requires |accepted| <= |more| && more[..|accepted|] == accepted
    requires link'.queue == link.queue && (link'.task == link.task || link'.task.Idle?)
    ensures LinkIsRight(t, more, l, link', turns)
  {
    hide Topology.Valid, CopyIsRight;
    forall i | 0 <= i < |link'.queue|
      ensures CopyIsRight(t, more, l, link'.queue[i], 0)
    {
      CopyStaysRight(t, accepted, more, l, link.queue[i], 0);
    }
    if link'.task.Busy? {
      CopyStaysRight(t, accepted, more, l, link.task.packet, turns);
    }
  }

  /** No link takes a packet or gives way. */
  ghost predicate SameHands(s: Net, s': Net) {
    && s'.links.Keys == s.links.Keys
    && |s.accepted| <= |s'.accepted| && s'.accepted[..|s.accepted|] == s.accepted
    && forall l :: l in s.links ==>
         s'.links[l].queue == s.links[l].queue && (s'.links[l].task == s.links[l].task || s'.links[l].task.Idle?)
  }

  lemma CopiesStayRight(t: Topology, s: Net, s': Net, actions: seq<Action>, a: Action)
    requires t.Valid() && CopiesAreRight(t, s, actions) && SameHands(s, s') && !a.Taking? && !a.GivingWay?
    ensures CopiesAreRight(t, s', actions + [a])
  {
    hide Topology.Valid, LinkIsRight, Yields;
    forall l | l in s'.links && l in t.links
      ensures LinkIsRight(t, s'.accepted, l, s'.links[l], Yields(actions + [a], l))
    {
      YieldsAppend(actions, a, l);
      LinkStaysRight(t, s.accepted, s'.accepted, l, s.links[l], s'.links[l], Yields(actions, l));
    }
  }

  lemma ForwardKeepsLinks(t: Topology, s: Net, n: NodeId, p: Packet, luck: Luck)
    requires n in s.nodes && n in t.nodes
    ensures Forward(t, s, n, p, luck).links == s.links
  {
    hide Enqueue, Deliver;
  }

  lemma InjectKeepsHands(t: Topology, s: Net, n: NodeId, id: PacketId, d: Datagram, luck: Luck)
    requires Sound(t, s) && n in s.nodes && n in t.nodes
    ensures SameHands(s, Inject(t, s, n, id, d, luck))
  {
    hide Sound, Forward;
    InjectKeepsPace(t, s, n, id, d, luck);
    ForwardKeepsLinks(t, s.(nextNumber := s.nextNumber + 1, ids := s.ids + {id}), n,
                      Packet(id, s.nextNumber, d.payload, d.dest, d.port, d.ttl, false), luck);
  }

  lemma LandKeepsHands(t: Topology, s: Net, l: LinkId, x: InTransit, luck: Luck)
    requires Sound(t, s) && t.Valid() && l in s.links && l in t.links && t.Target(l) in s.nodes && t.Target(l) in t.nodes
    ensures SameHands(s, Land(t, s, l, x, luck))
  {
    hide Sound, Forward, Topology.Valid;
    LandKeepsPace(t, s, l, x, luck);
    ForwardKeepsLinks(t, TakeOff(s, l, x), t.Target(l), x.packet, luck);
  }

  lemma LinkChangeKeepsHands(s: Net, e: LinkEvent)
    ensures SameHands(s, LinkChange(s, e))
  {
    hide ChangedLink;
  }

  lemma NodeChangeKeepsHands(s: Net, e: NodeEvent)
    ensures SameHands(s, NodeChange(s, e))
  {
  }

  lemma ReadKeepsHands(s: Net, n: NodeId, x: InTransit)
    requires n in s.nodes
    ensures SameHands(s, Read(s, n, x))
  {
  }

  lemma FinishKeepsHands(t: Topology, s: Net, l: LinkId)
    requires Fine(t, s) && Sound(t, s) && InOffering(s, l)
    ensures SameHands(s, Finish(t, s, l))
  {
    hide Fine, Sound, Topology.Valid, Topology.TransmissionTime, Batch.Add;
    BusyFacts(t, s, l);
  }

  lemma PassingKeepsHands(s: Net, until: Duration)
    ensures SameHands(s, s.(now := until))
  {
  }

  lemma CopiesRightAfterTask(t: Topology, s: Net, s': Net, l: LinkId, actions: seq<Action>, a: Action)
    requires t.Valid() && CopiesAreRight(t, s, actions) && l in s.links && l in t.links && s'.links.Keys == s.links.Keys
    requires s'.accepted == s.accepted && forall m :: m in s.links && m != l ==> s'.links[m] == s.links[m]
    requires forall m :: m != l ==> a != Taking(m) && a != GivingWay(m)
    requires LinkIsRight(t, s.accepted, l, s'.links[l], Yields(actions + [a], l))
    ensures CopiesAreRight(t, s', actions + [a])
  {
    hide Topology.Valid, LinkIsRight, Yields;
    forall m | m in s'.links && m in t.links
      ensures LinkIsRight(t, s'.accepted, m, s'.links[m], Yields(actions + [a], m))
    {
      if m != l {
        YieldsAppend(actions, a, m);
      }
    }
  }

  lemma TakenIsRight(t: Topology, accepted: seq<Buffered>, l: LinkId, link: LinkState, link': LinkState, turns: nat)
    requires t.Valid() && l in t.links && LinkIsRight(t, accepted, l, link, turns) && link.queue != []
    requires link'.queue == link.queue[1..] && link'.task.Busy? && link'.task.packet == link.queue[0]
    ensures LinkIsRight(t, accepted, l, link', 0)
  {
    hide Topology.Valid, CopyIsRight;
  }

  lemma WokenIsRight(t: Topology, accepted: seq<Buffered>, l: LinkId, link: LinkState, turns: nat)
    requires t.Valid() && l in t.links && LinkIsRight(t, accepted, l, link, turns) && link.task.Busy?
    ensures LinkIsRight(t, accepted, l, link.(task := Busy(link.task.packet, Offering)), turns)
  {
    hide Topology.Valid, CopyIsRight;
  }

  lemma CopyAfterYield(t: Topology, accepted: seq<Buffered>, l: LinkId, copy: Outgoing, turns: nat)
    requires t.Valid() && l in t.links && CopyIsRight(t, accepted, l, copy, turns)
    requires copy.preferred != [] && copy.preferred[0] != l
    ensures CopyIsRight(t, accepted, l, copy.(preferred := copy.preferred[1..]), turns + 1)
  {
    hide Topology.Valid, IsOfferedTo;
    var links :| IsOfferedTo(t, accepted[copy.ticket], links) && l in links && turns <= |links|
                 && copy.preferred == links[turns..] && l !in links[..turns];
    assert links[turns..][1..] == links[turns + 1..];
    assert links[..turns + 1] == links[..turns] + [links[turns]];
  }

  lemma YieldedIsRight(t: Topology, accepted: seq<Buffered>, l: LinkId, link: LinkState, turns: nat)
    requires t.Valid() && l in t.links && LinkIsRight(t, accepted, l, link, turns) && link.task.Busy?
    requires link.task.packet.preferred != [] && link.task.packet.preferred[0] != l
    ensures var copy := link.task.packet;
            LinkIsRight(t, accepted, l, link.(task := Busy(copy.(preferred := copy.preferred[1..]), Offering)), turns + 1)
  {
    hide Topology.Valid, CopyIsRight;
    CopyAfterYield(t, accepted, l, link.task.packet, turns);
  }

  lemma {:induction false} CopiesFit(t: Topology, accepted: seq<Buffered>, l: LinkId, ticket: nat, all: seq<LinkId>,
                                     candidates: seq<LinkId>, rolls: seq<real>)
    requires t.Valid() && l in t.links && |rolls| == |candidates| && ticket < |accepted|
    requires IsOfferedTo(t, accepted[ticket], all) && (l in candidates ==> l in all)
    ensures forall i :: 0 <= i < |Copies(t.links[l], l, ticket, all, candidates, rolls)| ==>
              CopyIsRight(t, accepted, l, Copies(t.links[l], l, ticket, all, candidates, rolls)[i], 0)
  {
    hide Topology.Valid, IsOfferedTo;
    if candidates != [] {
      CopiesFit(t, accepted, l, ticket, all, candidates[1..], rolls[1..]);
      assert all[0..] == all;
    }
  }

  lemma OfferedIsRight(t: Topology, accepted: seq<Buffered>, l: LinkId, link: LinkState, more: seq<Outgoing>, turns: nat)
    requires t.Valid() && l in t.links && LinkIsRight(t, accepted, l, link, turns)
    requires forall i :: 0 <= i < |more| ==> CopyIsRight(t, accepted, l, more[i], 0)
    ensures LinkIsRight(t, accepted, l, link.(queue := link.queue + more), turns)
  {
    hide Topology.Valid, CopyIsRight;
  }

  lemma CopiesRightAfterDispatch(t: Topology, s: Net, n: NodeId, rolls: seq<real>, actions: seq<Action>)
    requires Queued(t, s) && t.Valid() && CopiesAreRight(t, s, actions) && CanDispatch(t, s, n, rolls)
    ensures CopiesAreRight(t, Dispatch(t, s, n, rolls), actions + [Dispatching(n, rolls)])
  {
    hide Topology.Valid, LinkIsRight, Yields, CanDispatch, Dispatch, Copies, CopyIsRight, Queued;
    var s' := Dispatch(t, s, n, rolls);
    DispatchKeeps(t, s, n, rolls);
    forall l | l in s'.links && l in t.links
      ensures LinkIsRight(t, s'.accepted, l, s'.links[l], Yields(actions + [Dispatching(n, rolls)], l))
    {
      YieldsAppend(actions, Dispatching(n, rolls), l);
      DispatchFacts(t, s, n, rolls, l);
      DispatchOffers(t, s, n, rolls, l);
      FirstIsOffered(t, s, n, rolls);
      var ticket := s.nodes[n].outbound[0];
      var links := t.Candidates(n, s.accepted[ticket].packet.dest).value;
      CopiesFit(t, s.accepted, l, ticket, links, links, rolls);
      OfferedIsRight(t, s.accepted, l, s.links[l], Copies(t.links[l], l, ticket, links, links, rolls), Yields(actions, l));
    }
  }

  lemma DispatchKeeps(t: Topology, s: Net, n: NodeId, rolls: seq<real>)
    requires CanDispatch(t, s, n, rolls)
    ensures Dispatch(t, s, n, rolls).accepted == s.accepted && Dispatch(t, s, n, rolls).links.Keys == s.links.Keys
  {
    hide Topology.Valid, LinkSound, Offer;
  }

  /** The first packet in the channel of a node is one that the node accepted. */
  lemma FirstIsOffered(t: Topology, s: Net, n: NodeId, rolls: seq<real>)
    requires Queued(t, s) && t.Valid() && CanDispatch(t, s, n, rolls)
    ensures var ticket := s.nodes[n].outbound[0];
            && ticket < |s.accepted| && n in t.nodes && t.Candidates(n, s.accepted[ticket].packet.dest).Ok?
            && IsOfferedTo(t, s.accepted[ticket], t.Candidates(n, s.accepted[ticket].packet.dest).value)
  {
    hide Topology.Valid, Timely, LinesOrdered, AllWon, LinkSound;
  }

  lemma CopiesRightAfterStep(t: Topology, s: Net, actions: seq<Action>, a: Action)
    requires Queued(t, s) && t.Valid() && CopiesAreRight(t, s, actions) && Enabled(t, s, a)
    ensures CopiesAreRight(t, Apply(t, s, a), actions + [a])
  {
    hide Queued, Fine, Sound, CopiesAreRight, SameHands, Inject, Land, Take, Finish, Dispatch, Read, LinkChange, NodeChange,
         CanDispatch, WithTask, CameUp, LinkIsRight, Yields, Topology.Valid;
    QueuedIsSound(t, s);
    match a
    case Injecting(n, id, d, luck) =>
      InjectKeepsHands(t, s, n, id, d, luck);
      CopiesStayRight(t, s, Apply(t, s, a), actions, a);
    case Dispatching(n, rolls) => CopiesRightAfterDispatch(t, s, n, rolls, actions);
    case Taking(l) => CopiesRightAfterTake(t, s, l, actions);
    case Waking(l) => CopiesRightAfterWake(t, s, l, actions);
    case GivingWay(l) => CopiesRightAfterYield(t, s, l, actions);
    case Finishing(l) =>
      FinishKeepsHands(t, s, l);
      CopiesStayRight(t, s, Apply(t, s, a), actions, a);
    case Landing(l, x, luck) =>
      TargetIsNode(t, s, l);
      LandKeepsHands(t, s, l, x, luck);
      CopiesStayRight(t, s, Apply(t, s, a), actions, a);
    case Reading(n, x) =>
      ReadKeepsHands(s, n, x);
      CopiesStayRight(t, s, Apply(t, s, a), actions, a);
    case LinkChanging(e) =>
      LinkChangeKeepsHands(s, e);
      CopiesStayRight(t, s, Apply(t, s, a), actions, a);
    case NodeChanging(e) =>
      NodeChangeKeepsHands(s, e);
      CopiesStayRight(t, s, Apply(t, s, a), actions, a);
    case Passing(until) =>
      PassingKeepsHands(s, until);
      CopiesStayRight(t, s, Apply(t, s, a), actions, a);
  }

  lemma TakeHands(t: Topology, s: Net, l: LinkId)
    requires Sound(t, s) && l in s.links && s.links[l].task.Idle? && s.links[l].queue != []
    ensures l in t.links
    ensures var s' := Take(t, s, l);
            && s'.accepted == s.accepted && s'.links.Keys == s.links.Keys
            && (forall m :: m in s.links && m != l ==> s'.links[m] == s.links[m])
            && s'.links[l].queue == s.links[l].queue[1..]
            && s'.links[l].task.Busy? && s'.links[l].task.packet == s.links[l].queue[0]
  {
    hide Topology.Valid, Topology.TransmissionTime, NodeSound, Batch.At, Batch.Wait, Batch.CanSend;
  }

  lemma CopiesRightAfterTake(t: Topology, s: Net, l: LinkId, actions: seq<Action>)
    requires Sound(t, s) && t.Valid() && CopiesAreRight(t, s, actions)
    requires l in s.links && s.links[l].task.Idle? && s.links[l].queue != []
    ensures CopiesAreRight(t, Take(t, s, l), actions + [Taking(l)])
  {
    hide Sound, Topology.Valid, LinkIsRight, Yields, Take;
    TakeHands(t, s, l);
    YieldsAppend(actions, Taking(l), l);
    TakenIsRight(t, s.accepted, l, s.links[l], Take(t, s, l).links[l], Yields(actions, l));
    CopiesRightAfterTask(t, s, Take(t, s, l), l, actions, Taking(l));
  }

  lemma CopiesRightAfterWake(t: Topology, s: Net, l: LinkId, actions: seq<Action>)
    requires Sound(t, s) && t.Valid() && CopiesAreRight(t, s, actions) && CanWake(t, s, l)
    ensures CopiesAreRight(t, WithTask(s, l, Busy(s.links[l].task.packet, Offering)), actions + [Waking(l)])
  {
    hide Topology.Valid, LinkIsRight, Yields, CameUp, NodeSound, LinkSound;
    YieldsAppend(actions, Waking(l), l);
    WokenIsRight(t, s.accepted, l, s.links[l], Yields(actions, l));
    CopiesRightAfterTask(t, s, WithTask(s, l, Busy(s.links[l].task.packet, Offering)), l, actions, Waking(l));
  }

  lemma CopiesRightAfterYield(t: Topology, s: Net, l: LinkId, actions: seq<Action>)
    requires Sound(t, s) && t.Valid() && CopiesAreRight(t, s, actions) && InOffering(s, l) && MustYield(s, l)
    ensures CopiesAreRight(t, GiveWay(s, l), actions + [GivingWay(l)])
  {
    hide Topology.Valid, LinkIsRight, Yields, NodeSound, LinkSound;
    YieldsAppend(actions, GivingWay(l), l);
    YieldedIsRight(t, s.accepted, l, s.links[l], Yields(actions, l));
    CopiesRightAfterTask(t, s, GiveWay(s, l), l, actions, GivingWay(l));
  }

  lemma NoCopies(t: Topology)
    requires t.Valid()
    ensures CopiesAreRight(t, Initial(t), [])
  {
    hide Topology.Valid;
  }

  lemma {:induction false} RunCopiesAreRight(t: Topology, actions: seq<Action>)
    requires IsRun(t, actions)
    ensures t.Valid() && CopiesAreRight(t, StateAfter(t, actions), actions)
  {
    hide IsRun, StateAfter, Apply, Enabled, CopiesAreRight, Queued, Topology.Valid;
    LastStep(t, actions);
    if actions == [] {
      NoCopies(t);
    } else {
      var init, last := actions[..|actions| - 1], actions[|actions| - 1];
      assert init + [last] == actions;
      RunCopiesAreRight(t, init);
      RunIsQueued(t, init);
      CopiesRightAfterStep(t, StateAfter(t, init), init, last);
    }
  }

  /**
   In every run, a link that sends or drops a packet gave way for it first: as many times as there are
   links before it among those the packet is offered to, and no more.
   */
  lemma PreferredComeFirst(t: Topology, actions: seq<Action>, l: LinkId) returns (links: seq<LinkId>)
    requires IsRun(t, actions) && IsRun(t, actions + [Finishing(l)]) && InOffering(StateAfter(t, actions), l)
    requires !Handled(StateAfter(t, actions), l)
    ensures t.Valid() && StateAfter(t, actions).links[l].task.packet.ticket < |StateAfter(t, actions).accepted|
    ensures var b := StateAfter(t, actions).accepted[StateAfter(t, actions).links[l].task.packet.ticket];
            b.node in t.nodes && t.Candidates(b.node, b.packet.dest) == Ok(links)
    ensures Yields(actions, l) < |links| && links[Yields(actions, l)] == l && l !in links[..Yields(actions, l)]
  {
    hide IsRun, StateAfter, Topology.Valid, Yields, Sound, Queued;
    assert (actions + [Finishing(l)])[..|actions|] == actions;
    LastStep(t, actions + [Finishing(l)]);
    RunCopiesAreRight(t, actions);
    RunIsQueued(t, actions);
    var s := StateAfter(t, actions);
    assert l in t.links by { LinkIsThere(t, s, l); }
    assert LinkIsRight(t, s.accepted, l, s.links[l], Yields(actions, l));
    links := OfferedLinks(t, s.accepted, l, s.links[l].task.packet, Yields(actions, l));
  }

  lemma LinkIsThere(t: Topology, s: Net, l: LinkId)
    requires Sound(t, s) && l in s.links
    ensures l in t.links
  {
    hide NodeSound, LinkSound;
  }

  lemma OfferedLinks(t: Topology, accepted: seq<Buffered>, l: LinkId, copy: Outgoing, turns: nat) returns (links: seq<LinkId>)
    requires t.Valid() && l in t.links && CopyIsRight(t, accepted, l, copy, turns)
    requires copy.preferred == [] || copy.preferred[0] == l
    ensures copy.ticket < |accepted| && IsOfferedTo(t, accepted[copy.ticket], links)
    ensures turns < |links| && links[turns] == l && l !in links[..turns]
  {
    hide Topology.Valid, IsOfferedTo;
    links :| IsOfferedTo(t, accepted[copy.ticket], links) && l in links
             && turns <= |links| && copy.preferred == links[turns..] && l !in links[..turns];
    assert links == links[..turns] + links[turns..];
    assert l in links[turns..];
  }

  // ---- On the way -----------------------------------------------------------------------------

  /**
   In every run, a packet that is sent over a link is on its way for exactly the delay that the events
   in the log give the link at this moment, and the extra delay of the link or none.
   */
  lemma SendIsExact(t: Topology, actions: seq<Action>, l: LinkId) returns (extra: Duration)
    requires IsRun(t, actions) && IsRun(t, actions + [Finishing(l)]) && Termination.Sends(StateAfter(t, actions), l)
    ensures t.Valid() && l in t.links && l in StateAfter(t, actions + [Finishing(l)]).links
    ensures extra == 0.0 || extra == t.links[l].extraDelay
    ensures var s, after := StateAfter(t, actions), StateAfter(t, actions + [Finishing(l)]);
            after.links[l].inTransit
            == s.links[l].inTransit
               + multiset{InTransit(s.accepted[s.links[l].task.packet.ticket].packet, s.now,
                                    DelayInEffect(s.log, l, t.links[l].delay) + extra)}
  {
    hide IsRun, StateAfter, Topology.Valid, Yields, Sound, Queued, Logged, ProperLog, Fits, Finish, DelayInEffect, LinkIsRight,
         ClearedFromBuffer, Served;
    assert (actions + [Finishing(l)])[..|actions|] == actions;
    LastStep(t, actions + [Finishing(l)]);
    RunCopiesAreRight(t, actions);
    RunIsQueued(t, actions);
    RunsAreTraced(t, actions, t.nodes.Keys);
    var s := StateAfter(t, actions);
    QueuedIsSound(t, s);
    LinkIsThere(t, s, l);
    FinishPutsOn(t, s, l);
    DelayIsLogged(t, s, l);
    extra := s.links[l].task.packet.extraDelay;
    ExtraIsRight(t, s.accepted, l, s.links[l], Yields(actions, l));
  }

  lemma FinishPutsOn(t: Topology, s: Net, l: LinkId)
    requires Fine(t, s) && Sound(t, s) && Termination.Sends(s, l)
    ensures l in Finish(t, s, l).links
    ensures var copy := s.links[l].task.packet;
            Finish(t, s, l).links[l].inTransit
            == s.links[l].inTransit + multiset{InTransit(s.accepted[copy.ticket].packet, s.now, s.links[l].delay + copy.extraDelay)}
  {
    hide Fine, Sound, Topology.Valid, Topology.TransmissionTime, Batch.Add;
    BusyFacts(t, s, l);
  }

  lemma DelayIsLogged(t: Topology, s: Net, l: LinkId)
    requires Logged(t, s) && l in s.links && l in t.links
    ensures s.links[l].delay == DelayInEffect(s.log, l, t.links[l].delay)
  {
    hide NodesLogged, LinksLogged, AirsLogged, TicketsLogged, SendsLogged, DelayInEffect, LinkSeen, LastDrop, DownAt;
    LinkIsLogged(t, s, l);
  }

  lemma ExtraIsRight(t: Topology, accepted: seq<Buffered>, l: LinkId, link: LinkState, turns: nat)
    requires t.Valid() && l in t.links && LinkIsRight(t, accepted, l, link, turns) && link.task.Busy?
    ensures link.task.packet.extraDelay == 0.0 || link.task.packet.extraDelay == t.links[l].extraDelay
  {
    hide Topology.Valid, IsOfferedTo;
  }
}
