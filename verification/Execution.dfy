/**
 The objects of the network carry out any run: after each step their state is the one that the
 run leads to, and what the program asserts on the way holds.
 */
module Execution {
  import opened Prelude
  import opened Trace
  import opened PacketPacer
  import opened Network
  import opened InboundQueue
  import opened Soundness
  import opened Pacing
  import opened StableSort
  import opened Replay
  import opened AcceptedLogs
  import opened TracedRuns
  import opened Ledger
  import opened Acceptance
  import opened SimulationVerifier
  import Objects = InMemoryNetwork

  /** The network is in the state that `run` leads to. */
  ghost predicate IsAt(network: Objects.InMemoryNetwork, run: seq<Action>)
    reads network.Repr()
  {
    && network.Distinct() && network.handled == network.handledHow.Keys
    && IsRun(network.topology, run) && network.View() == StateAfter(network.topology, run)
  }

  lemma Facts(network: Objects.InMemoryNetwork, run: seq<Action>)
    requires IsAt(network, run)
    ensures network.Valid() && network.Distinct() && network.handled == network.handledHow.Keys
    ensures Sound(network.topology, network.View()) && IsRun(network.topology, run)
    ensures network.View() == StateAfter(network.topology, run)
  {
    hide Timely, Sound, IsRun, StateAfter, Objects.NodeStates, Objects.LinkStates, Objects.ApartNodes, Objects.ApartLinks;
    RunIsFine(network.topology, run);
  }

  lemma StateFacts(network: Objects.InMemoryNetwork)
    ensures network.View().now == network.now && network.View().accepted == network.accepted
    ensures network.View().handled == network.handledHow && network.View().ids == network.ids
    ensures network.View().log == network.tracer.steps
    ensures network.View().nodes.Keys == network.nodes.Keys && network.View().links.Keys == network.links.Keys
    ensures forall l :: l in network.links ==> network.View().links[l] == network.links[l].State()
    ensures forall n :: n in network.nodes ==> network.View().nodes[n] == network.nodes[n].State()
  {
  }

  /** When a link is to finish its round, the packet was handled, or cleared from the buffer, or may be sent. */
  lemma MayFinish(network: Objects.InMemoryNetwork, run: seq<Action>, l: LinkId)
    requires IsAt(network, run) && Enabled(network.topology, network.View(), Finishing(l))
    ensures l in network.links && network.links[l].task.Busy? && InOffering(network.View(), l)
    ensures var ticket := network.links[l].task.packet.ticket;
            && ticket < |network.accepted|
            && (|| ticket in network.handled
                || (network.accepted[ticket].node in network.View().nodes && ClearedFromBuffer(network.View(), ticket))
                || network.ReadyToSend(l))
  {
    hide IsAt, Sound, IsRun, StateAfter, Topology.Valid, Batch.CanSend, PacketDelay, Objects.InMemoryNetwork.View,
         Objects.InMemoryNetwork.Distinct, MustYield;
    Facts(network, run);
    StateFacts(network);
    network.LinkFacts(l);
    var ticket := network.links[l].task.packet.ticket;
    network.TicketFacts(ticket);
    if ticket !in network.handled {
      AssertionsHold(network.topology, run, l);
    }
  }

  lemma NodeExists(network: Objects.InMemoryNetwork, a: Action)
    requires network.Valid() && Enabled(network.topology, network.View(), a) && (a.Injecting? || a.Dispatching? || a.Reading?)
    ensures a.node in network.nodes && a.node in network.topology.nodes
  {
    hide LinkSound, NodeSound, Objects.ApartNodes, Objects.ApartLinks;
    StateFacts(network);
  }

  lemma LinksArePart(network: Objects.InMemoryNetwork)
    ensures network.links.Values <= network.Repr()
  {
  }

  method PerformAtNode(network: Objects.InMemoryNetwork, a: Action)
    requires network.Valid() && Enabled(network.topology, network.View(), a)
    requires a.Injecting? || a.Dispatching? || a.Reading?
    modifies network.Repr()
    ensures network.View() == Apply(network.topology, old(network.View()), a)
    ensures network.handled == old(network.handled) && network.handledHow == old(network.handledHow)
  {
    hide Sound, CanDispatch, Inject, Dispatch, Read, Objects.NodeStates, Objects.LinkStates, Objects.InMemoryNetwork.Repr,
         Objects.InMemoryNetwork.Distinct;
    StateFacts(network);
    NodeExists(network, a);
    network.PartsOfNode(a.node);
    assert network.links.Values <= network.Repr() by { LinksArePart(network); }
    match a
    case Injecting(n, id, d, luck) => network.SendUdp(n, id, d, luck);
    case Dispatching(n, rolls) => network.OfferToLinks(n, rolls);
    case Reading(n, x) => network.ReadPacket(n, x);
  }

  method PerformAtLink(network: Objects.InMemoryNetwork, a: Action)
    requires network.Valid() && Enabled(network.topology, network.View(), a)
    requires a.Taking? || a.Waking? || a.GivingWay? || a.Landing?
    modifies network.Repr()
    ensures network.View() == Apply(network.topology, old(network.View()), a)
    ensures network.handled == old(network.handled) && network.handledHow == old(network.handledHow)
  {
    hide Sound, Take, WithTask, GiveWay, Land, IsNext, Objects.NodeStates, Objects.LinkStates, Objects.InMemoryNetwork.Repr,
         Objects.InMemoryNetwork.Distinct;
    StateFacts(network);
    network.PartsOfLink(a.link);
    match a
    case Taking(l) => network.TakePacket(l);
    case Waking(l) => network.Wake(l);
    case GivingWay(l) => network.YieldTo(l);
    case Landing(l, x, luck) => network.ForwardFromLink(l, x, luck);
  }

  method PerformFromOutside(network: Objects.InMemoryNetwork, a: Action)
    requires network.Valid() && Enabled(network.topology, network.View(), a)
    requires a.LinkChanging? || a.NodeChanging? || a.Passing?
    modifies network.Repr()
    ensures network.View() == Apply(network.topology, old(network.View()), a)
    ensures network.handled == old(network.handled) && network.handledHow == old(network.handledHow)
  {
    hide Sound, LinkChange, NodeChange, Objects.NodeStates, Objects.LinkStates, Objects.InMemoryNetwork.Distinct;
    StateFacts(network);
    match a
    case LinkChanging(e) => network.ProcessLinkEvent(e);
    case NodeChanging(e) => network.ProcessNodeEvent(e);
    case Passing(until) => network.PassTime(until);
  }

  /** After one more step the network is in the state that the longer run leads to. */
  lemma StillAt(network: Objects.InMemoryNetwork, before: Net, a: Action, run: seq<Action>)
    requires network.Distinct() && network.handled == network.handledHow.Keys
    requires IsRun(network.topology, run) && before == StateAfter(network.topology, run)
    requires Enabled(network.topology, before, a) && network.View() == Apply(network.topology, before, a)
    ensures IsAt(network, run + [a])
  {
    hide Enabled, Apply, IsRun, StateAfter, Objects.InMemoryNetwork.View, Objects.InMemoryNetwork.Distinct;
    RunGrows(network.topology, run, a);
  }

  lemma FinishIs(t: Topology, s: Net, l: LinkId)
    requires Enabled(t, s, Finishing(l))
    ensures InOffering(s, l) && Sound(t, s) && Apply(t, s, Finishing(l)) == Finish(t, s, l)
  {
  }

  method PerformFinish(network: Objects.InMemoryNetwork, l: LinkId, ghost run: seq<Action>)
    requires IsAt(network, run) && Enabled(network.topology, network.View(), Finishing(l))
    modifies network.Repr()
    ensures network.View() == Apply(network.topology, old(network.View()), Finishing(l))
    ensures network.handled == network.handledHow.Keys
  {
    hide IsAt, Sound, IsRun, StateAfter, Finish, Apply, Objects.InMemoryNetwork.View, Objects.InMemoryNetwork.Distinct,
         Objects.InMemoryNetwork.ReadyToSend, Objects.InMemoryNetwork.Repr, ClearedFromBuffer, MustYield, InOffering,
         Enabled;
    FinishIs(network.topology, network.View(), l);
    Facts(network, run);
    MayFinish(network, run, l);
    network.FinishRound(l);
  }

  /** One more step: nothing is asked of the network but that the step is possible. */
  method Perform(network: Objects.InMemoryNetwork, a: Action, ghost run: seq<Action>)
    requires IsAt(network, run) && Enabled(network.topology, network.View(), a)
    modifies network.Repr()
    ensures IsAt(network, run + [a])
  {
    hide IsAt, Sound, Enabled, Apply, IsRun, StateAfter, Objects.InMemoryNetwork.View, Objects.InMemoryNetwork.Distinct;
    Facts(network, run);
    ghost var before := network.View();
    if a.Finishing? {
      PerformFinish(network, a.link, run);
    } else if a.Injecting? || a.Dispatching? || a.Reading? {
      PerformAtNode(network, a);
    } else if a.Taking? || a.Waking? || a.GivingWay? || a.Landing? {
      PerformAtLink(network, a);
    } else {
      PerformFromOutside(network, a);
    }
    StillAt(network, before, a, run);
  }

  lemma StartsAt(network: Objects.InMemoryNetwork)
    requires network.topology.Valid() && network.Distinct() && network.handled == network.handledHow.Keys
    requires network.View() == Initial(network.topology)
    ensures IsAt(network, [])
  {
    hide Topology.Valid, Initial, Objects.InMemoryNetwork.View, Objects.InMemoryNetwork.Distinct;
    StateIs(network.topology, [], [Initial(network.topology)]);
  }

  /** Every run can be carried out, from a new network on. */
  method Execute(topology: Topology, actions: seq<Action>) returns (network: Objects.InMemoryNetwork)
    requires IsRun(topology, actions)
    ensures fresh(network.Repr()) && network.topology == topology && network.Valid()
    ensures network.View() == StateAfter(topology, actions)
  {
    hide IsAt, Sound, Enabled, Apply, IsRun, StateAfter, Initial, Topology.Valid, Objects.InMemoryNetwork.View,
         Objects.InMemoryNetwork.Distinct, Objects.InMemoryNetwork.Repr;
    RunHasStates(topology, actions);
    network := new Objects.InMemoryNetwork(topology);
    StartsAt(network);
    assert actions[..0] == [];
    for k := 0 to |actions|
      invariant fresh(network.Repr()) && network.topology == topology
      invariant IsAt(network, actions[..k])
    {
      Facts(network, actions[..k]);
      Prefix(topology, actions, k);
      Perform(network, actions[k], actions[..k]);
      assert actions[..k] + [actions[k]] == actions[..k + 1];
    }
    assert actions[..|actions|] == actions;
    Facts(network, actions);
  }

  /** A simulation from start to end: the run is carried out, and the verifier looks at what was recorded. */
  method Simulate(topology: Topology, metadata: Metadata, actions: seq<Action>) returns (report: Report)
    requires IsRun(topology, actions) && topology.Valid() && Describes(metadata, topology)
    ensures report.Verified?
    ensures AllJustified(topology, Endpoints(topology, actions), StateAfter(topology, actions).log, report.errors)
    ensures metadata.Valid() && InOrder(StateAfter(topology, actions).log)
    ensures report == ReportOf(Verify(metadata, StateAfter(topology, actions).log))
  {
    hide Describes, IsRun, StateAfter, Topology.Valid, Metadata.Valid, AllJustified, ProperLog, Replaying, Sort, Verify,
         InOrder, Objects.InMemoryNetwork.View, Objects.InMemoryNetwork.Valid;
    RunsAreAccepted(topology, metadata, actions);
    var network := Execute(topology, actions);
    StateFacts(network);
    assert network.tracer.steps == StateAfter(topology, actions).log;
    LogIsSorted(network.tracer.steps);
    report := VerifyLog(network.tracer.steps, metadata);
  }

  lemma LogIsSorted(log: seq<Step>)
    requires InOrder(log)
    ensures Sort(log, Earlier) == log
  {
    SortedIsKept(log);
  }

  // ---- A whole batch from a link --------------------------------------------------------------

  /** The state in which the packets in `rest` are still on link `l`. */
  function Rest(s: Net, l: LinkId, rest: multiset<InTransit>): Net
    requires l in s.links
  {
    s.SetLink(l, s.links[l].(inTransit := s.links[l].inTransit + rest))
  }

  lemma EnqueueElsewhere(s: Net, n: NodeId, p: Packet, links: map<LinkId, LinkState>)
    requires n in s.nodes
    ensures Enqueue(s.(links := links), n, p) == Enqueue(s, n, p).(links := links)
    ensures var s' := Enqueue(s, n, p); s'.links == s.links && s'.now == s.now && s'.ids == s.ids
  {
  }

  lemma StoreElsewhere(t: Topology, s: Net, n: NodeId, p: Packet, luck: Luck, links: map<LinkId, LinkState>)
    requires n in s.nodes && n in t.nodes
    ensures Store(t, s.(links := links), n, p, luck) == Store(t, s, n, p, luck).(links := links)
    ensures var s' := Store(t, s, n, p, luck); s'.links == s.links && s'.now == s.now && s'.ids <= s.ids + {luck.freshId}
  {
    hide Enqueue;
    var twin := p.(id := luck.freshId, duplicate := true);
    var s1 := Enqueue(s, n, p);
    var s2 := s1.(ids := s1.ids + {luck.freshId}).Record(DuplicationRecord(n, twin));
    EnqueueElsewhere(s, n, p, links);
    EnqueueElsewhere(s2, n, twin, links);
    assert s2.(links := links)
        == Enqueue(s.(links := links), n, p).(ids := s1.ids + {luck.freshId}).Record(DuplicationRecord(n, twin));
  }

  /** Arriving in a node has nothing to do with the links. */
  lemma ForwardElsewhere(t: Topology, s: Net, n: NodeId, p: Packet, luck: Luck, links: map<LinkId, LinkState>)
    requires n in s.nodes && n in t.nodes
    ensures Forward(t, s.(links := links), n, p, luck) == Forward(t, s, n, p, luck).(links := links)
    ensures var s' := Forward(t, s, n, p, luck); s'.links == s.links && s'.now == s.now && s'.ids <= s.ids + {luck.freshId}
  {
    hide Store;
    var s1 := s.Record(ArrivalRecord(n, p, false));
    StoreElsewhere(t, s1, n, Hop(p), luck, links);
    assert s.(links := links).Record(ArrivalRecord(n, p, false)) == s1.(links := links);
  }

  /** A packet that goes on while others wait their turn leaves the link as if it alone had been taken off. */
  lemma DeliveredFirst(t: Topology, s: Net, l: LinkId, x: InTransit, rest: multiset<InTransit>, luck: Luck)
    requires t.Valid() && l in t.links && l in s.links && t.Target(l) in s.nodes
    requires Sound(t, Rest(s, l, multiset{x} + rest))
    ensures var s' := Objects.Delivered(t, s, l, x, luck);
            && s'.links == s.links && s'.now == s.now && s'.ids <= s.ids + {luck.freshId}
            && Land(t, Rest(s, l, multiset{x} + rest), l, x, luck) == Rest(s', l, rest)
  {
    hide Sound, Topology.Valid, Forward;
    var all := Rest(s, l, multiset{x} + rest);
    assert s.links[l].inTransit + (multiset{x} + rest) - multiset{x} == s.links[l].inTransit + rest;
    assert TakeOff(all, l, x) == Rest(s, l, rest);
    ForwardElsewhere(t, s, t.Target(l), x.packet, luck, Rest(s, l, rest).links);
  }

  /** The network would be where `run` leads to if the packets in `rest` were still on link `l`. */
  ghost predicate Owes(network: Objects.InMemoryNetwork, run: seq<Action>, l: LinkId, rest: multiset<InTransit>)
    reads network.Repr()
  {
    && network.Distinct() && network.handled == network.handledHow.Keys
    && IsRun(network.topology, run) && l in network.links && l in network.View().links
    && Rest(network.View(), l, rest) == StateAfter(network.topology, run)
  }

  lemma NoRest(s: Net, l: LinkId)
    requires l in s.links
    ensures Rest(s, l, multiset{}) == s
  {
    assert s.links[l].inTransit + multiset{} == s.links[l].inTransit;
    assert s.links[l := s.links[l]] == s.links;
  }

  lemma OwesNothing(network: Objects.InMemoryNetwork, run: seq<Action>, l: LinkId)
    requires Owes(network, run, l, multiset{})
    ensures IsAt(network, run)
  {
    hide IsRun, StateAfter, Objects.InMemoryNetwork.Distinct, Objects.InMemoryNetwork.View;
    NoRest(network.View(), l);
  }

  lemma OwesFacts(network: Objects.InMemoryNetwork, run: seq<Action>, l: LinkId, rest: multiset<InTransit>)
    requires Owes(network, run, l, rest)
    ensures IsRun(network.topology, run) && Sound(network.topology, StateAfter(network.topology, run))
    ensures network.topology.Valid() && l in network.topology.links && l in network.View().links && l in network.links
    ensures Rest(network.View(), l, rest) == StateAfter(network.topology, run)
    ensures network.topology.Target(l) in network.View().nodes && network.topology.Target(l) in network.nodes
    ensures network.topology.Target(l) in network.topology.nodes
    ensures l in StateAfter(network.topology, run).links
    ensures StateAfter(network.topology, run).now == network.now
    ensures network.Distinct() && network.handled == network.handledHow.Keys
  {
    hide Timely, NodeSound, LinkSound, IsRun, StateAfter, Objects.InMemoryNetwork.Distinct, Objects.NodeStates,
         Objects.LinkStates, Objects.InMemoryNetwork.View;
    RunIsFine(network.topology, run);
    StateFacts(network);
  }

  lemma NowOwes(network: Objects.InMemoryNetwork, run: seq<Action>, l: LinkId, rest: multiset<InTransit>)
    requires network.Distinct() && network.handled == network.handledHow.Keys
    requires IsRun(network.topology, run) && l in network.links && l in network.View().links
    requires Rest(network.View(), l, rest) == StateAfter(network.topology, run)
    ensures Owes(network, run, l, rest)
  {
  }

  /** The step of one packet of a batch: it is the landing of that packet. */
  method ForwardOne(network: Objects.InMemoryNetwork, l: LinkId, x: InTransit, luck: Luck, ghost run: seq<Action>,
                    ghost rest: multiset<InTransit>)
    requires Owes(network, run, l, multiset{x} + rest) && l in StateAfter(network.topology, run).links
    requires IsNext(StateAfter(network.topology, run).links[l].inTransit, x, network.now)
    requires luck.freshId !in StateAfter(network.topology, run).ids
    modifies network.Repr()
    ensures Owes(network, run + [Landing(l, x, luck)], l, rest) && network.now == old(network.now)
    ensures l in StateAfter(network.topology, run + [Landing(l, x, luck)]).links
    ensures var before, after := StateAfter(network.topology, run), StateAfter(network.topology, run + [Landing(l, x, luck)]);
            && after.ids <= before.ids + {luck.freshId}
            && after.links[l].inTransit == before.links[l].inTransit - multiset{x}
  {
    hide Sound, IsRun, StateAfter, IsNext, Topology.Valid, Land, Objects.Delivered, Objects.InMemoryNetwork.Distinct,
         Objects.InMemoryNetwork.View, Owes, Objects.InMemoryNetwork.Repr;
    OwesFacts(network, run, l, multiset{x} + rest);
    ghost var t, s := network.topology, network.View();
    StateFacts(network);
    DeliveredFirst(t, s, l, x, rest, luck);
    RunGrows(t, run, Landing(l, x, luck));
    network.PartsOfLink(l);
    network.PartsOfNode(t.Target(l));
    network.ForwardDelivered(l, x, luck);
    StateFacts(network);
    NowOwes(network, run + [Landing(l, x, luck)], l, rest);
  }

  /** The landings of the packets of a batch, in turn. */
  function Landings(l: LinkId, batch: seq<InTransit>, lucks: seq<Luck>): seq<Action>
    requires |batch| <= |lucks|
  {
    seq(|batch|, i requires 0 <= i < |batch| => Landing(l, batch[i], lucks[i]))
  }

  lemma LandingsMore(l: LinkId, batch: seq<InTransit>, lucks: seq<Luck>, k: nat)
    requires k < |batch| <= |lucks|
    ensures Landings(l, batch[..k + 1], lucks) == Landings(l, batch[..k], lucks) + [Landing(l, batch[k], lucks[k])]
    ensures multiset(batch[k..]) == multiset{batch[k]} + multiset(batch[k + 1..])
    ensures multiset(batch[..k + 1]) == multiset(batch[..k]) + multiset{batch[k]}
  {
    assert batch[k..] == [batch[k]] + batch[k + 1..];
    assert batch[..k + 1] == batch[..k] + [batch[k]];
  }

  /** What a link delivers is taken off it, and owed. */
  method PollLink(network: Objects.InMemoryNetwork, l: LinkId, delivery: NextPacketDelivery) returns (batch: seq<InTransit>)
    requires network.Distinct() && l in network.links && delivery.queue == network.links[l].inTransit
    modifies delivery, network.links[l].inTransit
    ensures l in network.View().links && Rest(network.View(), l, multiset(batch)) == old(network.View())
    ensures InTurn(old(network.links[l].inTransit.heap), batch, network.now)
    ensures old(network.links[l].inTransit.heap) == network.links[l].inTransit.heap + multiset(batch)
    ensures || |batch| == delivery.maxTransmits
            || (old(delivery.sleep).Some? && old(delivery.sleep).value > network.now)
            || forall y :: y in network.links[l].inTransit.heap ==> y.Arrival() > network.now
  {
    hide InTurn, Objects.NodeStates, Objects.LinkStates, Objects.ApartNodes;
    network.LinkView(l);
    NothingInTurn(network.links[l].inTransit.heap, network.now);
    var ready := delivery.Poll(network.now);
    batch := if ready.Some? then ready.value else [];
    network.LinkChanged(l);
    network.LinkView(l);
    assert Rest(network.View(), l, multiset(batch)).links[l] == old(network.View()).links[l];
    assert Rest(network.View(), l, multiset(batch)).links == old(network.View()).links;
  }

  /** The first `k` packets of the batch have landed, and the others are owed. */
  ghost predicate Halfway(network: Objects.InMemoryNetwork, run: seq<Action>, l: LinkId, batch: seq<InTransit>,
                          lucks: seq<Luck>, k: nat, queue: multiset<InTransit>)
    requires k <= |batch| <= |lucks|
    reads network.Repr()
  {
    var sofar := run + Landings(l, batch[..k], lucks);
    && Owes(network, sofar, l, multiset(batch[k..]))
    && (var s := StateAfter(network.topology, sofar);
        && s.now == network.now && l in s.links && s.links[l].inTransit == queue - multiset(batch[..k])
        && forall i :: k <= i < |lucks| ==> lucks[i].freshId !in s.ids)
  }

  method ForwardNext(network: Objects.InMemoryNetwork, l: LinkId, batch: seq<InTransit>, lucks: seq<Luck>, k: nat,
                     ghost run: seq<Action>, ghost queue: multiset<InTransit>)
    requires k < |batch| <= |lucks| && Halfway(network, run, l, batch, lucks, k, queue)
    requires IsNext(queue - multiset(batch[..k]), batch[k], network.now)
    requires forall i, j :: 0 <= i < j < |lucks| ==> lucks[i].freshId != lucks[j].freshId
    modifies network.Repr()
    ensures Halfway(network, run, l, batch, lucks, k + 1, queue) && network.now == old(network.now)
  {
    hide Sound, IsRun, StateAfter, IsNext, Owes, Topology.Valid, Objects.InMemoryNetwork.Distinct,
         Objects.InMemoryNetwork.View, Objects.InMemoryNetwork.Repr, Landings;
    LandingsMore(l, batch, lucks, k);
    ghost var sofar := run + Landings(l, batch[..k], lucks);
    assert sofar + [Landing(l, batch[k], lucks[k])] == run + Landings(l, batch[..k + 1], lucks);
    assert queue - multiset(batch[..k]) - multiset{batch[k]} == queue - multiset(batch[..k + 1]);
    ForwardOne(network, l, batch[k], lucks[k], sofar, multiset(batch[k + 1..]));
    OwesFacts(network, run + Landings(l, batch[..k + 1], lucks), l, multiset(batch[k + 1..]));
  }

  lemma HalfwayAtFirst(network: Objects.InMemoryNetwork, run: seq<Action>, l: LinkId, batch: seq<InTransit>,
                       lucks: seq<Luck>, queue: multiset<InTransit>)
    requires network.Distinct() && network.handled == network.handledHow.Keys && |batch| <= |lucks|
    requires IsRun(network.topology, run) && l in network.links && l in network.View().links
    requires Rest(network.View(), l, multiset(batch)) == StateAfter(network.topology, run)
    requires queue == network.links[l].inTransit.heap + multiset(batch)
    requires forall i :: 0 <= i < |lucks| ==> lucks[i].freshId !in network.ids
    ensures Halfway(network, run, l, batch, lucks, 0, queue)
  {
    hide IsRun, StateAfter, Objects.InMemoryNetwork.Distinct, Objects.InMemoryNetwork.View;
    StateFacts(network);
    assert run + Landings(l, batch[..0], lucks) == run;
    assert batch[0..] == batch;
  }

  lemma HalfwayAtLast(network: Objects.InMemoryNetwork, run: seq<Action>, l: LinkId, batch: seq<InTransit>,
                      lucks: seq<Luck>, queue: multiset<InTransit>)
    requires |batch| <= |lucks| && Halfway(network, run, l, batch, lucks, |batch|, queue)
    ensures IsAt(network, run + Landings(l, batch, lucks)) && l in network.links
    ensures network.links[l].inTransit.heap == queue - multiset(batch)
  {
    hide IsRun, StateAfter, IsAt, Owes, Objects.InMemoryNetwork.Distinct, Objects.InMemoryNetwork.View;
    assert batch[..|batch|] == batch && batch[|batch|..] == [];
    OwesNothing(network, run + Landings(l, batch, lucks), l);
    Facts(network, run + Landings(l, batch, lucks));
    OwesFacts(network, run + Landings(l, batch, lucks), l, multiset{});
    StateFacts(network);
  }

  /**
   A batch of packets from a link: all that are due are taken out of its queue, and then forwarded one
   after the other. That is the same as landing them one by one, each when it is the next.
   */
  method ForwardPackets(network: Objects.InMemoryNetwork, l: LinkId, delivery: NextPacketDelivery, lucks: seq<Luck>,
                        ghost run: seq<Action>) returns (batch: seq<InTransit>)
    requires IsAt(network, run) && l in network.links && delivery.queue == network.links[l].inTransit
    requires |network.links[l].inTransit.heap| <= |lucks|
    requires forall i :: 0 <= i < |lucks| ==> lucks[i].freshId !in network.ids
    requires forall i, j :: 0 <= i < j < |lucks| ==> lucks[i].freshId != lucks[j].freshId
    modifies network.Repr(), delivery
    ensures |batch| <= |lucks| && IsAt(network, run + Landings(l, batch, lucks))
    ensures InTurn(old(network.links[l].inTransit.heap), batch, network.now)
    ensures || |batch| == delivery.maxTransmits
            || (old(delivery.sleep).Some? && old(delivery.sleep).value > network.now)
            || forall y :: y in network.links[l].inTransit.heap ==> y.Arrival() > network.now
  {
    hide Sound, IsRun, StateAfter, IsNext, IsAt, Halfway, Rest, Objects.InMemoryNetwork.Distinct,
         Objects.InMemoryNetwork.View, Objects.InMemoryNetwork.Repr;
    Facts(network, run);
    network.PartsOfLink(l);
    ghost var queue := network.links[l].inTransit.heap;
    batch := PollLink(network, l, delivery);
    assert |queue| == |network.links[l].inTransit.heap| + |batch|;
    HalfwayAtFirst(network, run, l, batch, lucks, queue);
    for k := 0 to |batch|
      invariant Halfway(network, run, l, batch, lucks, k, queue) && network.now == old(network.now)
    {
      ForwardNext(network, l, batch, lucks, k, run, queue);
    }
    HalfwayAtLast(network, run, l, batch, lucks, queue);
  }
}
