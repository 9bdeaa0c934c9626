/** Applications read packets in the order in which they arrived. */
module Reads {
  import opened Prelude
  import opened Trace
  import opened PacketPacer
  import opened Network
  import opened Soundness
  import opened TracedRuns
  import opened Destinations

  /** What is new in an inbox arrives now. */
  ghost predicate NewArriveNow(s: Net, s': Net) {
    && s'.nodes.Keys == s.nodes.Keys && s'.now == s.now
    && forall n, x :: n in s.nodes && x in s'.nodes[n].inbox && x !in s.nodes[n].inbox ==> x.Arrival() == s.now
  }

  lemma NewArriveNowTwice(a: Net, b: Net, c: Net)
    requires NewArriveNow(a, b) && NewArriveNow(b, c)
    ensures NewArriveNow(a, c)
  {
    forall n, x | n in a.nodes && x in c.nodes[n].inbox && x !in a.nodes[n].inbox
      ensures x.Arrival() == a.now
    {
      if x in b.nodes[n].inbox {
        assert n in a.nodes;
      }
    }
  }

  lemma NothingNew(s: Net, s': Net)
    requires SameInboxes(s, s') && s'.now == s.now
    ensures NewArriveNow(s, s')
  {
    forall n, x | n in s.nodes && x in s'.nodes[n].inbox
      ensures x in s.nodes[n].inbox
    {
      assert s'.nodes[n].inbox <= s.nodes[n].inbox;
    }
  }

  lemma DeliverIsNow(s: Net, n: NodeId, p: Packet)
    requires n in s.nodes
    ensures NewArriveNow(s, Deliver(s, n, p))
  {
  }

  lemma StoreTakesNoTime(t: Topology, s: Net, n: NodeId, p: Packet, luck: Luck)
    requires n in s.nodes && n in t.nodes
    ensures Store(t, s, n, p, luck).now == s.now
  {
    hide Enqueue;
  }

  lemma ForwardIsNow(t: Topology, s: Net, n: NodeId, p: Packet, luck: Luck)
    requires n in s.nodes && n in t.nodes
    ensures NewArriveNow(s, Forward(t, s, n, p, luck))
  {
    hide Store, Deliver, NewArriveNow, SameInboxes;
    var s1 := s.Record(ArrivalRecord(n, p, false));
    SameNodesSameInboxes(s, s.Record(ArrivalRecord(n, p, true)));
    NothingNew(s, s.Record(ArrivalRecord(n, p, true)));
    SameNodesSameInboxes(s, s1);
    NothingNew(s, s1);
    DeliverIsNow(s1, n, p);
    NewArriveNowTwice(s, s1, Deliver(s1, n, p));
    SameNodesSameInboxes(s, s1.Record(PacketDropped(p.id, n, ZeroTtl)));
    NothingNew(s, s1.Record(PacketDropped(p.id, n, ZeroTtl)));
    StoreKeepsInboxes(t, s1, n, Hop(p), luck);
    StoreTakesNoTime(t, s1, n, Hop(p), luck);
    NothingNew(s1, Store(t, s1, n, Hop(p), luck));
    NewArriveNowTwice(s, s1, Store(t, s1, n, Hop(p), luck));
  }

  lemma InjectIsNow(t: Topology, s: Net, n: NodeId, id: PacketId, d: Datagram, luck: Luck)
    requires Sound(t, s) && n in s.nodes && n in t.nodes
    ensures NewArriveNow(s, Inject(t, s, n, id, d, luck))
  {
    hide Sound, Forward;
    ForwardIsNow(t, s.(nextNumber := s.nextNumber + 1, ids := s.ids + {id}), n,
                 Packet(id, s.nextNumber, d.payload, d.dest, d.port, d.ttl, false), luck);
  }

  lemma LandIsNow(t: Topology, s: Net, l: LinkId, x: InTransit, luck: Luck)
    requires Sound(t, s) && t.Valid() && l in s.links && l in t.links && t.Target(l) in s.nodes && t.Target(l) in t.nodes
    ensures NewArriveNow(s, Land(t, s, l, x, luck))
  {
    hide Sound, Forward, Topology.Valid;
    ForwardIsNow(t, TakeOff(s, l, x), t.Target(l), x.packet, luck);
  }

  // ---- After a read ---------------------------------------------------------------------------

  /** Whatever waits in node `n` for this port arrived no earlier than `since`. */
  ghost predicate NoneBefore(s: Net, n: NodeId, port: nat, since: Duration) {
    n in s.nodes && since <= s.now && forall y :: y in s.nodes[n].inbox && y.packet.port == port ==> since <= y.Arrival()
  }

  lemma NoneBeforeStays(s: Net, s': Net, n: NodeId, port: nat, since: Duration)
    requires NoneBefore(s, n, port, since) && NewArriveNow(s, s')
    ensures NoneBefore(s', n, port, since)
  {
  }

  lemma NoneBeforeLater(s: Net, s': Net, n: NodeId, port: nat, since: Duration)
    requires NoneBefore(s, n, port, since) && SameInboxes(s, s') && s.now <= s'.now
    ensures NoneBefore(s', n, port, since)
  {
    forall y | y in s'.nodes[n].inbox
      ensures y in s.nodes[n].inbox
    {
      assert s'.nodes[n].inbox <= s.nodes[n].inbox;
    }
  }

  lemma TimeGoesOn(t: Topology, s: Net, a: Action)
    requires Fine(t, s) && Enabled(t, s, a) && !a.Injecting? && !a.Landing?
    ensures s.now <= Apply(t, s, a).now
  {
    hide Fine, Sound, CanDispatch, CameUp, Offer, Topology.Valid, Topology.TransmissionTime, Batch.Add, Batch.At, Batch.Wait,
         Batch.CanSend, ChangedLink, ChangedNode, Dispatch, Take, Finish;
    match a
    case Finishing(l) => FinishTakesNoTime(t, s, l);
    case Dispatching(n, rolls) => DispatchTakesNoTime(t, s, n, rolls);
    case Taking(l) => TakeTakesNoTime(t, s, l);
    case _ =>
  }

  lemma FinishTakesNoTime(t: Topology, s: Net, l: LinkId)
    requires Fine(t, s) && Sound(t, s) && InOffering(s, l)
    ensures Finish(t, s, l).now == s.now
  {
    hide Fine, Sound, Topology.Valid, Topology.TransmissionTime, Batch.Add;
    BusyFacts(t, s, l);
  }

  lemma DispatchTakesNoTime(t: Topology, s: Net, n: NodeId, rolls: seq<real>)
    requires CanDispatch(t, s, n, rolls)
    ensures Dispatch(t, s, n, rolls).now == s.now
  {
    hide Topology.Valid, LinkSound, Offer;
  }

  lemma TakeTakesNoTime(t: Topology, s: Net, l: LinkId)
    requires Sound(t, s) && l in s.links && s.links[l].task.Idle? && s.links[l].queue != []
    ensures Take(t, s, l).now == s.now
  {
    hide Topology.Valid, Topology.TransmissionTime, NodeSound, Batch.At, Batch.Wait, Batch.CanSend;
  }

  lemma NoneBeforeAfterStep(t: Topology, s: Net, a: Action, n: NodeId, port: nat, since: Duration)
    requires Fine(t, s) && Sound(t, s) && t.Valid() && Enabled(t, s, a) && NoneBefore(s, n, port, since)
    ensures NoneBefore(Apply(t, s, a), n, port, since)
  {
    hide Fine, Sound, Inject, Land, NoneBefore, NewArriveNow, SameInboxes, Topology.Valid, CanDispatch, CameUp, Take, Finish,
         Dispatch, Read, LinkChange, NodeChange, WithTask;
    FineKeys(t, s);
    match a
    case Injecting(m, id, d, luck) =>
      InjectIsNow(t, s, m, id, d, luck);
      NoneBeforeStays(s, Apply(t, s, a), n, port, since);
    case Landing(l, x, luck) =>
      TargetIsNode(t, s, l);
      LandIsNow(t, s, l, x, luck);
      NoneBeforeStays(s, Apply(t, s, a), n, port, since);
    case _ =>
      OthersKeepInboxes(t, s, a);
      TimeGoesOn(t, s, a);
      NoneBeforeLater(s, Apply(t, s, a), n, port, since);
  }

  lemma ReadLeavesLater(s: Net, n: NodeId, x: InTransit)
    requires CanRead(s, n, x)
    ensures NoneBefore(Read(s, n, x), n, x.packet.port, x.Arrival())
  {
    forall y | y in s.nodes[n].inbox - multiset{x} && y.packet.port == x.packet.port
      ensures x.Arrival() <= y.Arrival()
    {
      assert y in s.nodes[n].inbox;
      assert NoLaterThan(x, y);
    }
  }

  lemma {:induction false} NoneBeforeFromThen(t: Topology, actions: seq<Action>, i: nat, n: NodeId, x: InTransit)
    requires IsRun(t, actions) && i < |actions| && actions[i] == Reading(n, x)
    ensures NoneBefore(StateAfter(t, actions), n, x.packet.port, x.Arrival())
  {
    hide IsRun, StateAfter, Apply, Enabled, NoneBefore, Fine, Sound, Topology.Valid;
    LastStep(t, actions);
    var init, last := actions[..|actions| - 1], actions[|actions| - 1];
    if i == |init| {
      ReadingIs(t, StateAfter(t, init), n, x);
      ReadLeavesLater(StateAfter(t, init), n, x);
    } else {
      NoneBeforeFromThen(t, init, i, n, x);
      RunIsFine(t, init);
      FineMeans(t, StateAfter(t, init));
      NoneBeforeAfterStep(t, StateAfter(t, init), last, n, x.packet.port, x.Arrival());
    }
  }

  lemma FineMeans(t: Topology, s: Net)
    requires Fine(t, s)
    ensures Sound(t, s)
  {
    hide Sound, Timely;
  }

  lemma ReadingIs(t: Topology, s: Net, n: NodeId, x: InTransit)
    requires Enabled(t, s, Reading(n, x))
    ensures CanRead(s, n, x) && Apply(t, s, Reading(n, x)) == Read(s, n, x)
  {
  }

  /** In every run, of two packets that are read from the same port of a node, the one read first arrived no later. */
  lemma ReadsInOrder(t: Topology, actions: seq<Action>, i: nat, j: nat, n: NodeId, x: InTransit, y: InTransit)
    requires IsRun(t, actions) && i < j < |actions| && actions[i] == Reading(n, x) && actions[j] == Reading(n, y)
    requires x.packet.port == y.packet.port
    ensures x.sent + x.delay <= y.sent + y.delay
  {
    hide IsRun, StateAfter, Apply, Enabled;
    Prefix(t, actions, j);
    assert actions[..j][i] == actions[i];
    NoneBeforeFromThen(t, actions[..j], i, n, x);
    ReadingIs(t, StateAfter(t, actions[..j]), n, y);
  }
}
