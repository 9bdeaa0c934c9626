/** What becomes of the capacity of a node's buffer (outbound_buffer.rs, node.rs, link.rs, mod.rs). */
module Buffers {
  import opened Prelude
  import opened Sums
  import opened Trace
  import opened PacketPacer
  import opened Network
  import opened Soundness

  ghost function Bytes(accepted: seq<Buffered>, tickets: set<nat>): nat {
    Sum(tickets, k => if 0 <= k < |accepted| then accepted[k].packet.Size() else 0)
  }

  /** The packets that node `n` accepted and that no link has handled yet. */
  ghost function HeldTickets(s: Net, n: NodeId): set<nat> {
    set k | 0 <= k < |s.accepted| && k !in s.handled && s.accepted[k].node == n
  }

  /** The packets of node `n` that were dropped because its buffer had been cleared. */
  ghost function ClearedTickets(s: Net, n: NodeId): set<nat> {
    set k | 0 <= k < |s.accepted| && k in s.handled && s.handled[k].ClearDropped? && s.accepted[k].node == n
  }

  ghost function Held(s: Net, n: NodeId): nat {
    Bytes(s.accepted, HeldTickets(s, n))
  }

  ghost function Cleared(s: Net, n: NodeId): nat {
    Bytes(s.accepted, ClearedTickets(s, n))
  }

  /** Capacity that was ever taken is free again, still in use, or lost with a cleared packet. */
  ghost predicate NodeConserved(t: Topology, s: Net, n: NodeId)
    requires n in s.nodes && n in t.nodes
  {
    t.nodes[n].bufferSize == s.nodes[n].available + Held(s, n) + Cleared(s, n)
  }

  ghost predicate Conserved(t: Topology, s: Net) {
    && s.nodes.Keys == t.nodes.Keys
    && (forall k :: k in s.handled ==> k < |s.accepted|)
    && (forall k :: 0 <= k < |s.accepted| ==> s.accepted[k].node in s.nodes)
    && (forall n :: n in s.nodes ==> NodeConserved(t, s, n))
  }

  lemma BytesGrow(accepted: seq<Buffered>, b: Buffered, tickets: set<nat>)
    requires forall k :: k in tickets ==> k < |accepted|
    ensures Bytes(accepted + [b], tickets) == Bytes(accepted, tickets)
  {
    var more := accepted + [b];
    SumSame(tickets, k => if 0 <= k < |accepted| then accepted[k].packet.Size() else 0,
            k => if 0 <= k < |more| then more[k].packet.Size() else 0);
  }

  lemma BytesWith(accepted: seq<Buffered>, tickets: set<nat>, k: nat)
    requires k !in tickets && k < |accepted|
    ensures Bytes(accepted, tickets + {k}) == Bytes(accepted, tickets) + accepted[k].packet.Size()
  {
    SumWith(tickets, k, k => if 0 <= k < |accepted| then accepted[k].packet.Size() else 0);
  }

  ghost predicate SameBuffers(s: Net, s': Net) {
    && s'.accepted == s.accepted && s'.handled == s.handled && s'.nodes.Keys == s.nodes.Keys
    && forall n :: n in s.nodes ==> s'.nodes[n].available == s.nodes[n].available
  }

  lemma ConservedWithSameBuffers(t: Topology, s: Net, s': Net)
    requires Conserved(t, s) && SameBuffers(s, s')
    ensures Conserved(t, s')
  {
    forall n | n in s'.nodes
      ensures NodeConserved(t, s', n)
    {
      assert NodeConserved(t, s, n);
      assert HeldTickets(s', n) == HeldTickets(s, n) && ClearedTickets(s', n) == ClearedTickets(s, n);
    }
  }

  lemma NodeConservedAfterAccept(t: Topology, s: Net, n: NodeId, p: Packet, m: NodeId)
    requires Conserved(t, s) && n in s.nodes && p.Size() <= s.nodes[n].available && m in s.nodes
    ensures NodeConserved(t, Enqueue(s, n, p), m)
  {
    var s', b := Enqueue(s, n, p), Buffered(n, s.now, p);
    var k := |s.accepted|;
    assert s'.accepted == s.accepted + [b];
    assert NodeConserved(t, s, m);
    assert ClearedTickets(s', m) == ClearedTickets(s, m);
    BytesGrow(s.accepted, b, ClearedTickets(s, m));
    BytesGrow(s.accepted, b, HeldTickets(s, m));
    if m == n {
      assert HeldTickets(s', m) == HeldTickets(s, m) + {k};
      BytesWith(s'.accepted, HeldTickets(s, m), k);
    } else {
      assert HeldTickets(s', m) == HeldTickets(s, m);
    }
  }

  lemma ConservedAfterEnqueue(t: Topology, s: Net, n: NodeId, p: Packet)
    requires Conserved(t, s) && n in s.nodes
    ensures Conserved(t, Enqueue(s, n, p))
  {
    hide NodeConserved;
    if s.nodes[n].available < p.Size() {
      ConservedWithSameBuffers(t, s, Enqueue(s, n, p));
    } else {
      forall m | m in s.nodes
        ensures NodeConserved(t, Enqueue(s, n, p), m)
      {
        NodeConservedAfterAccept(t, s, n, p, m);
      }
    }
  }

  lemma NodeConservedAfterHandling(t: Topology, s: Net, ticket: nat, how: Handling, s': Net, m: NodeId)
    requires Conserved(t, s) && ticket < |s.accepted| && ticket !in s.handled && m in s.nodes
    requires s'.accepted == s.accepted && s'.handled == s.handled[ticket := how] && s'.nodes.Keys == s.nodes.Keys
    requires s'.nodes[m].available
          == s.nodes[m].available
             + if how.SentOver? && m == s.accepted[ticket].node then s.accepted[ticket].packet.Size() else 0
    ensures NodeConserved(t, s', m)
  {
    hide Bytes, Topology.Valid;
    assert NodeConserved(t, s, m);
    if m == s.accepted[ticket].node {
      assert HeldTickets(s, m) == HeldTickets(s', m) + {ticket};
      BytesWith(s.accepted, HeldTickets(s', m), ticket);
      if how.ClearDropped? {
        assert ClearedTickets(s', m) == ClearedTickets(s, m) + {ticket};
        BytesWith(s.accepted, ClearedTickets(s, m), ticket);
      } else {
        assert ClearedTickets(s', m) == ClearedTickets(s, m);
      }
    } else {
      assert HeldTickets(s', m) == HeldTickets(s, m);
      assert ClearedTickets(s', m) == ClearedTickets(s, m);
    }
  }

  lemma ConservedAfterHandling(t: Topology, s: Net, ticket: nat, how: Handling, s': Net)
    requires Conserved(t, s) && ticket < |s.accepted| && ticket !in s.handled
    requires s'.accepted == s.accepted && s'.handled == s.handled[ticket := how] && s'.nodes.Keys == s.nodes.Keys
    requires forall m :: m in s.nodes ==>
               s'.nodes[m].available
               == s.nodes[m].available
                  + if how.SentOver? && m == s.accepted[ticket].node then s.accepted[ticket].packet.Size() else 0
    ensures Conserved(t, s')
  {
    hide NodeConserved;
    forall m | m in s.nodes
      ensures NodeConserved(t, s', m)
    {
      NodeConservedAfterHandling(t, s, ticket, how, s', m);
    }
  }

  lemma ConservedAfterFinish(t: Topology, s: Net, l: LinkId)
    requires Fine(t, s) && Conserved(t, s) && InOffering(s, l)
    ensures Conserved(t, Finish(t, s, l))
  {
    hide Fine, Sound, Topology.Valid, Conserved, Topology.TransmissionTime, Batch.Add;
    BusyFacts(t, s, l);
    var ticket := s.links[l].task.packet.ticket;
    if Handled(s, l) {
      ConservedWithSameBuffers(t, s, Finish(t, s, l));
    } else if ClearedFromBuffer(s, ticket) {
      ConservedAfterHandling(t, s, ticket, ClearDropped, Finish(t, s, l));
    } else {
      ConservedAfterHandling(t, s, ticket, SentOver(l), Finish(t, s, l));
    }
  }

  lemma ConservedAfterStore(t: Topology, s: Net, n: NodeId, p: Packet, luck: Luck)
    requires Conserved(t, s) && n in s.nodes && n in t.nodes
    ensures Conserved(t, Store(t, s, n, p, luck))
  {
    hide Conserved, Enqueue;
    var twin := p.(id := luck.freshId, duplicate := true);
    ConservedWithSameBuffers(t, s, s.Record(PacketDropped(p.id, n, Random)));
    ConservedAfterEnqueue(t, s, n, p);
    var s1 := Enqueue(s, n, p);
    var s2 := s1.(ids := s1.ids + {luck.freshId}).Record(DuplicationRecord(n, twin));
    ConservedWithSameBuffers(t, s1, s2);
    ConservedAfterEnqueue(t, s2, n, twin);
  }

  lemma ConservedAfterForward(t: Topology, s: Net, n: NodeId, p: Packet, luck: Luck)
    requires Conserved(t, s) && n in s.nodes && n in t.nodes
    ensures Conserved(t, Forward(t, s, n, p, luck))
  {
    hide Conserved, Store;
    ConservedWithSameBuffers(t, s, s.Record(ArrivalRecord(n, p, true)));
    var s1 := s.Record(ArrivalRecord(n, p, false));
    ConservedWithSameBuffers(t, s, s1);
    ConservedWithSameBuffers(t, s1, Deliver(s1, n, p));
    ConservedWithSameBuffers(t, s1, s1.Record(PacketDropped(p.id, n, ZeroTtl)));
    ConservedAfterStore(t, s1, n, Hop(p), luck);
  }

  lemma ConservedAfterInject(t: Topology, s: Net, n: NodeId, id: PacketId, d: Datagram, luck: Luck)
    requires Sound(t, s) && Conserved(t, s) && n in s.nodes
    ensures Conserved(t, Inject(t, s, n, id, d, luck))
  {
    hide Conserved, Forward, Topology.Valid;
    var s1 := s.(nextNumber := s.nextNumber + 1, ids := s.ids + {id});
    ConservedWithSameBuffers(t, s, s1);
    ConservedAfterForward(t, s1, n, Packet(id, s.nextNumber, d.payload, d.dest, d.port, d.ttl, false), luck);
  }

  lemma ConservedAfterLand(t: Topology, s: Net, l: LinkId, x: InTransit, luck: Luck)
    requires Sound(t, s) && Conserved(t, s) && l in s.links
    ensures Conserved(t, Land(t, s, l, x, luck))
  {
    hide Conserved, Forward, Topology.Valid;
    var s1 := TakeOff(s, l, x);
    ConservedWithSameBuffers(t, s, s1);
    ConservedWithSameBuffers(t, s1, s1.Record(PacketLostInTransit(x.packet.id, l)));
    ConservedAfterForward(t, s1, t.Target(l), x.packet, luck);
  }

  lemma ConservedInitially(t: Topology)
    ensures Conserved(t, Initial(t))
  {
    var s := Initial(t);
    forall n | n in s.nodes
      ensures NodeConserved(t, s, n)
    {
      assert HeldTickets(s, n) == {} && ClearedTickets(s, n) == {};
    }
  }

  lemma ConservedAfterDispatch(t: Topology, s: Net, n: NodeId, rolls: seq<real>)
    requires Conserved(t, s) && CanDispatch(t, s, n, rolls)
    ensures Conserved(t, Dispatch(t, s, n, rolls))
  {
    hide Topology.Valid, NodeSound, LinkSound, Offer, Conserved;
    ConservedWithSameBuffers(t, s, Dispatch(t, s, n, rolls));
  }

  lemma ConservedAfterTake(t: Topology, s: Net, l: LinkId)
    requires Sound(t, s) && Conserved(t, s) && l in s.links && s.links[l].task.Idle? && s.links[l].queue != []
    ensures Conserved(t, Take(t, s, l))
  {
    hide Topology.Valid, NodeSound, Conserved, Topology.TransmissionTime;
    ConservedWithSameBuffers(t, s, Take(t, s, l));
  }

  lemma ConservedAfterTaskChange(t: Topology, s: Net, l: LinkId, task: LinkTask)
    requires Conserved(t, s) && l in s.links
    ensures Conserved(t, WithTask(s, l, task))
  {
    hide Conserved;
    ConservedWithSameBuffers(t, s, WithTask(s, l, task));
  }

  lemma ConservedAfterRead(t: Topology, s: Net, n: NodeId, x: InTransit)
    requires Conserved(t, s) && n in s.nodes
    ensures Conserved(t, Read(s, n, x))
  {
    hide Conserved;
    ConservedWithSameBuffers(t, s, Read(s, n, x));
  }

  lemma ConservedAfterLinkChange(t: Topology, s: Net, e: LinkEvent)
    requires Conserved(t, s)
    ensures Conserved(t, LinkChange(s, e))
  {
    hide Conserved, ChangedLink;
    ConservedWithSameBuffers(t, s, LinkChange(s, e));
  }

  lemma ConservedAfterNodeChange(t: Topology, s: Net, e: NodeEvent)
    requires Conserved(t, s)
    ensures Conserved(t, NodeChange(s, e))
  {
    hide Conserved;
    ConservedWithSameBuffers(t, s, NodeChange(s, e));
  }

  lemma ConservedAfterStep(t: Topology, s: Net, a: Action)
    requires Fine(t, s) && Conserved(t, s) && Enabled(t, s, a)
    ensures Conserved(t, Apply(t, s, a))
  {
    hide Fine, Conserved, Forward, Topology.Valid, NodeSound, LinkSound, Finish, SameBuffers, CanDispatch,
         Inject, Land, Take, Dispatch, WithTask, Read, LinkChange, NodeChange;
    match a
    case Injecting(n, id, d, luck) => ConservedAfterInject(t, s, n, id, d, luck);
    case Dispatching(n, rolls) => ConservedAfterDispatch(t, s, n, rolls);
    case Taking(l) => ConservedAfterTake(t, s, l);
    case Waking(l) => ConservedAfterTaskChange(t, s, l, Busy(s.links[l].task.packet, Offering));
    case GivingWay(l) =>
      var copy := s.links[l].task.packet;
      ConservedAfterTaskChange(t, s, l, Busy(copy.(preferred := copy.preferred[1..]), Offering));
    case Finishing(l) => ConservedAfterFinish(t, s, l);
    case Landing(l, x, luck) => ConservedAfterLand(t, s, l, x, luck);
    case Reading(n, x) => ConservedAfterRead(t, s, n, x);
    case LinkChanging(e) => ConservedAfterLinkChange(t, s, e);
    case NodeChanging(e) => ConservedAfterNodeChange(t, s, e);
    case Passing(until) => ConservedWithSameBuffers(t, s, s.(now := until)) by { SameBuffersLater(s, until); }
  }

  lemma SameBuffersLater(s: Net, until: Duration)
    ensures SameBuffers(s, s.(now := until))
  {
  }

  /**
   In every run and for every node: the capacity of the buffer is what is available, plus the
   bytes of the packets it holds, plus the bytes of the packets that were cleared from it, which
   are never given back.
   */
  lemma {:induction false} BufferConservation(t: Topology, actions: seq<Action>)
    requires IsRun(t, actions)
    ensures Conserved(t, StateAfter(t, actions))
  {
    hide Conserved, Enabled, IsRun, StateAfter, Apply;
    LastStep(t, actions);
    if actions == [] {
      ConservedInitially(t);
    } else {
      BufferConservation(t, actions[..|actions| - 1]);
      RunIsFine(t, actions[..|actions| - 1]);
      ConservedAfterStep(t, StateAfter(t, actions[..|actions| - 1]), actions[|actions| - 1]);
    }
  }
}
