/** What becomes of a packet that arrives in a node: told from the ratios, the roll, the TTL and the free space. */
module Arrivals {
  import opened Prelude
  import opened Trace
  import opened Cidr
  import opened Network
  import opened Soundness

  /** A packet that comes to a node, and what the random number generator has in store for it. */
  datatype Visit = Visit(node: NodeId, packet: Packet, luck: Luck)

  /** What a step brings to a node: a packet that an application sends, or one that a link delivers and that was not lost. */
  ghost function Brought(t: Topology, s: Net, a: Action): Option<Visit>
    requires Enabled(t, s, a)
  {
    match a
    case Injecting(n, id, d, luck) => Some(Visit(n, Packet(id, s.nextNumber, d.payload, d.dest, d.port, d.ttl, false), luck))
    case Landing(l, x, luck) =>
      if s.links[l].lastDown.Some? && x.sent < s.links[l].lastDown.value then None
      else Some(Visit(t.Target(l), x.packet, luck))
    case _ => None
  }

  /** The step adds these records to the log, these packets to those that buffers accepted, and the rest to an inbox. */
  ghost predicate Adds(s: Net, s': Net, n: NodeId, records: seq<StepKind>, accepted: seq<Packet>, inbox: multiset<InTransit>)
    requires n in s.nodes
  {
    && s'.log == s.log + seq(|records|, i requires 0 <= i < |records| => Step(s.now, records[i]))
    && s'.accepted == s.accepted + seq(|accepted|, i requires 0 <= i < |accepted| => Buffered(n, s.now, accepted[i]))
    && n in s'.nodes && s'.nodes[n].inbox == s.nodes[n].inbox + inbox
    && s'.nodes[n].available + Sizes(accepted) == s.nodes[n].available
    && s'.nodes[n].outbound
       == s.nodes[n].outbound + seq(|accepted|, i requires 0 <= i < |accepted| => |s.accepted| + i)
  }

  function Sizes(packets: seq<Packet>): nat {
    if packets == [] then 0 else Sizes(packets[..|packets| - 1]) + 28 + packets[|packets| - 1].payload
  }

  lemma SizesOf(p: Packet, q: Packet)
    ensures Sizes([]) == 0 && Sizes([p]) == 28 + p.payload && Sizes([p, q]) == 56 + p.payload + q.payload
  {
    assert [p][..0] == [] && [p, q][..1] == [p];
  }

  /** A node that is up and is not where the packet goes: loss and duplication are decided by one roll, then comes the buffer. */
  ghost predicate PassesThrough(info: NodeInfo, s: Net, s': Net, n: NodeId, p: Packet, luck: Luck)
    requires n in s.nodes && p.ttl > 1
  {
    var entered := PacketInNode(p.id, p.number, 28 + p.payload, n, false);
    var hop := p.(ttl := p.ttl - 1);
    var twin := hop.(id := luck.freshId, duplicate := true);
    var size, free := 28 + p.payload, s.nodes[n].available;
    if luck.roll < info.lossRatio then Adds(s, s', n, [entered, PacketDropped(p.id, n, Random)], [], multiset{})
    else if luck.roll < info.lossRatio + info.duplicationRatio then
      var made := PacketDuplicated(luck.freshId, p.number, size, n);
      if 2 * size <= free then Adds(s, s', n, [entered, made], [hop, twin], multiset{})
      else if size <= free then Adds(s, s', n, [entered, made, PacketDropped(luck.freshId, n, BufferFull)], [hop], multiset{})
      else Adds(s, s', n,
                [entered, PacketDropped(p.id, n, BufferFull), made, PacketDropped(luck.freshId, n, BufferFull)], [], multiset{})
    else if size <= free then Adds(s, s', n, [entered], [hop], multiset{})
    else Adds(s, s', n, [entered, PacketDropped(p.id, n, BufferFull)], [], multiset{})
  }

  /** Everything that may become of a packet that comes to node `n`. */
  ghost predicate Treats(info: NodeInfo, s: Net, s': Net, n: NodeId, p: Packet, luck: Luck)
    requires n in s.nodes
  {
    var size := 28 + p.payload;
    if s.nodes[n].status == Down then Adds(s, s', n, [PacketInNode(p.id, p.number, size, n, true)], [], multiset{})
    else if p.dest == info.canonical then
      Adds(s, s', n, [PacketInNode(p.id, p.number, size, n, false)], [], multiset{InTransit(p, s.now, 0.0)})
    else if p.ttl <= 1 then
      Adds(s, s', n, [PacketInNode(p.id, p.number, size, n, false), PacketDropped(p.id, n, ZeroTtl)], [], multiset{})
    else PassesThrough(info, s, s', n, p, luck)
  }

  lemma AddsOneRecord(s: Net, kind: StepKind, n: NodeId)
    requires n in s.nodes
    ensures Adds(s, s.Record(kind), n, [kind], [], multiset{})
  {
  }

  lemma AddsTwice(a: Net, b: Net, c: Net, n: NodeId, r: seq<StepKind>, p: seq<Packet>, i: multiset<InTransit>,
                  r': seq<StepKind>, p': seq<Packet>, i': multiset<InTransit>)
    requires n in a.nodes && n in b.nodes && b.now == a.now
    requires Adds(a, b, n, r, p, i) && Adds(b, c, n, r', p', i')
    ensures Adds(a, c, n, r + r', p + p', i + i')
  {
    SizesAppend(p, p');
    assert c.nodes[n].inbox == a.nodes[n].inbox + (i + i');
  }

  lemma {:induction false} SizesAppend(p: seq<Packet>, p': seq<Packet>)
    ensures Sizes(p + p') == Sizes(p) + Sizes(p')
  {
    if p' == [] {
      assert p + p' == p;
    } else {
      assert (p + p')[..|p + p'| - 1] == p + p'[..|p'| - 1];
      SizesAppend(p, p'[..|p'| - 1]);
    }
  }

  lemma EnqueueAdds(s: Net, n: NodeId, p: Packet)
    requires n in s.nodes
    ensures var s', size := Enqueue(s, n, p), 28 + p.payload;
            && n in s'.nodes && s'.now == s.now
            && if size <= s.nodes[n].available
               then Adds(s, s', n, [], [p], multiset{}) && s'.nodes[n].available == s.nodes[n].available - size
               else Adds(s, s', n, [PacketDropped(p.id, n, BufferFull)], [], multiset{})
                    && s'.nodes[n].available == s.nodes[n].available
  {
    SizesOf(p, p);
  }

  /** After the roll: `s1` is where the packet was recorded. */
  lemma StoreAdds(t: Topology, s: Net, n: NodeId, p: Packet, luck: Luck)
    requires n in s.nodes && n in t.nodes
    ensures var s', size, free := Store(t, s, n, p, luck), 28 + p.payload, s.nodes[n].available;
            var twin := p.(id := luck.freshId, duplicate := true);
            var made := PacketDuplicated(luck.freshId, p.number, size, n);
            if luck.roll < t.nodes[n].lossRatio then Adds(s, s', n, [PacketDropped(p.id, n, Random)], [], multiset{})
            else if luck.roll < t.nodes[n].lossRatio + t.nodes[n].duplicationRatio then
              if 2 * size <= free then Adds(s, s', n, [made], [p, twin], multiset{})
              else if size <= free then Adds(s, s', n, [made, PacketDropped(luck.freshId, n, BufferFull)], [p], multiset{})
              else Adds(s, s', n, [PacketDropped(p.id, n, BufferFull), made, PacketDropped(luck.freshId, n, BufferFull)], [],
                        multiset{})
            else if size <= free then Adds(s, s', n, [], [p], multiset{})
            else Adds(s, s', n, [PacketDropped(p.id, n, BufferFull)], [], multiset{})
  {
    hide Adds, Enqueue;
    if luck.roll < t.nodes[n].lossRatio {
      AddsOneRecord(s, PacketDropped(p.id, n, Random), n);
    } else {
      EnqueueAdds(s, n, p);
      if luck.roll < t.nodes[n].lossRatio + t.nodes[n].duplicationRatio {
        DuplicationAdds(s, n, p, luck.freshId);
      }
    }
  }

  lemma DuplicationAdds(s: Net, n: NodeId, p: Packet, freshId: PacketId)
    requires n in s.nodes
    ensures var twin, made := p.(id := freshId, duplicate := true), PacketDuplicated(freshId, p.number, 28 + p.payload, n);
            var s1 := Enqueue(s, n, p);
            var s' := Enqueue(s1.(ids := s1.ids + {freshId}).Record(made), n, twin);
            var size, free := 28 + p.payload, s.nodes[n].available;
            if 2 * size <= free then Adds(s, s', n, [made], [p, twin], multiset{})
            else if size <= free then Adds(s, s', n, [made, PacketDropped(freshId, n, BufferFull)], [p], multiset{})
            else Adds(s, s', n, [PacketDropped(p.id, n, BufferFull), made, PacketDropped(freshId, n, BufferFull)], [], multiset{})
  {
    hide Adds, Enqueue;
    var twin, made := p.(id := freshId, duplicate := true), PacketDuplicated(freshId, p.number, 28 + p.payload, n);
    var s1 := Enqueue(s, n, p);
    var s2 := s1.(ids := s1.ids + {freshId}).Record(made);
    var s' := Enqueue(s2, n, twin);
    EnqueueAdds(s, n, p);
    RecordAdds(s1, s2, made, n);
    EnqueueAdds(s2, n, twin);
    var size, free := 28 + p.payload, s.nodes[n].available;
    var full, twinFull := PacketDropped(p.id, n, BufferFull), PacketDropped(freshId, n, BufferFull);
    var none: multiset<InTransit> := multiset{};
    assert none + none == none;
    if 2 * size <= free {
      AddsTwice(s, s1, s2, n, [], [p], multiset{}, [made], [], multiset{});
      AddsTwice(s, s2, s', n, [] + [made], [p] + [], multiset{} + multiset{}, [], [twin], multiset{});
      var kinds: seq<StepKind> := [];
      assert kinds + [made] + [] == [made] && [p] + [] + [twin] == [p, twin];
    } else if size <= free {
      AddsTwice(s, s1, s2, n, [], [p], multiset{}, [made], [], multiset{});
      AddsTwice(s, s2, s', n, [] + [made], [p] + [], multiset{} + multiset{}, [twinFull], [], multiset{});
      var kinds: seq<StepKind> := [];
      assert kinds + [made] + [twinFull] == [made, twinFull] && [p] + [] + [] == [p];
    } else {
      AddsTwice(s, s1, s2, n, [full], [], multiset{}, [made], [], multiset{});
      AddsTwice(s, s2, s', n, [full] + [made], [] + [], multiset{} + multiset{}, [twinFull], [], multiset{});
      var packets: seq<Packet> := [];
      assert [full] + [made] + [twinFull] == [full, made, twinFull] && packets + [] + [] == [];
    }
  }

  lemma RecordAdds(s: Net, s': Net, kind: StepKind, n: NodeId)
    requires n in s.nodes && s' == s.(ids := s'.ids).Record(kind)
    ensures Adds(s, s', n, [kind], [], multiset{}) && n in s'.nodes && s'.nodes[n].available == s.nodes[n].available
  {
  }

  /** The first record, and then the rest. */
  lemma AddsAfterRecord(s: Net, kind: StepKind, s': Net, n: NodeId, records: seq<StepKind>, accepted: seq<Packet>,
                        inbox: multiset<InTransit>)
    requires n in s.nodes && Adds(s.Record(kind), s', n, records, accepted, inbox)
    ensures Adds(s, s', n, [kind] + records, accepted, inbox)
  {
    hide Adds;
    AddsOneRecord(s, kind, n);
    AddsTwice(s, s.Record(kind), s', n, [kind], [], multiset{}, records, accepted, inbox);
    assert [] + accepted == accepted && multiset{} + inbox == inbox;
  }

  lemma DeliverAdds(s: Net, n: NodeId, p: Packet)
    requires n in s.nodes
    ensures Adds(s, Deliver(s, n, p), n, [], [], multiset{InTransit(p, s.now, 0.0)})
  {
  }

  lemma PassingAdds(t: Topology, s: Net, n: NodeId, p: Packet, luck: Luck)
    requires n in s.nodes && n in t.nodes && p.ttl > 1
    ensures PassesThrough(t.nodes[n], s, Store(t, s.Record(ArrivalRecord(n, p, false)), n, Hop(p), luck), n, p, luck)
  {
    hide Adds, Store;
    var hop, entered := p.(ttl := p.ttl - 1), ArrivalRecord(n, p, false);
    assert hop == Hop(p);
    var s' := Store(t, s.Record(entered), n, hop, luck);
    StoreAdds(t, s.Record(entered), n, hop, luck);
    var size, free := 28 + p.payload, s.nodes[n].available;
    var twin, made := hop.(id := luck.freshId, duplicate := true), PacketDuplicated(luck.freshId, p.number, size, n);
    var full, twinFull := PacketDropped(p.id, n, BufferFull), PacketDropped(luck.freshId, n, BufferFull);
    if luck.roll < t.nodes[n].lossRatio {
      AddsAfterRecord(s, entered, s', n, [PacketDropped(p.id, n, Random)], [], multiset{});
      assert [entered] + [PacketDropped(p.id, n, Random)] == [entered, PacketDropped(p.id, n, Random)];
    } else if luck.roll < t.nodes[n].lossRatio + t.nodes[n].duplicationRatio {
      if 2 * size <= free {
        AddsAfterRecord(s, entered, s', n, [made], [hop, twin], multiset{});
        assert [entered] + [made] == [entered, made];
      } else if size <= free {
        AddsAfterRecord(s, entered, s', n, [made, twinFull], [hop], multiset{});
        assert [entered] + [made, twinFull] == [entered, made, twinFull];
      } else {
        AddsAfterRecord(s, entered, s', n, [full, made, twinFull], [], multiset{});
        assert [entered] + [full, made, twinFull] == [entered, full, made, twinFull];
      }
    } else if size <= free {
      AddsAfterRecord(s, entered, s', n, [], [hop], multiset{});
      assert [entered] + [] == [entered];
    } else {
      AddsAfterRecord(s, entered, s', n, [full], [], multiset{});
      assert [entered] + [full] == [entered, full];
    }
  }

  lemma ForwardTreats(t: Topology, s: Net, n: NodeId, p: Packet, luck: Luck)
    requires n in s.nodes && n in t.nodes
    ensures Treats(t.nodes[n], s, Forward(t, s, n, p, luck), n, p, luck)
  {
    hide Adds, Store, Deliver, PassesThrough;
    var entered := ArrivalRecord(n, p, false);
    var s1, s' := s.Record(entered), Forward(t, s, n, p, luck);
    if s.nodes[n].status == Down {
      AddsOneRecord(s, ArrivalRecord(n, p, true), n);
    } else if p.dest == t.nodes[n].canonical {
      DeliverAdds(s1, n, p);
      AddsAfterRecord(s, entered, s', n, [], [], multiset{InTransit(p, s.now, 0.0)});
      assert [entered] + [] == [entered];
    } else if p.ttl <= 1 {
      AddsOneRecord(s1, PacketDropped(p.id, n, ZeroTtl), n);
      AddsAfterRecord(s, entered, s', n, [PacketDropped(p.id, n, ZeroTtl)], [], multiset{});
      assert [entered] + [PacketDropped(p.id, n, ZeroTtl)] == [entered, PacketDropped(p.id, n, ZeroTtl)];
    } else {
      PassingAdds(t, s, n, p, luck);
    }
  }

  /** Only the nodes, the log, the clock and what buffers accepted matter. */
  lemma TreatsSame(info: NodeInfo, s: Net, s1: Net, s': Net, n: NodeId, p: Packet, luck: Luck)
    requires n in s.nodes && s1 == s.(links := s1.links, nextNumber := s1.nextNumber, ids := s1.ids)
    requires Treats(info, s1, s', n, p, luck)
    ensures Treats(info, s, s', n, p, luck)
  {
    AddsSame(s, s1, s', n);
    hide Adds;
  }

  lemma AddsSame(s: Net, s1: Net, s': Net, n: NodeId)
    requires n in s.nodes && s1 == s.(links := s1.links, nextNumber := s1.nextNumber, ids := s1.ids)
    ensures forall records, accepted, inbox :: Adds(s1, s', n, records, accepted, inbox) ==> Adds(s, s', n, records, accepted, inbox)
  {
  }

  lemma BroughtIsTreated(t: Topology, s: Net, a: Action, visit: Visit)
    requires Sound(t, s) && Enabled(t, s, a) && Brought(t, s, a) == Some(visit)
    ensures visit.node in s.nodes && visit.node in t.nodes
    ensures Treats(t.nodes[visit.node], s, Apply(t, s, a), visit.node, visit.packet, visit.luck)
  {
    hide Treats, Forward, Sound, IsNext, Topology.Valid;
    VisitsANode(t, s, a, visit);
    match a
    case Injecting(n, id, d, luck) =>
      var s1 := s.(nextNumber := s.nextNumber + 1, ids := s.ids + {id});
      ForwardTreats(t, s1, n, visit.packet, luck);
      TreatsSame(t.nodes[n], s, s1, Apply(t, s, a), n, visit.packet, luck);
    case Landing(l, x, luck) =>
      ForwardTreats(t, TakeOff(s, l, x), visit.node, visit.packet, luck);
      TreatsSame(t.nodes[visit.node], s, TakeOff(s, l, x), Apply(t, s, a), visit.node, visit.packet, luck);
  }

  lemma VisitsANode(t: Topology, s: Net, a: Action, visit: Visit)
    requires Sound(t, s) && Enabled(t, s, a) && Brought(t, s, a) == Some(visit)
    ensures visit.node in s.nodes && visit.node in t.nodes
  {
    hide NodeSound, LinkSound, IsNext;
  }

  // ---- Runs -----------------------------------------------------------------------------------

  /**
   In every run, whatever comes to a node is treated by its ratios, its buffer and the packet's TTL alone:
   a node that is down refuses it; the node it is for puts it in its inbox; a TTL of at most one ends
   its way; else a roll below the loss ratio drops it, one below the sum of the ratios makes a twin of
   it, and what fits in the buffer is accepted with one less TTL, and waits.
   */
  lemma ArrivalsAreExact(t: Topology, actions: seq<Action>, i: nat, visit: Visit)
    requires IsRun(t, actions) && i < |actions| && IsRun(t, actions[..i]) && IsRun(t, actions[..i + 1])
    requires Enabled(t, StateAfter(t, actions[..i]), actions[i])
    requires Brought(t, StateAfter(t, actions[..i]), actions[i]) == Some(visit)
    ensures visit.node in StateAfter(t, actions[..i]).nodes && visit.node in t.nodes
    ensures Treats(t.nodes[visit.node], StateAfter(t, actions[..i]), StateAfter(t, actions[..i + 1]), visit.node, visit.packet,
                   visit.luck)
  {
    hide IsRun, StateAfter, Enabled, Apply, Brought, Treats, Fine;
    Prefix(t, actions, i);
    RunIsFine(t, actions[..i]);
    assert Sound(t, StateAfter(t, actions[..i])) by { FineIsSound(t, StateAfter(t, actions[..i])); }
    BroughtIsTreated(t, StateAfter(t, actions[..i]), actions[i], visit);
  }

  lemma FineIsSound(t: Topology, s: Net)
    requires Fine(t, s)
    ensures Sound(t, s)
  {
    hide Sound, Timely;
  }

  ghost predicate Writes(s: Net, s': Net, kind: StepKind) {
    exists k :: |s.log| <= k < |s'.log| && s'.log[k].kind == kind
  }

  lemma WritesWhatItAdds(s: Net, s': Net, n: NodeId, records: seq<StepKind>, accepted: seq<Packet>, inbox: multiset<InTransit>,
                         kind: StepKind)
    requires n in s.nodes && Adds(s, s', n, records, accepted, inbox)
    ensures Writes(s, s', kind) <==> kind in records
  {
    if kind in records {
      var i :| 0 <= i < |records| && records[i] == kind;
      assert s'.log[|s.log| + i].kind == kind;
    }
  }

  /**
   In every run, when a packet with some TTL left comes to a node that is up and not its destination: it
   is dropped at random if and only if the roll is below the loss ratio, and duplicated if and only if
   it is not, but below the sum of the two ratios.
   */
  lemma RollsDecide(t: Topology, actions: seq<Action>, i: nat, n: NodeId, p: Packet, luck: Luck)
    requires IsRun(t, actions) && i < |actions| && IsRun(t, actions[..i]) && IsRun(t, actions[..i + 1])
    requires Enabled(t, StateAfter(t, actions[..i]), actions[i])
    requires Brought(t, StateAfter(t, actions[..i]), actions[i]) == Some(Visit(n, p, luck))
    requires n in StateAfter(t, actions[..i]).nodes && n in t.nodes
    requires StateAfter(t, actions[..i]).nodes[n].status == Up && t.nodes[n].canonical != p.dest && p.ttl > 1
    ensures var before, after := StateAfter(t, actions[..i]), StateAfter(t, actions[..i + 1]);
            && (Writes(before, after, PacketDropped(p.id, n, Random)) <==> luck.roll < t.nodes[n].lossRatio)
            && (Writes(before, after, PacketDuplicated(luck.freshId, p.number, 28 + p.payload, n))
                <==> t.nodes[n].lossRatio <= luck.roll < t.nodes[n].lossRatio + t.nodes[n].duplicationRatio)
  {
    hide IsRun, StateAfter, Enabled, Brought, Adds, Writes;
    ArrivalsAreExact(t, actions, i, Visit(n, p, luck));
    var before, after := StateAfter(t, actions[..i]), StateAfter(t, actions[..i + 1]);
    forall kind, records, accepted, inbox | Adds(before, after, n, records, accepted, inbox)
      ensures Writes(before, after, kind) <==> kind in records
    {
      WritesWhatItAdds(before, after, n, records, accepted, inbox, kind);
    }
  }
}
