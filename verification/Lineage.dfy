/** No packet goes over more links than its TTL allows, counting those its originals went over. */
module Lineage {
  import opened Prelude
  import opened Trace
  import opened PacketPacer
  import opened Network
  import opened PacketLog
  import opened Soundness
  import opened Queues
  import opened Places
  import opened Pacing
  import opened Termination
  import opened Copies
  import opened TracedRuns

  /**
   How many links each packet went over. A duplicate starts with the count of its original. (An id
   that was drawn for a duplicate that was not needed counts as well; it does no harm.)
   */
  ghost function Hops(t: Topology, actions: seq<Action>): map<PacketId, nat>
    requires IsRun(t, actions)
    decreases |actions|
  {
    LastStep(t, actions);
    if actions == [] then map[]
    else
      HopsAfter(StateAfter(t, actions[..|actions| - 1]), Hops(t, actions[..|actions| - 1]), actions[|actions| - 1])
  }

  function HopsOf(hops: map<PacketId, nat>, id: PacketId): nat {
    if id in hops then hops[id] else 0
  }

  ghost function HopsAfter(s: Net, hops: map<PacketId, nat>, a: Action): map<PacketId, nat> {
    match a
    case Injecting(_, id, _, luck) => hops[id := 0][luck.freshId := 0]
    case Landing(_, x, luck) => hops[luck.freshId := HopsOf(hops, x.packet.id)]
    case Finishing(l) =>
      if Termination.Sends(s, l) then
        var id := s.accepted[s.links[l].task.packet.ticket].packet.id;
        hops[id := HopsOf(hops, id) + 1]
      else hops
    case _ => hops
  }

  // ---- TTL and hops add up --------------------------------------------------------------------

  /**
   The packet is addressed as it was sent, and `spent` links with as many more as it may still go
   over are within the TTL it was sent with.
   */
  ghost predicate Within(hops: map<PacketId, nat>, sent: seq<Datagram>, p: Packet, spent: nat) {
    && p.number < |sent| && p.ttl >= 1 && p.dest == sent[p.number].dest
    && p.payload == sent[p.number].payload && p.port == sent[p.number].port
    && HopsOf(hops, p.id) + spent + p.ttl == sent[p.number].ttl
  }

  /** A packet in a buffer has used up one hop for the node it is in. */
  ghost predicate Fit(s: Net, hops: map<PacketId, nat>, sent: seq<Datagram>) {
    && (forall k :: 0 <= k < |s.accepted| && k !in s.handled ==> Within(hops, sent, s.accepted[k].packet, 1))
    && (forall l, x :: l in s.links && x in s.links[l].inTransit ==> Within(hops, sent, x.packet, 0))
  }

  /** `s'` has no packet in a buffer or on a link that `s` does not have there. */
  ghost predicate NoMorePackets(s: Net, s': Net) {
    && s'.accepted == s.accepted && s.handled.Keys <= s'.handled.Keys && s'.links.Keys == s.links.Keys
    && forall l, x :: l in s.links && x in s'.links[l].inTransit ==> x in s.links[l].inTransit
  }

  lemma FitStays(s: Net, s': Net, hops: map<PacketId, nat>, sent: seq<Datagram>)
    requires Fit(s, hops, sent) && NoMorePackets(s, s')
    ensures Fit(s', hops, sent)
  {
    hide Within;
  }

  lemma FitWithOtherHops(s: Net, hops: map<PacketId, nat>, sent: seq<Datagram>, id: PacketId, n: nat)
    requires Fit(s, hops, sent) && Absent(s, id)
    ensures Fit(s, hops[id := n], sent)
  {
  }

  lemma FitWithMoreSent(s: Net, hops: map<PacketId, nat>, sent: seq<Datagram>, d: Datagram)
    requires Fit(s, hops, sent)
    ensures Fit(s, hops, sent + [d])
  {
  }

  lemma FitAfterEnqueue(s: Net, n: NodeId, p: Packet, hops: map<PacketId, nat>, sent: seq<Datagram>)
    requires Fit(s, hops, sent) && n in s.nodes && Within(hops, sent, p, 1)
    ensures Fit(Enqueue(s, n, p), hops, sent)
  {
    hide Within;
  }

  lemma FitAfterStore(t: Topology, s: Net, n: NodeId, p: Packet, luck: Luck, hops: map<PacketId, nat>, sent: seq<Datagram>)
    requires Fit(s, hops, sent) && n in s.nodes && n in t.nodes && Within(hops, sent, p, 1)
    requires HopsOf(hops, luck.freshId) == HopsOf(hops, p.id)
    ensures Fit(Store(t, s, n, p, luck), hops, sent)
  {
    hide Fit, Enqueue;
    var twin := p.(id := luck.freshId, duplicate := true);
    FitStays(s, s.Record(PacketDropped(p.id, n, Random)), hops, sent);
    FitAfterEnqueue(s, n, p, hops, sent);
    var s1 := Enqueue(s, n, p);
    var s2 := s1.(ids := s1.ids + {luck.freshId}).Record(DuplicationRecord(n, twin));
    FitStays(s1, s2, hops, sent);
    FitAfterEnqueue(s2, n, twin, hops, sent);
  }

  /** A packet arrives that may have used up its TTL. */
  ghost predicate MayCome(hops: map<PacketId, nat>, sent: seq<Datagram>, p: Packet) {
    && p.number < |sent| && p.dest == sent[p.number].dest
    && p.payload == sent[p.number].payload && p.port == sent[p.number].port
    && HopsOf(hops, p.id) + p.ttl == sent[p.number].ttl
  }

  lemma FitAfterForward(t: Topology, s: Net, n: NodeId, p: Packet, luck: Luck, hops: map<PacketId, nat>, sent: seq<Datagram>)
    requires Fit(s, hops, sent) && n in s.nodes && n in t.nodes && MayCome(hops, sent, p)
    requires HopsOf(hops, luck.freshId) == HopsOf(hops, p.id)
    ensures Fit(Forward(t, s, n, p, luck), hops, sent)
  {
    hide Fit, Store;
    FitStays(s, s.Record(ArrivalRecord(n, p, true)), hops, sent);
    var s1 := s.Record(ArrivalRecord(n, p, false));
    FitStays(s, s1, hops, sent);
    FitStays(s1, Deliver(s1, n, p), hops, sent);
    FitStays(s1, s1.Record(PacketDropped(p.id, n, ZeroTtl)), hops, sent);
    if Hop(p).ttl > 0 {
      FitAfterStore(t, s1, n, Hop(p), luck, hops, sent);
    }
  }

  lemma FreshIsAbsent(s: Net, id: PacketId)
    requires Placed(s, Empty) && id !in s.ids
    ensures Absent(s, id)
  {
    hide OnePlace, SomePlace, OnceEach, Locate;
    forall k | 0 <= k < |s.accepted| && k !in s.handled
      ensures s.accepted[k].packet.id != id
    {
      assert Occupies(s, Empty, InBuffer(k), s.accepted[k].packet.id);
    }
    forall l, x | l in s.links && x in s.links[l].inTransit
      ensures x.packet.id != id
    {
      assert Occupies(s, Empty, InAir(l, x), x.packet.id);
    }
  }

  lemma FitAfterInject(t: Topology, s: Net, n: NodeId, id: PacketId, d: Datagram, luck: Luck, hops: map<PacketId, nat>,
                       sent: seq<Datagram>)
    requires Fit(s, hops, sent) && Placed(s, Empty) && Sound(t, s) && n in s.nodes && n in t.nodes
    requires id !in s.ids && luck.freshId !in s.ids && id != luck.freshId && s.nextNumber == |sent|
    ensures Fit(Inject(t, s, n, id, d, luck), hops[id := 0][luck.freshId := 0], sent + [d])
  {
    hide Fit, Sound, Placed, Forward;
    var hops' := hops[id := 0][luck.freshId := 0];
    FreshIsAbsent(s, id);
    FreshIsAbsent(s, luck.freshId);
    FitWithOtherHops(s, hops, sent, id, 0);
    FitWithOtherHops(s, hops[id := 0], sent, luck.freshId, 0);
    FitWithMoreSent(s, hops', sent, d);
    var s1 := s.(nextNumber := s.nextNumber + 1, ids := s.ids + {id});
    FitStays(s, s1, hops', sent + [d]);
    FitAfterForward(t, s1, n, Packet(id, s.nextNumber, d.payload, d.dest, d.port, d.ttl, false), luck, hops', sent + [d]);
  }

  lemma FitAfterLand(t: Topology, s: Net, l: LinkId, x: InTransit, luck: Luck, hops: map<PacketId, nat>, sent: seq<Datagram>)
    requires Fit(s, hops, sent) && Placed(s, Empty) && Sound(t, s) && t.Valid() && l in s.links && l in t.links
    requires t.Target(l) in s.nodes && t.Target(l) in t.nodes && x in s.links[l].inTransit && luck.freshId !in s.ids
    ensures Fit(Land(t, s, l, x, luck), hops[luck.freshId := HopsOf(hops, x.packet.id)], sent)
  {
    hide Sound, Placed, Forward, Topology.Valid;
    var hops' := hops[luck.freshId := HopsOf(hops, x.packet.id)];
    FreshIsAbsent(s, luck.freshId);
    FitWithOtherHops(s, hops, sent, luck.freshId, HopsOf(hops, x.packet.id));
    FitStays(s, TakeOff(s, l, x), hops', sent);
    FitStays(s, TakeOff(s, l, x).Record(PacketLostInTransit(x.packet.id, l)), hops', sent);
    assert Within(hops, sent, x.packet, 0) && Within(hops', sent, x.packet, 0);
    FitAfterForward(t, TakeOff(s, l, x), t.Target(l), x.packet, luck, hops', sent);
  }

  // ---- A transmission -------------------------------------------------------------------------

  lemma FitAfterPutOn(s: Net, l: LinkId, x: InTransit, time: Duration, hops: map<PacketId, nat>, sent: seq<Datagram>)
    requires Fit(s, hops, sent) && l in s.links && s.links[l].batch.created <= s.now && Within(hops, sent, x.packet, 0)
    ensures Fit(PutOn(s, l, x, time), hops, sent)
  {
    hide Within, Batch.Add;
  }

  lemma FitAfterTransmit(t: Topology, s: Net, l: LinkId, hops: map<PacketId, nat>, sent: seq<Datagram>)
    requires Fit(s, hops, sent) && Placed(s, Empty) && Fine(t, s) && InOffering(s, l) && !Handled(s, l)
    requires s.links[l].task.packet.ticket < |s.accepted| && Sound(t, s)
    ensures var id := s.accepted[s.links[l].task.packet.ticket].packet.id;
            Fit(Transmit(t, s, l), hops[id := HopsOf(hops, id) + 1], sent)
  {
    hide Fit, Fine, Sound, Topology.Valid, Placed, PutOn, Unbuffer, Absent;
    BusyFacts(t, s, l);
    var copy := s.links[l].task.packet;
    var b := s.accepted[copy.ticket];
    var hops' := hops[b.packet.id := HopsOf(hops, b.packet.id) + 1];
    var s1 := Unbuffer(s, l, copy.ticket);
    assert Within(hops, sent, b.packet, 1) by { TicketFits(s, copy.ticket, hops, sent); }
    UnbufferKeepsInboxes(s, l, copy.ticket);
    PlacedAfterMark(s, copy.ticket, s1);
    HandIsAbsent(s1, b.packet.id, AtNode(b.node));
    FitStays(s, s1, hops, sent);
    FitWithOtherHops(s1, hops, sent, b.packet.id, HopsOf(hops, b.packet.id) + 1);
    FitStays(s1, s1.Record(PacketInTransit(b.packet.id, b.node, l)), hops', sent);
    FitAfterPutOn(s1.Record(PacketInTransit(b.packet.id, b.node, l)), l,
                  InTransit(b.packet, s.now, s.links[l].delay + copy.extraDelay),
                  t.TransmissionTime(l, b.packet.Size()), hops', sent);
  }

  lemma TicketFits(s: Net, k: nat, hops: map<PacketId, nat>, sent: seq<Datagram>)
    requires Fit(s, hops, sent) && k < |s.accepted| && k !in s.handled
    ensures Within(hops, sent, s.accepted[k].packet, 1)
  {
    hide Within;
  }

  lemma FitAfterFinish(t: Topology, s: Net, l: LinkId, hops: map<PacketId, nat>, sent: seq<Datagram>)
    requires Fit(s, hops, sent) && Placed(s, Empty) && Fine(t, s) && Sound(t, s) && InOffering(s, l)
    ensures Fit(Finish(t, s, l), HopsAfter(s, hops, Finishing(l)), sent)
  {
    hide Fit, Fine, Sound, Placed, Transmit;
    BusyFacts(t, s, l);
    if Termination.Sends(s, l) {
      FitAfterTransmit(t, s, l, hops, sent);
    } else {
      FitStays(s, Finish(t, s, l), hops, sent);
    }
  }

  // ---- Runs -----------------------------------------------------------------------------------

  lemma OthersSendNothing(t: Topology, s: Net, a: Action)
    requires Enabled(t, s, a) && (Quiet(a) || a.Reading? || a.LinkChanging? || a.NodeChanging?)
    ensures NoMorePackets(s, Apply(t, s, a))
  {
    hide Sound, CanDispatch, Dispatch, Take, WithTask, Handled, ChangedLink, ChangedNode;
    if Quiet(a) {
      QuietStepSaysNoMore(t, s, a);
    }
  }

  lemma FitAfterStep(t: Topology, s: Net, a: Action, hops: map<PacketId, nat>, sent: seq<Datagram>)
    requires Fit(s, hops, sent) && Placed(s, Empty) && Queued(t, s) && Enabled(t, s, a) && s.nextNumber == |sent|
    ensures Fit(Apply(t, s, a), HopsAfter(s, hops, a), if a.Injecting? then sent + [a.datagram] else sent)
  {
    hide Fit, Placed, Queued, Fine, Sound, Inject, Land, Take, Finish, Dispatch, Read, LinkChange, NodeChange,
         WithTask, CanDispatch, NoMorePackets, Topology.Valid, Termination.Sends;
    QueuedIsSound(t, s);
    match a
    case Injecting(n, id, d, luck) => FitAfterInject(t, s, n, id, d, luck, hops, sent);
    case Landing(l, x, luck) =>
      TargetExists(t, s, l);
      FitAfterLand(t, s, l, x, luck, hops, sent);
    case Finishing(l) => FitAfterFinish(t, s, l, hops, sent);
    case _ =>
      OthersSendNothing(t, s, a);
      FitStays(s, Apply(t, s, a), hops, sent);
  }

  lemma {:induction false} HopsFit(t: Topology, actions: seq<Action>)
    requires IsRun(t, actions)
    ensures Fit(StateAfter(t, actions), Hops(t, actions), Sent(actions))
  {
    hide Fit, Placed, Queued, Enabled, Apply, HopsAfter, IsRun, StateAfter;
    LastStep(t, actions);
    if actions == [] {
      NothingFits(t);
    } else {
      var init, last := actions[..|actions| - 1], actions[|actions| - 1];
      HopsFit(t, init);
      LocationPartition(t, init);
      RunIsQueued(t, init);
      NumbersInOrder(t, init);
      FitAfterStep(t, StateAfter(t, init), last, Hops(t, init), Sent(init));
      assert Sent(init) + [] == Sent(init);
    }
  }

  lemma NothingFits(t: Topology)
    ensures Fit(Initial(t), map[], [])
  {
  }

  /**
   In every run: when a packet that was sent with a TTL of T goes over a link, this is at most the
   (T - 1)-th link that it or the packets it was copied from went over, and it has exactly as much TTL
   left as that leaves. It is addressed and filled as the application said.
   */
  lemma LineageIsShort(t: Topology, actions: seq<Action>, l: LinkId)
    requires IsRun(t, actions) && Termination.Sends(StateAfter(t, actions), l)
    ensures var s := StateAfter(t, actions);
            var p := s.accepted[s.links[l].task.packet.ticket].packet;
            && p.number < |Sent(actions)|
            && (var d := Sent(actions)[p.number];
                && HopsOf(Hops(t, actions), p.id) + 1 <= d.ttl - 1
                && HopsOf(Hops(t, actions), p.id) + 1 == d.ttl - p.ttl
                && p.dest == d.dest && p.port == d.port && p.payload == d.payload)
  {
    hide IsRun, StateAfter, Hops, Fit, ClearedFromBuffer;
    HopsFit(t, actions);
    var s := StateAfter(t, actions);
    TicketFits(s, s.links[l].task.packet.ticket, Hops(t, actions), Sent(actions));
  }
}
