/**
 Where every packet is. The log says it, record by record; the state says it, with the places that
 hold packets. In every run the two agree, and every packet is in one place only.
 */
module Places {
  import opened Prelude
  import opened Trace
  import opened PacketPacer
  import opened Cidr
  import opened Routing
  import opened Network
  import opened PacketLog
  import opened Soundness
  import opened Queues

  lemma LocateRecord(s: Net, kind: StepKind)
    ensures Locate(s.Record(kind).log) == Moves(Locate(s.log), kind)
  {
    hide Locate, Moves;
    LocateAppend(s.log, Step(s.now, kind));
  }

  // ---- What the state says --------------------------------------------------------------------

  /** A place for a packet: a buffer, a link, an inbox, or, in the middle of a step, the program's hands. */
  datatype Slot =
    | InBuffer(ticket: nat)
    | InAir(link: LinkId, x: InTransit)
    | InInbox(node: NodeId, x: InTransit)
    | InHand

  /**
   What the program holds in the middle of a step: a packet, or an id that it drew for a packet that
   it is about to make.
   */
  datatype Hand = Empty | Holding(id: PacketId, at: Location) | Drawn(id: PacketId)

  ghost predicate Occupies(s: Net, h: Hand, slot: Slot, id: PacketId) {
    match slot
    case InBuffer(k) => k < |s.accepted| && k !in s.handled && s.accepted[k].packet.id == id
    case InAir(l, x) => l in s.links && x in s.links[l].inTransit && x.packet.id == id
    case InInbox(n, x) => n in s.nodes && x in s.nodes[n].inbox && x.packet.id == id
    case InHand => h.Holding? && h.id == id
  }

  ghost function PlaceOf(s: Net, h: Hand, slot: Slot): Location {
    match slot
    case InBuffer(k) => if k < |s.accepted| then AtNode(s.accepted[k].node) else Gone(WasLost)
    case InAir(l, _) => OnLink(l)
    case InInbox(n, _) => AtNode(n)
    case InHand => if h.Holding? then h.at else Gone(WasLost)
  }

  ghost predicate Agree(s: Net, h: Hand) {
    forall slot, id :: Occupies(s, h, slot, id) ==>
      id in Locate(s.log) && Locate(s.log)[id] == PlaceOf(s, h, slot)
  }

  ghost predicate OnePlace(s: Net, h: Hand) {
    forall a, b, id :: Occupies(s, h, a, id) && Occupies(s, h, b, id) ==> a == b
  }

  ghost predicate SomePlace(s: Net, h: Hand) {
    forall id :: id in Locate(s.log) && !Locate(s.log)[id].Gone? ==> exists slot :: Occupies(s, h, slot, id)
  }

  /** No packet is twice in the same queue. */
  ghost predicate OnceEach(s: Net) {
    && (forall l, x :: l in s.links && x in s.links[l].inTransit ==> s.links[l].inTransit[x] == 1)
    && (forall n, x :: n in s.nodes && x in s.nodes[n].inbox ==> s.nodes[n].inbox[x] == 1)
  }

  /** The log mentions every id that was ever drawn, and no other one; only the one in hand may be new to it. */
  ghost predicate Known(s: Net, h: Hand) {
    && s.ids == Locate(s.log).Keys + (if h.Drawn? then {h.id} else {})
    && (h.Drawn? ==> h.id !in Locate(s.log))
  }

  ghost predicate Placed(s: Net, h: Hand) {
    Agree(s, h) && OnePlace(s, h) && SomePlace(s, h) && OnceEach(s) && Known(s, h)
  }

  /** An application takes a packet out of an inbox. */
  function PickUp(s: Net, n: NodeId, x: InTransit): Net
    requires n in s.nodes
  {
    s.SetNode(n, s.nodes[n].(inbox := s.nodes[n].inbox - multiset{x}))
  }

  // ---- A packet changes hands -----------------------------------------------------------------

  function Swap(x: Slot, slot: Slot): Slot {
    if slot == x then InHand else if slot == InHand then x else slot
  }

  /** The two states differ in that what was in slot `x` and what was in hand have changed places. */
  ghost predicate Exchanged(s: Net, h: Hand, s': Net, h': Hand, x: Slot) {
    && s'.log == s.log && s'.ids == s.ids
    && (forall slot, id :: Occupies(s', h', slot, id) <==> Occupies(s, h, Swap(x, slot), id))
    && (forall slot, id :: Occupies(s', h', slot, id) ==> PlaceOf(s', h', slot) == PlaceOf(s, h, Swap(x, slot)))
  }

  lemma PlacedAfterExchange(s: Net, h: Hand, s': Net, h': Hand, x: Slot)
    requires Placed(s, h) && Exchanged(s, h, s', h', x) && OnceEach(s') && !h.Drawn? && !h'.Drawn?
    ensures Placed(s', h')
  {
    hide Occupies, PlaceOf, OnceEach;
    forall a, b, id | Occupies(s', h', a, id) && Occupies(s', h', b, id)
      ensures a == b
    {
      assert Swap(x, a) == Swap(x, b);
    }
    forall id | id in Locate(s'.log) && !Locate(s'.log)[id].Gone?
      ensures exists slot :: Occupies(s', h', slot, id)
    {
      var slot :| Occupies(s, h, slot, id);
      assert Swap(x, Swap(x, slot)) == slot;
      assert Occupies(s', h', Swap(x, slot), id);
    }
  }

  lemma PlacedAfterMark(s: Net, k: nat, s': Net)
    requires Placed(s, Empty) && k < |s.accepted| && k !in s.handled
    requires s'.log == s.log && s'.ids == s.ids && s'.accepted == s.accepted
    requires s'.handled.Keys == s.handled.Keys + {k} && s'.links == s.links
    requires s'.nodes.Keys == s.nodes.Keys && forall n :: n in s.nodes ==> s'.nodes[n].inbox == s.nodes[n].inbox
    ensures Placed(s', Holding(s.accepted[k].packet.id, AtNode(s.accepted[k].node)))
  {
    hide Agree, OnePlace, SomePlace, Known;
    PlacedAfterExchange(s, Empty, s', Holding(s.accepted[k].packet.id, AtNode(s.accepted[k].node)), InBuffer(k));
  }

  lemma AcceptExchanges(s: Net, n: NodeId, p: Packet)
    requires n in s.nodes && s.nodes[n].available >= p.Size() && forall k :: k in s.handled ==> k < |s.accepted|
    ensures Exchanged(s, Holding(p.id, AtNode(n)), Enqueue(s, n, p), Empty, InBuffer(|s.accepted|))
  {
  }

  lemma AcceptKeepsInboxes(s: Net, n: NodeId, p: Packet)
    requires OnceEach(s) && n in s.nodes && s.nodes[n].available >= p.Size()
    ensures OnceEach(Enqueue(s, n, p))
  {
  }

  lemma PlacedAfterAccept(s: Net, n: NodeId, p: Packet)
    requires Placed(s, Holding(p.id, AtNode(n))) && n in s.nodes && s.nodes[n].available >= p.Size()
    requires forall k :: k in s.handled ==> k < |s.accepted|
    ensures Placed(Enqueue(s, n, p), Empty)
  {
    hide Agree, OnePlace, SomePlace, Known, OnceEach, Exchanged, Enqueue;
    AcceptExchanges(s, n, p);
    AcceptKeepsInboxes(s, n, p);
    PlacedAfterExchange(s, Holding(p.id, AtNode(n)), Enqueue(s, n, p), Empty, InBuffer(|s.accepted|));
  }

  /** What is in hand is nowhere else. */
  lemma NotElsewhere(s: Net, h: Hand, slot: Slot)
    requires OnePlace(s, h) && h.Holding? && slot != InHand
    ensures !Occupies(s, h, slot, h.id)
  {
    assert Occupies(s, h, InHand, h.id);
  }

  /** `more` is `q` with one more element, which is new to it. */
  ghost predicate Gains(q: multiset<InTransit>, more: multiset<InTransit>, x: InTransit) {
    && x !in q && more[x] == 1
    && forall y :: y != x ==> more[y] == q[y]
  }

  lemma GainsWith(q: multiset<InTransit>, x: InTransit)
    requires x !in q
    ensures Gains(q, q + multiset{x}, x)
  {
  }

  lemma GainsWithout(q: multiset<InTransit>, x: InTransit)
    requires q[x] == 1
    ensures Gains(q - multiset{x}, q, x)
  {
  }

  lemma ExchangedBack(s: Net, h: Hand, s': Net, h': Hand, x: Slot)
    requires Exchanged(s, h, s', h', x)
    ensures Exchanged(s', h', s, h, x)
  {
    hide Occupies, PlaceOf;
    forall slot, id
      ensures Occupies(s, h, slot, id) <==> Occupies(s', h', Swap(x, slot), id)
      ensures Occupies(s, h, slot, id) ==> PlaceOf(s, h, slot) == PlaceOf(s', h', Swap(x, slot))
    {
      assert Swap(x, Swap(x, slot)) == slot;
      assert Occupies(s', h', Swap(x, slot), id) <==> Occupies(s, h, Swap(x, Swap(x, slot)), id);
    }
  }

  /** The states differ in that link `l` carries `x` in `more`, and not in `less`. */
  ghost predicate AirDiffers(less: Net, more: Net, l: LinkId, x: InTransit) {
    && l in less.links && l in more.links && more == less.SetLink(l, more.links[l])
    && Gains(less.links[l].inTransit, more.links[l].inTransit, x)
  }

  ghost predicate InboxDiffers(less: Net, more: Net, n: NodeId, x: InTransit) {
    && n in less.nodes && n in more.nodes && more == less.SetNode(n, more.nodes[n])
    && Gains(less.nodes[n].inbox, more.nodes[n].inbox, x)
  }

  lemma AirOnce(less: Net, more: Net, l: LinkId, x: InTransit)
    requires AirDiffers(less, more, l, x)
    ensures OnceEach(less) <==> OnceEach(more)
  {
    assert forall m, y :: m in less.links && (m != l || y != x) ==>
             more.links[m].inTransit[y] == less.links[m].inTransit[y];
  }

  lemma InboxOnce(less: Net, more: Net, n: NodeId, x: InTransit)
    requires InboxDiffers(less, more, n, x)
    ensures OnceEach(less) <==> OnceEach(more)
  {
    assert forall m, y :: m in less.nodes && (m != n || y != x) ==> more.nodes[m].inbox[y] == less.nodes[m].inbox[y];
  }

  lemma AirExchange(less: Net, more: Net, l: LinkId, x: InTransit)
    requires AirDiffers(less, more, l, x)
    ensures Exchanged(less, Holding(x.packet.id, OnLink(l)), more, Empty, InAir(l, x))
  {
    assert forall m, y :: m in less.links && (m != l || y != x) ==>
             more.links[m].inTransit[y] == less.links[m].inTransit[y];
  }

  lemma InboxExchange(less: Net, more: Net, n: NodeId, x: InTransit)
    requires InboxDiffers(less, more, n, x)
    ensures Exchanged(less, Holding(x.packet.id, AtNode(n)), more, Empty, InInbox(n, x))
  {
    assert forall m, y :: m in less.nodes && (m != n || y != x) ==> more.nodes[m].inbox[y] == less.nodes[m].inbox[y];
  }

  lemma PlacedAfterTakeOff(s: Net, l: LinkId, x: InTransit)
    requires Placed(s, Empty) && l in s.links && x in s.links[l].inTransit
    ensures Placed(TakeOff(s, l, x), Holding(x.packet.id, OnLink(l)))
  {
    hide Agree, OnePlace, SomePlace, Known, Exchanged, Gains;
    GainsWithout(s.links[l].inTransit, x);
    AirOnce(TakeOff(s, l, x), s, l, x);
    AirExchange(TakeOff(s, l, x), s, l, x);
    ExchangedBack(TakeOff(s, l, x), Holding(x.packet.id, OnLink(l)), s, Empty, InAir(l, x));
    PlacedAfterExchange(s, Empty, TakeOff(s, l, x), Holding(x.packet.id, OnLink(l)), InAir(l, x));
  }

  lemma PlacedAfterPutOn(s: Net, l: LinkId, x: InTransit, time: Duration)
    requires Placed(s, Holding(x.packet.id, OnLink(l))) && l in s.links && s.links[l].batch.created <= s.now
    ensures Placed(PutOn(s, l, x, time), Empty)
  {
    hide Agree, OnePlace, SomePlace, Known, OnceEach, Exchanged, Gains, Batch.Add;
    NotElsewhere(s, Holding(x.packet.id, OnLink(l)), InAir(l, x));
    GainsWith(s.links[l].inTransit, x);
    AirOnce(s, PutOn(s, l, x, time), l, x);
    AirExchange(s, PutOn(s, l, x, time), l, x);
    PlacedAfterExchange(s, Holding(x.packet.id, OnLink(l)), PutOn(s, l, x, time), Empty, InAir(l, x));
  }

  lemma PlacedAfterPickUp(s: Net, n: NodeId, x: InTransit)
    requires Placed(s, Empty) && n in s.nodes && x in s.nodes[n].inbox
    ensures Placed(PickUp(s, n, x), Holding(x.packet.id, AtNode(n)))
  {
    hide Agree, OnePlace, SomePlace, Known, Exchanged, Gains;
    GainsWithout(s.nodes[n].inbox, x);
    InboxOnce(PickUp(s, n, x), s, n, x);
    InboxExchange(PickUp(s, n, x), s, n, x);
    ExchangedBack(PickUp(s, n, x), Holding(x.packet.id, AtNode(n)), s, Empty, InInbox(n, x));
    PlacedAfterExchange(s, Empty, PickUp(s, n, x), Holding(x.packet.id, AtNode(n)), InInbox(n, x));
  }

  lemma PlacedAfterDeliver(s: Net, n: NodeId, p: Packet)
    requires Placed(s, Holding(p.id, AtNode(n))) && n in s.nodes
    ensures Placed(Deliver(s, n, p), Empty)
  {
    hide Agree, OnePlace, SomePlace, Known, OnceEach, Exchanged, Gains;
    var x := InTransit(p, s.now, 0.0);
    NotElsewhere(s, Holding(p.id, AtNode(n)), InInbox(n, x));
    GainsWith(s.nodes[n].inbox, x);
    InboxOnce(s, Deliver(s, n, p), n, x);
    InboxExchange(s, Deliver(s, n, p), n, x);
    PlacedAfterExchange(s, Holding(p.id, AtNode(n)), Deliver(s, n, p), Empty, InInbox(n, x));
  }

  // ---- A record is written --------------------------------------------------------------------

  function HandAt(id: PacketId, at: Location): Hand {
    if at.Gone? then Empty else Holding(id, at)
  }

  ghost predicate OnlyHandDiffers(s: Net, h: Hand, s': Net, h': Hand) {
    forall slot, id :: slot != InHand ==>
      (Occupies(s', h', slot, id) <==> Occupies(s, h, slot, id)) && PlaceOf(s', h', slot) == PlaceOf(s, h, slot)
  }

  /** The packet in hand, or the one that is to be made, is now recorded to be at `at`. */
  lemma PlacedAfterRelocation(s: Net, h: Hand, s': Net, at: Location)
    requires Placed(s, h) && h != Empty && OnceEach(s') && s'.ids == s.ids
    requires OnlyHandDiffers(s, h, s', HandAt(h.id, at))
    requires Locate(s'.log) == Locate(s.log)[h.id := at]
    requires forall slot :: slot != InHand ==> !Occupies(s, h, slot, h.id)
    requires h.Holding? ==> h.id in Locate(s.log)
    ensures Placed(s', HandAt(h.id, at))
  {
    hide OnceEach, Locate;
    var h' := HandAt(h.id, at);
    assert forall slot, i :: Occupies(s', h', slot, i) && slot == InHand ==> i == h.id;
    forall i | i in Locate(s'.log) && !Locate(s'.log)[i].Gone?
      ensures exists slot :: Occupies(s', h', slot, i)
    {
      if i == h.id {
        assert Occupies(s', h', InHand, i);
      } else {
        var slot :| Occupies(s, h, slot, i);
        assert Occupies(s', h', slot, i);
      }
    }
  }

  lemma RecordTouchesNoSlot(s: Net, h: Hand, kind: StepKind, h': Hand)
    ensures OnlyHandDiffers(s, h, s.Record(kind), h')
    ensures OnceEach(s) ==> OnceEach(s.Record(kind))
  {
    forall slot, id | slot != InHand
      ensures Occupies(s.Record(kind), h', slot, id) <==> Occupies(s, h, slot, id)
      ensures PlaceOf(s.Record(kind), h', slot) == PlaceOf(s, h, slot)
    {
      match slot
      case InBuffer(k) =>
      case InAir(l, x) =>
      case InInbox(n, x) =>
    }
  }

  /** The record moves the packet in hand, or is the first one about a new packet. */
  lemma PlacedAfterMove(s: Net, h: Hand, kind: StepKind, at: Location)
    requires Placed(s, h) && h != Empty
    requires Moves(Locate(s.log), kind) == Locate(s.log)[h.id := at]
    ensures Placed(s.Record(kind), HandAt(h.id, at))
  {
    hide Moves, Locate, SomePlace, OnceEach, OnlyHandDiffers, Occupies;
    LocateRecord(s, kind);
    InHandOnly(s, h);
    RecordTouchesNoSlot(s, h, kind, HandAt(h.id, at));
    PlacedAfterRelocation(s, h, s.Record(kind), at);
  }

  /** What is in hand is in no slot, and the log knows it unless it is new. */
  lemma InHandOnly(s: Net, h: Hand)
    requires Placed(s, h) && h != Empty
    ensures forall slot :: slot != InHand ==> !Occupies(s, h, slot, h.id)
    ensures h.id in Locate(s.log) <==> h.Holding?
  {
    hide Locate, SomePlace, OnceEach;
    if h.Holding? {
      assert Occupies(s, h, InHand, h.id);
    }
  }

  // ---- Steps that move no packet --------------------------------------------------------------

  ghost predicate SameSlots(s: Net, s': Net) {
    && s'.accepted == s.accepted && s'.handled == s.handled
    && s'.nodes.Keys == s.nodes.Keys && s'.links.Keys == s.links.Keys
    && (forall n :: n in s.nodes ==> s'.nodes[n].inbox == s.nodes[n].inbox)
    && (forall l :: l in s.links ==> s'.links[l].inTransit == s.links[l].inTransit)
  }

  lemma PlacedWithSameSlots(s: Net, h: Hand, s': Net)
    requires Placed(s, h) && SameSlots(s, s') && s'.ids == s.ids && Locate(s'.log) == Locate(s.log)
    ensures Placed(s', h)
  {
    forall slot, id
      ensures Occupies(s', h, slot, id) <==> Occupies(s, h, slot, id)
      ensures PlaceOf(s', h, slot) == PlaceOf(s, h, slot)
    {
    }
    hide Occupies, PlaceOf;
    forall id | id in Locate(s'.log) && !Locate(s'.log)[id].Gone?
      ensures exists slot :: Occupies(s', h, slot, id)
    {
      var slot :| Occupies(s, h, slot, id);
      assert Occupies(s', h, slot, id);
    }
  }

  // ---- Whole steps ----------------------------------------------------------------------------

  /** A packet that may arrive in a node: it comes off a link, or it is new. */
  predicate MayArrive(h: Hand, id: PacketId) {
    h != Empty && h.id == id && (h.Holding? ==> h.at.OnLink?)
  }

  lemma PlacedAfterArrival(s: Net, h: Hand, n: NodeId, p: Packet, dropped: bool)
    requires Placed(s, h) && MayArrive(h, p.id)
    ensures dropped ==> Placed(s.Record(ArrivalRecord(n, p, dropped)), Empty)
    ensures !dropped ==> Placed(s.Record(ArrivalRecord(n, p, dropped)), Holding(p.id, AtNode(n)))
  {
    hide Placed, Locate;
    PlacedAfterMove(s, h, ArrivalRecord(n, p, dropped), Whereto(ArrivalRecord(n, p, dropped), p.id in Locate(s.log)));
  }

  lemma PlacedAfterDrop(s: Net, n: NodeId, id: PacketId, reason: DropReason)
    requires Placed(s, Holding(id, AtNode(n)))
    ensures Placed(s.Record(PacketDropped(id, n, reason)), Empty)
  {
    hide Placed, Locate;
    PlacedAfterMove(s, Holding(id, AtNode(n)), PacketDropped(id, n, reason), Gone(WasDropped(reason)));
  }

  lemma PlacedAfterEnqueue(s: Net, n: NodeId, p: Packet)
    requires Placed(s, Holding(p.id, AtNode(n))) && n in s.nodes && TicketsExist(s)
    ensures Placed(Enqueue(s, n, p), Empty) && TicketsExist(Enqueue(s, n, p)) && Enqueue(s, n, p).ids == s.ids
  {
    hide Placed;
    if s.nodes[n].available < p.Size() {
      PlacedAfterDrop(s, n, p.id, BufferFull);
    } else {
      PlacedAfterAccept(s, n, p);
    }
  }

  lemma PlacedWithFreshId(s: Net, id: PacketId)
    requires Placed(s, Empty) && id !in s.ids
    ensures Placed(s.(ids := s.ids + {id}), Drawn(id))
  {
    hide Locate, OnceEach;
    var s' := s.(ids := s.ids + {id});
    forall slot, i
      ensures Occupies(s', Drawn(id), slot, i) <==> Occupies(s, Empty, slot, i)
      ensures Occupies(s, Empty, slot, i) ==> PlaceOf(s', Drawn(id), slot) == PlaceOf(s, Empty, slot)
    {
    }
    forall i | i in Locate(s'.log) && !Locate(s'.log)[i].Gone?
      ensures exists slot :: Occupies(s', Drawn(id), slot, i)
    {
      var slot :| Occupies(s, Empty, slot, i);
      assert Occupies(s', Drawn(id), slot, i);
    }
    assert OnceEach(s') by { SameQueuesOnce(s, s'); }
  }

  lemma SameQueuesOnce(s: Net, s': Net)
    requires OnceEach(s) && s'.links == s.links && s'.nodes == s.nodes
    ensures OnceEach(s')
  {
  }

  lemma PlacedAfterDuplication(s: Net, n: NodeId, twin: Packet)
    requires Placed(s, Drawn(twin.id))
    ensures Placed(s.Record(DuplicationRecord(n, twin)), Holding(twin.id, AtNode(n)))
  {
    hide Placed, Locate;
    PlacedAfterMove(s, Drawn(twin.id), DuplicationRecord(n, twin), AtNode(n));
  }

  lemma PlacedAfterStore(t: Topology, s: Net, n: NodeId, p: Packet, luck: Luck)
    requires Placed(s, Holding(p.id, AtNode(n))) && TicketsExist(s) && n in s.nodes && n in t.nodes && luck.freshId !in s.ids
    ensures Placed(Store(t, s, n, p, luck), Empty)
  {
    hide Placed, Enqueue, TicketsExist;
    PlacedAfterDrop(s, n, p.id, Random);
    PlacedAfterEnqueue(s, n, p);
    var s1 := Enqueue(s, n, p);
    var twin := p.(id := luck.freshId, duplicate := true);
    PlacedWithFreshId(s1, luck.freshId);
    var s2 := s1.(ids := s1.ids + {luck.freshId});
    PlacedAfterDuplication(s2, n, twin);
    TicketsStillExist(s1, s2.Record(DuplicationRecord(n, twin)));
    PlacedAfterEnqueue(s2.Record(DuplicationRecord(n, twin)), n, twin);
  }

  lemma PlacedAfterForward(t: Topology, s: Net, h: Hand, n: NodeId, p: Packet, luck: Luck)
    requires Placed(s, h) && MayArrive(h, p.id) && TicketsExist(s)
    requires n in s.nodes && n in t.nodes && luck.freshId !in s.ids
    ensures Placed(Forward(t, s, n, p, luck), Empty)
  {
    hide Placed, Store, Deliver, TicketsExist;
    PlacedAfterArrival(s, h, n, p, true);
    if s.nodes[n].status.Up? {
      PlacedAfterArrival(s, h, n, p, false);
      var s1 := s.Record(ArrivalRecord(n, p, false));
      TicketsStillExist(s, s1);
      PlacedAfterDeliver(s1, n, p);
      PlacedAfterDrop(s1, n, p.id, ZeroTtl);
      PlacedAfterStore(t, s1, n, Hop(p), luck);
    }
  }

  lemma PlacedAfterInject(t: Topology, s: Net, n: NodeId, id: PacketId, d: Datagram, luck: Luck)
    requires Placed(s, Empty) && Sound(t, s) && TicketsExist(s) && n in s.nodes && n in t.nodes
    requires id !in s.ids && luck.freshId !in s.ids && id != luck.freshId
    ensures Placed(Inject(t, s, n, id, d, luck), Empty)
  {
    hide Sound, Placed, Forward, TicketsExist;
    PlacedWithFreshId(s, id);
    var s1, s2 := s.(ids := s.ids + {id}), s.(nextNumber := s.nextNumber + 1, ids := s.ids + {id});
    PlacedWithSameSlots(s1, Drawn(id), s2);
    TicketsStillExist(s, s2);
    PlacedAfterForward(t, s2, Drawn(id), n, Packet(id, s.nextNumber, d.payload, d.dest, d.port, d.ttl, false), luck);
  }

  lemma PlacedAfterLand(t: Topology, s: Net, l: LinkId, x: InTransit, luck: Luck)
    requires Placed(s, Empty) && Sound(t, s) && TicketsExist(s) && l in s.links && x in s.links[l].inTransit
    requires luck.freshId !in s.ids
    ensures Placed(Land(t, s, l, x, luck), Empty)
  {
    hide Placed, Forward, TicketsExist, Topology.Valid, Locate, NodeSound, LinkSound;
    PlacedAfterTakeOff(s, l, x);
    var s1, h := TakeOff(s, l, x), Holding(x.packet.id, OnLink(l));
    TicketsStillExist(s, s1);
    PlacedAfterMove(s1, h, PacketLostInTransit(x.packet.id, l), Gone(WasLost));
    PlacedAfterForward(t, s1, h, t.Target(l), x.packet, luck);
  }

  lemma PlacedAfterDropCleared(t: Topology, s: Net, l: LinkId)
    requires Placed(s, Empty) && Fine(t, s) && InOffering(s, l) && !Handled(s, l)
    ensures Placed(DropCleared(t, s, l), Empty)
  {
    hide Placed, Fine, Sound, Locate;
    BusyFacts(t, s, l);
    var ticket := s.links[l].task.packet.ticket;
    var b := s.accepted[ticket];
    var h := Holding(b.packet.id, AtNode(b.node));
    var s1 := Mark(s, ticket, ClearDropped);
    PlacedAfterMark(s, ticket, s1);
    PlacedWithSameSlots(s1, h, WithTask(s1, l, Idle));
    PlacedAfterDrop(WithTask(s1, l, Idle), b.node, b.packet.id, BufferCleared);
  }

  lemma UnbufferKeepsInboxes(s: Net, l: LinkId, ticket: nat)
    requires l in s.carried && ticket < |s.accepted| && s.accepted[ticket].node in s.nodes
    ensures var s' := Unbuffer(s, l, ticket);
            && s'.ids == s.ids && s'.handled.Keys == s.handled.Keys + {ticket} && s'.nodes.Keys == s.nodes.Keys
            && forall n :: n in s.nodes ==> s'.nodes[n].inbox == s.nodes[n].inbox
  {
  }

  lemma PlacedAfterTransmit(t: Topology, s: Net, l: LinkId)
    requires Placed(s, Empty) && Fine(t, s) && InOffering(s, l) && !Handled(s, l)
    ensures Placed(Transmit(t, s, l), Empty)
  {
    hide Placed, Fine, Sound, Topology.Valid, PutOn, Unbuffer, Locate;
    BusyFacts(t, s, l);
    var copy := s.links[l].task.packet;
    var b := s.accepted[copy.ticket];
    var s1 := Unbuffer(s, l, copy.ticket);
    UnbufferKeepsInboxes(s, l, copy.ticket);
    PlacedAfterMark(s, copy.ticket, s1);
    PlacedAfterMove(s1, Holding(b.packet.id, AtNode(b.node)), PacketInTransit(b.packet.id, b.node, l), OnLink(l));
    PlacedAfterPutOn(s1.Record(PacketInTransit(b.packet.id, b.node, l)), l,
                     InTransit(b.packet, s.now, s.links[l].delay + copy.extraDelay),
                     t.TransmissionTime(l, b.packet.Size()));
  }

  lemma PlacedAfterFinish(t: Topology, s: Net, l: LinkId)
    requires Placed(s, Empty) && Fine(t, s) && InOffering(s, l)
    ensures Placed(Finish(t, s, l), Empty)
  {
    hide Placed, Fine, Sound, Transmit, DropCleared, Locate;
    BusyFacts(t, s, l);
    if Handled(s, l) {
      PlacedWithSameSlots(s, Empty, WithTask(s, l, Idle));
    } else {
      PlacedAfterTransmit(t, s, l);
      PlacedAfterDropCleared(t, s, l);
    }
  }

  lemma PlacedAfterRead(s: Net, n: NodeId, x: InTransit)
    requires Placed(s, Empty) && n in s.nodes && x in s.nodes[n].inbox
    ensures Placed(Read(s, n, x), Empty)
  {
    hide Placed, Locate;
    PlacedAfterPickUp(s, n, x);
    PlacedAfterMove(PickUp(s, n, x), Holding(x.packet.id, AtNode(n)),
                    PacketDeliveredToApplication(x.packet.id, x.packet.number, x.packet.Size(), n), Gone(WasRead));
  }

  lemma PlacedAfterDispatch(t: Topology, s: Net, n: NodeId, rolls: seq<real>)
    requires Placed(s, Empty) && CanDispatch(t, s, n, rolls)
    ensures Placed(Dispatch(t, s, n, rolls), Empty)
  {
    hide Placed, Offer, Topology.Valid, LinkSound, Locate;
    var ticket := s.nodes[n].outbound[0];
    var candidates := t.Candidates(n, s.accepted[ticket].packet.dest).value;
    forall l | l in s.links
      ensures Offer(t, s.links, ticket, candidates, 0, rolls)[l].inTransit == s.links[l].inTransit
    {
      OfferOnlyQueues(t, s.links, ticket, candidates, 0, rolls, l);
    }
    PlacedWithSameSlots(s, Empty, Dispatch(t, s, n, rolls));
  }

  lemma PlacedAfterTake(t: Topology, s: Net, l: LinkId)
    requires Placed(s, Empty) && Sound(t, s) && l in s.links && s.links[l].task.Idle? && s.links[l].queue != []
    ensures Placed(Take(t, s, l), Empty)
  {
    hide Placed, Topology.Valid, Topology.TransmissionTime, NodeSound, Locate;
    PlacedWithSameSlots(s, Empty, Take(t, s, l));
  }

  lemma PlacedAfterTaskChange(s: Net, l: LinkId, task: LinkTask)
    requires Placed(s, Empty) && l in s.links
    ensures Placed(WithTask(s, l, task), Empty)
  {
    hide Placed, Locate;
    PlacedWithSameSlots(s, Empty, WithTask(s, l, task));
  }

  /** A record of a network event says nothing about packets. */
  lemma PlacedAfterEvent(s: Net, s': Net, e: StepKind)
    requires Placed(s, Empty) && SameSlots(s, s') && s'.ids == s.ids && s'.log == s.log && e.NetworkEvent?
    ensures Placed(s'.Record(e), Empty)
  {
    hide Placed, Locate;
    LocateRecord(s', e);
    PlacedWithSameSlots(s, Empty, s'.Record(e));
  }

  lemma PlacedAfterLinkChange(s: Net, e: LinkEvent)
    requires Placed(s, Empty)
    ensures Placed(LinkChange(s, e), Empty)
  {
    hide Placed, Locate;
    if e.link in s.links {
      PlacedAfterEvent(s, s.SetLink(e.link, ChangedLink(s.links[e.link], e, s.now)), NetworkEvent(Some(e), None));
    }
  }

  lemma PlacedAfterNodeChange(s: Net, e: NodeEvent)
    requires Placed(s, Empty)
    ensures Placed(NodeChange(s, e), Empty)
  {
    hide Placed, Locate;
    if e.node in s.nodes {
      PlacedAfterEvent(s, s.SetNode(e.node, ChangedNode(s.nodes[e.node], e, s.now)), NetworkEvent(None, Some(e)));
    }
  }

  lemma PlacedAfterPassing(s: Net, until: Duration)
    requires Placed(s, Empty)
    ensures Placed(s.(now := until), Empty)
  {
    hide Placed, Locate;
    PlacedWithSameSlots(s, Empty, s.(now := until));
  }

  lemma PlacedInitially(t: Topology)
    ensures Placed(Initial(t), Empty)
  {
  }

  lemma PlacedAfterStep(t: Topology, s: Net, a: Action)
    requires Placed(s, Empty) && Queued(t, s) && Enabled(t, s, a)
    ensures Placed(Apply(t, s, a), Empty)
  {
    hide Placed, Queued, Fine, Inject, Land, Take, Finish, Dispatch, Read, LinkChange, NodeChange, WithTask, CanDispatch,
         Topology.Valid, TicketsExist, NodeSound, LinkSound;
    QueuedFacts(t, s);
    match a
    case Injecting(n, id, d, luck) => PlacedAfterInject(t, s, n, id, d, luck);
    case Dispatching(n, rolls) => PlacedAfterDispatch(t, s, n, rolls);
    case Taking(l) => PlacedAfterTake(t, s, l);
    case Waking(l) => PlacedAfterTaskChange(s, l, Busy(s.links[l].task.packet, Offering));
    case GivingWay(l) =>
      var copy := s.links[l].task.packet;
      PlacedAfterTaskChange(s, l, Busy(copy.(preferred := copy.preferred[1..]), Offering));
    case Finishing(l) => PlacedAfterFinish(t, s, l);
    case Landing(l, x, luck) => PlacedAfterLand(t, s, l, x, luck);
    case Reading(n, x) => PlacedAfterRead(s, n, x);
    case LinkChanging(e) => PlacedAfterLinkChange(s, e);
    case NodeChanging(e) => PlacedAfterNodeChange(s, e);
    case Passing(until) => PlacedAfterPassing(s, until);
  }

  /**
   In every run: the log and the state agree on where every packet is, a packet is in one place
   only, and every packet that is not gone is somewhere.
   */
  lemma {:induction false} LocationPartition(t: Topology, actions: seq<Action>)
    requires IsRun(t, actions)
    ensures Placed(StateAfter(t, actions), Empty)
  {
    hide Placed, Enabled, Queued, IsRun, StateAfter, Apply;
    LastStep(t, actions);
    if actions == [] {
      PlacedInitially(t);
    } else {
      LocationPartition(t, actions[..|actions| - 1]);
      RunIsQueued(t, actions[..|actions| - 1]);
      PlacedAfterStep(t, StateAfter(t, actions[..|actions| - 1]), actions[|actions| - 1]);
    }
  }
}
