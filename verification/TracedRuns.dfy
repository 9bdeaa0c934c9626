/** Every run of the network writes the log of a working network. */
module TracedRuns {
  import opened Prelude
  import opened Sums
  import opened Trace
  import opened PacketPacer
  import opened ReplayedLink
  import opened ReplayedNode
  import opened Routing
  import opened Network
  import opened PacketLog
  import opened Soundness
  import opened Queues
  import opened Buffers
  import opened Places
  import opened Pacing
  import opened Ledger

  // ---- What the log says about the state ------------------------------------------------------

  ghost predicate NodeLogged(log: seq<Step>, n: NodeId, node: NodeState) {
    NodeSeen(log, n) == NodeView(node.status, node.lastBufferClear)
  }

  /**
   The log's last-down time is later than the link's own one when an event takes a link down that
   is down already; both are times of such events.
   */
  ghost predicate LinkLogged(log: seq<Step>, l: LinkId, link: LinkState, delay: Duration, now: Duration) {
    var seen := LinkSeen(log, l);
    && seen.status == link.status
    && (link.status.Down? ==> link.lastDown.Some?)
    && link.lastDown == LastDrop(log, l)
    && (link.lastDown.Some? ==> DownAt(log, l, link.lastDown.value))
    && (seen.lastDown.Some? ==> DownAt(log, l, seen.lastDown.value) && seen.lastDown.value <= now)
    && link.delay == DelayInEffect(log, l, delay)
  }

  /** `down` is no earlier than `sent`. */
  predicate NotBefore(down: Option<Duration>, sent: Duration) {
    down.Some? && sent <= down.value
  }

  ghost predicate AirLogged(log: seq<Step>, l: LinkId, link: LinkState, x: InTransit, delay: Duration) {
    && x.packet.id in Find(log)
    && Find(log)[x.packet.id] == Whereabouts(OnLink(l), x.sent, x.packet.Size())
    && DelayWhenSent(log, x.packet.id, l, delay) <= x.delay
    && (link.status.Down? ==> NotBefore(link.lastDown, x.sent))
    && (var seen := LinkSeen(log, l).lastDown; seen.Some? && x.sent < seen.value ==> NotBefore(link.lastDown, x.sent))
  }

  ghost predicate TicketLogged(log: seq<Step>, b: Buffered) {
    b.packet.id in Find(log) && Find(log)[b.packet.id] == Whereabouts(AtNode(b.node), b.since, b.packet.Size())
  }

  ghost predicate NodesLogged(s: Net) {
    forall n :: n in s.nodes ==> NodeLogged(s.log, n, s.nodes[n])
  }

  ghost predicate LinksLogged(t: Topology, s: Net) {
    forall l :: l in s.links && l in t.links ==> LinkLogged(s.log, l, s.links[l], t.links[l].delay, s.now)
  }

  ghost predicate AirsLogged(t: Topology, s: Net) {
    forall l, x :: l in s.links && l in t.links && x in s.links[l].inTransit ==>
      AirLogged(s.log, l, s.links[l], x, t.links[l].delay)
  }

  ghost predicate TicketsLogged(s: Net) {
    forall k :: 0 <= k < |s.accepted| && k !in s.handled ==> TicketLogged(s.log, s.accepted[k])
  }

  /** The transmissions in the log are, in order, what the links were given to carry. */
  ghost predicate SendsLogged(s: Net) {
    forall l :: l in s.carried ==>
      LinkSendsLogged(s.log, l, s.accepted, s.carried[l])
  }

  ghost predicate LinkSendsLogged(log: seq<Step>, l: LinkId, accepted: seq<Buffered>, carried: seq<Carried>) {
    && CarriesTickets(accepted, carried)
    && SendsOn(log, l) == Sends(accepted, carried)
    && DepartedOn(log, l) == PacketsOf(accepted, carried)
  }

  function PacketsOf(accepted: seq<Buffered>, carried: seq<Carried>): (ids: seq<PacketId>)
    ensures |ids| == |carried|
    ensures forall i :: 0 <= i < |ids| && carried[i].ticket < |accepted| ==> ids[i] == accepted[carried[i].ticket].packet.id
  {
    if carried == [] then []
    else
      var ticket := carried[|carried| - 1].ticket;
      PacketsOf(accepted, carried[..|carried| - 1])
      + [if ticket < |accepted| then accepted[ticket].packet.id else PacketId(0)]
  }

  lemma PacketsOfGrow(accepted: seq<Buffered>, more: seq<Buffered>, carried: seq<Carried>)
    requires CarriesTickets(accepted, carried) && |accepted| <= |more| && more[..|accepted|] == accepted
    ensures PacketsOf(more, carried) == PacketsOf(accepted, carried)
  {
    forall i | 0 <= i < |carried|
      ensures PacketsOf(more, carried)[i] == PacketsOf(accepted, carried)[i]
    {
      assert more[carried[i].ticket] == more[..|accepted|][carried[i].ticket];
    }
  }

  lemma PacketsOfAppend(accepted: seq<Buffered>, carried: seq<Carried>, c: Carried)
    requires c.ticket < |accepted|
    ensures PacketsOf(accepted, carried + [c]) == PacketsOf(accepted, carried) + [accepted[c.ticket].packet.id]
  {
    assert (carried + [c])[..|carried|] == carried;
  }

  ghost predicate CarriesTickets(accepted: seq<Buffered>, carried: seq<Carried>) {
    forall i :: 0 <= i < |carried| ==> carried[i].ticket < |accepted|
  }

  ghost predicate Logged(t: Topology, s: Net) {
    NodesLogged(s) && LinksLogged(t, s) && AirsLogged(t, s) && TicketsLogged(s) && SendsLogged(s)
  }

  // ---- Nothing is recorded --------------------------------------------------------------------

  /** The log stays, and the state says no more than it did. */
  ghost predicate SaysNoMore(s: Net, s': Net) {
    && s'.log == s.log && s.now <= s'.now && s'.accepted == s.accepted && s'.carried == s.carried
    && s.handled.Keys <= s'.handled.Keys && s'.nodes.Keys == s.nodes.Keys && s'.links.Keys == s.links.Keys
    && (forall n :: n in s.nodes ==>
          s'.nodes[n].status == s.nodes[n].status && s'.nodes[n].lastBufferClear == s.nodes[n].lastBufferClear)
    && (forall l :: l in s.links ==>
          && s'.links[l].status == s.links[l].status && s'.links[l].lastDown == s.links[l].lastDown
          && s'.links[l].delay == s.links[l].delay
          && forall x :: x in s'.links[l].inTransit ==> x in s.links[l].inTransit)
  }

  lemma LoggedStays(t: Topology, s: Net, s': Net)
    requires Logged(t, s) && SaysNoMore(s, s')
    ensures Logged(t, s')
  {
    hide Find, SendsOn, DepartedOn, PacketsOf, Sends, NodeSeen, LinkSeen, LastDrop, DownAt, DelayWhenSent, DelayInEffect;
    assert forall l :: l in s.links && l in t.links ==> LinkLogged(s'.log, l, s'.links[l], t.links[l].delay, s'.now);
    assert forall n :: n in s.nodes ==> NodeLogged(s'.log, n, s'.nodes[n]);
    assert forall l, x :: l in s'.links && l in t.links && x in s'.links[l].inTransit ==>
      AirLogged(s'.log, l, s'.links[l], x, t.links[l].delay);
  }

  // ---- A packet is accepted or put on a link --------------------------------------------------

  lemma LoggedAfterAccept(t: Topology, s: Net, n: NodeId, p: Packet)
    requires Logged(t, s) && n in s.nodes && s.nodes[n].available >= p.Size()
    requires TicketLogged(s.log, Buffered(n, s.now, p))
    ensures Logged(t, Enqueue(s, n, p))
  {
    hide Find, SendsOn, DepartedOn, PacketsOf, Sends, NodeSeen, LinkSeen, LinkLogged, AirLogged, TicketLogged;
    var s' := Enqueue(s, n, p);
    forall l | l in s'.carried
      ensures LinkSendsLogged(s'.log, l, s'.accepted, s'.carried[l])
    {
      SendsGrow(s.accepted, s'.accepted, s.carried[l]);
      PacketsOfGrow(s.accepted, s'.accepted, s.carried[l]);
    }
    assert forall m :: m in s.nodes ==> NodeLogged(s'.log, m, s'.nodes[m]);
  }

  lemma LoggedAfterPutOn(t: Topology, s: Net, l: LinkId, x: InTransit, time: Duration)
    requires Logged(t, s) && l in s.links && s.links[l].batch.created <= s.now
    requires l in t.links ==> AirLogged(s.log, l, s.links[l], x, t.links[l].delay)
    ensures Logged(t, PutOn(s, l, x, time))
  {
    hide Find, SendsOn, DepartedOn, PacketsOf, Sends, NodeSeen, LinkSeen, NodeLogged, TicketLogged, DownAt,
         DelayWhenSent, DelayInEffect, Batch.Add;
    var s' := PutOn(s, l, x, time);
    assert forall m :: m in s.links && m in t.links ==> LinkLogged(s'.log, m, s'.links[m], t.links[m].delay, s'.now);
    forall m, y | m in s'.links && m in t.links && y in s'.links[m].inTransit
      ensures AirLogged(s'.log, m, s'.links[m], y, t.links[m].delay)
    {
      assert (y == x && m == l) || y in s.links[m].inTransit;
    }
  }

  // ---- A record is written --------------------------------------------------------------------

  /** No buffer and no link has the packet. */
  ghost predicate Absent(s: Net, id: PacketId) {
    && (forall k :: 0 <= k < |s.accepted| && k !in s.handled ==> s.accepted[k].packet.id != id)
    && (forall l, x :: l in s.links && x in s.links[l].inTransit ==> x.packet.id != id)
  }

  lemma InHandIsAbsent(s: Net, h: Hand)
    requires Placed(s, h) && h != Empty
    ensures Absent(s, h.id)
  {
    hide Placed;
    InHandOnly(s, h);
    forall k | 0 <= k < |s.accepted| && k !in s.handled
      ensures s.accepted[k].packet.id != h.id
    {
      assert !Occupies(s, h, InBuffer(k), h.id);
    }
    forall l, x | l in s.links && x in s.links[l].inTransit
      ensures x.packet.id != h.id
    {
      assert !Occupies(s, h, InAir(l, x), h.id);
    }
  }

  lemma HandIsAbsent(s: Net, id: PacketId, at: Location)
    requires Placed(s, Holding(id, at))
    ensures Absent(s, id)
  {
    hide Placed, Absent;
    InHandIsAbsent(s, Holding(id, at));
  }

  /** Records other than events say nothing about nodes and links. */
  lemma ViewsAfterPacketRecord(log: seq<Step>, step: Step, n: NodeId, l: LinkId)
    requires !step.kind.NetworkEvent?
    ensures NodeSeen(log + [step], n) == NodeSeen(log, n) && LinkSeen(log + [step], l) == LinkSeen(log, l)
  {
    NodeSeenAppend(log, step, n);
    LinkSeenAppend(log, step, l);
  }

  lemma LinkLoggedLater(log: seq<Step>, step: Step, l: LinkId, link: LinkState, delay: Duration, now: Duration)
    requires LinkLogged(log, l, link, delay, now) && !IsAbout(step.kind, l)
    ensures LinkLogged(log + [step], l, link, delay, now)
  {
    hide LinkSeen, LastDrop, DownAt, DelayWhenSent, DelayInEffect;
    LinkSeenAppend(log, step, l);
    LastDropAppend(log, step, l);
    if link.lastDown.Some? {
      DownAtLater(log, step, l, link.lastDown.value);
    }
    if LinkSeen(log, l).lastDown.Some? {
      DownAtLater(log, step, l, LinkSeen(log, l).lastDown.value);
    }
    DelayInEffectAppend(log, step, l, delay);
  }

  lemma AirLoggedLater(log: seq<Step>, step: Step, l: LinkId, link: LinkState, x: InTransit, delay: Duration)
    requires AirLogged(log, l, link, x, delay) && LinkSeen(log + [step], l) == LinkSeen(log, l)
    requires x.packet.id in Find(log + [step]) && Find(log + [step])[x.packet.id] == Find(log)[x.packet.id]
    requires Mover(step.kind) != Some(x.packet.id)
    ensures AirLogged(log + [step], l, link, x, delay)
  {
    hide LinkSeen, DelayWhenSent, Find;
    DelayWhenSentAppend(log, step, x.packet.id, l, delay);
  }

  /** The record is about packet `id`, which moves to `w`. */
  ghost predicate Relocates(s: Net, kind: StepKind, id: PacketId, w: Whereabouts) {
    && Mover(kind) == Some(id)
    && Moved(Find(s.log), Step(s.now, kind)) == Find(s.log)[id := w]
  }

  lemma AirsAfterRecord(t: Topology, s: Net, kind: StepKind, id: PacketId, w: Whereabouts)
    requires AirsLogged(t, s) && Absent(s, id) && Relocates(s, kind, id, w)
    ensures AirsLogged(t, s.Record(kind))
  {
    hide Find, Moved, NodeSeen, LinkSeen, AirLogged;
    var step := Step(s.now, kind);
    FindAppend(s.log, step);
    forall l, x | l in s.links && l in t.links && x in s.links[l].inTransit
      ensures AirLogged(s.log + [step], l, s.links[l], x, t.links[l].delay)
    {
      ViewsAfterPacketRecord(s.log, step, NodeId(""), l);
      assert x.packet.id in Find(s.log) by { AirIsFound(s.log, l, s.links[l], x, t.links[l].delay); }
      AirLoggedLater(s.log, step, l, s.links[l], x, t.links[l].delay);
    }
  }

  lemma AirIsFound(log: seq<Step>, l: LinkId, link: LinkState, x: InTransit, delay: Duration)
    requires AirLogged(log, l, link, x, delay)
    ensures x.packet.id in Find(log)
    ensures Find(log)[x.packet.id] == Whereabouts(OnLink(l), x.sent, x.packet.Size())
  {
    hide Find, LinkSeen, DelayWhenSent, DelayInEffect;
  }

  lemma TicketsAfterRecord(s: Net, kind: StepKind, id: PacketId, w: Whereabouts)
    requires TicketsLogged(s) && Absent(s, id) && Relocates(s, kind, id, w)
    ensures TicketsLogged(s.Record(kind))
  {
    hide Find, Moved;
    FindAppend(s.log, Step(s.now, kind));
  }

  lemma ViewsAfterRecord(t: Topology, s: Net, kind: StepKind)
    requires NodesLogged(s) && LinksLogged(t, s) && !kind.NetworkEvent?
    ensures NodesLogged(s.Record(kind)) && LinksLogged(t, s.Record(kind))
  {
    hide Find, NodeSeen, LinkSeen, LinkLogged;
    var step := Step(s.now, kind);
    forall n | n in s.nodes
      ensures NodeLogged(s.log + [step], n, s.nodes[n])
    {
      ViewsAfterPacketRecord(s.log, step, n, LinkId(""));
    }
    forall l | l in s.links && l in t.links
      ensures LinkLogged(s.log + [step], l, s.links[l], t.links[l].delay, s.now)
    {
      ViewsAfterPacketRecord(s.log, step, NodeId(""), l);
      LinkLoggedLater(s.log, step, l, s.links[l], t.links[l].delay, s.now);
    }
  }

  lemma SendsAfterRecord(s: Net, kind: StepKind)
    requires SendsLogged(s) && !kind.PacketInTransit?
    ensures SendsLogged(s.Record(kind))
  {
    hide SendsOn, DepartedOn, Sends, PacketsOf, Find;
    forall l | l in s.carried
      ensures LinkSendsLogged(s.Record(kind).log, l, s.accepted, s.carried[l])
    {
      SendsOnAppend(s.log, Step(s.now, kind), l);
      DepartedOnAppend(s.log, Step(s.now, kind), l);
      assert SendsOn(s.log, l) + [] == SendsOn(s.log, l);
      assert DepartedOn(s.log, l) + [] == DepartedOn(s.log, l);
    }
  }

  lemma LoggedAfterRecord(t: Topology, s: Net, kind: StepKind, id: PacketId, w: Whereabouts)
    requires Logged(t, s) && Absent(s, id) && Relocates(s, kind, id, w) && !kind.PacketInTransit?
    ensures Logged(t, s.Record(kind))
    ensures id in Find(s.Record(kind).log) && Find(s.Record(kind).log)[id] == w
  {
    hide Find, Moved, NodesLogged, LinksLogged, AirsLogged, TicketsLogged, SendsLogged, Absent;
    FindAppend(s.log, Step(s.now, kind));
    AirsAfterRecord(t, s, kind, id, w);
    TicketsAfterRecord(s, kind, id, w);
    ViewsAfterRecord(t, s, kind);
    SendsAfterRecord(s, kind);
  }

  // ---- A packet is sent -----------------------------------------------------------------------

  function Departure(b: Buffered, l: LinkId): StepKind {
    PacketInTransit(b.packet.id, b.node, l)
  }

  ghost predicate CanUnbuffer(s: Net, l: LinkId, ticket: nat) {
    l in s.carried && l in s.links && ticket < |s.accepted| && ticket !in s.handled && s.accepted[ticket].node in s.nodes
  }

  lemma LoggedButSends(t: Topology, s: Net, l: LinkId, ticket: nat)
    requires Logged(t, s) && CanUnbuffer(s, l, ticket)
    ensures var s1 := Unbuffer(s, l, ticket);
            NodesLogged(s1) && LinksLogged(t, s1) && AirsLogged(t, s1) && TicketsLogged(s1)
  {
    hide Find, SendsOn, DepartedOn, PacketsOf, Sends, NodeSeen, LinkSeen, LinkLogged, AirLogged, TicketLogged;
    var s1 := Unbuffer(s, l, ticket);
    assert SaysNoMore(s, s1.(carried := s.carried));
    assert forall n :: n in s.nodes ==> NodeLogged(s1.log, n, s1.nodes[n]);
    assert forall m :: m in s.links && m in t.links ==> LinkLogged(s1.log, m, s1.links[m], t.links[m].delay, s1.now);
  }

  lemma SendsAfterDeparture(s: Net, l: LinkId, ticket: nat)
    requires SendsLogged(s) && CanUnbuffer(s, l, ticket) && TicketLogged(s.log, s.accepted[ticket])
    ensures SendsLogged(Unbuffer(s, l, ticket).Record(Departure(s.accepted[ticket], l)))
  {
    hide SendsOn, DepartedOn, Sends, PacketsOf, Find;
    var s' := Unbuffer(s, l, ticket).Record(Departure(s.accepted[ticket], l));
    forall m | m in s'.carried
      ensures LinkSendsLogged(s'.log, m, s'.accepted, s'.carried[m])
    {
      SendsOnAppend(s.log, Step(s.now, Departure(s.accepted[ticket], l)), m);
      DepartedOnAppend(s.log, Step(s.now, Departure(s.accepted[ticket], l)), m);
      if m == l {
        SendsAppend(s.accepted, s.carried[l], Carried(ticket, s.now));
        PacketsOfAppend(s.accepted, s.carried[l], Carried(ticket, s.now));
      } else {
        assert SendsOn(s.log, m) + [] == SendsOn(s.log, m);
        assert DepartedOn(s.log, m) + [] == DepartedOn(s.log, m);
      }
    }
  }

  lemma LoggedAfterDeparture(t: Topology, s: Net, l: LinkId, ticket: nat)
    requires Logged(t, s) && CanUnbuffer(s, l, ticket)
    requires Absent(Unbuffer(s, l, ticket), s.accepted[ticket].packet.id)
    ensures var b := s.accepted[ticket];
            var s' := Unbuffer(s, l, ticket).Record(Departure(b, l));
            && Logged(t, s')
            && b.packet.id in Find(s'.log) && Find(s'.log)[b.packet.id] == Whereabouts(OnLink(l), s.now, b.packet.Size())
  {
    hide Find, NodesLogged, LinksLogged, AirsLogged, SendsLogged, Absent, Unbuffer;
    var b := s.accepted[ticket];
    var s1 := Unbuffer(s, l, ticket);
    var w := Whereabouts(OnLink(l), s.now, b.packet.Size());
    assert TicketLogged(s.log, b);
    LoggedButSends(t, s, l, ticket);
    SendsAfterDeparture(s, l, ticket);
    FindAppend(s.log, Step(s.now, Departure(b, l)));
    assert Relocates(s1, Departure(b, l), b.packet.id, w);
    AirsAfterRecord(t, s1, Departure(b, l), b.packet.id, w);
    TicketsAfterRecord(s1, Departure(b, l), b.packet.id, w);
    ViewsAfterRecord(t, s1, Departure(b, l));
  }

  /** A packet that has just been put on a link. */
  lemma FreshAirLogged(log: seq<Step>, l: LinkId, link: LinkState, x: InTransit, delay: Duration, now: Duration)
    requires LinkLogged(log, l, link, delay, now) && link.status.Up? && x.sent == now
    requires DelayWhenSent(log, x.packet.id, l, delay) <= x.delay
    requires x.packet.id in Find(log) && Find(log)[x.packet.id] == Whereabouts(OnLink(l), x.sent, x.packet.Size())
    ensures AirLogged(log, l, link, x, delay)
  {
    hide Find, LinkSeen, LastDrop, DelayWhenSent, DelayInEffect, DownAt;
  }

  // ---- Events ---------------------------------------------------------------------------------

  lemma EventMovesNothing(log: seq<Step>, step: Step)
    requires step.kind.NetworkEvent?
    ensures Find(log + [step]) == Find(log)
    ensures forall l :: SendsOn(log + [step], l) == SendsOn(log, l)
    ensures forall l :: DepartedOn(log + [step], l) == DepartedOn(log, l)
  {
    hide Find, SendsOn, DepartedOn;
    FindAppend(log, step);
    forall l
      ensures SendsOn(log + [step], l) == SendsOn(log, l)
      ensures DepartedOn(log + [step], l) == DepartedOn(log, l)
    {
      SendsOnAppend(log, step, l);
      DepartedOnAppend(log, step, l);
      assert SendsOn(log, l) + [] == SendsOn(log, l);
      assert DepartedOn(log, l) + [] == DepartedOn(log, l);
    }
  }

  lemma DownNow(log: seq<Step>, step: Step, l: LinkId)
    requires SetsLink(step.kind, l) && step.kind.linkEvent.value.status.value.Down?
    ensures DownAt(log + [step], l, step.time)
  {
    assert (log + [step])[|log|] == step;
  }

  lemma ChangedLinkLogged(log: seq<Step>, e: LinkEvent, link: LinkState, delay: Duration, now: Duration)
    requires LinkLogged(log, e.link, link, delay, now)
    ensures LinkLogged(log + [Step(now, NetworkEvent(Some(e), None))], e.link, ChangedLink(link, e, now), delay, now)
  {
    hide LinkSeen, LastDrop, DownAt, DelayWhenSent, DelayInEffect;
    var step, l := Step(now, NetworkEvent(Some(e), None)), e.link;
    LinkSeenAppend(log, step, l);
    LastDropAppend(log, step, l);
    if link.lastDown.Some? {
      DownAtLater(log, step, l, link.lastDown.value);
    }
    if LinkSeen(log, l).lastDown.Some? {
      DownAtLater(log, step, l, LinkSeen(log, l).lastDown.value);
    }
    if SetsLink(step.kind, l) && e.status.value.Down? {
      DownNow(log, step, l);
    }
    DelayInEffectAppend(log, step, l, delay);
  }

  lemma ChangedAirLogged(log: seq<Step>, e: LinkEvent, link: LinkState, x: InTransit, delay: Duration, now: Duration)
    requires AirLogged(log, e.link, link, x, delay) && x.sent <= now
    ensures AirLogged(log + [Step(now, NetworkEvent(Some(e), None))], e.link, ChangedLink(link, e, now), x, delay)
  {
    hide Find, LinkSeen, DownAt, DelayWhenSent, DelayInEffect;
    var step, l := Step(now, NetworkEvent(Some(e), None)), e.link;
    LinkSeenAppend(log, step, l);
    EventMovesNothing(log, step);
    DelayWhenSentAppend(log, step, x.packet.id, l, delay);
  }

  lemma LoggedAfterLinkChange(t: Topology, s: Net, e: LinkEvent)
    requires Logged(t, s) && e.link in s.links && SentByNow(s.links[e.link].inTransit, s.now)
    ensures Logged(t, LinkChange(s, e))
  {
    hide Find, SendsOn, DepartedOn, PacketsOf, Sends, NodeSeen, LinkSeen, LinkLogged, AirLogged, ChangedLink;
    var s', step := LinkChange(s, e), Step(s.now, NetworkEvent(Some(e), None));
    EventMovesNothing(s.log, step);
    forall n | n in s'.nodes
      ensures NodeLogged(s'.log, n, s'.nodes[n])
    {
      NodeSeenAppend(s.log, step, n);
    }
    forall l | l in s'.links && l in t.links
      ensures LinkLogged(s'.log, l, s'.links[l], t.links[l].delay, s'.now)
    {
      if l == e.link {
        ChangedLinkLogged(s.log, e, s.links[l], t.links[l].delay, s.now);
      } else {
        LinkSeenAppend(s.log, step, l);
        LinkLoggedLater(s.log, step, l, s.links[l], t.links[l].delay, s.now);
      }
    }
    forall l, x | l in s'.links && l in t.links && x in s'.links[l].inTransit
      ensures AirLogged(s'.log, l, s'.links[l], x, t.links[l].delay)
    {
      if l == e.link {
        ChangedAirLogged(s.log, e, s.links[l], x, t.links[l].delay, s.now);
      } else {
        LinkSeenAppend(s.log, step, l);
        AirIsFound(s.log, l, s.links[l], x, t.links[l].delay);
        AirLoggedLater(s.log, step, l, s.links[l], x, t.links[l].delay);
      }
    }
  }

  lemma LoggedAfterNodeChange(t: Topology, s: Net, e: NodeEvent)
    requires Logged(t, s) && e.node in s.nodes
    ensures Logged(t, NodeChange(s, e))
  {
    hide Find, SendsOn, DepartedOn, PacketsOf, Sends, NodeSeen, LinkSeen, LinkLogged, AirLogged;
    var s', step := NodeChange(s, e), Step(s.now, NetworkEvent(None, Some(e)));
    EventMovesNothing(s.log, step);
    forall n | n in s'.nodes
      ensures NodeLogged(s'.log, n, s'.nodes[n])
    {
      NodeSeenAppend(s.log, step, n);
    }
    forall l | l in s'.links && l in t.links
      ensures LinkLogged(s'.log, l, s'.links[l], t.links[l].delay, s'.now)
    {
      LinkSeenAppend(s.log, step, l);
      LinkLoggedLater(s.log, step, l, s.links[l], t.links[l].delay, s.now);
    }
    forall l, x | l in s'.links && l in t.links && x in s'.links[l].inTransit
      ensures AirLogged(s'.log, l, s'.links[l], x, t.links[l].delay)
    {
      LinkSeenAppend(s.log, step, l);
      AirIsFound(s.log, l, s.links[l], x, t.links[l].delay);
      AirLoggedLater(s.log, step, l, s.links[l], x, t.links[l].delay);
    }
  }

  // ---- Proper records -------------------------------------------------------------------------

  ghost predicate Traced(t: Topology, exempt: set<NodeId>, s: Net)
    requires t.Valid()
  {
    Logged(t, s) && ProperLog(t, exempt, s.log)
  }

  /** If the next record is the first one at its time, the buffers are within bounds. */
  ghost predicate Settled(t: Topology, exempt: set<NodeId>, s: Net) {
    (if s.log == [] then s.now != 0.0 else s.log[|s.log| - 1].time != s.now) ==> Fits(t, exempt, s.log)
  }

  lemma TracedAfterRecord(t: Topology, exempt: set<NodeId>, s: Net, kind: StepKind, id: PacketId, w: Whereabouts)
    requires t.Valid() && Traced(t, exempt, s) && Settled(t, exempt, s)
    requires Absent(s, id) && Relocates(s, kind, id, w) && !kind.PacketInTransit? && Proper(t, s.log, Step(s.now, kind))
    ensures Traced(t, exempt, s.Record(kind)) && Settled(t, exempt, s.Record(kind))
    ensures id in Find(s.Record(kind).log) && Find(s.Record(kind).log)[id] == w
  {
    hide Topology.Valid, Logged, Proper, Absent, Relocates, Find, Fits;
    LoggedAfterRecord(t, s, kind, id, w);
    ProperLogAppend(t, exempt, s.log, Step(s.now, kind));
  }

  lemma FoundIffLocated(s: Net, id: PacketId)
    ensures id in Find(s.log) <==> id in Locate(s.log)
    ensures id in Find(s.log) ==> Find(s.log)[id].at == Locate(s.log)[id]
  {
    hide Find;
  }

  lemma HandIsFound(s: Net, id: PacketId, at: Location)
    requires Placed(s, Holding(id, at))
    ensures id in Find(s.log) && Find(s.log)[id].at == at
  {
    hide Find, Locate, OnePlace, SomePlace, OnceEach, Known;
    assert Occupies(s, Holding(id, at), InHand, id);
    FoundIffLocated(s, id);
  }

  /** A packet that comes off a link and was not lost arrives as the verifier expects it to. */
  lemma LandsOnTarget(t: Topology, s: Net, l: LinkId, x: InTransit)
    requires t.Valid() && Logged(t, s) && l in s.links && l in t.links && x in s.links[l].inTransit
    requires x.Arrival() <= s.now && !WasDownAfter(s.links[l], x.sent)
    ensures x.packet.id in Find(s.log)
    ensures Lands(t, s.log, s.now, x.packet.id, Find(s.log)[x.packet.id], x.packet.Size(), t.Target(l))
  {
    hide Topology.Valid, Find, LinkSeen, DelayWhenSent, DelayInEffect, NodesLogged, TicketsLogged, SendsLogged;
    assert LinkLogged(s.log, l, s.links[l], t.links[l].delay, s.now);
    assert AirLogged(s.log, l, s.links[l], x, t.links[l].delay);
  }

  ghost predicate ArrivesWell(t: Topology, s: Net, h: Hand, n: NodeId, p: Packet)
    requires t.Valid()
  {
    && MayArrive(h, p.id)
    && (p.id in Find(s.log) ==> Lands(t, s.log, s.now, p.id, Find(s.log)[p.id], p.Size(), n))
  }

  lemma ArrivalIsAbsent(s: Net, h: Hand, id: PacketId)
    requires Placed(s, h) && MayArrive(h, id)
    ensures Absent(s, id)
    ensures id in Find(s.log) <==> h.Holding?
  {
    hide Placed, Find, Locate, Absent;
    FoundIffLocated(s, id);
    InHandIsAbsent(s, h);
    InHandOnly(s, h);
  }

  function AfterArrival(s: Net, n: NodeId, p: Packet, dropped: bool): Whereabouts {
    Whereabouts(if !dropped then AtNode(n)
                else if p.id in Find(s.log) then Gone(WasRefused) else Gone(WasRefusedAtSource(n)), s.now, p.Size())
  }

  lemma TracedAfterArrival(t: Topology, exempt: set<NodeId>, s: Net, h: Hand, n: NodeId, p: Packet, dropped: bool)
    requires t.Valid() && Traced(t, exempt, s) && Settled(t, exempt, s) && Placed(s, h) && ArrivesWell(t, s, h, n, p)
    requires n in s.nodes && n in t.nodes && (dropped <==> s.nodes[n].status.Down?)
    ensures var s' := s.Record(ArrivalRecord(n, p, dropped));
            && Traced(t, exempt, s') && Settled(t, exempt, s')
            && p.id in Find(s'.log) && Find(s'.log)[p.id] == AfterArrival(s, n, p, dropped)
  {
    hide Topology.Valid, Placed, Find, NodeSeen, Lands, ProperLog, LinksLogged, AirsLogged, TicketsLogged, SendsLogged,
         Absent, Settled;
    ArrivalIsAbsent(s, h, p.id);
    assert NodeLogged(s.log, n, s.nodes[n]);
    TracedAfterRecord(t, exempt, s, ArrivalRecord(n, p, dropped), p.id, AfterArrival(s, n, p, dropped));
  }

  lemma TracedAfterDrop(t: Topology, exempt: set<NodeId>, s: Net, n: NodeId, id: PacketId, reason: DropReason)
    requires t.Valid() && Traced(t, exempt, s) && Settled(t, exempt, s) && Placed(s, Holding(id, AtNode(n))) && n in t.nodes
    ensures var s' := s.Record(PacketDropped(id, n, reason)); Traced(t, exempt, s') && Settled(t, exempt, s')
  {
    hide Topology.Valid, Placed, Find, Traced, Absent, Settled;
    HandIsAbsent(s, id, AtNode(n));
    HandIsFound(s, id, AtNode(n));
    TracedAfterRecord(t, exempt, s, PacketDropped(id, n, reason), id,
                      Whereabouts(Gone(WasDropped(reason)), s.now, Find(s.log)[id].size));
  }

  lemma TracedStays(t: Topology, exempt: set<NodeId>, s: Net, s': Net)
    requires t.Valid() && Traced(t, exempt, s) && SaysNoMore(s, s')
    ensures Traced(t, exempt, s')
    ensures s'.now == s.now && Settled(t, exempt, s) ==> Settled(t, exempt, s')
  {
    hide Topology.Valid, Logged, ProperLog, Fits;
    LoggedStays(t, s, s');
  }

  /** The packet is in hand, in node `n`, and has just arrived there. */
  ghost predicate JustArrived(s: Net, n: NodeId, p: Packet) {
    && Placed(s, Holding(p.id, AtNode(n)))
    && p.id in Find(s.log) && Find(s.log)[p.id] == Whereabouts(AtNode(n), s.now, p.Size())
  }

  lemma TracedAfterEnqueue(t: Topology, exempt: set<NodeId>, s: Net, n: NodeId, p: Packet)
    requires t.Valid() && Traced(t, exempt, s) && Settled(t, exempt, s) && JustArrived(s, n, p) && n in s.nodes && n in t.nodes
    ensures Traced(t, exempt, Enqueue(s, n, p)) && Settled(t, exempt, Enqueue(s, n, p))
    ensures Enqueue(s, n, p).nodes[n].status == s.nodes[n].status
  {
    hide Topology.Valid, Placed, Find, Logged, ProperLog, Fits;
    if s.nodes[n].available < p.Size() {
      TracedAfterDrop(t, exempt, s, n, p.id, BufferFull);
    } else {
      LoggedAfterAccept(t, s, n, p);
    }
  }

  lemma TracedAfterDuplication(t: Topology, exempt: set<NodeId>, s: Net, n: NodeId, twin: Packet)
    requires t.Valid() && Traced(t, exempt, s) && Settled(t, exempt, s) && n in s.nodes && n in t.nodes
    requires Placed(s, Drawn(twin.id)) && s.nodes[n].status.Up?
    ensures var s' := s.Record(DuplicationRecord(n, twin));
            && Traced(t, exempt, s') && Settled(t, exempt, s') && JustArrived(s', n, twin)
  {
    hide Topology.Valid, Placed, Find, NodeSeen, ProperLog, LinksLogged, AirsLogged, TicketsLogged, SendsLogged,
         Absent, Settled;
    ArrivalIsAbsent(s, Drawn(twin.id), twin.id);
    assert NodeLogged(s.log, n, s.nodes[n]);
    PlacedAfterDuplication(s, n, twin);
    TracedAfterRecord(t, exempt, s, DuplicationRecord(n, twin), twin.id, Whereabouts(AtNode(n), s.now, twin.Size()));
  }

  lemma TracedAfterStore(t: Topology, exempt: set<NodeId>, s: Net, n: NodeId, p: Packet, luck: Luck)
    requires t.Valid() && Traced(t, exempt, s) && Settled(t, exempt, s) && JustArrived(s, n, p) && TicketsExist(s)
    requires n in s.nodes && n in t.nodes && s.nodes[n].status.Up? && luck.freshId !in s.ids
    ensures Traced(t, exempt, Store(t, s, n, p, luck))
  {
    hide Topology.Valid, Placed, Traced, Settled, Enqueue, Find, TicketsExist;
    TracedAfterDrop(t, exempt, s, n, p.id, Random);
    TracedAfterEnqueue(t, exempt, s, n, p);
    PlacedAfterEnqueue(s, n, p);
    var s1 := Enqueue(s, n, p);
    var twin := p.(id := luck.freshId, duplicate := true);
    PlacedWithFreshId(s1, luck.freshId);
    var s2 := s1.(ids := s1.ids + {luck.freshId});
    TracedStays(t, exempt, s1, s2);
    TracedAfterDuplication(t, exempt, s2, n, twin);
    TracedAfterEnqueue(t, exempt, s2.Record(DuplicationRecord(n, twin)), n, twin);
  }

  lemma TracedAfterForward(t: Topology, exempt: set<NodeId>, s: Net, h: Hand, n: NodeId, p: Packet, luck: Luck)
    requires t.Valid() && Traced(t, exempt, s) && Settled(t, exempt, s) && Placed(s, h) && ArrivesWell(t, s, h, n, p)
    requires TicketsExist(s) && n in s.nodes && n in t.nodes && luck.freshId !in s.ids
    ensures Traced(t, exempt, Forward(t, s, n, p, luck))
  {
    hide Topology.Valid, Placed, Traced, Settled, Store, Find, TicketsExist, Lands;
    if s.nodes[n].status.Down? {
      TracedAfterArrival(t, exempt, s, h, n, p, true);
    } else {
      TracedAfterArrival(t, exempt, s, h, n, p, false);
      PlacedAfterArrival(s, h, n, p, false);
      var s1 := s.Record(ArrivalRecord(n, p, false));
      TicketsStillExist(s, s1);
      TracedStays(t, exempt, s1, Deliver(s1, n, p));
      TracedAfterDrop(t, exempt, s1, n, p.id, ZeroTtl);
      TracedAfterStore(t, exempt, s1, n, Hop(p), luck);
    }
  }

  lemma TracedAfterInject(t: Topology, exempt: set<NodeId>, s: Net, n: NodeId, id: PacketId, d: Datagram, luck: Luck)
    requires t.Valid() && Sound(t, s) && Traced(t, exempt, s) && Settled(t, exempt, s) && Placed(s, Empty)
    requires TicketsExist(s) && n in s.nodes && n in t.nodes
    requires id !in s.ids && luck.freshId !in s.ids && id != luck.freshId
    ensures Traced(t, exempt, Inject(t, s, n, id, d, luck))
  {
    hide Topology.Valid, Sound, Placed, Traced, Settled, Forward, Find, TicketsExist, Lands, Locate;
    PlacedWithFreshId(s, id);
    var s1, s2 := s.(ids := s.ids + {id}), s.(nextNumber := s.nextNumber + 1, ids := s.ids + {id});
    PlacedWithSameSlots(s1, Drawn(id), s2);
    TicketsStillExist(s, s2);
    ArrivalIsAbsent(s2, Drawn(id), id);
    TracedStays(t, exempt, s, s2);
    TracedAfterForward(t, exempt, s2, Drawn(id), n, Packet(id, s.nextNumber, d.payload, d.dest, d.port, d.ttl, false), luck);
  }

  lemma TracedAfterLoss(t: Topology, exempt: set<NodeId>, s: Net, id: PacketId, l: LinkId)
    requires t.Valid() && Traced(t, exempt, s) && Settled(t, exempt, s) && Placed(s, Holding(id, OnLink(l)))
    ensures Traced(t, exempt, s.Record(PacketLostInTransit(id, l)))
  {
    hide Topology.Valid, Placed, Find, Traced, Absent, Settled;
    HandIsAbsent(s, id, OnLink(l));
    HandIsFound(s, id, OnLink(l));
    TracedAfterRecord(t, exempt, s, PacketLostInTransit(id, l), id,
                      Whereabouts(Gone(WasLost), s.now, Find(s.log)[id].size));
  }

  lemma TracedAfterLand(t: Topology, exempt: set<NodeId>, s: Net, l: LinkId, x: InTransit, luck: Luck)
    requires t.Valid() && Sound(t, s) && Traced(t, exempt, s) && Settled(t, exempt, s) && Placed(s, Empty) && TicketsExist(s)
    requires l in s.links && l in t.links && t.Target(l) in s.nodes
    requires x in s.links[l].inTransit && x.Arrival() <= s.now && luck.freshId !in s.ids
    ensures Traced(t, exempt, Land(t, s, l, x, luck))
  {
    hide Topology.Valid, Sound, Placed, Logged, ProperLog, Settled, Forward, Find, TicketsExist, Lands, Locate;
    var s1, h := TakeOff(s, l, x), Holding(x.packet.id, OnLink(l));
    PlacedAfterTakeOff(s, l, x);
    TicketsStillExist(s, s1);
    TracedStays(t, exempt, s, s1);
    if WasDownAfter(s.links[l], x.sent) {
      TracedAfterLoss(t, exempt, s1, x.packet.id, l);
    } else {
      LandsOnTarget(t, s, l, x);
      TracedAfterForward(t, exempt, s1, h, t.Target(l), x.packet, luck);
    }
  }

  lemma TracedAfterDropCleared(t: Topology, exempt: set<NodeId>, s: Net, l: LinkId)
    requires t.Valid() && Fine(t, s) && Traced(t, exempt, s) && Settled(t, exempt, s) && Placed(s, Empty)
    requires InOffering(s, l) && !Handled(s, l)
    ensures Traced(t, exempt, DropCleared(t, s, l))
  {
    hide Topology.Valid, Fine, Sound, Placed, Traced, Settled, Locate;
    BusyFacts(t, s, l);
    FineKeys(t, s);
    var ticket := s.links[l].task.packet.ticket;
    var b := s.accepted[ticket];
    var s1 := Mark(s, ticket, ClearDropped);
    PlacedAfterMark(s, ticket, s1);
    PlacedWithSameSlots(s1, Holding(b.packet.id, AtNode(b.node)), WithTask(s1, l, Idle));
    TracedStays(t, exempt, s, WithTask(s1, l, Idle));
    TracedAfterDrop(t, exempt, WithTask(s1, l, Idle), b.node, b.packet.id, BufferCleared);
  }

  lemma TicketIsOfSource(t: Topology, s: Net, l: LinkId)
    requires Queued(t, s) && Sound(t, s) && l in s.links && s.links[l].task.Busy?
    ensures l in t.links && s.links[l].task.packet.ticket < |s.accepted|
    ensures s.accepted[s.links[l].task.packet.ticket].node == t.Source(l)
  {
    hide Topology.Valid, Timely, NodeSound, LinkSound, BuffersOrdered, AllWon, Line;
    LineHasTask(s.carried[l], s.links[l]);
    assert LineOrdered(s.accepted, Line(s.carried[l], s.links[l]), s.nodes[t.Source(l)].outbound, t.Source(l));
  }

  lemma CarriedInOrder(t: Topology, s: Net, l: LinkId)
    requires Fine(t, s) && l in s.carried
    ensures SentInOrder(Sends(s.accepted, s.carried[l]))
  {
    hide Topology.Valid, Sound, Sends;
    assert CarriedByNow(s.carried[l], s.now);
  }

  /** The bandwidth that is observed after a link carried one more packet is within its allowance. */
  lemma LastObservedIsWithin(t: Topology, s: Net, l: LinkId)
    requires Queued(t, s) && Sound(t, s) && InPace(t, s) && l in t.links && l in s.carried
    requires s.carried[l] != [] && s.carried[l][|s.carried[l]| - 1].at == s.now
    ensures t.Valid() && t.links[l].bandwidth > 0
    ensures var h := Sends(s.accepted, s.carried[l]);
            SentInOrder(h) && h != [] && Within(Observed(h, t.links[l].bandwidth), h, t.links[l].bandwidth)
  {
    hide Topology.Valid, Queued, Sound, InPace, Paced, Within, Observed, Sends, SentInOrder;
    CarriedOnFacts(t, s, l);
    HasBandwidth(t, l);
    QueuedIsSound(t, s);
    CarriedInOrder(t, s, l);
    ObservedOnPacedLink(s.links[l].batch, Sends(s.accepted, s.carried[l]), t.links[l].bandwidth);
  }

  ghost predicate MaySend(t: Topology, s: Net, l: LinkId)
    requires Sound(t, s) && t.Valid()
  {
    && InOffering(s, l) && !Handled(s, l) && !ClearedFromBuffer(s, s.links[l].task.packet.ticket) && s.links[l].status.Up?
  }

  /** `s'` is the state after link `l` carried packet `ticket` from state `s`. */
  ghost predicate SentOff(t: Topology, s: Net, l: LinkId, ticket: nat, s': Net) {
    && Queued(t, s') && Sound(t, s') && InPace(t, s')
    && s'.now == s.now && s'.accepted == s.accepted && l in s.carried && l in s'.carried
    && s'.carried[l] == s.carried[l] + [Carried(ticket, s.now)]
  }

  lemma DepartsWell(t: Topology, s: Net, l: LinkId, ticket: nat, s': Net)
    requires t.Valid() && Logged(t, s) && SentOff(t, s, l, ticket, s')
    requires l in t.links && l in s.links && s.links[l].status.Up?
    requires ticket < |s.accepted| && ticket !in s.handled
    requires var b := s.accepted[ticket];
             b.node in s.nodes && b.node in t.nodes && b.node == t.Source(l) && !ClearedFromBuffer(s, ticket)
    ensures var b := s.accepted[ticket]; Departs(t, s.log, s.now, b.packet.id, b.node, l)
  {
    hide Topology.Valid, Sound, Queued, InPace, Find, LinkSeen, NodeSeen, SentInOrder, Within, Observed, SendsOn, Sends,
         Logged, DownAt, DelayWhenSent, DelayInEffect;
    HasBandwidth(t, l);
    LastObservedIsWithin(t, s', l);
    SendsAppend(s.accepted, s.carried[l], Carried(ticket, s.now));
    TicketIsLogged(t, s, ticket);
    NodeIsLogged(t, s, s.accepted[ticket].node);
    LinkIsLogged(t, s, l);
    SendsAreLogged(t, s, l);
  }

  lemma TicketIsLogged(t: Topology, s: Net, k: nat)
    requires Logged(t, s) && k < |s.accepted| && k !in s.handled
    ensures TicketLogged(s.log, s.accepted[k])
  {
    hide NodesLogged, LinksLogged, AirsLogged, SendsLogged, TicketLogged;
  }

  lemma NodeIsLogged(t: Topology, s: Net, n: NodeId)
    requires Logged(t, s) && n in s.nodes
    ensures NodeLogged(s.log, n, s.nodes[n])
  {
    hide NodeLogged, LinksLogged, AirsLogged, TicketsLogged, SendsLogged;
  }

  lemma SendsAreLogged(t: Topology, s: Net, l: LinkId)
    requires Logged(t, s) && l in s.carried
    ensures SendsOn(s.log, l) == Sends(s.accepted, s.carried[l])
  {
    hide NodesLogged, LinksLogged, AirsLogged, TicketsLogged;
  }

  lemma TracedAfterTransmit(t: Topology, exempt: set<NodeId>, s: Net, l: LinkId)
    requires Queued(t, s) && Sound(t, s) && t.Valid() && Placed(s, Empty)
    requires Traced(t, exempt, s) && Settled(t, exempt, s) && MaySend(t, s, l)
    requires var s' := Transmit(t, s, l); Queued(t, s') && Sound(t, s') && InPace(t, s')
    ensures Traced(t, exempt, Transmit(t, s, l))
  {
    hide Topology.Valid, Sound, Queued, InPace, Find, Placed, Logged, Absent, Departs, Unbuffer, PutOn, Fits, Locate;
    QueuedIsSound(t, s);
    BusyFacts(t, s, l);
    var copy := s.links[l].task.packet;
    TransmitFacts(t, s, l);
    TicketIsOfSource(t, s, l);
    DepartsWell(t, s, l, copy.ticket, Transmit(t, s, l));
    var b := s.accepted[copy.ticket];
    var s1 := Unbuffer(s, l, copy.ticket);
    var s2 := s1.Record(Departure(b, l));
    UnbufferKeepsInboxes(s, l, copy.ticket);
    PlacedAfterMark(s, copy.ticket, s1);
    HandIsAbsent(s1, b.packet.id, AtNode(b.node));
    LoggedAfterDeparture(t, s, l, copy.ticket);
    ProperLogAppend(t, exempt, s.log, Step(s.now, Departure(b, l)));
    var x := InTransit(b.packet, s.now, s.links[l].delay + copy.extraDelay);
    LinkIsLogged(t, s2, l);
    DelayOfDeparture(t, s, l, b);
    FreshAirLogged(s2.log, l, s2.links[l], x, t.links[l].delay, s2.now);
    LoggedAfterPutOn(t, s2, l, x, t.TransmissionTime(l, b.packet.Size()));
    LogAfterPutOn(s2, l, x, t.TransmissionTime(l, b.packet.Size()));
  }

  lemma DelayOfDeparture(t: Topology, s: Net, l: LinkId, b: Buffered)
    requires Logged(t, s) && l in s.links && l in t.links
    ensures DelayWhenSent(s.log + [Step(s.now, Departure(b, l))], b.packet.id, l, t.links[l].delay) == s.links[l].delay
  {
    hide NodesLogged, AirsLogged, TicketsLogged, SendsLogged, DelayInEffect, DelayWhenSent, DownAt, LinkSeen, LastDrop;
    assert LinkLogged(s.log, l, s.links[l], t.links[l].delay, s.now);
    DelayWhenSentAppend(s.log, Step(s.now, Departure(b, l)), b.packet.id, l, t.links[l].delay);
  }

  lemma LinkIsLogged(t: Topology, s: Net, l: LinkId)
    requires Logged(t, s) && l in s.links && l in t.links
    ensures LinkLogged(s.log, l, s.links[l], t.links[l].delay, s.now)
  {
    hide LinkLogged, NodesLogged, AirsLogged, TicketsLogged, SendsLogged;
  }

  lemma LogAfterPutOn(s: Net, l: LinkId, x: InTransit, time: Duration)
    requires l in s.links && s.links[l].batch.created <= s.now
    ensures PutOn(s, l, x, time).log == s.log
  {
  }

  ghost predicate CanFinish(s: Net, l: LinkId) {
    && InOffering(s, l)
    && (Handled(s, l) || s.links[l].status.Up?
        || (var k := s.links[l].task.packet.ticket;
            k < |s.accepted| && s.accepted[k].node in s.nodes && ClearedFromBuffer(s, k)))
  }

  lemma TracedAfterFinish(t: Topology, exempt: set<NodeId>, s: Net, l: LinkId)
    requires Queued(t, s) && Sound(t, s) && t.Valid() && Placed(s, Empty)
    requires Traced(t, exempt, s) && Settled(t, exempt, s) && CanFinish(s, l)
    requires var s' := Finish(t, s, l); Queued(t, s') && Sound(t, s') && InPace(t, s')
    ensures Traced(t, exempt, Finish(t, s, l))
  {
    hide Topology.Valid, Sound, Queued, InPace, Placed, Traced, Settled, Transmit, DropCleared, WithTask;
    QueuedIsSound(t, s);
    BusyFacts(t, s, l);
    if Handled(s, l) {
      TaskChangeSaysNoMore(s, l, Idle);
      TracedStays(t, exempt, s, WithTask(s, l, Idle));
    } else if ClearedFromBuffer(s, s.links[l].task.packet.ticket) {
      TracedAfterDropCleared(t, exempt, s, l);
    } else {
      TracedAfterTransmit(t, exempt, s, l);
    }
  }

  lemma TracedAfterRead(t: Topology, exempt: set<NodeId>, s: Net, n: NodeId, x: InTransit)
    requires t.Valid() && Traced(t, exempt, s) && Settled(t, exempt, s) && Placed(s, Empty)
    requires n in s.nodes && n in t.nodes && x in s.nodes[n].inbox
    ensures Traced(t, exempt, Read(s, n, x))
  {
    hide Topology.Valid, Placed, Find, Traced, Absent, Settled, SaysNoMore;
    var s1, id := PickUp(s, n, x), x.packet.id;
    PlacedAfterPickUp(s, n, x);
    PickUpSaysNoMore(s, n, x);
    TracedStays(t, exempt, s, s1);
    HandIsAbsent(s1, id, AtNode(n));
    HandIsFound(s1, id, AtNode(n));
    TracedAfterRecord(t, exempt, s1, PacketDeliveredToApplication(id, x.packet.number, x.packet.Size(), n), id,
                      Whereabouts(Gone(WasRead), s.now, Find(s.log)[id].size));
  }

  lemma PickUpSaysNoMore(s: Net, n: NodeId, x: InTransit)
    requires n in s.nodes
    ensures SaysNoMore(s, PickUp(s, n, x))
  {
  }

  lemma TracedAfterLinkChange(t: Topology, exempt: set<NodeId>, s: Net, e: LinkEvent)
    requires t.Valid() && Fine(t, s) && Traced(t, exempt, s) && Settled(t, exempt, s)
    ensures Traced(t, exempt, LinkChange(s, e))
  {
    hide Topology.Valid, Sound, Logged, ChangedLink, Fits;
    FineKeys(t, s);
    if e.link in s.links {
      LoggedAfterLinkChange(t, s, e);
      ProperLogAppend(t, exempt, s.log, Step(s.now, NetworkEvent(Some(e), None)));
    }
  }

  lemma TracedAfterNodeChange(t: Topology, exempt: set<NodeId>, s: Net, e: NodeEvent)
    requires t.Valid() && Fine(t, s) && Traced(t, exempt, s) && Settled(t, exempt, s)
    ensures Traced(t, exempt, NodeChange(s, e))
  {
    hide Topology.Valid, Sound, Logged, ChangedNode, Fits;
    FineKeys(t, s);
    if e.node in s.nodes {
      LoggedAfterNodeChange(t, s, e);
      ProperLogAppend(t, exempt, s.log, Step(s.now, NetworkEvent(None, Some(e))));
    }
  }

  lemma OtherQueuesSayNoMore(s: Net, n: NodeId, outbound: seq<nat>, links: map<LinkId, LinkState>)
    requires n in s.nodes && links.Keys == s.links.Keys
    requires forall l :: l in s.links ==> links[l] == s.links[l].(queue := links[l].queue)
    ensures SaysNoMore(s, s.SetNode(n, s.nodes[n].(outbound := outbound)).(links := links))
  {
  }

  lemma DispatchSaysNoMore(t: Topology, s: Net, n: NodeId, rolls: seq<real>)
    requires CanDispatch(t, s, n, rolls)
    ensures SaysNoMore(s, Dispatch(t, s, n, rolls))
  {
    hide Topology.Valid, LinkSound, Offer, SaysNoMore;
    var ticket := s.nodes[n].outbound[0];
    var candidates := t.Candidates(n, s.accepted[ticket].packet.dest).value;
    var links := Offer(t, s.links, ticket, candidates, 0, rolls);
    forall l | l in s.links
      ensures links[l] == s.links[l].(queue := links[l].queue)
    {
      OfferOnlyQueues(t, s.links, ticket, candidates, 0, rolls, l);
    }
    OtherQueuesSayNoMore(s, n, s.nodes[n].outbound[1..], links);
  }

  lemma TakeSaysNoMore(t: Topology, s: Net, l: LinkId)
    requires Sound(t, s) && l in s.links && s.links[l].task.Idle? && s.links[l].queue != []
    ensures SaysNoMore(s, Take(t, s, l))
  {
    hide Topology.Valid, Topology.TransmissionTime, NodeSound, Batch.At, Batch.Wait, Batch.CanSend;
  }

  lemma TaskChangeSaysNoMore(s: Net, l: LinkId, task: LinkTask)
    requires l in s.links
    ensures SaysNoMore(s, WithTask(s, l, task))
  {
  }

  // ---- Whole steps ----------------------------------------------------------------------------

  /** The state is as every run leaves it between two steps. */
  ghost predicate Regular(t: Topology, s: Net) {
    Queued(t, s) && Sound(t, s) && InPace(t, s) && Placed(s, Empty) && Conserved(t, s)
  }

  lemma RegularFacts(t: Topology, s: Net)
    requires Regular(t, s)
    ensures t.Valid() && Fine(t, s) && Queued(t, s) && Sound(t, s) && Placed(s, Empty) && TicketsExist(s)
    ensures s.nodes.Keys == t.nodes.Keys && s.links.Keys == t.links.Keys
  {
    hide Topology.Valid, Sound, Fine, LinesOrdered, BuffersOrdered, Placed, InPace, Conserved;
    QueuedIsSound(t, s);
    QueuedFacts(t, s);
  }

  lemma TargetIsNode(t: Topology, s: Net, l: LinkId)
    requires t.Valid() && l in t.links && s.nodes.Keys == t.nodes.Keys
    ensures t.Target(l) in s.nodes
  {
    hide Topology.Valid;
  }

  /** The actions that record nothing. */
  predicate Quiet(a: Action) {
    a.Dispatching? || a.Taking? || a.Waking? || a.GivingWay? || a.Passing?
  }

  lemma QuietStepSaysNoMore(t: Topology, s: Net, a: Action)
    requires Enabled(t, s, a) && Quiet(a)
    ensures SaysNoMore(s, Apply(t, s, a))
  {
    hide Sound, CanDispatch, Dispatch, Take, WithTask, Handled;
    match a
    case Dispatching(n, rolls) => DispatchSaysNoMore(t, s, n, rolls);
    case Taking(l) => TakeSaysNoMore(t, s, l);
    case Waking(l) => TaskChangeSaysNoMore(s, l, Busy(s.links[l].task.packet, Offering));
    case GivingWay(l) =>
      var copy := s.links[l].task.packet;
      TaskChangeSaysNoMore(s, l, Busy(copy.(preferred := copy.preferred[1..]), Offering));
    case Passing(until) =>
  }

  lemma TracedAfterStep(t: Topology, exempt: set<NodeId>, s: Net, a: Action)
    requires Regular(t, s) && t.Valid() && Traced(t, exempt, s) && Settled(t, exempt, s) && Enabled(t, s, a)
    requires Regular(t, Apply(t, s, a))
    ensures Traced(t, exempt, Apply(t, s, a))
  {
    hide Regular, Queued, Fine, InPace, Sound, Placed, Traced, Settled, Topology.Valid, SaysNoMore, TicketsExist,
         Inject, Land, Take, Finish, Dispatch, Read, LinkChange, NodeChange, CanDispatch, WithTask;
    RegularFacts(t, s);
    if Quiet(a) {
      QuietStepSaysNoMore(t, s, a);
      TracedStays(t, exempt, s, Apply(t, s, a));
    } else {
      match a
      case Injecting(n, id, d, luck) => TracedAfterInject(t, exempt, s, n, id, d, luck);
      case Finishing(l) =>
        BusyFacts(t, s, l);
        assert Queued(t, Finish(t, s, l)) && Sound(t, Finish(t, s, l)) && InPace(t, Finish(t, s, l)) by {
          RegularAgain(t, Finish(t, s, l));
        }
        TracedAfterFinish(t, exempt, s, l);
      case Landing(l, x, luck) =>
        TargetIsNode(t, s, l);
        TracedAfterLand(t, exempt, s, l, x, luck);
      case Reading(n, x) => TracedAfterRead(t, exempt, s, n, x);
      case LinkChanging(e) => TracedAfterLinkChange(t, exempt, s, e);
      case NodeChanging(e) => TracedAfterNodeChange(t, exempt, s, e);
    }
  }

  lemma RegularAgain(t: Topology, s: Net)
    requires Regular(t, s)
    ensures Queued(t, s) && Sound(t, s) && InPace(t, s)
  {
    hide Queued, Sound, InPace, Placed, Conserved;
  }

  // ---- Buffers --------------------------------------------------------------------------------

  /** Node `n` is an endpoint: packets wait in it for an application, or one could not be sent from it. */
  ghost predicate Serves(s: Net, n: NodeId) {
    || (n in s.nodes && s.nodes[n].inbox != multiset{})
    || (exists id :: id in Find(s.log) && Find(s.log)[id].at == Gone(WasRefusedAtSource(n)))
  }

  /** The ticket under which node `n` holds packet `id`. */
  ghost predicate HeldAs(s: Net, n: NodeId, id: PacketId, k: nat) {
    k < |s.accepted| && k !in s.handled && s.accepted[k].node == n && s.accepted[k].packet.id == id
  }

  lemma HeldSomehow(t: Topology, s: Net, n: NodeId, id: PacketId)
    requires Placed(s, Empty) && n in s.nodes && !Serves(s, n) && id in Inside(Find(s.log), n)
    ensures exists k :: HeldAs(s, n, id, k)
  {
    hide Find, Locate, OnePlace, OnceEach, Known;
    FoundIffLocated(s, id);
    var slot :| Occupies(s, Empty, slot, id);
    match slot
    case InBuffer(k) => assert HeldAs(s, n, id, k);
    case InInbox(m, x) => assert false;
    case InAir(l, x) =>
    case InHand =>
  }

  lemma HeldOnce(s: Net, n: NodeId, id: PacketId, k: nat, j: nat)
    requires Placed(s, Empty) && HeldAs(s, n, id, k) && HeldAs(s, n, id, j)
    ensures k == j
  {
    hide Agree, SomePlace, OnceEach, Known;
    assert Occupies(s, Empty, InBuffer(k), id) && Occupies(s, Empty, InBuffer(j), id);
  }

  /** What the verifier counts in a node that serves no application is what the node's buffer holds. */
  lemma HeldIsInside(t: Topology, s: Net, n: NodeId)
    requires Placed(s, Empty) && Logged(t, s) && n in s.nodes && !Serves(s, n)
    ensures BytesInside(s.log, n) == Held(s, n)
  {
    hide Placed, Logged, Find, Serves, TicketLogged;
    var inside := Inside(Find(s.log), n);
    forall id | id in inside
      ensures exists k :: HeldAs(s, n, id, k)
    {
      HeldSomehow(t, s, n, id);
    }
    var ticket := map id | id in inside :: PickTicket(s, n, id);
    forall id | id in inside
      ensures ticket[id] in HeldTickets(s, n) && HeldAs(s, n, id, ticket[id])
      ensures inside[id].size == s.accepted[ticket[id]].packet.Size()
    {
      TicketIsInside(t, s, n, ticket[id]);
    }
    forall k | k in HeldTickets(s, n)
      ensures s.accepted[k].packet.id in inside && ticket[s.accepted[k].packet.id] == k
    {
      TicketIsInside(t, s, n, k);
      HeldOnce(s, n, s.accepted[k].packet.id, k, ticket[s.accepted[k].packet.id]);
    }
    SumReindexed(inside.Keys, HeldTickets(s, n), ticket,
                 id => if id in inside then inside[id].size else 0,
                 k => if 0 <= k < |s.accepted| then s.accepted[k].packet.Size() else 0);
  }

  ghost function PickTicket(s: Net, n: NodeId, id: PacketId): (k: nat)
    requires exists k :: HeldAs(s, n, id, k)
    ensures HeldAs(s, n, id, k)
  {
    var k :| HeldAs(s, n, id, k);
    k
  }

  lemma TicketIsInside(t: Topology, s: Net, n: NodeId, k: nat)
    requires Logged(t, s) && k < |s.accepted| && k !in s.handled && s.accepted[k].node == n
    ensures var id := s.accepted[k].packet.id;
            id in Inside(Find(s.log), n) && Inside(Find(s.log), n)[id].size == s.accepted[k].packet.Size()
  {
    hide Find, Logged;
    TicketIsLogged(t, s, k);
  }

  lemma FitsAtRest(t: Topology, exempt: set<NodeId>, s: Net)
    requires Placed(s, Empty) && Logged(t, s) && Conserved(t, s)
    requires forall n :: n in s.nodes && Serves(s, n) ==> n in exempt
    ensures Fits(t, exempt, s.log)
  {
    hide Placed, Logged, Find, Serves, BytesInside;
    forall n | n in t.nodes && n !in exempt
      ensures BytesInside(s.log, n) <= t.nodes[n].bufferSize
    {
      assert NodeConserved(t, s, n);
      HeldIsInside(t, s, n);
    }
  }

  // ---- Whole runs -----------------------------------------------------------------------------

  /** Node `n` is an endpoint in some state of the run. */
  ghost predicate Served(t: Topology, actions: seq<Action>, n: NodeId)
    requires IsRun(t, actions)
    decreases |actions|
  {
    LastStep(t, actions);
    Serves(StateAfter(t, actions), n) || (actions != [] && Served(t, actions[..|actions| - 1], n))
  }

  lemma RunIsRegular(t: Topology, actions: seq<Action>)
    requires IsRun(t, actions)
    ensures Regular(t, StateAfter(t, actions))
  {
    hide Queued, Sound, InPace, Placed, Conserved, IsRun, StateAfter;
    RunIsQueued(t, actions);
    RunIsInPace(t, actions);
    LocationPartition(t, actions);
    BufferConservation(t, actions);
  }

  lemma TracedInitially(t: Topology, exempt: set<NodeId>)
    requires t.Valid()
    ensures Traced(t, exempt, Initial(t))
  {
    hide Topology.Valid;
  }

  lemma RunFits(t: Topology, actions: seq<Action>, exempt: set<NodeId>)
    requires IsRun(t, actions) && t.Valid() && Traced(t, exempt, StateAfter(t, actions))
    requires forall n :: n in t.nodes && Served(t, actions, n) ==> n in exempt
    ensures Fits(t, exempt, StateAfter(t, actions).log)
  {
    hide Topology.Valid, Queued, Sound, InPace, Placed, Logged, ProperLog, Conserved, StateAfter, Serves, Fits;
    RunIsRegular(t, actions);
    RegularFacts(t, StateAfter(t, actions));
    FitsAtRest(t, exempt, StateAfter(t, actions));
  }

  /**
   In every run: the log describes a working network. Only nodes that are endpoints at some time
   need to be exempt from the bound on what a node holds.
   */
  lemma {:induction false} RunsAreTraced(t: Topology, actions: seq<Action>, exempt: set<NodeId>)
    requires IsRun(t, actions)
    requires forall n :: n in t.nodes && Served(t, actions, n) ==> n in exempt
    ensures t.Valid()
    ensures Traced(t, exempt, StateAfter(t, actions)) && Fits(t, exempt, StateAfter(t, actions).log)
  {
    hide Topology.Valid, Regular, Traced, Fits, Apply, Enabled, Serves, IsRun, StateAfter;
    LastStep(t, actions);
    if actions == [] {
      TracedInitially(t, exempt);
    } else {
      var init := actions[..|actions| - 1];
      assert forall n :: n in t.nodes && Served(t, init, n) ==> Served(t, actions, n);
      RunsAreTraced(t, init, exempt);
      RunIsRegular(t, init);
      RunIsRegular(t, actions);
      TracedAfterStep(t, exempt, StateAfter(t, init), actions[|actions| - 1]);
    }
    RunFits(t, actions, exempt);
  }
}
