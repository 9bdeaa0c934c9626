/** First in, first out, and a single winner: what the queues between the buffers and the links keep. */
module Queues {
  import opened Prelude
  import opened Trace
  import opened PacketPacer
  import opened Cidr
  import opened Routing
  import opened Network
  import opened Soundness

  /** The tickets that went through a link, then the one its task holds, then those in its queue. */
  function Line(carried: seq<Carried>, link: LinkState): seq<nat> {
    seq(|carried|, i requires 0 <= i < |carried| => carried[i].ticket)
    + (if link.task.Busy? then [link.task.packet.ticket] else [])
    + seq(|link.queue|, i requires 0 <= i < |link.queue| => link.queue[i].ticket)
  }

  ghost predicate Ascending(xs: seq<nat>) {
    forall i, j :: 0 <= i < j < |xs| ==> xs[i] <= xs[j]
  }

  ghost predicate StrictlyAscending(xs: seq<nat>) {
    forall i, j :: 0 <= i < j < |xs| ==> xs[i] < xs[j]
  }

  ghost predicate Precede(xs: seq<nat>, ys: seq<nat>) {
    forall x, y :: x in xs && y in ys ==> x < y
  }

  /** The tickets are those of packets that node `n` accepted. */
  ghost predicate OfNode(accepted: seq<Buffered>, tickets: seq<nat>, n: NodeId) {
    forall i :: 0 <= i < |tickets| ==> tickets[i] < |accepted| && accepted[tickets[i]].node == n
  }

  ghost predicate LineOrdered(accepted: seq<Buffered>, line: seq<nat>, outbound: seq<nat>, n: NodeId) {
    Ascending(line) && Precede(line, outbound) && OfNode(accepted, line, n)
  }

  ghost predicate LinesOrdered(t: Topology, s: Net)
    requires Sound(t, s)
  {
    forall l :: l in s.links ==>
      LineOrdered(s.accepted, Line(s.carried[l], s.links[l]), s.nodes[t.Source(l)].outbound, t.Source(l))
  }

  ghost predicate BuffersOrdered(s: Net) {
    forall n :: n in s.nodes ==> StrictlyAscending(s.nodes[n].outbound) && OfNode(s.accepted, s.nodes[n].outbound, n)
  }

  /** A link only carried packets whose flag it had set, each of them once. */
  ghost predicate Won(s: Net, l: LinkId)
    requires l in s.carried
  {
    && (forall i :: 0 <= i < |s.carried[l]| ==>
          s.carried[l][i].ticket in s.handled && s.handled[s.carried[l][i].ticket] == SentOver(l))
    && (forall i, j :: 0 <= i < j < |s.carried[l]| ==> s.carried[l][i].ticket < s.carried[l][j].ticket)
  }

  ghost predicate AllWon(s: Net) {
    && (forall l :: l in s.carried ==> Won(s, l))
    && (forall k :: k in s.handled ==> k < |s.accepted|)
    && (forall k :: k in s.handled && s.handled[k].SentOver? ==>
          && s.handled[k].link in s.carried
          && exists i :: 0 <= i < |s.carried[s.handled[k].link]| && s.carried[s.handled[k].link][i].ticket == k)
  }

  ghost predicate Queued(t: Topology, s: Net) {
    Fine(t, s) && LinesOrdered(t, s) && BuffersOrdered(s) && AllWon(s)
  }

  // ---- Steps that leave the queues alone ------------------------------------------------------

  ghost predicate SameQueues(s: Net, s': Net) {
    && s'.accepted == s.accepted && s'.handled == s.handled && s'.carried == s.carried
    && s'.nodes.Keys == s.nodes.Keys && s'.links.Keys == s.links.Keys
    && (forall n :: n in s.nodes ==> s'.nodes[n].outbound == s.nodes[n].outbound)
    && s.links.Keys == s.carried.Keys
    && (forall l :: l in s.links ==> Line(s'.carried[l], s'.links[l]) == Line(s.carried[l], s.links[l]))
  }

  lemma QueuedWithSameQueues(t: Topology, s: Net, s': Net)
    requires Queued(t, s) && Fine(t, s') && SameQueues(s, s')
    ensures Queued(t, s')
  {
    hide Topology.Valid, Timely, NodeSound, LinkSound, LineOrdered, StrictlyAscending, OfNode, Line;
    assert forall l :: l in s.carried ==> Won(s, l);
    assert forall l :: l in s.carried ==> Won(s', l);
  }

  // ---- A packet is accepted -------------------------------------------------------------------

  lemma OfNodeGrows(accepted: seq<Buffered>, b: Buffered, tickets: seq<nat>, n: NodeId)
    requires OfNode(accepted, tickets, n)
    ensures OfNode(accepted + [b], tickets, n)
  {
  }

  lemma LineAfterAccept(accepted: seq<Buffered>, b: Buffered, line: seq<nat>, outbound: seq<nat>, n: NodeId)
    requires LineOrdered(accepted, line, outbound, n)
    ensures LineOrdered(accepted + [b], line, outbound, n)
    ensures LineOrdered(accepted + [b], line, outbound + [|accepted|], n)
  {
    OfNodeGrows(accepted, b, line, n);
  }

  lemma BufferAfterAccept(accepted: seq<Buffered>, b: Buffered, outbound: seq<nat>, n: NodeId)
    requires StrictlyAscending(outbound) && OfNode(accepted, outbound, n)
    ensures OfNode(accepted + [b], outbound, n)
    ensures b.node == n ==> StrictlyAscending(outbound + [|accepted|]) && OfNode(accepted + [b], outbound + [|accepted|], n)
  {
  }

  /** `s'` is `s` after node `b.node` accepted the packet `b`. */
  ghost predicate Accepts(s: Net, b: Buffered, s': Net) {
    && s'.accepted == s.accepted + [b]
    && s'.handled == s.handled && s'.carried == s.carried && s'.links == s.links
    && s'.nodes.Keys == s.nodes.Keys
    && (forall n :: n in s.nodes ==>
          s'.nodes[n].outbound == s.nodes[n].outbound + if n == b.node then [|s.accepted|] else [])
  }

  lemma EnqueueAccepts(s: Net, n: NodeId, p: Packet)
    requires n in s.nodes && s.nodes[n].available >= p.Size()
    ensures Accepts(s, Buffered(n, s.now, p), Enqueue(s, n, p))
  {
  }

  lemma LinesAfterAccept(t: Topology, s: Net, b: Buffered, s': Net)
    requires Fine(t, s) && Fine(t, s') && Accepts(s, b, s') && LinesOrdered(t, s)
    ensures LinesOrdered(t, s')
  {
    hide Topology.Valid, Timely, NodeSound, LinkSound, LineOrdered, Line;
    forall l | l in s.links
      ensures LineOrdered(s'.accepted, Line(s'.carried[l], s'.links[l]), s'.nodes[t.Source(l)].outbound, t.Source(l))
    {
      var outbound := s.nodes[t.Source(l)].outbound;
      LineAfterAccept(s.accepted, b, Line(s.carried[l], s.links[l]), outbound, t.Source(l));
      assert outbound + [] == outbound;
    }
  }

  lemma BuffersAfterAccept(s: Net, b: Buffered, s': Net)
    requires Accepts(s, b, s') && BuffersOrdered(s)
    ensures BuffersOrdered(s')
  {
    hide StrictlyAscending, OfNode;
    forall n | n in s'.nodes
      ensures StrictlyAscending(s'.nodes[n].outbound) && OfNode(s'.accepted, s'.nodes[n].outbound, n)
    {
      BufferAfterAccept(s.accepted, b, s.nodes[n].outbound, n);
      assert s.nodes[n].outbound + [] == s.nodes[n].outbound;
    }
  }

  lemma QueuedAfterEnqueue(t: Topology, s: Net, n: NodeId, p: Packet)
    requires Queued(t, s) && n in s.nodes
    ensures Queued(t, Enqueue(s, n, p))
  {
    hide Fine, Topology.Valid, LinesOrdered, BuffersOrdered, Sound;
    FineAfterEnqueue(t, s, n, p);
    if s.nodes[n].available < p.Size() {
      QueuedAfterRecord(t, s, PacketDropped(p.id, n, BufferFull));
    } else {
      EnqueueAccepts(s, n, p);
      LinesAfterAccept(t, s, Buffered(n, s.now, p), Enqueue(s, n, p));
      BuffersAfterAccept(s, Buffered(n, s.now, p), Enqueue(s, n, p));
    }
  }

  lemma QueuedAfterRecord(t: Topology, s: Net, kind: StepKind)
    requires Queued(t, s)
    ensures Queued(t, s.Record(kind))
  {
    hide Topology.Valid, Timely, NodeSound, LinkSound, LinesOrdered, BuffersOrdered, AllWon;
    FineAfterRecord(t, s, kind);
    QueuedWithSameQueues(t, s, s.Record(kind));
  }

  lemma QueuedWithIds(t: Topology, s: Net, ids: set<PacketId>, nextNumber: nat)
    requires Queued(t, s)
    ensures Queued(t, s.(ids := ids, nextNumber := nextNumber))
  {
    hide Topology.Valid, Timely, NodeSound, LinkSound, LinesOrdered, BuffersOrdered, AllWon;
    FineWithIds(t, s, ids, nextNumber);
    QueuedWithSameQueues(t, s, s.(ids := ids, nextNumber := nextNumber));
  }

  lemma QueuedWithNode(t: Topology, s: Net, n: NodeId, node: NodeState)
    requires Queued(t, s) && n in s.nodes && node.outbound == s.nodes[n].outbound
    ensures Queued(t, s.SetNode(n, node))
  {
    hide Topology.Valid, Timely, LinesOrdered, BuffersOrdered, AllWon;
    assert NodeSound(s.nodes[n], |s.accepted|);
    FineWithNode(t, s, n, node);
    QueuedWithSameQueues(t, s, s.SetNode(n, node));
  }

  lemma QueuedWithLink(t: Topology, s: Net, l: LinkId, link: LinkState)
    requires Queued(t, s) && l in s.links
    requires Line(s.carried[l], link) == Line(s.carried[l], s.links[l])
    requires LinkSound(link, |s.accepted|, s.now) && SentByNow(link.inTransit, s.now)
    ensures Queued(t, s.SetLink(l, link))
  {
    hide Topology.Valid, Timely, NodeSound, LinkSound, LinesOrdered, BuffersOrdered, AllWon, Line, SentByNow;
    FineWithLink(t, s, l, link);
    QueuedWithSameQueues(t, s, s.SetLink(l, link));
  }

  // ---- A packet is offered to the links -------------------------------------------------------

  /** `more` is `line` followed by any number of copies of `ticket`. */
  ghost predicate Repeats(line: seq<nat>, more: seq<nat>, ticket: nat) {
    && |line| <= |more| && more[..|line|] == line
    && forall i :: |line| <= i < |more| ==> more[i] == ticket
  }

  lemma LineWithCopy(carried: seq<Carried>, link: LinkState, copy: Outgoing)
    ensures Line(carried, link.(queue := link.queue + [copy])) == Line(carried, link) + [copy.ticket]
  {
  }

  lemma RepeatsMore(line: seq<nat>, ticket: nat, more: seq<nat>)
    requires Repeats(line + [ticket], more, ticket)
    ensures Repeats(line, more, ticket)
  {
    assert more[..|line|] == (line + [ticket])[..|line|] by {
      assert more[..|line|] == more[..|line| + 1][..|line|];
    }
  }

  lemma {:induction false} LineAfterOffer(t: Topology, links: map<LinkId, LinkState>, ticket: nat, candidates: seq<LinkId>,
                                          k: nat, rolls: seq<real>, l: LinkId, carried: seq<Carried>)
    requires k <= |candidates| == |rolls| && l in links
    requires forall i :: 0 <= i < |candidates| ==> candidates[i] in links && candidates[i] in t.links
    ensures var link := Offer(t, links, ticket, candidates, k, rolls)[l];
            Repeats(Line(carried, links[l]), Line(carried, link), ticket) && link.task == links[l].task
    ensures l !in candidates[k..] ==> Offer(t, links, ticket, candidates, k, rolls)[l] == links[l]
    decreases |candidates| - k
  {
    hide Line;
    if k < |candidates| {
      var m := candidates[k];
      var extra := if rolls[k] < t.links[m].extraDelayRatio then t.links[m].extraDelay else 0.0;
      var copy := Outgoing(ticket, extra, candidates);
      var links' := links[m := links[m].(queue := links[m].queue + [copy])];
      LineAfterOffer(t, links', ticket, candidates, k + 1, rolls, l, carried);
      LineWithCopy(carried, links[m], copy);
      if l == m {
        RepeatsMore(Line(carried, links[l]), ticket, Line(carried, Offer(t, links', ticket, candidates, k + 1, rolls)[l]));
      }
    }
  }

  lemma OrderedAfterOffer(accepted: seq<Buffered>, line: seq<nat>, more: seq<nat>, outbound: seq<nat>, n: NodeId)
    requires outbound != [] && LineOrdered(accepted, line, outbound, n) && Repeats(line, more, outbound[0])
    requires StrictlyAscending(outbound) && OfNode(accepted, outbound, n)
    ensures LineOrdered(accepted, more, outbound[1..], n)
  {
    forall i | 0 <= i < |more|
      ensures more[i] <= outbound[0]
      ensures i < |line| ==> more[i] == line[i] && line[i] in line
    {
      if i < |line| {
        assert more[i] == more[..|line|][i];
        assert line[i] in line && outbound[0] in outbound;
      }
    }
  }

  lemma LineAfterDispatch(t: Topology, s: Net, n: NodeId, rolls: seq<real>, l: LinkId)
    requires Queued(t, s) && CanDispatch(t, s, n, rolls) && l in s.links
    ensures var s' := Dispatch(t, s, n, rolls);
            LineOrdered(s'.accepted, Line(s'.carried[l], s'.links[l]), s'.nodes[t.Source(l)].outbound, t.Source(l))
  {
    hide Topology.Valid, Timely, LinkSound, LineOrdered, Line, StrictlyAscending, OfNode, Repeats, Offer, AllWon;
    var outbound := s.nodes[n].outbound;
    var candidates := t.Candidates(n, s.accepted[outbound[0]].packet.dest).value;
    var s' := Dispatch(t, s, n, rolls);
    LineAfterOffer(t, s.links, outbound[0], candidates, 0, rolls, l, s.carried[l]);
    if t.Source(l) == n {
      OrderedAfterOffer(s.accepted, Line(s.carried[l], s.links[l]), Line(s'.carried[l], s'.links[l]), outbound, n);
    }
  }

  lemma LinesAfterDispatch(t: Topology, s: Net, n: NodeId, rolls: seq<real>)
    requires Queued(t, s) && CanDispatch(t, s, n, rolls) && Fine(t, Dispatch(t, s, n, rolls))
    ensures LinesOrdered(t, Dispatch(t, s, n, rolls))
  {
    hide Topology.Valid, Timely, NodeSound, LinkSound, LineOrdered, Line, Offer, AllWon, BuffersOrdered;
    forall l | l in s.links
      ensures var s' := Dispatch(t, s, n, rolls);
        LineOrdered(s'.accepted, Line(s'.carried[l], s'.links[l]), s'.nodes[t.Source(l)].outbound, t.Source(l))
    {
      LineAfterDispatch(t, s, n, rolls, l);
    }
  }

  lemma BuffersAfterDispatch(t: Topology, s: Net, n: NodeId, rolls: seq<real>)
    requires Queued(t, s) && CanDispatch(t, s, n, rolls)
    ensures BuffersOrdered(Dispatch(t, s, n, rolls))
  {
    hide Topology.Valid, Fine, Sound, LinesOrdered, AllWon, Offer;
  }

  lemma QueuedAfterDispatch(t: Topology, s: Net, n: NodeId, rolls: seq<real>)
    requires Queued(t, s) && CanDispatch(t, s, n, rolls)
    ensures Queued(t, Dispatch(t, s, n, rolls))
  {
    hide Fine, Topology.Valid, LinesOrdered, BuffersOrdered, Sound, Offer;
    FineAfterDispatch(t, s, n, rolls);
    LinesAfterDispatch(t, s, n, rolls);
    BuffersAfterDispatch(t, s, n, rolls);
  }

  // ---- A link works on a packet ---------------------------------------------------------------

  lemma QueuedAfterTake(t: Topology, s: Net, l: LinkId)
    requires Queued(t, s) && l in s.links && s.links[l].task.Idle? && s.links[l].queue != []
    ensures Queued(t, Take(t, s, l))
  {
    hide Topology.Valid, Timely, LinesOrdered, BuffersOrdered, AllWon, Topology.TransmissionTime, NodeSound, LinkSound;
    FineAfterTake(t, s, l);
    QueuedWithSameQueues(t, s, Take(t, s, l));
  }

  lemma QueuedAfterTaskChange(t: Topology, s: Net, l: LinkId, task: LinkTask)
    requires Queued(t, s) && l in s.links && s.links[l].task.Busy?
    requires task.Busy? && task.packet.ticket == s.links[l].task.packet.ticket
    ensures Queued(t, WithTask(s, l, task))
  {
    hide Topology.Valid, Timely, LinesOrdered, BuffersOrdered, AllWon, NodeSound, LinkSound;
    FineAfterTaskChange(t, s, l, task);
    QueuedWithSameQueues(t, s, WithTask(s, l, task));
  }

  /** Taking one element out of a line keeps it in order. */
  lemma OrderedWithout(accepted: seq<Buffered>, line: seq<nat>, i: nat, outbound: seq<nat>, n: NodeId)
    requires i < |line| && LineOrdered(accepted, line, outbound, n)
    ensures LineOrdered(accepted, line[..i] + line[i + 1..], outbound, n)
  {
    var less := line[..i] + line[i + 1..];
    assert forall j :: 0 <= j < |less| ==> less[j] == line[if j < i then j else j + 1];
    assert forall x :: x in less ==> x in line;
  }

  lemma LineWithoutTask(carried: seq<Carried>, link: LinkState)
    requires link.task.Busy?
    ensures var line := Line(carried, link);
            Line(carried, link.(task := Idle)) == line[..|carried|] + line[|carried| + 1..]
  {
  }

  lemma LinesAfterIdle(t: Topology, s: Net, l: LinkId)
    requires Queued(t, s) && l in s.links && s.links[l].task.Busy? && Fine(t, WithTask(s, l, Idle))
    ensures LinesOrdered(t, WithTask(s, l, Idle))
  {
    hide Topology.Valid, Timely, NodeSound, LinkSound, LineOrdered, Line;
    LineWithoutTask(s.carried[l], s.links[l]);
    LineHasTask(s.carried[l], s.links[l]);
    OrderedWithout(s.accepted, Line(s.carried[l], s.links[l]), |s.carried[l]|, s.nodes[t.Source(l)].outbound, t.Source(l));
  }

  lemma LineHasTask(carried: seq<Carried>, link: LinkState)
    requires link.task.Busy?
    ensures |Line(carried, link)| > |carried| && Line(carried, link)[|carried|] == link.task.packet.ticket
    ensures forall i :: 0 <= i < |carried| ==> Line(carried, link)[i] == carried[i].ticket
  {
  }

  lemma QueuedAfterIdle(t: Topology, s: Net, l: LinkId)
    requires Queued(t, s) && l in s.links && s.links[l].task.Busy?
    ensures Queued(t, WithTask(s, l, Idle))
  {
    hide Topology.Valid, Fine, LinesOrdered, Sound;
    FineAfterIdle(t, s, l);
    LinesAfterIdle(t, s, l);
  }

  lemma AllWonAfterClear(s: Net, ticket: nat)
    requires AllWon(s) && ticket !in s.handled && ticket < |s.accepted|
    ensures AllWon(Mark(s, ticket, ClearDropped))
  {
  }

  lemma QueuedAfterMarkCleared(t: Topology, s: Net, ticket: nat)
    requires Queued(t, s) && ticket !in s.handled && ticket < |s.accepted|
    ensures Queued(t, Mark(s, ticket, ClearDropped))
  {
    hide Topology.Valid, Timely, NodeSound, LinkSound, LineOrdered, AllWon, Line;
    FineAfterMark(t, s, ticket, ClearDropped);
    AllWonAfterClear(s, ticket);
  }

  lemma QueuedAfterDropCleared(t: Topology, s: Net, l: LinkId)
    requires Queued(t, s) && InOffering(s, l) && !Handled(s, l)
    ensures Queued(t, DropCleared(t, s, l))
  {
    hide Topology.Valid, Fine, Sound, WithTask, LinesOrdered, BuffersOrdered, AllWon;
    BusyFacts(t, s, l);
    var ticket := s.links[l].task.packet.ticket;
    var b := s.accepted[ticket];
    QueuedAfterMarkCleared(t, s, ticket);
    QueuedAfterIdle(t, Mark(s, ticket, ClearDropped), l);
    QueuedAfterRecord(t, WithTask(Mark(s, ticket, ClearDropped), l, Idle),
                      PacketDropped(b.packet.id, b.node, BufferCleared));
  }

  lemma LineAfterCarry(carried: seq<Carried>, link: LinkState, at: Duration)
    requires link.task.Busy?
    ensures var line, i := Line(carried, link), |carried|;
            Line(carried + [Carried(link.task.packet.ticket, at)], link) == line[..i] + [line[i]] + line[i..]
  {
  }

  lemma OrderedWithTwice(accepted: seq<Buffered>, line: seq<nat>, i: nat, outbound: seq<nat>, n: NodeId)
    requires i < |line| && LineOrdered(accepted, line, outbound, n)
    ensures LineOrdered(accepted, line[..i] + [line[i]] + line[i..], outbound, n)
  {
    var more := line[..i] + [line[i]] + line[i..];
    assert forall j :: 0 <= j < |more| ==> more[j] == line[if j <= i then j else j - 1];
    assert forall x :: x in more ==> x in line;
  }

  lemma LinesAfterUnbuffer(t: Topology, s: Net, l: LinkId)
    requires Queued(t, s) && InOffering(s, l)
    requires s.links[l].task.packet.ticket < |s.accepted| && s.accepted[s.links[l].task.packet.ticket].node in s.nodes
    requires Fine(t, Unbuffer(s, l, s.links[l].task.packet.ticket))
    ensures LinesOrdered(t, Unbuffer(s, l, s.links[l].task.packet.ticket))
  {
    hide Topology.Valid, Timely, NodeSound, LinkSound, LineOrdered, Line;
    LineAfterCarry(s.carried[l], s.links[l], s.now);
    LineHasTask(s.carried[l], s.links[l]);
    OrderedWithTwice(s.accepted, Line(s.carried[l], s.links[l]), |s.carried[l]|, s.nodes[t.Source(l)].outbound, t.Source(l));
  }

  lemma TicketIsLast(t: Topology, s: Net, l: LinkId)
    requires Queued(t, s) && InOffering(s, l) && !Handled(s, l)
    ensures forall i :: 0 <= i < |s.carried[l]| ==> s.carried[l][i].ticket < s.links[l].task.packet.ticket
  {
    hide Topology.Valid, Timely, NodeSound, LinkSound, BuffersOrdered, Line;
    LineHasTask(s.carried[l], s.links[l]);
    var line := Line(s.carried[l], s.links[l]);
    assert Ascending(line);
    assert Won(s, l);
  }

  lemma WonAfterUnbuffer(s: Net, l: LinkId, ticket: nat, m: LinkId)
    requires l in s.carried && ticket < |s.accepted| && ticket !in s.handled && s.accepted[ticket].node in s.nodes
    requires forall i :: 0 <= i < |s.carried[l]| ==> s.carried[l][i].ticket < ticket
    requires m in s.carried && Won(s, m)
    ensures Won(Unbuffer(s, l, ticket), m)
  {
  }

  lemma WinnerAfterUnbuffer(s: Net, l: LinkId, ticket: nat, k: nat)
    requires AllWon(s) && l in s.carried && ticket < |s.accepted| && ticket !in s.handled
    requires s.accepted[ticket].node in s.nodes
    requires var s' := Unbuffer(s, l, ticket); k in s'.handled && s'.handled[k].SentOver?
    ensures var s' := Unbuffer(s, l, ticket);
            && k < |s'.accepted|
            && s'.handled[k].link in s'.carried
            && exists i :: 0 <= i < |s'.carried[s'.handled[k].link]| && s'.carried[s'.handled[k].link][i].ticket == k
  {
    hide Won;
    var s' := Unbuffer(s, l, ticket);
    if k == ticket {
      assert s'.carried[l][|s.carried[l]|].ticket == k;
    } else {
      var m := s.handled[k].link;
      var i :| 0 <= i < |s.carried[m]| && s.carried[m][i].ticket == k;
      assert s'.carried[m][i].ticket == k;
    }
  }

  lemma HandledAfterUnbuffer(s: Net, l: LinkId, ticket: nat)
    requires l in s.carried && ticket < |s.accepted| && s.accepted[ticket].node in s.nodes
    ensures Unbuffer(s, l, ticket).handled == s.handled[ticket := SentOver(l)]
    ensures Unbuffer(s, l, ticket).carried.Keys == s.carried.Keys
  {
  }

  lemma AllWonAfterUnbuffer(s: Net, l: LinkId, ticket: nat)
    requires AllWon(s) && l in s.carried && ticket < |s.accepted| && ticket !in s.handled
    requires s.accepted[ticket].node in s.nodes
    requires forall i :: 0 <= i < |s.carried[l]| ==> s.carried[l][i].ticket < ticket
    ensures AllWon(Unbuffer(s, l, ticket))
  {
    hide Won, Unbuffer;
    var s' := Unbuffer(s, l, ticket);
    HandledAfterUnbuffer(s, l, ticket);
    forall k | k in s'.handled && s'.handled[k].SentOver?
      ensures s'.handled[k].link in s'.carried
      ensures exists i :: 0 <= i < |s'.carried[s'.handled[k].link]| && s'.carried[s'.handled[k].link][i].ticket == k
    {
      WinnerAfterUnbuffer(s, l, ticket, k);
    }
    forall m | m in s'.carried
      ensures Won(s', m)
    {
      WonAfterUnbuffer(s, l, ticket, m);
    }
  }

  lemma QueuedAfterUnbuffer(t: Topology, s: Net, l: LinkId)
    requires Queued(t, s) && InOffering(s, l) && !Handled(s, l)
    requires s.links[l].task.packet.ticket < |s.accepted| && s.accepted[s.links[l].task.packet.ticket].node in s.nodes
    requires l in s.carried
    ensures Queued(t, Unbuffer(s, l, s.links[l].task.packet.ticket))
  {
    hide Topology.Valid, Fine, Sound, LinesOrdered, AllWon, StrictlyAscending, OfNode;
    var ticket := s.links[l].task.packet.ticket;
    FineAfterUnbuffer(t, s, l, ticket);
    LinesAfterUnbuffer(t, s, l);
    TicketIsLast(t, s, l);
    AllWonAfterUnbuffer(s, l, ticket);
  }

  /** Putting a packet on a link is, for the queues, what making the link's task idle is. */
  lemma QueuedAfterPutOn(t: Topology, s: Net, l: LinkId, x: InTransit, time: Duration)
    requires Queued(t, s) && l in s.links && s.links[l].task.Busy? && s.links[l].batch.created <= s.now && x.sent == s.now
    ensures Queued(t, PutOn(s, l, x, time))
  {
    hide Topology.Valid, Fine, Sound, LinesOrdered, AllWon, BuffersOrdered, Batch.Add;
    FineAfterPutOn(t, s, l, x, time);
    QueuedAfterIdle(t, s, l);
    QueuedWithSameQueues(t, WithTask(s, l, Idle), PutOn(s, l, x, time)) by {
      PutOnIsIdle(t, s, l, x, time);
    }
  }

  lemma PutOnIsIdle(t: Topology, s: Net, l: LinkId, x: InTransit, time: Duration)
    requires Fine(t, s) && l in s.links && s.links[l].batch.created <= s.now
    ensures SameQueues(WithTask(s, l, Idle), PutOn(s, l, x, time))
  {
    hide Topology.Valid, Batch.Add;
  }

  lemma QueuedAfterTransmit(t: Topology, s: Net, l: LinkId)
    requires Queued(t, s) && InOffering(s, l) && !Handled(s, l)
    ensures Queued(t, Transmit(t, s, l))
  {
    hide Topology.Valid, Fine, Sound, PutOn, Unbuffer, LinesOrdered, AllWon, BuffersOrdered;
    BusyFacts(t, s, l);
    var copy := s.links[l].task.packet;
    var b := s.accepted[copy.ticket];
    QueuedAfterUnbuffer(t, s, l);
    var s1 := Unbuffer(s, l, copy.ticket);
    var x := InTransit(b.packet, s.now, s.links[l].delay + copy.extraDelay);
    var time := t.TransmissionTime(l, b.packet.Size());
    QueuedAfterRecord(t, s1, PacketInTransit(b.packet.id, b.node, l));
    QueuedAfterPutOn(t, s1.Record(PacketInTransit(b.packet.id, b.node, l)), l, x, time);
  }

  lemma QueuedAfterFinish(t: Topology, s: Net, l: LinkId)
    requires Queued(t, s) && InOffering(s, l)
    ensures Queued(t, Finish(t, s, l))
  {
    hide Topology.Valid, Fine, Sound, Transmit, DropCleared, WithTask, LinesOrdered, AllWon, BuffersOrdered;
    BusyFacts(t, s, l);
    if Handled(s, l) {
      QueuedAfterIdle(t, s, l);
    } else {
      QueuedAfterTransmit(t, s, l);
      QueuedAfterDropCleared(t, s, l);
    }
  }

  // ---- Whole steps ----------------------------------------------------------------------------

  lemma QueuedAfterStore(t: Topology, s: Net, n: NodeId, p: Packet, luck: Luck)
    requires Queued(t, s) && n in s.nodes && n in t.nodes
    ensures Queued(t, Store(t, s, n, p, luck))
  {
    hide Queued, Enqueue;
    var twin := p.(id := luck.freshId, duplicate := true);
    QueuedAfterRecord(t, s, PacketDropped(p.id, n, Random));
    QueuedAfterEnqueue(t, s, n, p);
    var s1 := Enqueue(s, n, p);
    QueuedWithIds(t, s1, s1.ids + {luck.freshId}, s1.nextNumber);
    var s2 := s1.(ids := s1.ids + {luck.freshId});
    QueuedAfterRecord(t, s2, DuplicationRecord(n, twin));
    QueuedAfterEnqueue(t, s2.Record(DuplicationRecord(n, twin)), n, twin);
  }

  lemma QueuedAfterForward(t: Topology, s: Net, n: NodeId, p: Packet, luck: Luck)
    requires Queued(t, s) && n in s.nodes && n in t.nodes
    ensures Queued(t, Forward(t, s, n, p, luck))
  {
    hide Queued, Store;
    QueuedAfterRecord(t, s, ArrivalRecord(n, p, true));
    QueuedAfterRecord(t, s, ArrivalRecord(n, p, false));
    var s1 := s.Record(ArrivalRecord(n, p, false));
    QueuedWithNode(t, s1, n, s1.nodes[n].(inbox := s1.nodes[n].inbox + multiset{InTransit(p, s1.now, 0.0)}));
    QueuedAfterRecord(t, s1, PacketDropped(p.id, n, ZeroTtl));
    QueuedAfterStore(t, s1, n, Hop(p), luck);
  }

  lemma QueuedAfterInject(t: Topology, s: Net, n: NodeId, id: PacketId, d: Datagram, luck: Luck)
    requires Queued(t, s) && Sound(t, s) && n in s.nodes && n in t.nodes
    ensures Queued(t, Inject(t, s, n, id, d, luck))
  {
    hide Queued, Forward;
    QueuedWithIds(t, s, s.ids + {id}, s.nextNumber + 1);
    QueuedAfterForward(t, s.(nextNumber := s.nextNumber + 1, ids := s.ids + {id}), n,
                       Packet(id, s.nextNumber, d.payload, d.dest, d.port, d.ttl, false), luck);
  }

  lemma QueuedAfterTakeOff(t: Topology, s: Net, l: LinkId, x: InTransit)
    requires Queued(t, s) && l in s.links
    ensures Queued(t, TakeOff(s, l, x)) && TakeOff(s, l, x).nodes == s.nodes
  {
    hide Topology.Valid, Fine, Sound, LinesOrdered, AllWon, BuffersOrdered;
    FineAfterTakeOff(t, s, l, x);
    assert t.Valid() && s.links.Keys == s.carried.Keys by { FineKeys(t, s); }
    QueuedWithSameQueues(t, s, TakeOff(s, l, x));
  }

  lemma QueuedAfterLand(t: Topology, s: Net, l: LinkId, x: InTransit, luck: Luck)
    requires Queued(t, s) && Sound(t, s) && l in s.links
    ensures Queued(t, Land(t, s, l, x, luck))
  {
    hide Topology.Valid, Queued, Forward, TakeOff;
    QueuedAfterTakeOff(t, s, l, x);
    QueuedAfterRecord(t, TakeOff(s, l, x), PacketLostInTransit(x.packet.id, l));
    QueuedAfterForward(t, TakeOff(s, l, x), t.Target(l), x.packet, luck);
  }

  lemma QueuedAfterLinkChange(t: Topology, s: Net, e: LinkEvent)
    requires Queued(t, s)
    ensures Queued(t, LinkChange(s, e))
  {
    hide Topology.Valid, LinesOrdered, AllWon, BuffersOrdered, SentByNow;
    if e.link in s.links {
      var link := ChangedLink(s.links[e.link], e, s.now);
      assert Line(s.carried[e.link], link) == Line(s.carried[e.link], s.links[e.link]);
      assert LinkSound(s.links[e.link], |s.accepted|, s.now);
      QueuedWithLink(t, s, e.link, link);
      QueuedAfterRecord(t, s.SetLink(e.link, link), NetworkEvent(Some(e), None));
    }
  }

  lemma QueuedAfterNodeChange(t: Topology, s: Net, e: NodeEvent)
    requires Queued(t, s)
    ensures Queued(t, NodeChange(s, e))
  {
    hide Queued;
    if e.node in s.nodes {
      QueuedWithNode(t, s, e.node, ChangedNode(s.nodes[e.node], e, s.now));
      QueuedAfterRecord(t, s.SetNode(e.node, ChangedNode(s.nodes[e.node], e, s.now)), NetworkEvent(None, Some(e)));
    }
  }

  lemma QueuedAfterRead(t: Topology, s: Net, n: NodeId, x: InTransit)
    requires Queued(t, s) && n in s.nodes
    ensures Queued(t, Read(s, n, x))
  {
    hide Queued;
    var node := s.nodes[n].(inbox := s.nodes[n].inbox - multiset{x});
    QueuedWithNode(t, s, n, node);
    QueuedAfterRecord(t, s.SetNode(n, node),
                      PacketDeliveredToApplication(x.packet.id, x.packet.number, x.packet.Size(), n));
  }

  lemma QueuedAfterPassing(t: Topology, s: Net, until: Duration)
    requires Queued(t, s) && s.now <= until
    ensures Queued(t, s.(now := until))
  {
    hide Topology.Valid, Timely, NodeSound, LinkSound, LinesOrdered, BuffersOrdered, AllWon;
    FineAfterPassing(t, s, until);
    QueuedWithSameQueues(t, s, s.(now := until));
  }

  lemma QueuedInitially(t: Topology)
    requires t.Valid()
    ensures Queued(t, Initial(t))
  {
    hide Topology.Valid, Timely, NodeSound, LinkSound;
    FineInitially(t);
  }

  lemma QueuedAfterStep(t: Topology, s: Net, a: Action)
    requires Queued(t, s) && Enabled(t, s, a)
    ensures Queued(t, Apply(t, s, a))
  {
    hide Queued, Inject, Land, Take, Finish, Dispatch, Read, LinkChange, NodeChange, WithTask, CanDispatch,
         Topology.Valid;
    match a
    case Injecting(n, id, d, luck) => QueuedAfterInject(t, s, n, id, d, luck);
    case Dispatching(n, rolls) => QueuedAfterDispatch(t, s, n, rolls);
    case Taking(l) => QueuedAfterTake(t, s, l);
    case Waking(l) => QueuedAfterTaskChange(t, s, l, Busy(s.links[l].task.packet, Offering));
    case GivingWay(l) =>
      var copy := s.links[l].task.packet;
      QueuedAfterTaskChange(t, s, l, Busy(copy.(preferred := copy.preferred[1..]), Offering));
    case Finishing(l) => QueuedAfterFinish(t, s, l);
    case Landing(l, x, luck) => QueuedAfterLand(t, s, l, x, luck);
    case Reading(n, x) => QueuedAfterRead(t, s, n, x);
    case LinkChanging(e) => QueuedAfterLinkChange(t, s, e);
    case NodeChanging(e) => QueuedAfterNodeChange(t, s, e);
    case Passing(until) => QueuedAfterPassing(t, s, until);
  }

  lemma {:induction false} RunIsQueued(t: Topology, actions: seq<Action>)
    requires IsRun(t, actions)
    ensures Queued(t, StateAfter(t, actions))
  {
    hide Queued, Enabled, IsRun, StateAfter, Apply;
    LastStep(t, actions);
    if actions == [] {
      QueuedInitially(t);
    } else {
      RunIsQueued(t, actions[..|actions| - 1]);
      QueuedAfterStep(t, StateAfter(t, actions[..|actions| - 1]), actions[|actions| - 1]);
    }
  }

  // ---- What others need to know ---------------------------------------------------------------

  ghost predicate TicketsExist(s: Net) {
    forall k :: k in s.handled ==> k < |s.accepted|
  }

  lemma TicketsStillExist(s: Net, s': Net)
    requires TicketsExist(s) && s'.handled == s.handled && s'.accepted == s.accepted
    ensures TicketsExist(s')
  {
  }

  lemma QueuedFacts(t: Topology, s: Net)
    requires Queued(t, s)
    ensures Fine(t, s) && TicketsExist(s)
  {
    hide Topology.Valid, Sound, Timely, LinesOrdered, BuffersOrdered;
  }
}
