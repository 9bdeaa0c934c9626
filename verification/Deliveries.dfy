/** What every run does with its packets, told by its log. */
module Deliveries {
  import opened Prelude
  import opened Trace
  import opened PacketPacer
  import opened ReplayedLink
  import opened Network
  import opened PacketLog
  import opened Soundness
  import opened Queues
  import opened Places
  import opened Pacing
  import opened Ledger
  import opened TracedRuns
  import opened Acceptance

  // ---- First in, first out, and one winner ----------------------------------------------------

  /** Link `l` carried the packets `tickets`, in this order, and the log says so. */
  ghost predicate Carries(s: Net, l: LinkId, tickets: seq<nat>) {
    && |DepartedOn(s.log, l)| == |tickets|
    && forall i :: 0 <= i < |tickets| ==>
         tickets[i] < |s.accepted| && DepartedOn(s.log, l)[i] == s.accepted[tickets[i]].packet.id
  }

  function TicketsIn(carried: seq<Carried>): (tickets: seq<nat>)
    ensures |tickets| == |carried|
    ensures forall i :: 0 <= i < |tickets| ==> tickets[i] == carried[i].ticket
  {
    seq(|carried|, i requires 0 <= i < |carried| => carried[i].ticket)
  }

  lemma LinkOrder(t: Topology, s: Net, l: LinkId)
    requires Queued(t, s) && Sound(t, s) && l in s.links
    ensures l in s.carried && l in t.links
    ensures StrictlyAscending(TicketsIn(s.carried[l]))
    ensures OfNode(s.accepted, TicketsIn(s.carried[l]), t.Source(l))
    ensures forall i :: 0 <= i < |s.carried[l]| ==>
              s.carried[l][i].ticket in s.handled && s.handled[s.carried[l][i].ticket] == SentOver(l)
  {
    hide Topology.Valid, Timely, NodeSound, LinkSound, BuffersOrdered;
    assert Won(s, l);
    var line := Line(s.carried[l], s.links[l]);
    assert LineOrdered(s.accepted, line, s.nodes[t.Source(l)].outbound, t.Source(l));
    assert forall i :: 0 <= i < |s.carried[l]| ==> line[i] == s.carried[l][i].ticket;
  }

  /**
   First in, first out: in every run, what went over a link, in the order of the log, are packets
   that the source of the link accepted, in the order in which it accepted them.
   */
  lemma FirstInFirstOut(t: Topology, actions: seq<Action>, l: LinkId)
    requires IsRun(t, actions) && t.Valid() && l in t.links
    ensures var s := StateAfter(t, actions);
            exists tickets ::
              Carries(s, l, tickets) && StrictlyAscending(tickets) && OfNode(s.accepted, tickets, t.Source(l))
  {
    hide Topology.Valid, Sound, Queued, Fine, Regular, Placed, StateAfter, IsRun, StrictlyAscending, OfNode, Traced,
         DepartedOn, Fits, TicketsExist;
    RunIsRegular(t, actions);
    var s := StateAfter(t, actions);
    RegularFacts(t, s);
    RunsAreTraced(t, actions, Endpoints(t, actions));
    LinkOrder(t, s, l);
    PacketsAreLogged(t, Endpoints(t, actions), s, l);
    assert Carries(s, l, TicketsIn(s.carried[l]));
  }

  lemma PacketsAreLogged(t: Topology, exempt: set<NodeId>, s: Net, l: LinkId)
    requires t.Valid() && Traced(t, exempt, s) && l in s.carried
    ensures DepartedOn(s.log, l) == PacketsOf(s.accepted, s.carried[l])
    ensures CarriesTickets(s.accepted, s.carried[l])
  {
    hide Topology.Valid, ProperLog, NodesLogged, LinksLogged, AirsLogged, TicketsLogged;
    assert LinkSendsLogged(s.log, l, s.accepted, s.carried[l]);
  }

  /**
   One winner: in every run, the copies of a packet in the queues of several links, or several times
   in the queue of one link, lead to at most one transmission, and to none if the packet was dropped
   because of a buffer clear.
   */
  lemma OneWinner(t: Topology, actions: seq<Action>, l: LinkId, i: nat, m: LinkId, j: nat)
    requires IsRun(t, actions)
    requires var s := StateAfter(t, actions);
             && l in s.carried && i < |s.carried[l]| && m in s.carried && j < |s.carried[m]|
             && s.carried[l][i].ticket == s.carried[m][j].ticket
    ensures l == m && i == j
    ensures var s := StateAfter(t, actions);
            s.carried[l][i].ticket in s.handled && !s.handled[s.carried[l][i].ticket].ClearDropped?
  {
    hide Topology.Valid, Sound, Queued, StateAfter, IsRun, Fine;
    RunIsQueued(t, actions);
    var s := StateAfter(t, actions);
    QueuedIsSound(t, s);
    LinkOrder(t, s, l);
    LinkOrder(t, s, m);
  }

  // ---- Gone for good --------------------------------------------------------------------------

  predicate Concerns(kind: StepKind, id: PacketId) {
    !kind.NetworkEvent? && kind.id == id
  }

  lemma {:induction false} GoneStaysGone(t: Topology, exempt: set<NodeId>, log: seq<Step>, k: nat, id: PacketId)
    requires t.Valid() && ProperLog(t, exempt, log) && k <= |log|
    requires id in Find(log[..k]) && Find(log[..k])[id].at.Gone?
    ensures id in Find(log) && Find(log)[id] == Find(log[..k])[id]
    ensures forall j :: k <= j < |log| ==> !Concerns(log[j].kind, id)
    decreases |log|
  {
    hide Topology.Valid, Find, Fits, Lands, Departs, NodeSeen;
    if k == |log| {
      assert log[..k] == log;
    } else {
      var init, last := log[..|log| - 1], log[|log| - 1];
      assert init[..k] == log[..k] && init + [last] == log;
      GoneStaysGone(t, exempt, init, k, id);
      GoneForGoodStep(t, init, last, id);
      forall j | k <= j < |log|
        ensures !Concerns(log[j].kind, id)
      {
        assert j < |init| ==> log[j] == init[j];
      }
    }
  }

  lemma GoneForGoodStep(t: Topology, log: seq<Step>, step: Step, id: PacketId)
    requires t.Valid() && Proper(t, log, step) && id in Find(log) && Find(log)[id].at.Gone?
    ensures !Concerns(step.kind, id)
    ensures id in Find(log + [step]) && Find(log + [step])[id] == Find(log)[id]
  {
    hide Topology.Valid, Find, LinkSeen, NodeSeen, DownAt, DelayWhenSent, SendsOn, Within, Observed, SentInOrder;
    FindAppend(log, step);
  }

  /** In every run: a packet that was read, dropped, lost or refused is never heard of again. */
  lemma GoneForGoodInRuns(t: Topology, actions: seq<Action>, k: nat, j: nat, id: PacketId)
    requires IsRun(t, actions) && k <= j < |StateAfter(t, actions).log|
    requires var log := StateAfter(t, actions).log; id in Find(log[..k]) && Find(log[..k])[id].at.Gone?
    ensures !Concerns(StateAfter(t, actions).log[j].kind, id)
  {
    hide Topology.Valid, StateAfter, IsRun, Find, Logged, Fits;
    RunsAreTraced(t, actions, Endpoints(t, actions));
    GoneStaysGone(t, Endpoints(t, actions), StateAfter(t, actions).log, k, id);
  }

  // ---- One timestamp stands for the whole history ---------------------------------------------

  /** In every run: `was_down_after` is true exactly if the link went from up to down after that instant. */
  lemma WasDownAfterIsExact(t: Topology, actions: seq<Action>, l: LinkId, instant: Duration)
    requires IsRun(t, actions) && l in t.links
    ensures var s := StateAfter(t, actions);
            l in s.links && (WasDownAfter(s.links[l], instant) <==> DroppedAfter(s.log, l, instant))
  {
    hide Topology.Valid, StateAfter, IsRun, ProperLog, Fits, Sound, LinkSeen, DownAt, DelayWhenSent,
         NodesLogged, AirsLogged, TicketsLogged, SendsLogged, LastDrop, DroppedAfter;
    RunsAreTraced(t, actions, Endpoints(t, actions));
    RunIsFine(t, actions);
    var s := StateAfter(t, actions);
    FineKeys(t, s);
    assert LinkLogged(s.log, l, s.links[l], t.links[l].delay, s.now);
    LastDropDecides(s.log, l, instant);
  }

  /**
   In every run: a packet counts as cleared exactly if some clear of its node's buffer came after
   it was accepted.
   */
  lemma ClearedFromBufferIsExact(t: Topology, actions: seq<Action>, k: nat)
    requires IsRun(t, actions) && k < |StateAfter(t, actions).accepted|
    ensures var s := StateAfter(t, actions);
            && s.accepted[k].node in s.nodes
            && (ClearedFromBuffer(s, k) <==> ClearedAfter(s.log, s.accepted[k].node, s.accepted[k].since))
  {
    hide Topology.Valid, StateAfter, IsRun, ProperLog, Fits, NodeSound, LinkSound, NodeSeen,
         LinksLogged, AirsLogged, TicketsLogged, SendsLogged, ClearedAfter;
    RunsAreTraced(t, actions, Endpoints(t, actions));
    RunIsFine(t, actions);
    var s := StateAfter(t, actions);
    var n := s.accepted[k].node;
    assert NodeLogged(s.log, n, s.nodes[n]);
    LastClearDecides(s.log, n, s.accepted[k].since);
  }

  /**
   In every run: no packet leaves a node that was in it before some clear of the node's buffer,
   unless the packet arrived at the very moment of the clear.
   */
  lemma NoClearedPacketLeaves(t: Topology, actions: seq<Action>, j: nat)
    requires IsRun(t, actions) && j < |StateAfter(t, actions).log| && StateAfter(t, actions).log[j].kind.PacketInTransit?
    ensures var log := StateAfter(t, actions).log;
            var id, n := log[j].kind.id, log[j].kind.node;
            && id in Find(log[..j]) && Find(log[..j])[id].at == AtNode(n)
            && !ClearedAfter(log[..j], n, Find(log[..j])[id].since)
  {
    hide Topology.Valid, StateAfter, IsRun, Logged, Fits, Find, NodeSeen, LinkSeen, SendsOn, ClearedAfter, Within,
         Observed;
    RunsAreTraced(t, actions, Endpoints(t, actions));
    RunLogIsInOrder(t, actions);
    var log := StateAfter(t, actions).log;
    ProperAt(t, Endpoints(t, actions), log, j);
    LastClearDecides(log[..j], log[j].kind.node, Find(log[..j])[log[j].kind.id].since);
  }
}
