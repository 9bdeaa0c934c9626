/** How often a packet that an application sent can be transmitted, all its copies together. */
module Copies {
  import opened Prelude
  import opened Sums
  import opened Trace
  import opened PacketPacer
  import opened Network
  import opened Soundness
  import opened Queues
  import opened Pacing
  import opened Termination

  /** The datagrams that applications sent, in order: the position of each is the number of its packets. */
  function Sent(actions: seq<Action>): seq<Datagram> {
    if actions == [] then []
    else
      var last := actions[|actions| - 1];
      Sent(actions[..|actions| - 1]) + if last.Injecting? then [last.datagram] else []
  }

  function NumberOf(accepted: seq<Buffered>, ticket: nat): Option<nat> {
    if ticket < |accepted| then Some(accepted[ticket].packet.number) else None
  }

  /** How many of the packets in `carried` have this number. */
  function Count(accepted: seq<Buffered>, carried: seq<Carried>, number: nat): nat {
    if carried == [] then 0
    else
      Count(accepted, carried[..|carried| - 1], number)
      + if NumberOf(accepted, carried[|carried| - 1].ticket) == Some(number) then 1 else 0
  }

  /** How many times any link carried a packet with this number. */
  ghost function Transmissions(s: Net, number: nat): nat {
    Sum(s.carried.Keys, l => if l in s.carried then Count(s.accepted, s.carried[l], number) else 0)
  }

  lemma {:induction false} CountGrows(accepted: seq<Buffered>, more: seq<Buffered>, carried: seq<Carried>, number: nat)
    requires forall i :: 0 <= i < |carried| ==> carried[i].ticket < |accepted|
    requires |accepted| <= |more| && more[..|accepted|] == accepted
    ensures Count(more, carried, number) == Count(accepted, carried, number)
  {
    if carried != [] {
      CountGrows(accepted, more, carried[..|carried| - 1], number);
      var k := carried[|carried| - 1].ticket;
      assert more[k] == more[..|accepted|][k];
    }
  }

  ghost predicate AllTickets(s: Net) {
    forall l, i :: l in s.carried && 0 <= i < |s.carried[l]| ==> s.carried[l][i].ticket < |s.accepted|
  }

  lemma SameTransmissions(s: Net, s': Net, number: nat)
    requires AllTickets(s) && s'.carried == s.carried
    requires |s.accepted| <= |s'.accepted| && s'.accepted[..|s.accepted|] == s.accepted
    ensures Transmissions(s', number) == Transmissions(s, number)
  {
    forall l | l in s.carried
      ensures Count(s'.accepted, s.carried[l], number) == Count(s.accepted, s.carried[l], number)
    {
      CountGrows(s.accepted, s'.accepted, s.carried[l], number);
    }
    SumSame(s.carried.Keys, l => if l in s.carried then Count(s.accepted, s.carried[l], number) else 0,
            l => if l in s'.carried then Count(s'.accepted, s'.carried[l], number) else 0);
  }

  lemma OneTransmission(s: Net, s': Net, l: LinkId, c: Carried, number: nat)
    requires l in s.carried && s'.accepted == s.accepted && s'.carried == s.carried[l := s.carried[l] + [c]]
    ensures Transmissions(s', number)
         == Transmissions(s, number) + if NumberOf(s.accepted, c.ticket) == Some(number) then 1 else 0
  {
    assert s'.carried.Keys == s.carried.Keys;
    assert (s.carried[l] + [c])[..|s.carried[l]|] == s.carried[l];
    SumChange(s.carried.Keys, l, m => if m in s.carried then Count(s.accepted, s.carried[m], number) else 0,
              m => if m in s'.carried then Count(s'.accepted, s'.carried[m], number) else 0);
  }

  /** Only transmissions of packets with this number count. */
  ghost function Potential(number: nat): Weights {
    Weights(Some(number), 0, 0, 1, 0, 0)
  }

  function Power(k: nat): nat {
    if k == 0 then 1 else 2 * Power(k - 1)
  }

  /** Two copies on every hop: a packet with TTL `ttl` is transmitted 2 + 4 + 8 + ... times at most. */
  lemma {:induction false} PotentialOfTtl(number: nat, ttl: nat)
    ensures Potential(number).Arriving(ttl) == if ttl == 0 then 0 else Power(ttl) - 2
    ensures ttl > 0 ==> Power(ttl) >= 2
  {
    if ttl > 1 {
      PotentialOfTtl(number, ttl - 1);
    }
  }

  lemma TransmissionsAfterFinish(t: Topology, s: Net, l: LinkId, number: nat)
    requires Queued(t, s) && Sound(t, s) && InOffering(s, l) && AllTickets(s)
    ensures Transmissions(Finish(t, s, l), number) <= Transmissions(s, number) + Done(Potential(number), s, Finishing(l))
  {
    hide Queued, Fine, Sound, Transmit, Transmissions;
    QueuedIsSound(t, s);
    BusyFacts(t, s, l);
    TransmitFacts(t, s, l);
    var k := s.links[l].task.packet.ticket;
    if Termination.Sends(s, l) {
      OneTransmission(s, Transmit(t, s, l), l, Carried(k, s.now), number);
    } else {
      SameTransmissions(s, Finish(t, s, l), number);
    }
  }

  lemma AllTicketsExist(t: Topology, s: Net)
    requires Queued(t, s)
    ensures AllTickets(s)
  {
    hide Topology.Valid, Timely, LinesOrdered, BuffersOrdered, NodeSound, LinkSound;
    forall l | l in s.carried
      ensures Won(s, l)
    {
    }
  }

  lemma TransmissionsAfterStep(t: Topology, s: Net, a: Action, number: nat)
    requires Queued(t, s) && Enabled(t, s, a)
    ensures Transmissions(Apply(t, s, a), number) <= Transmissions(s, number) + Done(Potential(number), s, a)
  {
    hide Queued, Fine, Sound, SamePace, Inject, Land, Take, Finish, Dispatch, Read, LinkChange, NodeChange, WithTask,
         CanDispatch, Transmissions, AllTickets;
    QueuedIsSound(t, s);
    AllTicketsExist(t, s);
    if PacerIdle(a) {
      StepKeepsPace(t, s, a);
      SamePaceIsQuiet(s, Apply(t, s, a), number);
    } else {
      match a
      case Taking(l) => TakeIsQuiet(t, s, l, number);
      case Waking(l) => TaskChangeIsQuiet(s, l, Busy(s.links[l].task.packet, Offering), number);
      case GivingWay(l) =>
        var copy := s.links[l].task.packet;
        TaskChangeIsQuiet(s, l, Busy(copy.(preferred := copy.preferred[1..]), Offering), number);
      case Finishing(l) => TransmissionsAfterFinish(t, s, l, number);
      case Passing(until) => SameTransmissions(s, s.(now := until), number);
    }
  }

  lemma SamePaceIsQuiet(s: Net, s': Net, number: nat)
    requires AllTickets(s) && SamePace(s, s')
    ensures Transmissions(s', number) == Transmissions(s, number)
  {
    hide Transmissions, AllTickets;
    SameTransmissions(s, s', number);
  }

  lemma TakeIsQuiet(t: Topology, s: Net, l: LinkId, number: nat)
    requires AllTickets(s) && Sound(t, s) && l in s.links && s.links[l].task.Idle? && s.links[l].queue != []
    ensures Transmissions(Take(t, s, l), number) == Transmissions(s, number)
  {
    hide Transmissions, AllTickets, Topology.Valid, Topology.TransmissionTime, NodeSound;
    SameTransmissions(s, Take(t, s, l), number);
  }

  lemma TaskChangeIsQuiet(s: Net, l: LinkId, task: LinkTask, number: nat)
    requires AllTickets(s) && l in s.links
    ensures Transmissions(WithTask(s, l, task), number) == Transmissions(s, number)
  {
    hide Transmissions, AllTickets;
    SameTransmissions(s, WithTask(s, l, task), number);
  }

  // ---- Packets are numbered in the order in which they are sent -------------------------------

  lemma ForwardKeepsNumber(t: Topology, s: Net, n: NodeId, p: Packet, luck: Luck)
    requires n in s.nodes && n in t.nodes
    ensures Forward(t, s, n, p, luck).nextNumber == s.nextNumber
  {
  }

  lemma InjectTakesNumber(t: Topology, s: Net, n: NodeId, id: PacketId, d: Datagram, luck: Luck)
    requires Sound(t, s) && n in s.nodes && n in t.nodes
    ensures Inject(t, s, n, id, d, luck).nextNumber == s.nextNumber + 1
  {
    hide Sound, Forward;
    ForwardKeepsNumber(t, s.(nextNumber := s.nextNumber + 1, ids := s.ids + {id}), n,
                       Packet(id, s.nextNumber, d.payload, d.dest, d.port, d.ttl, false), luck);
  }

  lemma LandKeepsNumber(t: Topology, s: Net, l: LinkId, x: InTransit, luck: Luck)
    requires Sound(t, s) && t.Valid() && l in s.links && l in t.links && t.Target(l) in s.nodes && t.Target(l) in t.nodes
    ensures Land(t, s, l, x, luck).nextNumber == s.nextNumber
  {
    hide Sound, Forward, Topology.Valid;
    ForwardKeepsNumber(t, TakeOff(s, l, x), t.Target(l), x.packet, luck);
  }

  lemma FinishKeepsNumber(t: Topology, s: Net, l: LinkId)
    requires Fine(t, s) && Sound(t, s) && InOffering(s, l)
    ensures Finish(t, s, l).nextNumber == s.nextNumber
  {
    hide Fine, Sound, Topology.Valid, Topology.TransmissionTime, Batch.Add;
    BusyFacts(t, s, l);
  }

  lemma TakeKeepsNumber(t: Topology, s: Net, l: LinkId)
    requires Sound(t, s) && l in s.links && s.links[l].task.Idle? && s.links[l].queue != []
    ensures Take(t, s, l).nextNumber == s.nextNumber
  {
    hide Topology.Valid, NodeSound, Topology.TransmissionTime, Batch.At, Batch.Wait, Batch.CanSend;
  }

  lemma DispatchKeepsNumber(t: Topology, s: Net, n: NodeId, rolls: seq<real>)
    requires CanDispatch(t, s, n, rolls)
    ensures Dispatch(t, s, n, rolls).nextNumber == s.nextNumber
  {
    hide Topology.Valid, LinkSound, Offer;
  }

  lemma NumberAfterStep(t: Topology, s: Net, a: Action)
    requires Queued(t, s) && Enabled(t, s, a)
    ensures Apply(t, s, a).nextNumber == s.nextNumber + if a.Injecting? then 1 else 0
  {
    hide Queued, Fine, Sound, Inject, Land, Take, Finish, Dispatch, CanDispatch, CanWake, MustYield, Topology.Valid;
    QueuedIsSound(t, s);
    match a
    case Injecting(n, id, d, luck) => InjectTakesNumber(t, s, n, id, d, luck);
    case Dispatching(n, rolls) => DispatchKeepsNumber(t, s, n, rolls);
    case Taking(l) => TakeKeepsNumber(t, s, l);
    case Finishing(l) => FinishKeepsNumber(t, s, l);
    case Landing(l, x, luck) =>
      TargetExists(t, s, l);
      LandKeepsNumber(t, s, l, x, luck);
    case _ =>
  }

  lemma {:induction false} NumbersInOrder(t: Topology, actions: seq<Action>)
    requires IsRun(t, actions)
    ensures StateAfter(t, actions).nextNumber == |Sent(actions)|
  {
    hide Enabled, Apply, Queued, IsRun, StateAfter;
    LastStep(t, actions);
    if actions != [] {
      NumbersInOrder(t, actions[..|actions| - 1]);
      RunIsQueued(t, actions[..|actions| - 1]);
      NumberAfterStep(t, StateAfter(t, actions[..|actions| - 1]), actions[|actions| - 1]);
    }
  }

  lemma {:induction false} SentGrows(actions: seq<Action>, i: nat)
    requires i < |actions| && actions[i].Injecting?
    ensures |Sent(actions[..i])| < |Sent(actions)| && Sent(actions)[|Sent(actions[..i])|] == actions[i].datagram
  {
    var init := actions[..|actions| - 1];
    if i < |init| {
      SentGrows(init, i);
      assert init[..i] == actions[..i];
    } else {
      assert init == actions[..i];
    }
  }

  lemma InjectRecords(t: Topology, s: Net, n: NodeId, id: PacketId, d: Datagram, luck: Luck)
    requires Sound(t, s) && n in s.nodes && n in t.nodes
    ensures var log := Inject(t, s, n, id, d, luck).log;
            && |log| > |s.log| && log[..|s.log|] == s.log
            && log[|s.log|] == Step(s.now, PacketInNode(id, s.nextNumber, 28 + d.payload, n,
                                                        s.nodes[n].status.Down?))
  {
    hide Sound, Store;
    var p := Packet(id, s.nextNumber, d.payload, d.dest, d.port, d.ttl, false);
    var s1 := s.(nextNumber := s.nextNumber + 1, ids := s.ids + {id});
    if t.nodes[n].canonical != d.dest {
      StoreRecords(t, s1.Record(ArrivalRecord(n, p, false)), n, Hop(p), luck);
    }
  }

  lemma StoreRecords(t: Topology, s: Net, n: NodeId, p: Packet, luck: Luck)
    requires n in s.nodes && n in t.nodes
    ensures |Store(t, s, n, p, luck).log| >= |s.log| && Store(t, s, n, p, luck).log[..|s.log|] == s.log
  {
    hide Enqueue;
    var twin := p.(id := luck.freshId, duplicate := true);
    var s1 := Enqueue(s, n, p);
    var s2 := s1.(ids := s1.ids + {luck.freshId}).Record(DuplicationRecord(n, twin));
    EnqueueRecords(s, n, p);
    EnqueueRecords(s2, n, twin);
    assert s1.log == s2.log[..|s1.log|];
  }

  lemma EnqueueRecords(s: Net, n: NodeId, p: Packet)
    requires n in s.nodes
    ensures |Enqueue(s, n, p).log| >= |s.log| && Enqueue(s, n, p).log[..|s.log|] == s.log
  {
  }

  /**
   Packets carry the numbers 0, 1, 2, ... in the order in which the applications send them: the packet of
   the k-th datagram enters the network as number k, as the first thing that its step records.
   */
  lemma PacketsAreNumbered(t: Topology, actions: seq<Action>, i: nat)
    requires IsRun(t, actions) && i < |actions| && actions[i].Injecting?
    ensures IsRun(t, actions[..i]) && IsRun(t, actions[..i + 1]) && actions[i].node in StateAfter(t, actions[..i]).nodes
    ensures var before, after, k := StateAfter(t, actions[..i]), StateAfter(t, actions[..i + 1]), |Sent(actions[..i])|;
            && k < |Sent(actions)| && Sent(actions)[k] == actions[i].datagram
            && |after.log| > |before.log| && after.log[..|before.log|] == before.log
            && after.log[|before.log|]
               == Step(before.now, PacketInNode(actions[i].id, k, 28 + Sent(actions)[k].payload,
                                                actions[i].node, before.nodes[actions[i].node].status.Down?))
  {
    hide Sound, IsRun, StateAfter, Inject;
    Prefix(t, actions, i);
    NumbersInOrder(t, actions[..i]);
    SentGrows(actions, i);
    NodeIsThere(t, StateAfter(t, actions[..i]), actions[i].node);
    InjectRecords(t, StateAfter(t, actions[..i]), actions[i].node, actions[i].id, actions[i].datagram, actions[i].luck);
  }

  lemma NodeIsThere(t: Topology, s: Net, n: NodeId)
    requires Sound(t, s) && n in s.nodes
    ensures n in t.nodes
  {
  }

  // ---- The bound ------------------------------------------------------------------------------

  /** What a packet with this number may ever cause. */
  ghost function Allowance(actions: seq<Action>, number: nat): nat {
    if number < |Sent(actions)| then Potential(number).Arriving(Sent(actions)[number].ttl) else 0
  }

  lemma NothingInitially(t: Topology, number: nat)
    ensures Potential(number).Total(Initial(t)) == 0 && Transmissions(Initial(t), number) == 0
  {
    var s, w := Initial(t), Potential(number);
    assert Waiting([], map[]) == {};
    SumZero(s.nodes.Keys, n => if n in s.nodes then w.Node(s.nodes[n]) else 0);
    SumZero(s.links.Keys, l => if l in s.links then w.Link(s.links[l]) else 0);
    SumZero(s.carried.Keys, l => if l in s.carried then Count(s.accepted, s.carried[l], number) else 0);
  }

  lemma {:induction false} PotentialCovers(t: Topology, actions: seq<Action>, number: nat)
    requires IsRun(t, actions)
    ensures var s := StateAfter(t, actions);
            Transmissions(s, number) + Potential(number).Total(s) <= Allowance(actions, number)
  {
    hide Enabled, Apply, Queued, Transmissions, Weights.Total, Weights.Arriving, IsRun, StateAfter;
    LastStep(t, actions);
    if actions == [] {
      NothingInitially(t, number);
    } else {
      var init, last := actions[..|actions| - 1], actions[|actions| - 1];
      PotentialCovers(t, init, number);
      RunIsQueued(t, init);
      NumbersInOrder(t, init);
      TransmissionsAfterStep(t, StateAfter(t, init), last, number);
      WorkAfterStep(Potential(number), t, StateAfter(t, init), last);
    }
  }

  /**
   In every run, whatever the routes and however often packets are duplicated: a datagram sent with
   a TTL of T, together with all the copies made of it, goes over links at most 2^T - 2 times.
   */
  lemma CopiesAreBounded(t: Topology, actions: seq<Action>, number: nat)
    requires IsRun(t, actions)
    ensures number >= |Sent(actions)| ==> Transmissions(StateAfter(t, actions), number) == 0
    ensures number < |Sent(actions)| && Sent(actions)[number].ttl == 0 ==> Transmissions(StateAfter(t, actions), number) == 0
    ensures number < |Sent(actions)| && Sent(actions)[number].ttl > 0 ==>
              Transmissions(StateAfter(t, actions), number) <= Power(Sent(actions)[number].ttl) - 2
  {
    hide Transmissions, Weights.Total, Weights.Arriving, IsRun, StateAfter;
    PotentialCovers(t, actions, number);
    if number < |Sent(actions)| {
      PotentialOfTtl(number, Sent(actions)[number].ttl);
    }
  }
}
