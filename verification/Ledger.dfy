/**
 What a log says about every packet, node and link, and which logs describe a network that works
 as it should. This is the meeting point of the two programs: every run of the network writes such
 a log (TracedRuns.dfy) and the verifier accepts every such log (AcceptedLogs.dfy).
 */
module Ledger {
  import opened Prelude
  import opened Trace
  import opened PacketPacer
  import opened ReplayedLink
  import opened ReplayedNode
  import opened Network
  import opened PacketLog

  // ---- Packets --------------------------------------------------------------------------------

  /** The packets inside a node, as the verifier counts them. */
  function Inside(packets: Register, n: NodeId): map<PacketId, RPacket> {
    map id | id in packets && (packets[id].at == AtNode(n) || packets[id].at == Gone(WasRefusedAtSource(n)))
      :: RPacket(packets[id].since, packets[id].size, 0.0)
  }

  ghost function BytesInside(log: seq<Step>, n: NodeId): nat {
    Stored(Inside(Find(log), n))
  }

  // ---- Nodes and links ------------------------------------------------------------------------

  datatype NodeView = NodeView(status: Status, lastClear: Option<Duration>)

  function NodeAfter(before: NodeView, n: NodeId, step: Step): NodeView {
    if step.kind.NetworkEvent? && step.kind.nodeEvent.Some? && step.kind.nodeEvent.value.node == n then
      var e := step.kind.nodeEvent.value;
      NodeView(if e.status.Some? then e.status.value else before.status,
               if e.clearBuffer then Some(step.time) else before.lastClear)
    else before
  }

  function NodeSeen(log: seq<Step>, n: NodeId): NodeView {
    if log == [] then NodeView(Up, None) else NodeAfter(NodeSeen(log[..|log| - 1], n), n, log[|log| - 1])
  }

  datatype LinkView = LinkView(status: Status, lastDown: Option<Duration>)

  predicate IsAbout(kind: StepKind, l: LinkId) {
    kind.NetworkEvent? && kind.linkEvent.Some? && kind.linkEvent.value.link == l
  }

  predicate SetsLink(kind: StepKind, l: LinkId) {
    IsAbout(kind, l) && kind.linkEvent.value.status.Some?
  }

  function LinkAfter(before: LinkView, l: LinkId, step: Step): LinkView {
    if SetsLink(step.kind, l) then
      var status := step.kind.linkEvent.value.status.value;
      LinkView(status, if status.Down? then Some(step.time) else before.lastDown)
    else before
  }

  function LinkSeen(log: seq<Step>, l: LinkId): LinkView {
    if log == [] then LinkView(Up, None) else LinkAfter(LinkSeen(log[..|log| - 1], l), l, log[|log| - 1])
  }

  /** The step takes the link down, and the link was up before. */
  predicate Drops(before: LinkView, l: LinkId, step: Step) {
    SetsLink(step.kind, l) && step.kind.linkEvent.value.status.value.Down? && before.status.Up?
  }

  /** When the link last went from up to down. */
  function LastDrop(log: seq<Step>, l: LinkId): Option<Duration> {
    if log == [] then None
    else if Drops(LinkSeen(log[..|log| - 1], l), l, log[|log| - 1]) then Some(log[|log| - 1].time)
    else LastDrop(log[..|log| - 1], l)
  }

  /** What was sent over a link. */
  function SendsOn(log: seq<Step>, l: LinkId): seq<Sent> {
    if log == [] then []
    else
      var init, last := log[..|log| - 1], log[|log| - 1];
      SendsOn(init, l)
      + if last.kind.PacketInTransit? && last.kind.link == l then [Sent(last.time, KnownSize(Find(init), last.kind.id))] else []
  }

  /** The packets that were sent over a link, in order. */
  function DepartedOn(log: seq<Step>, l: LinkId): seq<PacketId> {
    if log == [] then []
    else
      var last := log[|log| - 1].kind;
      DepartedOn(log[..|log| - 1], l) + if last.PacketInTransit? && last.link == l then [last.id] else []
  }

  /** The log has an event that takes the link down at this very moment. */
  ghost predicate DownAt(log: seq<Step>, l: LinkId, time: Duration) {
    exists i :: 0 <= i < |log| && log[i].time == time && SetsLink(log[i].kind, l)
                && log[i].kind.linkEvent.value.status.value.Down?
  }

  /** Some packet was sent over the link at this very moment. */
  ghost predicate SentAt(log: seq<Step>, l: LinkId, time: Duration) {
    exists i :: 0 <= i < |log| && log[i].time == time && log[i].kind.PacketInTransit? && log[i].kind.link == l
  }

  /** An event changes the delay of a link that is down; of a link that is up it does not. */
  predicate SetsDelay(before: LinkView, kind: StepKind, l: LinkId) {
    IsAbout(kind, l) && kind.linkEvent.value.delay.Some? && before.status.Down?
  }

  /** The delay of a link after some events; `delay` is the one of its specification. */
  function DelayInEffect(log: seq<Step>, l: LinkId, delay: Duration): Duration {
    if log == [] then delay
    else
      var init, last := log[..|log| - 1], log[|log| - 1];
      if SetsDelay(LinkSeen(init, l), last.kind, l) then last.kind.linkEvent.value.delay.value
      else DelayInEffect(init, l, delay)
  }

  predicate IsDeparture(kind: StepKind, id: PacketId, l: LinkId) {
    kind.PacketInTransit? && kind.id == id && kind.link == l
  }

  /** The delay that was in effect when packet `id` was last sent over the link. */
  function DelayWhenSent(log: seq<Step>, id: PacketId, l: LinkId, delay: Duration): Duration {
    if log == [] then delay
    else
      var init, last := log[..|log| - 1], log[|log| - 1];
      if IsDeparture(last.kind, id, l) then DelayInEffect(init, l, delay) else DelayWhenSent(init, id, l, delay)
  }

  /** Some packet was sent over the link while the delay in effect was below the one of the specification. */
  ghost predicate Hastened(log: seq<Step>, l: LinkId, delay: Duration) {
    exists i :: 0 <= i < |log| && log[i].kind.PacketInTransit? && log[i].kind.link == l
                && DelayInEffect(log[..i], l, delay) < delay
  }

  /** Packet `id` was sent from node `n` while the node was down. */
  ghost predicate SentWhileDown(log: seq<Step>, id: PacketId, n: NodeId) {
    exists i :: 0 <= i < |log| && log[i].kind.PacketInTransit? && log[i].kind.id == id && log[i].kind.node == n
                && NodeSeen(log[..i], n).status.Down?
  }

  // ---- Logs of a working network --------------------------------------------------------------

  /** A packet comes off a link into node `n`, where the link leads, and no earlier than when it was sent allows. */
  ghost predicate Lands(t: Topology, log: seq<Step>, now: Duration, id: PacketId, w: Whereabouts, size: nat, n: NodeId)
    requires t.Valid()
  {
    && w.at.OnLink? && w.at.link in t.links
    && t.Target(w.at.link) == n && w.size == size
    && w.since <= now
    && w.since + DelayWhenSent(log, id, w.at.link, t.links[w.at.link].delay) <= now
    && (var down := LinkSeen(log, w.at.link).lastDown;
        down.None? || down.value < w.since || DownAt(log, w.at.link, w.since))
  }

  /** The node sends a packet that it has, that no buffer clear wiped out, over one of its links, which is up. */
  ghost predicate Departs(t: Topology, log: seq<Step>, now: Duration, id: PacketId, n: NodeId, l: LinkId)
    requires t.Valid()
  {
    && n in t.nodes && l in t.links && t.Source(l) == n
    && id in Find(log) && Find(log)[id].at == AtNode(n)
    && LinkSeen(log, l).status.Up?
    && (var clear := NodeSeen(log, n).lastClear; clear.None? || clear.value <= Find(log)[id].since)
    && (var h := SendsOn(log, l) + [Sent(now, Find(log)[id].size)];
        && t.links[l].bandwidth > 0
        && SentInOrder(h)
        && Within(Observed(h, t.links[l].bandwidth), h, t.links[l].bandwidth))
  }

  /** A step that a working network can write next. */
  ghost predicate Proper(t: Topology, log: seq<Step>, step: Step)
    requires t.Valid()
  {
    match step.kind
    case PacketInNode(id, _, size, n, dropped) =>
      && n in t.nodes
      && (dropped <==> NodeSeen(log, n).status.Down?)
      && (id in Find(log) ==> Lands(t, log, step.time, id, Find(log)[id], size, n))
    case PacketDuplicated(id, _, _, n) =>
      n in t.nodes && NodeSeen(log, n).status.Up? && id !in Find(log)
    case PacketDropped(id, n, _) =>
      n in t.nodes && id in Find(log) && Find(log)[id].at == AtNode(n)
    case PacketDeliveredToApplication(id, _, _, n) =>
      n in t.nodes && id in Find(log) && Find(log)[id].at == AtNode(n)
    case PacketLostInTransit(id, l) =>
      id in Find(log) && Find(log)[id].at == OnLink(l)
    case PacketInTransit(id, n, l) => Departs(t, log, step.time, id, n, l)
    case NetworkEvent(linkEvent, nodeEvent) =>
      && (linkEvent.Some? ==> linkEvent.value.link in t.links)
      && (nodeEvent.Some? ==> nodeEvent.value.node in t.nodes)
    case PacketExtraDelay(_, _, _) => false
    case PacketCongestionEvent(_, _, _, _) => false
  }

  /** What the nodes hold fits in their buffers, but for nodes that are exempt. */
  ghost predicate Fits(t: Topology, exempt: set<NodeId>, log: seq<Step>) {
    forall n :: n in t.nodes && n !in exempt ==> BytesInside(log, n) <= t.nodes[n].bufferSize
  }

  /** Each step is proper after those before it, and buffers are within bounds whenever the clock moves on. */
  ghost predicate ProperLog(t: Topology, exempt: set<NodeId>, log: seq<Step>)
    requires t.Valid()
  {
    log == [] ||
    (var init, last := log[..|log| - 1], log[|log| - 1];
     && ProperLog(t, exempt, init)
     && Proper(t, init, last)
     && (MovesClock(init, last) ==> Fits(t, exempt, init)))
  }

  // ---- Facts about one more step --------------------------------------------------------------

  lemma NodeSeenAppend(log: seq<Step>, step: Step, n: NodeId)
    ensures NodeSeen(log + [step], n) == NodeAfter(NodeSeen(log, n), n, step)
  {
    assert (log + [step])[..|log|] == log;
  }

  lemma LinkSeenAppend(log: seq<Step>, step: Step, l: LinkId)
    ensures LinkSeen(log + [step], l) == LinkAfter(LinkSeen(log, l), l, step)
  {
    assert (log + [step])[..|log|] == log;
  }

  lemma LastDropAppend(log: seq<Step>, step: Step, l: LinkId)
    ensures LastDrop(log + [step], l) == if Drops(LinkSeen(log, l), l, step) then Some(step.time) else LastDrop(log, l)
  {
    assert (log + [step])[..|log|] == log;
  }

  lemma SendsOnAppend(log: seq<Step>, step: Step, l: LinkId)
    ensures SendsOn(log + [step], l)
         == SendsOn(log, l)
            + if step.kind.PacketInTransit? && step.kind.link == l
              then [Sent(step.time, KnownSize(Find(log), step.kind.id))] else []
  {
    assert (log + [step])[..|log|] == log;
  }

  lemma DepartedOnAppend(log: seq<Step>, step: Step, l: LinkId)
    ensures DepartedOn(log + [step], l)
         == DepartedOn(log, l) + if step.kind.PacketInTransit? && step.kind.link == l then [step.kind.id] else []
  {
    assert (log + [step])[..|log|] == log;
  }

  lemma DownAtLater(log: seq<Step>, step: Step, l: LinkId, time: Duration)
    requires DownAt(log, l, time)
    ensures DownAt(log + [step], l, time)
  {
    var i :| 0 <= i < |log| && log[i].time == time && SetsLink(log[i].kind, l)
             && log[i].kind.linkEvent.value.status.value.Down?;
    assert (log + [step])[i] == log[i];
  }

  lemma SentAtLater(log: seq<Step>, step: Step, l: LinkId, time: Duration)
    requires SentAt(log, l, time)
    ensures SentAt(log + [step], l, time)
  {
    var i :| 0 <= i < |log| && log[i].time == time && log[i].kind.PacketInTransit? && log[i].kind.link == l;
    assert (log + [step])[i] == log[i];
  }

  lemma DelayInEffectAppend(log: seq<Step>, step: Step, l: LinkId, delay: Duration)
    ensures DelayInEffect(log + [step], l, delay)
         == if SetsDelay(LinkSeen(log, l), step.kind, l) then step.kind.linkEvent.value.delay.value
            else DelayInEffect(log, l, delay)
  {
    assert (log + [step])[..|log|] == log;
  }

  lemma DelayWhenSentAppend(log: seq<Step>, step: Step, id: PacketId, l: LinkId, delay: Duration)
    ensures DelayWhenSent(log + [step], id, l, delay)
         == if IsDeparture(step.kind, id, l) then DelayInEffect(log, l, delay) else DelayWhenSent(log, id, l, delay)
  {
    assert (log + [step])[..|log|] == log;
  }

  lemma HastenedLater(log: seq<Step>, step: Step, l: LinkId, delay: Duration)
    requires Hastened(log, l, delay)
    ensures Hastened(log + [step], l, delay)
  {
    var i :| 0 <= i < |log| && log[i].kind.PacketInTransit? && log[i].kind.link == l
             && DelayInEffect(log[..i], l, delay) < delay;
    assert (log + [step])[i] == log[i] && (log + [step])[..i] == log[..i];
  }

  lemma {:induction false} SentEarlyIsHastened(log: seq<Step>, id: PacketId, l: LinkId, delay: Duration)
    requires DelayWhenSent(log, id, l, delay) < delay
    ensures Hastened(log, l, delay)
  {
    hide DelayInEffect;
    var init, last := log[..|log| - 1], log[|log| - 1];
    if IsDeparture(last.kind, id, l) {
      assert log[..|log| - 1] == init;
    } else {
      SentEarlyIsHastened(init, id, l, delay);
      HastenedLater(init, last, l, delay);
      assert init + [last] == log;
    }
  }

  lemma SentWhileDownLater(log: seq<Step>, step: Step, id: PacketId, n: NodeId)
    requires SentWhileDown(log, id, n)
    ensures SentWhileDown(log + [step], id, n)
  {
    var i :| 0 <= i < |log| && log[i].kind.PacketInTransit? && log[i].kind.id == id && log[i].kind.node == n
             && NodeSeen(log[..i], n).status.Down?;
    assert (log + [step])[i] == log[i] && (log + [step])[..i] == log[..i];
  }

  lemma SentWhileDownNow(log: seq<Step>, step: Step)
    requires step.kind.PacketInTransit? && NodeSeen(log, step.kind.node).status.Down?
    ensures SentWhileDown(log + [step], step.kind.id, step.kind.node)
  {
    assert (log + [step])[|log|] == step && (log + [step])[..|log|] == log;
  }

  lemma {:induction false} ProperLogAppend(t: Topology, exempt: set<NodeId>, log: seq<Step>, step: Step)
    requires t.Valid() && ProperLog(t, exempt, log) && Proper(t, log, step)
    requires MovesClock(log, step) ==> Fits(t, exempt, log)
    ensures ProperLog(t, exempt, log + [step])
  {
    hide Topology.Valid, Proper, Fits;
    assert (log + [step])[..|log|] == log;
  }

  lemma {:induction false} ProperAt(t: Topology, exempt: set<NodeId>, log: seq<Step>, j: nat)
    requires t.Valid() && ProperLog(t, exempt, log) && j < |log|
    ensures Proper(t, log[..j], log[j])
  {
    hide Topology.Valid, Proper, Fits;
    if j < |log| - 1 {
      ProperAt(t, exempt, log[..|log| - 1], j);
      assert log[..|log| - 1][..j] == log[..j];
    }
  }

  lemma {:induction false} ProperPrefix(t: Topology, exempt: set<NodeId>, log: seq<Step>, i: nat)
    requires t.Valid() && ProperLog(t, exempt, log) && i <= |log|
    ensures ProperLog(t, exempt, log[..i])
    decreases |log|
  {
    hide Topology.Valid, Proper, Fits;
    if i < |log| {
      ProperPrefix(t, exempt, log[..|log| - 1], i);
      assert log[..|log| - 1][..i] == log[..i];
    } else {
      assert log[..i] == log;
    }
  }

  // ---- What follows from the order of the log -------------------------------------------------

  /** The link went down, having been up, at some time after `instant`. */
  ghost predicate DroppedAfter(log: seq<Step>, l: LinkId, instant: Duration) {
    exists i :: 0 <= i < |log| && Drops(LinkSeen(log[..i], l), l, log[i]) && instant < log[i].time
  }

  /** One timestamp stands for the whole history of a link. */
  lemma {:induction false} LastDropDecides(log: seq<Step>, l: LinkId, instant: Duration)
    requires InOrder(log)
    ensures DroppedAfter(log, l, instant) <==> LastDrop(log, l).Some? && instant < LastDrop(log, l).value
    ensures LastDrop(log, l).Some? ==> log != [] && LastDrop(log, l).value <= log[|log| - 1].time
  {
    hide LinkSeen;
    if log != [] {
      var init, last := log[..|log| - 1], log[|log| - 1];
      LastDropDecides(init, l, instant);
      if i :| 0 <= i < |init| && Drops(LinkSeen(init[..i], l), l, init[i]) && instant < init[i].time {
        assert init[..i] == log[..i];
      }
      if i :| 0 <= i < |init| && Drops(LinkSeen(log[..i], l), l, log[i]) && instant < log[i].time {
        assert init[..i] == log[..i] && init[i] == log[i];
      }
    }
  }

  predicate Clears(kind: StepKind, n: NodeId) {
    kind.NetworkEvent? && kind.nodeEvent.Some? && kind.nodeEvent.value.node == n && kind.nodeEvent.value.clearBuffer
  }

  ghost predicate ClearedAfter(log: seq<Step>, n: NodeId, instant: Duration) {
    exists i :: 0 <= i < |log| && Clears(log[i].kind, n) && instant < log[i].time
  }

  /** One timestamp stands for all the buffer clears of a node. */
  lemma {:induction false} LastClearDecides(log: seq<Step>, n: NodeId, instant: Duration)
    requires InOrder(log)
    ensures ClearedAfter(log, n, instant)
       <==> NodeSeen(log, n).lastClear.Some? && instant < NodeSeen(log, n).lastClear.value
    ensures NodeSeen(log, n).lastClear.Some? ==> log != [] && NodeSeen(log, n).lastClear.value <= log[|log| - 1].time
  {
    if log != [] {
      var init, last := log[..|log| - 1], log[|log| - 1];
      LastClearDecides(init, n, instant);
      if i :| 0 <= i < |init| && Clears(init[i].kind, n) && instant < init[i].time {
        assert log[i] == init[i];
      }
      if i :| 0 <= i < |init| && Clears(log[i].kind, n) && instant < log[i].time {
        assert log[i] == init[i];
      }
    }
  }
}
