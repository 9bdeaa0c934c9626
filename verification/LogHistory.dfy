/**
 What a log of any kind says about packets, nodes and links, and what a verifier has to say about
 such a log: which records it complains of, which ones make it stop, and what it counts. All of it
 is told from the log alone.
 */
module LogHistory {
  import opened Prelude
  import opened Sums
  import opened Trace
  import opened ReplayedNode
  import opened ReplayedLink
  import opened Replay
  import opened Ledger

  // ---- Packets --------------------------------------------------------------------------------

  /** What a record does to the packets on their way; `kept` are those in the node of the record. */
  function OnTheWayAfter(flying: map<PacketId, InFlightPacket>, kept: map<PacketId, RPacket>, step: Step)
    : map<PacketId, InFlightPacket>
  {
    match step.kind
    case PacketInTransit(id, _, l) =>
      if id in kept then flying[id := InFlightPacket(kept[id].size, step.time, kept[id].extraDelay, l)] else flying
    case PacketInNode(id, _, _, _, _) => flying - {id}
    case PacketLostInTransit(id, _) => flying - {id}
    case _ => flying
  }

  /** The packets that were sent, and did not arrive or get lost since. */
  function OnTheWay(log: seq<Step>): map<PacketId, InFlightPacket>
    decreases |log|
  {
    if log == [] then map[]
    else
      var init, last := log[..|log| - 1], log[|log| - 1];
      OnTheWayAfter(OnTheWay(init), if last.kind.PacketInTransit? then Kept(init, last.kind.node) else map[], last)
  }

  /** What a record does to the packets in node `n`. */
  function KeptAfter(kept: map<PacketId, RPacket>, onTheWay: set<PacketId>, n: NodeId, step: Step): map<PacketId, RPacket> {
    match step.kind
    case PacketInNode(id, _, size, node, dropped) =>
      if node == n && !(dropped && id in onTheWay) then kept[id := RPacket(step.time, size, 0.0)] else kept
    case PacketDuplicated(id, _, size, node) => if node == n then kept[id := RPacket(step.time, size, 0.0)] else kept
    case PacketDropped(id, node, _) => if node == n then kept - {id} else kept
    case PacketInTransit(id, node, _) => if node == n then kept - {id} else kept
    case PacketDeliveredToApplication(id, _, _, node) => if node == n then kept - {id} else kept
    case PacketExtraDelay(id, node, delay) =>
      if node == n && id in kept then kept[id := kept[id].(extraDelay := delay)] else kept
    case _ => kept
  }

  /** The packets in node `n`: they arrived or were made there, and were not sent, dropped or read since. */
  function Kept(log: seq<Step>, n: NodeId): map<PacketId, RPacket>
    decreases |log|
  {
    if log == [] then map[]
    else
      var init := log[..|log| - 1];
      KeptAfter(Kept(init, n), OnTheWay(init).Keys, n, log[|log| - 1])
  }

  ghost function BytesKept(log: seq<Step>, n: NodeId): nat {
    Stored(Kept(log, n))
  }

  /** What was sent over link `l`. */
  function Departures(log: seq<Step>, l: LinkId): seq<Sent> {
    if log == [] then []
    else
      var init, last := log[..|log| - 1], log[|log| - 1];
      Departures(init, l)
      + if last.kind.PacketInTransit? && last.kind.link == l && last.kind.id in Kept(init, last.kind.node)
        then [Sent(last.time, Kept(init, last.kind.node)[last.kind.id].size)] else []
  }

  /** The record is the arrival in node `n` of a packet that was on its way. */
  predicate Arrives(log: seq<Step>, kind: StepKind, n: NodeId) {
    kind.PacketInNode? && kind.node == n && kind.id in OnTheWay(log)
  }

  /** A packet with a higher number arrived before. */
  ghost predicate Overtaken(log: seq<Step>, n: NodeId, number: nat) {
    exists i :: 0 <= i < |log| && Arrives(log[..i], log[i].kind, n) && number < log[i].kind.number
  }

  // ---- What is counted ------------------------------------------------------------------------

  datatype Counter =
    | PacketsSent | PacketsReceived | PacketsReordered | PacketsCongested | PacketsDuplicated
    | DroppedInjected | DroppedZeroTtl | DroppedBufferFull | DroppedBufferCleared | DroppedOnArrival

  function Of(c: Counters, what: Counter): PacketStats {
    match what
    case PacketsSent => c.sent
    case PacketsReceived => c.received
    case PacketsReordered => c.reordered
    case PacketsCongested => c.ecn
    case PacketsDuplicated => c.duplicated
    case DroppedInjected => c.injected
    case DroppedZeroTtl => c.zeroTtl
    case DroppedBufferFull => c.bufferFull
    case DroppedBufferCleared => c.bufferCleared
    case DroppedOnArrival => c.down
  }

  /** The size under which a record counts in a statistic of node `n`, if it does. */
  ghost function Booked(log: seq<Step>, kind: StepKind, n: NodeId, what: Counter): Option<nat> {
    match what
    case PacketsSent =>
      if kind.PacketInTransit? && kind.node == n && kind.id in Kept(log, n) then Some(Kept(log, n)[kind.id].size) else None
    case PacketsReceived => if Arrives(log, kind, n) then Some(kind.size) else None
    case PacketsReordered => if Arrives(log, kind, n) && Overtaken(log, n, kind.number) then Some(kind.size) else None
    case DroppedOnArrival => if Arrives(log, kind, n) && kind.droppedOnArrival then Some(kind.size) else None
    case PacketsCongested => if kind.PacketCongestionEvent? && kind.node == n then Some(kind.size) else None
    case PacketsDuplicated => if kind.PacketDuplicated? && kind.node == n then Some(kind.size) else None
    case DroppedInjected => BookedDrop(log, kind, n, {Random, ZeroTtl})
    case DroppedBufferFull => BookedDrop(log, kind, n, {BufferFull})
    case DroppedBufferCleared => BookedDrop(log, kind, n, {BufferCleared})
    case DroppedZeroTtl => None
  }

  ghost function BookedDrop(log: seq<Step>, kind: StepKind, n: NodeId, reasons: set<DropReason>): Option<nat> {
    if kind.PacketDropped? && kind.node == n && kind.reason in reasons && kind.id in Kept(log, n)
    then Some(Kept(log, n)[kind.id].size) else None
  }

  function Book(stats: PacketStats, size: Option<nat>): PacketStats {
    match size
    case Some(bytes) => PacketStats(stats.packets + 1, stats.bytes + bytes)
    case None => stats
  }

  ghost function Tally(log: seq<Step>, n: NodeId, what: Counter): PacketStats {
    if log == [] then PacketStats(0, 0)
    else
      var init := log[..|log| - 1];
      Book(Tally(init, n, what), Booked(init, log[|log| - 1].kind, n, what))
  }

  function BookedLoss(log: seq<Step>, kind: StepKind, l: LinkId): Option<nat> {
    if kind.PacketLostInTransit? && kind.link == l && kind.id in OnTheWay(log) then Some(OnTheWay(log)[kind.id].size) else None
  }

  function TallyLost(log: seq<Step>, l: LinkId): PacketStats {
    if log == [] then PacketStats(0, 0)
    else
      var init := log[..|log| - 1];
      Book(TallyLost(init, l), BookedLoss(init, log[|log| - 1].kind, l))
  }

  // ---- What makes the verifier stop -----------------------------------------------------------

  function MissingAt(m: Metadata, log: seq<Step>, n: NodeId, id: PacketId): Option<FatalError> {
    if n !in m.bufferSizes then Some(MissingNode(n))
    else if id !in Kept(log, n) then Some(MissingPacket(id))
    else None
  }

  function FatalOf(m: Metadata, log: seq<Step>, kind: StepKind): Option<FatalError> {
    match kind
    case PacketInNode(id, _, _, n, dropped) =>
      if n !in m.bufferSizes then Some(MissingNode(n))
      else if id in Kept(log, n) && !(dropped && id in OnTheWay(log)) then Some(PacketAlreadyReceived(id))
      else None
    case PacketDuplicated(id, _, _, n) =>
      if n !in m.bufferSizes then Some(MissingNode(n))
      else if id in Kept(log, n) then Some(PacketAlreadyReceived(id))
      else None
    case PacketDropped(id, n, _) => MissingAt(m, log, n, id)
    case PacketDeliveredToApplication(id, _, _, n) => MissingAt(m, log, n, id)
    case PacketExtraDelay(id, n, _) => MissingAt(m, log, n, id)
    case PacketInTransit(id, n, l) =>
      if MissingAt(m, log, n, id).Some? then MissingAt(m, log, n, id)
      else if l !in m.links then Some(MissingLink(l))
      else None
    case PacketCongestionEvent(_, _, _, n) => if n !in m.bufferSizes then Some(MissingNode(n)) else None
    case PacketLostInTransit(_, _) => None
    case NetworkEvent(onLink, onNode) =>
      if onLink.Some? && onLink.value.status.Some? && onLink.value.link !in m.links then Some(MissingLink(onLink.value.link))
      else if onNode.Some? && onNode.value.node !in m.bufferSizes then Some(MissingNode(onNode.value.node))
      else None
  }

  // ---- What the verifier complains of ---------------------------------------------------------

  function If(complain: bool, e: NonFatalError): seq<NonFatalError> {
    if complain then [e] else []
  }

  /** About the link over which a packet arrives in node `n`. */
  function FlightComplaints(m: Metadata, log: seq<Step>, time: Duration, n: NodeId, f: InFlightPacket): seq<NonFatalError>
    requires f.link in m.links
  {
    var link, down := m.links[f.link], LinkSeen(log, f.link).lastDown;
    If(n != link.target, DisconnectedPacketReceive(n, f.link))
    + If(time < f.sentAt + link.delay + f.extraDelay, TooFastPacketReceive(n, f.link))
    + if down.Some? && f.sentAt <= down.value then [OfflinePacketReceive(n, f.link, f.sentAt, down.value)] else []
  }

  function DownComplaint(m: Metadata, log: seq<Step>, n: NodeId, e: NonFatalError): seq<NonFatalError> {
    If(n in m.bufferSizes && NodeSeen(log, n).status == Down, e)
  }

  function Complaints(m: Metadata, log: seq<Step>, step: Step): seq<NonFatalError> {
    match step.kind
    case PacketInNode(id, _, _, n, dropped) =>
      if id in OnTheWay(log) then
        var f := OnTheWay(log)[id];
        (if f.link in m.links then FlightComplaints(m, log, step.time, n, f) else [])
        + if dropped
          then If(n in m.bufferSizes && NodeSeen(log, n).status == Up, NodeUpPacketDroppedOnArrival(n, id))
          else DownComplaint(m, log, n, NodeDownPacketReceive(n, id))
      else DownComplaint(m, log, n, NodeDownPacketReceive(n, id))
    case PacketDuplicated(id, _, _, n) => DownComplaint(m, log, n, NodeDownPacketReceive(n, id))
    case PacketInTransit(id, n, l) =>
      var clear := NodeSeen(log, n).lastClear;
      DownComplaint(m, log, n, NodeDownPacketSend(n, id))
      + If(MissingAt(m, log, n, id).None? && clear.Some? && Kept(log, n)[id].arrivedAt < clear.value,
           PacketSurvivedBufferCorruption(n, id))
      + if FatalOf(m, log, step.kind).Some? then []
        else
          var h := Departures(log, l) + [Sent(step.time, Kept(log, n)[id].size)];
          var bandwidth := m.links[l].bandwidth;
          If(n != m.links[l].source, DisconnectedPacketSend(n, l))
          + If(LinkSeen(log, l).status == Down, OfflinePacketSend(n, l))
          + If(bandwidth < Observed(h, bandwidth), LinkBandwidthExceeded(n, l, id, bandwidth, Observed(h, bandwidth)))
    case PacketLostInTransit(id, _) => If(id !in OnTheWay(log), MissingLostPacket(id))
    case _ => []
  }
}
