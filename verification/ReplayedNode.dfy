/** The verifier's view of a node: its buffer, its status and its statistics (simulation_verifier.rs). */
module ReplayedNode {
  import opened Prelude
  import opened Sums
  import opened Trace

  datatype NonFatalError =
    | NodeExceedsBufferSize(node: NodeId, bufferSize: nat, maxUsage: nat)
    | NodeDownPacketSend(node: NodeId, id: PacketId)
    | NodeDownPacketReceive(node: NodeId, id: PacketId)
    | NodeUpPacketDroppedOnArrival(node: NodeId, id: PacketId)
    | PacketSurvivedBufferCorruption(node: NodeId, id: PacketId)
    | MissingLostPacket(id: PacketId)
    | OfflinePacketSend(node: NodeId, link: LinkId)
    | DisconnectedPacketSend(node: NodeId, link: LinkId)
    | DisconnectedPacketReceive(node: NodeId, link: LinkId)
    | TooFastPacketReceive(node: NodeId, link: LinkId)
    | OfflinePacketReceive(node: NodeId, link: LinkId, sentAt: Duration, lastDown: Duration)
    | LinkBandwidthExceeded(node: NodeId, link: LinkId, id: PacketId, maxBps: nat, observedBps: nat)

  datatype FatalError =
    | MissingNode(node: NodeId)
    | MissingLink(link: LinkId)
    | MissingPacket(id: PacketId)
    | PacketAlreadyReceived(id: PacketId)

  /** The errors that don't prevent the verifier from continuing. */
  class ErrorTracker {
    var errors: seq<NonFatalError>

    constructor ()
      ensures errors == []
    {
      errors := [];
    }

    method Track(e: NonFatalError)
      modifies this
      ensures errors == old(errors) + [e]
    {
      errors := errors + [e];
    }
  }

  datatype PacketStats = PacketStats(packets: nat, bytes: nat) {
    function TrackOne(size: nat): PacketStats {
      PacketStats(packets + 1, bytes + size)
    }
  }

  const NO_PACKETS := PacketStats(0, 0)

  datatype RPacket = RPacket(arrivedAt: Duration, size: nat, extraDelay: Duration)

  datatype Counters = Counters(
    sent: PacketStats, received: PacketStats, reordered: PacketStats, ecn: PacketStats, duplicated: PacketStats,
    injected: PacketStats, zeroTtl: PacketStats, bufferFull: PacketStats, bufferCleared: PacketStats, down: PacketStats)

  const NO_COUNTS := Counters(NO_PACKETS, NO_PACKETS, NO_PACKETS, NO_PACKETS, NO_PACKETS,
                              NO_PACKETS, NO_PACKETS, NO_PACKETS, NO_PACKETS, NO_PACKETS)

  /** What an operation does: go on with a new state, or stop; in both cases after tracking some errors. */
  datatype Outcome<+S> =
    | Done(state: S, errors: seq<NonFatalError>)
    | Stop(fatal: FatalError, errors: seq<NonFatalError>)

  ghost function Stored(packets: map<PacketId, RPacket>): nat {
    Sum(packets.Keys, id => if id in packets then packets[id].size else 0)
  }

  lemma StoredWith(packets: map<PacketId, RPacket>, id: PacketId, p: RPacket)
    requires id !in packets
    ensures Stored(packets[id := p]) == Stored(packets) + p.size
  {
    var more := packets[id := p];
    var f := (i: PacketId) => if i in packets then packets[i].size else 0;
    var g := (i: PacketId) => if i in more then more[i].size else 0;
    assert more.Keys == packets.Keys + {id};
    SumWith(packets.Keys, id, g);
    SumSame(packets.Keys, f, g);
  }

  lemma StoredWithout(packets: map<PacketId, RPacket>, id: PacketId)
    requires id in packets
    ensures Stored(packets) == Stored(packets - {id}) + packets[id].size
  {
    StoredWith(packets - {id}, id, packets[id]);
    assert (packets - {id})[id := packets[id]] == packets;
  }

  lemma StoredSame(packets: map<PacketId, RPacket>, id: PacketId, p: RPacket)
    requires id in packets && p.size == packets[id].size
    ensures Stored(packets[id := p]) == Stored(packets)
  {
    StoredWithout(packets, id);
    StoredWith(packets - {id}, id, p);
    assert (packets - {id})[id := p] == packets[id := p];
  }

  datatype RNode = RNode(
    id: NodeId, status: Status, lastDown: Option<Duration>, lastBufferClear: Option<Duration>,
    packets: map<PacketId, RPacket>, highest: nat, counts: Counters, usage: nat, maxUsage: nat)
  {
    ghost predicate Valid() {
      usage == Stored(packets)
    }

    function HandleEvent(event: NodeEvent, now: Duration): RNode {
      var n := match event.status
        case Some(s) => this.(status := s, lastDown := if s.Down? then Some(now) else lastDown)
        case None => this;
      if event.clearBuffer then n.(lastBufferClear := Some(now)) else n
    }

    function AddPacket(packet: PacketId, size: nat, now: Duration): (r: Outcome<RNode>)
      ensures Valid() && r.Done? ==> r.state.Valid()
    {
      var errors := if status.Down? then [NodeDownPacketReceive(id, packet)] else [];
      if packet in packets then Stop(PacketAlreadyReceived(packet), errors)
      else
        StoredWith(packets, packet, RPacket(now, size, 0.0));
        Done(this.(packets := packets[packet := RPacket(now, size, 0.0)], usage := usage + size), errors)
    }

    function RemovePacket(packet: PacketId): (r: Outcome<RNode>)
      requires Valid()
      ensures r.Done? ==> packet in packets && r.state.Valid()
    {
      if packet in packets then
        StoredWithout(packets, packet);
        Done(this.(packets := packets - {packet}, usage := usage - packets[packet].size), [])
      else Stop(MissingPacket(packet), [])
    }

    function PacketReceived(packet: PacketId, number: nat, size: nat, dropped: bool, now: Duration): (r: Outcome<RNode>)
      ensures Valid() && r.Done? ==> r.state.Valid()
    {
      var c := counts.(
        received := counts.received.TrackOne(size),
        reordered := if highest > number then counts.reordered.TrackOne(size) else counts.reordered);
      var n := this.(counts := c, highest := Max(highest, number));
      if dropped then
        Done(n.(counts := c.(down := c.down.TrackOne(size))),
             if status.Up? then [NodeUpPacketDroppedOnArrival(id, packet)] else [])
      else n.AddPacket(packet, size, now)
    }

    function PacketDuplicated(packet: PacketId, size: nat, now: Duration): (r: Outcome<RNode>)
      ensures Valid() && r.Done? ==> r.state.Valid()
    {
      this.(counts := counts.(duplicated := counts.duplicated.TrackOne(size))).AddPacket(packet, size, now)
    }

    function PacketSent(packet: PacketId): (r: Outcome<RNode>)
      requires Valid()
      ensures r.Done? ==> packet in packets && r.state.Valid()
    {
      var down := if status.Down? then [NodeDownPacketSend(id, packet)] else [];
      match RemovePacket(packet)
      case Stop(fatal, _) => Stop(fatal, down)
      case Done(n, _) =>
        var p := packets[packet];
        Done(n.(counts := counts.(sent := counts.sent.TrackOne(p.size))),
             down + if lastBufferClear.Some? && p.arrivedAt < lastBufferClear.value
                    then [PacketSurvivedBufferCorruption(id, packet)] else [])
    }

    function PacketDropped(packet: PacketId, reason: DropReason): (r: Outcome<RNode>)
      requires Valid()
      ensures r.Done? ==> packet in packets && r.state.Valid()
    {
      match RemovePacket(packet)
      case Stop(fatal, errors) => Stop(fatal, errors)
      case Done(n, errors) =>
        var size := packets[packet].size;
        var c := match reason
          case Random => counts.(injected := counts.injected.TrackOne(size))
          case ZeroTtl => counts.(injected := counts.injected.TrackOne(size))
          case BufferFull => counts.(bufferFull := counts.bufferFull.TrackOne(size))
          case BufferCleared => counts.(bufferCleared := counts.bufferCleared.TrackOne(size));
        Done(n.(counts := c), errors)
    }

    function PacketEcn(size: nat): RNode {
      this.(counts := counts.(ecn := counts.ecn.TrackOne(size)))
    }

    function PacketHasExtraDelay(packet: PacketId, delay: Duration): (r: Outcome<RNode>)
      ensures Valid() && r.Done? ==> r.state.Valid()
    {
      if packet in packets then
        StoredSame(packets, packet, packets[packet].(extraDelay := delay));
        Done(this.(packets := packets[packet := packets[packet].(extraDelay := delay)]), [])
      else Stop(MissingPacket(packet), [])
    }

    function UpdateMaxUsage(): RNode {
      this.(maxUsage := Max(usage, maxUsage))
    }
  }

  function NewNode(id: NodeId): RNode {
    RNode(id, Up, None, None, map[], 0, NO_COUNTS, 0, 0)
  }

  class ReplayedNode {
    const id: NodeId
    const tracker: ErrorTracker
    var status: Status
    var lastDown: Option<Duration>
    var lastBufferClear: Option<Duration>
    var packets: map<PacketId, RPacket>
    var highest: nat
    var counts: Counters
    var bufferUsage: nat
    var maxBufferUsage: nat

    function State(): RNode
      reads this
    {
      RNode(id, status, lastDown, lastBufferClear, packets, highest, counts, bufferUsage, maxBufferUsage)
    }

    /** Whether a method that returned `failure` did what `o` says, starting from `before` and `errorsBefore`. */
    ghost predicate Matches(o: Outcome<RNode>, failure: Option<FatalError>, errorsBefore: seq<NonFatalError>)
      reads this, tracker
    {
      && tracker.errors == errorsBefore + o.errors
      && match o
         case Done(n, _) => failure.None? && State() == n
         case Stop(fatal, _) => failure == Some(fatal)
    }

    constructor (id: NodeId, tracker: ErrorTracker)
      ensures State() == NewNode(id) && this.tracker == tracker
    {
      this.id, this.tracker := id, tracker;
      status, lastDown, lastBufferClear, packets, highest := Up, None, None, map[], 0;
      counts, bufferUsage, maxBufferUsage := NO_COUNTS, 0, 0;
    }

    method HandleEvent(event: NodeEvent, now: Duration)
      modifies this
      ensures State() == old(State()).HandleEvent(event, now)
    {
      match event.status {
        case None =>
        case Some(newStatus) =>
          if newStatus.Down? {
            lastDown := Some(now);
          }
          status := newStatus;
      }
      if event.clearBuffer {
        lastBufferClear := Some(now);
      }
    }

    method AddPacketToBuffer(packet: PacketId, size: nat, now: Duration) returns (failure: Option<FatalError>)
      requires State().Valid()
      modifies this, tracker
      ensures Matches(old(State()).AddPacket(packet, size, now), failure, old(tracker.errors))
    {
      if status.Down? {
        tracker.Track(NodeDownPacketReceive(id, packet));
      }
      var alreadyExists := packet in packets;
      packets := packets[packet := RPacket(now, size, 0.0)];
      if alreadyExists {
        return Some(PacketAlreadyReceived(packet));
      }
      bufferUsage := bufferUsage + size;
      failure := None;
    }

    method RemovePacketFromBuffer(packet: PacketId) returns (removed: Result<RPacket, FatalError>)
      requires State().Valid()
      modifies this
      ensures packet in old(packets) ==>
                && removed == Ok(old(packets)[packet])
                && State() == old(State()).RemovePacket(packet).state
      ensures packet !in old(packets) ==> removed == Err(MissingPacket(packet)) && State() == old(State())
    {
      if packet in packets {
        var p := packets[packet];
        StoredWithout(packets, packet);
        packets := packets - {packet};
        bufferUsage := bufferUsage - p.size;
        removed := Ok(p);
      } else {
        removed := Err(MissingPacket(packet));
      }
    }

    method PacketReceived(packet: PacketId, number: nat, size: nat, dropped: bool, now: Duration)
      returns (failure: Option<FatalError>)
      requires State().Valid()
      modifies this, tracker
      ensures Matches(old(State()).PacketReceived(packet, number, size, dropped, now), failure, old(tracker.errors))
    {
      counts := counts.(received := counts.received.TrackOne(size));
      if highest > number {
        counts := counts.(reordered := counts.reordered.TrackOne(size));
      }
      highest := Max(highest, number);
      if dropped {
        counts := counts.(down := counts.down.TrackOne(size));
        if status.Up? {
          tracker.Track(NodeUpPacketDroppedOnArrival(id, packet));
        }
        return None;
      }
      failure := AddPacketToBuffer(packet, size, now);
    }

    method PacketDuplicated(packet: PacketId, size: nat, now: Duration) returns (failure: Option<FatalError>)
      requires State().Valid()
      modifies this, tracker
      ensures Matches(old(State()).PacketDuplicated(packet, size, now), failure, old(tracker.errors))
    {
      counts := counts.(duplicated := counts.duplicated.TrackOne(size));
      failure := AddPacketToBuffer(packet, size, now);
    }

    method PacketSent(packet: PacketId) returns (sent: Result<RPacket, FatalError>)
      requires State().Valid()
      modifies this, tracker
      ensures Matches(old(State()).PacketSent(packet), if sent.Ok? then None else Some(sent.error), old(tracker.errors))
      ensures sent.Ok? ==> packet in old(packets) && sent.value == old(packets)[packet]
    {
      if status.Down? {
        tracker.Track(NodeDownPacketSend(id, packet));
      }
      sent := RemovePacketFromBuffer(packet);
      if sent.Err? {
        return;
      }
      counts := counts.(sent := counts.sent.TrackOne(sent.value.size));
      if lastBufferClear.Some? && sent.value.arrivedAt < lastBufferClear.value {
        tracker.Track(PacketSurvivedBufferCorruption(id, packet));
      }
    }

    method PacketDropped(packet: PacketId, reason: DropReason) returns (failure: Option<FatalError>)
      requires State().Valid()
      modifies this
      ensures Matches(old(State()).PacketDropped(packet, reason), failure, old(tracker.errors))
    {
      var removed := RemovePacketFromBuffer(packet);
      if removed.Err? {
        return Some(removed.error);
      }
      var size := removed.value.size;
      match reason {
        case Random => counts := counts.(injected := counts.injected.TrackOne(size));
        case ZeroTtl => counts := counts.(injected := counts.injected.TrackOne(size));
        case BufferFull => counts := counts.(bufferFull := counts.bufferFull.TrackOne(size));
        case BufferCleared => counts := counts.(bufferCleared := counts.bufferCleared.TrackOne(size));
      }
      failure := None;
    }

    method PacketDeliveredToAppLayer(packet: PacketId) returns (failure: Option<FatalError>)
      requires State().Valid()
      modifies this
      ensures Matches(old(State()).RemovePacket(packet), failure, old(tracker.errors))
    {
      var removed := RemovePacketFromBuffer(packet);
      failure := if removed.Err? then Some(removed.error) else None;
    }

    method PacketEcn(size: nat)
      modifies this
      ensures State() == old(State()).PacketEcn(size)
    {
      counts := counts.(ecn := counts.ecn.TrackOne(size));
    }

    method PacketHasExtraDelay(packet: PacketId, delay: Duration) returns (failure: Option<FatalError>)
      modifies this
      ensures Matches(old(State()).PacketHasExtraDelay(packet, delay), failure, old(tracker.errors))
    {
      if packet !in packets {
        return Some(MissingPacket(packet));
      }
      packets := packets[packet := packets[packet].(extraDelay := delay)];
      failure := None;
    }

    method UpdateMaxBufferUsage() returns (max: nat)
      modifies this
      ensures State() == old(State()).UpdateMaxUsage() && max == maxBufferUsage
    {
      maxBufferUsage := Max(bufferUsage, maxBufferUsage);
      max := maxBufferUsage;
    }
  }
}
