/** A node of the network (node.rs). */
module Node {
  import opened Prelude
  import opened Trace
  import opened Network
  import opened InboundQueue
  import opened OutboundBuffer

  class Node {
    const id: NodeId
    const info: NodeInfo
    const buffer: OutboundBuffer
    const inbox: InboundQueue
    var status: Status
    var lastBufferClear: Option<Duration>
    var outbound: seq<nat>  // the channel from which the buffer's processor takes packets

    ghost function Repr(): set<object> {
      {this, buffer, inbox}
    }

    function State(): NodeState
      reads Repr()
    {
      NodeState(status, lastBufferClear, buffer.available, outbound, inbox.heap)
    }

    constructor (id: NodeId, info: NodeInfo)
      ensures fresh(Repr()) && this.id == id && this.info == info
      ensures State() == NodeState(Up, None, info.bufferSize, [], multiset{})
    {
      this.id, this.info := id, info;
      buffer := new OutboundBuffer(info.bufferSize);
      inbox := new InboundQueue();
      status, lastBufferClear, outbound := Up, None, [];
    }

    method UpdateStatus(update: Status)
      modifies this
      ensures State() == old(State()).(status := update)
    {
      match (status, update) {
        case (Down, Down) =>
        case (Up, Up) =>
        case (Up, Down) => status := Down;
        case (Down, Up) => status := Up;
      }
    }

    method ClearBuffer(now: Duration)
      modifies this
      ensures State() == old(State()).(lastBufferClear := Some(now))
    {
      lastBufferClear := Some(now);
    }

    method HandleEvent(e: NodeEvent, now: Duration)
      modifies this
      ensures State() == ChangedNode(old(State()), e, now)
    {
      if e.status.Some? {
        UpdateStatus(e.status.value);
      }
      if e.clearBuffer {
        ClearBuffer(now);
      }
    }

    /** Reserves space for a packet and passes its ticket on, unless the buffer is full. */
    method EnqueueOutbound(p: Packet, ticket: nat) returns (accepted: bool)
      modifies this, buffer
      ensures accepted <==> p.Size() <= old(State()).available
      ensures State() == if accepted
                         then old(State()).(available := old(State()).available - p.Size(),
                                            outbound := old(State()).outbound + [ticket])
                         else old(State())
    {
      accepted := buffer.Reserve(p.Size());
      if accepted {
        outbound := outbound + [ticket];
      }
    }

    method DeliverPacket(p: Packet, now: Duration)
      modifies inbox
      ensures State() == old(State()).(inbox := old(State()).inbox + multiset{InTransit(p, now, 0.0)})
    {
      inbox.Send(p, 0.0, now);
    }
  }
}
