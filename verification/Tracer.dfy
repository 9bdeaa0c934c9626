/** The tracer, which records what happens (tracer.rs). */
module Tracer {
  import opened Prelude
  import opened Trace
  import opened Network

  class SimulationStepTracer {
    var steps: seq<Step>
    var warned: set<NodeId>

    constructor ()
      ensures steps == [] && warned == {}
    {
      steps, warned := [], {};
    }

    method Record(now: Duration, kind: StepKind)
      modifies this`steps
      ensures steps == old(steps) + [Step(now, kind)]
    {
      steps := steps + [Step(now, kind)];
    }

    method TrackLinkEvent(now: Duration, e: LinkEvent)
      modifies this`steps
      ensures steps == old(steps) + [Step(now, StepKind.NetworkEvent(Some(e), None))]
    {
      Record(now, StepKind.NetworkEvent(Some(e), None));
    }

    method TrackNodeEvent(now: Duration, e: NodeEvent)
      modifies this`steps
      ensures steps == old(steps) + [Step(now, StepKind.NetworkEvent(None, Some(e)))]
    {
      Record(now, StepKind.NetworkEvent(None, Some(e)));
    }

    method TrackPacketInNode(now: Duration, n: NodeId, p: Packet)
      modifies this`steps
      ensures steps == old(steps) + [Step(now, ArrivalRecord(n, p, false))]
    {
      Record(now, ArrivalRecord(n, p, false));
    }

    method TrackPacketInTransit(now: Duration, n: NodeId, l: LinkId, p: Packet)
      modifies this`steps
      ensures steps == old(steps) + [Step(now, StepKind.PacketInTransit(p.id, n, l))]
    {
      Record(now, StepKind.PacketInTransit(p.id, n, l));
    }

    method TrackDroppedOnArrival(now: Duration, n: NodeId, p: Packet)
      modifies this`steps
      ensures steps == old(steps) + [Step(now, ArrivalRecord(n, p, true))]
    {
      Record(now, ArrivalRecord(n, p, true));
    }

    method TrackDroppedByBufferClear(now: Duration, n: NodeId, p: Packet)
      modifies this`steps
      ensures steps == old(steps) + [Step(now, PacketDropped(p.id, n, BufferCleared))]
    {
      Record(now, PacketDropped(p.id, n, BufferCleared));
    }

    method TrackDroppedZeroTtl(now: Duration, n: NodeId, p: Packet)
      modifies this`steps
      ensures steps == old(steps) + [Step(now, PacketDropped(p.id, n, ZeroTtl))]
    {
      Record(now, PacketDropped(p.id, n, ZeroTtl));
    }

    method TrackDroppedRandomly(now: Duration, n: NodeId, p: Packet)
      modifies this`steps
      ensures steps == old(steps) + [Step(now, PacketDropped(p.id, n, Random))]
    {
      Record(now, PacketDropped(p.id, n, Random));
    }

    /** Only the first packet that a full buffer costs a node is warned about. */
    method TrackDroppedBecauseBufferFull(now: Duration, n: NodeId, p: Packet) returns (warn: bool)
      modifies this
      ensures steps == old(steps) + [Step(now, PacketDropped(p.id, n, BufferFull))]
      ensures warned == old(warned) + {n} && (warn <==> n !in old(warned))
    {
      Record(now, PacketDropped(p.id, n, BufferFull));
      warn := n !in warned;
      warned := warned + {n};
    }

    method TrackLostInTransit(now: Duration, l: LinkId, p: Packet)
      modifies this`steps
      ensures steps == old(steps) + [Step(now, StepKind.PacketLostInTransit(p.id, l))]
    {
      Record(now, StepKind.PacketLostInTransit(p.id, l));
    }

    method TrackReadByApplication(now: Duration, n: NodeId, p: Packet)
      modifies this`steps
      ensures steps == old(steps) + [Step(now, PacketDeliveredToApplication(p.id, p.number, p.Size(), n))]
    {
      Record(now, PacketDeliveredToApplication(p.id, p.number, p.Size(), n));
    }

    /** The simulator only calls this for duplicates, without an extra delay and without congestion. */
    method TrackInjectedFailures(now: Duration, n: NodeId, p: Packet, duplicate: bool, extraDelay: Duration, congestion: bool)
      modifies this`steps
      ensures steps == old(steps)
                       + (if extraDelay != 0.0 then [Step(now, PacketExtraDelay(p.id, n, extraDelay))] else [])
                       + (if duplicate then [Step(now, DuplicationRecord(n, p))] else [])
                       + (if congestion then [Step(now, PacketCongestionEvent(p.id, p.number, p.Size(), n))] else [])
    {
      if extraDelay != 0.0 {
        Record(now, PacketExtraDelay(p.id, n, extraDelay));
      }
      if duplicate {
        Record(now, PacketDuplicated(p.id, p.number, p.Size(), n));
      }
      if congestion {
        Record(now, PacketCongestionEvent(p.id, p.number, p.Size(), n));
      }
    }
  }
}
