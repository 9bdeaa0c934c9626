/** The replay log: what the tracer records and the verifier reads (simulation_step.rs, event.rs). */
module Trace {
  import opened Prelude

  datatype NodeId = NodeId(name: string)
  datatype LinkId = LinkId(name: string)
  datatype PacketId = PacketId(uuid: nat)

  datatype Status = Up | Down

  datatype NodeEvent = NodeEvent(node: NodeId, status: Option<Status>, clearBuffer: bool)

  datatype LinkEvent = LinkEvent(link: LinkId, status: Option<Status>, delay: Option<Duration>)

  datatype DropReason = Random | ZeroTtl | BufferFull | BufferCleared

  datatype StepKind =
    | PacketInNode(id: PacketId, number: nat, size: nat, node: NodeId, droppedOnArrival: bool)
    | PacketDropped(id: PacketId, node: NodeId, reason: DropReason)
    | PacketLostInTransit(id: PacketId, link: LinkId)
    | PacketDuplicated(id: PacketId, number: nat, size: nat, node: NodeId)
    | PacketExtraDelay(id: PacketId, node: NodeId, extraDelay: Duration)
    | PacketCongestionEvent(id: PacketId, number: nat, size: nat, node: NodeId)
    | PacketInTransit(id: PacketId, node: NodeId, link: LinkId)
    | PacketDeliveredToApplication(id: PacketId, number: nat, size: nat, node: NodeId)
    | NetworkEvent(linkEvent: Option<LinkEvent>, nodeEvent: Option<NodeEvent>)

  datatype Step = Step(time: Duration, kind: StepKind)

  predicate Earlier(a: Step, b: Step) {
    a.time <= b.time
  }

  ghost predicate InOrder(log: seq<Step>) {
    forall i, j :: 0 <= i < j < |log| ==> log[i].time <= log[j].time
  }

  /** Whether the step is the first one at its time: the clock moves on before it. */
  predicate MovesClock(log: seq<Step>, step: Step) {
    step.time != if log == [] then 0.0 else log[|log| - 1].time
  }
}
