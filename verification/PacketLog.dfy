/** Where every packet is according to a log, since when, and how large it is. */
module PacketLog {
  import opened Prelude
  import opened Trace

  datatype Fate = WasRead | WasDropped(reason: DropReason) | WasLost | WasRefused | WasRefusedAtSource(at: NodeId)

  datatype Location = AtNode(node: NodeId) | OnLink(link: LinkId) | Gone(fate: Fate)

  datatype Whereabouts = Whereabouts(at: Location, since: Duration, size: nat)

  type Register = map<PacketId, Whereabouts>

  /** The packet that a record moves. */
  function Mover(kind: StepKind): Option<PacketId> {
    if kind.NetworkEvent? || kind.PacketExtraDelay? || kind.PacketCongestionEvent? then None else Some(kind.id)
  }

  /** Where a record moves a packet, which may be known from earlier records. */
  function Whereto(kind: StepKind, known: bool): Location
    requires Mover(kind).Some?
  {
    match kind
    case PacketInNode(_, _, _, n, dropped) =>
      if !dropped then AtNode(n) else if known then Gone(WasRefused) else Gone(WasRefusedAtSource(n))
    case PacketDuplicated(_, _, _, n) => AtNode(n)
    case PacketInTransit(_, _, l) => OnLink(l)
    case PacketDropped(_, _, reason) => Gone(WasDropped(reason))
    case PacketLostInTransit(_, _) => Gone(WasLost)
    case PacketDeliveredToApplication(_, _, _, _) => Gone(WasRead)
  }

  function KnownSize(before: Register, id: PacketId): nat {
    if id in before then before[id].size else 0
  }

  function Moved(before: Register, step: Step): Register {
    match Mover(step.kind)
    case None => before
    case Some(id) =>
      var size := if step.kind.PacketInNode? || step.kind.PacketDuplicated? then step.kind.size else KnownSize(before, id);
      before[id := Whereabouts(Whereto(step.kind, id in before), step.time, size)]
  }

  /** What the log says of every packet that it mentions, after all of its records. */
  function Find(log: seq<Step>): Register {
    if log == [] then map[] else Moved(Find(log[..|log| - 1]), log[|log| - 1])
  }

  lemma FindNothing()
    ensures Find([]) == map[]
  {
  }

  lemma FindAppend(log: seq<Step>, step: Step)
    ensures Find(log + [step]) == Moved(Find(log), step)
  {
    assert (log + [step])[..|log|] == log;
  }

  // ---- Locations alone ------------------------------------------------------------------------

  function Locate(log: seq<Step>): map<PacketId, Location> {
    map id | id in Find(log) :: Find(log)[id].at
  }

  function Moves(before: map<PacketId, Location>, kind: StepKind): map<PacketId, Location> {
    match Mover(kind)
    case None => before
    case Some(id) => before[id := Whereto(kind, id in before)]
  }

  lemma LocateAppend(log: seq<Step>, step: Step)
    ensures Locate(log + [step]) == Moves(Locate(log), step.kind)
  {
    hide Find, Whereto;
    FindAppend(log, step);
  }
}
