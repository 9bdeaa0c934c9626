/** A link of the network (link.rs). */
module NetworkLink {
  import opened Prelude
  import opened Trace
  import opened PacketPacer
  import opened Network
  import opened InboundQueue

  class NetworkLink {
    const id: LinkId
    const pacer: Pacer
    const inTransit: InboundQueue
    var status: Status
    var lastDown: Option<Duration>
    var delay: Duration
    var queue: seq<Outgoing>  // the channel from which the link's task takes packets
    var task: LinkTask

    ghost function Repr(): set<object> {
      {this, pacer, inTransit}
    }

    function State(): LinkState
      reads Repr()
    {
      LinkState(status, lastDown, delay, pacer.Current(), queue, task, inTransit.heap)
    }

    constructor (id: LinkId, info: LinkInfo, now: Duration)
      requires info.bandwidth > 0
      ensures fresh(Repr()) && this.id == id && pacer.bandwidth == info.bandwidth
      ensures State() == LinkState(Up, None, info.delay, Batch(now, 0.0), [], Idle, multiset{})
    {
      this.id := id;
      pacer := new Pacer(now, info.bandwidth);
      inTransit := new InboundQueue();
      status, lastDown, delay, queue, task := Up, None, info.delay, [], Idle;
    }

    predicate WasDownAfter(instant: Duration)
      reads Repr()
      ensures WasDownAfter(instant) == Network.WasDownAfter(State(), instant)
    {
      match lastDown
      case Some(down) => down > instant
      case None => false
    }

    method UpdateDelay(update: Duration)
      requires status.Down?
      modifies this
      ensures State() == old(State()).(delay := update)
    {
      delay := update;
    }

    method UpdateStatus(update: Status, now: Duration)
      modifies this
      ensures State()
           == if update == old(status) then old(State())
              else old(State()).(status := update, lastDown := if update.Down? then Some(now) else old(lastDown))
    {
      match (status, update) {
        case (Down, Down) =>
        case (Up, Up) =>
        case (Up, Down) =>
          status := Down;
          lastDown := Some(now);
        case (Down, Up) => status := Up;
      }
    }

    /** What an event does to the link: its delay only changes while it is down. */
    method HandleEvent(e: LinkEvent, now: Duration)
      modifies this
      ensures State() == ChangedLink(old(State()), e, now)
    {
      if e.delay.Some? && delay != e.delay.value {
        if status.Down? {
          UpdateDelay(e.delay.value);
        }
      }
      if e.status.Some? {
        UpdateStatus(e.status.value, now);
      }
    }

    method HasBandwidthAvailable(size: nat, now: Duration) returns (available: bool)
      requires pacer.Valid() && pacer.Current().created <= now
      modifies pacer
      ensures available == (status.Up? && old(State()).batch.CanSend(now, PacketDelay(pacer.bandwidth, size)))
      ensures State() == old(State()).(batch := if status.Down? then old(State()).batch else old(State()).batch.At(now))
    {
      if status.Down? {
        return false;
      }
      available := pacer.CanSend(now, size);
    }

    /** Puts a packet on its way. The pacer must have room for it, and the link must be up. */
    method Send(p: Packet, extraDelay: Duration, now: Duration)
      requires pacer.Valid() && pacer.Current().created <= now && status.Up?
      requires pacer.Current().CanSend(now, PacketDelay(pacer.bandwidth, p.Size()))
      modifies pacer, inTransit
      ensures State() == old(State()).(batch := old(State()).batch.Add(now, PacketDelay(pacer.bandwidth, p.Size())),
                                       inTransit := old(State()).inTransit + multiset{InTransit(p, now, delay + extraDelay)})
    {
      var room := pacer.CanSend(now, p.Size());
      assert room;
      pacer.TrackSend(now, p.Size());
      inTransit.Send(p, delay + extraDelay, now);
    }
  }
}
