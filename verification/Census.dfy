/** The counts of packets always add up. */
module Census {
  import opened Prelude
  import opened Sums
  import opened Trace
  import opened Network
  import opened PacketLog
  import opened Places

  ghost function InBuffers(s: Net): set<Slot> {
    set k | 0 <= k < |s.accepted| && k !in s.handled :: InBuffer(k)
  }

  ghost function OnLinks(s: Net): set<Slot> {
    set l, x | l in s.links && x in s.links[l].inTransit :: InAir(l, x)
  }

  ghost function InInboxes(s: Net): set<Slot> {
    set n, x | n in s.nodes && x in s.nodes[n].inbox :: InInbox(n, x)
  }

  ghost function AllGone(s: Net): set<PacketId> {
    set id | id in Locate(s.log) && Locate(s.log)[id].Gone?
  }

  ghost function Present(s: Net): set<PacketId> {
    set id | id in Locate(s.log) && !Locate(s.log)[id].Gone?
  }

  lemma {:induction false} SumOfOnes<T(!new)>(s: set<T>)
    ensures Sum(s, x => 1) == |s|
    decreases s
  {
    if s != {} {
      var x :| x in s;
      SumWithout(s, x, y => 1);
      SumOfOnes(s - {x});
    }
  }

  lemma SameSize<S(!new), T(!new)>(s: set<S>, t: set<T>, to: map<S, T>)
    requires forall x :: x in s ==> x in to && to[x] in t
    requires forall x, y :: x in s && y in s && to[x] == to[y] ==> x == y
    requires forall y :: y in t ==> exists x :: x in s && to[x] == y
    ensures |s| == |t|
  {
    SumOfOnes(s);
    SumOfOnes(t);
    SumReindexed(s, t, to, x => 1, y => 1);
  }

  ghost function Occupied(s: Net): set<Slot> {
    InBuffers(s) + OnLinks(s) + InInboxes(s)
  }

  lemma OccupiedIffSlot(s: Net, slot: Slot)
    ensures slot in Occupied(s) <==> exists id :: Occupies(s, Empty, slot, id)
  {
    match slot
    case InBuffer(k) =>
      if slot in Occupied(s) {
        assert Occupies(s, Empty, slot, s.accepted[k].packet.id);
      }
    case InAir(l, x) =>
      if slot in Occupied(s) {
        assert Occupies(s, Empty, slot, x.packet.id);
      }
    case InInbox(n, x) =>
      if slot in Occupied(s) {
        assert Occupies(s, Empty, slot, x.packet.id);
      }
    case InHand =>
  }

  ghost function SlotOf(s: Net, id: PacketId): (slot: Slot)
    requires exists slot :: Occupies(s, Empty, slot, id)
    ensures Occupies(s, Empty, slot, id)
  {
    var slot :| Occupies(s, Empty, slot, id);
    slot
  }

  lemma OneOccupant(s: Net, slot: Slot, id: PacketId, other: PacketId)
    requires Occupies(s, Empty, slot, id) && Occupies(s, Empty, slot, other)
    ensures id == other
  {
  }

  /** Packets that are not gone and slots that hold one correspond one to one. */
  lemma AsManySlots(s: Net)
    requires Placed(s, Empty)
    ensures |Present(s)| == |Occupied(s)|
  {
    hide Occupies, PlaceOf, Locate, OnceEach, Occupied, Known;
    var slots := map id | id in Present(s) :: SlotOf(s, id);
    forall id | id in Present(s)
      ensures slots[id] in Occupied(s)
    {
      OccupiedIffSlot(s, slots[id]);
    }
    forall a, b | a in Present(s) && b in Present(s) && slots[a] == slots[b]
      ensures a == b
    {
      OneOccupant(s, slots[a], a, b);
    }
    forall slot | slot in Occupied(s)
      ensures exists id :: id in Present(s) && slots[id] == slot
    {
      OccupiedIffSlot(s, slot);
      var id :| Occupies(s, Empty, slot, id);
      NotGone(s, slot, id);
      assert slots[id] == slot;
    }
    SameSize(Present(s), Occupied(s), slots);
  }

  lemma NotGone(s: Net, slot: Slot, id: PacketId)
    requires Agree(s, Empty) && Occupies(s, Empty, slot, id)
    ensures id in Locate(s.log) && !Locate(s.log)[id].Gone?
  {
    hide Locate;
  }

  lemma AllKnown(s: Net)
    requires Placed(s, Empty)
    ensures s.ids == Present(s) + AllGone(s) && Present(s) !! AllGone(s)
  {
    hide Locate, Agree, OnePlace, SomePlace, OnceEach;
  }

  /**
   In every run: the packets ever made, by applications or by duplication, are those in buffers,
   those on links, those that wait to be read, and those that are gone.
   */
  lemma CountsAddUp(t: Topology, actions: seq<Action>)
    requires IsRun(t, actions)
    ensures var s := StateAfter(t, actions);
            |s.ids| == |InBuffers(s)| + |OnLinks(s)| + |InInboxes(s)| + |AllGone(s)|
  {
    hide IsRun, StateAfter, Placed, Locate;
    LocationPartition(t, actions);
    var s := StateAfter(t, actions);
    AsManySlots(s);
    AllKnown(s);
    assert InBuffers(s) !! OnLinks(s) && InBuffers(s) !! InInboxes(s) && OnLinks(s) !! InInboxes(s);
    assert |Occupied(s)| == |InBuffers(s)| + |OnLinks(s)| + |InInboxes(s)|;
  }
}
