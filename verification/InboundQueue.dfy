/**
 The queue of packets that are on their way over a link, or wait for an application
 (inbound_queue.rs). A binary heap is a multiset of which the greatest entry can be taken out;
 the order is reversed, so the greatest entry is the one that is due first.
 */
module InboundQueue {
  import opened Prelude
  import opened Trace
  import opened Network

  datatype Ordering = Less | Equal | Greater {
    function Then(other: Ordering): Ordering {
      if Equal? then other else this
    }
  }

  function CompareTimes(a: Duration, b: Duration): Ordering {
    if a < b then Less else if a > b then Greater else Equal
  }

  function CompareNumbers(a: nat, b: nat): Ordering {
    if a < b then Less else if a > b then Greater else Equal
  }

  /** `cmp`: the entry that arrives later is the lesser one. */
  function Compare(a: InTransit, b: InTransit): Ordering {
    CompareTimes(b.Arrival(), a.Arrival()).Then(CompareNumbers(b.packet.number, a.packet.number))
  }

  /** `eq` */
  predicate Same(a: InTransit, b: InTransit) {
    a.Arrival() == b.Arrival() && a.packet.number == b.packet.number
  }

  /** The order of the heap: total, in agreement with equality, and the reverse of the order of delivery. */
  lemma CompareIsAnOrder(a: InTransit, b: InTransit, c: InTransit)
    ensures Compare(a, b) == Equal <==> Same(a, b)
    ensures Compare(a, b) == Less <==> Compare(b, a) == Greater
    ensures Compare(a, b) != Greater && Compare(b, c) != Greater ==> Compare(a, c) != Greater
    ensures Compare(a, b) != Less <==> NoLaterThan(a, b)
  {
  }

  /** An entry that the heap can give out next. */
  predicate IsTop(heap: multiset<InTransit>, x: InTransit) {
    x in heap && forall y :: y in heap ==> Compare(x, y) != Less
  }

  lemma {:induction false} TopExists(heap: multiset<InTransit>)
    requires heap != multiset{}
    ensures exists x :: IsTop(heap, x)
    decreases |heap|
  {
    var x :| x in heap;
    var rest := heap - multiset{x};
    if rest == multiset{} {
      assert heap == multiset{x};
      assert IsTop(heap, x);
    } else {
      TopExists(rest);
      var top :| IsTop(rest, top);
      CompareIsAnOrder(x, top, x);
      if Compare(x, top) == Less {
        assert forall y :: y in heap ==> y == x || y in rest;
        assert IsTop(heap, top);
      } else {
        forall y | y in heap
          ensures Compare(x, y) != Less
        {
          if y != x {
            assert y in rest;
            CompareIsAnOrder(y, top, x);
          }
        }
        assert IsTop(heap, x);
      }
    }
  }

  class InboundQueue {
    var heap: multiset<InTransit>

    constructor ()
      ensures heap == multiset{}
    {
      heap := multiset{};
    }

    method Send(packet: Packet, delay: Duration, now: Duration)
      modifies this
      ensures heap == old(heap) + multiset{InTransit(packet, now, delay)}
    {
      heap := heap + multiset{InTransit(packet, now, delay)};
    }

    method Peek() returns (top: Option<InTransit>)
      ensures top.None? <==> heap == multiset{}
      ensures top.Some? ==> IsTop(heap, top.value)
    {
      if heap == multiset{} {
        return None;
      }
      TopExists(heap);
      var x :| x in heap && IsTop(heap, x);
      top := Some(x);
    }

    method Pop(top: InTransit)
      requires IsTop(heap, top)
      modifies this
      ensures heap == old(heap) - multiset{top}
    {
      heap := heap - multiset{top};
    }
  }

  /** The entries that were delivered, one after the other, each the next one of those still in the queue. */
  ghost predicate InTurn(before: multiset<InTransit>, delivered: seq<InTransit>, now: Duration) {
    forall i :: 0 <= i < |delivered| ==> IsNext(before - multiset(delivered[..i]), delivered[i], now)
  }

  lemma InTurnMore(before: multiset<InTransit>, delivered: seq<InTransit>, x: InTransit, now: Duration)
    requires InTurn(before, delivered, now) && IsNext(before - multiset(delivered), x, now)
    ensures InTurn(before, delivered + [x], now)
  {
    var more := delivered + [x];
    forall i | 0 <= i < |more|
      ensures IsNext(before - multiset(more[..i]), more[i], now)
    {
      assert more[..i] == delivered[..i];
      assert delivered[..|delivered|] == delivered;
    }
  }

  /** What is delivered in turn arrives in this order, by the lower number first at the same time, and before what stays. */
  ghost predicate InOrderOfArrival(delivered: seq<InTransit>, rest: multiset<InTransit>) {
    && (forall i, j :: 0 <= i < j < |delivered| ==> Before(delivered[i], delivered[j]))
    && (forall i, y :: 0 <= i < |delivered| && y in rest ==> Before(delivered[i], y))
  }

  predicate Before(a: InTransit, b: InTransit) {
    || a.sent + a.delay < b.sent + b.delay
    || (a.sent + a.delay == b.sent + b.delay && a.packet.number <= b.packet.number)
  }

  /** What is not delivered by the i-th turn is still in the queue then. */
  lemma StillThere(before: multiset<InTransit>, delivered: seq<InTransit>, rest: multiset<InTransit>, i: nat, y: InTransit)
    requires before == rest + multiset(delivered) && i < |delivered| && (y in rest || y in delivered[i + 1..])
    ensures y in before - multiset(delivered[..i])
  {
    assert delivered == delivered[..i] + delivered[i..];
    assert y in delivered[i + 1..] ==> y in delivered[i..];
    assert multiset(delivered) == multiset(delivered[..i]) + multiset(delivered[i..]);
    assert before - multiset(delivered[..i]) == rest + multiset(delivered[i..]);
  }

  lemma NextIsBefore(heap: multiset<InTransit>, x: InTransit, y: InTransit, now: Duration)
    requires IsNext(heap, x, now) && y in heap
    ensures Before(x, y) && x.sent + x.delay <= now
  {
    assert NoLaterThan(x, y);
  }

  lemma DeliveredInOrder(before: multiset<InTransit>, delivered: seq<InTransit>, rest: multiset<InTransit>, now: Duration)
    requires InTurn(before, delivered, now) && before == rest + multiset(delivered)
    ensures InOrderOfArrival(delivered, rest)
    ensures forall i :: 0 <= i < |delivered| ==> delivered[i].sent + delivered[i].delay <= now
  {
    hide IsNext, Before;
    forall i, y | 0 <= i < |delivered| && y in rest
      ensures Before(delivered[i], y)
    {
      StillThere(before, delivered, rest, i, y);
      NextIsBefore(before - multiset(delivered[..i]), delivered[i], y, now);
    }
    forall i | 0 <= i < |delivered|
      ensures delivered[i].sent + delivered[i].delay <= now
    {
      NextIsNow(before - multiset(delivered[..i]), delivered[i], now);
    }
    forall i, j | 0 <= i < j < |delivered|
      ensures Before(delivered[i], delivered[j])
    {
      assert delivered[i + 1..][j - i - 1] == delivered[j];
      StillThere(before, delivered, rest, i, delivered[j]);
      NextIsBefore(before - multiset(delivered[..i]), delivered[i], delivered[j], now);
    }
  }

  lemma NextIsNow(heap: multiset<InTransit>, x: InTransit, now: Duration)
    requires IsNext(heap, x, now)
    ensures x.sent + x.delay <= now
  {
  }

  lemma NothingInTurn(before: multiset<InTransit>, now: Duration)
    ensures InTurn(before, [], now)
  {
  }

  lemma OneMoreDelivered(before: multiset<InTransit>, heap: multiset<InTransit>, delivered: seq<InTransit>, x: InTransit)
    requires before == heap + multiset(delivered) && x in heap
    ensures before == heap - multiset{x} + multiset(delivered + [x])
    ensures heap == before - multiset(delivered)
  {
    assert multiset(delivered + [x]) == multiset(delivered) + multiset{x};
  }

  lemma TopIsEarliest(heap: multiset<InTransit>, x: InTransit, now: Duration)
    requires IsTop(heap, x)
    ensures x in heap
    ensures x.Arrival() <= now ==> IsNext(heap, x, now)
    ensures x.Arrival() > now ==> forall y :: y in heap ==> y.Arrival() > now
  {
    forall y | y in heap
      ensures NoLaterThan(x, y)
    {
      CompareIsAnOrder(x, y, y);
    }
  }

  /** The time is that at which the first of the entries arrives. */
  ghost predicate SleepsUntilNext(heap: multiset<InTransit>, until: Duration) {
    exists x :: x in heap && until == x.sent + x.delay && forall y :: y in heap ==> until <= y.sent + y.delay
  }

  lemma TopIsNext(heap: multiset<InTransit>, x: InTransit)
    requires IsTop(heap, x)
    ensures SleepsUntilNext(heap, x.Arrival())
  {
    forall y | y in heap
      ensures x.sent + x.delay <= y.sent + y.delay
    {
      CompareIsAnOrder(x, y, y);
    }
  }

  class NextPacketDelivery {
    const queue: InboundQueue
    const maxTransmits: nat
    var sleep: Option<Duration>

    constructor (queue: InboundQueue, maxTransmits: nat)
      ensures this.queue == queue && this.maxTransmits == maxTransmits && sleep == None
    {
      this.queue, this.maxTransmits := queue, maxTransmits;
      sleep := None;
    }

    /**
     Delivers what is due: the first `maxTransmits` entries in the order of delivery, or all that are
     due. Without a delivery nothing changes in the queue, and nothing was due unless an earlier
     sleep goes on.
     */
    method Poll(now: Duration) returns (ready: Option<seq<InTransit>>)
      modifies this, queue
      ensures ready.Some? ==>
                && 0 < |ready.value| <= maxTransmits
                && InTurn(old(queue.heap), ready.value, now)
                && old(queue.heap) == queue.heap + multiset(ready.value)
                && InOrderOfArrival(ready.value, queue.heap)
                && (forall i :: 0 <= i < |ready.value| ==> ready.value[i].sent + ready.value[i].delay <= now)
                && (|ready.value| == maxTransmits || forall y :: y in queue.heap ==> y.Arrival() > now)
      ensures ready.None? ==>
                && queue.heap == old(queue.heap)
                && (|| maxTransmits == 0
                    || (old(sleep).Some? && old(sleep).value > now)
                    || (forall y :: y in queue.heap ==> y.Arrival() > now))
      ensures sleep.Some? ==> sleep == old(sleep) || SleepsUntilNext(queue.heap, sleep.value)
    {
      hide IsTop, IsNext, InTurn, InOrderOfArrival, SleepsUntilNext;
      NothingInTurn(queue.heap, now);
      var delivered: seq<InTransit> := [];
      while true
        invariant old(queue.heap) == queue.heap + multiset(delivered)
        invariant |delivered| <= maxTransmits && InTurn(old(queue.heap), delivered, now)
        invariant sleep.Some? && sleep.value > now ==>
                    (delivered == [] && sleep == old(sleep)) || forall y :: y in queue.heap ==> y.Arrival() > now
        invariant sleep.Some? && sleep.value <= now ==> delivered == []
        invariant sleep.Some? ==> sleep == old(sleep) || SleepsUntilNext(queue.heap, sleep.value)
        decreases |queue.heap|, if sleep.None? then 1 else if sleep.value <= now then 2 else 0
      {
        if |delivered| >= maxTransmits {
          break;
        }
        if sleep.Some? {
          if delivered != [] {
            break;
          }
          if sleep.value > now {
            return None;
          }
          sleep := None;
        }
        var next := queue.Peek();
        if next.None? {
          break;
        }
        var x := next.value;
        TopIsEarliest(queue.heap, x, now);
        if x.Arrival() > now {
          sleep := Some(x.Arrival());
          assert SleepsUntilNext(queue.heap, x.Arrival()) by { TopIsNext(queue.heap, x); }
        } else {
          OneMoreDelivered(old(queue.heap), queue.heap, delivered, x);
          InTurnMore(old(queue.heap), delivered, x, now);
          queue.Pop(x);
          delivered := delivered + [x];
        }
      }
      ready := if delivered == [] then None else Some(delivered);
      DeliveredInOrder(old(queue.heap), delivered, queue.heap, now);
    }
  }
}
