/** The pacer that keeps a link within its bandwidth (link.rs). */
module PacketPacer {
  import opened Prelude

  const BATCH_MAX_DELAY: Duration := 0.002

  /** A batch of packets that leave together: when it was started and how long it takes to send. */
  datatype Batch = Batch(created: Duration, delay: Duration) {

    function SentAt(): Duration {
      created + delay
    }

    /** The batch a caller finds at `now`: an empty one once the current one was sent. */
    function At(now: Duration): (b: Batch)
      requires created <= now
      ensures b.created <= now
    {
      if now - created >= delay then Batch(now, 0.0) else this
    }

    predicate HasRoom(packetDelay: Duration) {
      delay == 0.0 || delay + packetDelay < BATCH_MAX_DELAY
    }

    predicate CanSend(now: Duration, packetDelay: Duration)
      requires created <= now
    {
      At(now).HasRoom(packetDelay)
    }

    function Wait(now: Duration, packetDelay: Duration): Duration
      requires created <= now
    {
      if CanSend(now, packetDelay) then 0.0 else At(now).SentAt() - now
    }

    function Add(now: Duration, packetDelay: Duration): Batch
      requires created <= now
    {
      var b := At(now);
      b.(delay := MaxTime(b.delay, now - b.created) + packetDelay)
    }
  }

  function PacketDelay(bandwidth: nat, size: nat): Duration
    requires bandwidth > 0
  {
    (size * 8) as real / bandwidth as real
  }

  class Pacer {
    const bandwidth: nat
    var created: Duration
    var delay: Duration

    predicate Valid() {
      bandwidth > 0
    }

    function Current(): Batch
      reads this
    {
      Batch(created, delay)
    }

    constructor (now: Duration, bandwidth: nat)
      requires bandwidth > 0
      ensures Valid() && this.bandwidth == bandwidth
      ensures Current() == Batch(now, 0.0)
    {
      this.bandwidth := bandwidth;
      created, delay := now, 0.0;
    }

    method UpdateAndCheckHasRoom(now: Duration, packetDelay: Duration) returns (room: bool)
      requires created <= now
      modifies this
      ensures Current() == old(Current()).At(now)
      ensures room == old(Current()).CanSend(now, packetDelay)
    {
      if now - created >= delay {
        created := now;
        delay := 0.0;
      }
      if delay == 0.0 {
        return true;
      }
      room := delay + packetDelay < BATCH_MAX_DELAY;
    }

    method CanSend(now: Duration, size: nat) returns (yes: bool)
      requires Valid() && created <= now
      modifies this
      ensures Current() == old(Current()).At(now)
      ensures yes == old(Current()).CanSend(now, PacketDelay(bandwidth, size))
    {
      yes := UpdateAndCheckHasRoom(now, PacketDelay(bandwidth, size));
    }

    method DurationUntilCanSend(now: Duration, size: nat) returns (wait: Duration)
      requires Valid() && created <= now
      modifies this
      ensures Current() == old(Current()).At(now)
      ensures wait == old(Current()).Wait(now, PacketDelay(bandwidth, size))
    {
      var room := UpdateAndCheckHasRoom(now, PacketDelay(bandwidth, size));
      if room {
        wait := 0.0;
      } else {
        wait := created + delay - now;
      }
    }

    method TrackSend(now: Duration, size: nat)
      requires Valid() && created <= now
      requires Current().CanSend(now, PacketDelay(bandwidth, size))
      modifies this
      ensures Current() == old(Current()).Add(now, PacketDelay(bandwidth, size))
    {
      var packetDelay := PacketDelay(bandwidth, size);
      var room := UpdateAndCheckHasRoom(now, packetDelay);
      assert room;
      var timeSinceCreated := now - created;
      delay := MaxTime(delay, timeSinceCreated);
      delay := delay + packetDelay;
    }
  }

  /** Room found once is still there at every later time, as long as nothing is sent. */
  lemma RoomLasts(b: Batch, now: Duration, later: Duration, packetDelay: Duration)
    requires b.created <= now <= later
    requires b.CanSend(now, packetDelay)
    ensures b.CanSend(later, packetDelay)
    ensures b.At(now).CanSend(later, packetDelay)
  {
  }

  /** After the wait the pacer asked for there is room, and it stays. */
  lemma RoomAfterWait(b: Batch, now: Duration, later: Duration, packetDelay: Duration)
    requires b.created <= now
    requires now + b.Wait(now, packetDelay) <= later
    ensures b.At(now).CanSend(later, packetDelay)
  {
  }

  /** The wait is the shortest one: asking again any earlier gets the same answer, no. */
  lemma WaitIsLeast(b: Batch, now: Duration, later: Duration, packetDelay: Duration)
    requires b.created <= now <= later < now + b.Wait(now, packetDelay)
    ensures !b.At(now).CanSend(later, packetDelay)
  {
  }

  /** The time since a batch was started never exceeds its delay when a packet joins it. */
  lemma MaxChangesNothing(b: Batch, now: Duration, packetDelay: Duration)
    requires b.created <= now
    ensures b.Add(now, packetDelay).delay == b.At(now).delay + packetDelay
  {
  }

  // ---- The rate bound -------------------------------------------------------------------------

  /** A packet of transmission time `delay` sent at time `at`. */
  datatype Sending = Sending(at: Duration, delay: Duration)

  /** Transmission time of everything sent from `from` on. */
  function SentSince(h: seq<Sending>, from: real): (total: Duration) {
    if h == [] then 0.0
    else
      var last := h[|h| - 1];
      SentSince(h[..|h| - 1], from) + if last.at >= from then last.delay else 0.0
  }

  /** Transmission time of everything sent in a window of time, its ends included. */
  function SentWithin(h: seq<Sending>, from: real, to: real): (total: Duration) {
    if h == [] then 0.0
    else
      var last := h[|h| - 1];
      SentWithin(h[..|h| - 1], from, to) + if from <= last.at <= to then last.delay else 0.0
  }

  function Largest(h: seq<Sending>): (d: Duration)
  {
    if h == [] then 0.0 else MaxTime(Largest(h[..|h| - 1]), h[|h| - 1].delay)
  }

  ghost predicate SentBy(h: seq<Sending>, now: Duration) {
    forall i :: 0 <= i < |h| ==> h[i].at <= now
  }

  ghost predicate InTimeOrder(h: seq<Sending>) {
    forall i, j :: 0 <= i < j < |h| ==> h[i].at <= h[j].at
  }

  /** What a batch says about everything that was sent from `from` on. */
  ghost predicate Covers(b: Batch, h: seq<Sending>, from: real) {
    if b.created >= from then
      SentSince(h, from) <= b.created - from + BATCH_MAX_DELAY + b.delay
    else
      SentSince(h, from) == 0.0 || (SentSince(h, from) <= b.delay < BATCH_MAX_DELAY)
  }

  // ---- Batches, told from what was sent -------------------------------------------------------

  function Total(h: seq<Sending>): (total: Duration) {
    if h == [] then 0.0 else Total(h[..|h| - 1]) + h[|h| - 1].delay
  }

  /** Where the last batch starts: a packet joins the batch of the one before, unless that batch is over by then. */
  function BatchStart(h: seq<Sending>): (k: nat)
    requires h != []
    ensures k < |h|
    decreases |h|, 0
  {
    var init, last := h[..|h| - 1], h[|h| - 1];
    if init != [] && last.at < BatchEnd(init) then BatchStart(init) else |init|
  }

  /** How long the last batch takes to send. */
  function BatchTime(h: seq<Sending>): Duration
    requires h != []
    decreases |h|, 1
  {
    Total(h[BatchStart(h)..])
  }

  function BatchEnd(h: seq<Sending>): Duration
    requires h != []
    decreases |h|, 2
  {
    h[BatchStart(h)].at + BatchTime(h)
  }

  /** The batch is the last one of the history, or a new one that is empty. */
  ghost predicate IsLastBatch(b: Batch, h: seq<Sending>) {
    if h == [] then b.delay == 0.0
    else
      || (b.created == h[BatchStart(h)].at && b.delay == BatchTime(h))
      || (b.delay == 0.0 && BatchEnd(h) <= b.created)
  }

  lemma LastBatchAfterCheck(b: Batch, h: seq<Sending>, now: Duration)
    requires b.created <= now && IsLastBatch(b, h)
    ensures IsLastBatch(b.At(now), h)
  {
    hide BatchStart, BatchTime;
  }

  lemma TotalAppend(h: seq<Sending>, x: Sending)
    ensures Total(h + [x]) == Total(h) + x.delay
  {
    assert (h + [x])[..|h|] == h;
  }

  lemma StartAfterSend(h: seq<Sending>, x: Sending)
    ensures BatchStart(h + [x]) == if h != [] && x.at < BatchEnd(h) then BatchStart(h) else |h|
  {
    assert (h + [x])[..|h + [x]| - 1] == h;
  }

  lemma BatchAfterSend(h: seq<Sending>, x: Sending)
    ensures h == [] || BatchEnd(h) <= x.at ==> BatchStart(h + [x]) == |h| && BatchTime(h + [x]) == x.delay
    ensures h != [] && x.at < BatchEnd(h) ==>
              BatchStart(h + [x]) == BatchStart(h) && BatchTime(h + [x]) == BatchTime(h) + x.delay
  {
    hide BatchStart, Total;
    StartAfterSend(h, x);
    if h != [] && x.at < BatchEnd(h) {
      var k := BatchStart(h);
      TotalAppend(h[k..], x);
      assert (h + [x])[k..] == h[k..] + [x];
    } else {
      TotalAppend([], x);
      NoTotal();
      assert (h + [x])[|h|..] == [] + [x];
    }
  }

  lemma NoTotal()
    ensures Total([]) == 0.0
  {
  }

  lemma LastBatchAfterSend(b: Batch, h: seq<Sending>, now: Duration, packetDelay: Duration)
    requires b.created <= now && IsLastBatch(b, h)
    ensures IsLastBatch(b.Add(now, packetDelay), h + [Sending(now, packetDelay)])
  {
    hide BatchStart, BatchTime;
    BatchAfterSend(h, Sending(now, packetDelay));
    if h != [] {
      var k := BatchStart(h);
      assert (h + [Sending(now, packetDelay)])[k] == h[k];
    }
  }

  /** Whether a packet may go: nothing was sent yet, or the last batch is over, or the packet fits in its two milliseconds. */
  predicate MayGo(h: seq<Sending>, now: Duration, packetDelay: Duration) {
    h == [] || BatchEnd(h) <= now || BatchTime(h) + packetDelay < 0.002
  }

  lemma RoomIsExact(b: Batch, h: seq<Sending>, now: Duration, packetDelay: Duration)
    requires b.created <= now && IsLastBatch(b, h)
    ensures b.CanSend(now, packetDelay) <==> MayGo(h, now, packetDelay)
    ensures b.Wait(now, packetDelay) == if MayGo(h, now, packetDelay) then 0.0 else BatchEnd(h) - now
  {
    hide BatchStart, BatchTime;
  }

  ghost predicate Paced(b: Batch, h: seq<Sending>) {
    && IsLastBatch(b, h)
    && b.delay <= MaxTime(BATCH_MAX_DELAY, Largest(h))
    && InTimeOrder(h)
    && forall from: real :: Covers(b, h, from)
  }

  lemma {:induction false} NothingSince(h: seq<Sending>, now: Duration, from: real)
    requires SentBy(h, now) && now < from
    ensures SentSince(h, from) == 0.0
  {
    if h != [] {
      NothingSince(h[..|h| - 1], now, from);
    }
  }

  lemma PacedFromStart(b: Batch)
    requires b.delay == 0.0
    ensures Paced(b, [])
  {
  }

  lemma PacedAfterCheck(b: Batch, h: seq<Sending>, now: Duration)
    requires b.created <= now && SentBy(h, now) && Paced(b, h)
    ensures Paced(b.At(now), h)
  {
    LastBatchAfterCheck(b, h, now);
    forall from: real
      ensures Covers(b.At(now), h, from)
    {
      assert Covers(b, h, from);
      if now < from {
        NothingSince(h, now, from);
      }
    }
  }

  lemma PacedAfterSend(b: Batch, h: seq<Sending>, now: Duration, packetDelay: Duration)
    requires b.created <= now && SentBy(h, now) && Paced(b, h)
    requires b.CanSend(now, packetDelay)
    ensures Paced(b.Add(now, packetDelay), h + [Sending(now, packetDelay)])
    ensures SentBy(h + [Sending(now, packetDelay)], now)
  {
    var h' := h + [Sending(now, packetDelay)];
    assert h'[..|h'| - 1] == h;
    PacedAfterCheck(b, h, now);
    LastBatchAfterSend(b, h, now, packetDelay);
    forall from: real
      ensures Covers(b.Add(now, packetDelay), h', from)
    {
      assert Covers(b.At(now), h, from);
      if now < from {
        NothingSince(h, now, from);
      }
    }
  }

  lemma {:induction false} WindowIsSuffix(h: seq<Sending>, from: real, to: Duration)
    requires SentBy(h, to)
    ensures SentWithin(h, from, to) == SentSince(h, from)
  {
    if h != [] {
      WindowIsSuffix(h[..|h| - 1], from, to);
    }
  }

  lemma LastWindowBound(b: Batch, h: seq<Sending>, from: real, now: Duration)
    requires b.created <= now && from <= now && Paced(b, h)
    ensures SentSince(h, from) <= now - from + BATCH_MAX_DELAY + MaxTime(BATCH_MAX_DELAY, Largest(h))
  {
    assert Covers(b, h, from);
  }

  /** What a caller does with a pacer: ask whether a packet may go, or send one that may. */
  datatype Call = Check(at: Duration) | Send(at: Duration, delay: Duration)

  ghost predicate Legal(start: Batch, calls: seq<Call>)
    decreases |calls|, 0
  {
    calls == [] ||
    (var before, last := calls[..|calls| - 1], calls[|calls| - 1];
     && Legal(start, before)
     && After(start, before).created <= last.at
     && (before != [] ==> before[|before| - 1].at <= last.at)
     && (last.Send? ==> After(start, before).CanSend(last.at, last.delay)))
  }

  ghost function After(start: Batch, calls: seq<Call>): Batch
    requires Legal(start, calls)
    decreases |calls|, 1
  {
    if calls == [] then start
    else
      var b, last := After(start, calls[..|calls| - 1]), calls[|calls| - 1];
      match last
      case Check(at) => b.At(at)
      case Send(at, delay) => b.Add(at, delay)
  }

  ghost function Sendings(calls: seq<Call>): seq<Sending> {
    if calls == [] then []
    else
      var h, last := Sendings(calls[..|calls| - 1]), calls[|calls| - 1];
      if last.Send? then h + [Sending(last.at, last.delay)] else h
  }

  lemma {:induction false} RunIsPaced(start: Batch, calls: seq<Call>)
    requires start.delay == 0.0 && Legal(start, calls)
    ensures Paced(After(start, calls), Sendings(calls))
    ensures calls != [] ==> SentBy(Sendings(calls), calls[|calls| - 1].at)
    ensures calls != [] ==> After(start, calls).created <= calls[|calls| - 1].at
  {
    if calls == [] {
      PacedFromStart(start);
    } else {
      var before, last := calls[..|calls| - 1], calls[|calls| - 1];
      RunIsPaced(start, before);
      match last
      case Check(at) => PacedAfterCheck(After(start, before), Sendings(before), at);
      case Send(at, delay) => PacedAfterSend(After(start, before), Sendings(before), at, delay);
    }
  }

  /** The batch's delay is what was sent since it was started, and nothing was sent since its end. */
  ghost predicate Sums(b: Batch, h: seq<Sending>) {
    b.delay == SentSince(h, b.created) && forall from: real :: b.created + b.delay <= from ==> SentSince(h, from) == 0.0
  }

  lemma SumsAfterCheck(b: Batch, h: seq<Sending>, now: Duration)
    requires b.created <= now && Sums(b, h)
    ensures Sums(b.At(now), h)
  {
    hide SentSince;
  }

  lemma SumsAfterSend(b: Batch, h: seq<Sending>, now: Duration, packetDelay: Duration)
    requires b.created <= now && Sums(b, h)
    ensures Sums(b.Add(now, packetDelay), h + [Sending(now, packetDelay)])
  {
    var more := h + [Sending(now, packetDelay)];
    assert more[..|more| - 1] == h;
    SumsAfterCheck(b, h, now);
  }

  lemma {:induction false} DelayIsSum(start: Batch, calls: seq<Call>)
    requires start.delay == 0.0 && Legal(start, calls)
    ensures Sums(After(start, calls), Sendings(calls))
  {
    if calls != [] {
      var before, last := calls[..|calls| - 1], calls[|calls| - 1];
      DelayIsSum(start, before);
      match last
      case Check(at) => SumsAfterCheck(After(start, before), Sendings(before), at);
      case Send(at, delay) => SumsAfterSend(After(start, before), Sendings(before), at, delay);
    }
  }

  /**
   The pacer's answers, for every legal sequence of calls: the delay of the batch is the sum of those
   of the packets sent since it was started, and a packet may go if and only if nothing was sent yet,
   or the batch is over, or that sum and the packet's delay are below two milliseconds. Else the
   pacer asks for a wait until the end of the batch.
   */
  lemma PacerIsExact(start: Batch, calls: seq<Call>, now: Duration, packetDelay: Duration)
    requires start.delay == 0.0 && Legal(start, calls) && After(start, calls).created <= now
    ensures var b, h := After(start, calls), Sendings(calls);
            && b.delay == SentSince(h, b.created)
            && (b.CanSend(now, packetDelay) <==> h == [] || BatchEnd(h) <= now || BatchTime(h) + packetDelay < 0.002)
            && b.Wait(now, packetDelay) == if b.CanSend(now, packetDelay) then 0.0 else BatchEnd(h) - now
  {
    hide After, Legal, Sendings, Batch.CanSend, Batch.Wait, BatchTime, BatchEnd, SentSince, Covers, IsLastBatch;
    RunIsPaced(start, calls);
    DelayIsSum(start, calls);
    RoomIsExact(After(start, calls), Sendings(calls), now, packetDelay);
  }

  lemma {:induction false} LateSendingsDoNotCount(calls: seq<Call>, from: real, to: real)
    requires calls != [] && calls[|calls| - 1].at > to
    ensures SentWithin(Sendings(calls), from, to) == SentWithin(Sendings(calls[..|calls| - 1]), from, to)
    ensures Largest(Sendings(calls[..|calls| - 1])) <= Largest(Sendings(calls))
  {
    var h, h' := Sendings(calls[..|calls| - 1]), Sendings(calls);
    if calls[|calls| - 1].Send? {
      assert h'[..|h'| - 1] == h;
    }
  }

  /**
   The rate bound: whatever is asked of a pacer, the packets it lets go in any window of time
   take at most the length of the window to transmit, plus one full batch (2 ms) and the largest
   packet (or another full batch, when no packet is that large).
   */
  lemma {:induction false} RateBound(start: Batch, calls: seq<Call>, from: Duration, to: Duration)
    requires start.delay == 0.0 && Legal(start, calls) && from <= to
    ensures SentWithin(Sendings(calls), from, to)
         <= to - from + 0.002 + MaxTime(0.002, Largest(Sendings(calls)))
  {
    if calls != [] {
      if calls[|calls| - 1].at > to {
        RateBound(start, calls[..|calls| - 1], from, to);
        LateSendingsDoNotCount(calls, from, to);
      } else {
        RunIsPaced(start, calls);
        WindowIsSuffix(Sendings(calls), from, to);
        LastWindowBound(After(start, calls), Sendings(calls), from, to);
      }
    }
  }
}
