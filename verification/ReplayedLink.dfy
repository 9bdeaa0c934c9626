/** The verifier's view of a link: its status and its bandwidth window (simulation_verifier.rs). */
module ReplayedLink {
  import opened Prelude
  import opened Trace
  import opened PacketPacer

  /** An entry of `packets_in_bandwidth_window`. */
  datatype Entry = Entry(at: Duration, bits: nat)

  datatype RLink = RLink(status: Status, lastDown: Option<Duration>, usage: nat, window: seq<Entry>, maxBps: nat) {

    ghost predicate Valid() {
      usage == Bits(window)
    }

    function SetStatus(status: Status, now: Duration): RLink {
      this.(status := status, lastDown := if status.Down? then Some(now) else lastDown)
    }

    function PacketSent(now: Duration, size: nat, bandwidth: nat): (l: RLink)
      ensures l.Valid()
    {
      var kept := DropOld(window, now, WindowSeconds(bandwidth)) + [Entry(now, size * 8)];
      RLink(status, lastDown, Bits(kept), kept, Max(maxBps, Bits(kept) / WindowSeconds(bandwidth)))
    }
  }

  const NEW_LINK := RLink(Up, None, 0, [], 0)

  /** 9984 is the MTU with IPv6 and UDP headers: slower links are judged over ten seconds. */
  function WindowSeconds(bandwidth: nat): (w: nat)
    ensures w > 0
  {
    if bandwidth < 9984 then 10 else 1
  }

  function Bits(window: seq<Entry>): nat {
    if window == [] then 0 else Bits(window[..|window| - 1]) + window[|window| - 1].bits
  }

  predicate Expired(e: Entry, now: Duration, seconds: nat) {
    e.at + seconds as real < now
  }

  function DropOld(window: seq<Entry>, now: Duration, seconds: nat): seq<Entry> {
    if window != [] && Expired(window[0], now, seconds) then DropOld(window[1..], now, seconds) else window
  }

  lemma {:induction false} BitsFromFront(window: seq<Entry>)
    requires window != []
    ensures Bits(window) == window[0].bits + Bits(window[1..])
  {
    if |window| > 1 {
      var init := window[..|window| - 1];
      BitsFromFront(init);
      assert init[1..] == window[1..][..|window[1..]| - 1];
    } else {
      assert window[..0] == [] && window[1..] == [];
    }
  }

  class ReplayedLink {
    var status: Status
    var lastDown: Option<Duration>
    var bandwidthUsage: nat
    var window: seq<Entry>
    var maxBandwidthUsage: nat

    function State(): RLink
      reads this
    {
      RLink(status, lastDown, bandwidthUsage, window, maxBandwidthUsage)
    }

    constructor ()
      ensures State() == NEW_LINK
    {
      status, lastDown, bandwidthUsage, window, maxBandwidthUsage := Up, None, 0, [], 0;
    }

    method SetStatus(newStatus: Status, now: Duration)
      modifies this
      ensures State() == old(State()).SetStatus(newStatus, now)
    {
      if newStatus.Down? {
        lastDown := Some(now);
      }
      status := newStatus;
    }

    method PacketSent(now: Duration, size: nat, bandwidth: nat) returns (observed: nat)
      requires State().Valid()
      modifies this
      ensures State() == old(State()).PacketSent(now, size, bandwidth)
      ensures observed == State().usage / WindowSeconds(bandwidth)
    {
      var seconds := WindowSeconds(bandwidth);
      while window != [] && Expired(window[0], now, seconds)
        invariant bandwidthUsage == Bits(window)
        invariant DropOld(window, now, seconds) == DropOld(old(window), now, seconds)
        invariant status == old(status) && lastDown == old(lastDown) && maxBandwidthUsage == old(maxBandwidthUsage)
        decreases |window|
      {
        BitsFromFront(window);
        var bits := window[0].bits;
        window := window[1..];
        bandwidthUsage := bandwidthUsage - bits;
      }
      var packetBits := size * 8;
      window := window + [Entry(now, packetBits)];
      bandwidthUsage := bandwidthUsage + packetBits;
      assert window[..|window| - 1] == DropOld(old(window), now, seconds);
      observed := bandwidthUsage / seconds;
      maxBandwidthUsage := Max(maxBandwidthUsage, observed);
    }
  }

  // ---- The window against the whole history ---------------------------------------------------

  /** A packet handed to the link at time `at`. */
  datatype Sent = Sent(at: Duration, size: nat)

  /** The link after a history of sends, in order. */
  function Replayed(start: RLink, h: seq<Sent>, bandwidth: nat): RLink {
    if h == [] then start
    else
      var last := h[|h| - 1];
      Replayed(start, h[..|h| - 1], bandwidth).PacketSent(last.at, last.size, bandwidth)
  }

  /** Bits of all the packets sent from `from` on. */
  function BitsSince(h: seq<Sent>, from: real): nat {
    if h == [] then 0
    else
      var last := h[|h| - 1];
      BitsSince(h[..|h| - 1], from) + if from <= last.at then 8 * last.size else 0
  }

  /**
   The plain definition of the bandwidth in use when the last packet of `h` was sent: the average over
   the last second, or over the last ten seconds on a link of less than 9984 bit/s.
   */
  function Observed(h: seq<Sent>, bandwidth: nat): nat
    requires h != []
  {
    var seconds := if bandwidth < 9984 then 10 else 1;
    BitsSince(h, h[|h| - 1].at - seconds as real) / seconds
  }

  function MaxObserved(h: seq<Sent>, bandwidth: nat): nat {
    if h == [] then 0 else Max(MaxObserved(h[..|h| - 1], bandwidth), Observed(h, bandwidth))
  }

  ghost predicate SentInOrder(h: seq<Sent>) {
    forall i, j :: 0 <= i < j < |h| ==> h[i].at <= h[j].at
  }

  function EntriesSince(h: seq<Sent>, from: real): (es: seq<Entry>) {
    if h == [] then []
    else
      var last := h[|h| - 1];
      EntriesSince(h[..|h| - 1], from) + if from <= last.at then [Entry(last.at, last.size * 8)] else []
  }

  lemma {:induction false} EntriesAreSends(h: seq<Sent>, from: real)
    ensures Bits(EntriesSince(h, from)) == BitsSince(h, from)
  {
    if h != [] {
      var init, last := h[..|h| - 1], h[|h| - 1];
      EntriesAreSends(init, from);
      if from <= last.at {
        var es := EntriesSince(h, from);
        assert es[..|es| - 1] == EntriesSince(init, from);
      } else {
        assert EntriesSince(h, from) == EntriesSince(init, from);
      }
    }
  }

  /** Nothing recent in a history unless its last send is recent. */
  lemma {:induction false} RecentNeedsRecentLast(h: seq<Sent>, from: real)
    requires SentInOrder(h) && h != [] && h[|h| - 1].at < from
    ensures EntriesSince(h, from) == []
  {
    if |h| > 1 {
      assert h[|h| - 2].at <= h[|h| - 1].at;
      RecentNeedsRecentLast(h[..|h| - 1], from);
    }
  }

  lemma {:induction false} DropOldAppend(window: seq<Entry>, e: Entry, now: Duration, seconds: nat)
    ensures DropOld(window + [e], now, seconds)
         == if DropOld(window, now, seconds) == [] && Expired(e, now, seconds) then []
            else DropOld(window, now, seconds) + [e]
  {
    if window == [] {
      assert window + [e] == [e];
    } else if Expired(window[0], now, seconds) {
      DropOldAppend(window[1..], e, now, seconds);
      assert (window + [e])[1..] == window[1..] + [e];
    }
  }

  lemma EntriesBefore(h: seq<Sent>, from: real)
    requires h != []
    ensures h[|h| - 1].at < from ==> EntriesSince(h, from) == EntriesSince(h[..|h| - 1], from)
    ensures from <= h[|h| - 1].at ==>
              EntriesSince(h, from) == EntriesSince(h[..|h| - 1], from) + [Entry(h[|h| - 1].at, h[|h| - 1].size * 8)]
  {
  }

  /** Popping expired entries off the front leaves exactly the entries that are recent enough. */
  lemma {:induction false} DropOldIsFilter(h: seq<Sent>, from: real, now: Duration, seconds: nat)
    requires SentInOrder(h) && from <= now - seconds as real
    ensures DropOld(EntriesSince(h, from), now, seconds) == EntriesSince(h, now - seconds as real)
  {
    if h != [] {
      hide EntriesSince, DropOld;
      var init, last := h[..|h| - 1], h[|h| - 1];
      DropOldIsFilter(init, from, now, seconds);
      EntriesBefore(h, from);
      EntriesBefore(h, now - seconds as real);
      if from <= last.at {
        DropOldAppend(EntriesSince(init, from), Entry(last.at, last.size * 8), now, seconds);
      }
      if last.at < now - seconds as real {
        RecentNeedsRecentLast(h, now - seconds as real);
      }
    }
  }

  lemma WindowIs(bandwidth: nat)
    ensures WindowSeconds(bandwidth) == if bandwidth < 9984 then 10 else 1
  {
  }

  /** The deque holds exactly the recent entries, its total is their sum and the maximum is over all prefixes. */
  lemma {:induction false} WindowIsRecentHistory(start: RLink, h: seq<Sent>, bandwidth: nat)
    requires start.window == [] && start.maxBps == 0 && start.usage == 0
    requires SentInOrder(h)
    ensures var l := Replayed(start, h, bandwidth);
            && l.maxBps == MaxObserved(h, bandwidth)
            && l.status == start.status && l.lastDown == start.lastDown
            && (h != [] ==>
                var from := h[|h| - 1].at - if bandwidth < 9984 then 10.0 else 1.0;
                l.window == EntriesSince(h, from) && l.usage == BitsSince(h, from))
  {
    hide WindowSeconds, BitsSince, Bits;
    WindowIs(bandwidth);
    if h != [] {
      var seconds := WindowSeconds(bandwidth);
      var init, last := h[..|h| - 1], h[|h| - 1];
      WindowIsRecentHistory(start, init, bandwidth);
      if init == [] {
        assert EntriesSince(init, last.at - seconds as real) == [];
      } else {
        DropOldIsFilter(init, init[|init| - 1].at - seconds as real, last.at, seconds);
      }
      EntriesAreSends(h, last.at - seconds as real);
    }
  }

  // ---- The window against the pacer -----------------------------------------------------------

  /** The same history as the pacer sees it. */
  function Transmissions(h: seq<Sent>, bandwidth: nat): (s: seq<Sending>)
    requires bandwidth > 0
    ensures |s| == |h|
    ensures forall i :: 0 <= i < |h| ==> s[i] == Sending(h[i].at, PacketDelay(bandwidth, h[i].size))
  {
    if h == [] then []
    else
      var last := h[|h| - 1];
      Transmissions(h[..|h| - 1], bandwidth) + [Sending(last.at, PacketDelay(bandwidth, last.size))]
  }

  /** The bits a link of this bandwidth transmits in some time. */
  function BitsIn(time: real, bandwidth: nat): real {
    time * bandwidth as real
  }

  lemma BitsInPacketDelay(bandwidth: nat, size: nat)
    requires bandwidth > 0
    ensures BitsIn(PacketDelay(bandwidth, size), bandwidth) == (8 * size) as real
  {
  }

  lemma BitsInSum(a: real, b: real, bandwidth: nat)
    ensures BitsIn(a + b, bandwidth) == BitsIn(a, bandwidth) + BitsIn(b, bandwidth)
  {
  }

  lemma BitsInGrows(a: real, b: real, bandwidth: nat)
    requires a <= b
    ensures BitsIn(a, bandwidth) <= BitsIn(b, bandwidth)
  {
  }

  lemma {:induction false} BitsAreDelays(h: seq<Sent>, bandwidth: nat, from: real)
    requires bandwidth > 0
    ensures BitsSince(h, from) as real == BitsIn(SentSince(Transmissions(h, bandwidth), from), bandwidth)
  {
    if h != [] {
      hide PacketDelay, BitsIn;
      var init, last, t := h[..|h| - 1], h[|h| - 1], Transmissions(h, bandwidth);
      assert t[..|t| - 1] == Transmissions(init, bandwidth);
      BitsAreDelays(init, bandwidth, from);
      if from <= last.at {
        BitsInPacketDelay(bandwidth, last.size);
        BitsInSum(SentSince(Transmissions(init, bandwidth), from), PacketDelay(bandwidth, last.size), bandwidth);
      }
    }
  }

  /** The most bits a paced link can have sent within the verifier's window. */
  function BitsAllowed(h: seq<Sent>, bandwidth: nat): real
    requires bandwidth > 0
  {
    BitsIn((if bandwidth < 9984 then 10.0 else 1.0) + 0.002 + MaxTime(0.002, Largest(Transmissions(h, bandwidth))), bandwidth)
  }

  ghost predicate Within(bps: nat, h: seq<Sent>, bandwidth: nat)
    requires bandwidth > 0
  {
    (bps * if bandwidth < 9984 then 10 else 1) as real <= BitsAllowed(h, bandwidth)
  }

  lemma FloorTimesDivisor(n: nat, d: nat)
    requires d > 0
    ensures n / d * d <= n
  {
  }

  /** Observed bandwidth on a paced link: at most the window, one batch and the largest packet's worth. */
  lemma ObservedOnPacedLink(b: Batch, h: seq<Sent>, bandwidth: nat)
    requires bandwidth > 0 && h != []
    requires Paced(b, Transmissions(h, bandwidth)) && b.created <= h[|h| - 1].at
    ensures Within(Observed(h, bandwidth), h, bandwidth)
  {
    hide BitsIn, Paced;
    var seconds, now, t := if bandwidth < 9984 then 10 else 1, h[|h| - 1].at, Transmissions(h, bandwidth);
    var from := now - seconds as real;
    LastWindowBound(b, t, from, now);
    BitsAreDelays(h, bandwidth, from);
    BitsInGrows(SentSince(t, from), seconds as real + 0.002 + MaxTime(0.002, Largest(t)), bandwidth);
    FloorTimesDivisor(BitsSince(h, from), seconds);
  }

  lemma LargestGrows(h: seq<Sent>, s: Sent, bandwidth: nat)
    requires bandwidth > 0
    ensures Largest(Transmissions(h, bandwidth)) <= Largest(Transmissions(h + [s], bandwidth))
  {
    hide PacketDelay;
    assert (h + [s])[..|h|] == h;
    var t, t' := Transmissions(h, bandwidth), Transmissions(h + [s], bandwidth);
    assert t'[..|t'| - 1] == t;
  }

  lemma AllowanceGrows(h: seq<Sent>, s: Sent, bandwidth: nat)
    requires bandwidth > 0
    ensures BitsAllowed(h, bandwidth) <= BitsAllowed(h + [s], bandwidth)
  {
    hide BitsIn, Largest, Transmissions;
    LargestGrows(h, s, bandwidth);
    var before, after := Largest(Transmissions(h, bandwidth)), Largest(Transmissions(h + [s], bandwidth));
    var seconds := if bandwidth < 9984 then 10.0 else 1.0;
    BitsInGrows(seconds + 0.002 + MaxTime(0.002, before), seconds + 0.002 + MaxTime(0.002, after), bandwidth);
  }

}
