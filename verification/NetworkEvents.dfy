/** Network events: in which order they happen, and how links and nodes start out (event.rs). */
module NetworkEvents {
  import opened Prelude
  import opened StableSort
  import opened Trace
  import opened Network

  datatype EventKind = OnLink(link: LinkEvent) | OnNode(node: NodeEvent)

  datatype Event = Event(time: Duration, kind: EventKind)

  predicate Sooner(a: Event, b: Event) {
    a.time <= b.time
  }

  ghost predicate InTime(events: seq<Event>) {
    forall i, j :: 0 <= i < j < |events| ==> events[i].time <= events[j].time
  }

  datatype Target = ALink(link: LinkId) | ANode(node: NodeId)

  /** The status that an event gives to a link or a node, if it is about it and about its status. */
  function StatusOf(e: Event, what: Target): Option<Status> {
    match what
    case ALink(l) => if e.kind.OnLink? && e.kind.link.link == l then e.kind.link.status else None
    case ANode(n) => if e.kind.OnNode? && e.kind.node.node == n then e.kind.node.status else None
  }

  /** The first event that gives `what` a status. */
  function First(events: seq<Event>, what: Target): Option<Event> {
    if events == [] then None
    else
      var init, last := events[..|events| - 1], events[|events| - 1];
      if First(init, what).Some? then First(init, what)
      else if StatusOf(last, what).Some? then Some(last) else None
  }

  // ---- The initial events ---------------------------------------------------------------------

  /** What a link starts with: its first event if that is at time zero, else the opposite status. */
  function InitialLinkEvent(l: LinkId, first: Event): LinkEvent {
    if first.time == 0.0 && first.kind.OnLink? then first.kind.link
    else
      match StatusOf(first, ALink(l))
      case Some(Up) => LinkEvent(l, Some(Down), None)
      case Some(Down) => LinkEvent(l, Some(Up), None)
      case None => LinkEvent(l, None, None)
  }

  function InitialNodeEvent(n: NodeId, first: Event): NodeEvent {
    match StatusOf(first, ANode(n))
    case Some(Up) => NodeEvent(n, Some(Down), false)
    case Some(Down) => NodeEvent(n, Some(Up), false)
    case None => NodeEvent(n, None, false)
  }

  function LinkEventsFor(events: seq<LinkEvent>, l: LinkId): seq<LinkEvent> {
    if events == [] then []
    else
      LinkEventsFor(events[..|events| - 1], l)
      + if events[|events| - 1].link == l then [events[|events| - 1]] else []
  }

  function NodeEventsFor(events: seq<NodeEvent>, n: NodeId): seq<NodeEvent> {
    if events == [] then []
    else
      NodeEventsFor(events[..|events| - 1], n)
      + if events[|events| - 1].node == n then [events[|events| - 1]] else []
  }

  function Repeat<T>(x: T, times: nat): seq<T> {
    if times == 0 then [] else Repeat(x, times - 1) + [x]
  }

  /** What each link starts with: one event if later events set its status, else it is up. */
  ghost predicate StartsLinks(initial: seq<LinkEvent>, events: seq<Event>, links: seq<LinkId>) {
    forall l :: StartsLink(initial, events, links, l)
  }

  ghost predicate StartsLink(initial: seq<LinkEvent>, events: seq<Event>, links: seq<LinkId>, l: LinkId) {
    LinkEventsFor(initial, l) ==
      match First(events, ALink(l))
      case Some(e) => [InitialLinkEvent(l, e)]
      case None => Repeat(LinkEvent(l, Some(Up), None), multiset(links)[l])
  }

  ghost predicate StartsNodes(initial: seq<NodeEvent>, events: seq<Event>, nodes: seq<NodeId>) {
    forall n :: StartsNode(initial, events, nodes, n)
  }

  ghost predicate StartsNode(initial: seq<NodeEvent>, events: seq<Event>, nodes: seq<NodeId>, n: NodeId) {
    NodeEventsFor(initial, n) ==
      match First(events, ANode(n))
      case Some(e) => [InitialNodeEvent(n, e)]
      case None => Repeat(NodeEvent(n, Some(Up), false), multiset(nodes)[n])
  }

  lemma LinkEventsForAppend(events: seq<LinkEvent>, e: LinkEvent)
    ensures forall l :: LinkEventsFor(events + [e], l) == LinkEventsFor(events, l) + if e.link == l then [e] else []
  {
    assert (events + [e])[..|events|] == events;
  }

  lemma NodeEventsForAppend(events: seq<NodeEvent>, e: NodeEvent)
    ensures forall n :: NodeEventsFor(events + [e], n) == NodeEventsFor(events, n) + if e.node == n then [e] else []
  {
    assert (events + [e])[..|events|] == events;
  }

  lemma FirstAppend(events: seq<Event>, e: Event)
    ensures forall what :: First(events + [e], what)
                        == if First(events, what).Some? then First(events, what)
                           else if StatusOf(e, what).Some? then Some(e) else None
  {
    assert (events + [e])[..|events|] == events;
  }

  lemma OneMoreOf<T>(xs: seq<T>, i: nat)
    requires i < |xs|
    ensures multiset(xs[..i + 1]) == multiset(xs[..i]) + multiset{xs[i]}
  {
    assert xs[..i + 1] == xs[..i] + [xs[i]];
  }

  lemma OneTarget(e: Event, what: Target, other: Target)
    requires StatusOf(e, what).Some? && other != what
    ensures StatusOf(e, other).None?
  {
  }

  lemma NoEventsYet()
    ensures StartsLinks([], [], []) && StartsNodes([], [], [])
    ensures forall what :: First([], what).None?
  {
  }

  /** A link whose status is set for the first time gets its initial event. */
  lemma StartsLinksAfterFirst(initial: seq<LinkEvent>, events: seq<Event>, e: Event, link: LinkId)
    requires StartsLinks(initial, events, []) && First(events, ALink(link)).None?
    requires StatusOf(e, ALink(link)).Some?
    ensures StartsLinks(initial + [InitialLinkEvent(link, e)], events + [e], [])
  {
    hide StatusOf;
    FirstAppend(events, e);
    LinkEventsForAppend(initial, InitialLinkEvent(link, e));
    IsForLink(link, e);
    forall other
      ensures StartsLink(initial + [InitialLinkEvent(link, e)], events + [e], [], other)
    {
      assert StartsLink(initial, events, [], other);
      if other != link {
        OneTarget(e, ALink(link), ALink(other));
      }
    }
  }

  lemma IsForLink(link: LinkId, e: Event)
    requires StatusOf(e, ALink(link)).Some?
    ensures InitialLinkEvent(link, e).link == link
  {
  }

  lemma StartsLinksAfterOther(initial: seq<LinkEvent>, events: seq<Event>, e: Event)
    requires StartsLinks(initial, events, [])
    requires forall link :: StatusOf(e, ALink(link)).Some? ==> First(events, ALink(link)).Some?
    ensures StartsLinks(initial, events + [e], [])
  {
    hide StatusOf;
    FirstAppend(events, e);
    forall link
      ensures StartsLink(initial, events + [e], [], link)
    {
      assert StartsLink(initial, events, [], link);
    }
  }

  lemma StartsLinksWith(initial: seq<LinkEvent>, events: seq<Event>, links: seq<LinkId>, i: nat)
    requires i < |links| && StartsLinks(initial, events, links[..i])
    ensures First(events, ALink(links[i])).Some? ==> StartsLinks(initial, events, links[..i + 1])
    ensures First(events, ALink(links[i])).None? ==>
              StartsLinks(initial + [LinkEvent(links[i], Some(Up), None)], events, links[..i + 1])
  {
    hide First, LinkEventsFor, InitialLinkEvent;
    var up := LinkEvent(links[i], Some(Up), None);
    var before, after := links[..i], links[..i + 1];
    OneMoreOf(links, i);
    LinkEventsForAppend(initial, up);
    if First(events, ALink(links[i])).None? {
      forall link
        ensures StartsLink(initial + [up], events, after, link)
      {
        assert StartsLink(initial, events, before, link);
      }
    } else {
      forall link
        ensures StartsLink(initial, events, after, link)
      {
        assert StartsLink(initial, events, before, link);
      }
    }
  }

  /** In the words of the program: a link that is set up later starts down, and one that is set down later starts up. */
  ghost predicate StartsOpposite(initial: seq<LinkEvent>, events: seq<Event>) {
    forall l, i {:trigger IsFirst(events, ALink(l), i)} :: IsFirst(events, ALink(l), i) ==>
      && (events[i].time == 0.0 ==> LinkEventsFor(initial, l) == [events[i].kind.link])
      && (events[i].time != 0.0 && events[i].kind.link.status == Some(Up) ==>
            LinkEventsFor(initial, l) == [LinkEvent(l, Some(Down), None)])
      && (events[i].time != 0.0 && events[i].kind.link.status == Some(Down) ==>
            LinkEventsFor(initial, l) == [LinkEvent(l, Some(Up), None)])
  }

  ghost predicate StartsNodesOpposite(initial: seq<NodeEvent>, events: seq<Event>) {
    forall n, i {:trigger IsFirst(events, ANode(n), i)} :: IsFirst(events, ANode(n), i) ==>
      && (events[i].kind.node.status == Some(Up) ==> NodeEventsFor(initial, n) == [NodeEvent(n, Some(Down), false)])
      && (events[i].kind.node.status == Some(Down) ==> NodeEventsFor(initial, n) == [NodeEvent(n, Some(Up), false)])
  }

  lemma LinksStartOpposite(initial: seq<LinkEvent>, events: seq<Event>, links: seq<LinkId>)
    requires StartsLinks(initial, events, links)
    ensures StartsOpposite(initial, events)
  {
    hide First, LinkEventsFor;
    forall l, i {:trigger IsFirst(events, ALink(l), i)} | IsFirst(events, ALink(l), i)
      ensures First(events, ALink(l)) == Some(events[i]) && StartsLink(initial, events, links, l)
    {
      FirstIsAt(events, ALink(l), i);
    }
  }

  lemma NodesStartOpposite(initial: seq<NodeEvent>, events: seq<Event>, nodes: seq<NodeId>)
    requires StartsNodes(initial, events, nodes)
    ensures StartsNodesOpposite(initial, events)
  {
    hide First, NodeEventsFor;
    forall n, i {:trigger IsFirst(events, ANode(n), i)} | IsFirst(events, ANode(n), i)
      ensures First(events, ANode(n)) == Some(events[i]) && StartsNode(initial, events, nodes, n)
    {
      FirstIsAt(events, ANode(n), i);
    }
  }

  lemma FirstIsAt(events: seq<Event>, what: Target, i: nat)
    requires IsFirst(events, what, i)
    ensures First(events, what) == Some(events[i])
  {
    hide First;
    FirstIsFirst(events, what);
    var k :| IsFirst(events, what, k) && events[k] == First(events, what).value;
    assert k == i;
  }

  method InitialStatusForLinks(events: seq<Event>, links: seq<LinkId>) returns (initial: seq<LinkEvent>)
    ensures StartsLinks(initial, events, links) && StartsOpposite(initial, events)
  {
    hide StartsLinks, First;
    var seen: set<LinkId> := {};
    initial := [];
    NoEventsYet();
    for i := 0 to |events|
      invariant forall link :: link in seen <==> First(events[..i], ALink(link)).Some?
      invariant StartsLinks(initial, events[..i], [])
    {
      var e := events[i];
      assert events[..i + 1] == events[..i] + [e];
      FirstAppend(events[..i], e);
      if e.kind.OnLink? && e.kind.link.status.Some? && e.kind.link.link !in seen {
        var payload := e.kind.link;
        StartsLinksAfterFirst(initial, events[..i], e, payload.link);
        seen := seen + {payload.link};
        if e.time == 0.0 {
          initial := initial + [payload];
        } else {
          var initialStatus := match payload.status.value
            case Up => Down
            case Down => Up;
          initial := initial + [LinkEvent(payload.link, Some(initialStatus), None)];
        }
      } else {
        StartsLinksAfterOther(initial, events[..i], e);
      }
    }
    assert events[..|events|] == events;
    for i := 0 to |links|
      invariant StartsLinks(initial, events, links[..i])
    {
      StartsLinksWith(initial, events, links, i);
      if links[i] !in seen {
        initial := initial + [LinkEvent(links[i], Some(Up), None)];
      }
    }
    assert links[..|links|] == links;
    LinksStartOpposite(initial, events, links);
  }

  /** A node whose status is set for the first time gets its initial event. */
  lemma StartsNodesAfterFirst(initial: seq<NodeEvent>, events: seq<Event>, e: Event, node: NodeId)
    requires StartsNodes(initial, events, []) && First(events, ANode(node)).None?
    requires StatusOf(e, ANode(node)).Some?
    ensures StartsNodes(initial + [InitialNodeEvent(node, e)], events + [e], [])
  {
    hide StatusOf;
    FirstAppend(events, e);
    NodeEventsForAppend(initial, InitialNodeEvent(node, e));
    IsForNode(node, e);
    forall other
      ensures StartsNode(initial + [InitialNodeEvent(node, e)], events + [e], [], other)
    {
      assert StartsNode(initial, events, [], other);
      if other != node {
        OneTarget(e, ANode(node), ANode(other));
      }
    }
  }

  lemma IsForNode(node: NodeId, e: Event)
    requires StatusOf(e, ANode(node)).Some?
    ensures InitialNodeEvent(node, e).node == node
  {
  }

  lemma StartsNodesAfterOther(initial: seq<NodeEvent>, events: seq<Event>, e: Event)
    requires StartsNodes(initial, events, [])
    requires forall node :: StatusOf(e, ANode(node)).Some? ==> First(events, ANode(node)).Some?
    ensures StartsNodes(initial, events + [e], [])
  {
    hide StatusOf;
    FirstAppend(events, e);
    forall node
      ensures StartsNode(initial, events + [e], [], node)
    {
      assert StartsNode(initial, events, [], node);
    }
  }

  lemma StartsNodesWith(initial: seq<NodeEvent>, events: seq<Event>, nodes: seq<NodeId>, i: nat)
    requires i < |nodes| && StartsNodes(initial, events, nodes[..i])
    ensures First(events, ANode(nodes[i])).Some? ==> StartsNodes(initial, events, nodes[..i + 1])
    ensures First(events, ANode(nodes[i])).None? ==>
              StartsNodes(initial + [NodeEvent(nodes[i], Some(Up), false)], events, nodes[..i + 1])
  {
    hide First, NodeEventsFor, InitialNodeEvent;
    var up := NodeEvent(nodes[i], Some(Up), false);
    var before, after := nodes[..i], nodes[..i + 1];
    OneMoreOf(nodes, i);
    NodeEventsForAppend(initial, up);
    if First(events, ANode(nodes[i])).None? {
      forall node
        ensures StartsNode(initial + [up], events, after, node)
      {
        assert StartsNode(initial, events, before, node);
      }
    } else {
      forall node
        ensures StartsNode(initial, events, after, node)
      {
        assert StartsNode(initial, events, before, node);
      }
    }
  }

  method InitialStatusForNodes(events: seq<Event>, nodes: seq<NodeId>) returns (initial: seq<NodeEvent>)
    ensures StartsNodes(initial, events, nodes) && StartsNodesOpposite(initial, events)
  {
    hide StartsNodes, First;
    var seen: set<NodeId> := {};
    initial := [];
    NoEventsYet();
    for i := 0 to |events|
      invariant forall node :: node in seen <==> First(events[..i], ANode(node)).Some?
      invariant StartsNodes(initial, events[..i], [])
    {
      var e := events[i];
      assert events[..i + 1] == events[..i] + [e];
      FirstAppend(events[..i], e);
      if e.kind.OnNode? && e.kind.node.status.Some? && e.kind.node.node !in seen {
        var payload := e.kind.node;
        StartsNodesAfterFirst(initial, events[..i], e, payload.node);
        seen := seen + {payload.node};
        var initialStatus := match payload.status.value
          case Up => Down
          case Down => Up;
        initial := initial + [NodeEvent(payload.node, Some(initialStatus), false)];
      } else {
        StartsNodesAfterOther(initial, events[..i], e);
      }
    }
    assert events[..|events|] == events;
    for i := 0 to |nodes|
      invariant StartsNodes(initial, events, nodes[..i])
    {
      StartsNodesWith(initial, events, nodes, i);
      if nodes[i] !in seen {
        initial := initial + [NodeEvent(nodes[i], Some(Up), false)];
      }
    }
    assert nodes[..|nodes|] == nodes;
    NodesStartOpposite(initial, events, nodes);
  }

  function At(time: Duration): Event -> bool {
    (e: Event) => e.time == time
  }

  method NewEvents(events: seq<Event>, nodes: seq<NodeId>, links: seq<LinkId>)
    returns (sorted: seq<Event>, linkEvents: seq<LinkEvent>, nodeEvents: seq<NodeEvent>)
    ensures InTime(sorted) && multiset(sorted) == multiset(events)
    ensures forall time :: Select(sorted, At(time)) == Select(events, At(time))
    ensures StartsLinks(linkEvents, sorted, links) && StartsNodes(nodeEvents, sorted, nodes)
    ensures StartsOpposite(linkEvents, sorted) && StartsNodesOpposite(nodeEvents, sorted)
  {
    sorted := Sort(events, Sooner);
    SortCorrect(events, Sooner);
    forall time
      ensures Select(sorted, At(time)) == Select(events, At(time))
    {
      SortIsStable(events, Sooner, At(time));
    }
    linkEvents := InitialStatusForLinks(sorted, links);
    nodeEvents := InitialStatusForNodes(sorted, nodes);
  }

  // ---- The status timeline --------------------------------------------------------------------

  /** The events that are due by `time`. */
  function Due(events: seq<Event>, time: Duration): seq<Event> {
    if events == [] || events[0].time > time then [] else [events[0]] + Due(events[1..], time)
  }

  /** A link, or a node, after some events happened. */
  function LinkAfter(link: LinkState, l: LinkId, events: seq<Event>): LinkState {
    if events == [] then link
    else
      var before, e := LinkAfter(link, l, events[..|events| - 1]), events[|events| - 1];
      if e.kind.OnLink? && e.kind.link.link == l then ChangedLink(before, e.kind.link, e.time) else before
  }

  function NodeAfter(node: NodeState, n: NodeId, events: seq<Event>): NodeState {
    if events == [] then node
    else
      var before, e := NodeAfter(node, n, events[..|events| - 1]), events[|events| - 1];
      if e.kind.OnNode? && e.kind.node.node == n then ChangedNode(before, e.kind.node, e.time) else before
  }

  function LastStatus(events: seq<Event>, what: Target, before: Status): Status {
    if events == [] then before
    else
      match StatusOf(events[|events| - 1], what)
      case Some(s) => s
      case None => LastStatus(events[..|events| - 1], what, before)
  }

  lemma {:induction false} LinkStatusIsLast(link: LinkState, l: LinkId, events: seq<Event>)
    ensures LinkAfter(link, l, events).status == LastStatus(events, ALink(l), link.status)
  {
    if events != [] {
      LinkStatusIsLast(link, l, events[..|events| - 1]);
    }
  }

  lemma {:induction false} NodeStatusIsLast(node: NodeState, n: NodeId, events: seq<Event>)
    ensures NodeAfter(node, n, events).status == LastStatus(events, ANode(n), node.status)
  {
    if events != [] {
      NodeStatusIsLast(node, n, events[..|events| - 1]);
    }
  }

  /** The i-th event is the last one that sets the status of `what` at or before `time`. */
  ghost predicate IsLatest(events: seq<Event>, what: Target, time: Duration, i: int) {
    && 0 <= i < |events| && events[i].time <= time && StatusOf(events[i], what).Some?
    && forall j :: i < j < |events| && events[j].time <= time ==> StatusOf(events[j], what).None?
  }

  /** The i-th event is the first one that sets the status of `what`. */
  ghost predicate IsFirst(events: seq<Event>, what: Target, i: int) {
    && 0 <= i < |events| && StatusOf(events[i], what).Some?
    && forall j :: 0 <= j < i ==> StatusOf(events[j], what).None?
  }

  /** The status that the events give to `what` at `time`. */
  ghost predicate HasStatus(events: seq<Event>, what: Target, time: Duration, s: Status) {
    && (forall i :: IsLatest(events, what, time, i) ==> Some(s) == StatusOf(events[i], what))
    && (forall i :: IsFirst(events, what, i) && time < events[i].time && StatusOf(events[i], what) == Some(Up) ==> s == Down)
    && (forall i :: IsFirst(events, what, i) && time < events[i].time && StatusOf(events[i], what) == Some(Down) ==> s == Up)
    && ((forall i :: 0 <= i < |events| ==> StatusOf(events[i], what).None?) ==> s == Up)
  }

  lemma {:induction false} DueIsPrefix(events: seq<Event>, time: Duration)
    requires InTime(events)
    ensures |Due(events, time)| <= |events| && Due(events, time) == events[..|Due(events, time)|]
    ensures forall i :: 0 <= i < |events| ==> (i < |Due(events, time)| <==> events[i].time <= time)
  {
    if events != [] && events[0].time <= time {
      DueIsPrefix(events[1..], time);
    }
  }

  lemma {:induction false} LastStatusIsLatest(events: seq<Event>, what: Target, before: Status, i: nat)
    requires i < |events| && StatusOf(events[i], what).Some?
    requires forall j :: i < j < |events| ==> StatusOf(events[j], what).None?
    ensures Some(LastStatus(events, what, before)) == StatusOf(events[i], what)
  {
    if i < |events| - 1 {
      LastStatusIsLatest(events[..|events| - 1], what, before, i);
    }
  }

  lemma {:induction false} NoLastStatus(events: seq<Event>, what: Target, before: Status)
    requires forall j :: 0 <= j < |events| ==> StatusOf(events[j], what).None?
    ensures LastStatus(events, what, before) == before
  {
    if events != [] {
      NoLastStatus(events[..|events| - 1], what, before);
    }
  }

  lemma {:induction false} FirstIsFirst(events: seq<Event>, what: Target)
    ensures First(events, what).None? ==> forall j :: 0 <= j < |events| ==> StatusOf(events[j], what).None?
    ensures First(events, what).Some? ==> exists i :: IsFirst(events, what, i) && events[i] == First(events, what).value
  {
    if events != [] {
      var init := events[..|events| - 1];
      FirstIsFirst(init, what);
      if i :| IsFirst(init, what, i) && init[i] == First(init, what).value {
        assert IsFirst(events, what, i);
      }
      if First(init, what).None? && First(events, what).Some? {
        assert IsFirst(events, what, |events| - 1);
      }
    }
  }

  /** With what status `what` is before any event happens. */
  function InitialStatus(events: seq<Event>, what: Target): Status {
    match First(events, what)
    case None => Up
    case Some(e) =>
      match StatusOf(e, what)
      case None => Up
      case Some(s) =>
        if what.ALink? && e.time == 0.0 then s
        else
          match s
          case Up => Down
          case Down => Up
  }

  lemma {:induction false} FirstSetsStatus(events: seq<Event>, what: Target)
    ensures First(events, what).Some? ==> StatusOf(First(events, what).value, what).Some?
  {
    if events != [] {
      FirstSetsStatus(events[..|events| - 1], what);
    }
  }

  lemma DueDecides(events: seq<Event>, what: Target, time: Duration, i: int, before: Status)
    requires InTime(events) && IsLatest(events, what, time, i)
    ensures Some(LastStatus(Due(events, time), what, before)) == StatusOf(events[i], what)
  {
    DueIsPrefix(events, time);
    LastStatusIsLatest(Due(events, time), what, before, i);
  }

  lemma NothingDue(events: seq<Event>, what: Target, time: Duration, before: Status)
    requires InTime(events)
    requires forall i :: 0 <= i < |events| && events[i].time <= time ==> StatusOf(events[i], what).None?
    ensures LastStatus(Due(events, time), what, before) == before
  {
    DueIsPrefix(events, time);
    NoLastStatus(Due(events, time), what, before);
  }

  lemma Timeline(events: seq<Event>, what: Target, time: Duration)
    requires InTime(events)
    ensures HasStatus(events, what, time, LastStatus(Due(events, time), what, InitialStatus(events, what)))
  {
    hide LastStatus, Due, First;
    var start := InitialStatus(events, what);
    forall i | IsLatest(events, what, time, i)
      ensures Some(LastStatus(Due(events, time), what, start)) == StatusOf(events[i], what)
    {
      DueDecides(events, what, time, i, start);
    }
    FirstIsFirst(events, what);
    forall i | IsFirst(events, what, i) && time < events[i].time
      ensures StatusOf(events[i], what) == Some(Up) ==> LastStatus(Due(events, time), what, start) == Down
      ensures StatusOf(events[i], what) == Some(Down) ==> LastStatus(Due(events, time), what, start) == Up
    {
      forall j | 0 <= j < |events| && events[j].time <= time
        ensures StatusOf(events[j], what).None?
      {
        assert j < i;
      }
      NothingDue(events, what, time, start);
      var first :| IsFirst(events, what, first) && events[first] == First(events, what).value;
      assert first == i;
    }
    if forall i :: 0 <= i < |events| ==> StatusOf(events[i], what).None? {
      NothingDue(events, what, time, start);
    }
  }

  function LinksAtStart(initial: seq<LinkEvent>): seq<Event> {
    if initial == [] then []
    else LinksAtStart(initial[..|initial| - 1]) + [Event(0.0, OnLink(initial[|initial| - 1]))]
  }

  function LastLinkStatus(events: seq<LinkEvent>, before: Status): Status {
    if events == [] then before
    else if events[|events| - 1].status.Some? then events[|events| - 1].status.value
    else LastLinkStatus(events[..|events| - 1], before)
  }

  lemma LastLinkStatusWith(events: seq<LinkEvent>, e: LinkEvent, before: Status)
    ensures LastLinkStatus(events + [e], before) == if e.status.Some? then e.status.value else LastLinkStatus(events, before)
    ensures LastLinkStatus(events + [], before) == LastLinkStatus(events, before)
  {
    assert (events + [e])[..|events|] == events;
    assert events + [] == events;
  }

  lemma LastStatusWithLink(events: seq<Event>, e: LinkEvent, link: LinkId, before: Status)
    ensures LastStatus(events + [Event(0.0, OnLink(e))], ALink(link), before)
         == if e.link == link && e.status.Some? then e.status.value else LastStatus(events, ALink(link), before)
  {
    assert (events + [Event(0.0, OnLink(e))])[..|events|] == events;
  }

  lemma {:induction false} LinkStartStatus(initial: seq<LinkEvent>, link: LinkId, before: Status)
    ensures LastStatus(LinksAtStart(initial), ALink(link), before) == LastLinkStatus(LinkEventsFor(initial, link), before)
  {
    hide LastStatus, LastLinkStatus;
    if initial != [] {
      var init, last := initial[..|initial| - 1], initial[|initial| - 1];
      LinkStartStatus(init, link, before);
      LastStatusWithLink(LinksAtStart(init), last, link, before);
      LastLinkStatusWith(LinkEventsFor(init, link), last, before);
    } else {
      NoLinkStatusYet(link, before);
    }
  }

  lemma NoLinkStatusYet(link: LinkId, before: Status)
    ensures LastStatus([], ALink(link), before) == before == LastLinkStatus([], before)
  {
  }

  lemma {:induction false} RepeatedLinkStatus(e: LinkEvent, times: nat)
    requires e.status == Some(Up)
    ensures LastLinkStatus(Repeat(e, times), Up) == Up
  {
    if times > 0 {
      var es := Repeat(e, times);
      assert es[|es| - 1] == e;
    }
  }

  lemma LinkStartsRight(initial: seq<LinkEvent>, events: seq<Event>, links: seq<LinkId>, link: LinkId)
    requires StartsLinks(initial, events, links)
    ensures LastStatus(LinksAtStart(initial), ALink(link), Up) == InitialStatus(events, ALink(link))
  {
    assert StartsLink(initial, events, links, link);
    LinkStartStatus(initial, link, Up);
    FirstSetsStatus(events, ALink(link));
    RepeatedLinkStatus(LinkEvent(link, Some(Up), None), multiset(links)[link]);
  }

  /**
   The timeline of a link: once the initial events and all the events up to some time have happened,
   it has the status of the last event that set it; if there is none yet, the opposite of what the
   first one will set; and if there is none at all, it is up.
   */
  lemma LinkTimeline(initial: seq<LinkEvent>, events: seq<Event>, links: seq<LinkId>, link: LinkId, start: LinkState,
                     time: Duration)
    requires StartsLinks(initial, events, links) && InTime(events) && start.status.Up?
    ensures var linkThen := LinkAfter(LinkAfter(start, link, LinksAtStart(initial)), link, Due(events, time));
            HasStatus(events, ALink(link), time, linkThen.status)
  {
    hide StartsLinks, HasStatus, InTime, InitialStatus;
    var started := LinkAfter(start, link, LinksAtStart(initial));
    LinkStatusIsLast(start, link, LinksAtStart(initial));
    LinkStatusIsLast(started, link, Due(events, time));
    LinkStartsRight(initial, events, links, link);
    Timeline(events, ALink(link), time);
  }

  function NodesAtStart(initial: seq<NodeEvent>): seq<Event> {
    if initial == [] then []
    else NodesAtStart(initial[..|initial| - 1]) + [Event(0.0, OnNode(initial[|initial| - 1]))]
  }

  function LastNodeStatus(events: seq<NodeEvent>, before: Status): Status {
    if events == [] then before
    else if events[|events| - 1].status.Some? then events[|events| - 1].status.value
    else LastNodeStatus(events[..|events| - 1], before)
  }

  lemma LastNodeStatusWith(events: seq<NodeEvent>, e: NodeEvent, before: Status)
    ensures LastNodeStatus(events + [e], before) == if e.status.Some? then e.status.value else LastNodeStatus(events, before)
    ensures LastNodeStatus(events + [], before) == LastNodeStatus(events, before)
  {
    assert (events + [e])[..|events|] == events;
    assert events + [] == events;
  }

  lemma LastStatusWithNode(events: seq<Event>, e: NodeEvent, node: NodeId, before: Status)
    ensures LastStatus(events + [Event(0.0, OnNode(e))], ANode(node), before)
         == if e.node == node && e.status.Some? then e.status.value else LastStatus(events, ANode(node), before)
  {
    assert (events + [Event(0.0, OnNode(e))])[..|events|] == events;
  }

  lemma {:induction false} NodeStartStatus(initial: seq<NodeEvent>, node: NodeId, before: Status)
    ensures LastStatus(NodesAtStart(initial), ANode(node), before) == LastNodeStatus(NodeEventsFor(initial, node), before)
  {
    hide LastStatus, LastNodeStatus;
    if initial != [] {
      var init, last := initial[..|initial| - 1], initial[|initial| - 1];
      NodeStartStatus(init, node, before);
      LastStatusWithNode(NodesAtStart(init), last, node, before);
      LastNodeStatusWith(NodeEventsFor(init, node), last, before);
    } else {
      NoNodeStatusYet(node, before);
    }
  }

  lemma NoNodeStatusYet(node: NodeId, before: Status)
    ensures LastStatus([], ANode(node), before) == before == LastNodeStatus([], before)
  {
  }

  lemma {:induction false} RepeatedNodeStatus(e: NodeEvent, times: nat)
    requires e.status == Some(Up)
    ensures LastNodeStatus(Repeat(e, times), Up) == Up
  {
    if times > 0 {
      var es := Repeat(e, times);
      assert es[|es| - 1] == e;
    }
  }

  lemma NodeStartsRight(initial: seq<NodeEvent>, events: seq<Event>, nodes: seq<NodeId>, node: NodeId)
    requires StartsNodes(initial, events, nodes)
    ensures LastStatus(NodesAtStart(initial), ANode(node), Up) == InitialStatus(events, ANode(node))
  {
    assert StartsNode(initial, events, nodes, node);
    NodeStartStatus(initial, node, Up);
    FirstSetsStatus(events, ANode(node));
    RepeatedNodeStatus(NodeEvent(node, Some(Up), false), multiset(nodes)[node]);
  }

  /**
   The timeline of a node: once the initial events and all the events up to some time have happened,
   it has the status of the last event that set it; if there is none yet, the opposite of what the
   first one will set; and if there is none at all, it is up.
   */
  lemma NodeTimeline(initial: seq<NodeEvent>, events: seq<Event>, nodes: seq<NodeId>, node: NodeId, start: NodeState,
                     time: Duration)
    requires StartsNodes(initial, events, nodes) && InTime(events) && start.status.Up?
    ensures var nodeThen := NodeAfter(NodeAfter(start, node, NodesAtStart(initial)), node, Due(events, time));
            HasStatus(events, ANode(node), time, nodeThen.status)
  {
    hide StartsNodes, HasStatus, InTime, InitialStatus;
    var started := NodeAfter(start, node, NodesAtStart(initial));
    NodeStatusIsLast(start, node, NodesAtStart(initial));
    NodeStatusIsLast(started, node, Due(events, time));
    NodeStartsRight(initial, events, nodes, node);
    Timeline(events, ANode(node), time);
  }
}
