/** Routes, and the links they offer to a packet (route.rs, node.rs, mod.rs). */
module Routing {
  import opened Prelude
  import opened Cidr
  import opened StableSort
  import opened Trace

  datatype Route = Route(destination: IpRange, next: IpAddr, cost: nat) {
    predicate LeadsTo(dest: IpAddr) {
      destination.Contains(dest.bits)
    }

    function NextHopTowards(dest: IpAddr): Option<IpAddr> {
      if LeadsTo(dest) then Some(next) else None
    }
  }

  /** A route together with the address of the interface it leaves through. */
  datatype NodeRoute = NodeRoute(via: IpAddr, route: Route)

  type LinkMap = map<(IpAddr, IpAddr), LinkId>

  datatype MissingLink = NoLinkBetween(source: IpAddr, target: IpAddr)

  // ---- Walking the routes of a node -----------------------------------------------------------

  /** The routes whose block contains `dest`, in order. */
  function Matching(routes: seq<NodeRoute>, dest: IpAddr): seq<NodeRoute> {
    if routes == [] then []
    else (if routes[0].route.LeadsTo(dest) then [routes[0]] else []) + Matching(routes[1..], dest)
  }

  /** The links of some routes, or the first one that does not exist. */
  function LinksOf(routes: seq<NodeRoute>, links: LinkMap): Result<seq<LinkId>, MissingLink> {
    if routes == [] then Ok([])
    else
      var ends := (routes[0].via, routes[0].route.next);
      if ends !in links then Err(NoLinkBetween(ends.0, ends.1))
      else
        match LinksOf(routes[1..], links)
        case Err(e) => Err(e)
        case Ok(ls) => Ok([links[ends]] + ls)
  }

  /** What walking all the links towards `dest` visits. */
  function LinksTowards(routes: seq<NodeRoute>, links: LinkMap, dest: IpAddr): Result<seq<LinkId>, MissingLink> {
    LinksOf(Matching(routes, dest), links)
  }

  lemma {:induction false} MatchingAppend(a: seq<NodeRoute>, b: seq<NodeRoute>, dest: IpAddr)
    ensures Matching(a + b, dest) == Matching(a, dest) + Matching(b, dest)
  {
    if a == [] {
      assert a + b == b;
    } else {
      assert (a + b)[1..] == a[1..] + b;
      MatchingAppend(a[1..], b, dest);
    }
  }

  lemma {:induction false} LinksOfAppend(a: seq<NodeRoute>, r: NodeRoute, links: LinkMap)
    ensures LinksOf(a, links).Err? ==> LinksOf(a + [r], links) == LinksOf(a, links)
    ensures LinksOf(a, links).Ok? ==>
              LinksOf(a + [r], links)
              == if (r.via, r.route.next) in links
                 then Ok(LinksOf(a, links).value + [links[(r.via, r.route.next)]])
                 else Err(NoLinkBetween(r.via, r.route.next))
  {
    if a == [] {
      assert a + [r] == [r] && [r][1..] == [];
      var last := (r.via, r.route.next);
      if last in links {
        assert [links[last]] + [] == [] + [links[last]];
      }
    } else {
      assert (a + [r])[1..] == a[1..] + [r];
      LinksOfAppend(a[1..], r, links);
      var ends, last := (a[0].via, a[0].route.next), (r.via, r.route.next);
      if ends in links && LinksOf(a[1..], links).Ok? && last in links {
        var ls := LinksOf(a[1..], links).value;
        assert [links[ends]] + (ls + [links[last]]) == [links[ends]] + ls + [links[last]];
      }
    }
  }

  lemma {:induction false} NoneMatch(routes: seq<NodeRoute>, dest: IpAddr)
    requires forall i :: 0 <= i < |routes| ==> !routes[i].route.LeadsTo(dest)
    ensures Matching(routes, dest) == []
  {
    if routes != [] {
      NoneMatch(routes[1..], dest);
    }
  }

  lemma {:induction false} MatchingAreRoutes(routes: seq<NodeRoute>, dest: IpAddr)
    ensures forall r :: r in Matching(routes, dest) <==> r in routes && r.route.LeadsTo(dest)
  {
    if routes != [] {
      MatchingAreRoutes(routes[1..], dest);
    }
  }

  lemma {:induction false} LinksOfAreLinks(routes: seq<NodeRoute>, links: LinkMap)
    requires LinksOf(routes, links).Ok?
    ensures |LinksOf(routes, links).value| == |routes|
    ensures forall i :: 0 <= i < |routes| ==>
              && (routes[i].via, routes[i].route.next) in links
              && LinksOf(routes, links).value[i] == links[(routes[i].via, routes[i].route.next)]
  {
    if routes != [] {
      LinksOfAreLinks(routes[1..], links);
    }
  }

  /** `walk_links` with a function that collects the links. */
  method CollectLinks(routes: seq<NodeRoute>, links: LinkMap, dest: IpAddr)
    returns (found: Result<seq<LinkId>, MissingLink>)
    ensures found == LinksTowards(routes, links, dest)
  {
    var collected: seq<LinkId> := [];
    for i := 0 to |routes|
      invariant LinksTowards(routes[..i], links, dest) == Ok(collected)
    {
      var r := routes[i];
      assert routes[..i + 1] == routes[..i] + [r];
      MatchingAppend(routes[..i], [r], dest);
      LinksOfAppend(Matching(routes[..i], dest), r, links);
      match r.route.NextHopTowards(dest) {
        case None =>
          assert Matching([r], dest) == [];
          assert Matching(routes[..i + 1], dest) == Matching(routes[..i], dest);
        case Some(hop) =>
          assert Matching([r], dest) == [r];
          if (r.via, hop) !in links {
            assert routes == routes[..i + 1] + routes[i + 1..];
            MatchingAppend(routes[..i + 1], routes[i + 1..], dest);
            MissingStays(Matching(routes[..i + 1], dest), Matching(routes[i + 1..], dest), links);
            return Err(NoLinkBetween(r.via, hop));
          }
          collected := collected + [links[(r.via, hop)]];
      }
    }
    assert routes[..|routes|] == routes;
    found := Ok(collected);
  }

  lemma {:induction false} MissingStays(a: seq<NodeRoute>, b: seq<NodeRoute>, links: LinkMap)
    requires LinksOf(a, links).Err?
    ensures LinksOf(a + b, links) == LinksOf(a, links)
  {
    assert (a + b)[1..] == a[1..] + b;
    if (a[0].via, a[0].route.next) in links {
      MissingStays(a[1..], b, links);
    }
  }

  /**
   `walk_links` with a function that stops at once: whether some route leads to `dest`. It only
   looks up the link of the first one.
   */
  method HasRouteTo(routes: seq<NodeRoute>, links: LinkMap, dest: IpAddr) returns (found: Result<bool, MissingLink>)
    ensures Matching(routes, dest) == [] ==> found == Ok(false)
    ensures Matching(routes, dest) != [] ==>
              var first := Matching(routes, dest)[0];
              found == if (first.via, first.route.next) in links then Ok(true)
                       else Err(NoLinkBetween(first.via, first.route.next))
    ensures LinksTowards(routes, links, dest).Ok? ==> found == Ok(LinksTowards(routes, links, dest).value != [])
  {
    for i := 0 to |routes|
      invariant forall j :: 0 <= j < i ==> !routes[j].route.LeadsTo(dest)
    {
      var r := routes[i];
      match r.route.NextHopTowards(dest) {
        case None =>
        case Some(hop) =>
          NoneMatch(routes[..i], dest);
          assert routes == routes[..i] + routes[i..];
          MatchingAppend(routes[..i], routes[i..], dest);
          assert Matching(routes, dest)[0] == r;
          return if (r.via, hop) in links then Ok(true) else Err(NoLinkBetween(r.via, hop));
      }
    }
    NoneMatch(routes, dest);
    found := Ok(false);
  }

  // ---- The routes of a node -------------------------------------------------------------------

  datatype Interface = Interface(addresses: seq<Cidr>, routes: seq<Route>)

  /** `r1.cost.cmp(&r2.cost).then(dest1.cmp(dest2))` */
  predicate Cheaper(a: NodeRoute, b: NodeRoute) {
    a.route.cost < b.route.cost || (a.route.cost == b.route.cost && a.via.bits as nat <= b.via.bits as nat)
  }

  lemma CheaperIsTotalPreorder()
    ensures TotalPreorder(Cheaper)
  {
  }

  datatype SpecError = NoInterfaces | NoAddress

  /** The routes to the networks an interface is in, for its addresses that a link leaves from. */
  function ConnectedRoutes(addresses: seq<Cidr>, linkTargets: map<IpAddr, IpAddr>): seq<NodeRoute>
    requires forall i :: 0 <= i < |addresses| ==> addresses[i].Valid()
  {
    if addresses == [] then []
    else
      var init, last := ConnectedRoutes(addresses[..|addresses| - 1], linkTargets), addresses[|addresses| - 1];
      if V4(last.address) in linkTargets
      then init + [NodeRoute(V4(last.address), Route(FromCidr(last), linkTargets[V4(last.address)], 0))]
      else init
  }

  /** A route of an interface, through each of the interface's addresses. */
  function Through(route: Route, addresses: seq<Cidr>): seq<NodeRoute> {
    if addresses == [] then []
    else Through(route, addresses[..|addresses| - 1]) + [NodeRoute(V4(addresses[|addresses| - 1].address), route)]
  }

  function OtherRoutes(routes: seq<Route>, addresses: seq<Cidr>): seq<NodeRoute> {
    if routes == [] then []
    else OtherRoutes(routes[..|routes| - 1], addresses) + Through(routes[|routes| - 1], addresses)
  }

  ghost predicate ValidInterfaces(interfaces: seq<Interface>) {
    forall i, j :: 0 <= i < |interfaces| && 0 <= j < |interfaces[i].addresses| ==> interfaces[i].addresses[j].Valid()
  }

  function AllConnected(interfaces: seq<Interface>, linkTargets: map<IpAddr, IpAddr>): seq<NodeRoute>
    requires ValidInterfaces(interfaces)
  {
    if interfaces == [] then []
    else
      AllConnected(interfaces[..|interfaces| - 1], linkTargets)
      + ConnectedRoutes(interfaces[|interfaces| - 1].addresses, linkTargets)
  }

  function AllOthers(interfaces: seq<Interface>): seq<NodeRoute> {
    if interfaces == [] then []
    else
      var last := interfaces[|interfaces| - 1];
      AllOthers(interfaces[..|interfaces| - 1]) + OtherRoutes(last.routes, last.addresses)
  }

  method AddConnected(connected: seq<NodeRoute>, addresses: seq<Cidr>, linkTargets: map<IpAddr, IpAddr>)
    returns (more: seq<NodeRoute>)
    requires forall i :: 0 <= i < |addresses| ==> addresses[i].Valid()
    ensures more == connected + ConnectedRoutes(addresses, linkTargets)
  {
    more := connected;
    for i := 0 to |addresses|
      invariant more == connected + ConnectedRoutes(addresses[..i], linkTargets)
    {
      var a := addresses[i];
      assert addresses[..i + 1][..i] == addresses[..i];
      if V4(a.address) in linkTargets {
        more := more + [NodeRoute(V4(a.address), Route(FromCidr(a), linkTargets[V4(a.address)], 0))];
      }
    }
    assert addresses[..|addresses|] == addresses;
  }

  method AddOthers(others: seq<NodeRoute>, routes: seq<Route>, addresses: seq<Cidr>) returns (more: seq<NodeRoute>)
    ensures more == others + OtherRoutes(routes, addresses)
  {
    more := others;
    for i := 0 to |routes|
      invariant more == others + OtherRoutes(routes[..i], addresses)
    {
      assert routes[..i + 1][..i] == routes[..i];
      ghost var before := more;
      for j := 0 to |addresses|
        invariant more == before + Through(routes[i], addresses[..j])
      {
        assert addresses[..j + 1][..j] == addresses[..j];
        more := more + [NodeRoute(V4(addresses[j].address), routes[i])];
      }
      assert addresses[..|addresses|] == addresses;
    }
    assert routes[..|routes|] == routes;
  }

  /** Route `a` costs less than `b`, or as much and its address is not the higher one. */
  predicate NoDearer(a: NodeRoute, b: NodeRoute) {
    || a.route.cost < b.route.cost
    || (a.route.cost == b.route.cost && a.via.bits as nat <= b.via.bits as nat)
  }

  ghost predicate FromCheapOn(routes: seq<NodeRoute>) {
    forall i, j :: 0 <= i < j < |routes| ==> NoDearer(routes[i], routes[j])
  }

  lemma SortedIsFromCheapOn(routes: seq<NodeRoute>)
    requires Sorted(routes, Cheaper)
    ensures FromCheapOn(routes)
  {
  }

  lemma OthersFromCheapOn(interfaces: seq<Interface>)
    ensures FromCheapOn(Sort(AllOthers(interfaces), Cheaper))
    ensures multiset(Sort(AllOthers(interfaces), Cheaper)) == multiset(AllOthers(interfaces))
  {
    CheaperIsTotalPreorder();
    SortCorrect(AllOthers(interfaces), Cheaper);
    SortedIsFromCheapOn(Sort(AllOthers(interfaces), Cheaper));
  }

  /** `r` is the route to the network of an address of some interface that a link leaves from. */
  ghost predicate IsConnected(interfaces: seq<Interface>, linkTargets: map<IpAddr, IpAddr>, r: NodeRoute)
    requires ValidInterfaces(interfaces)
  {
    exists i, j :: 0 <= i < |interfaces| && 0 <= j < |interfaces[i].addresses| &&
      var a := interfaces[i].addresses[j];
      V4(a.address) in linkTargets && r == NodeRoute(V4(a.address), Route(FromCidr(a), linkTargets[V4(a.address)], 0))
  }

  /** `r` is a route of the interface, through one of its addresses. */
  ghost predicate IsRouteOf(interface: Interface, r: NodeRoute) {
    exists k :: 0 <= k < |interface.routes| && r.route == interface.routes[k] && IsThrough(interface.addresses, r)
  }

  ghost predicate IsThrough(addresses: seq<Cidr>, r: NodeRoute) {
    exists j :: 0 <= j < |addresses| && r.via == V4(addresses[j].address)
  }

  ghost predicate IsOther(interfaces: seq<Interface>, r: NodeRoute) {
    exists i :: 0 <= i < |interfaces| && IsRouteOf(interfaces[i], r)
  }

  lemma {:induction false} ConnectedAre(addresses: seq<Cidr>, linkTargets: map<IpAddr, IpAddr>, r: NodeRoute)
    requires forall i :: 0 <= i < |addresses| ==> addresses[i].Valid()
    ensures r in ConnectedRoutes(addresses, linkTargets) <==>
              exists j :: 0 <= j < |addresses| &&
                var a := addresses[j];
                V4(a.address) in linkTargets && r == NodeRoute(V4(a.address), Route(FromCidr(a), linkTargets[V4(a.address)], 0))
  {
    hide FromCidr;
    if addresses != [] {
      ConnectedAre(addresses[..|addresses| - 1], linkTargets, r);
    }
  }

  lemma {:induction false} AllConnectedAre(interfaces: seq<Interface>, linkTargets: map<IpAddr, IpAddr>, r: NodeRoute)
    requires ValidInterfaces(interfaces)
    ensures r in AllConnected(interfaces, linkTargets) <==> IsConnected(interfaces, linkTargets, r)
  {
    hide FromCidr;
    if interfaces != [] {
      var init, last := interfaces[..|interfaces| - 1], interfaces[|interfaces| - 1];
      AllConnectedAre(init, linkTargets, r);
      ConnectedAre(last.addresses, linkTargets, r);
    }
  }

  lemma {:induction false} ThroughAre(route: Route, addresses: seq<Cidr>, r: NodeRoute)
    ensures r in Through(route, addresses) <==> r.route == route && IsThrough(addresses, r)
  {
    if addresses != [] {
      ThroughAre(route, addresses[..|addresses| - 1], r);
    }
  }

  lemma {:induction false} OthersAre(routes: seq<Route>, addresses: seq<Cidr>, r: NodeRoute)
    ensures r in OtherRoutes(routes, addresses) <==> IsRouteOf(Interface(addresses, routes), r)
  {
    hide IsThrough;
    if routes != [] {
      OthersAre(routes[..|routes| - 1], addresses, r);
      ThroughAre(routes[|routes| - 1], addresses, r);
    }
  }

  lemma {:induction false} AllOthersAre(interfaces: seq<Interface>, r: NodeRoute)
    ensures r in AllOthers(interfaces) <==> IsOther(interfaces, r)
  {
    hide IsRouteOf;
    if interfaces != [] {
      var init, last := interfaces[..|interfaces| - 1], interfaces[|interfaces| - 1];
      AllOthersAre(init, r);
      OthersAre(last.routes, last.addresses, r);
    }
  }

  /** The routes of a node (`Node::new`): the connected ones, then the others, cheapest first. */
  method NewRoutes(interfaces: seq<Interface>, linkTargets: map<IpAddr, IpAddr>)
    returns (routes: Result<seq<NodeRoute>, SpecError>)
    requires ValidInterfaces(interfaces)
    ensures interfaces == [] ==> routes == Err(NoInterfaces)
    ensures interfaces != [] && interfaces[0].addresses == [] ==> routes == Err(NoAddress)
    ensures interfaces != [] && interfaces[0].addresses != [] ==>
              && routes == Ok(AllConnected(interfaces, linkTargets) + Sort(AllOthers(interfaces), Cheaper))
              && (exists first, rest ::
                    && routes.value == first + rest && FromCheapOn(rest)
                    && (forall r :: r in first <==> IsConnected(interfaces, linkTargets, r))
                    && (forall r :: r in rest <==> IsOther(interfaces, r)))
  {
    hide IsConnected, IsOther, FromCheapOn, Sort;
    if interfaces == [] {
      return Err(NoInterfaces);
    }
    if interfaces[0].addresses == [] {
      return Err(NoAddress);
    }
    var connected: seq<NodeRoute> := [];
    var others: seq<NodeRoute> := [];
    for i := 0 to |interfaces|
      invariant connected == AllConnected(interfaces[..i], linkTargets)
      invariant others == AllOthers(interfaces[..i])
    {
      assert interfaces[..i + 1][..i] == interfaces[..i];
      connected := AddConnected(connected, interfaces[i].addresses, linkTargets);
      others := AddOthers(others, interfaces[i].routes, interfaces[i].addresses);
    }
    assert interfaces[..|interfaces|] == interfaces;
    routes := Ok(connected + Sort(others, Cheaper));
    RoutesAre(interfaces, linkTargets);
  }

  /** The connected routes are those of the interfaces' addresses, and the others are all the others, from cheap to expensive. */
  lemma RoutesAre(interfaces: seq<Interface>, linkTargets: map<IpAddr, IpAddr>)
    requires ValidInterfaces(interfaces)
    ensures FromCheapOn(Sort(AllOthers(interfaces), Cheaper))
    ensures forall r :: r in AllConnected(interfaces, linkTargets) <==> IsConnected(interfaces, linkTargets, r)
    ensures forall r :: r in Sort(AllOthers(interfaces), Cheaper) <==> IsOther(interfaces, r)
  {
    hide IsConnected, IsOther, Sort, FromCheapOn;
    OthersFromCheapOn(interfaces);
    var connected, others := AllConnected(interfaces, linkTargets), AllOthers(interfaces);
    forall r
      ensures r in connected <==> IsConnected(interfaces, linkTargets, r)
      ensures r in Sort(others, Cheaper) <==> IsOther(interfaces, r)
    {
      AllConnectedAre(interfaces, linkTargets, r);
      AllOthersAre(interfaces, r);
      assert r in Sort(others, Cheaper) <==> r in multiset(others);
    }
  }

  // ---- The order of the walk ------------------------------------------------------------------

  lemma {:induction false} MatchingFromCheapOn(routes: seq<NodeRoute>, dest: IpAddr)
    requires FromCheapOn(routes)
    ensures FromCheapOn(Matching(routes, dest))
  {
    hide NoDearer, Route.LeadsTo;
    if routes != [] {
      var rest := Matching(routes[1..], dest);
      MatchingFromCheapOn(routes[1..], dest);
      MatchingAreRoutes(routes[1..], dest);
      forall j | 0 <= j < |rest|
        ensures NoDearer(routes[0], rest[j])
      {
        assert rest[j] in rest;
        var i :| 0 <= i < |routes[1..]| && routes[1..][i] == rest[j];
        assert routes[i + 1] == rest[j];
      }
    }
  }

  /** Connected routes through address `via` stand for the network of that address. */
  lemma {:induction false} ConnectedAreFree(addresses: seq<Cidr>, linkTargets: map<IpAddr, IpAddr>, dest: IpAddr)
    requires forall i :: 0 <= i < |addresses| ==> addresses[i].Valid()
    ensures forall r :: r in ConnectedRoutes(addresses, linkTargets) ==>
              && r.route.cost == 0 && r.via in linkTargets && r.route.next == linkTargets[r.via]
              && exists c :: c in addresses && c.Valid() && r.via == V4(c.address)
                             && (r.route.LeadsTo(dest) <==> SameBitsFrom(32 - c.prefix, dest.bits, c.address))
  {
    hide SameBitsFrom, IpRange.Contains, FromCidr;
    if addresses != [] {
      var init, last := addresses[..|addresses| - 1], addresses[|addresses| - 1];
      ConnectedAreFree(init, linkTargets, dest);
      RangeIsPrefixMatch(last, dest.bits);
      assert last in addresses && forall c :: c in init ==> c in addresses;
    }
  }

  /**
   Walking the routes of a node towards `dest` visits the connected routes that lead there, and then
   the others that do, all of them and no more, from cheap to expensive.
   */
  lemma WalkOrder(interfaces: seq<Interface>, linkTargets: map<IpAddr, IpAddr>, dest: IpAddr)
    returns (first: seq<NodeRoute>, rest: seq<NodeRoute>)
    requires ValidInterfaces(interfaces)
    ensures Matching(AllConnected(interfaces, linkTargets) + Sort(AllOthers(interfaces), Cheaper), dest) == first + rest
    ensures forall r :: r in first <==> IsConnected(interfaces, linkTargets, r) && r.route.LeadsTo(dest)
    ensures forall r :: r in rest <==> IsOther(interfaces, r) && r.route.LeadsTo(dest)
    ensures FromCheapOn(rest)
  {
    hide IsConnected, IsOther, Sort, Route.LeadsTo;
    var connected, others := AllConnected(interfaces, linkTargets), Sort(AllOthers(interfaces), Cheaper);
    RoutesAre(interfaces, linkTargets);
    MatchingAppend(connected, others, dest);
    MatchingAreRoutes(connected, dest);
    MatchingAreRoutes(others, dest);
    MatchingFromCheapOn(others, dest);
    first, rest := Matching(connected, dest), Matching(others, dest);
  }
}
