# A verified model of the in-memory network and its replay verifier

The repository has a simulator of IP networks (`in-memory-network/src/network`) that logs what it does, and an
independent program (`in-memory-network/src/tracing/simulation_verifier.rs`) that replays such a log and reports
what looks wrong. The two are meant to agree on every run. This project models both, step by step and branch by
branch, and proves that they do, together with the laws that each of them keeps on its own.

## How the model is built

**The network** is a transition system (`Network.dfy`). The runtime has one thread, so the code between two awaits
is one step at one moment in time. A state holds what the tasks and the shared objects hold between steps; an
`Action` names a step together with everything the program does not decide itself: random rolls, fresh packet ids,
what applications send and read, which events happen, when tasks are scheduled and when the clock moves. All
statements about runs are for every topology and every sequence of actions: no scheduling order, no arrival order
and no script of events is assumed. `InMemoryNetwork.dfy` has the program's own shape, objects whose methods change
them in place (with `Node.dfy`, `NetworkLink.dfy`, `OutboundBuffer.dfy`, `InboundQueue.dfy`, the pacer and the
tracer); each of its methods is proved to do what the function of the same step says. `Execution.dfy` lets these
objects carry out whole runs, and hands what they recorded to the verifier.

**The verifier** is modelled twice in the same way: `Replay.dfy` says what each step of a log does to a value, and
the class in `SimulationVerifier.dfy` does it in place, with its maps of replayed nodes and links and the error
tracker they share. What its verdict has to be is told from the log alone in `LogHistory.dfy`, for logs of any kind;
`LogVerdicts.dfy` and `Reports.dfy` prove that it is that, with all its reports and statistics.

**The log** is where the two programs meet. `PacketLog.dfy` reads off a log where each packet is, and `Ledger.dfy`
says which logs a working network writes (`ProperLog`): where every packet is, which records may follow, and that
buffers are within bounds whenever the clock moves on. `TracedRuns.dfy` proves that every run of the network writes
such a log, `AcceptedLogs.dfy` that the verifier accepts every such log, and `Acceptance.dfy` draws the conclusions.
`BufferReports.dfy` treats the bytes in nodes for logs of any kind. Between them stand invariants of the network that
matter by themselves: `Arrivals.dfy` (what becomes of a packet in a node), `Preferences.dfy` (which links a packet is
offered to, and how they give way), `Queues.dfy` (order, and a single winner), `Buffers.dfy` (capacity), `Places.dfy`
(every packet is in one place), `Reads.dfy` (the order of reading), `Pacing.dfy` (bandwidth), `Termination.dfy`,
`Copies.dfy` and `Lineage.dfy` (TTL), `Destinations.dfy` (which nodes serve applications), and `Offers.dfy`,
`DownSends.dfy` and `Waiting.dfy` (what becomes of a packet held by a node that goes down). `Counterexamples.dfy` has
concrete runs, in networks of the two nodes of `TwoNodes.dfy`.

Time and rates are exact real numbers. A packet that a buffer accepted is known by its ticket, its position in the
list of all packets ever accepted, because its copies in the queues of several links are clones that share one flag.
`ids`, `carried` and the reasons in `handled` are history that the program does not keep. Many proofs start with
`hide`, which keeps definitions that a proof does not need away from the solver.

## Where the code and its documentation disagree

The model follows the code.

- The readme lists "packets are never sent from a node while it is down" among the validated properties. The quick
  path for sending does not look at the node's status; only a link that has to wait also waits for the node. A node
  that goes down without a packet in it keeps the promise (`NoDownSendIfEmpty`). Conversely, when a node is down,
  holds a packet that no clear wiped out, and has a link to send it that is up, is not waiting and has room, the run
  can go on at that very moment to a report of `NodeDownPacketSend` (`HeldPacketsLeave`). `DownSendHappens` is such a
  run. If all its links wait, nothing leaves it until it comes up (`WaitingLinksHold`).
- It also lists that links never exceed their configured bandwidth. A link may exceed it by one batch of its pacer
  and one packet: `LinksKeepTheirRate` and `ReportedBandwidth` give the bound, and in the run of `OvershootHappens` a
  link is reported with twice its bandwidth.
- "Nodes never exceed their configured buffer size" holds of the simulator's own buffer (`BufferConservation`), and of
  what the verifier counts in nodes that no application sends to, or sends from while they are down
  (`NoReportAccuses`). In the other nodes, the verifier also counts packets that wait to be read. `BufferReportsOfRuns`
  says exactly which runs lead to a report, and `BufferReportHappens` has one.
- The verifier compares the time a packet took with the delay in the specification. An event can lower the delay of a
  link that is down, so packets may be called too fast: only if the delay in effect when they were sent was lower
  (`TimedAcceptance`), as in `HasteHappens`.
- A packet that is dropped because of a buffer clear never gives its bytes back to the buffer (`BufferConservation`).
- The simulator loses a packet if its link went down strictly after it was sent; the verifier wants it lost if the
  link went down at that moment or later. `OfflineReportIsExact` says exactly when the verifier complains, and
  `OfflineReportHappens` has a run in which it does.
- The verifier counts packets whose TTL ran out as dropped by an injected failure; the statistic of their own is zero
  for every log (`ZeroTtlIsNeverCounted`).

## Model

| member | source | states |
|---|---|---|
| Acceptance.RunsAreAccepted | in-memory-network/src/tracing/simulation_verifier.rs:264-509 | replaying the log of any run ends without a fatal error; every report is one of the few that the log justifies; leaving buffers apart, the reports are those that the log determines, in order |
| Acceptance.NoReportAccuses | in-memory-network/src/tracing/simulation_verifier.rs:264-463 | no run leads to a report of a disconnected send or receive, an offline send, a missing lost packet, a drop on arrival at a node that is up, or a packet that survived a buffer clear; "received while down" only for packets an application sent from a node that was down; "exceeds its buffer" only for nodes that an application sends to, or sends from while they are down |
| Acceptance.TimedAcceptance | in-memory-network/src/tracing/simulation_verifier.rs:293-318 | if no packet was sent while the delay in effect on its link was below the specified one, nor at the moment of a link-down event of that link, no run leads to a report of a too fast or an offline receive |
| Acceptance.ReportsAreExact | in-memory-network/src/tracing/simulation_verifier.rs:282-463 | for every run, an error other than about buffers is reported if and only if some step of the log calls for it, judged by the log before the step |
| Acceptance.BufferReportsOfRuns | in-memory-network/src/tracing/simulation_verifier.rs:511-525 | for every run, some node is reported to exceed its buffer if and only if, at the end of some timestamp, the packets that are then in some node, by the log, have more bytes than its buffer |
| Acceptance.OfflineReportIsExact | in-memory-network/src/tracing/simulation_verifier.rs:304-318 | for every run, an offline receive is reported if and only if a packet arrives that was sent at the very moment of an event that takes its link down |
| LogVerdicts.VerdictOfLog | in-memory-network/src/tracing/simulation_verifier.rs:264-474 | for every log in order, of any kind: the verifier stops exactly at the first step that is fatal, told from the log before it, with the error that the step calls for; and buffers apart, its reports are, in order, the complaints that the steps call for, each with its condition on the log |
| LogVerdicts.NodeStatistics | in-memory-network/src/tracing/simulation_verifier.rs:474-494 | for every log in order without a fatal error: each of the ten counters of each node has as many packets, and their bytes, as the log has records that count in it (sent, received, received after a higher number, dropped for each reason, duplicated, congested, refused on arrival) |
| LogVerdicts.LinkStatistics | in-memory-network/src/tracing/simulation_verifier.rs:346-360 | for every log in order without a fatal error: the packets and bytes lost on a link are those of the records of a loss there of a packet on its way, and the maximum bandwidth is the largest one in use |
| Reports.ReportIsTold | in-memory-network/src/tracing/simulation_verifier.rs:264-509 | for every log in order, of any kind, the whole report is told from the log: the complaints, whether a buffer is reported, every counter, loss, maximum and peak, or else the fatal error and the complaints up to it |
| Counterexamples.OfflineReportHappens | in-memory-network/src/network/link.rs:101-103 | a concrete run, from the initial state on, whose log makes the verifier report an offline receive |
| Counterexamples.DownSendHappens | in-memory-network/src/network/link.rs:253-267 | a run in which a node goes down with a packet in its buffer, which leaves on the quick path, and is reported |
| Counterexamples.OvershootHappens | in-memory-network/src/network/link.rs:274-350 | a run in which a link of 10000 bit/s is reported with 20000: two packets of 1250 bytes, one second apart |
| Counterexamples.SlowLinkIsFine | in-memory-network/src/tracing/simulation_verifier.rs:813-816 | a run in which a link of 1000 bit/s sends 2000 bits at once: over ten seconds that is 200 bit/s, and nothing is reported |
| Counterexamples.BufferReportHappens | in-memory-network/src/tracing/simulation_verifier.rs:511-525 | a run in which a packet of 28 bytes waits to be read in a node with a smaller buffer, and is reported |
| Counterexamples.HasteHappens | in-memory-network/src/network/mod.rs:286-290 | a run in which an event lowers the delay of a link that is down, and a packet sent later is reported as too fast |
| DownSends.NoDownSendIfEmpty | in-memory-network/src/tracing/simulation_verifier.rs:657-663 | for every run: a node that holds no packet whenever an event takes it down is never reported to send while down |
| DownSends.HeldPacketsLeave | in-memory-network/src/network/mod.rs:695-736 | from every state of a run in which a node is down, holds a packet that no clear wiped out, and has a link for it that is up, not waiting and with room for what the node holds (and every packet in the node's channel has a route), the run can go on, with no time passing and without applications or events, so that the node is reported to send while down |
| Waiting.WaitingLinksHold | in-memory-network/src/network/link.rs:215-251 | in every run, once a node is down and all the links from it wait with a packet, they go on waiting and nothing leaves the node, whatever else happens, until an event brings it up |
| Offers.HeldPacketsAreOffered | in-memory-network/src/network/mod.rs:643-693 | in every run, a packet that a node holds waits in the node's channel, or is in the queue or the task of every link that leads towards its destination |
| Destinations.OnlyEndpointsServe | in-memory-network/src/network/mod.rs:529-570 | in every run, packets wait to be read in a node, or could not be sent from it, only if an application sends a packet to it, or sends from it while it is down |
| Acceptance.ReportedBandwidth | in-memory-network/src/tracing/simulation_verifier.rs:807-841 | for every run and link, the maximum in the statistics is the largest average over the last second (over the last ten seconds below 9984 bit/s) at any send, and at most the bandwidth times (window + 2 ms + the larger of 2 ms and the longest transmission) per window |
| Acceptance.RunsConserveFlow | in-memory-network/src/tracing/simulation_verifier.rs:282-417 | for every run, packets counted as sent are those counted as received or lost, or still in flight |
| TracedRuns.RunsAreTraced | in-memory-network/src/tracing/tracer.rs:65-242 | the log of every run is that of a working network: each record is proper after those before it, and what a node holds fits its buffer whenever the clock moves on, but for nodes that serve an application |
| Arrivals.ArrivalsAreExact | in-memory-network/src/network/mod.rs:529-597 | in every run, what a packet that comes to a node leads to, records, buffer, channel and inbox: refused if the node is down, put in the inbox if it is for it, at its end if its TTL is 1 or less, and else dropped, duplicated or kept as the roll compares with the two ratios, and accepted with one less TTL if and only if it fits |
| Arrivals.RollsDecide | in-memory-network/src/network/mod.rs:556-596 | in every run, a packet that passes through a node that is up is recorded as dropped at random if and only if the roll is below the loss ratio, and as duplicated if and only if the roll is not, but below the sum of the ratios |
| Preferences.OffersAreExact | in-memory-network/src/network/mod.rs:643-693 | in every run, the first packet in a node's channel goes to the end of the queue of each of its links, once for each place that the link has among them, with the link's extra delay if and only if the roll is below its ratio |
| Preferences.PreferredComeFirst | in-memory-network/src/network/mod.rs:711-718 | in every run, a link that sends or drops a packet gave way for it exactly once for each link before it among those the packet is offered to |
| Preferences.SendIsExact | in-memory-network/src/network/link.rs:153-192 | in every run, a packet that is sent is on its way for the delay that the events so far give the link, plus the link's extra delay or nothing |
| TracedRuns.LandsOnTarget | in-memory-network/src/network/mod.rs:762-774 | a packet that was not lost lands at its link's target, no earlier than the delay in effect when it was sent allows, and after every down event unless one coincides with its sending |
| TracedRuns.DepartsWell | in-memory-network/src/network/mod.rs:720-735 | a packet that is sent was in the source of the link, no later clear wiped it out, the link is up, and the bandwidth then observed is within the pacer's allowance |
| TracedRuns.HeldIsInside | in-memory-network/src/tracing/simulation_verifier.rs:730-771 | what the verifier counts in a node that serves no application is what the node's buffer holds |
| AcceptedLogs.ProperLogsAreAccepted | in-memory-network/src/tracing/simulation_verifier.rs:264-509 | every log of a working network replays without a fatal error, to the state and the reports that it determines, with maxima within the buffers |
| AcceptedLogs.ReportsAreJustified | in-memory-network/src/tracing/simulation_verifier.rs:282-463 | the reports on such a log are of five kinds only, each with its reason in the log: for a send while down, the record of the departure and the status that the events before it give the node |
| Deliveries.FirstInFirstOut | in-memory-network/src/network/mod.rs:643-687 | in every run, what went over a link, in log order, are packets that its source accepted, in the order in which it accepted them |
| Deliveries.OneWinner | in-memory-network/src/network/mod.rs:695-736 | in every run, all the copies of an accepted packet lead to at most one transmission, and to none if it was dropped because of a clear |
| Reads.ReadsInOrder | in-memory-network/src/network/inbound_queue.rs:60-113 | in every run, of two packets read from the same port of a node, the one read first arrived no later |
| Deliveries.GoneForGoodInRuns | in-memory-network/src/network/mod.rs:529-597 | in every run, a packet that was read, dropped, lost or refused is never mentioned again |
| Deliveries.WasDownAfterIsExact | in-memory-network/src/network/link.rs:101-151 | in every run, the single timestamp answers `was_down_after` exactly as the whole history of the link does |
| Deliveries.ClearedFromBufferIsExact | in-memory-network/src/network/mod.rs:724-734 | in every run, a packet counts as cleared exactly if some clear of its node came after it was accepted |
| Deliveries.NoClearedPacketLeaves | in-memory-network/src/network/mod.rs:720-735 | in every run, no packet leaves a node that was in it before some clear of the node's buffer |
| Queues.RunIsQueued | in-memory-network/src/network/link.rs:353-372 | in every run, what a link carried, holds and has queued is in the order of acceptance, ahead of what still waits in its source, and a link carried only packets whose flag it had set |
| Places.LocationPartition | in-memory-network/src/network/mod.rs:529-597 | in every run, the packets with a place in the log are exactly those ever made or duplicated, log and state agree on where each is, a packet is in one buffer, link or inbox only, once, and every packet that is not gone is in one |
| Census.CountsAddUp | in-memory-network/src/network/mod.rs:529-597 | in every run, the packet ids ever drawn are as many as the packets in buffers, on links, in inboxes and gone |
| Buffers.BufferConservation | in-memory-network/src/network/outbound_buffer.rs:14-28 | in every run and for every node, capacity is what is available, plus the bytes of the packets held, plus the bytes of those cleared |
| Pacing.AssertionsHold | in-memory-network/src/network/link.rs:160-164 | in every run, whenever a link is about to send a packet nobody handled, the pacer has room for it, on the quick path and after a wait |
| Pacing.QuickPathIsExact | in-memory-network/src/network/link.rs:253-267 | in every run, a link that takes a packet may send it at once if and only if it is up and has carried nothing, or the last batch is over, or that batch and the packet take less than 2 ms; else it waits, until the end of the batch if there is no room |
| Pacing.LinksKeepTheirRate | in-memory-network/src/network/link.rs:274-350 | in every run, for every link and every window of time, what the link carried in the window takes at most the window plus 2 ms plus the larger of 2 ms and the longest single transmission |
| PacketPacer.RateBound | in-memory-network/src/network/link.rs:277-350 | the same bound for a pacer and any sequence of checks and permitted sends at non-decreasing times |
| PacketPacer.PacerIsExact | in-memory-network/src/network/link.rs:289-335 | for any sequence of checks and permitted sends: the batch's delay is what was sent since it was started; a packet may go if and only if nothing was sent, or the batch is over, or its packets and this one take less than 2 ms; else the wait is until its end |
| PacketPacer.RoomAfterWait | in-memory-network/src/network/link.rs:327-335 | after the wait it asked for the pacer has room, and keeps it |
| PacketPacer.WaitIsLeast | in-memory-network/src/network/link.rs:327-335 | at no time before the end of the wait is there room |
| PacketPacer.RoomLasts | in-memory-network/src/network/link.rs:289-304 | room found once is still there later |
| PacketPacer.MaxChangesNothing | in-memory-network/src/network/link.rs:337-344 | the maximum taken when a send is tracked never changes the delay |
| PacketPacer.Pacer.UpdateAndCheckHasRoom | in-memory-network/src/network/link.rs:289-304 | the batch is reset once it was sent, and the answer is whether there is room (as `PacerIsExact` spells out) |
| PacketPacer.Pacer.DurationUntilCanSend | in-memory-network/src/network/link.rs:327-335 | the wait, and the batch it leaves |
| PacketPacer.Pacer.TrackSend | in-memory-network/src/network/link.rs:337-344 | the batch after one more packet |
| ReplayedLink.WindowIsRecentHistory | in-memory-network/src/tracing/simulation_verifier.rs:807-841 | the deque holds exactly the sends of the last second, or of the last ten below 9984 bit/s, its total is their bits, and the stored maximum is over all prefixes |
| ReplayedLink.ReplayedLink.PacketSent | in-memory-network/src/tracing/simulation_verifier.rs:807-841 | the loop over the deque leaves what the function says, and returns the observed bandwidth |
| Termination.PacketStepsDecrease | in-memory-network/src/network/mod.rs:550-597 | every packet step strictly decreases the measure of the work left, and events and the clock do not increase it |
| Termination.WorkRunsOut | in-memory-network/src/network/mod.rs:550-736 | without new packets, a run goes on for at most as many packet steps as the measure of the state it starts from, routing loops and duplication included |
| Copies.CopiesAreBounded | in-memory-network/src/network/mod.rs:550-596 | a datagram sent with TTL T, with all the copies made of it, goes over links at most 2^T - 2 times (never for T = 0) |
| Copies.PacketsAreNumbered | in-memory-network/src/network/mod.rs:503-516 | in every run, the k-th datagram sent enters the network as the packet with number k, which is the first thing its step records |
| Lineage.LineageIsShort | in-memory-network/src/network/mod.rs:550-554 | a packet sent with TTL T, with those it was copied from, goes over at most T - 1 links, has T less the links gone over as its TTL, and the destination, port and size that the application gave |
| FlowConservation.FlowIsConserved | in-memory-network/src/tracing/simulation_verifier.rs:346-417 | for every log in order without a fatal error, sent packets are received, lost or in flight, plus one for each packet sent again while in flight |
| BufferReports.BufferReportIsExact | in-memory-network/src/tracing/simulation_verifier.rs:511-525 | for every log in order without a fatal error, a buffer is reported if and only if some node's peak exceeds its buffer, the peak being a function of the log alone; without a report, the statistics have the peaks |
| BufferReports.BufferReportsAreTrue | in-memory-network/src/tracing/simulation_verifier.rs:511-525 | a report about a buffer names the node's buffer size and a usage that is larger, and no larger than the node's peak |
| LogVerdicts.UsageIsBytesKept | in-memory-network/src/tracing/simulation_verifier.rs:730-771 | for every log in order without a fatal error, the usage that the verifier keeps of a node is the bytes of the packets that the records leave there |
| BufferReports.PeakIsMaximum | in-memory-network/src/tracing/simulation_verifier.rs:267-278 | the peak is the largest number of bytes that the log keeps in the node at the end of a timestamp, and reached at one |
| BufferReports.ZeroTtlIsNeverCounted | in-memory-network/src/tracing/simulation_verifier.rs:692-706 | for every log in order without a fatal error, no node's statistics count a packet as dropped for its TTL |
| BufferReports.LastUpdateIsEarlier | in-memory-network/src/tracing/simulation_verifier.rs:466-470 | the update after the last step always takes place |
| SimulationVerifier.VerifyLog | in-memory-network/src/tracing/simulation_verifier.rs:194-509 | on every list of steps, in any order, `new` and then `verify` come to the verdict on the sorted steps: no failing lookup, no negative difference, no loop that does not end |
| SimulationVerifier.SimulationVerifier.Verify | in-memory-network/src/tracing/simulation_verifier.rs:264-509 | on every list of steps in order, the loop over the steps ends with the report that the functions define, without a missing entry or a negative difference |
| SimulationVerifier.SimulationVerifier.constructor | in-memory-network/src/tracing/simulation_verifier.rs:194-262 | steps in any order are put in order, stably, and the nodes and links are new and distinct |
| SimulationVerifier.SimulationVerifier.UpdateMaxBufferUsage | in-memory-network/src/tracing/simulation_verifier.rs:511-525 | the loop stops at the first node that exceeded its buffer |
| SimulationVerifier.SimulationVerifier.PacketReceived | in-memory-network/src/tracing/simulation_verifier.rs:283-324 | the checks on the arrival of a packet in flight |
| SimulationVerifier.SimulationVerifier.PacketInTransit | in-memory-network/src/tracing/simulation_verifier.rs:362-417 | the checks on a departure |
| SimulationVerifier.SortedIsKept | in-memory-network/src/tracing/simulation_verifier.rs:195-197 | sorting steps that are in order would change nothing |
| ReplayedNode.ReplayedNode.PacketSent | in-memory-network/src/tracing/simulation_verifier.rs:657-683 | what sending does to a replayed node, errors included |
| ReplayedNode.ReplayedNode.PacketDropped | in-memory-network/src/tracing/simulation_verifier.rs:692-706 | which counter each reason for a drop goes to |
| ReplayedNode.ReplayedNode.PacketReceived | in-memory-network/src/tracing/simulation_verifier.rs:618-646 | what receiving does to a replayed node |
| ReplayedNode.StoredWithout | in-memory-network/src/tracing/simulation_verifier.rs:764-771 | the bytes stored never fall short of those of a packet that is removed |
| NetworkEvents.LinkTimeline | in-memory-network/src/network/event.rs:90-150 | once the initial events and all events up to some time have happened, a link has the status of its last status event; without one yet it is down if its first later one sets it up, and up if that sets it down; without any it is up |
| NetworkEvents.NodeTimeline | in-memory-network/src/network/event.rs:152-193 | the same for a node |
| NetworkEvents.InitialStatusForLinks | in-memory-network/src/network/event.rs:90-150 | each link whose status is set later gets exactly one initial event: its own one at time zero, else Down before an Up and Up before a Down; every other link of the specification starts up |
| NetworkEvents.InitialStatusForNodes | in-memory-network/src/network/event.rs:152-193 | the same for nodes: Down before a first Up and Up before a first Down, also at time zero |
| NetworkEvents.NewEvents | in-memory-network/src/network/event.rs:15-28 | events are sorted by time, none is lost, and those at the same time keep their order |
| StableSort.SortIsStable | in-memory-network/src/network/event.rs:20 | equivalent elements keep their order |
| StableSort.SortCorrect | in-memory-network/src/network/node.rs:107 | the result is in order and has the same elements |
| InboundQueue.NextPacketDelivery.Poll | in-memory-network/src/network/inbound_queue.rs:60-113 | what is delivered is due, in the order of arrival times and then numbers, and before all that stays, up to the limit or until nothing is due; queue and deliveries together are what was in the queue; a new sleep lasts until the first arrival of what stays |
| InboundQueue.CompareIsAnOrder | in-memory-network/src/network/inbound_queue.rs:136-155 | the reversed order is total, agrees with equality, and puts the next packet first |
| InboundQueue.TopExists | in-memory-network/src/network/inbound_queue.rs:82-99 | a queue that is not empty has an entry to peek at |
| Routing.WalkOrder | in-memory-network/src/network/node.rs:78-119 | the routes towards a destination are the connected ones that lead there, then all the others that do, each costing at most as much as the next, and with the lower address first at the same cost |
| Preferences.CandidatesInOrder | in-memory-network/src/network/mod.rs:664-670 | the links a packet is offered to are those of the connected routes that lead to its destination, then those of the other routes that do, by ascending cost and then address |
| Routing.NewRoutes | in-memory-network/src/network/node.rs:69-119 | the routes of a node: one for each interface address that a link leaves from, then each route of an interface through each of its addresses, from cheap to expensive; a node needs an interface with an address |
| Routing.ConnectedAreFree | in-memory-network/src/network/node.rs:84-97 | a connected route costs nothing and leads to the addresses with the prefix of its interface |
| Routing.CollectLinks | in-memory-network/src/network/mod.rs:478-501 | walking visits exactly the links of the matching routes, in order, or fails at the first link that does not exist |
| Routing.HasRouteTo | in-memory-network/src/network/mod.rs:469-475 | the answer is yes exactly if the walk visits something |
| Cidr.RangeIsPrefixMatch | in-memory-network/src/network/route.rs:13-39 | an address is within the range of a block exactly if it differs from the block's address in the bits after the prefix only (section 3.1 of RFC 4632), for prefixes 1 to 32 |
| InMemoryNetwork.InMemoryNetwork.constructor | in-memory-network/src/network/mod.rs:94-178 | the objects are distinct and as in the initial state |
| InMemoryNetwork.InMemoryNetwork.Forward | in-memory-network/src/network/mod.rs:529-597 | what arriving in a node does, in place |
| InMemoryNetwork.InMemoryNetwork.OfferToLinks | in-memory-network/src/network/mod.rs:643-687 | one round of a node's buffer processor: the loop puts one copy in the queue of each candidate link |
| InMemoryNetwork.InMemoryNetwork.TakePacket | in-memory-network/src/network/mod.rs:695-709 | a link's task takes a packet and may have to wait; asking twice for bandwidth gives the same answer |
| InMemoryNetwork.InMemoryNetwork.FinishRound | in-memory-network/src/network/mod.rs:720-735 | the packet is left alone, dropped or sent; that the pacer has room and the link is up is required of the caller |
| InMemoryNetwork.InMemoryNetwork.ForwardFromLink | in-memory-network/src/network/mod.rs:762-774 | the next due packet is taken out of the link's queue, and is lost, or goes on from the link's target |
| Execution.Perform | in-memory-network/src/network/mod.rs:503-777 | the objects carry out any step that is possible in the state of a run, and are then in the state of the longer run: that the pacer has room to send is proved, not asked for |
| Execution.Execute | in-memory-network/src/network/mod.rs:94-777 | every run can be carried out from new objects on, which end in the state that the run leads to |
| Execution.ForwardPackets | in-memory-network/src/network/mod.rs:747-777 | all packets due on a link are taken out of its queue and forwarded one after the other: that is the same as landing them one by one, each when it is the next, and no due packet stays behind |
| Execution.Simulate | in-memory-network/src/tracing/simulation_verifier.rs:194-509 | for every run carried out, the verifier comes to an end on what was recorded, with the justified reports only |
| InMemoryNetwork.InMemoryNetwork.ProcessLinkEvent | in-memory-network/src/network/mod.rs:234-299 | an event changes the status of a link, and its delay only while the link is down |
| InMemoryNetwork.InMemoryNetwork.ProcessNodeEvent | in-memory-network/src/network/mod.rs:216-232 | an event changes the status of a node and clears its buffer |
| InMemoryNetwork.InMemoryNetwork.SendUdp | in-memory-network/src/network/mod.rs:503-522 | an application sends a packet, which gets the next number |
| NetworkLink.NetworkLink.Send | in-memory-network/src/network/link.rs:153-192 | the pacer tracks the packet and it is in transit, under the program's assertions |
| NetworkLink.NetworkLink.UpdateStatus | in-memory-network/src/network/link.rs:125-151 | only going from up to down sets the timestamp |
| NetworkLink.NetworkLink.HasBandwidthAvailable | in-memory-network/src/network/link.rs:253-267 | the link is up and the pacer has room; the node's status plays no part |
| Node.Node.EnqueueOutbound | in-memory-network/src/network/node.rs:154-168 | the packet is accepted exactly if its bytes are available, and they are then taken |
| OutboundBuffer.OutboundBuffer.Reserve | in-memory-network/src/network/outbound_buffer.rs:14-24 | space is taken exactly if there is enough, and nothing changes otherwise |

## Left out

- Scheduling, wakers, channels and timers: tasks are steps with guards, which may be taken in any order and at any time from the moment they are possible. Nothing is claimed about fairness, about the cheapest link being the one that wins, or about prompt delivery.
- The semaphore of a link: only the link's own task ever takes it, so it is never contended.
- The waits of a link's task, for its link and then for its node (link.rs:221-250), are one guard when it wakes: the link is up, and the node is up or came up at that very moment. The model does not say which of the two came first.
- The assertion that the link is up when it sends (link.rs:165) is the guard of the step that sends: a link that went down between the end of its task's wait and the send makes the program stop, and the run end, there.
- The buffer processor of a node without a route to some destination, or with a route along a link that does not exist, stops with an error: in the model, no packet leaves such a node by that route.
- Building the topology and the verifier's metadata from a specification, and the errors about conflicting ids and addresses: `AcceptedLogs.Describes` says what both programs take from it.
- `assert_connectivity_between_nodes` reads packets without a record, so runs that start with it are not covered.
- Packets that wait in a node are in one inbox; the code has one queue for each port. Which packet may be read next is decided by port.
- Ids: the model draws fresh ones, where the code takes 128 random bits. Random ratios are compared with arbitrary rolls.
- The order in which the verifier iterates over its nodes is arbitrary but fixed. Which node is reported when several exceed their buffers at once depends on it.
- Floating point and integer widths: `packet_delay` rounds, counters and TTLs have 64 and 8 bits.
- IPv6, segment sizes, packet contents, ECN marks (the simulator never logs them), packet capture, log files and printing.
- QUIC, TLS and congestion control, the command line, configuration files, and the drivers and statistics built on the network.
- Cidr.RangeIsPrefixMatch: does not cover a prefix of 0, which the parser refuses and for which the shift in `from_cidr` would overflow.
