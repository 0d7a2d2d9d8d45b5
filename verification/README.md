# Verification of goIGMP

A Dafny model of goIGMP, a user-level IGMP proxy and client, and of its example
membership reporter, with proofs about every run of their goroutines.
`dafny verify dfyconfig.toml` checks the whole project.

## What is modelled

**The client membership protocol** (`ClientProtocol.dfy`). A supervisor starts gratuitous
reporters through a one-place token channel and answers queries itself; each reporter's tick
walks localStreams, enqueues the groups to leave on one bounded channel and then the groups to
report on another; two workers drain the channels to the wire independently. One action is one
atomic step of one goroutine or of the environment, every choice is in the action, and the
environment changes localStreams at will, also during a walk. `LeaveDiff` holds the diff of two
ticks, `Ledger` the ledgers kept from enqueued events and from packets, `ClientInvariants` what
every step keeps; `ClientTheorems`, `ClientHistory`, `ClientSupervisor`, `ClientCommutation` and `ClientWakeup` hold
the results, `ClientCounterexamples` the runs that show where they end, and `ClientDrains`,
`ClientWakeupExact` and `ClientBlocking` exactly where that is.

**The library** (`Setup.dfy`, `Library.dfy`). Every goroutine that Run can start for any
configuration: multicast receivers, the unicast receiver, the route selector and the channel
workers, over one shared route map, one shared buffer pool and bounded channels, with panics and
uses of unopened handles as outcomes. `Move` is a goroutine's step, with the code's branches.
`Buffers`, `BufferTheorems` and `Losses` are about the pool; `MulticastLaws`, `Acceptance`, `Forwarding`, `Routing`,
`Reflection` and `AtMostOnce` about which packets are taken and where they go; `Destinations` about addresses; `Handles`,
`HandleWitnesses`, `Panics` and `Modes` about configurations; `LibraryLanes` and `Inbound` about the channels;
`Shutdown` about cancellation.

**The loops themselves**, as the code writes them: `Construction` (the constructor, the socket maps
and Run), `MulticastLoop` and `UnicastLoop` (the receivers, over byte arrays filled in place and the
pool of `BytePools`), `WorkerLoops`, `SelectorLoop`, `SupervisorLoop`, `GratuitousLoop` and `Records`.
Each method is proved against a specification, and the specifications are tied to the two machines:
in every run each iteration of a receiver is a turn of its loop (`OwnSteps`, `MulticastIterations`,
`UnicastIterations`), a worker of the library is a lane of the client protocol (`WorkerLoops`), and
what a reporter enqueues in any run is what its loop enqueues (`ClientHistory`).

**Both together** (`EndToEnd.dfy`): what a client enqueues is what the outside hears through a proxy;
`EndToEndWitness.dfy` shows that its assumptions can be met for every IPv4 group.

## Where the code and expectations part

The model follows the code:

- Methods have value receivers, so a querier address learned at goIGMP_recv.go:172 stays in that
  goroutine's copy. The comment at goIGMP.go:52 says that the query's source is used; no packet ever
  goes there (`Destinations`, `ReportIgnoresQuerier`).
- Forwarding writes the whole 200-byte buffer, including bytes of older packets (`ForwardedPayload`).
- A multicast receiver keeps the buffer of each accepted packet that it does not proxy, and the unicast
  receiver that of all but version 3 reports; a client loses one buffer for each accepted packet, and every
  documented mode can lose one (`LosesExactly`, `Modes.EveryModeLoses`).
- `conRaw[ALTOUT]` is never opened, so the documented modes with two outside interfaces crash when
  something is forwarded after the alternative has been selected (`Modes.TwoOutsides`).
- The selector ignores cancellation, so Run does not return where it was started.
- A read error other than a timeout makes the unicast receiver process the stale buffer (`StaleReportResent`,
  `StaleExactly`).
- A failed cast of a version 1 or 2 layer is logged and the layer is used all the same, so the process panics
  (`PanicsExactly`).
- The self-source test at goIGMP_recv.go:109 compares values of different types and never fires, so it is
  not a branch of the model.
- Leave lists are sent at every tick, also when empty; a reporter that sees the end of the context
  sends no leave for what it holds.
- An interface index shared by two sides belongs to the later side, so the example client, which uses
  one interface for both, accepts nothing on the inside.

The token and the lanes are kept in every run, and the ledger and the join/leave balance in every run until
cancellation. What fails in general is stated with its exact condition:

- The channels commute exactly while no enqueue names a group pending on the other channel.
- A stream whose notification is discarded keeps the running reporter going exactly if that reporter can
  still list it, or is held up by a leave channel that is full for good.
- A failed read sends the stale buffer exactly if it decodes, has a route to a side with a connection, and starts
  with a kind that is forwarded and fits what it decodes to.
- No buffer is ever lost exactly if nothing is received by unicast and every side on which packets can be accepted
  is proxied; and packets can be accepted on a side exactly if it is listened on and visible, and the alternative
  outside also only if it can be selected and read from.
- A producer is stuck, and then for good, exactly when its worker has stopped and its queue is full, which
  only cancellation brings about.
- A reporter leaves nothing joined at its end exactly if its last list was empty, which only cancellation prevents.
- A packet is forwarded from a side exactly if it can be accepted there and the side is proxied.
- No run panics on what a decoder answers or on an item without an address exactly if nothing is accepted, received
  by unicast or sent from a channel.
- Handles are open, and forwards cross between inside and outside, exactly under the stated conditions on
  configuration and selected sides.

## Model

| member | source | states |
|---|---|---|
| LeaveDiff.FindGroupsToLeave | example/membership_reporter.go:221-236 | the map-and-loops code picks exactly the items of the previous list whose group the current list lacks, in order and with repetitions |
| LeaveDiff.LeavesPickAbsent | example/membership_reporter.go:221-236 | the diff meets its declarative description: increasing positions, all and only the absent groups |
| LeaveDiff.PicksAbsentUnique | example/membership_reporter.go:229-233 | nothing else meets that description |
| LeaveDiff.LeavesGroups | example/membership_reporter.go:221-236 | the groups left are the previous minus the current ones, and with the current ones cover the previous |
| LeaveDiff.JoinsAndLeavesBalance | example/membership_reporter.go:144-178 | over ticks ending with an empty one, a group is left once per maximal stretch of ticks listing it |
| ClientInvariants.InvAlongRun | example/membership_reporter.go:47-184 | every reachable state keeps token count, reporter histories, ledger and channel order |
| ClientTheorems.SingletonToken | example/membership_reporter.go:64-180 | the token count is the number of reporters spawned and not past their release, at most one, and a release never blocks |
| Ledger.JoinedIsLatest | example/membership_reporter.go:140-168 | a group is joined exactly if the latest event that names it is a report |
| ClientTheorems.MembershipLedger | example/membership_reporter.go:140-168 | at a loop head before cancellation the groups joined by ticks are those of previousGroups and any surplus was last named by a query reply; without replies the groups whose latest event is a report are exactly those of previousGroups |
| ClientTheorems.EmptyLedgerWithoutReporter | example/membership_reporter.go:64-84 | before cancellation, with no reporter running, ticks account for no group and any joined group was last named by a query reply |
| ClientTheorems.NoLeaveWithoutTick | example/membership_reporter.go:309-325 | a group that ticks do not account for gets no leave before a later tick reports it |
| ClientTheorems.EndsOnEmptyTick | example/membership_reporter.go:155-176 | unless cancelled, a reporter ends only on a tick that lists nothing |
| ClientTheorems.JoinLeaveConservation | example/membership_reporter.go:144-178 | a reporter that ended on an empty tick left each group at as many ticks as it had stretches |
| ClientTheorems.LaneConservation | example/membership_reporter.go:260-305 | on each channel, sent then in hand then queued is the enqueue history, and the queue respects its capacity |
| ClientTheorems.StepsToReceive | goIGMP_membership.go:31-42 | between two receives a worker takes exactly the steps its slice asks for |
| ClientTheorems.NoStuckProducer | example/membership_reporter.go:260-305 | a blocked producer can go on or its worker can step, and the worker's next receive is bounded by its slice |
| ClientHistory.ReporterEnqueuesItsTicks | example/membership_reporter.go:144-178 | in every run a reporter has enqueued exactly the leaves and lists of its ticks, in order |
| ClientHistory.LeavesPerStretch | example/membership_reporter.go:144-178 | the leave events a reporter enqueued for a group are as many as the stretches of ticks listing it |
| ClientHistory.JoinedAtTheEnd | example/membership_reporter.go:144-180 | a reporter that ends leaves joined the groups of its last list, so none exactly if it built none or the last is empty, as is always so before cancellation |
| ClientHistory.EveryAnswerIsEnqueued | example/membership_reporter.go:86-100 | the replies enqueued, then the pending one, are the non-empty lists with which queries were answered |
| ClientCommutation.ChannelsCommute | goIGMP_leave.go:21-41 | with lanes idle at each leave and reply, every interleaving of the workers leaves the ledger of the enqueue order |
| ClientDrains.DrainsExist | goIGMP_leave.go:21-41 | some interleaving of the workers drains a running client exactly if its workers are there and every pending item has an address |
| ClientDrains.DrainsAgreeWhenBalanced | goIGMP_leave.go:21-41 | every interleaving drains to the ledger of the enqueue order if and only if the pending reports and leaves are disjoint and add up to it with the wire |
| ClientDrains.EnqueueCommutes | example/membership_reporter.go:155-162 | from such a state, an enqueue keeps it so if and only if it names no group that the other channel has pending |
| ClientDrains.ChannelsCommuteExactly | example/membership_reporter.go:155-162 | the channels commute at every point of a run if and only if none of its enqueues names a group that the other channel has pending |
| ClientCounterexamples.ReportOvertakenByLeave | example/membership_reporter.go:155-162 | without idleness an older report reaches the wire after the leave and the group stays joined |
| ClientWakeup.DiscardMeansLive | example/membership_reporter.go:72-84 | a notification is discarded only while exactly one reporter is live |
| ClientWakeup.RebuiltUnlessFinal | example/membership_reporter.go:147-180 | before cancellation a reporter that comes to its release without ticking after a discard was then in, or past, a rebuild with nothing collected, built at most that one list more, and its last list is empty |
| ClientWakeup.WakeupNotLost | example/membership_reporter.go:72-84 | along a run, a reporter that can still list a stream at the discard runs on for as long as the stream stays |
| ClientWakeup.RebuildLists | example/membership_reporter.go:190-213 | a rebuild lists an item of every stream that is there throughout |
| ClientWakeup.RebuildListsOnly | example/membership_reporter.go:190-213 | a rebuild lists nothing but items that streams had while it lasted |
| ClientSupervisor.StartedByNotifications | example/membership_reporter.go:58-84 | in every run the reporters started and the tokens held are those the supervisor's loop counts for the run's notifications and releases, in order |
| ClientSupervisor.NotificationsDecided | example/membership_reporter.go:55-109 | every notification is decided about once, and no query and no report from the network leads to a start |
| ClientSupervisor.EndOnlyWhenCancelled | example/membership_reporter.go:111-118 | the supervisor and the two workers end only once the context is cancelled |
| ClientSupervisor.AnswerLists | example/membership_reporter.go:86-100 | the answer to a query lists an item of every stream that is there throughout |
| ClientSupervisor.AnswerListsOnly | example/membership_reporter.go:86-100 | the answer lists nothing but items that streams had meanwhile |
| ClientWakeupExact.WakeupKeptExactly | example/membership_reporter.go:72-180 | in every reachable state before cancellation, the live reporter goes on for as long as a stream stays if and only if it can still list that stream, or is short of its release while the leave channel is full and its worker's list ends the process |
| ClientCounterexamples.WakeupLost | example/membership_reporter.go:167-180 | between the last rebuild and the release a wake-up is lost |
| ClientCounterexamples.CancelledWithoutLeave | example/membership_reporter.go:169-180 | a cancelled reporter leaves its groups joined |
| ClientBlocking.StuckExactly | example/membership_reporter.go:260-305 | a blocked producer and its worker can both do nothing if and only if the worker has stopped and the queue is full, on either channel |
| ClientBlocking.StuckForGood | example/membership_reporter.go:278-304 | a producer stuck in this way stays stuck whatever happens |
| ClientBlocking.SupervisorStuck | example/membership_reporter.go:86-100 | after cancellation the supervisor can come to be stuck with a reply |
| ClientBlocking.ReporterStuckOnReports | example/membership_reporter.go:159-162 | after cancellation a reporter can come to be stuck with a report |
| ClientBlocking.ReporterStuckOnLeaves | example/membership_reporter.go:157 | after cancellation a reporter can come to be stuck with its leaves |
| GratuitousLoop.BuildMembershipItems | example/membership_reporter.go:190-213 | the list holds the item of each key, sources included, once, in the order of the walk |
| GratuitousLoop.GratuitousReporter.FindAndLeaveGroups | example/membership_reporter.go:309-325 | the leaves are sent as the protocol's reporter sends them |
| GratuitousLoop.GratuitousReporter.Tick | example/membership_reporter.go:148-167 | one tick extends the reporter's history and stops the loop exactly when nothing is listed |
| GratuitousLoop.GratuitousReporter.Loop | example/membership_reporter.go:144-178 | the loop sends, list by list up to the first empty one, the leaves and then the list |
| GratuitousLoop.EnqueuesJoinLast | example/membership_reporter.go:144-178 | whatever the ticks, what they enqueue joins exactly the groups of the last list |
| SupervisorLoop.Supervisor.Notified | example/membership_reporter.go:58-84 | a reporter is started exactly if none holds the token, as the protocol's supervisor decides |
| SupervisorLoop.Supervisor.Answer | example/membership_reporter.go:86-100 | a query is answered with the list, once, unless it is empty, by the moves of the protocol's supervisor |
| SupervisorLoop.Supervisor.Loop | example/membership_reporter.go:47-119 | starts and releases are exactly what the notifications and releases call for, tokens are their difference and at most one, and each query has its reply, until the context ends |
| Records.AddressRoundTrip | goIGMP.go:539-556 | slices of 4 or 16 bytes and valid addresses convert into each other and back |
| Records.GroupRecordsToMembershipItem | goIGMP_recv.go:306-338 | record conversion keeps groups and sources in order, and fails exactly when some slice is not an address |
| Construction.MakeIPMaps | goIGMP.go:486-535 | codes 0, 1, 2 and 22 stand for 0.0.0.0, 224.0.0.1, 224.0.0.2 and 224.0.0.22, and the maps between codes and addresses are inverse to each other |
| Construction.IGMPReporter.CreatePacketConns | goIGMP_socket.go:39-61 | opens the missing ones of 224.0.0.1, 224.0.0.2 and 224.0.0.22 on a side, once each, and nothing when all are open |
| Construction.IGMPReporter.NameInterfaces | goIGMP.go:247-268 | the initial route, the sides and the outside interfaces |
| Construction.IGMPReporter.IndexInterfaces | goIGMP.go:320-324 | an interface index shared by sides belongs to the later one |
| Construction.IGMPReporter.constructor | goIGMP.go:182-387 | a handle is open exactly if the configuration calls for it, and none is opened twice |
| Construction.IGMPReporter.Run | goIGMP.go:389-462 | starts exactly the configured goroutines and counts each once |
| Buffers.InvAlongRun | goIGMP_recv.go:16-68 | buffers pooled, dropped, lost and in hand are disjoint, no buffer has two holders, and contents follow the reads |
| BufferTheorems.ForwardedPayload | goIGMP_proxy.go:20-27 | a forwarded payload has length 200, each byte that of the most recent read reaching it: the message's own bytes up to its end or to 200, so it equals the message only at that length |
| BufferTheorems.UsedWhileHeld | goIGMP_recv.go:56-68 | a buffer is filled, forwarded, returned or lost only by its one holder, and taken only when nobody holds it |
| BufferTheorems.BufferAccounting | goIGMP_recv.go:56-261 | buffers taken are those returned, those lost and those still held |
| BufferTheorems.UnreturnedAreWithoutPut | goIGMP_recv_unicast.go:89-179 | over every run the buffers taken and neither returned nor in hand are as many as the iterations on the paths without a Put |
| BufferTheorems.EveryAcceptedPacketCostsABuffer | goIGMP_recv.go:174-261 | without proxying every accepted packet costs a buffer |
| Losses.LosesExactly | goIGMP_recv.go:236-261 | no run loses a buffer if and only if there is no unicast receiver and every side on which a packet can be accepted is proxied |
| BytePools.ReadInto | goIGMP_recv.go:56-57 | a read overwrites the front of the buffer and leaves the rest |
| MulticastLoop.MulticastReceiver.Receive | goIGMP_recv.go:46-261 | one turn's packet, channel send, querier and the fate of its buffer |
| MulticastLoop.MulticastReceiver.Loop | goIGMP_recv.go:35-267 | all turns until the context ends or one fails, each in a pooled buffer as an earlier turn put it back or in a new one, with the packets sent, the channel sends, the querier and the pool at the end |
| MulticastIterations.EveryIterationIsATurn | goIGMP_recv.go:36-266 | in every run, whatever other goroutines do meanwhile, each iteration of a multicast receiver is the turn of its loop for what its own steps read, decoded and found: packet sent on, channel send, querier, buffer and status |
| MulticastLaws.AcceptsExactlyQualifying | goIGMP_recv.go:74-163 | an iteration accepts a packet if and only if it read one on the side's interface index, for the receiver's group, that decodes to a layer of its type, while its side was the last one stored if there are two outsides |
| MulticastLaws.InactiveSideIsSilent | goIGMP_recv.go:283-302 | with two outsides, while a side is not the last one stored its receivers accept nothing, forward nothing and tell the application nothing |
| MulticastLaws.ForwardsExactlyAccepted | goIGMP_recv.go:245-281 | an iteration forwards if and only if it accepted a packet, its side is proxied and nothing fails: one frame, from outside to inside or from inside to the last side stored, to the receiver's group |
| MulticastLaws.TellsExactlyNews | goIGMP_recv.go:163-235 | an iteration sends the application exactly the notice or list of the packet it accepted, if there was room, and knows a new querier exactly if it accepted a query |
| MulticastIterations.TurnGoesOn | goIGMP_recv.go:46-261 | at every point of a turn the machine has the loop's next step, whatever is read, decoded, or found in a channel |
| UnicastLoop.UnicastReceiver.Receive | goIGMP_recv_unicast.go:42-137 | one turn of the unicast loop, stale buffer after a failed read included |
| UnicastLoop.UnicastReceiver.Loop | goIGMP_recv_unicast.go:31-138 | all turns until the context ends or one fails, each in a pooled buffer as an earlier turn put it back or in a new one, with the packets sent and the pool at the end |
| UnicastIterations.EveryIterationIsATurn | goIGMP_recv_unicast.go:32-137 | in every run each iteration of the unicast receiver is the turn of its loop for what its own steps read, decoded and found: packet sent on, buffer and status |
| UnicastIterations.SendsExactly | goIGMP_recv_unicast.go:52-137 | an iteration sends one packet if and only if its read did not time out, the buffer decodes to a message of a forwarded type, and there is a route to a side with a connection; it gives the buffer back exactly on the paths that do |
| UnicastIterations.StaleExactly | goIGMP_recv_unicast.go:52-62 | an iteration whose read failed sends a packet if and only if the stale buffer decodes, there is a route to a side with a connection, and its first byte is a forwarded kind that fits the layer; what it sends is the stale buffer |
| UnicastIterations.TurnGoesOn | goIGMP_recv_unicast.go:42-137 | at every point of a turn the machine has the loop's next step, whatever is read and decoded |
| WorkerLoops.ChannelWorker.Send | goIGMP_send_membership_report.go:29-84 | one packet for each item in order, up to the first without an address, which is fatal |
| WorkerLoops.ChannelWorker.Drain | goIGMP_membership.go:24-45 | the packets of all lists received before the context ends |
| WorkerLoops.WorkersAgree | goIGMP_leave.go:21-112 | a library worker does exactly what the client protocol says its lane does, with packets of the lane's type |
| LibraryLanes.LibraryLaneConservation | goIGMP_leave.go:21-112 | whoever enqueues, on each channel sent then in hand then queued is what was enqueued, and the queue is within the channel's capacity |
| Inbound.InboundConservation | goIGMP_recv.go:174-235 | on each of the two channels to the application what the accepted packets told is, in order, what was taken and then what is queued, within the channel's capacity |
| Inbound.DroppedOnlyWhenFull | goIGMP_recv.go:175-183 | the news of an accepted packet is dropped only when its channel is full |
| Inbound.SentWhenRoom | goIGMP_recv.go:204-211 | with room, the step that filters a packet with news sends it and cannot drop it |
| SelectorLoop.OutInterfaceSelector | goIGMP_out_selector.go:9-31 | the route from the inside is the last side received, and the other entry is untouched |
| Routing.RouteWithoutReflection | goIGMP_out_selector.go:15-22 | the route is the last value stored or OUT, nothing from ALTOUT is forwarded, and with outside inputs every forward crosses |
| Reflection.NoReflection | goIGMP_recv.go:245-281 | every forward crosses between inside and outside if and only if the inside cannot be selected, forwarded from and written to |
| AtMostOnce.AtMostOnceProcessing | goIGMP_recv.go:74-131 | at most one receiver accepts a packet, it is forwarded at most once, and not at all when it is for no started receiver |
| AtMostOnce.StrayPacketIsForNobody | goIGMP_recv.go:92-131 | a packet for another group or on an unknown interface is for no receiver |
| Forwarding.ForwardsExactly | goIGMP_recv.go:245-281 | some run forwards a packet from a side if and only if packets can be accepted there and the configuration proxies from it |
| Acceptance.AcceptsExactly | goIGMP_recv.go:74-131 | some run accepts a packet at a receiver of a side if and only if the side is listened on, its interface index is not taken for another side and, if it is the alternative outside, it can be selected and read from |
| Acceptance.InsideAcceptsExactly | goIGMP.go:320-324 | some run accepts a packet at an inside receiver if and only if the inside is proxied and no outside shares its interface index |
| Destinations.PrivateQuerierCopies | goIGMP_ipv4Header.go:52-75 | every packet meant for the querier goes to the configured unicast destination; reports and version 3 forwards otherwise go to 224.0.0.22, leaves to 224.0.0.2, forwarded version 1 and 2 reports to the group they decode to, and what a multicast receiver forwards to its own group |
| LibraryCounterexamples.ReportIgnoresQuerier | goIGMP_recv.go:168-172 | a learned querier is not where the report goes |
| LibraryCounterexamples.StaleReportResent | goIGMP_recv_unicast.go:52-62 | a failed read resends the previous report |
| LibraryCounterexamples.Reflected | goIGMP_recv_unicast.go:97-109 | with the inside selected a datagram from the inside is sent back to the inside |
| HandleWitnesses.HandleReadiness | goIGMP.go:328-448 | no run uses an unopened handle if and only if leaves, the alternative outside and every selectable side are covered |
| Panics.PanicsExactly | goIGMP_recv.go:185-197 | no run ends in a failed cast or an item without an address if and only if there are no unicast receiver, report worker or leave worker and no side on which packets can be accepted |
| HandleWitnesses.LeaveCrashes | goIGMP_leave.go:100-105 | leaves alone write through an outside connection that nobody opened |
| HandleWitnesses.AlternativeCrashes | goIGMP.go:405-411 | an alternative outside with notifications only reads from connections that nobody opened |
| HandleWitnesses.UnicastCrashes | goIGMP_proxy.go:48-55 | the unicast receiver writes to a selected side without a connection |
| HandleWitnesses.MulticastCrashes | goIGMP_proxy.go:22-29 | a multicast receiver writes to a selected side without a connection |
| Modes.OneOutsideIsSafe | README.md:62-138 | in the documented client mode and proxy mode with one outside no run uses an unopened handle and every forward crosses |
| Modes.TwoOutsides | README.md:77-107 | the documented modes with two outsides are safe exactly while the alternative is never selected, and reflect exactly if the inside can be |
| Modes.EveryModeLoses | README.md:62-138 | each documented mode has a run that loses a buffer |
| Shutdown.WaitGroupCountsLive | goIGMP.go:397-465 | the wait-group counter is the number of goroutines that have not exited |
| Shutdown.ShutdownIsBounded | goIGMP_recv.go:36-44 | after cancellation with nothing more enqueued the workers take at most as many steps as there is work left |
| Shutdown.NoWorkerIsStuck | goIGMP_membership.go:31-45 | after cancellation a worker that has not exited can step |
| Shutdown.ExitsOnlyWhenCancelled | goIGMP_recv.go:36-44 | a goroutine returns only once the context is cancelled |
| Shutdown.RunNeverReturnsWithSelector | goIGMP_out_selector.go:15-31 | where the selector was started the counter never reaches zero |
| Shutdown.RunReturnsExactlyWithoutSelector | goIGMP.go:464-465 | when the workers have run out of steps the counter is zero exactly if no selector was started |
| EndToEnd.Translates | goIGMP_recv_unicast.go:97-150 | however the proxy interleaves, its unicast receiver turns each message read into one frame, in order |
| EndToEnd.EndToEndTranslation | goIGMP_send_membership_report.go:29-84 | a drained client's items reach the outside one version 2 report each, to the item's group, and one leave each, to 224.0.0.2, in queue order, and nothing else from the unicast receiver (section 9 of RFC 2236) |
| EndToEndWitness.ReportTranslated | goIGMP_recv_unicast.go:97-150 | for every IPv4 group a client's report passes through a unicast proxy and is heard once, meeting the assumptions of the end-to-end result |

## Left out

- Socket creation, group joins, control messages and interface lookup are foreign calls; a handle is only open or not, and the interface index of a name is an arbitrary function.
- The packet decoder and encoder with their checksums: the decoder's answer for a buffer is an arbitrary choice in every run, and `EndToEnd` assumes that it gives back the group of an 8-byte version 2 message.
- Fields of the IPv4 header other than the destination, and control messages on write.
- Write errors, deadline errors and address slices of a wrong length, which end the process; of these the model keeps only items without an address and record addresses.
- A decoded version 1 or 2 layer always names an address, and the failed cast of the route value in the unicast receiver, which cannot happen since only sides are stored.
- The failed cast in buildMembershipItems, since only streams are stored in localStreams.
- The buffering of notification and from-network channels of the client: their arrival is a free choice of the environment.
- Real time: tickers, deadlines and timeouts are free choices; nothing is said about how soon a step is taken, so "keeps running" and "can step" are the forms that progress takes.
- Channels without a buffer: the one list being handed over counts as queued, and whether a receiver is waiting for a non-blocking send is a free choice.
- Metrics, logging, `Config.String`, RunSelfQuery and the command-line program have no behaviour that the properties depend on.
- Memberships of other hosts, and leaves received by multicast receivers, are not handled by the code.
