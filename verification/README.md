# Verified model of mpconn

mpconn is a multi-path tunnel. A node numbers every local frame separately for each peer it goes to and sends one copy to
every address it knows for that peer. The network may lose, duplicate, reorder and delay the copies. The receiving node
keeps one sequencer per peer, which drops duplicates, restores the order, and after a deadline skips numbers that did not
arrive. Keepalives tell nodes which addresses a peer has and, on layer 3, which tunnel address is reached through it.

The project models this in three layers and proves what each guarantees over whole runs.

1. **The sequencer.** `SequencerSpec` says on values what an arrival and a tick do. `SequencerRuns` and `SequencerOrder`
   prove conservation, the exact loss condition, order-insensitivity, flush behaviour, skip rate and bounded waiting for
   every run. `Sequencers.Sequencer` is the object that is updated in place.
2. **One node.** `ManagerSpec` is the reaction of a node to every event of its loop. `ManagerRuns` and `ManagerTables` prove
   that no unwrap fails, that peers do not influence each other, how long addresses stay known and what is learned.
   `PeerLists`, `TrafficDirectors` and `ConnectionManagers` hold the objects and their loops; every handler is proved to do
   what the step on values does; `ConnectionManager.Run` carries that over to the whole event loop and `Serve` to a node
   from its configuration on.
3. **N nodes.** `System` adds a network that is a growing set of datagrams, any of which may be delivered any number of
   times, in any order, to the owner of its destination address. `SystemSafety`, `LossMasking` and `Handshake` hold the
   theorems about all executions. `NodeInSystem` shows that a node's part of an execution is a run of that node, which
   carries end-to-end delivery down to the bytes on the local channel.

`WireFormat` is separate: the byte layout of the messages and what the Wireshark dissector reads back from it.

## Assumptions

- Every handler is one atomic step with one reading of the clock. The clock of a node does not go back. Time is in
  nanoseconds.
- The iteration order of a hash map is arbitrary; it is a parameter of the events that iterate.
- Peer ids and tunnel addresses are unique, every socket address belongs to one node, seeded addresses belong to the peer
  they are listed under, and a node does not restart within an execution.
- The network forges nothing: a datagram that decodes was sent by the node that owns its source address. Undecodable
  datagrams may arrive at any time.
- Numbers are unbounded. `SystemSafety.CountersFit` bounds every counter and cursor by the number of events, so 64 bits are
  enough for 2^64 - 1 events.
- The extraction of Ethernet and IP addresses from a frame is an arbitrary function, the same for all theorems.

Where a code comment and the code disagree, the model follows the code. The dissector's comments give the ranges of
the number encoding; the window of 8 bytes it passes for the sequence number and for the length cannot hold the form of 9
bytes, so `WireFormat.PacketRoundTrip` states exactly which packets are read back and that the dissector aborts on all
others.

## Model

| member | source | states |
|---|---|---|
| `SequencerSpec.ApplyOrderly` | src/sequencer.rs:23-48 | every arrival and every tick leaves nothing deliverable behind, delivers strictly increasing numbers between the old and the new cursor, sets the time stamp exactly when something was delivered, and drops or alters nothing pending |
| `SequencerSpec.FlushDelivers` | src/connection_manager.rs:137-146 | a flush of a nonempty queue delivers its first packet, moves the cursor beyond it and resets the timer |
| `SequencerSpec.ReplayChangesNothing` | src/sequencer.rs:37-42 | a copy of a pending packet and any packet older than the cursor change no part of the state and deliver nothing |
| `SequencerSpec.DrainStep` | src/connection_manager.rs:225-241 | taking one packet is the first step of releasing the whole run at the cursor, which is why the loops compute that run |
| `SequencerRuns.Conservation` | src/sequencer.rs:23-48 | in every run the packets pending at the start and the ones filed since are, unaltered, the disjoint union of the pending ones, all above the cursor, and the delivered ones, all below it and in increasing order: nothing is dropped and nothing comes from nowhere |
| `SequencerRuns.LossExactly` | src/sequencer.rs:37-48 | a number that reaches the sequencer goes missing if and only if a flush moved the cursor over it before its first copy arrived |
| `SequencerRuns.FlushReleasesFirstRun` | src/connection_manager.rs:137-146 | a flush delivers exactly the maximal contiguous run from the smallest pending number and lowers the number of pending runs by exactly one |
| `SequencerRuns.FlushesEmptyQueue` | src/connection_manager.rs:132-149 | without arrivals the queue is empty if and only if as many flushes took effect as there were runs, and then the output is the whole queue, sorted and unaltered |
| `SequencerRuns.SkipSpacing` | src/sequencer.rs:63-70 | any two effective flushes of one sequencer are more than a deadline apart |
| `SequencerRuns.SkipRate` | src/connection_manager.rs:132-149 | in a stretch of time of length L at most floor(L / deadline) + 1 flushes take effect |
| `SequencerRuns.BoundedWait` | src/sequencer.rs:23-70 | with ticks at most T apart a pending packet k is delivered within (k - cursor) * (deadline + T), whatever else arrives |
| `SequencerOrder.ArrivalsRefineMex` | src/sequencer.rs:23-42 | arrivals interleaved with deliveries end like filing all arrivals first and releasing one run: same cursor, queue and output |
| `SequencerOrder.CursorIsLeastMissing` | src/sequencer.rs:23-61 | between flushes the cursor is the least number neither pending at the start nor among the arrivals, the known numbers above it are the pending ones, and every packet that was pending or arrived is delivered at its own place below the cursor and pending under its own number above it |
| `SequencerOrder.OrderInsensitive` | src/sequencer.rs:37-42 | two arrival sequences with the same set of packets, in any order and multiplicity, end with the same cursor, queue and output |
| `Sequencers.Sequencer.constructor` | src/sequencer.rs:14-21 | a new sequencer waits for number 0, has nothing pending and the current time as its time stamp |
| `Sequencers.Sequencer.GetNextPacket` | src/sequencer.rs:23-35 | yields the packet at the cursor if and only if it is pending, removes it, advances by one and resets the timer; otherwise changes nothing |
| `Sequencers.Sequencer.InsertPacket` | src/sequencer.rs:37-42 | files a packet unless it is older than the cursor or its number is taken; the first copy wins |
| `Sequencers.Sequencer.AdvanceQueue` | src/sequencer.rs:44-48 | moves the cursor to the smallest pending number, or leaves it if nothing is pending |
| `Sequencers.Sequencer.HaveNextPacket` | src/sequencer.rs:54-61 | true exactly when the packet at the cursor is pending, hence exactly when GetNextPacket yields one |
| `Sequencers.Sequencer.IsDeadlineExceeded` | src/sequencer.rs:67-70 | true exactly when more than the deadline has passed since the last delivery |
| `PeerLists.PeerList.constructor` | src/peer_list.rs:21-47 | seeding yields a fresh peer with all its configured addresses for every configured id, the last entry of an id winning |
| `PeerLists.PeerList.AddPeer` | src/peer_list.rs:49-90 | refreshes or adds the address of a known peer and keeps its counter and sequencer, or creates a peer with a fresh sequencer of its own |
| `PeerLists.PeerList.GetAllConnections` | src/peer_list.rs:92-104 | lists every address of every peer, as often as it is known |
| `PeerLists.PeerList.GetPeerIds` | src/peer_list.rs:106-108 | lists every known id exactly once |
| `PeerLists.PeerList.GetPeerConnections` | src/peer_list.rs:110-118 | lists every address of the peer exactly once, none for an unknown peer |
| `PeerLists.PeerList.GetPeerSequencer` | src/peer_list.rs:120-126 | hands out the sequencer of a known peer and nothing for an unknown one |
| `PeerLists.PeerList.IncrementPeerTxCounter` | src/peer_list.rs:128-162 | raises the counter of exactly that peer by one and changes nothing for an unknown one |
| `PeerLists.PeerList.PruneStalePeers` | src/peer_list.rs:138-155 | the loop removes exactly the addresses not seen for 30 s, from every peer, and touches nothing else |
| `TrafficDirectors.Layer2Director.LearnPath` | src/traffic_director.rs:30-40 | enters the sender of a frame for its source address unless the address has an entry or the frame has none |
| `TrafficDirectors.Layer2Director.GetPath` | src/traffic_director.rs:42-55 | broadcast for the broadcast address, the learned peer for a known address, nothing otherwise |
| `TrafficDirectors.Layer3Director.InsertRoute` | src/traffic_director.rs:109-116 | enters a route only if the address has none and says whether it did |
| `TrafficDirectors.Layer3Director.GetRoute` | src/traffic_director.rs:118-124 | the peer routed for the destination address of a frame, if any |
| `ConnectionManagers.ConnectionManager.constructor` | src/connection_manager.rs:38-92 | builds a node of its own objects only, in its start state, which satisfies the invariant of the event loop; layer 3 exactly if it has a tunnel address |
| `ConnectionManagers.ConnectionManager.SendToLocal` | src/connection_manager.rs:239-239 | the bytes of the packet, unaltered, go to the end of the local channel |
| `ConnectionManagers.ConnectionManager.DrainFlushed` | src/connection_manager.rs:140-145 | the loop terminates, releases exactly the contiguous run at the cursor to the local side in order and learns nothing |
| `ConnectionManagers.ConnectionManager.DrainArrived` | src/connection_manager.rs:225-241 | the same, and on layer 2 the director has learned from every delivered frame in order |
| `ConnectionManagers.ConnectionManager.HandleIncomingPacket` | src/connection_manager.rs:218-243 | the object does what the step on values does: only the sender's sequencer changes, and packets of unknown peers have no effect |
| `ConnectionManagers.ConnectionManager.SequencerTick` | src/connection_manager.rs:132-149 | the loop over all peers flushes each overdue sequencer once, independently of the others, in some order |
| `ConnectionManagers.ConnectionManager.HandlePacketFromLocal` | src/connection_manager.rs:245-331 | given that no table entry dangles, the frame is numbered, counted and sent once to every address of every destination; the unwrap never fails |
| `ConnectionManagers.ConnectionManager.SendToAll` | src/connection_manager.rs:275-301 | a broadcast consumes exactly one number of every known peer and sends under the numbers before counting |
| `ConnectionManagers.ConnectionManager.HandleIncomingKeepalive` | src/connection_manager.rs:333-359 | the peer is added first; a new route, and only a new one, is entered and answered |
| `ConnectionManagers.ConnectionManager.HandleInstantKeepalive` | src/connection_manager.rs:386-408 | one own keepalive to every address of the target |
| `ConnectionManagers.ConnectionManager.HandleKeepalive` | src/connection_manager.rs:361-384 | one own keepalive for every listed address of every peer, and no state change |
| `ConnectionManagers.ConnectionManager.MaintenanceTick` | src/connection_manager.rs:151-167 | prunes stale addresses and sends and delivers nothing |
| `ConnectionManagers.ConnectionManager.HandleUdpPacket` | src/connection_manager.rs:179-216 | garbage has no effect; packets and keepalives go to their handlers |
| `ConnectionManagers.ConnectionManager.Run` | src/connection_manager.rs:94-177 | over any finite sequence of wake-ups the object never fails and goes through the run on values of exactly these wake-ups (same datagrams, frames and ticks at the same times), with the same final state, datagrams and deliveries |
| `ConnectionManagers.Serve` | src/main.rs:80-110 | a node built from any configuration and driven by any wake-ups never fails; what it sent is what the run on values from its start state sends, and the local channel holds, byte for byte and in order, the frames of the packets that run delivers |
| `ManagerLoops.CopySeqIsFanout` | src/connection_manager.rs:374-383 | sending to a flat list of all addresses is the fan-out of the message to all peers, with the same multiplicities |
| `ManagerLoops.TickedAll` | src/connection_manager.rs:135-148 | serving the peers one by one in any order ends in the state where every peer was served once |
| `ManagerRuns.StepKeepsGood` | src/connection_manager.rs:98-172 | every event keeps queues valid, idle and unmixed, tables without dangling entries and time stamps in the past; it forgets no peer and fails no unwrap |
| `ManagerRuns.NoPanic` | src/peer_list.rs:134-146 | in every run of a node no event meets an unknown destination or a time stamp in the future |
| `ManagerRuns.Quiescence` | src/connection_manager.rs:140-145 | after every run of a node every pending number is strictly above its peer's cursor |
| `ManagerRuns.TickOutputOf` | src/connection_manager.rs:135-148 | whatever the iteration order, a tick delivers for each peer exactly what that peer's own sequencer releases |
| `ManagerRuns.Isolation` | src/connection_manager.rs:222-241 | the run of a node seen from one peer is the run of a sequencer of its own fed only with that peer's packets and the ticks: same state, and its output is that peer's share of the local output |
| `ManagerRuns.ShareIsComplete` | src/connection_manager.rs:225-241 | in every run the local output is a merge of the peers' shares: every delivered packet belongs to a known peer, occurs in that peer's share as often as in the whole, and never twice |
| `ManagerRuns.NewPeerStartsFresh` | src/peer_list.rs:70-88 | only a keepalive creates a peer, and it starts with cursor 0, nothing pending, counter 0 and a deadline of 3 ms counted from that moment |
| `ManagerRuns.FlushRate` | src/sequencer.rs:63-70 | in every run of a node from its start, a peer created at time c, by the configuration or by a keepalive, has had n effective flushes with n * 3 ms < end - c |
| `ManagerRuns.NoEarlyFlush` | src/sequencer.rs:14-21 | in every run of a node from its start no flush of a peer takes effect within 3 ms of the peer's creation |
| `ManagerRuns.NodeBoundedWait` | src/connection_manager.rs:132-149 | at a node with ticks at most T apart, a pending packet k of a peer reaches the local side within (k - cursor) * (3 ms + T), whatever the other peers, the local side and the timers do |
| `ManagerTables.StepAges` | src/peer_list.rs:49-155 | an address is refreshed exactly by keepalives of its peer from it and dropped exactly by a maintenance tick that finds it stale; no other event touches it |
| `ManagerTables.SurvivesExactly` | src/peer_list.rs:138-155 | a known address stays known throughout a run if and only if at every maintenance tick its latest refresh is less than 30 s ago |
| `ManagerTables.StaleIsGone` | src/peer_list.rs:138-155 | with maintenance at most 5 s apart an address that is still known was refreshed less than 35 s ago |
| `ManagerTables.MaintenanceOnlyTrims` | src/peer_list.rs:138-155 | a run with its maintenance ticks and the same run without them deliver the same packets in the same order and end with the same peers, counters, sequencers and tables; with them a node sends a part of the same datagrams and knows a part of the same addresses |
| `ManagerTables.PathsAreFirstLearned` | src/traffic_director.rs:30-40 | in every run old entries stay, a new entry names the sender of the first frame with that source delivered on the arrival path, and an address without entry was not the source of any such frame |
| `ManagerTables.PathNeverChanges` | src/traffic_director.rs:42-55 | once an address has an entry, after whatever run, every frame to it is sent to the addresses of that same peer and nowhere else |
| `ManagerRuns.StartIsGood` | src/peer_list.rs:21-47 | whatever it is configured with, a node starts with valid idle queues, no dangling entry and no future time stamp, every peer with counter 0, cursor 0, nothing pending and a deadline of 3 ms counted from the start; so the theorems about runs apply to every node from its start |
| `System.SeedOwned` | src/peer_list.rs:27-44 | seeding from correctly owned addresses lists every address under its owner |
| `System.StartExactly` | src/peer_list.rs:27-44 | a node starts with the configured ids and no others as peers, each with exactly the addresses of its last entry, under its own id and tunnel address and with an empty table for its layer |
| `System.FanoutMember` | src/connection_manager.rs:266-273 | a datagram is sent if and only if it goes to an address of a destination and carries that destination's message |
| `System.StepCounts` | src/peer_list.rs:128-162 | a counter grows by one exactly when a local frame is addressed to its peer; pruning, keepalives, ticks and arrivals never touch it |
| `System.StepConnections` | src/peer_list.rs:49-90 | only a keepalive adds an address, its own source, under the id it names |
| `System.InvStep` | src/connection_manager.rs:98-172 | every action of every node keeps addresses owned, routes correct, counters equal to stream lengths, every datagram genuine, and every receiver consistent with the sender's stream |
| `SystemSafety.EndToEnd` | src/connection_manager.rs:218-331 | in every execution what b delivers from a is a subsequence of the frames a addressed to b: strictly increasing numbers, none twice, each with the bytes a gave it |
| `SystemSafety.SenderNumbering` | src/connection_manager.rs:254-300 | all copies of one number of one stream are identical and no number is used before the stream reaches it |
| `SystemSafety.FrameNumbers` | src/connection_manager.rs:245-331 | a local frame is appended to the stream of every destination and no other, and goes to every address of that destination under its place in the stream, so numbers run 0, 1, 2, ... without gap or reuse |
| `SystemSafety.FrameCopies` | src/connection_manager.rs:254-329 | for a local frame a node sends exactly one copy to every address of every destination, numbered with its place in the stream to that destination, and not a single other datagram |
| `SystemSafety.BroadcastReachesAll` | src/connection_manager.rs:275-301 | a broadcast frame is appended to the stream to every known peer and to no other stream, and goes out exactly once to every address of every known peer and nowhere else |
| `SystemSafety.UnicastFrame` | src/traffic_director.rs:42-55 | on layer 2 a frame that is not a broadcast joins the stream to the peer its destination address was learned from and goes once to each of that peer's addresses; without an entry or a destination address no stream changes and nothing is sent |
| `SystemSafety.Layer3Frame` | src/connection_manager.rs:306-329 | on layer 3 the same holds of the peer the destination address is routed to; without a route nothing is sent |
| `SystemSafety.CountersFit` | src/peer_list.rs:158-162 | no counter and no cursor ever exceeds the number of events |
| `SystemSafety.AddressesAndRoutes` | src/traffic_director.rs:109-116 | in every reachable state addresses are listed under their owners, and a route for the tunnel address of x leads to x, a known peer |
| `SystemSafety.RoutedFrame` | src/connection_manager.rs:306-329 | whatever is sent for a frame to the tunnel address of x goes to an address of x under the next number of the stream to x |
| `SystemSafety.SystemNeverPanics` | src/peer_list.rs:134-146 | no unwrap of any node fails in any execution |
| `NodeInSystem.NodeRun` | src/connection_manager.rs:94-177 | the part of a node in an execution of the whole system is a run of that node, with the same final state and its log as output |
| `NodeInSystem.NodeSends` | src/connection_manager.rs:94-177 | the datagrams on the network that come from a node are exactly the ones that run sends |
| `NodeInSystem.ChannelEndToEnd` | src/connection_manager.rs:225-241 | in every execution each frame on the local channel of b is, byte for byte, a frame that some node addressed to b; the frames of one sender come in the order it gave them, none twice |
| `NodeInSystem.UnicastFollowsFirstFrame` | src/traffic_director.rs:30-55 | in every execution a layer 2 frame to an address goes to the peer whose frame was the first one from that address delivered on the arrival path, once to each of its addresses, and is dropped if there was none |
| `LossMasking.CopiesMaskLoss` | src/connection_manager.rs:218-331 | if no flush skips a number of a at b, the output of b from a is a gap-free prefix of the stream; if a copy of each of the first n packets arrives after b knows a, in any order, it contains those n frames |
| `LossMasking.GapFreeExactly` | src/connection_manager.rs:132-149 | the output of b from a is gap-free if and only if no deadline flush of b ever jumped a hole of a |
| `LossMasking.NumberFate` | src/sequencer.rs:37-48 | the exact loss condition end to end: at every point of every execution number k of a was passed by at b undelivered if and only if a flush of b jumped it before a first copy reached b; otherwise it is delivered or pending if and only if a copy reached b after b knew a |
| `Handshake.AnsweredExactly` | src/connection_manager.rs:343-359 | apart from local frames and the keepalive timer, an event makes a node send something if and only if it is a keepalive with a tunnel address that has no route yet, and then one own keepalive to every address of its sender |
| `Handshake.BurstPays` | src/connection_manager.rs:343-359 | an action that makes a node send unasked goes with exactly one new route of that node, to the keepalive's sender; no other action changes any route of any node |
| `Handshake.HandshakeTerminates` | src/connection_manager.rs:333-408 | over a whole execution the number of actions, other than local frames and keepalive timers, that make a node send anything is the number of routes learned, at most one per node and distinct tunnel address |
| `Handshake.KeepalivesReachAll` | src/connection_manager.rs:361-384 | the keepalive tick sends the own keepalive to an address exactly as often as there are peers that list it, and nothing else |
| `Handshake.KeepaliveCopies` | src/connection_manager.rs:361-384 | in every reachable state that is exactly once for every known address |
| `Handshake.KeepaliveIntroduces` | src/connection_manager.rs:338-348 | after a keepalive its sender is known at the source address, which it owns, and on layer 3 its tunnel address is routed to it, even if a route was there before |
| `Handshake.NewRouteIsAnswered` | src/connection_manager.rs:350-354 | a keepalive that brings a new route leaves an answer that can be delivered to its sender from any address of the receiver |
| `Handshake.HandshakeCompletes` | src/connection_manager.rs:333-359 | one delivered keepalive each way is enough: the answer stays deliverable whatever happens in between, and once it is delivered each side routes the other's tunnel address to it; the sender knows an address of the receiver, and so does the receiver of the sender unless it ran maintenance meanwhile |
| `Handshake.RoutesPersist` | src/traffic_director.rs:109-116 | over any execution a route stays and leads to the same peer, and without maintenance at the node an address stays known too |
| `Handshake.ReachableFrameIsSent` | src/connection_manager.rs:306-329 | once a node reaches x, a frame to the tunnel address of x joins the stream to x and goes exactly once to every known address of x |
| `WireFormat.VarintBytes` | test_tools/Wireshark dissector/mpconn_dissector.lua:11-30 | the bytes of a number in each of the four tiers: itself, or the marker 251, 252 or 253 and 2, 4 or 8 bytes, least significant first |
| `WireFormat.Layout` | src/messages.rs:4-11 | a packet is the tag 0, its number, its sender and its length, one after the other, and the frame unaltered |
| `WireFormat.KeepaliveBytes` | src/messages.rs:13-17 | the bytes of every keepalive, with and without a tunnel address |
| `WireFormat.UnzigzagReads` | test_tools/Wireshark dissector/mpconn_dissector.lua:12-30 | any buffer that starts with an encoded number below 2^64 decodes to its length and value |
| `WireFormat.PacketRoundTrip` | test_tools/Wireshark dissector/mpconn_dissector.lua:48-78 | the dissector recovers number, sender, length and payload exactly when the number is below 2^32 and the payload has 7 to 2^32 - 1 bytes; on every other packet it aborts |
| `WireFormat.KeepaliveRoundTrip` | test_tools/Wireshark dissector/mpconn_dissector.lua:79-102 | every keepalive, with or without a tunnel address, is read back exactly |

## Left out

- Sockets, device binding, compression and channel plumbing in src/remote.rs and src/remote_manager.rs: they appear only as the lossy, duplicating network.
- TUN and pcap input and output in src/local.rs, src/local_manager.rs and src/async_pcap.rs: the local side is a sequence of frames in and out.
- The runtime's scheduling, fairness and channel capacities: tick spacing is an assumption of the theorems that need it.
- The panics of the event loop when a channel is closed or its receiver is gone (src/connection_manager.rs:112-114, 143, 272).
- Parsing of Ethernet and IP headers, and the deserializer: frames are opaque and received messages are values or garbage.
- Settings and argument parsing, logging with its queue lengths, and the interface log.
- Restarts that reset counters, forged keepalives and clocks that go back.
- PeerLists.PeerList: the entries of the map are values, not objects of their own; the sequencers inside them are objects.
- `Layer2Director.peerid_table`, `IncomingPacket` and `keep_alive_interval`, which the modelled code never uses.
