# FruityMesh firmware: a verified model

The firmware turns Bluetooth Low Energy nodes into a mesh of links. This project models its stateful
core and proves what that core is for. Check it with `dafny verify dfyconfig.toml` (Dafny 4.11).

**A. Cluster join, size accounting and flooding.** Each node keeps the size of its cluster and, for
each link, how many nodes it believes behind it. Joins run WELCOME, ACK_1, ACK_2; size changes are
flooded. `ClusterNode` holds the handlers as functions on a node's state, `MeshNode` runs them on
mutable node and connection objects, and `Mesh` is the network: one step for a new link, a broken
link, an end that learns of the break, and an arriving packet. The invariant of `Mesh` is local to a
link end: what it credits plus the changes on their way to it is the size of the other side. `Forest`
shows that the finished links form a forest (each is the only link across some cut, with reachability
by walks) and that on a forest the balance equations force the true sizes. `Flood` uses the same
splitting of trees for broadcast and unicast, `MeshFlood` joins the two, and `Handshake` runs the
exchange of two nodes to its end. `Split` says which ends of a broken link take themselves for the
smaller half, `SplitRuns` and `HandshakeRuns` step through runs of three nodes on which things go
wrong, written out with `MeshSteps`, and `HopLimit` is about packets addressed to a number of hops.

**B. Link transport.** `PacketQueue` is the byte ring of variable-length records. `Transport` is one
direction of a link: splitting in place, reassembly, and every interleaving of queueing, sending,
arrival, responses and buffer completions. `ConnectionManager.Channel` is the sender on the ring bytes,
`ConnectionManager.FillTransmitBuffers` the loop over all of them, `ConnectionManager.Manager` the
event handlers with the pending counter, `ConnectionSlots` the bookkeeping of outgoing slots.

**C. Flash task queue.** `SimpleQueue` is the second ring, with 4-byte length words; `Storage` is the
asynchronous clear/store/load machine on top of it.

**D. Vote retry storage.** `RetryStorage` makes two parallel arrays act as one bounded map, and
`Voting` is the retry and acknowledge protocol over a network that loses, repeats and reorders.

Environment assumptions:

- Handlers are atomic: the main loop takes one event at a time.
- A joining node has handled the loss of its old links, and has admitted no third node, when ACK_2
  reaches it (`Mesh.CanDeliver`). The firmware admits the races behind this
  (src/mesh/Connection.cpp:330, src/mesh/ConnectionManager.cpp:267). `Mesh.PairAck2` shows that the
  balance depends on it exactly: the step keeps it if and only if the joiner's size is 1; and
  `HandshakeRuns.RaceMiscounts` is a run without it that comes to rest with a wrong size.
- Links deliver in order and without loss while they are up, with one outstanding write request; the
  queue of a `Mesh` link is what `Transport` delivers in order. `Put` takes the handshake and update
  packets. Write calls to the radio succeed, and flash operations are accepted by their driver.
- Node ids are distinct and not 0, which is the broadcast address.

Where the firmware does not meet a property, its exact condition is proved, with an execution on which
the property fails where that takes more than one event:

- Two ends of a broken link may both claim the smaller half, or neither (`Split.OneEndIsSmaller`,
  `SplitRuns.BothMayClaim`, `SplitRuns.NeitherMayClaim`).
- A handshake stalls when the central's cluster changes under way (`Handshake.StaleWelcomeStalls`,
  `HandshakeRuns.MeshMayStall`).
- A wake-up is lost when the 16-bit pending counter has wrapped to zero while a queue waits
  (`ConnectionManager.Manager.Continue`, `ConnectionManager.LostWakeUp`).
- An incoming connection during an outgoing attempt takes a slot out of the books. The time-out of that
  attempt brings it back; if the attempt succeeds instead, the handler finds no pending connection
  (`ConnectionSlots.InterruptedAttemptTimesOut`, `ConnectionSlots.InterruptedAttemptSucceeds`).
- A vote with id 0 is sent but not stored (`Voting.AcceptedIsStored`). A vote cast again under the same
  id is dropped by a late acknowledgement of the earlier one (`Voting.LatestVoteIsKept`,
  `Voting.LateAcknowledgementDropsVote`).
- A packet addressed to a number of hops may go farther (`HopLimit.LimitIsKept`, `HopLimit.LimitFails`).

## Model

| member | source | states |
|---|---|---|
| Mesh.ClusterSizesAreExact | src/mesh/Node.cpp:267-393 | in every reachable quiescent state each node's size is the number of nodes in its tree, and each finished link end credits the number of nodes reachable behind it |
| Mesh.LinksAlwaysBalance | src/mesh/Connection.cpp:408-513 | in every reachable state the finished links form a forest, and on each of them credited size plus changes in flight is the size of the other side |
| Split.OneEndIsSmaller | src/mesh/Node.cpp:277-334 | for every break of a tree link, with each end reading the test at its own disconnect event after whatever came between: both ends claim the smaller half, exactly one does, or none does, if and only if the lead of one half lies between, beyond or between in reverse two bounds shifted by the changes that each end has missed or seen since; exactly one whenever these cancel out; and exactly the claiming ends take a new cluster id and announce it to their half |
| Split.UnawareEndStays | src/mesh/ConnectionManager.cpp:375-395 | until an end learns of the break no event changes what it credits to the link or to whom |
| SplitRuns.NeitherMayClaim | src/mesh/Node.cpp:277-334 | a reachable break, with growth lost on the link, after which neither end claims |
| SplitRuns.BothMayClaim | src/mesh/Node.cpp:277-334 | a reachable break, with shrinking lost on the link, after which both ends claim |
| Mesh.PairAck2 | src/mesh/Connection.cpp:482-515 | handling ACK_2 keeps the link's balance if and only if the joiner's size is 1 at that moment |
| Mesh.PairAck1 | src/mesh/Connection.cpp:408-475 | admitting a joiner sets up the balance of the half-finished link, with ACK_2 in flight counting as its size less one |
| Mesh.PairInfoUpdate | src/mesh/Node.cpp:349-393 | applying a size change moves it from in flight to credited, keeping both directions |
| Mesh.PairWelcome | src/mesh/Connection.cpp:324-405 | the greeting phase never has more than one packet on the link and credits nothing |
| Mesh.ToldKeepsPair | src/mesh/ConnectionManager.cpp:101-111 | flooding a node's size change keeps the balance of all its other links |
| Mesh.DeliverTree | src/mesh/Connection.cpp:482-515 | only ACK_2 adds a link to the tree, and it adds a node that has no other tree link |
| Mesh.LoseKeeps | src/mesh/Node.cpp:267-346 | handling a lost link keeps the whole invariant |
| Mesh.BreakKeeps | src/mesh/ConnectionManager.cpp:375-395 | a link may break at any time without losing the invariant |
| Mesh.ConnectKeeps | src/mesh/ConnectionManager.cpp:263-324 | a new link with its first WELCOME keeps the invariant |
| Mesh.RunKeeps | src/mesh/Connection.cpp:187-533 | the invariant holds after every run of the mesh |
| Forest.BalancedCountsFarSide | src/mesh/Connection.cpp:408-513 | tree induction: on a forest the local balance equations have the true far-side sizes as their only solution |
| Forest.BalancedCountsCluster | src/mesh/Node.cpp:267-393 | one plus a node's credits is then the size of its tree |
| Forest.TreeSplits | src/mesh/ConnectionManager.cpp:101-111 | what can be reached from a node without the arrival link is the node and its branches, each node once |
| Forest.AttachKeepsForest | src/mesh/Connection.cpp:343-393 | linking a node that has shed all other links keeps the forest |
| Forest.DropKeepsForest | src/mesh/ConnectionManager.cpp:375-395 | losing a link keeps the forest |
| ClusterNode.ReceiveKeepsNode | src/mesh/Connection.cpp:324-513 | every packet keeps a node's size equal to one plus what it credits to its links |
| ClusterNode.LossKeepsNode | src/mesh/Node.cpp:267-346 | so does a lost link |
| ClusterNode.ReceiveTells | src/mesh/Connection.cpp:274-316 | a handler tells every other finished link exactly the change of the node's size, and changes nothing else there |
| ClusterNode.LossTells | src/mesh/Node.cpp:273-332 | so does the handler of a lost link, in both of its cases |
| ClusterNode.LossRenames | src/mesh/Node.cpp:267-334 | field by field what a lost link does: the end left with fewer nodes, or as many and the smaller id, takes the generated id and announces it as successor of the lost link's cluster; the other keeps its id and announces none |
| ClusterNode.UpdateRenames | src/mesh/Node.cpp:349-393 | a size change is relayed unchanged, and renames the node and the arm it came over if and only if the node is in the named cluster and a successor is announced |
| ClusterNode.HostAnnounces | src/mesh/Connection.cpp:408-475 | field by field what ACK_1 does: the host keeps its id, counts the joiner, sends ACK_2 with the new size and announces a growth by one without a rename |
| ClusterNode.JoinerFollows | src/mesh/Connection.cpp:482-515 | field by field what ACK_2 does: the joiner takes over id and size, itself not counted twice |
| ClusterNode.GreetingDecides | src/mesh/Connection.cpp:343-393 | field by field what WELCOME does in the same cluster, at the bigger node and at the smaller one |
| ClusterNode.CentralGreetsFirst | src/mesh/ConnectionManager.cpp:263-324 | a new link comes up empty at the central, which greets, while the peripheral waits |
| ClusterNode.JoinerShedsOthers | src/mesh/Connection.cpp:343-363 | after a greeting another connection is closing if and only if it was before or was connected and the greeting came from a different, bigger cluster |
| MeshNode.Node.ReceivePacket | src/mesh/Connection.cpp:274-531 | the in-place packet handler does to the whole node state what the handler function says |
| MeshNode.Node.ReceiveAck1 | src/mesh/Connection.cpp:408-475 | the same for admitting a joiner, with the flooding loop |
| MeshNode.Node.ReceiveWelcome | src/mesh/Connection.cpp:324-405 | the same for the greeting, with the loop that closes other links |
| MeshNode.Node.UpdateClusterInfo | src/mesh/Node.cpp:349-393 | the same for a size change, with the cluster id after it |
| MeshNode.Node.DisconnectionHandler | src/mesh/Node.cpp:267-346 | the same for a lost link, with the new cluster id of the smaller half and the reset of the connection |
| MeshNode.Node.ConnectionSuccessful | src/mesh/ConnectionManager.cpp:263-324 | the same for a new link |
| MeshNode.Node.SendMessageOverConnections | src/mesh/ConnectionManager.cpp:101-111 | queues the packet on every finished link but one, and touches no other state |
| Handshake.HandshakeFinishes | src/mesh/Connection.cpp:324-519 | two nodes end up linked if and only if they met in different clusters; else the link is closed |
| Handshake.CentralHosts | src/mesh/Connection.cpp:324-519 | if the central is bigger the packets are exactly WELCOME, ACK_1 of the peripheral, ACK_2 of the central; the joiner asks all its other connections to close, the host none |
| Handshake.PeripheralHosts | src/mesh/Connection.cpp:324-519 | if the peripheral is bigger both greet, the central sends the only ACK_1, the peripheral the only ACK_2; again only the joiner sheds its other connections |
| Handshake.RolesDoNotDecide | src/mesh/Connection.cpp:343-356 | the surviving cluster and the sizes do not depend on who is the central |
| Handshake.StaleWelcomeStalls | src/mesh/Connection.cpp:330-332 | whatever events on its other links have made of the central when its WELCOME arrives, the handshake stalls if and only if both ends take themselves for the bigger one, or by then share a cluster |
| Handshake.HandshakesDoStall | src/mesh/Connection.cpp:330-332 | two consistent nodes and one size change on another link of the central with which the handshake stalls |
| HandshakeRuns.MeshMayStall | src/mesh/Connection.cpp:330-332 | a reachable mesh at rest with a link up whose ends, in different clusters, have not finished the handshake |
| HandshakeRuns.RaceMiscounts | src/mesh/ConnectionManager.cpp:267-269 | a run on which a joiner admits another node before its host has acknowledged it, and which comes to rest with a node that miscounts its cluster |
| Flood.BroadcastHandledOnce | src/mesh/Connection.cpp:274-316 | on a forest a finished broadcast was processed exactly once by each node of the tree and by no other, and crossed each of its links exactly once |
| Flood.UnicastHandledOnce | src/mesh/Connection.cpp:522-531 | a finished packet to a node or group id was processed exactly once by its receiver if it is in the tree, and by nobody else |
| Flood.FloodingEnds | src/mesh/ConnectionManager.cpp:101-111 | in any order of arrival and at any time at most one copy has crossed each link, in either direction, and flooding ends within as many arrivals as the tree has links |
| Flood.HopsAreNotCounted | src/mesh/Connection.cpp:308-315 | a packet addressed to any number of hops but one is processed by every node of the tree except its origin |
| HopLimit.LimitIsKept | src/mesh/Connection.cpp:278-315 | a packet addressed to a number of hops is processed by no node farther from its origin if and only if the number is one or reaches the whole tree |
| HopLimit.OneHopReachesNeighbours | src/mesh/Connection.cpp:278-279 | a one-hop packet is processed exactly once by each neighbour of its origin and by nobody else |
| HopLimit.LimitFails | src/mesh/Connection.cpp:308-315 | for every other number of hops a tree and a finished execution on which the packet goes farther |
| MeshFlood.SettledSendsOverTree | src/mesh/ConnectionManager.cpp:101-111 | in a reachable mesh the slots on which nodes send floods are exactly the ends of tree links if and only if no ACK_2 is queued on a link that is up and no finished end has still to learn that its link broke |
| MeshFlood.BroadcastReachesTheCluster | src/mesh/Connection.cpp:274-316 | in every reachable mesh that is so settled a broadcast over the slots the nodes send on reaches the origin's tree once each; a quiescent mesh is settled, and there that is as many nodes as the origin's own count |
| PacketQueue.PacketQueue.Put | src/utility/PacketQueue.cpp:52-97 | appends the packet exactly when there is room among the bytes not taken, else changes nothing |
| PacketQueue.PacketQueue.PeekNext | src/utility/PacketQueue.cpp:99-127 | finds the oldest packet, across the wrap, without changing the contents |
| PacketQueue.PacketQueue.DiscardNext | src/utility/PacketQueue.cpp:129-141 | drops exactly the oldest packet after a peek |
| PacketQueue.FitsIfRoom | src/utility/PacketQueue.cpp:64-83 | a packet is taken if and only if record, terminator and spare byte fit behind the last record, or the writer has not wrapped and record and terminator fit at the start, without touching a taken byte |
| PacketQueue.TakenAreRecords | src/utility/PacketQueue.cpp:64-97 | the taken bytes are as many as the records have, and one zero byte for each stretch of them |
| PacketQueue.UnwrappedRingTakes | src/utility/PacketQueue.cpp:64-83 | until the writer wraps a packet is taken whenever two of its size fit beside the records |
| PacketQueue.WrappedRingTakes | src/utility/PacketQueue.cpp:76-83 | once it has wrapped a packet is taken if and only if it fits between the two stretches of records |
| PacketQueue.HeadOf | src/utility/PacketQueue.cpp:118-123 | the bytes at the read position are the oldest record, and what follows still holds the others |
| PacketQueue.PutAtStart | src/utility/PacketQueue.cpp:64-91 | wrapping writes the record and its terminator in front of the live records and leaves the sentinel |
| PacketQueue.EmptyRingTakes | src/utility/PacketQueue.cpp:64-83 | an empty ring takes every packet of a length, wherever its pointers stand, if and only if two such records fit |
| Transport.DeliveredIsPrefix | src/mesh/ConnectionManager.cpp:443-625 | on every run the packets delivered are in order a prefix of those accepted, for any mix of reliable and unreliable packets, each with the length, the message type and all bytes from the second on of its original |
| Transport.DrainedDeliversAll | src/mesh/ConnectionManager.cpp:443-685 | once queue and air are empty every accepted packet was delivered, each a copy of its original in this sense |
| Transport.OneRequestAtATime | src/mesh/ConnectionManager.cpp:518-685 | on every run the one request buffer is free, or one request or one response is under way; every packet of 1 to 200 bytes may be queued |
| Transport.PartsReassemble | src/mesh/ConnectionManager.cpp:458-502 | reassembly undoes the split, from any part on, with message type and bytes of the original |
| Transport.PartCount | src/mesh/ConnectionManager.cpp:538-564 | a packet above 20 bytes takes one write per 19 bytes after its first byte |
| Transport.PartsIgnoreSentBytes | src/mesh/ConnectionManager.cpp:541-556 | split headers may overwrite bytes already sent: what is still to be sent does not depend on them |
| Transport.MarkedKeepsType | src/mesh/ConnectionManager.cpp:534-564 | setting or clearing the more-parts bit leaves the message type, for every byte |
| Transport.StepIsPass | src/mesh/ConnectionManager.cpp:520-621 | one pass byte by byte: a packet that is reliable or above 20 bytes goes out by a request, another by a command, exactly if a buffer of its kind is free; the write has the message type, the right more-parts bit and the next bytes of the packet |
| Transport.DrainPending | src/mesh/ConnectionManager.cpp:518-622 | the transmit loop writes exactly the next writes that were due |
| Transport.DrainExhausts | src/mesh/ConnectionManager.cpp:518-622 | the loop ends with an empty queue or a head that waits for its kind of buffer, and uses one buffer per write |
| Transport.ResponsePending | src/mesh/ConnectionManager.cpp:661-678 | the answer to a request neither repeats nor skips a part, drops the packet exactly if no part follows, and returns the buffer |
| ConnectionManager.Channel.SendNext | src/mesh/ConnectionManager.cpp:520-621 | one pass on the ring bytes, with the split header written in place inside the head record, is one step of the sender, and writes the head packet's next bytes behind its message type |
| ConnectionManager.Channel.Fill | src/mesh/ConnectionManager.cpp:516-623 | the loop on the ring bytes is the sender's loop, ends, and leaves nothing that could be sent |
| ConnectionManager.Channel.Respond | src/mesh/ConnectionManager.cpp:661-678 | reads the last header back from the ring, and drops the packet and says so if it is complete, else advances to its next part |
| ConnectionManager.FillTransmitBuffers | src/mesh/ConnectionManager.cpp:507-625 | the loop over all connection objects, each with its own ring bytes, drains every connected one and touches no other |
| ConnectionManager.Manager.FillTransmitBuffers | src/mesh/ConnectionManager.cpp:507-625 | all connected links are drained, no other changes, and the packet total stays |
| ConnectionManager.Manager.Continue | src/mesh/ConnectionManager.cpp:645-682 | after a handler every connected link with packets waits for a write that is out, if and only if the counter did not show zero or this was so already; it shows zero wrongly only when it has wrapped |
| ConnectionManager.Manager.TxComplete | src/mesh/ConnectionManager.cpp:635-648 | completed commands leave the counter equal to queued, in flight and lost packets modulo 2^16; no wake-up is lost if and only if it is not zero or the freed links already wait |
| ConnectionManager.Manager.WriteResponse | src/mesh/ConnectionManager.cpp:651-683 | the same for an answered request, which counts off its packet exactly when it is complete |
| ConnectionManager.Manager.Disconnected | src/mesh/ConnectionManager.cpp:375-395 | the same for a broken link, whose commands in flight stay counted |
| ConnectionManager.LostWakeUp | src/mesh/ConnectionManager.cpp:643-646 | an execution from the start, with 65535 commands lost on broken links, that ends with a packet queued on a connected link, nothing under way and the counter at zero |
| ConnectionManager.Manager.SendMessageOverConnections | src/mesh/ConnectionManager.cpp:101-111 | puts the packet behind all others on exactly the finished links but one whose ring takes it, changes nothing else, then drains all |
| ConnectionSlots.ConnectionSlots.ConnectAsMaster | src/mesh/ConnectionManager.cpp:187-233 | after any sequence of events a free counter above zero finds a slot, so the new pending connection is never missing |
| ConnectionSlots.ConnectionSlots.PeripheralConnected | src/mesh/ConnectionManager.cpp:280-323 | an incoming connection takes one slot out of the books if an outgoing one is pending, else none |
| ConnectionSlots.ConnectionSlots.ConnectionTimeout | src/mesh/ConnectionManager.cpp:397-405 | the time-out of an attempt brings a slot back to the books if none was pending any more, and never counts one twice |
| ConnectionSlots.ConnectionSlots.CentralConnected | src/mesh/ConnectionManager.cpp:299-323 | an outgoing connection takes the pending slot; the handler fails if and only if none is pending |
| ConnectionSlots.ConnectionSlots.CounterShowsFreeSlots | src/mesh/ConnectionManager.cpp:187-194 | a counter above zero always means a free slot; the converse holds while no slot is missing |
| ConnectionSlots.InterruptedAttemptTimesOut | src/mesh/ConnectionManager.cpp:397-405 | an execution from the start: an incoming connection during an attempt, then its time-out, after which all slots are free again |
| ConnectionSlots.InterruptedAttemptSucceeds | src/mesh/ConnectionManager.cpp:299-303 | the same with the attempt succeeding, when the handler finds no pending connection and a slot is missing |
| SimpleQueue.SimpleQueue.Put | src/utility/SimpleQueue.cpp:26-57 | appends the task exactly when there is room among the bytes not taken, else changes nothing |
| SimpleQueue.FitsIfRoom | src/utility/SimpleQueue.cpp:28-52 | with aligned pointers the test with one spare byte takes a task if and only if it and its 4-byte terminator fit into bytes not taken |
| SimpleQueue.SimpleQueue.PeekNext | src/utility/SimpleQueue.cpp:61-85 | returns the oldest task, across the wrap, and changes nothing |
| SimpleQueue.SimpleQueue.GetNext | src/utility/SimpleQueue.cpp:88-107 | takes exactly the oldest task off |
| SimpleQueue.SpareByteIsWord | src/utility/SimpleQueue.cpp:28-52 | by alignment the one reserved byte is room for the 4-byte terminator |
| SimpleQueue.PutAfterLower | src/utility/SimpleQueue.cpp:43-52 | the terminator of a record written in front of the reader touches no live record |
| SimpleQueue.RoomForSixTasks | src/utility/Storage.cpp:130-156 | with 16-byte tasks in 160 bytes the ring refuses nothing while fewer than six are pending |
| SimpleQueue.PutKeepsSlots | src/utility/SimpleQueue.cpp:33-52 | the writer of such a ring wraps at byte 140 only |
| Storage.OneOperationAtATime | src/utility/Storage.cpp:158-172 | on every run one flash operation is under way exactly while the storage is busy, which is exactly while a task waits |
| Storage.TasksTakeEffectInOrder | src/utility/Storage.cpp:70-103 | no accepted task is lost, the tasks take effect in order and once each whatever failed between, a read by a load of its block and a write by a store, and each read's callback fired once, in order |
| Storage.OperationsFitTheirTasks | src/utility/Storage.cpp:105-112 | every clear or store that ended or is under way is for the write whose turn it was, every load for the read |
| Storage.EventAdvances | src/utility/Storage.cpp:70-103 | after a clear its task is stored, and after a failure its task is started anew |
| Storage.EventFinishes | src/utility/Storage.cpp:87-98 | after a load or store its task is done, a read's callback fires, and the next task is started |
| Storage.RequestJoins | src/utility/Storage.cpp:130-172 | a request that the ring takes is queued last and started at once if nothing waits |
| Storage.StoresFollowTheirClear | src/utility/Storage.cpp:77-84 | every store is that of the write task whose turn it is and follows directly the successful clearing of its block for the same task |
| Storage.FinishedKeeps | src/utility/Storage.cpp:87-98 | requests made inside a read's callback do not disturb the task order |
| Storage.PackRoundTrip | src/utility/Storage.cpp:130-139 | a task survives its 16-byte form |
| Storage.Storage.PstorageEventHandler | src/utility/Storage.cpp:70-103 | the event handler on the ring bytes does what the state machine says |
| Storage.Storage.QueuedRead | src/utility/Storage.cpp:130-142 | a read request is queued if the ring takes it, which it does below six tasks, and loads its block at once if nothing is under way |
| Storage.Storage.QueuedWrite | src/utility/Storage.cpp:144-156 | a write request is queued in the same way, and clears its block at once if nothing is under way |
| RetryStorage.RetryStorage.Put | src/mesh/Node.cpp:824-857 | on the arrays: refreshes a stored id in place, appends a new one, or reports a full storage, and leaves the times of all others |
| RetryStorage.RetryStorage.Remove | src/mesh/Node.cpp:869-890 | on the arrays: removes exactly the id and keeps ids and times aligned and dense |
| RetryStorage.RetryStorage.Contains | src/mesh/Node.cpp:859-867 | finds an id and renews its time |
| RetryStorage.RetryStorage.IsFull | src/mesh/Node.cpp:898-904 | the last slot is in use exactly when all 96 are |
| RetryStorage.RetryStorage.GetTimeFor | src/mesh/Node.cpp:910-918 | the time stored with an id, 0 if there is none; for id 0 the time left in the first free slot |
| RetryStorage.WithHas | src/mesh/Node.cpp:824-857 | map law of putting: the id is stored exactly if it is not 0 and there is room, ids stay distinct, no other id appears or goes |
| RetryStorage.WithEntries | src/mesh/Node.cpp:824-857 | map law of putting, entry by entry: the entry of the id is stamped or appended, every other one stays in its place with its time |
| RetryStorage.WithoutHas | src/mesh/Node.cpp:869-890 | map law of removing |
| RetryStorage.WithoutEntries | src/mesh/Node.cpp:869-890 | map law of removing, entry by entry: exactly the entries of other ids stay, with their times |
| RetryStorage.WithoutAt | src/mesh/Node.cpp:869-890 | and in their order |
| Voting.NoVoteIsLost | src/modules/VotingModule.cpp:24-97 | over every run with loss, repetition and reordering an accepted vote is still stored or was received by a gateway, and gateways receive accepted votes only |
| Voting.LatestVoteIsKept | src/modules/VotingModule.cpp:147-157 | of votes cast again under one id, the last one while no gateway has it is still stored if and only if its voter has since handled no acknowledgement of an earlier one |
| Voting.LateAcknowledgementDropsVote | src/modules/VotingModule.cpp:147-157 | an execution on which a repeated acknowledgement drops a vote that no gateway has |
| Voting.MissingVotesAreResent | src/modules/VotingModule.cpp:87-95 | the next retry of a voter that is no gateway sends every accepted vote that no gateway has received |
| Voting.AcceptedIsStored | src/modules/VotingModule.cpp:24-54 | a vote is accepted if and only if its id is stored or there is room, and an accepted one is kept for a retry if and only if its id is not 0 |
| Voting.VoteSurvives | src/modules/VotingModule.cpp:41-46 | the id and the time of a vote are what the gateway decodes from its bytes |
| Voting.VotingNode.TimerEvent | src/modules/VotingModule.cpp:80-97 | the retry loop sends each stored vote once, in order, and stamps each with the new time; on a gateway it does nothing |
| Voting.VotingNode.OnAck | src/modules/VotingModule.cpp:147-157 | an acknowledgement removes exactly its id |
| Voting.VotingNode.OnVote | src/modules/VotingModule.cpp:159-190 | only a gateway answers a vote, with the id bytes it received |
| Voting.StepVote | src/modules/VotingModule.cpp:24-54 | voting on the node object changes its store and sends just as the network model says |
| Voting.StepTimer | src/modules/VotingModule.cpp:80-97 | the same for the retry timer, which does nothing on a gateway |
| Voting.StepReceiveVote | src/modules/VotingModule.cpp:159-190 | the same for a vote that arrives at a node |
| Voting.StepReceiveAck | src/modules/VotingModule.cpp:147-157 | the same for an acknowledgement |

## Left out

- Mesh.CanDeliver: assumes that a joiner is alone when ACK_2 reaches it; the races that break this are not runs of the model, their exact effect is `Mesh.PairAck2`.
- ClusterNode.OnInfoUpdate: sizes are unbounded integers, where the firmware has 16 bits; true sizes fit, sizes in flight are assumed to.
- ClusterNode.OnLoss: cluster ids are computed as the firmware does, but agreement and uniqueness of ids after several splits are not claimed; other arms keep a stale id and the generator shifts the sum.
- ConnectionManager.Manager.QueuePacket: whether the ring takes a packet is a parameter there; `PacketQueue.Put` decides it on the bytes.
- ConnectionManager.Manager.FillTransmitBuffers: the manager's counters are proved on link values; the same loop on the connection objects and their bytes is `ConnectionManager.FillTransmitBuffers`.
- MeshFlood.BroadcastReachesTheCluster: no link comes or goes while the flood is under way.
- Flood.FloodingEnds: packets for the nearest sink are excluded, as they take a path of their own.
- PacketQueue.PacketQueue.Put: takes packets up to 252 bytes; the firmware allows 200, and above 252 its one-byte size sum wraps.
- PacketQueue.PacketQueue.DiscardNext: requires a preceding peek, because only `PeekNext` wraps the read position; both callers do it.
- SimpleQueue.SimpleQueue.Put: requires non-empty payloads of whole words and an aligned buffer, as the storage uses it; `DiscardNext` of that queue is not modelled.
- RetryStorage.RetryStorage.Put: the time is a parameter, and saving the configuration to flash is not triggered.
- The byte layout of handshake and update packets: they are typed records. The header size constant is 6 while the packed struct has 7 bytes (config/conn_packets.h:88-96), so a byte round trip of ACK_2 would not hold.
- Hops to the nearest sink, packets to the nearest sink, and group membership.
- Timestamp packets, which are rewritten at send time (src/mesh/ConnectionManager.cpp:571-585); the transport theorems are about the others.
- The path that lets a phone pose as a node (src/mesh/Connection.cpp:207-272).
- Encryption and handle discovery before the handshake, handshake timeouts, and switching the handshake off.
- Discovery, scanning, advertising, module configuration, terminal, UART, LEDs, NFC and logging.
- The terminal commands that bypass the storage queue (src/utility/Storage.cpp:174-203).
- The mutexes of the packet queue: handlers are atomic steps.
