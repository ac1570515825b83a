# DirectPlay Lite, verified

A Dafny model of the hard parts of DirectPlay Lite, a peer-to-peer session layer, with proofs of what they promise.
`dafny verify dfyconfig.toml` checks all of it.

- **Groups in a session** (`GroupProtocol`, `GroupPeer`, `Mesh*`). Players, one FIFO per ordered pair of players, and
  every step that a peer or the network can take between two lock operations: letting players in, linking them to each
  other, creating, destroying, joining and leaving groups, handing messages to the socket, handling them, and coming back
  from an application callback in the middle of a handler. The theorems are about every run, for any number of players.
- **A connection, end to end** (`Division`, `Bytes`, `Packet`, `Framing`, `Receiver`, `SendQueue`, `Connection*`). The wire format, the
  three-priority send queue, a socket that decides every write and read size, the reassembly buffer, and threads that
  compete for the receive section and drop the lock while they handle a packet.
- **Requests and completions** (`Acks`, `Latch`, `Cleanup`, `ConnectReply`, `AsyncHandles`).
- **The worker pool** (`HandlePool`, `Multiples`, `PoolWorkers`, `PoolHandshake`, `PoolProgress`).
- **The slot allocator of the hook library** (`Regions`, `SlotAllocator`).

Code that updates its state in place is modelled by classes and loops (`GroupPeer.GroupPeer`, `Packet.PacketSerialiser`,
`Receiver.RecvBuffer`, `SendQueue.SendQueue`, `Acks.AckTable`, `Latch.Completion`, `Cleanup.Session`, `PoolWorkers.Pool`,
`SlotAllocator.Allocator`, `AsyncHandles.AsyncHandleAllocator`), whose methods are proved equal to functions on values;
the state machines and the theorems use those functions. Socket results, VirtualQuery and VirtualAlloc, the order of
threads and whatever the application does in a callback are parameters or steps that anything may choose.

## What the proofs found

- Membership of groups does not always converge. There are two moments at which a change of membership can be missed
  (`MeshTheorems.Tactful`), and each has a run that ends with nothing in flight and a lasting disagreement. In
  `MeshWitness.DisagreementAfterJoin` the host lets a player in, leaves a group, and only then sends its
  CONNECT_HOST_OK, which waits at MEDIUM priority (src/DirectPlay8Peer.cpp:4437) behind the HIGH priority news and still
  names the group; the LEFT came too early and was dropped. In `MeshLate.DisagreementAfterLink` a player is put into a
  group after the host's greeting and before the greeting of another player that has let it in; that player is not told,
  since its connection is answered and not greeted back. `NothingMissed`: a run misses nothing if and only if neither
  happens. `MembershipAgreement` and `ConvergesExactly` say that peers agree if and only if nothing was missed, and
  `SessionConverges` that without the two coincidences all peers end up with the very same groups.
- In `handle_group_join` and `handle_group_joined` an inner variable `group` hides the outer one
  (src/DirectPlay8Peer.cpp:5492, 5603). The model has both programs, the shipped one and the documented one
  (src/Messages.hpp:240-243, 256-259). `MeshCrash.ShippedCrashes` is a run of three players to the null pointer.
  A run crashes if and only if some handler comes back from the application and finds its group still there
  (`CrashExactly`), and only then do the two programs part (`ShippedAsDocumented`). All session theorems hold for both.
- src/Messages.hpp:240-243 has a destroyed group instantiated again by a GROUP_JOIN; the code refuses
  (src/DirectPlay8Peer.cpp:5460-5465), and so does the model. A GROUP_LEAVE for an unknown group is not acknowledged.
- The assertion in `register_ack` fails after a wrap of the counter if a request of the last cycle is still unanswered
  (`Acks.AssertionFailsAfterWrap`); `Acks.RegisterExactly` gives the exact condition, in every run. That each callback is
  called at most once needs no such condition (`Acks.AtMostOnce`).
- `pending_writer` is not initialised by the constructor; no worker can see that. `remove_handle` does not notify the
  condition variable when it does not find the handle; no worker ever waits for that (`PoolHandshake.WorkersNeverSleep`).
- CONNECT_HOST_OK announces `player_to_peer_id.size() - 1` peers and lists the connected ones. If the two differ, the
  joiner always fails with a type mismatch (`ConnectReply.ReplyReadExactly`).
- 0xFFFFFFFF is a possible handle, once per cycle of RemovePlayerFromGroup() handles
  (`AsyncHandles.AllOnesExactly`), against src/AsyncHandleAllocator.hpp:33-34.
- Freeing a slot twice, or an address inside a block that is no slot in use, breaks the slot allocator, and no other
  free does (`SlotAllocator.Allocator.FreeBuffer`).
- The comment at minhook/src/buffer.c:163 says 512 MB; the constant is 1024 MB.

## Model

| member | source | states |
|---|---|---|
| `MeshTheorems.MembershipAgreement` | src/DirectPlay8Peer.cpp:5503-5533 | in every run, for every open pair p, q and group tombstoned at neither: q's view of p's membership after reading everything p has sent is p's own, if and only if q has not missed p's latest change |
| `MeshTheorems.MembersConverge` | src/Messages.hpp:232-235 | with nothing in flight, q has p in a live group exactly when p has itself there, if and only if q missed nothing about it |
| `MeshTheorems.SameMembers` | src/Messages.hpp:232-235 | with nothing in flight and nothing missed about a group, any two peers list the same members |
| `MeshTheorems.ConvergesExactly` | src/Messages.hpp:232-235 | when a run comes to rest, all peers hold the same groups, names, data and members if and only if nothing was missed about a live group |
| `MeshTheorems.SessionConverges` | src/Messages.hpp:232-235 | when a run without the two coincidences comes to rest, all peers hold the same groups, names, data, members and tombstones |
| `MeshTheorems.NothingMissed` | src/DirectPlay8Peer.cpp:4361-4440 | along a run nothing is ever missed if and only if no greeting leaves late and no joining player that is in a group completes a connection |
| `MeshTheorems.NeverMissedExactly` | src/DirectPlay8Peer.cpp:4839-4935 | the same equivalence for every run of a session from its beginning |
| `MeshTheorems.GroupsConverge` | src/DirectPlay8Peer.cpp:1507-1607 | under any interleaving of creates and (also concurrent) destroys, at quiescence each peer's live groups are those created minus those destroyed, and its tombstones are those destroyed |
| `MeshErasing.EraseOne` | src/DirectPlay8Peer.cpp:5409-5432 | the end of a destruction takes out that group at that peer, and everything else of the session is as it was |
| `MeshErasing.ComesToRest` | src/DirectPlay8Peer.cpp:1607 | from every reachable state without crashes in which nothing is in flight, the ends of the destructions under way lead to the rest that the theorems speak of; there each peer holds exactly the groups created and not destroyed |
| `MeshCreates.EachCallOnce` | src/DirectPlay8Peer.cpp:1421-1460 | in every run, for each player, name and data: the groups made and the requests still waiting are together as many as the calls of CreateGroup() |
| `MeshCreates.CreatedAsCalled` | src/DirectPlay8Peer.cpp:1348-1360 | in every run each group has the name and data that its creator called CreateGroup() with |
| `MeshGrants.EachCallMadeAGroup` | src/DirectPlay8Peer.cpp:1446-1460 | with nothing in flight there are as many groups of each player, name and data, alive or destroyed since, as calls |
| `MeshRequests.CallsMembership` | src/DirectPlay8Peer.cpp:1643-1980 | a peer changes its own membership and tells each connected peer; another peer it sends one request; nothing else in the session changes |
| `MeshRequests.RequestDone` | src/DirectPlay8Peer.cpp:5503-5533 | a request that reaches a peer with the group is carried out: the peer is in the group after a JOIN and not after a LEAVE, and everybody that it is connected to is told |
| `MeshRequests.UnknownGroupComes` | src/DirectPlay8Peer.cpp:5467-5500 | a JOIN for a group that is not known brings the group, with name and data, and the handler is then to go on as above |
| `MeshTheorems.TombstonesStay` | src/Messages.hpp:215-225 | a group that a peer has tombstoned and erased never enters its groups again, in any continuation |
| `MeshTheorems.MetadataAgreement` | src/DirectPlay8Peer.cpp:5359-5362 | in every reachable state two peers that hold a group hold the same name and data, whether from CREATE, JOIN, JOINED or a snapshot |
| `MeshTheorems.MembersAreConnected` | src/DirectPlay8Peer.cpp:704-722 | every member that a peer lists is itself or a connected peer, as the assertion in SendTo() needs |
| `MeshTheorems.IdentifiersUnique` | src/DirectPlay8Peer.cpp:1094-1097 | in every run identifiers are nonzero, below the host's counter and shared by no player and group; a group is created by the player that its identifier was granted to |
| `MeshTheorems.IdentifierFresh` | src/DirectPlay8Peer.cpp:5317-5319 | every step that lets in a player, grants an identifier or creates a group uses one that was never used before |
| `MeshTheorems.Always` | src/DirectPlay8Peer.cpp:5302-5770 | the whole invariant of a session holds after every run, for both programs |
| `MeshTheorems.ShippedAsDocumented` | src/DirectPlay8Peer.cpp:5467-5500 | a run of the documented program is one of the shipped program, to the same end, if and only if every handler that comes back from instantiating a group finds it gone |
| `MeshTheorems.CrashExactly` | src/DirectPlay8Peer.cpp:5492-5503 | a run of the shipped program crashes if and only if some such handler finds its group still there; without a crash it is a run of the documented program |
| `MeshWitness.DisagreementAfterJoin` | src/DirectPlay8Peer.cpp:4384-4440 | a run to a lasting disagreement: a greeting that leaves late |
| `MeshLate.DisagreementAfterLink` | src/DirectPlay8Peer.cpp:4839-4935 | a run of both programs to a lasting disagreement: a player is put into a group before another player's greeting arrives |
| `MeshCrash.ShippedCrashes` | src/DirectPlay8Peer.cpp:5603-5613 | a run of the shipped program to the null pointer |
| `MeshGreetings.AllConnected` | src/DirectPlay8Peer.cpp:4395-4410 | any two players that have joined are connected to each other, both ways |
| `MeshSpread.SpreadQuiet` | src/DirectPlay8Peer.cpp:1348-1384 | whoever has not heard of a creation or destruction has the news on its way from the very peer that did it, or is yet to be let in by that peer; handlers and calls keep this |
| `MeshMembers.AgreeQuiet` | src/DirectPlay8Peer.cpp:5613-5621 | calls and handlers keep the agreement between a peer's own membership and what is on its way about it |
| `MeshWire.SessionMoves` | src/SendQueue.cpp:62-92 | every step of every session makes one move of a simple connection (queue, hold the greeting, send the first, send the greeting when the queue is empty, handle the first on the wire) on each connection |
| `MeshWire.ConnectionMoves` | src/SendQueue.cpp:62-92 | in every run of the connection model, whatever else goes over it, each step makes at most two such moves, and the session's packet that a handler gets is the first on the wire |
| `GroupPeer.GroupPeer.SendToAll` | src/DirectPlay8Peer.cpp:1365-1384 | the loop over the peers appends the message to the queue of each connected peer, once, and changes nothing else |
| `GroupPeer.GroupPeer.CreateTheGroup` | src/DirectPlay8Peer.cpp:1348-1384 | the new group is in the table, unless it was, and announced to all connected peers |
| `GroupPeer.GroupPeer.CreateGroup` | src/DirectPlay8Peer.cpp:1421-1437 | the host uses its next identifier, any other peer asks for one |
| `GroupPeer.GroupPeer.DestroyGroup` | src/DirectPlay8Peer.cpp:1501-1582 | an unknown or tombstoned group is refused; otherwise tombstone and announcement |
| `GroupPeer.GroupPeer.Erase` | src/DirectPlay8Peer.cpp:1607 | the group is gone from the table and is no longer being destroyed; all others are as they were |
| `GroupPeer.GroupPeer.AddPlayerToGroup` | src/DirectPlay8Peer.cpp:1643-1800 | the four results; the peer itself joins and tells everybody, another player is asked |
| `GroupPeer.GroupPeer.RemovePlayerFromGroup` | src/DirectPlay8Peer.cpp:1833-1980 | likewise for leaving |
| `GroupPeer.GroupPeer.HandleGroupCreate` | src/DirectPlay8Peer.cpp:5347-5362 | a group enters the table only if it is neither there nor tombstoned |
| `GroupPeer.GroupPeer.HandleGroupDestroy` | src/DirectPlay8Peer.cpp:5409-5432 | the tombstone is set once, whether or not the group was known |
| `GroupPeer.GroupPeer.HandleJoin` | src/DirectPlay8Peer.cpp:5452-5533 | JOIN and JOINED up to the callback for an unknown group, with every early return and the acknowledgement that it sends |
| `GroupPeer.GroupPeer.SettleJoin` | src/DirectPlay8Peer.cpp:5503-5533 | what these handlers do with the group looked up, and the acknowledgement |
| `GroupPeer.GroupPeer.ResumeJoin` | src/DirectPlay8Peer.cpp:5492-5533 | what they do when the application has returned, in both programs |
| `GroupPeer.GroupPeer.HandleGroupLeave` | src/DirectPlay8Peer.cpp:5652-5703 | the peer leaves and tells everybody, if it was in the group; the acknowledgement in each case |
| `GroupPeer.GroupPeer.HandleGroupLeft` | src/DirectPlay8Peer.cpp:5730-5760 | the sender is taken out of a live, known group |
| `GroupPeer.GroupPeer.HandleGroupAllocate` | src/DirectPlay8Peer.cpp:5308-5319 | the next identifier goes to the player that asked, if it is connected |
| `GroupPeer.GroupPeer.HandleGranted` | src/DirectPlay8Peer.cpp:1446-1460 | a granted identifier creates the group that was asked for, once |
| `GroupPeer.GroupPeer.LetIn` | src/DirectPlay8Peer.cpp:4346-4440 | the host's answer: every tombstone, every live group, then the greeting with the host's own groups and the other players |
| `GroupPeer.GroupPeer.AnswerPeer` | src/DirectPlay8Peer.cpp:4750-4822 | the same between two players, all at one priority; an identifier that is known already is refused and changes nothing |
| `GroupPeer.GroupPeer.HandleWelcome` | src/DirectPlay8Peer.cpp:4560-4633 | the sender becomes connected and a member of the live, known groups that it named |
| `Bytes.LeRoundTrip` | src/packet.cpp:61-71 | numbers written in little-endian order are read back |
| `Bytes.LeDigits` | src/packet.cpp:61-71 | the i-th byte of a number is its i-th digit to the base 256, lowest first |
| `Bytes.U32Bytes` | src/packet.cpp:61-71 | the four bytes of a DWORD |
| `Bytes.WideBytes` | src/packet.cpp:82-97 | the two bytes of each character |
| `Bytes.WideUnique` | src/packet.cpp:194-212 | wide strings: the bytes are those of the characters read from them |
| `Packet.ParseEncode` | src/packet.cpp:111-137 | parsing what was serialised gives back the type and every chunk, in order, whatever follows |
| `Packet.FieldRoundTrip` | src/packet.cpp:50-109 | for any sequence of fields each getter returns the value that was appended at its index |
| `Packet.FieldsTile` | src/packet.cpp:120-136 | the fields found tile the value region exactly |
| `Packet.EncodeParse` | src/packet.cpp:111-137 | serialising the chunks of any packet that parses reproduces its bytes |
| `Packet.GettersExact` | src/packet.cpp:159-232 | a getter returns a value if and only if the chunk at its index is the one the serialiser writes for that value |
| `Packet.ParseErrors` | src/packet.cpp:111-137 | Incomplete exactly when the bytes end too soon, Malformed exactly when they do not but the value is not made of whole fields |
| `Packet.GetterErrors` | src/packet.cpp:144-232 | for each getter: MissingField exactly past the end, TypeMismatch exactly on another type, Malformed exactly on a value of the wrong length |
| `Packet.PacketSerialiser.Append` | src/packet.cpp:61-97 | appending and increasing the header length in place leaves the encoding of the longer list of chunks, length modulo 2^32 included |
| `Packet.Deserialise` | src/packet.cpp:111-137 | the loop of the constructor computes the parse, with its two errors |
| `Framing.Incremental` | src/DirectPlay8Peer.cpp:3572-3748 | splitting the stream into packets does not depend on how it is cut into reads |
| `Framing.RoomToRead` | src/DirectPlay8Peer.cpp:3524-3525 | when everything complete has been dispatched there is room for at least one more byte |
| `Framing.SplitTiles` | src/DirectPlay8Peer.cpp:3736-3742 | packets and remainder are the bytes received, nothing lost or made up |
| `Framing.SplitFlat` | src/DirectPlay8Peer.cpp:3576-3590 | from the bytes of any packets sent, the receiver gets exactly those before the first that is over MAX_PACKET_SIZE, and then drops the connection |
| `Framing.SplitExactly` | src/DirectPlay8Peer.cpp:3572-3625 | on any bytes whatever: each packet dispatched is whole, within the limit and parses; and the loop stops exactly for one of three reasons, a packet that is not all there, a header over the limit, or a packet that does not parse |
| `Framing.FramedEncode` | src/packet.cpp:33-109 | what the serialiser makes is a packet that the receiver's framing recognises |
| `Receiver.RecvBuffer.Drain` | src/DirectPlay8Peer.cpp:3572-3748 | the inner loop on the array: dispatch, move the rest to the front, stop or drop |
| `Receiver.RecvBuffer.IoPeerRecv` | src/DirectPlay8Peer.cpp:3508-3570 | whatever each recv() does, what was dispatched and what is buffered is the split of the bytes taken; each call before the peer was closing put at least a byte into the buffer and each later one dropped at least one; with bytes left, an open connection stops only at an empty socket, and fails exactly at an error |
| `SendQueue.RemoveExact` | src/SendQueue.cpp:94-181 | for any order of search, a removal takes the first matching operation with a handle, keeps the order of all others, and takes nothing exactly when nothing matches; it never touches `current` |
| `SendQueue.RemoveCancels` | src/SendQueue.cpp:94-181 | which lists are searched: one class alone for a priority; LOW, MEDIUM, HIGH for a handle; HIGH, MEDIUM, LOW for anything; the first that is meant leaves its list, the others stay, and without one nothing happens |
| `SendQueue.PickHighest` | src/SendQueue.cpp:62-86 | selection takes the front of the highest nonempty class, and nothing while an operation is being sent |
| `SendQueue.ClassesInOrder` | src/SendQueue.cpp:36-92 | in every run each class hands out its operations in the order they were queued, each once, leaving out exactly the cancelled ones |
| `SendQueue.SendQueue.GetPending` | src/SendQueue.cpp:62-86 | the lists and `current` after get_pending() |
| `SendQueue.SendQueue.Wrote` | src/DirectPlay8Peer.cpp:3453-3457 | partial sends advance sent_data; the operation leaves when all of it was sent |
| `SendQueue.SendQueue.RemoveQueued` | src/SendQueue.cpp:99-181 | the three removals on the lists in place: the first operation meant in the lists searched is taken out and returned, the other lists and `current` stay; None and no change exactly when there is none |
| `Connection.DispatchedInOrder` | src/DirectPlay8Peer.cpp:3425-3472 | for every schedule of enqueues, cancels, partial writes, partial reads, handlers, closes and losses the packets dispatched are an initial part of those promoted to `current`; never a malformed packet, and a drop over size only before a packet that is too big |
| `Connection.ClassArrivesInOrder` | src/SendQueue.cpp:62-92 | from the calls of send() to the far side's handlers, each priority class arrives in the order of the calls without the cancelled operations and with no gap |
| `Connection.OneReceiver` | src/DirectPlay8Peer.cpp:3508-3541 | at most one thread is in the receive section, also while handlers have dropped the lock |
| `Connection.RecvHasRoom` | src/DirectPlay8Peer.cpp:3524-3551 | every recv() has room for a byte, so 0 means that the other side has shut down and everything has been read |
| `Connection.AllArrives` | src/DirectPlay8Peer.cpp:3544-3551 | a connection that is not closing and has come to rest, or to the end of the stream, has dispatched everything |
| `Connection.SentAsCalled` | src/SendQueue.cpp:36-60 | in every run the queue's record of each class is the sends of that class that the run made, in order |
| `Connection.CancelOnRecord` | src/SendQueue.cpp:94-181 | a cancellation takes what it is for out of the queue and puts it on record |
| `ConnectionProgress.Delivers` | src/DirectPlay8Peer.cpp:3425-3748 | from every reachable open state, sends, reads and handlers alone lead to an end: everything sent and not cancelled has been dispatched, class by class in order, or the receiver has given up on a packet over the limit with all before it dispatched; the first exactly when no packet that left is over the limit |
| `ConnectionProgress.EndsInOrder` | src/DirectPlay8Peer.cpp:3544-3551 | a connection at rest can be shut down: the next recv() reports the end of the stream, with everything dispatched |
| `ConnectionEnds.NothingReadAfterClose` | src/DirectPlay8Peer.cpp:3562-3570 | once a peer is in PS_CLOSING, in any continuation nothing that is read is dispatched, only what was in the buffer |
| `ConnectionEnds.NothingAfterTheEnd` | src/DirectPlay8Peer.cpp:3544-3560 | after the end of a connection nothing is dispatched and its reason stays |
| `Acks.SameIdExactly` | src/DirectPlay8Peer.cpp:6002-6011 | two requests have the same identifier exactly when they are a multiple of 2^32 - 1 apart |
| `Acks.AtMostOnce` | src/DirectPlay8Peer.cpp:5083-5094 | in every run each callback is called at most once, and each request is queued, waiting or called |
| `Acks.AckExactly` | src/DirectPlay8Peer.cpp:5083-5094 | in every run an ack is for a request whose callback was registered; it calls that callback exactly when it is waiting, and nothing exactly when no request a whole number of cycles away is |
| `Acks.FailCalls` | src/DirectPlay8Peer.cpp:3896-3918 | when the connection breaks, what was not written and what was waiting is called once and is then neither |
| `Acks.NeverCrashes` | src/DirectPlay8Peer.cpp:6021-6025 | as long as nothing is outstanding for a whole cycle the assertion in register_ack() holds |
| `Acks.RegisteredBeforeAck` | src/DirectPlay8Peer.cpp:3453-3470 | within a cycle an ack always finds the callback of its own request, unless that was failed before |
| `Acks.Unwrapped` | src/DirectPlay8Peer.cpp:6002-6025 | before the counter wraps that condition holds in every run, and with it the assertion |
| `Acks.RegisterExactly` | src/DirectPlay8Peer.cpp:6021-6025 | in every run the assertion fails exactly when a request that is a whole number of cycles away is waiting |
| `Acks.AssertionFailsAfterWrap` | src/DirectPlay8Peer.cpp:6002-6025 | a run to the failing assertion |
| `Acks.AckTable.AllocAckId` | src/DirectPlay8Peer.cpp:6002-6011 | the counter makes the protocol's step: the identifier is that of the new request, stepping over 0 |
| `Acks.AckTable.RegisterAck` | src/DirectPlay8Peer.cpp:6021-6025 | the assertion holds exactly in the protocol's steps that do not crash, and the table then is the protocol's |
| `Acks.AckTable.TakeAck` | src/DirectPlay8Peer.cpp:5083-5094 | the callback taken out is the one that the protocol's step calls, if it calls one |
| `Acks.AckTable.FailOne` | src/DirectPlay8Peer.cpp:3908-3918 | one turn of the loop takes out one callback, which is the one that the protocol's step calls |
| `Latch.CompletesOnce` | src/DirectPlay8Peer.cpp:794-868 | for any number of parts and any order the completion is raised at most once, exactly when as many have reported as there were at the start and were added in the run, with the first failure to arrive; the counter never goes below 0 |
| `Latch.NothingAfter` | src/DirectPlay8Peer.cpp:1531-1582 | after the completion nothing can be added or reported |
| `Latch.FirstFailure` | src/DirectPlay8Peer.cpp:735-754 | the result is S_OK exactly when all reports are, and otherwise the earliest that is not |
| `Latch.Completion.HandleSendComplete` | src/DirectPlay8Peer.cpp:794-830 | one report on the shared counter and result |
| `Latch.Completion.AddPart` | src/DirectPlay8Peer.cpp:1562-1568 | one more part to wait for, with the result and the completions as they were |
| `Cleanup.Session.CancelAll` | src/DirectPlay8Peer.cpp:304-323 | with arbitrary changes at every release, the loop ends exactly in the first state without a cancellable send; before each release one send of the peer was cancelled, and nothing else was changed |
| `Cleanup.CancelledAt` | src/DirectPlay8Peer.cpp:304-323 | the k-th send cancelled was one of the application's, and was taken out of the k-th state |
| `Cleanup.OnlyInternalLeft` | src/SendQueue.cpp:94-97 | what is then still queued has no handle |
| `Cleanup.Session.LeaveGroups` | src/DirectPlay8Peer.cpp:5915-5943 | likewise for the first state in which the player is in no group; before each release it was taken out of one group that it was in |
| `Cleanup.Session.ShutdownAll` | src/DirectPlay8Peer.cpp:4002-4060 | likewise for the first state in which every peer is closing; each turn shuts down a peer that was not closing, and a connected one is in PS_CLOSING, with nothing else changed, when its release begins |
| `Cleanup.Session.DestroyAllPeers` | src/DirectPlay8Peer.cpp:3993-4000 | each turn leaves the world that the release made without one of the peers seen before it; the loop ends in the first world it sees without peers |
| `Cleanup.Session.DestroyAllGroups` | src/DirectPlay8Peer.cpp:4062-4077 | each turn takes out one group, after a release exactly when it was not being destroyed already and with the tombstone set before that release; the loop ends in the first world it sees without groups |
| `Cleanup.ErasedOnRecord` | src/DirectPlay8Peer.cpp:4069-4075 | every group taken out is on record as destroyed in the end, if releases take nothing off that record |
| `ConnectReply.ReplyReadExactly` | src/DirectPlay8Peer.cpp:4478-4560 | for every number of peers and groups the joiner reads back the host's reply, field by field, if and only if the announced count is the number of entries written |
| `ConnectReply.FieldAt` | src/DirectPlay8Peer.cpp:4388-4435 | which field is at which index |
| `ConnectReply.FieldNames` | src/DirectPlay8Peer.cpp:4388-4435 | the same field by field, for every number of peers and groups |
| `ConnectReply.WritePeers` | src/DirectPlay8Peer.cpp:4397-4407 | the host's loop appends the table |
| `ConnectReply.ReadPeers` | src/DirectPlay8Peer.cpp:4635-4639 | the joiner's loop reads it, stopping at the first wrong field |
| `AsyncHandles.KindRecovered` | src/AsyncHandleAllocator.hpp:50-59 | a handle is never 0 and its high bits tell its kind and no other |
| `AsyncHandles.SameHandleExactly` | src/AsyncHandleAllocator.cpp:33-44 | two handles are equal exactly when of one kind and a multiple of 2^29 - 1 allocations apart |
| `AsyncHandles.BitsAreSums` | src/AsyncHandleAllocator.cpp:35-37 | on these operands the bitwise operators are the sums used in the model |
| `AsyncHandles.AllOnesExactly` | src/AsyncHandleAllocator.hpp:33-34 | 0xFFFFFFFF is the last handle of each RPGROUP cycle and no other |
| `AsyncHandles.AsyncHandleAllocator.New` | src/AsyncHandleAllocator.cpp:33-44 | the n-th call for a kind returns its n-th handle and leaves the other counters alone |
| `HandlePool.AddedExactly` | src/HandleHandlingPool.cpp:89-103 | adding keeps the wake-up event at exactly the multiples of the block size and registers one more pair |
| `HandlePool.RemovedExactly` | src/HandleHandlingPool.cpp:222-255 | removing keeps that layout and takes out one registration of the handle, or nothing if there is none |
| `HandlePool.CallsRegistered` | src/HandleHandlingPool.cpp:282-303 | whatever index a wait returns, the callback called is one registered for that handle, never the aborting one |
| `HandlePool.ServedOnce` | src/HandleHandlingPool.cpp:272-282 | every handle is in the range of one block and no other |
| `PoolWorkers.Population` | src/HandleHandlingPool.cpp:105-188 | in every run of adds, removes and exits each existing block has exactly threads_per_pool workers, each base index never more, and the spawn count never underflows |
| `PoolWorkers.Served` | src/HandleHandlingPool.cpp:105-188 | in every run the workers on record are exactly the threads started that have not exited; each block that exists, and with it each handle, is served by threads_per_pool of them |
| `PoolWorkers.Represents` | src/HandleHandlingPool.cpp:89-255 | after every run an addition adds its handle and callback to what the table represents, and a removal takes out one registration of the handle with its callback |
| `PoolWorkers.TallyKept` | src/HandleHandlingPool.cpp:89-255 | in every run a handle is in the table as often as it was added and not removed |
| `PoolWorkers.RunStands` | src/HandleHandlingPool.cpp:89-255 | in every run in which no handle is added twice, the table stands for exactly the pairs that the steps leave registered |
| `PoolWorkers.Pool.AddHandle` | src/HandleHandlingPool.cpp:68-202 | vectors and workers after add_handle(), with the counting and starting loops |
| `PoolWorkers.Pool.RemoveHandle` | src/HandleHandlingPool.cpp:204-258 | vectors after remove_handle() |
| `PoolWorkers.Pool.WorkerExit` | src/HandleHandlingPool.cpp:321-337 | the worker leaves the set, and no other does; the table stays |
| `PoolWorkers.Pool.Woken` | src/HandleHandlingPool.cpp:282-303 | a worker calls something exactly when woken by another handle than the wake-up event |
| `PoolHandshake.WorkersNeverSleep` | src/HandleHandlingPool.cpp:262-270 | a worker sees pending_writer only while a writer holds pending_writer_lock, so its condition wait never blocks |
| `PoolHandshake.Exclusion` | src/HandleHandlingPool.cpp:72-87 | while a writer has the vectors no worker reads them and no other writer has them |
| `PoolHandshake.BoundedWait` | src/HandleHandlingPool.hpp:95-127 | under any schedule a waiting writer is passed by a bounded number of steps |
| `PoolHandshake.TakesOnce` | src/HandleHandlingPool.hpp:95-127 | while a writer waits each worker takes wait_lock at most once more |
| `PoolHandshake.NotStuck` | src/HandleHandlingPool.cpp:72-87 | a waiting writer can go on, or the writer that has wait_lock can, or a worker that has it; and every such worker can let go of it |
| `PoolProgress.NoDeadlock` | src/HandleHandlingPool.cpp:68-310 | from every reachable state the calls under way can be finished: all threads are out of add_handle() and remove_handle() and every worker that has not left is in its wait |
| `PoolProgress.NextCallGetsIn` | src/HandleHandlingPool.hpp:95-127 | from there any thread can call either and get the vectors to itself |
| `Regions.FindPrevFreeRegion` | minhook/src/buffer.c:89-115 | the nearest free granule below, not under the minimum; terminates |
| `Regions.FindNextFreeRegion` | minhook/src/buffer.c:121-147 | the nearest free granule above, not over the maximum; terminates |
| `Regions.NewRegion` | minhook/src/buffer.c:160-220 | a new block is within MAX_MEMORY_RANGE of the origin with all its bytes; NULL only if no granule in range can be had or the system does not answer |
| `SlotAllocator.RoundingFindsBlock` | minhook/src/buffer.c:270 | rounding the address of a slot gives its block |
| `SlotAllocator.SlotsApart` | minhook/src/buffer.c:228-238 | slots overlap neither each other nor a header |
| `SlotAllocator.BuildList` | minhook/src/buffer.c:228-238 | the list of a new block runs through all its slots, and other blocks' links stay |
| `SlotAllocator.Allocator.GetMemoryBlock` | minhook/src/buffer.c:151-244 | a registered block in reach with a free slot if there is one, with the list of blocks unchanged; otherwise a new one at its head; NULL only if neither is there nor can be had |
| `SlotAllocator.Allocator.AllocateBuffer` | minhook/src/buffer.c:247-264 | a slot within range that nobody has, from a registered block whenever one in reach has a free slot; NULL only if there is none, and the system does not answer or has no granule in range; free and used slots partition each block and usedCount counts the used ones |
| `SlotAllocator.Allocator.Use` | minhook/src/buffer.c:43-50 | writing into a slot in use, where its link was, breaks no list |
| `SlotAllocator.Allocator.FreeBuffer` | minhook/src/buffer.c:266-303 | the allocator stays sound if and only if the address is a slot in use or in no block; then the slot is free again and its block is released exactly with its last used slot |

## Left out

- Players leaving a session, failed joins, kicked players and session termination: the session model only lets players in. Host migration does not exist in the program.
- Wrap-around of the host's 32-bit identifier counter: identifiers are natural numbers; with them IdentifiersUnique and IdentifierFresh hold before the counter wraps.
- GroupPeer.GroupPeer.HandleWelcome: does not model the releases of the lock between the groups of the loop, which is one step of the session model too; only that connection's own messages change the sender's membership, and those wait for the handler.
- The bytes of group messages inside the session model: messages there are values; Packet, Connection and MeshWire cover their transport.
- Acknowledgements of JOIN and LEAVE in the session model: the handlers of GroupPeer return them, and Acks covers their bookkeeping.
- Packets with 4 GB or more in the value, which the length field cannot express: the connection model queues packets that the serialiser can make, and its socket keeps the order of bytes, as TCP does.
- Write errors, and sends queued while a peer is being destroyed: nothing is claimed about every callback being called eventually, only at most once.
- The bookkeeping of `player_to_peer_id` (src/DirectPlay8Peer.cpp:4018 erases by the wrong key): ConnectReply takes the announced count as a parameter.
- The inside of peer_destroy(): in Cleanup its releases of the lock are one release, after which the peer is gone.
- Exceptions of the vectors, thread start failures, failing waits and the destructor of the pool, and the one zombie thread that worker_exit() joins.
- The 32-bit build of the slot allocator (slots of 32 bytes, blocks anywhere), UninitializeBuffer() and IsExecutableAddress().
- The last loop of TerminateSession(), which never advances its iterator, and the getsockopt failure path of io_peer_connected().
- Host enumeration, addresses, COM plumbing, logging, and DirectPlay8Address, whose string copies confuse characters and bytes.
