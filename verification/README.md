# Verification of the RapidIO fabric-management software

This project models, in Dafny, the parts of the RapidIO software stack whose correctness
rests on more than one function, and proves what holds over whole runs of them.
`dafny verify dfyconfig.toml` checks everything.

**Replication of the device directory.** A master daemon keeps a directory of devices and
flags and replicates it to slave daemons over one ordered channel each. `Directory` is the
table and the map it implements, `Messages` and `Convergence` say what a message and a
broadcast do to a slave, `Replication` and `ReplicationProof` give the transition system and
its whole-run theorems, `MasterDaemon` and `SlaveDaemon` are the handlers as they run.
`PeerThreads` and `PeerThreadsProof` model the same master at the granularity of its
semaphores, with any number of threads interleaving. Membership agrees at rest under every
interleaving. Flags do not: `FlagAgreement` proves that they agree under a guard: no flag is
changed, and no peer listed, while a message that would then be wrong is still on its way to a
listed peer. `Broadcasts` shows how a broadcast runs in any order of its messages, and
`StaleFlags` that the guard is exact when all threads but one are at rest, and how flags go out
of step from every state at rest with two connected peers. `Departures` shows how a peer leaves.

**Enumeration and component tags.** `DeviceIds` and `CompTags` are the allocators of device
ids and component tags, `Fabric` is the network as probing shows it, with every way an access
can fare as an input, `TagBalance` follows the tags that enumeration creates through the
allocators and onto the devices, `Enumeration` is the two-pass worklist, and
`EnumerationFailures` holds two small networks on which one failing access leaves a tag
unsettled.

**Connection scheduling.** `Scheduler` is the file-transfer server's acceptor, workers, queue
and pause mode.

**Supporting components.** `KeyedList` (the doubly linked list), `MockQueue` and `GuardedHeap`
(the unit-test library's return-value queues and allocator), `IntervalStats` (time statistics)
and `RingLog` (the log ring buffer).

Code that changes things step by step is a class or a method with a loop, proved equal to a
function on values; the theorems are about the functions and about runs of them.

Where the code does not do what one would expect, the model follows the code:

- Deleting from a full directory shifts the entries and is then refused
  (`Directory.DelIsRemovalIffNotFull`).
- Overlapping broadcasts can leave a slave with an old flag (`StaleFlags.FlagsDisagree`,
  `StaleFlags.ReachedFromStart`); under the guard they cannot (`FlagAgreement.FlagsAgree`,
  `StaleFlags.GuardExact`).
- An eight-bit device-id request can be answered with a wider id, which can then not be
  released (`DeviceIds.EightBitOverflowIff`, `DeviceIds.CreateThenRelease`).
- A probe can label and connect a device and still report an I/O error, which enumeration
  tolerates. Unless the device is found again while its tag is in hand, the tag goes to a second
  device or is released, and a switch is never searched (`EnumerationFailures.LateFailure`);
  `TagBalance.SettledIff` and `Enumeration.Enumerator.Traverse` give the exact condition.
- When the tag of a newly labelled device cannot be read back, the tag is released although
  the device bears it (`EnumerationFailures.UnreadableTag`).
- A tag made for eight bits whose id is wider cannot be given back (`TagBalance.ReleaseOwn`).
- The count of queued connections wraps at 65536; work is conserved all the same
  (`Scheduler.WorkConserving`). Without memory a connection that must wait is lost.
- The pause command writes its flag outside the mutex, so that a new connection can overtake
  waiting ones (`Scheduler.OvertakesIff`, `Scheduler.Overtaken`).
- An average can fall below the minimum once the total reaches 2^64 nanoseconds
  (`IntervalStats.MeanBelowLeast`).
- A worker of the file-transfer server that finishes a transfer during a pause is not marked as
  idle and waits for ever; one pause at the wrong moment can stop the only worker
  (`Scheduler.OutOfWork`, `Scheduler.OnePauseTooMany`, `Scheduler.WaitingIsJustified`).
- The minimum interval is wrong if the first sample is rejected and all accepted ones are
  longer than 0xFFFFFFFF seconds (`IntervalStats.StatisticsAreRight`).
- The branch that announces a device to itself as its own port is never reached from a
  broadcast, because a broadcast skips equal source and target; the model keeps the branch.

## Model

| member | source | states |
|---|---|---|
| `ReplicationProof.SlavesConverge` | fabric_management/daemon/src/fmd_master.c:215-352 | in every run of hello, flag, disconnect, local-flag and receive steps, working off a listed slave's channel leaves it with exactly the master's keys and, for every other device, the master's entry as sent (flag without the port bit, hop count, name) |
| `ReplicationProof.LocalPortStays` | fabric_management/daemon/src/fmd_slave.c:133-230 | in every run `loc` designates the own port in the master and in every slave, and the next message from the master never alters a slave's own entry |
| `ReplicationProof.RunKeeps` | fabric_management/daemon/src/fmd_master.c:215-451 | the invariant over in-flight messages holds after every run |
| `ReplicationProof.StepKeeps` | fabric_management/daemon/src/fmd_master.c:282-451 | each protocol step keeps that invariant |
| `ReplicationProof.HelloKeeps` | fabric_management/daemon/src/fmd_master.c:282-352 | a HELLO, accepted or denied, keeps it: the new slave starts empty and every slave is announced everybody |
| `ReplicationProof.FlagKeeps` | fabric_management/daemon/src/fmd_master.c:354-399 | a flag report keeps it; reports naming another key, or a device not in the directory, change nothing |
| `ReplicationProof.MasterAppKeeps` | fabric_management/daemon/src/fmd_app.c:129-158 | a flag change by an application on the master keeps it |
| `ReplicationProof.SlaveAppKeeps` | fabric_management/daemon/src/fmd_app.c:129-158 | a flag change by an application on a slave, with its report to the master, keeps it |
| `ReplicationProof.SlaveReceiveKeeps` | fabric_management/daemon/src/fmd_slave.c:232-343 | a slave working off one message keeps it |
| `ReplicationProof.CleanupListed` | fabric_management/daemon/src/fmd_master.c:414-427 | the end of a listed connection keeps it: the remaining slaves' channels delete exactly that device |
| `ReplicationProof.CleanupUnlisted` | fabric_management/daemon/src/fmd_master.c:414-427 | the end of a connection that never completed its HELLO changes neither directory nor other channels |
| `ReplicationProof.SpreadRestores` | fabric_management/daemon/src/fmd_master.c:215-263 | a broadcast re-establishes the invariant from the state in which only the broadcast is missing |
| `Convergence.ShareSyncs` | fabric_management/daemon/src/fmd_master.c:215-263 | the part of one broadcast that a slave receives, applied to a directory that is near the master's, makes it agree on every device but itself, and spares the slave's own entry |
| `Convergence.MessageBringsView` | fabric_management/daemon/src/fmd_master.c:82-181 | one ADD (flags ORed in) or FSET (flags overwritten) leaves the slave with the wanted entry for that device and all others unchanged |
| `Convergence.NoLonger` | fabric_management/daemon/src/fmd_slave.c:144-180 | a slave directory whose keys all occur in the master's is no longer than it, so it never overflows |
| `Messages.BroadcastShare` | fabric_management/daemon/src/fmd_master.c:240-260 | the doubly nested send loop appends to each peer's channel exactly one message per other device, in directory order, whatever the order of targets |
| `Messages.SpareAll` | fabric_management/daemon/src/fmd_slave.c:232-343 | a sequence of messages that do not name a slave leaves its own entry alone, and its effect on the rest does not depend on that entry |
| `Messages.UpdateCarriesAddFlag` | fabric_management/daemon/src/fmd_master.c:82-181 | for a healthy entry the flag of an FSET equals the flag of an ADD |
| `MasterDaemon.Master.UpdateAll` | fabric_management/daemon/src/fmd_master.c:215-263 | the channels afterwards are the broadcast of the directory copy |
| `MasterDaemon.Master.SendItem` | fabric_management/daemon/src/fmd_master.c:240-260 | nothing for the own entry, the master port or an unlisted target; otherwise the ADD or FSET of the source |
| `MasterDaemon.Master.SendAdd` | fabric_management/daemon/src/fmd_master.c:123-181 | the announcement carries the right flag, port mark and name, and none is sent for a device whose peer is not listed |
| `MasterDaemon.Master.ProcessHello` | fabric_management/daemon/src/fmd_master.c:282-352 | a known peer is answered, listed, added to the directory and broadcast; an unknown one is denied and nothing else changes |
| `MasterDaemon.Master.ProcessFlagSet` | fabric_management/daemon/src/fmd_master.c:354-399 | the flag is set and broadcast exactly when the report names the sender's own entry and that entry exists |
| `MasterDaemon.Master.CleanupPeer` | fabric_management/daemon/src/fmd_master.c:414-427 | list and directory lose the peer, and each remaining peer is sent its removal exactly when the directory delete succeeded |
| `MasterDaemon.Master.SendRemovals` | fabric_management/daemon/src/fmd_master.c:266-280 | each listed peer's channel gains the removal once |
| `SlaveDaemon.Slave.ProcessFset` | fabric_management/daemon/src/fmd_slave.c:319-343 | an FSET overwrites the flag of the matching entry, if there is one |
| `SlaveDaemon.Slave.UpdateMasterFlags` | fabric_management/daemon/src/fmd_slave.c:521-560 | the report names the entry `loc` designates, with its application bits; no report if `loc` is out of range |
| `SlaveDaemon.PortStays` | fabric_management/daemon/src/fmd_slave.c:150-223 | in every run of adds, deletes, flag and local changes that spares the port, also at the limit of the table, `loc` designates the port and reports name it |
| `SlaveDaemon.FirstAdded` | fabric_management/daemon/src/fmd_slave.c:150-178 | the same from an empty table whose first entry is the port |
| `SlaveDaemon.PortStep` | fabric_management/daemon/src/fmd_app.c:129-158 | a local flag change sets or clears exactly its bits in the port entry, which stays first, and touches no other entry |
| `Directory.AddRefinesInsert` | fabric_management/daemon/src/fmd_slave.c:133-188 | with room to spare, adding is insert-or-update on the map from keys to entries: unique keys, old flag ORed, other entries in place |
| `Directory.DelRefinesRemove` | fabric_management/daemon/src/fmd_slave.c:190-230 | with room to spare, deleting is removal from that map |
| `Directory.SetFlagRefinesUpdate` | fabric_management/daemon/src/fmd_slave.c:319-343 | setting a flag changes that entry's flag and nothing else |
| `Directory.DelIsRemovalIffNotFull` | fabric_management/daemon/src/fmd_slave.c:190-230 | deleting a present key is a removal exactly when the table is not full; a full table is shifted and then refused |
| `Directory.DeviceTable.AddDevice` | fabric_management/daemon/src/fmd_slave.c:133-188 | the table after the call, and its result, are those of the add function |
| `Directory.DeviceTable.DelDevice` | fabric_management/daemon/src/fmd_slave.c:190-230 | the table after the call, and its result, are those of the delete function |
| `Directory.DeviceTable.Search` | fabric_management/daemon/src/fmd_slave.c:144-150 | the index of the first entry with the key, or the number of entries |
| `Directory.DeviceTable.SetDeviceFlag` | fabric_management/daemon/src/fmd_master.c:376-389 | found exactly when present, and only that flag changes |
| `Directory.DeviceTable.ChangeLocalFlag` | fabric_management/daemon/src/fmd_app.c:129-158 | raises or drops the flag of the port `loc` designates; an empty or all-ones flag, or a stale `loc`, changes nothing |
| `PeerThreadsProof.NoAddAfterDel` | fabric_management/daemon/src/fmd_master.c:131-213 | under every interleaving of peer threads at semaphore granularity no channel carries an ADD found through a connection after the DEL of that connection |
| `PeerThreadsProof.MembershipAgrees` | fabric_management/daemon/src/fmd_master.c:215-280 | under every such interleaving, whenever all threads are at rest, a connected slave's channel shows a device if and only if the directory holds it |
| `PeerThreadsProof.RunKeeps` | fabric_management/daemon/src/fmd_master.c:123-427 | the semaphore-level invariant (exclusion, no stale post, nothing unsound, nothing owed and forgotten) holds after every run |
| `PeerThreadsProof.StepKeeps` | fabric_management/daemon/src/fmd_master.c:123-427 | each of the sixteen kinds of step keeps it |
| `CompTags.LifeMovesOn` | fabric_management/libct/src/ct.c:367-393 | over any run a number only moves from free to in use to expired |
| `CompTags.NeverReused` | fabric_management/libct/src/ct.c:86-163 | an automatic choice never returns a number that any earlier creation of the run returned, across releases and the wrap of the position |
| `CompTags.ExhaustedIff` | fabric_management/libct/src/ct.c:86-110 | no numbers left is reported if and only if all of 1..65535 are used or expired (or, where an id is drawn too, the ids ran out) |
| `CompTags.EntryCounts` | fabric_management/libct/src/ct.c:123-393 | at any point of any run an entry equals creations minus releases, and has expired exactly when they balance after at least one |
| `CompTags.FailureChangesNothing` | fabric_management/libct/src/ct.c:177-255 | a failing call leaves every number and every device id as they were, the id reserved on the way included |
| `CompTags.ApplyEffect` | fabric_management/libct/src/ct.c:123-393 | a successful call adds or removes exactly one tag of exactly one number |
| `CompTags.ChoiceEffect` | fabric_management/libct/src/ct.c:123-163 | an automatic choice takes a number that was free and not 0 |
| `CompTags.PackUnpack` | fabric_management/libct/src/ct.c:69-69 | packing a number with a device id and unpacking returns both, and is never the unset tag |
| `CompTags.TagTable.NextNr` | fabric_management/libct/src/ct.c:86-110 | the two search loops return the next free number in cyclic order |
| `CompTags.TagTable.CreateAllTag` | fabric_management/libct/src/ct.c:123-163 | table, position, pool and results are those of the function |
| `CompTags.TagTable.CreateTagFromData` | fabric_management/libct/src/ct.c:177-212 | likewise, with the id given back when the tag cannot be made |
| `CompTags.TagTable.CreateTagFromNrAndDid` | fabric_management/libct/src/ct.c:225-255 | likewise |
| `CompTags.TagTable.CreateTagFromDid` | fabric_management/libct/src/ct.c:266-299 | likewise |
| `CompTags.TagTable.Release` | fabric_management/libct/src/ct.c:367-393 | likewise; the last release expires the number |
| `DeviceIds.CreateThenRelease` | fabric_management/libdid/src/did.c:123-282 | releasing an id just created restores the pool exactly when the id fits the requested size; otherwise the release is refused |
| `DeviceIds.EightBitOverflowIff` | fabric_management/libdid/src/did.c:123-177 | an eight-bit request is answered with a wider id exactly when the position is past the eight-bit ids, none of them is free and a wider one below the position is |
| `DeviceIds.DidTable.CreateDid` | fabric_management/libdid/src/did.c:123-177 | table, position and result are those of the function |
| `DeviceIds.DidTable.CreateDidFromData` | fabric_management/libdid/src/did.c:193-238 | likewise |
| `DeviceIds.DidTable.GetDid` | fabric_management/libdid/src/did.c:297-323 | likewise |
| `DeviceIds.DidTable.ReleaseDid` | fabric_management/libdid/src/did.c:252-282 | likewise |
| `Scheduler.FirstComeFirstServed` | utils/file_transfer/server.c:735-757 | in every run the sockets handed to workers followed by those waiting are the sockets admitted, in order; with memory for the queue they are all the sockets accepted |
| `Scheduler.WorkConserving` | utils/file_transfer/server.c:468-481 | in every reachable state without a pause sockets wait only while no valid buffer is completed, and the 16-bit count is the queue length exactly while that fits |
| `Scheduler.RunKeeps` | utils/file_transfer/server.c:541-757 | the invariant and the order hold after every run |
| `Scheduler.StepKeeps` | utils/file_transfer/server.c:541-757 | each critical section keeps the invariant and appends exactly the admitted socket |
| `Scheduler.BatchKeeps` | utils/file_transfer/server.c:468-481 | a batch keeps the order and leaves no idle worker beside a waiting socket |
| `Scheduler.FinishKeeps` | utils/file_transfer/server.c:618-624 | a worker's completion, on a fresh or an outdated pause flag, keeps order and invariant |
| `Scheduler.PauseHolds` | utils/file_transfer/server.c:736-757 | under a pause an arrival is queued and handed to nobody until the limit is reached, which ends the pause |
| `Scheduler.OvertakesIff` | utils/file_transfer/server.c:484-505 | an arrival between the unprotected flag write and the batch overtakes exactly when the flag was cleared, a worker is idle and something waits |
| `Scheduler.Overtaken` | utils/file_transfer/server.c:484-505 | such a state is reached by a pause and one arrival |
| `Scheduler.RequestQueue.Add` | utils/file_transfer/server.c:541-560 | the linked queue gains the socket at the end, or nothing without memory, with a tail that means nothing while the queue is empty |
| `Scheduler.RequestQueue.Pop` | utils/file_transfer/server.c:562-575 | the linked queue yields its first socket |
| `Scheduler.Server.BatchStart` | utils/file_transfer/server.c:468-481 | state after the loop is that of the batch function |
| `Scheduler.Server.Dispatch` | utils/file_transfer/server.c:735-757 | state after the acceptor's critical section is that of the accept function |
| `Scheduler.Server.Complete` | utils/file_transfer/server.c:618-624 | state after the worker's critical section is that of the finish function |
| `Scheduler.Server.PauseCmd` | utils/file_transfer/server.c:484-505 | state after the command is that of the pause function, limit truncated to eight bits |
| `KeyedList.SortedAndStable` | common/liblist/src/liblist.c:113-195 | any run of keyed adds, removals and pops on a list sorted by key leaves it sorted by key, whatever the items; with entries stamped as they come to the list the same run leaves stamps rising among equal keys, and the list is that one with items in place of stamps |
| `KeyedList.FirstInFirstOut` | common/liblist/src/liblist.c:59-111 | over any run of pushes and pops, popped items followed by the contents are the old contents followed by the pushed items |
| `KeyedList.List.PushTail` | common/liblist/src/liblist.c:59-85 | appends with key 0; the two chains stay inverse and counted |
| `KeyedList.List.PopHead` | common/liblist/src/liblist.c:87-111 | returns and unlinks the first item, or nothing |
| `KeyedList.List.AddKey` | common/liblist/src/liblist.c:113-169 | the new node sits at the place its key calls for, all others keep their order; nothing without memory |
| `KeyedList.List.LRemove` | common/liblist/src/liblist.c:171-195 | unlinks exactly the given node |
| `KeyedList.List.Find` | common/liblist/src/liblist.c:210-230 | the first node with the key, or null |
| `KeyedList.List.Walk` | common/liblist/src/liblist.c:237-255 | walking with head and next visits every item once, in order |
| `MockQueue.EveryRunYields` | common/libcmocka/src/cmocka.c:675-760 | in every run over any number of functions, each function's calls return its registered values in order, a positive count that many times and a negative one for ever, and its queue holds what is left |
| `MockQueue.ReportedIff` | common/libcmocka/src/cmocka.c:788-883 | a function is reported at the end if and only if its registrations are not used up by its calls |
| `MockQueue.UsedUpIff` | common/libcmocka/src/cmocka.c:788-819 | the head-only drop empties a queue exactly when all earlier counts were met and the last was met, reached, or never owed |
| `MockQueue.CleanEffect` | common/libcmocka/src/cmocka.c:788-819 | the traversal drops the head of exactly the queues in for-ever use and removes the emptied ones |
| `MockQueue.MockTable.Add` | common/libcmocka/src/cmocka.c:675-706 | the value joins the end of the function's queue, which is created if missing |
| `MockQueue.MockTable.Get` | common/libcmocka/src/cmocka.c:715-760 | the first value is returned and counted down, and an emptied queue disappears; none if nothing is registered |
| `MockQueue.MockTable.RemoveAlwaysReturned` | common/libcmocka/src/cmocka.c:788-819 | the table afterwards is the cleaned one |
| `MockQueue.MockTable.CountLeftover` | common/libcmocka/src/cmocka.c:845-883 | the number of functions with values left |
| `GuardedHeap.Layout` | common/libcmocka/src/cmocka.c:1827-1854 | for every size and address header, front guard, payload and rear guard follow each other inside the raw block |
| `GuardedHeap.Heap.Malloc` | common/libcmocka/src/cmocka.c:1827-1854 | an aligned payload between intact guards, the block last in the list, and no byte outside the raw block written |
| `GuardedHeap.Heap.Free` | common/libcmocka/src/cmocka.c:1870-1909 | succeeds exactly when both guards are intact, then unlists exactly this block and writes only inside it |
| `GuardedHeap.Heap.Realloc` | common/libcmocka/src/cmocka.c:1913-1950 | the common prefix of the contents moves to an intact new block, the old block is erased and unlisted, and nothing outside the two changes; a null pointer allocates, size zero frees; fails exactly when the old guards are damaged |
| `GuardedHeap.Heap.Store` | common/libcmocka/src/cmocka.c:1840-1843 | a write inside a payload damages no live block's guard |
| `IntervalStats.StatisticsAreRight` | common/libtime_utils/src/time_utils.c:189-231 | after any series of samples total and maximum are those of the accepted intervals, and the minimum is right exactly when the first sample was accepted or an interval of at most 0xFFFFFFFF seconds was; always so under a limit of that many seconds |
| `IntervalStats.MeanBetween` | common/libtime_utils/src/time_utils.c:160-231 | the total divided by the number of accepted intervals is at most the maximum; it is at least a right minimum exactly when the total modulo 2^64 ns is at least minimum times number, hence for all totals below 2^64 ns |
| `IntervalStats.QuotientExactIff` | common/libtime_utils/src/time_utils.c:160-172 | the division is exact (rounded down) if and only if the nanoseconds fit 64 bits |
| `IntervalStats.Tracker.TrackLim` | common/libtime_utils/src/time_utils.c:189-231 | the three results after the call are those of the function |
| `RingLog.HoldsTheLatest` | common/include/circ_buf.h:49-107 | after any run of pushes, clears and dumps the buffer holds the latest min(N, k) values pushed since the last clear, in order |
| `RingLog.CircBuf.PushBack` | common/include/circ_buf.h:49-68 | the contents become the latest N of contents and value, for every N >= 1 |
| `RingLog.CircBuf.Write` | common/include/circ_buf.h:69-102 | emits the contents, oldest first, and leaves the buffer as it was |
| `RingLog.CircBuf.Reset` | common/include/circ_buf.h:104-107 | empties the buffer |
| `ReplicationProof.FlagsArrive` | fabric_management/daemon/src/fmd_slave.c:521-560 | end to end: once the reporter has read the answer to its HELLO, its upward channel is empty and the observer's downward channel is empty, the observer holds for the reporter exactly the flag the reporter itself would report |
| `MasterDaemon.HelloIsStep` | fabric_management/daemon/src/fmd_master.c:282-352 | what ProcessHello promises of table and lines holds of the protocol's hello step |
| `MasterDaemon.FlagSetIsStep` | fabric_management/daemon/src/fmd_master.c:354-399 | what ProcessFlagSet promises of table and lines holds of the protocol's flag step |
| `MasterDaemon.CleanupIsStep` | fabric_management/daemon/src/fmd_master.c:414-427 | what CleanupPeer promises of table and lines holds of the protocol's disconnect step |
| `SlaveDaemon.Slave.ProcessMod` | fabric_management/daemon/src/fmd_slave.c:232-317 | an ADD whose device the kernel has or takes, and a DEL, change the table as the protocol step says; any other ADD changes nothing; each is answered |
| `SlaveDaemon.Slave.ProcessHelloResponse` | fabric_management/daemon/src/fmd_slave.c:401-410 | an accepted HELLO is followed by the port's report; a denied one ends the thread |
| `Directory.DeviceTable.CloseGap` | fabric_management/daemon/src/fmd_slave.c:213-219 | the table without the deleted entry, followed by the left-over last slot |
| `FlagAgreement.FlagsAgree` | fabric_management/daemon/src/fmd_master.c:215-399 | at semaphore granularity: at rest after any run in which each change of a flag, and each listing of a peer, happens while no message that would then be wrong is still on its way to a listed peer, every connected slave holds exactly the master's flag for every other device; hellos, harmless reports and removals overlap freely, ADD ORs and FSET overwrites |
| `FlagAgreement.StepFlags` | fabric_management/daemon/src/fmd_master.c:123-427 | each guarded step keeps the flag invariant: what is still to be sent to a listed peer, and what a line shows, is right, or some broadcast under way still owes the overwrite |
| `StaleFlags.FlagsDisagree` | fabric_management/daemon/src/fmd_master.c:236-260 | from every state at rest with two connected peers, in whatever order broadcasts send, some run ends at rest with one slave holding a flag for the other that is not the master's |
| `StaleFlags.Hello` | fabric_management/daemon/src/fmd_master.c:282-352 | from every state at rest a new peer can connect and, in whatever order its broadcast sends, all threads come to rest again with that peer in the directory |
| `StaleFlags.ReachedFromStart` | fabric_management/daemon/src/fmd_master.c:215-399 | from the start of the master two peers connect and their flags go out of step, in whatever orders the two hellos and the two flag reports send |
| `Fabric.Network.Probe` | fabric_management/libriocp_pe/src/riocp_pe.c:587-803 | an unknown device is labelled with the offered tag and connected, a known switch is connected, a connected port yields nothing; all this stands when the probe fails at its very end and reports an I/O error, while an earlier failure changes nothing; a new connection uses up an open port |
| `TagBalance.SettledIff` | fabric_management/daemon/src/fmd_net.c:207-318 | for a tag that enumeration created, and whichever devices count as unaccepted: in use with its id taken and borne by exactly one device, or expired with its id free and borne by none, exactly when as many unaccepted devices bear it as releases of it were refused; Enumeration.Enumerator.Traverse says which devices these are |
| `TagBalance.ReleaseOwn` | fabric_management/libct/src/ct.c:367-393 | releasing a tag in use expires its number and frees its id exactly when the id fits the size; otherwise nothing changes |
| `TagBalance.MadeFits` | fabric_management/libct/src/ct.c:123-163 | a created tag's id does not fit exactly when it was made for eight bits and is wider; a sixteen-bit id always fits |
| `TagBalance.MadeIsLive` | fabric_management/libct/src/ct.c:123-163 | a created tag is in use once, its id is taken and is the one it packs |
| `TagBalance.MadeIsApart` | fabric_management/libct/src/ct.c:123-163 | a created tag shares neither number nor id with any tag in use |
| `TagBalance.TakeKeeps` | fabric_management/daemon/src/fmd_net.c:226-233 | a tag taken in hand is no known label and collides with none created before |
| `TagBalance.LabelKeeps` | fabric_management/daemon/src/fmd_net.c:240-252 | a device labelled by a probe bears the tag in hand, which is not thereby accepted |
| `TagBalance.AcceptKeeps` | fabric_management/daemon/src/fmd_net.c:276-285 | accepting a device that bears the tag in hand places the tag on exactly that device and disturbs no other |
| `TagBalance.ReleaseEnds` | fabric_management/daemon/src/fmd_net.c:219-222 | releasing the tag in hand ends its story in the allocators and leaves the other tags in use |
| `Enumeration.Enumerator.Traverse` | fabric_management/daemon/src/fmd_net.c:66-330 | terminates on every finite topology and any sequence of failures, and on every exit all records are freed. On every exit each created tag is settled exactly under the condition of TagBalance.SettledIff, the unaccepted devices are among those whose probe failed at its end, plus at most one when a tag could not be read, and every new device bears the label the configuration gives behind the port where it was met, or a created tag, or none, the allocator being exhausted. On success every port of the start and of every queued switch was probed if the configuration mentions it and recorded otherwise, every queued switch is a configured device, every accepted new switch has had its ports, or those of a switch with its label, probed or recorded, and in automatic mode every recorded port was probed. Without automatic mode only configured ports are probed and no tag is created |
| `Enumeration.Enumerator.ConfiguredPass` | fabric_management/daemon/src/fmd_net.c:96-204 | on success every start port and every port of every queued switch was probed if the configuration mentions it and recorded otherwise, queued switches are configured devices, and every accepted switch shares its label with a queued one; on every exit exactly the unmentioned ports were recorded and only mentioned ones probed, a new device has the label the configuration gives behind the port where it was met, and devices are left unaccepted only by probes that failed at their end, but for one whose tag could not be read |
| `Enumeration.Enumerator.ScanPort` | fabric_management/daemon/src/fmd_net.c:97-187 | a port that the configuration does not mention is recorded unless memory runs out; one that it mentions is probed, and a device met there must bear the expected tag, is accepted, and if a switch is queued unless one with its tag waits; each kind of failure ends the scan exactly when the access fails in that way |
| `Enumeration.Enumerator.Enqueue` | fabric_management/daemon/src/fmd_net.c:165-186 | a switch joins the end of the queue exactly when none with its tag is waiting |
| `Enumeration.Enumerator.AutoPass` | fabric_management/daemon/src/fmd_net.c:207-318 | on success no record is left and every port of every switch accepted on the way was recorded; on every exit all created tags have come to their end, new devices bear created tags, or none if the allocator is exhausted, and devices are left unaccepted only by probes that failed at their end, but for one whose tag could not be read |
| `Enumeration.Enumerator.AutoPort` | fabric_management/daemon/src/fmd_net.c:217-312 | one turn of the automatic loop shrinks the open ports or the list and keeps the balance; a new device, switch or not, ends up with the tag in hand, and is accepted if the probe and the reading of its tag work, left unaccepted if the probe fails at its end or the tag cannot be read back |
| `Enumeration.Enumerator.Connected` | fabric_management/daemon/src/fmd_net.c:262-311 | a device bearing the tag in hand is accepted, also when memory then runs out, and otherwise all ports of a switch are recorded; another device leaves the tag in hand; an unreadable tag releases it and accepts nobody |
| `Enumeration.Enumerator.TakeTag` | fabric_management/daemon/src/fmd_net.c:226-233 | a tag is created only when none is in hand; it is in no device's register and was never created before |
| `Enumeration.Enumerator.GiveBack` | fabric_management/daemon/src/fmd_net.c:219-222 | the allocator's state after the release, whether it was refused, and with it the end of every created tag |
| `Enumeration.Enumerator.FreeAll` | fabric_management/daemon/src/fmd_net.c:320-330 | every remaining record is freed, each once |
| `Enumeration.Enumerator.Recall` | fabric_management/daemon/src/fmd_net.c:217-238 | the first record leaves the list and is freed, and was live |
| `EnumerationFailures.LateFailure` | fabric_management/daemon/src/fmd_net.c:240-252 | on a network of three devices where the first probe fails at its end, the pass ends well with one tag on two devices and a known switch never searched |
| `EnumerationFailures.UnreadableTag` | fabric_management/daemon/src/fmd_net.c:269-274 | on the same network where the first tag cannot be read back, the tag is released although a device bears it |
| `GuardedHeap.AllocatedSince` | common/libcmocka/src/cmocka.c:1954-1983 | while the block that marks a checkpoint is live, what follows it in the heap's list is exactly the live blocks allocated since |
| `GuardedHeap.Heap.CountSince` | common/libcmocka/src/cmocka.c:1961-1983 | the count is the number of live blocks allocated since the checkpoint, over any history of allocations and frees that spares its block |
| `GuardedHeap.Heap.CheckPoint` | common/libcmocka/src/cmocka.c:1954-1956 | the checkpoint is the last listed block, or the list head |
| `IntervalStats.Difference` | common/libtime_utils/src/time_utils.c:118-130 | the difference in nanoseconds of any two times, negative ones included; normalized if they are |
| `IntervalStats.Sum` | common/libtime_utils/src/time_utils.c:140-150 | the sum in nanoseconds; normalized if the times are |
| `StaleFlags.GuardExact` | fabric_management/daemon/src/fmd_master.c:215-399 | with all threads but one at rest, that one in any phase of its handler, and no wrong flag shown or on its way: a flag change or a listing satisfies the guard if and only if, however the threads finish what they have begun, no slave holds a wrong flag at rest |
| `StaleFlags.Disagreement` | fabric_management/daemon/src/fmd_master.c:215-399 | every violation of the guard with all threads but one at rest (a pair still to be sent, asked for or held, by a hello or a report, or a newcomer already told), in whatever order the two broadcasts send, has a run of those two threads to rest and a wrong flag |
| `Broadcasts.FinishJob` | fabric_management/daemon/src/fmd_master.c:123-263 | a broadcast left anywhere, even with a semaphore held, can be worked off in any order while nobody else holds one, and leaves at each line it was to tell the flag of its copy; announcements only add to what a line shows |
| `IntervalStats.MeanBelowLeast` | common/libtime_utils/src/time_utils.c:160-172 | one interval of 2^64 ns: the average is zero, below the minimum |
| `Enumeration.Enumerator.ScanExpected` | fabric_management/daemon/src/fmd_net.c:116-187 | the exact outcome of a mentioned port: fatal failure, unreadable tag, wrong tag, or success with the device accepted and, if a switch, queued |
| `TagBalance.NoneLeft` | fabric_management/libct/src/ct.c:123-163 | once no tag can be had, none can be had again |
| `Scheduler.WaitingIsJustified` | utils/file_transfer/server.c:597-625 | in every reachable state a worker is idle, or holds a socket, or had seen a pause when it last finished; outside a pause sockets wait only while each valid worker has one or was put out of work by a pause |
| `Scheduler.FinishAnswers` | utils/file_transfer/server.c:612-624 | a worker that saw no pause takes the socket that waits longest and, if none waits, is idle again; one that saw a pause is left with nothing and nothing is handed out |
| `Scheduler.HandedIsHeldOrDone` | utils/file_transfer/server.c:468-624 | in every run in which workers finish only what they were given, each socket was handed over exactly as often as a worker holds it now or has finished it |
| `Scheduler.OutOfWork` | utils/file_transfer/server.c:605-624 | a worker that finished under a pause is never given a socket again |
| `Scheduler.OnePauseTooMany` | utils/file_transfer/server.c:605-624 | with one worker, a pause that falls on the end of a transfer means that no further socket is ever handed over |
| `Scheduler.PauseAnswers` | utils/file_transfer/server.c:485-506 | the command sets flag and limit, the limit cut to eight bits, and the pause ends at once if the limit is reached |
| `DeviceIds.LookupTells` | fabric_management/libdid/src/did.c:297-323 | over any run of creations and releases an id is good exactly when the last successful call on it created it; other proper values are expired, and any other value is refused |
| `DeviceIds.DrawnInTurn` | fabric_management/libdid/src/did.c:123-180 | the id drawn is the first free one from the position on below the size's bound, or else the first free one below the position; none can be drawn exactly when neither exists |
| `DeviceIds.CreateValueIff` | fabric_management/libdid/src/did.c:193-238 | an explicit creation succeeds exactly when the value suits the size and is not taken; which failure is reported otherwise |
| `DeviceIds.ReleaseIff` | fabric_management/libdid/src/did.c:252-282 | a release succeeds exactly when the value suits the size named and is taken; which failure is reported otherwise |
| `CompTags.FromDidIff` | fabric_management/libct/src/ct.c:266-299 | succeeds exactly when a number is free and the id is in use; the tag packs that id; which failure is reported otherwise |
| `CompTags.FromNrAndDidIff` | fabric_management/libct/src/ct.c:225-255 | succeeds exactly when the number is not 0 and not expired and the id is in use; the tag packs both and the position stays; which failure is reported otherwise |
| `CompTags.FromDataIff` | fabric_management/libct/src/ct.c:177-212 | succeeds exactly when the number is not 0 and not expired and the value suits the size and is not taken; the tag packs both |
| `CompTags.AllIff` | fabric_management/libct/src/ct.c:123-163 | succeeds exactly when a number is free and an id can be drawn; the tag packs that id, which is then in use |
| `CompTags.ReleaseTagIff` | fabric_management/libct/src/ct.c:367-393 | succeeds exactly when the number is in use and the id suits the size named and is in use |
| `CompTags.ChosenInTurn` | fabric_management/libct/src/ct.c:86-110 | an automatic choice takes the first free number from the position on, or else the first free one before it, and moves the position past it |
| `Directory.LocalChange` | fabric_management/daemon/src/fmd_app.c:129-158 | raising a flag sets its bits in the local port's flag and dropping it clears them; no other bit and no other entry changes |
| `Directory.RaiseThenDrop` | fabric_management/daemon/src/fmd_app.c:129-158 | raising a flag nobody had raised and dropping it again restores the directory |
| `Directory.LocalChangeRefused` | fabric_management/daemon/src/fmd_app.c:129-158 | without a local port, and for no flag or all flags, nothing changes |
| `ReplicationProof.LocalChangeArrives` | fabric_management/daemon/src/fmd_app.c:129-158 | end to end: after an application on a slave's node raises or drops a flag, with nothing else changed there, every other slave whose channel has drained sees exactly those bits set or clear and the other application bits as they were |
| `SlaveDaemon.AnswersAre` | fabric_management/daemon/src/fmd_slave.c:232-410 | what a slave sends in answer to each message: its flags to an accepted HELLO, nothing to a refused one or a flag update, one response otherwise |
| `MasterDaemon.RefusalIsStep` | fabric_management/daemon/src/fmd_master.c:282-311 | a refused HELLO changes nothing but the peer's own line, which gets the refusal |
| `MasterDaemon.IgnoredIsStep` | fabric_management/daemon/src/fmd_master.c:354-399 | a report before the HELLO, for another key or for an unknown device changes nothing beyond having been read |
| `Directory.AddFullIff` | fabric_management/daemon/src/fmd_slave.c:133-197 | into a full directory only an update succeeds; otherwise nothing changes |
| `Directory.FullDelShifts` | fabric_management/daemon/src/fmd_slave.c:199-230 | in a full directory the entries behind the deleted one have moved up although the call is refused, and the last slot is stale or blank |
| `IntervalStats.AcceptedIff` | common/libtime_utils/src/time_utils.c:189-211 | a sample counts exactly when it lasts from nothing up to a normalized limit, both included; under any other limit seconds are compared first and then nanoseconds |
| `Departures.Goodbye` | fabric_management/daemon/src/fmd_master.c:266-427 | from every state at rest a listed peer can leave: in whatever order the others are told, each of them is told once, its device is out of the directory, and all threads come to rest |

## Left out

- Fabric.Network.Probe: registers, routes and locks behind a probe are not modelled, nor a handle that is destroyed again after its connection was recorded; a tag written to a device that then gets no handle is not counted as its label. In the configured pass the source also rewrites the tag register of a device it reaches when that differs from the expected tag, known devices included; here a known device keeps its tag, and a differing one ends the pass.
- Enumeration.Enumerator.Traverse: coverage is stated per label where two accepted devices share one, because the queue is searched by tag.
- Enumeration.Enumerator.TakeTag: that the numbers of configured and known tags are taken in the allocator is required, as the configuration reader does it.
- ReplicationProof.SlavesConverge: a handler is one step here; the finer steps are in PeerThreads.
- FlagAgreement.FlagsAgree: the guard is sufficient in every state and exact with all threads but one at rest (StaleFlags.GuardExact); from a violation amid several threads a run to rest need not exist, because the master can deadlock.
- PeerThreadsProof.MembershipAgrees: broadcasts started by applications on the master are not among the threads.
- SlaveDaemon.Slave.ProcessMod: the result code in the answer is not modelled; in the protocol the kernel takes every device.
- Directory.DeviceTable.AddDevice: names are not truncated to their buffer.
- Scheduler.HandedIsHeldOrDone: a worker is taken to finish only a transfer that it was given; a semaphore count left over from an earlier hand-off, which can wake an idle worker, is not modelled here, while the other results hold for such wake-ups too.
- CompTags.EntryCounts: the count of tags per number is not limited to the width of int.
- MockQueue.MockTable.Add: a count of zero fails the test in the original and is excluded.
- GuardedHeap.Heap.Malloc: the raw allocator is taken to succeed with a block clear of all live ones; addresses do not wrap; the header is that of a 64-bit build, and its fields are kept beside the memory, not in its bytes.
- GuardedHeap.Heap.CountSince: nothing is said once the block that marks the checkpoint is freed, because the list is then entered through freed memory.
- IntervalStats.Tracker.TrackLim: seconds and nanoseconds are unbounded integers; the statistics are proved for normalized times.
- Run assumptions of the replication model: one live connection per key, distinct device ids above 0, one HELLO per connection carrying the slave's own key, a slave directory that starts with its port alone, fewer than 64 devices, application flags that avoid the OK and MP bits, a consistent directory copy, and sends that succeed.
- Deadlock freedom of the master: `fmd_master.c` takes tx_mtx and peers_mtx in both orders.
- ct_from_value: it masks without shifting and so always looks at number 0.
- Liveness and wake-ups of the file-transfer workers, and the shutdown paths, which run outside the mutex.
- Null-pointer arguments of the list and allocator functions.
- Sockets, ioctls, memory mapping, signals, sysfs, configuration parsing, command line and log text: foreign calls and presentation; where they matter they are step inputs or free choices.
- Expected-call ordering, parameter checks and formatting in the unit-test library: they would only add easy members.
