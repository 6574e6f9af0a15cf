# rendr in Dafny

Dafny models of the concurrent cores of rendr: the UDP port-forward
ingress, QUIC datagram accounting, the admission tables, the test kit's frame
tracker and fake datagram network, the L4 metadata codec, the Listener's
pending queue, the event queue, join groups, the flow-class tracker and the
TCP forwarder.

`dafny verify dfyconfig.toml` checks everything.

## How the models are built

A concurrent part is a transition system. Each mutex region, each atomic
update and each call into code outside the model is one step; a disabled step
changes nothing; a list of steps is one interleaving. The theorems hold for
every list of steps: they speak of `Exec(Init(...), steps)`, or of any s with
`Reachable(s)`, the state after some list. Times, random choices, the outcome
of calls and the order of goroutines are inputs of the steps. Entries that Go
shares by pointer live in a sequence and are named by their place in it.

Beside the transition systems stand classes whose methods change the source's
fields in place and are proved to be the transitions. Where the source keeps
arrays, links or a heap, so does the class (`QuicRings`, `TombIndex`,
`DgramHeap`, `EventQueue.Ring`). Some classes hold more than the source's
fields. `IngressServe.UdpServe` and `SessionTable.Table` also keep what is
local to goroutines in the source: where the reader stands, updates and
releases still to do, the shares of other calls, tombstones on their way.
`Listener.Backlog`, `JoinGroup.Group` and `DgramNet.Network` keep history in
ghost fields. `DgramNet.Network` keeps its sockets as values and uses the
functions that `DgramHeap.Endpoint` is proved to compute. `QuicSend`,
`Snapshot` and `Forwarder` are transition systems only.

| files | what |
|---|---|
| `Ingress`, `IngressSafety`, `IngressSteps`, `IngressRuns`, `IngressServe` | the UDP ingress: model, invariant, steps, theorems, lock regions |
| `IngressPlaces`, `IngressCounters`, `IngressFates` | where each of its datagrams is, what each counter shows, what became of each datagram |
| `IngressHolds` | when a source is held and when an entry leaves |
| `IngressAges` | how long a waiting datagram has waited |
| `QuicRx`, `QuicSend`, `QuicRings`, `RingWindow`, `Bytes` | drop inference, the sender, the two rings |
| `SessionTable`, `SessionTombs`, `TombIndex` | the session table, how long its tombstones answer, the tombstone index |
| `Snapshot`, `SnapshotCategories` | the category counters, their sum and each of them |
| `FrameTracker`, `FrameRelay`, `FramePlans` | the byte transducer, what it does to streams of frames, at which frames armed operations fire |
| `HostNames`, `Metadata` | host names and the L4 metadata codec |
| `DgramHeap`, `DgramLink`, `DgramBooks`, `DgramTraces`, `DgramNet` | the fake datagram link, its books and the history of every copy |
| `Listener`, `EventQueue`, `JoinGroup` | pending sessions, events, join groups |
| `FlowClass`, `Forwarder` | stream promotion and TCP forwarding |

## Model

| member | source | states |
|---|---|---|
| `IngressRuns.DeliveredOrCounted` | l4/portforward_udp.go:247-505 | Every interleaving of the reader, the flows' goroutines, hold ends, evictions, replacements and the stop: datagrams taken = the seven counters + those an entry, a flush, a call or a pending counter update still holds; equal once nothing runs ("delivered or counted", l4/doc.go) |
| `IngressFates.OneFate` | l4/portforward_udp.go:247-641 | Every interleaving: a datagram taken is in exactly one place (the reader's hand, an entry's first, firstQ or queue, a flush's batch) or has exactly one fate, one not taken has neither; its fate is ToSession if and only if a WriteTo of it returned nil or it rode the OPEN (l4/doc.go:173-174) |
| `IngressFates.FatesCounted` | l4/portforward_udp.go:247-641 | Every interleaving: each of the seven counters, with the updates still to come, is the number of datagrams with that fate; once nothing runs it is exactly that number and every datagram has a fate |
| `IngressFates.FatesExplained` | l4/portforward_udp.go:247-641 | Every fate has its reason: at some step the datagram left its place, and the state before shows why (no unit and no victim in the sample, 256 opening, held or ended too early, pushed out of a full queue, stopped or ended session, over a second old, larger than the session's payload); a flushed datagram is given to the session only while it lives and if its size and age allow it |
| `IngressAges.AgesAreTrue` | l4/portforward_udp.go:247-502 | Every run: a datagram that waits carries the time at which the reader last brought it to the table, in the queue, as the first datagram moved back after an OPEN that did not carry it, or in a flush's batch; so the second after which it is dropped counts from then |
| `IngressAges.StepStamps` | l4/portforward_udp.go:247-688 | One step of any actor: what waits at an entry waited before, was just handed over with the step's time, or is its first datagram with the time the entry began |
| `IngressPlaces.StepFair` | l4/portforward_udp.go:247-688 | One step of any actor: no datagram is doubled or comes back; one that leaves its place is counted by the thread that takes it, for a reason the state before shows; a successful WriteTo takes its datagram out |
| `IngressCounters.StepKind` | l4/portforward_udp.go:247-688 | One step of any actor changes what at most one counter shows or is about to show: the one it names |
| `IngressRuns.SessionOrder` | l4/portforward_udp.go:437-505 | Every run: the WriteTo calls on one flow's session come in the client's arrival order, and only that client's datagrams reach it, although the queue is flushed outside the lock |
| `IngressRuns.UnitsAndGauges` | l4/portforward_udp.go:297-399 | Every run: the MaxFlows counter = table entries + releases still owed + other calls' units, never above MaxFlows; the three gauges count the entries in each state; map and dense array hold the same entries with the right idx; all units are back when nothing runs |
| `IngressRuns.ClosedOnceAndReentryOnce` | l4/portforward_udp.go:362-399 | Every run: an entry's done closes at most once and only after it left the table; a replace re-enters datagram at most once, as a newcomer |
| `IngressRuns.VictimSafe` | l4/flowtable.go:283-302 | A victim is a sampled entry that is held, or (with PromoteActive) open, no stream and idle since before it was examined |
| `IngressRuns.EvictionSpares` | l4/portforward_udp.go:297-339 | Admitting a newcomer never ends an opening flow, nor an open flow that is a stream when victim examines it (stream and last change outside the table lock) |
| `IngressRuns.StopIsFinal` | l4/portforward_udp.go:668-688 | After the stop, no step opens or holds an entry again: each keeps its state or leaves |
| `IngressRuns.StepInv` | l4/portforward_udp.go:247-688 | Every step of every actor keeps the ingress invariant (table, units, gauges, conservation, order, done) |
| `IngressRuns.RunInv` | l4/portforward_udp.go:247-688 | The invariant holds after every list of steps |
| `IngressRuns.AdmitInv` | l4/portforward_udp.go:297-339 | admit, with or without a victim, or refused at MaxFlows or at the opening limit, keeps the invariant |
| `IngressRuns.KnownInv` | l4/portforward_udp.go:247-289 | A datagram of a known client, whatever its entry's state, keeps the invariant |
| `IngressRuns.WriteDoneInv` | l4/portforward_udp.go:272-289 | Every outcome of the reader's WriteTo keeps the invariant, the failed write that leads to replace included |
| `IngressRuns.ReplaceInv` | l4/portforward_udp.go:362-399 | Every branch of replace keeps the invariant |
| `IngressRuns.EvictInv` | l4/portforward_udp.go:317-328 | Evicting a victim keeps the invariant: its unit passes to the newcomer |
| `IngressSteps.PushKeeps` | l4/flowtable.go:186-202 | push keeps the queue's count and byte bounds and the arrival order, and reports exactly what it dropped |
| `IngressSteps.FlushOneLocal` | l4/portforward_udp.go:479-502 | One flushed datagram is counted exactly once and given to the session only in its turn |
| `IngressSteps.FlushTakeInv` | l4/portforward_udp.go:461-478 | The flush's lock region hands the queue over, opens the entry only when the queue is empty, or gives all to the stop, and keeps the invariant |
| `IngressSteps.OpenFailedInv` | l4/portforward_udp.go:612-641 | A failed open counts every waiting datagram and keeps the invariant |
| `IngressSteps.EndInv` | l4/portforward_udp.go:547-584 | The end of a flow's session (hold or leave) keeps the invariant |
| `IngressHolds.HeldExactly` | l4/portforward_udp.go:362-641 | Every run: a step makes an entry held if and only if its open failed with no stop, or its far end closed it (EOF read by its goroutine, net.ErrClosed seen by the reader's write) less than 5 s after its dial returned, the entry still in the table and no stop set |
| `IngressHolds.OtherEndsLeave` | l4/portforward_udp.go:362-641 | Every run: every other failed open or end takes the entry out of the table with its unit, released, owed, or passed on to the client's new entry |
| `IngressHolds.LeavesOnly` | l4/portforward_udp.go:297-661 | Every run: an entry leaves the table only at its own end, when its hold is over, or evicted for a newcomer while all MaxFlows units are in use, being in the sample and held, or (with PromoteActive) open, no stream when examined, its open and its latest datagram in either direction at least a second ago |
| `IngressHolds.StepMoves` | l4/portforward_udp.go:247-688 | One step of any actor: an entry is held, opened (its queue empty, no stop), dialled or taken out exactly as the rules say, or keeps its state and times |
| `IngressSteps.HoldInv` | l4/portforward_udp.go:645-661 | The end of a hold keeps the invariant, its unit released at most once |
| `IngressSafety.DelTable` | l4/flowtable.go:74-86 | The swap-delete keeps map and dense array holding the same entries, each with its own idx |
| `IngressSafety.PutTable` | l4/flowtable.go:66-70 | put keeps map and dense array holding the same entries |
| `Ingress.Overflow` | l4/flowtable.go:186-202 | How many of the oldest push drops: the least number after which the newcomer fits both bounds |
| `IngressServe.UdpServe.Push` | l4/flowtable.go:186-202 | push's loop, in place, is the ingress transition and reports the datagrams it dropped |
| `IngressServe.UdpServe.TakeQueue` | l4/flowtable.go:206-216 | takeQueue empties firstQ and q and returns them in order |
| `IngressServe.UdpServe.Put` | l4/flowtable.go:66-70 | put, in place, on map and dense array |
| `IngressServe.UdpServe.Del` | l4/flowtable.go:74-86 | del's swap-delete, in place: the table without the entry |
| `IngressServe.UdpServe.LeaveState` | l4/flowtable.go:247-256 | leaveState: the gauge of the state left goes down |
| `IngressServe.UdpServe.SetState` | l4/flowtable.go:235-246 | setState: gauges and state of exactly this entry change |
| `IngressServe.UdpServe.Remove` | l4/flowtable.go:261-269 | remove: out of gauge and table, done still to close; nothing twice |
| `IngressServe.UdpServe.Victim` | l4/flowtable.go:283-302 | victim's loop over a sample returns a permitted victim, and none only when the sample holds none |
| `IngressServe.UdpServe.NewEntry` | l4/portforward_udp.go:343-352 | newEntry: a fresh opening entry with its first datagram |
| `IngressServe.UdpServe.Admit` | l4/portforward_udp.go:297-339 | admit's region is the transition Admit |
| `IngressServe.UdpServe.EvictVictim` | l4/portforward_udp.go:317-328 | The eviction inside admit is the transition Evict |
| `IngressServe.UdpServe.PlaceEntry` | l4/portforward_udp.go:329-339 | Placing the newcomer is the transition Place |
| `IngressServe.UdpServe.Known` | l4/portforward_udp.go:247-289 | datagram's region for a known client is the transition Known |
| `IngressServe.UdpServe.PushKnown` | l4/portforward_udp.go:257-267 | A datagram queued at an opening entry, with what it displaced counted |
| `IngressServe.UdpServe.Replace` | l4/portforward_udp.go:362-399 | replace's region is the transition Replace |
| `IngressServe.UdpServe.HoldReplaced` | l4/portforward_udp.go:374-382 | replace's hold of an entry that ended early |
| `IngressServe.UdpServe.FlushLock` | l4/portforward_udp.go:461-478 | The flush's region is the transition FlushTake |
| `IngressServe.UdpServe.OpenEntry` | l4/portforward_udp.go:471-477 | An entry opened under the lock once its queue is empty |
| `IngressServe.UdpServe.OpenFailedLock` | l4/portforward_udp.go:612-641 | openFailed's region is the transition OpenFailed |
| `IngressServe.UdpServe.EndLock` | l4/portforward_udp.go:547-584 | end's region is the transition End (when it holds and when it leaves: IngressHolds.HeldExactly, IngressHolds.OtherEndsLeave) |
| `IngressServe.UdpServe.HoldLock` | l4/portforward_udp.go:645-661 | hold's final region is the transition HoldEnd |
| `QuicRx.AnyOrder` | quic/datagram.go:208-262 | Every schedule of sends, losses, late arrivals in any order and the pump, distances below 2^31: next is the number above the highest taken, lag is set exactly while one of the datagrams since the last in order was the 128th of its run, and the sum of take's results is the sum of the gaps shown during such an overflow |
| `QuicRx.BehindCountsNothing` | quic/datagram.go:259-262 | Every such run: a datagram behind one already taken adds nothing, leaves next, and leaves any lag to the datagram that shows the gap |
| `QuicRx.DropInference` | quic/datagram.go:219-262 | When datagrams arrive in order, every schedule of sends, losses and the pump with gaps below 2^31: the sum of take's results is the queue's drops before the last datagram taken plus the losses shown during an overflow (behind a datagram at least the 128th since the queue was found empty); so exact without loss, and 0 while no run reached 128 |
| `QuicRx.IngressDropsExact` | quic/datagram.go:155-207 | In order and without loss every datagram sent was delivered, is in IngressDrops, waits in quic-go's queue, or is a drop the next one taken will count |
| `QuicRx.GapExact` | quic/datagram.go:249-262 | Across every 32-bit wrap, ahead or behind, the inferred distance is the true one if and only if it is within 2^31 |
| `QuicRx.WireNumbers` | quic/datagram.go:333-345 | The k-th datagram accepted carries k modulo 2^32, whatever was refused in between and in whatever order they arrive |
| `QuicRx.FrameRoundTrip` | quic/datagram.go:189-207 | The receiver reads back the number and payload the sender framed |
| `QuicRx.RxSeq.TakeSeq` | quic/datagram.go:249-262 | take, in place on next, run and lag, is the modelled inference step, reordered datagrams included |
| `QuicRx.RxSeq.FoundEmpty` | quic/datagram.go:245-245 | empty restarts the run and nothing else |
| `QuicSend.AcceptedAccounted` | quic/datagram.go:270-427 | Every interleaving of WriteTo, the sender and Close: accepted = sent + EgressDrops (counted or about to be) + queued + at most one in hand or lost with the connection |
| `QuicSend.SentNumbers` | quic/datagram.go:270-345 | The numbers of sent datagrams are 0, 1, 2, ... modulo 2^32 without a hole |
| `QuicSend.SentInOrder` | quic/datagram.go:270-427 | Every run: the datagrams sent are, in order and each at most once, datagrams WriteTo accepted, unchanged, none older than egressAge when the sender looked; those it dropped for their age were older; the queue is the last accepted, in order |
| `QuicSend.QueueBounded` | quic/datagram.go:363-392 | Every run: at most 4096 datagrams queued, and their bytes within the configured bound unless a single datagram is queued |
| `QuicSend.NoWriteAfterExit` | quic/datagram.go:397-427 | Once the sender returned nothing is accepted, and its queue is empty |
| `QuicRings.Egress.At` | quic/datagram.go:484-484 | The masked slot index is the ring place of the k-th datagram |
| `QuicRings.Egress.CopyTo` | quic/datagram.go:487-497 | The copy loop puts the wrapped queue, in order, at the front of the new ring |
| `QuicRings.Egress.Grow` | quic/datagram.go:487-497 | The ring doubles and its FIFO contents stay |
| `QuicRings.Egress.Push` | quic/datagram.go:487-497 | push appends to the FIFO, through growth; bytes stays the sum of capacities |
| `QuicRings.Egress.Pop` | quic/datagram.go:501-510 | pop removes the oldest, a drained large ring is released |
| `QuicRings.Egress.Write` | quic/datagram.go:380-391 | WriteTo's region drops the least number of oldest datagrams that makes room (count, bytes, age), then queues; the bound holds after it |
| `QuicRings.Egress.MakeRoom` | quic/datagram.go:380-384 | The drop loop stops at the first point where the datagram fits |
| `QuicRings.Egress.Discard` | quic/datagram.go:416-427 | discard empties the queue and reports its length |
| `QuicRings.Ingress.Push` | quic/datagram.go:554-573 | The ingress ring appends in FIFO order through growth, refuses when full or closed |
| `QuicRings.Ingress.Grow` | quic/datagram.go:554-573 | Growth moves the FIFO contents unchanged |
| `QuicRings.Ingress.Fail` | quic/datagram.go:575-586 | fail closes the ring for later pushes and keeps or discards what is queued |
| `QuicRings.Ingress.Pop` | quic/datagram.go:593-640 | pop returns the oldest, or the error once drained |
| `RingWindow.MaskIsMod` | quic/datagram.go:484-484 | Masking with a power of two less one is the remainder |
| `RingWindow.WindowPush` | quic/datagram.go:487-497 | Writing the place behind a wrapping window appends to its contents |
| `RingWindow.WindowPop` | quic/datagram.go:501-510 | Advancing the head of a wrapping window drops its first element |
| `Snapshot.CountsAreASnapshot` | tables.go:351-371 | Every interleaving of inserts, placements, attaches, category changes and ends with a read: an exit through the validation test returns counters whose sum is the number of sessions in a live category at an instant inside the read |
| `SnapshotCategories.CategoriesAreASnapshot` | tables.go:351-371 | Every interleaving, an exit through the validation test: each of the four counters is the number of sessions of its own category at an instant inside the read, and one instant serves all four when no session was inserted or attached before the last counter was read |
| `Snapshot.CountersAddUp` | tables.go:278-315 | Every run: each of the four counters plus the sessions midway to it is the number of sessions in its category (category, tables.go:88-100); with no move in progress it is exactly that number, and the four add up to the live sessions |
| `Snapshot.SeenIsLive` | tables.go:351-371 | The counts a read saw were live counts of instants inside it |
| `SessionTable.UnitsConserved` | tables.go:165-339 | Every run: units = live entries (placeholders included) + reservations, within 0 and the configured maximum; each entry's unit is released exactly once, when it ends |
| `SessionTable.OneLivePerKey` | tables.go:210-259 | Every run: at most one live session per key |
| `SessionTable.TombstoneAnswers` | tables.go:189-221 | After a passive end, until the tombstone expires or the limit evicted it, an insert for the key gets the tombstone and changes nothing |
| `SessionTombs.TombstoneLasts` | tables.go:189-339 | Every run: a passive session inserted with a TTL that ended at t answers every insert of its key until t + TTL with its tombstone and the verdict of its end, nothing changing, unless the index's limit evicted it; from t + TTL on no insert gets it |
| `SessionTombs.EndsOnlyOwn` | tables.go:247-339 | Every run: an entry ends exactly by the end of its own session, or by anyone's while it is a placeholder; until then it keeps the session inserted or attached, and only that session's calls change what is noted of it |
| `SessionTombs.PushEvictsOldest` | tables.go:423-442 | What a push evicts was indexed before all that stays, and only from a full index |
| `SessionTable.IndexedAreHeld` | tables.go:351-406 | With no push or drop in progress and the index pruned, the shards' tombstones are exactly the indexed ones |
| `SessionTable.DropSparesOthers` | tables.go:397-406 | drop deletes no live entry and no newer entry of the same key |
| `SessionTable.PruneExact` | tables.go:445-458 | prune takes exactly the expired out of the index, within its limit |
| `SessionTable.Table.Reserve` | tables.go:165-178 | reserve takes a unit exactly when one is free |
| `SessionTable.Table.GetLocked` | tables.go:189-201 | getLocked returns the entry, deleting an expired tombstone on the way |
| `SessionTable.Table.InsertSession` | tables.go:210-221 | insertOrGet inserts exactly when the key holds nothing |
| `SessionTable.Table.PlaceSession` | tables.go:228-242 | placeDialer puts the placeholder, or reports the collision |
| `SessionTable.Table.AttachSession` | tables.go:247-259 | attach fills the placeholder once |
| `SessionTable.Table.EndSession` | tables.go:317-339 | ended turns the session's own live entry into a tombstone or removes it, releasing one unit; a second call does nothing |
| `TombIndex.Index.Push` | tables.go:423-442 | push: the unexpired in order plus the new one, beyond the limit less the oldest; expired and evicted are returned |
| `TombIndex.Index.Prune` | tables.go:451-458 | prune leaves exactly the unexpired, in order, list and heap alike, and returns the others |
| `TombIndex.Index.RemoveRoot` | tables.go:451-458 | One round of prune takes the expired root out of list and heap |
| `TombIndex.Index.Remove` | tables.go:460-474 | removeLocked takes one tombstone out of both orders and leaves the rest |
| `TombIndex.Index.Unlink` | tables.go:460-472 | The doubly linked list without the entry |
| `TombIndex.Index.Link` | tables.go:427-434 | The doubly linked list with the entry as its youngest |
| `TombIndex.Index.AddYoungest` | tables.go:427-435 | The entry joins list and heap |
| `TombIndex.Index.EvictOldest` | tables.go:436-440 | Beyond the limit the list's oldest leaves both orders |
| `TombIndex.Index.HeapRemove` | tables.go:473-517 | heap.Remove keeps heap order, the heap indices and the other members |
| `TombIndex.Index.Swap` | tables.go:498-502 | Swap keeps every heapIdx equal to its place |
| `TombIndex.Index.Up` | tables.go:494-517 | Sifting up restores heap order and permutes the heap |
| `TombIndex.Index.Down` | tables.go:494-517 | Sifting down restores heap order and permutes the heap |
| `TombIndex.RootIsLeast` | tables.go:451-458 | The heap's root expires first, so pruning may stop at an unexpired root |
| `FrameTracker.ChunkIndependence` | rendrtest/tracker.go:120-174 | With a fixed set of armed operations, every split of the input into chunks leaves the same tracker and the same output |
| `FrameTracker.Tracker.Feed` | rendrtest/tracker.go:120-174 | feed's chunk loop, in place, is the byte-by-byte transducer |
| `FrameTracker.Tracker.FeedChunk` | rendrtest/tracker.go:122-167 | One round of the loop, in whichever phase, is the transducer on the bytes it took |
| `FrameTracker.Tracker.FeedPreface` | rendrtest/tracker.go:127-134 | The preface phase on a chunk |
| `FrameTracker.Tracker.FeedHeader` | rendrtest/tracker.go:135-147 | The header phase on a chunk: forwarded at once exactly when idle at its start |
| `FrameTracker.Tracker.FeedBody` | rendrtest/tracker.go:148-166 | The frame phase on a chunk: held or forwarded, processed at its end |
| `FrameTracker.Tracker.BeginFrame` | rendrtest/tracker.go:177-203 | startFrame, in place |
| `FrameTracker.Tracker.FinishFrame` | rendrtest/tracker.go:157-165 | A complete frame is processed and the boundary's raw injections follow |
| `FrameTracker.Tracker.Boundary` | rendrtest/tracker.go:285-291 | boundary emits the raw injections in order, once |
| `FrameTracker.Tracker.Flush` | rendrtest/tracker.go:108-116 | flush returns exactly the bytes held back |
| `FrameRelay.Transparent` | rendrtest/tracker.go:108-174 | With only captures armed, output plus what flush would return equals the input byte for byte, wherever the stream ends |
| `FrameRelay.RelayFrames` | rendrtest/tracker.go:177-282 | Encoded frames in, the encodings of the relayed frames out: drops left out, injected frames in place, later fseqs moved up, every CRC valid |
| `FramePlans.FiresAsPlanned` | rendrtest/tracker.go:207-233 | For all armed operations and frames: per type the first frames take the drops, then each undropped frame takes the next damage, capture and injection of its type, in the order they were armed, and nothing of another type |
| `FramePlans.StayArmed` | rendrtest/tracker.go:207-233 | After any frames, what is armed for a type is exactly what its frames have not used, in order |
| `FramePlans.InjectionFiresOnce` | rendrtest/tracker.go:207-233 | Each armed injection fires exactly once, at the first undropped frame of its type that no injection armed before it for that type takes, or stays armed when there is none |
| `FramePlans.InjectionHasMark` | rendrtest/tracker.go:227-230 | A frame gets an injection only of its own type, and never a dropped frame |
| `FramePlans.FramesFed` | rendrtest/tracker.go:120-282 | Encoded frames in, whatever is armed: the output is every frame processed as planned, its fseq moved up by the frames injected before it |
| `FramePlans.StreamSent` | rendrtest/tracker.go:120-282 | With no damage armed the output is valid frames: each undropped frame in order, each injected frame directly behind the frame it was armed for with the next fseq, nothing for a dropped one |
| `FramePlans.RelayIsSent` | rendrtest/tracker.go:177-282 | The recursive relay sends exactly the planned frames |
| `FramePlans.AnyFrame` | rendrtest/tracker.go:148-166 | One frame with anything armed: processed with what match takes, then the raw injections, once |
| `FramePlans.PrefaceThenRaws` | rendrtest/tracker.go:127-134 | Raw injections armed before the preface is through follow it at once |
| `FrameRelay.RelayNumbered` | rendrtest/tracker.go:238-282 | Consecutive fseqs (modulo 2^32) stay consecutive through any injections |
| `FrameRelay.InjectedStream` | rendrtest/tracker.go:120-282 | Through any chunks: an unbroken stream with injections and captures armed arrives as valid frames with unbroken fseqs |
| `FrameRelay.DamageIsOneBit` | rendrtest/tracker.go:256-267 | A damage mode changes exactly one bit of the frame as it would have been sent, and no trailer covers it |
| `FrameRelay.ForgedAckIsValid` | rendrtest/tracker.go:244-255 | A forged ACK is a valid frame: its delivered offset moved by 2^40, its fseq shifted as any frame's, nothing else |
| `Metadata.ReencodeConnect` | l4/metadata.go:152-168 | Every input ParseMetadata accepts is re-encoded by AppendMetadata to the same bytes |
| `Metadata.ReencodeUDP` | l4/metadata.go:170-203 | Every input ParseUDPMetadata accepts is re-encoded to the same bytes |
| `Metadata.DecodeEncoded` | l4/metadata.go:73-150 | Every successful encoding decodes to its Request with the address in canonical form |
| `Metadata.AcceptedIffEncoded` | l4/metadata.go:152-203 | A parser accepts an input if and only if it is what AppendMetadata writes for some request of its command |
| `Metadata.RefusalCodes` | l4/metadata.go:152-277 | The first rule an input breaks, in the documented order, decides the Reject code, both ways; an input that breaks none is accepted |
| `Metadata.OneCommand` | l4/metadata.go:209-222 | No input is accepted by both parsers |
| `Metadata.ResolveRender` | l4/metadata.go:81-129 | Reading the text parseHeader prints gives back the host and port, for names, IPv4 and IPv6 |
| `Metadata.NameIsNoAddress` | l4/metadata.go:105-110 | No canonical name parses as an IPv4 or IPv6 literal, so trying the name first changes no encoding |
| `Metadata.Parse4Print` | l4/metadata.go:230-240 | A printed IPv4 address parses to itself and is not a canonical name |
| `Metadata.ParseHeaderBytes` | l4/metadata.go:209-277 | A written header is read back as the canonical address, whatever follows it |
| `Metadata.HeaderBytesParse` | l4/metadata.go:209-277 | An accepted header is the encoding of what it says |
| `Metadata.Resolve` | l4/metadata.go:81-129 | What AppendMetadata accepts as an address is an encodable host and a port from 1 to 65535 |
| `HostNames.CheckName` | l4/metadata.go:329-360 | checkName accepts exactly the label grammar; the empty and the overlong name are told apart |
| `HostNames.CheckLabels` | l4/metadata.go:339-359 | The label loop accepts exactly the names whose labels obey the rules |
| `HostNames.NumericLabel` | l4/metadata.go:368-383 | numericLabel is true exactly for all decimal digits or 0x and hex digits |
| `HostNames.RestIsGrammar` | l4/metadata.go:321-328 | The left-to-right rules are the grammar over the name cut at its dots |
| `DgramBooks.Conservation` | rendrtest/dlink.go:92-97 | Every run of dials, writes, reads, injections, stalls, blackholes, closes and kills: Sent + Duplicated + Injected = Delivered + Truncated + Lost + still in the link, for all, session and probe carriers |
| `DgramTraces.OnePlace` | rendrtest/dlink.go:92-97 | Every run: each copy made by a write, a duplication or an injection is held, in flight or ready in exactly one place, or was read or lost exactly once; so none is read twice |
| `DgramTraces.ReadOpposite` | rendrtest/dpump.go:680-801 | Every run: a copy is read, whole or truncated, only by the other socket of the carrier it was sent on, and counted in the class it was born with |
| `DgramTraces.EndsExplained` | rendrtest/dlink.go:92-97 | Every run: each copy that left did so in a step that shows its recorded reason: read when it had arrived at a live socket; lost as too long, unrouted, into a blackhole, drawn or armed to drop, to a queue full of that direction's datagrams, launched at an ended socket, in the link when its socket ended, in flight and not arrived or held when a blackhole began |
| `DgramTraces.CountersAreCopies` | rendrtest/dpump.go:296-306 | Every run: Sent, Duplicated, Injected, Delivered, Truncated and Lost of each class are the numbers of copies that came or left that way |
| `DgramTraces.BlackNeverRead` | rendrtest/dpump.go:357-370 | Every run: a copy written while its direction is a blackhole is never read, however the run goes on |
| `DgramTraces.WriteMakes` | rendrtest/dpump.go:357-396 | A write is refused for its size or makes one copy from its socket; a duplicate only if drawn, and surely if drawn, not lost and two fit the queue |
| `DgramTraces.StallHolds` | rendrtest/dpump.go:385-396 | What is written during a stall is held or lost at once, and at no socket |
| `DgramTraces.StepExplains` | rendrtest/dpump.go:349-857 | Every operation makes copies only from its own socket and explains each copy that leaves in it by the link before |
| `DgramBooks.QueueCounters` | rendrtest/dpump.go:349-396 | Every run: each queue counter is the number of its direction's datagrams in the link, at most the configured Queue |
| `DgramBooks.SocketsHold` | rendrtest/dpump.go:637-662 | Every run: in flight is a heap, a socket holds only datagrams of its direction, an ended one none |
| `DgramBooks.StepInv` | rendrtest/dpump.go:349-857 | Every operation keeps the books: of each class, direction, counter and single copy |
| `DgramBooks.TransmitInv` | rendrtest/dpump.go:357-396 | transmit, whatever its draws, keeps the books: blackhole, drop, tail drop, duplicate, hold or launch |
| `DgramBooks.LaunchKeeps` | rendrtest/dpump.go:401-427 | launch puts the datagram in flight, or loses it at an ended socket, counted |
| `DgramBooks.ReadInv` | rendrtest/dpump.go:680-801 | A read promotes, hands over the oldest arrival and counts it delivered or truncated |
| `DgramBooks.InjectInv` | rendrtest/dlink.go:538-556 | An injection is counted, and lost when the queue is full |
| `DgramBooks.ShutInv` | rendrtest/dpump.go:637-662 | The end of a socket loses all it holds and all held for it, each counted once |
| `DgramBooks.KillInv` | rendrtest/dlink.go:461-476 | Killing every carrier keeps the books |
| `DgramBooks.BlackholeInv` | rendrtest/dpump.go:459-480 | setBlackhole keeps the books |
| `DgramBooks.BlackholeEmpties` | rendrtest/dpump.go:459-480 | After it nothing of the direction is in flight or held, what had arrived stays readable, the other direction is untouched |
| `DgramBooks.StallInv` | rendrtest/dpump.go:496-528 | Stalling and releasing keep the books |
| `DgramHeap.PromoteExact` | rendrtest/dpump.go:600-609 | promote moves exactly the arrived, unstalled datagrams, in (due, seq) order, and leaves a heap |
| `DgramHeap.PushInHeap` | rendrtest/dpump.go:545-556 | pushIn keeps the heap and adds exactly the datagram |
| `DgramHeap.PopInHeap` | rendrtest/dpump.go:559-580 | popIn keeps the heap and removes its root, which precedes all others |
| `DgramHeap.Endpoint.PushFlight` | rendrtest/dpump.go:545-556 | pushIn's loop is the sift-up |
| `DgramHeap.Endpoint.PopFlight` | rendrtest/dpump.go:559-580 | popIn's loop is the sift-down |
| `DgramHeap.Endpoint.PromoteArrived` | rendrtest/dpump.go:600-609 | promote's loop appends to the arrivals exactly what promotion moves |
| `DgramHeap.Endpoint.PopReady` | rendrtest/dpump.go:582-595 | popReady takes the oldest arrival, through resets and compaction |
| `DgramNet.Network.CountIn` | rendrtest/dpump.go:296-306 | A new copy is counted and numbered |
| `DgramNet.Network.CountLost` | rendrtest/dpump.go:296-306 | A lost copy is counted |
| `DgramNet.Network.LoseEach` | rendrtest/dpump.go:349-353 | Losing a list, one by one, in place |
| `DgramNet.Network.LaunchOne` | rendrtest/dpump.go:401-427 | launch, in place |
| `DgramNet.Network.SendDgram` | rendrtest/dpump.go:357-396 | transmit's loop over the datagram and its duplicate, in place |
| `DgramNet.Network.BlackholeDir` | rendrtest/dpump.go:459-480 | setBlackhole's loops, in place |
| `DgramNet.Network.StallDir` | rendrtest/dpump.go:496-528 | setStall's release loop, in place |
| `DgramNet.Network.Parted` | rendrtest/dpump.go:531-542 | purgeHeld's loop tells what is held for the socket from the rest, both in order |
| `DgramNet.Network.PurgeDir` | rendrtest/dpump.go:531-542 | purgeHeld loses exactly what was held for the socket |
| `DgramNet.Network.ShutEnd` | rendrtest/dpump.go:637-662 | shut, in place; only the first call does anything |
| `DgramNet.Network.PromoteEnd` | rendrtest/dpump.go:600-609 | promote of one socket under its direction's stall |
| `Listener.NoLostWakeup` | listener.go:310-365 | Every interleaving: while a session waits on an open Listener and no thread still owes a signal or a look, the wake token is set |
| `Listener.FirstInFirstAccepted` | listener.go:310-344 | Sessions leave in enqueue order, each to at most one Accept |
| `Listener.BacklogBounded` | listener.go:499-594 | Every run: n is the number of pending sessions, n + reserved never exceeds the configured AcceptBacklog |
| `Listener.CloseAnswersAll` | listener.go:422-448 | After Close every pending session whose enqueue ran was refused, whichever came first |
| `Listener.Backlog.ReserveSlot` | listener.go:499-511 | reserve takes a slot exactly when the Listener is open and one is free |
| `Listener.Backlog.BindSession` | listener.go:522-529 | bind turns a reservation into a pending session |
| `Listener.Backlog.EnqueueSession` | listener.go:536-559 | enqueue queues a session still pending, or reports the refusal after Close |
| `Listener.Backlog.LeaveSession` | listener.go:562-594 | leavePending unlinks the session and frees its slot, once |
| `Listener.Backlog.ShutListener` | listener.go:422-448 | shut closes once and returns the pending sessions to refuse; the queue stays |
| `EventQueue.SeqsDelivered` | events.go:114-180 | Every run: the Seqs delivered strictly increase and the last Seq = delivered + queued + dropped |
| `EventQueue.AdoptThenLeave` | events.go:247-283 | Every interleaving of joins with the worker's exit: at most one Adopt, a Leave never before it nor twice, done closes once, and the Adopt is taken back in the end |
| `EventQueue.ExitAfterDrain` | events.go:144-180 | The worker exits only when everything queued was delivered |
| `EventQueue.WorkerWakes` | events.go:114-180 | Every run: while an event is queued or the queue is closed and no Emit or close still owes its signal, a waiting worker finds the signal set |
| `EventQueue.Ring.Emit` | events.go:114-140 | Emit appends to the wrapping ring, or counts a drop, with the next Seq either way |
| `EventQueue.Ring.Take` | events.go:173-177 | The worker takes the oldest event of the wrapping ring |
| `JoinGroup.PoolAccounting` | runtime.go:774-880 | Every race of waits, watch timers and returns: 0 <= owed <= n, idle closed exactly while n = 0, the pool holds owed, the Leaves still due and what watches counted |
| `JoinGroup.PoolReturns` | runtime.go:800-814 | Once all members exited the group's contribution to the pool is 0 |
| `JoinGroup.WaitsCountOnce` | runtime.go:797-843 | Every race of waits, timers and returns: the Adopts of all waits = the members owed + the Leaves on their way + the Leaves done, never more than the members; so repeated waits count no member twice |
| `JoinGroup.CallLeavesFirst` | runtime.go:861-880 | A run in which a watched call's Leave precedes its Adopt and the pool is at -1, though runtime.go:797-799 says every Adopt precedes its Leave |
| `JoinGroup.LeaveBeforeAdopt` | runtime.go:861-880 | Every run: a watched member's Leave is ahead of its Adopt if and only if its watch won the race, has not adopted yet and its call is over; the pool is short by at most those members |
| `JoinGroup.Group.AddMember` | runtime.go:788-795 | add opens idle with the first member |
| `JoinGroup.Group.DoneMember` | runtime.go:800-814 | done gives an owed member back to the pool and closes idle with the last |
| `JoinGroup.Group.WaitGivesUp` | runtime.go:819-843 | A wait that times out adopts exactly the members not yet owed |
| `FlowClass.PromotesExactly` | l4/packet_forward.go:409-461 | Every trace, out-of-order instants included: note answers true exactly at the first datagram whose activity period has seen both directions and lasted 2 s; once, and never undone |
| `FlowClass.NoteFollows` | l4/packet_forward.go:429-461 | One datagram further the O(1) state still describes the trace's current period |
| `FlowClass.Tracker.NoteDatagram` | l4/packet_forward.go:429-461 | note, in place on seen, start, last and streamed |
| `Forwarder.BytesCross` | l4/forward.go:196-293 | Every interleaving: each side was given a prefix of what was read from the other, all of it at the FIN; a FIN is passed on only after the source's own FIN with every byte accepted |
| `Forwarder.ForwarderEnds` | l4/forward.go:322-393 | Every interleaving: local is closed once and reset exactly when the result is not clean; the session is closed once, after an Abort when unclean; a clean result saw both FINs and every byte |
| `Forwarder.UncleanHasCause` | l4/forward.go:383-393 | When Forward returned, the result is not clean if and only if a failure was recorded |
| `Forwarder.WriteFull` | l4/forward.go:298-315 | Against any writer: the count is what its answers took, all of p exactly when no answer failed, and it stops at the first that fails, makes no progress or claims an impossible count |

## Left out

- QuicRx.DropInference: is about paths that do not reorder, as the source documents the count; QuicRx.AnyOrder says what the count is on every path. Both assume that no datagram taken is 2^31 or more from the one expected; QuicRx.GapExact shows that this is exactly when one inferred distance is right, and the source makes the same assumption.
- Metadata.ReencodeConnect: the IPv6 text form of netip is a parameter assumed to round-trip and to print hex digits, colons and dots, a colon first; the same holds for Metadata.ReencodeUDP and Metadata.DecodeEncoded.
- Metadata.DecodeEncoded: encodes onto an empty buffer; that an error leaves the caller's buffer unchanged is not modelled.
- FrameTracker.Tracker.Feed: captures are types to match, so a capture already fired by another carrier and the captured copy are not modelled, nor are the event counters and the class of the first frame.
- FrameRelay.RelayFrames: states the frame-level result with no damage and no raw bytes armed; FramePlans.FramesFed covers damage, FramePlans.AnyFrame and FramePlans.PrefaceThenRaws the raw bytes, and FrameRelay.DamageIsOneBit and FrameRelay.ForgedAckIsValid say what a damage does.
- DgramBooks.Conservation: is about DatagramLink; DatagramHub, replays and splices into another link, scripted writes (a plain write or nothing), read faults, deadlines and the counters outside the law are not modelled.
- DgramTraces.EndsExplained: a loss by a draw and one by an armed DropNext are one reason, since both are inputs here.
- DgramNet.Network.SendDgram: draws, arrival times and the match of armed drops are inputs; the shared bottleneck's time is not modelled.
- SessionTable.UnitsConserved: the shards are one map, since a key lives in one shard; handshake and slot tables (hsTable, slTable) are not modelled.
- Snapshot.CountsAreASnapshot: the move counter does not wrap at 64 bits; the fallback after 64 tries returns no snapshot and nothing is claimed of it. Atomic operations are steps on values, not a class. Sessions carry only what category() looks at.
- QuicSend.AcceptedAccounted: the sender goroutine is a transition system on values; only its queue is a class. Spare-buffer reuse and write errors' texts are not modelled.
- Forwarder.ForwarderEnds: the pumps and the reaper are a transition system on values; buffers, deadlines and log texts are not modelled.
- Listener.NoLostWakeup: one session kind; the doubly linked pending list is a sequence of tickets, so links are not modelled.
- IngressFates.FatesExplained: the reason is what the state before the step shows; the sample of a full table is an input of the step.
- IngressRuns.DeliveredOrCounted: counts up to the call into the session; what the session and the peer do with a datagram (SessionDrops, SessionUnreported, flow-end causes) is outside.
- Sessions, carriers and the wire format (internal packages): not part of this model; frame lengths and the CRC are parameters.
- Clocks, sockets, timers, scheduling, panics: inputs or steps.
- Configuration clamps, status conversions, error tables, admission, dialling and listening glue: would only add easy members.
