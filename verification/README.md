# A model of PhoenixOS's parking and restoring of GPU processes

PhoenixOS lets a GPU process be checkpointed, detached from its GPU worker and resumed elsewhere while it
lives. This project models the logic that makes this correct and proves it in Dafny: the ring the client and
its worker talk over, the protocol that brings both to rest, the log that rebuilds library handles, the
generated call stubs, the device memory manager, the snapshot and the attach that reads it, the kernel table
and its standby workers, the daemon's bookkeeping, and the layout of kernel arguments.

Two forms are used throughout. Where several parties run at once there is a state machine: an `Action`
datatype, a total `Step`, and `Exec` over an arbitrary sequence of actions, so that a theorem about `Exec`
covers every interleaving and every run. Where the program updates an object in place there is a class with
that object's fields, whose methods are tied to a value-level function; the lemmas are about the functions.
Failing assertions, unwraps and panics are halting states or missing results, never preconditions. Memory is
sequentially consistent, as the fences and SeqCst atomics of the program ask for. Driver calls answer with
arbitrary errors unless a statement says otherwise.

## How the modules fit together

| modules | subject |
|---|---|
| `RingIndex`, `RingProtocol`, `RingProgress`, `ShmRing` | the shared-memory ring: index arithmetic, every interleaving of its two ends, their progress, the loops |
| `RdmaRing`, `RdmaProgress`, `RdmaWindow` | the ring mirrored over RDMA; its progress; the send window with selective signaling |
| `Quiesce`, `Checkpoint` | one client and its worker coming to rest; N workers, the controller and the barrier |
| `CheckpointEnds`, `CheckpointProgress`, `CheckpointCompletes`, `CheckpointPanics` | what a checkpoint leaves behind in each mode; when calls end and workers reach the checkpoint; that it can be taken; where a worker's receiving panics and what that does |
| `Wire`, `Stubs`, `HookLaws` | the wire encoding; hook descriptions and the two stubs generated from each; what a description means on the wire |
| `HandleLog`, `HandleManager`, `Replay`, `RestoreLoop`, `Arguments` | the handle log, the table that records it, its bytes, the loop that replays them, and the numbers a caller passes on their way into it |
| `DeviceMemory`, `DeviceManager`, `DeviceRestore`, `DeviceRanges` | the device memory manager: operations, the class, checkpoint and restore, address ranges |
| `DeviceCopy`, `DeviceContents` | device contents in a flat buffer, over physical memory; what dump, restore and copy back return |
| `Snapshot`, `Attach`, `AttachProgress` | the snapshot over the empty rings, reading it beside a live client, and that the reading goes through |
| `Kernels`, `Daemon`, `DaemonProcess` | kernel modules cold and warm; the daemon's state and its requests |
| `Fleet`, `FleetHalts`, `StandbyHandles`, `StandbyHalts` | the daemon with all workers' kernel tables and parked clients' snapshots; the same with handle tables, dumped and kept; where each halts |
| `KernelParams`, `KernelSections` | kernel parameter records and argument packing; the section's entries in bytes and which sections are accepted |
| `Bytes`, `Options`, `Sums`, `Filters` | bytes, optional values, sums over and filters of sequences |

## Where a plain claim would be false

Each of these is a lemma with a concrete run or input, next to the exact condition under which the claim holds.

- One `ShmChannelLocked` does not mean the ring is drained (`Checkpoint.OneLockIsNotEnough`). The client's exit
  message, sent without taking the flag, can arrive in a checkpoint (`Checkpoint.ExitMessageBreaksQuiet`); the
  ring is empty there exactly if the exit path was not used since the worker's second empty test
  (`Checkpoint.RingIsEmptyExactly`). The consistent cut does not depend on it.
- A worker can panic inside a request that has arrived whole: it finds the ring empty, the client publishes the
  rest of an asynchronous call and leaves, a checkpoint locks the flag, and only then does the worker read it
  (`CheckpointPanics.LateLockPanics`). Exactly such a worker can no longer reach its checkpoint
  (`CheckpointProgress.ParksExactly`), and the request that counted it waits at its first barrier for ever
  (`CheckpointPanics.PanicBlocksCheckpoint`).
- A replayed log fails exactly if a surviving record uses a handle destroyed since
  (`HandleLog.DestroyedUseBreaksReplay`) or a live handle's creation was replaced under its own key
  (`HandleLog.CreationKeyReuseBreaksReplay`); `HandleLog.ReplayIsFaithful` is the equivalence.
- A user handle released while mapped, its number then reused, is restored sharing memory it did not share
  (`DeviceRestore.ReusedProxyBreaksRestore`), and with two mappings contents are lost
  (`DeviceContents.ReusedProxyLosesContents`): exactly if two mappings that borrow one proxy showed different
  memory (`DeviceContents.ContentsSurvive`).
- A size close to 2^64 wraps in `reserve_aligned` in a build without overflow checks, and a range is handed
  out twice (`DeviceRanges.WrappedRequestRepeatsARange`); `DeviceRanges.ReserveIsExact` is the equivalence.
- `begin_attach` clears the client's lock before it copies the handle log out of the ring: any log of two
  bytes or more can be overwritten first (`Attach.UnsafeLogIsCorrupted`, `Attach.AttachReadsSnapshot`). A client
  exiting between the emptiness test and the reading overwrites the first bytes of the ring, whatever section
  lies there (`Attach.ExitHitsSnapshot`); `Attach.AttachIsConsistent` says exactly when it shows.
- A standby worker prefers the handle table in its cache over the dumped log; if the client has run elsewhere
  since, that table can be out of date (`StandbyHandles.TableIsLeftBehind`, `StandbyHandles.AttachFindsHandles`).
- A standby worker covering two clients can be offered to one that has since loaded modules on another worker
  (`Fleet.StandbyIsLeftBehind`); a warm attach misses modules exactly if one of those is not in the standby's
  table (`Fleet.AttachFindsModules`).
- An accepted parameter section need not be a proper layout when a 16-bit sum wraps
  (`KernelParams.WrappingSectionIsAccepted`); then, and only then, a copy leaves the buffer (`KernelParams.PackKernelArgs`).

## Model

| member | source | states |
|---|---|---|
| RingIndex.WriteLenFits | network/src/ringbufferchannel/mod.rs:136-153 | the writable slice does not wrap and always leaves one byte unused |
| RingIndex.WriteProgress | network/src/ringbufferchannel/mod.rs:114-153 | once the full test passed, the slice is non-empty although head is read again later |
| RingIndex.PublishAppends | network/src/ringbufferchannel/mod.rs:169-174 | moving the tail over a filled free slice appends exactly that slice, wrap-around included |
| RingIndex.ConsumeDrops | network/src/ringbufferchannel/mod.rs:207-221 | moving the head removes exactly the slice that was read from the front |
| RingProtocol.RunKeeps | network/src/ringbufferchannel/mod.rs:157-227 | in every interleaving all index assertions hold, cached positions are right and copied bytes are the stored ones |
| RingProtocol.NoLossNoReordering | network/src/ringbufferchannel/mod.rs:119-227 | bytes received followed by bytes in the ring are the bytes published, a prefix of those sent: none lost, doubled, reordered or overwritten |
| RingProtocol.EveryTurnMakesProgress | network/src/ringbufferchannel/mod.rs:157-227 | every turn of either loop strictly shrinks what is left, whatever the other side does between its reads |
| RingProgress.NeitherSideIsDelayed | network/src/ringbufferchannel/mod.rs:157-227 | over all runs each side's own steps bring its call nearer its end, waiting on a full ring aside, and the other side's steps never put it off |
| RingProgress.EverythingIsDelivered | network/src/ringbufferchannel/mod.rs:157-227 | from every reachable state some schedule of the two loops delivers all that was sent and ends both calls, for any ring that can hold a byte |
| ShmRing.Ring.WaitForSpace | network/src/ringbufferchannel/shm.rs:78-85 | flush_out ends only when the ring is no longer full, unless nobody reads any more |
| ShmRing.Ring.PutPiece | network/src/ringbufferchannel/mod.rs:169-175 | one turn publishes a non-empty prefix of the remaining bytes although the reader runs in between |
| ShmRing.Ring.PutBytes | network/src/ringbufferchannel/mod.rs:157-181 | all bytes are published in order, or the ring stays full for ever |
| ShmRing.Ring.TakePiece | network/src/ringbufferchannel/mod.rs:206-223 | one turn delivers a non-empty slice of at most what is wanted, the next bytes of the stream, although the writer runs in between |
| ShmRing.Ring.TryGetBytes | network/src/ringbufferchannel/mod.rs:198-227 | it delivers the next bytes of the stream, and fewer than wanted only if it saw the ring empty |
| RdmaRing.RunKeeps | network/src/ringbufferchannel/rdma.rs:224-319 | stale head, remote head, remote tail, executed writes, last_tail and tail stay in stream order within one lap, and the posted requests lead from one to the next |
| RdmaRing.FlushLeads | network/src/ringbufferchannel/rdma.rs:299-313 | the one or two writes and the CAS of a flush cover exactly what was published since the last one, in each wrap-around case |
| RdmaRing.RdmaRefinesRing | network/src/ringbufferchannel/rdma.rs:265-319 | the receiver sees a prefix of the published stream; the CAS always succeeds; once the card has caught up the remote tail is last_tail and the remote bytes are the local ones |
| RdmaRing.PendingWritesAreSafe | network/src/ringbufferchannel/rdma.rs:246-263 | a pending write never lands on bytes the receiver has yet to take, and carries the published bytes however late the card reads them |
| RdmaProgress.EverythingArrives | network/src/ringbufferchannel/rdma.rs:299-319 | from every reachable state some schedule of sender, card and receiver delivers all that was published, leaves nothing posted and lets the sender out of flush_out |
| RdmaWindow.WindowNeverOverflows | network/src/ringbufferchannel/rdma.rs:171-185 | requests not known complete never exceed the send queue, over any mix of writes, tail updates and reads |
| RdmaWindow.WindowIsTight | network/src/ringbufferchannel/rdma.rs:246-263 | a burst on an idle card reaches the bound of 114 |
| RdmaWindow.EveryPollIsAnswered | network/src/ringbufferchannel/rdma.rs:171-283 | while the sender polls, a posted request that reports completion, at least the awaited one, is still unpolled |
| RdmaWindow.EveryPollEnds | network/src/ringbufferchannel/rdma.rs:171-185 | from every reachable state some schedule of the card and the sender's own polls, in whole batches, ends the poll |
| Quiesce.ParkedIsQuiet | server/src/worker.rs:254-260 | at the checkpoint the client is outside any call and locked out, all calls are taken and executed, no reply is pending, and the ring can hold nothing but the exit message |
| Quiesce.ClientKeeps | client/src/phos.rs:7-22 | CAS, send, await, release and the exit path keep the flag word and the byte counts in step |
| Quiesce.SawEmptyKeeps | network/src/ringbufferchannel/mod.rs:183-196 | reading the flag after an empty ring: only the second lock seen proves the client had left |
| Checkpoint.StepKeeps | server/src/phos/mod.rs:37-235 | every step of clients, workers, controller and barrier, exit messages included, keeps the phases in order; what each mode leaves behind is in CheckpointEnds |
| Checkpoint.QuietAtCheckpoint | server/src/worker.rs:254-260 | over all runs, from entering checkpoint_thread until the flag is cleared the client is out of any call and all it sent in calls is executed |
| Checkpoint.WorldIsStoppedDuringDump | server/src/phos/mod.rs:183-235 | while kernels and memory are dumped every registered thread is between its two waits and no call can be executed |
| Checkpoint.DumpsFormOneCut | server/src/phos/mod.rs:37-76 | no client is unlocked before all dumps are taken, and all dumps describe the same moment |
| Checkpoint.RingIsEmptyExactly | server/src/worker.rs:254-260 | over all runs, the ring at a checkpoint is empty exactly if the client's exit path was not used since the worker's second empty test |
| Checkpoint.OneLockIsNotEnough | network/src/ringbufferchannel/mod.rs:187-192 | a run in which the first lock is seen with a request in the ring |
| Checkpoint.ExitMessageBreaksQuiet | client/src/hijack/client.rs:125-131 | a run in which the exit message reaches the ring during a checkpoint |
| CheckpointEnds.DetachedForGood | server/src/phos/mod.rs:68-76 | once a thread has left a detaching checkpoint its worker is stopped and its client locked out in every continuation: calls begun, bytes published and calls executed stay as they were |
| CheckpointEnds.RunningGoesOn | server/src/phos/mod.rs:44-67 | after a checkpoint that leaves it running the worker receives again, the flag is clear, and some continuation carries the client's next call, any call, through to its return |
| CheckpointEnds.KilledForGood | server/src/phos/mod.rs:44-67 | after a killing one the worker stays stopped, executes nothing more, and the client's flag is clear and stays so |
| CheckpointProgress.CallsEnd | network/src/ringbufferchannel/mod.rs:183-227 | in every reachable state some schedule of an unlocked client and its worker alone executes all that was begun and brings the client out of its call |
| CheckpointProgress.ParksExactly | server/src/worker.rs:249-262 | a worker whose locked client has not exited can still reach its checkpoint exactly if no request came in between its look at the ring, or its first lock, and its look at the flag; else it never does |
| CheckpointCompletes.CheckpointCanBeTaken | server/src/phos/mod.rs:37-235 | for any number of threads, dead ones among them: from every reachable state without a request under way and without an exited client some schedule takes a checkpoint in any mode to its end, every live thread's calls ended and dumped, kernels and memory dumped, everyone released as the mode says |
| CheckpointCompletes.Completes | server/src/phos/mod.rs:183-235 | once all members have come to the checkpoint some schedule of barrier moves completes it |
| CheckpointPanics.PanicsExactly | network/src/ringbufferchannel/mod.rs:183-196 | a worker's own receiving panics only where its second receive completes an id or the flag reads locked inside a request; in the latter, exits aside, the request is asynchronous and its rest already in the ring |
| CheckpointPanics.LateLockPanics | network/src/ringbufferchannel/mod.rs:187-192 | a run in which a checkpoint request panics a worker inside a request that has arrived whole |
| CheckpointPanics.PanicBlocksCheckpoint | server/src/phos/mod.rs:183-235 | in every continuation that request waits for its first barrier and dumps nothing |
| Checkpoint.ExitMessageEndsThread | server/src/worker.rs:249-252 | a run in which procedure id -1 ends the worker thread and executes nothing |
| Wire.DecodeEncode | network/src/type_impl/mod.rs:11-72 | decoding a field undoes encoding it, whatever follows |
| Wire.DecodeOnto | network/src/type_impl/mod.rs:42-72 | whatever decodes is a well-typed value, and the stream began with its encoding |
| Wire.StringReads | network/src/session.rs:76-220 | a text without NUL, sent with the one that ends it, reads back as that text, whatever follows |
| Wire.OnlyStringsRead | network/src/session.rs:212-220 | whatever is received as a string is such a text and its NUL |
| Wire.DecodeEncodeAll | network/src/session.rs:187-220 | a list of fields reads back value by value, and the stream goes on right behind |
| Wire.DecodeAllOnto | network/src/session.rs:187-220 | a received field list, saved again, gives the very bytes received |
| HookLaws.ParsesExactly | codegen/src/hook_fn.rs:287-448 | a parameter is accepted exactly if its attribute may stand with its type |
| HookLaws.AcceptedExactly | codegen/src/hook_fn.rs:35-100 | a hook is accepted exactly if every parameter is, at most one handle is created, modified or destroyed, a created handle is the only output, and asynchronous calls return nothing but a status, with nothing after either early return |
| HookLaws.EveryParamMoves | codegen/src/hook_fn.rs:287-503 | in every accepted hook each parameter moves, in each direction and on both sides, exactly the field its attribute and type say, and its handle gets the operation and key written for it |
| HookLaws.RepliesExactly | codegen/src/server_macros.rs:255-278 | there is no reply exactly if a handle is created under shadowed proxies or the call is asynchronous under that option; otherwise it ends in the call's result |
| Arguments.FieldsAt | codegen/src/server_macros.rs:12-81 | the fields of a parameter come after those of all parameters before it and before those of all after it |
| Arguments.WordAt | codegen/src/server_macros.rs:35-39 | the word of a received parameter is the number in the value at the position counted by the fields of the parameters before it |
| Arguments.PassedArrives | codegen/src/client_macros.rs:11-49 | whatever values the client's send statements put on the ring, the server's word for each parameter is the number passed for it |
| Arguments.HandlesArrive | codegen/src/server_macros.rs:12-81 | over any stream of calls, the k-th request served looks up, drops or records the handles the k-th call passed, in its numbers, under its key |
| Stubs.ParsedFits | codegen/src/hook_fn.rs:287-448 | every parsed kind fits its type: what the stubs dereference is a pointer, keys are where keyed handles are made or modified |
| Stubs.StubsAreDual | codegen/src/client_macros.rs:11-153 | what the client stub sends the server stub receives, in order, and back, under every setting of the options |
| Stubs.RequestsStayAligned | codegen/src/server_macros.rs:12-81 | over any sequence of calls the server dispatches exactly the calls made, with their arguments, and nothing is left over |
| Stubs.RepliesStayAligned | codegen/src/server_macros.rs:173-278 | every reply reaches its call and the reply ring is empty when the client is out of its last one, exactly if arrays have the lengths of the caller's buffers |
| Stubs.RecordsBelongToTheirHandle | codegen/src/server_macros.rs:23-81 | exactly one parameter is the handle created or modified; the recorded proxy and key are that parameter's, so the unwraps and the payload kinds hold |
| Stubs.EarlyReturnLosesNothing | codegen/src/hook_fn.rs:35-100 | a stub that returns early has written every host output and skipped no injected statement |
| HandleLog.CompactionIsSound | server/src/phos/handle.rs:69-88 | dropping earlier calls under the same key changes nothing the next one leaves |
| HandleLog.StepKeeps | server/src/phos/handle.rs:13-43 | every call keeps the handles the log makes created before use, keys unique, and their driver objects equal to their logged calls |
| HandleLog.HistoryKeeps | codegen/src/server_macros.rs:255-263 | the same over every history in which a created proxy is above all before it |
| HandleLog.ReplayIsFaithful | server/src/phos/handle.rs:45-54 | replay from empty succeeds exactly if every surviving record's handles are live and every live handle's creation survives, and then rebuilds proxies, objects and log |
| HandleLog.DestroyedUseBreaksReplay | server/src/phos/handle.rs:31-43 | a lawful history whose log cannot be replayed |
| HandleLog.CreationKeyReuseBreaksReplay | server/src/phos/handle.rs:79-87 | a keyed payload replacing the creation itself leaves a log that does not replay |
| HandleManager.SortSorts | server/src/phos/handle.rs:50 | sorting by distinct timestamps orders the same payloads strictly |
| HandleManager.KindsAgree | server/src/phos/handle.rs:69-88 | the panic on mixing keyed and unkeyed payloads depends on the log alone |
| HandleManager.SerializedInOrder | server/src/phos/handle.rs:45-54 | collecting all payloads in any order and sorting them gives the log in recording order |
| HandleManager.Manager.Insert | server/src/phos/handle.rs:13-15 | a fresh handle replaces whatever its proxy held, records included |
| HandleManager.Manager.InsertArgs | server/src/phos/handle.rs:17-25 | the record joins the log, replacing its key's; it panics exactly for unknown proxies and mixed kinds |
| HandleManager.Manager.Get | server/src/phos/handle.rs:31-43 | null is null, unknown panics, destroying drops the handle and exactly its records |
| HandleManager.Manager.Serialize | server/src/phos/handle.rs:45-54 | the output is the concatenated requests of all records in recording order |
| Replay.LogParses | network/src/session.rs:133-220 | a serialized log in front of any bytes parses into requests that record exactly that log |
| Replay.SerializedLogRestores | server/src/worker.rs:249-278 | for every served stream, the log's bytes parse back into its records, end at a record boundary, replay exactly if the log is replayable, and rebuild the table, objects and bytes |
| RestoreLoop.RestoreVec.GetBytes | network/src/restore.rs:15-24 | the next bytes, or end of log with the cursor unmoved |
| RestoreLoop.RecvSession.Recv | network/src/session.rs:187-220 | a field is decoded as the wire format says and saved in the form received; malformed or short fields fail |
| RestoreLoop.LookUpAll | codegen/src/server_macros.rs:23-43 | looking handles up one by one ends in the table, or the panic, of the lookups in sequence, and gives the driver the object behind each proxy passed |
| RestoreLoop.RecordCall | codegen/src/server_macros.rs:252-263 | insert and insert_args together make the one step of the log that the call stands for; a created proxy stands for the driver's object, all others for what they did |
| RestoreLoop.Dispatch | codegen/src/server_macros.rs:217-265 | one dispatched request is its step of the log, panics included; what the driver is given are the words of the request, handles replaced by their objects |
| RestoreLoop.ReplayLog | server/src/worker.rs:249-278 | the loop dispatches exactly what the bytes parse into and stops where the parse stops, unless a dispatch panics; every proxy then stands for the object its own last creation returned |
| RestoreLoop.RestoreTable | server/src/phos/mod.rs:94-121 | restoring a table from its own bytes and serializing it again gives the same bytes, exactly if the log is replayable |
| DeviceMemory.FreeIsVacant | server/src/phos/memory/manager.rs:144-155 | a range the driver accepts is no occupied slot, so the duplicate assertion holds |
| DeviceMemory.StepKeeps | server/src/phos/memory/manager.rs:119-237 | every operation under every driver answer keeps mappings disjoint and owned memory unshared, and only the alignment check can panic |
| DeviceMemory.FreeUndoesAllocate | server/src/phos/memory/manager.rs:144-167 | freeing an allocation takes back exactly its mapping, a second free is refused, its addresses stay used |
| DeviceMemory.UnmapUndoesMap | server/src/phos/memory/manager.rs:187-228 | unmapping with the mapped size gives the manager as it was; another size or an owned mapping is refused and changes nothing |
| DeviceMemory.ReleaseUndoesCreate | server/src/phos/memory/manager.rs:169-237 | releasing a new handle gives the handles as they were, and its number to the next one |
| DeviceManager.MaxKey | server/src/phos/memory/manager.rs:176-179 | the key a new proxy follows is the largest in use |
| DeviceManager.Manager.Allocate | server/src/phos/memory/manager.rs:144-155 | reserve, create, map, grant: state and error code of the model, and no panic |
| DeviceManager.Manager.CreateUserHandle | server/src/phos/memory/manager.rs:169-185 | proxies follow the largest in use |
| DeviceManager.Manager.CheckpointMeta | server/src/phos/memory/manager.rs:239-270 | all segments and handles in key order, owned ones with proxy 0, or the first error of the driver |
| DeviceManager.Manager.RestoreFrom | server/src/phos/memory/manager.rs:272-320 | checks, handles, segments, first failure; next moves early, the maps at the end |
| DeviceRestore.RestoredHandles | server/src/phos/memory/manager.rs:346-373 | the restored handles have the proxies, sizes, handle types, compression and RDMA flags of the originals, no usage flags, and memory of their own |
| DeviceRestore.StepSame | server/src/phos/memory/manager.rs:119-237 | two observationally equal managers answer a call alike and stay equal |
| DeviceRestore.RunSame | server/src/phos/memory/manager.rs:119-237 | the same over every sequence of calls: addresses, proxies, error codes, memory sharing |
| DeviceRestore.RunAlike | server/src/phos/memory/manager.rs:119-237 | no answer over any sequence of calls depends on which memory is behind a mapping |
| DeviceRestore.AliasesSurvive | server/src/phos/memory/manager.rs:299-316 | restored mappings share memory as the original ones did exactly if every borrowed proxy is live |
| DeviceRestore.SegmentsSucceed | server/src/phos/memory/manager.rs:299-316 | a willing driver maps every segment up to the first whose handle is missing |
| DeviceRestore.RestoreIsFaithful | server/src/phos/memory/manager.rs:239-320 | restoring one's own checkpoint succeeds exactly if borrowed proxies exist; then every later run is answered identically; memory is shared as before exactly if borrowed proxies are live |
| DeviceRestore.ReusedProxyBreaksRestore | server/src/phos/memory/manager.rs:176-237 | a run after which the restore succeeds and memory is shared that was not |
| DeviceRanges.ReserveIsExact | server/src/phos/memory/manager.rs:119-142 | a request is honoured or refused as it should exactly if it does not wrap |
| DeviceRanges.RangesStayApart | server/src/phos/memory/manager.rs:119-155 | over all runs, failures and restores included, ranges handed out are disjoint, aligned and inside the reserved range |
| DeviceRanges.SegmentsStayBelow | server/src/phos/memory/manager.rs:187-320 | every mapping, restored or not, lies below next if user maps stay inside their ranges |
| DeviceRanges.LaterRangesAreApart | server/src/phos/memory/manager.rs:144-320 | no mapping ever overlaps a range handed out later |
| DeviceRanges.AllocationsFit | server/src/phos/memory/manager.rs:144-155 | an allocation is refused only when the range is used up or the driver fails |
| DeviceRanges.WrappedRequestRepeatsARange | server/src/phos/memory/manager.rs:128-142 | three reservations after which one range has been handed out twice |
| DeviceCopy.DumpToSlice | server/src/phos/memory/ckpt.rs:38-61 | the buffer starts with all segments' contents in order and is otherwise unchanged; too small a buffer panics |
| DeviceCopy.RestoreFromSlice | server/src/phos/memory/ckpt.rs:101-122 | the copies of all segments in order, at their running offsets, into the memory mapped at each |
| DeviceCopy.CopySurvives | server/src/phos/memory/ckpt.rs:38-122 | for all contents every segment byte arrives exactly if segments sharing memory afterwards shared it before; no other byte changes |
| DeviceContents.ContentsSurvive | server/src/phos/memory/ckpt.rs:101-122 | dump, restore the manager, copy back: for all contents every byte behind every mapping is there again exactly if mappings borrowing one proxy showed the same memory |
| DeviceContents.LiveContentsSurvive | server/src/phos/memory/ckpt.rs:101-122 | nothing is lost while every borrowed proxy is live |
| DeviceContents.ReusedProxyLosesContents | server/src/phos/memory/manager.rs:299-316 | a run and contents after which one mapping shows another's bytes |
| Snapshot.HeaderRoundTrip | server/src/phos/detach.rs:11-43 | any header reads back whatever its padding holds |
| Snapshot.HeaderSize | server/src/phos/detach.rs:11-22 | the C layout takes 56 bytes |
| Snapshot.HeaderLayout | server/src/phos/detach.rs:11-43 | where in the 56 bytes each field lies, little-endian, padding behind the flag |
| Snapshot.MagicBytes | server/src/phos/detach.rs:9 | the eight bytes a snapshot starts with |
| Snapshot.SnapshotRoundTrip | server/src/phos/detach.rs:58-178 | all four sections read back unchanged for all sizes that fit |
| Snapshot.DumpState | server/src/phos/detach.rs:58-90 | it panics exactly if a ring is not empty or too small; otherwise the snapshot reads back and both rings are valid and empty at any head position |
| Snapshot.ReadSnapshot | server/src/phos/detach.rs:140-178 | the sections by running offset, or the failed assertion |
| Attach.AttachIsConsistent | server/src/phos/detach.rs:94-131 | in every interleaving, exits included: the client is out of any call until the unlock, device contents are read as dumped, header, kernels and metadata exactly if no exit byte changed one before it was read, and what the client wrote before service starts is all still in the ring, in order |
| Attach.NoExitNoHit | server/src/phos/detach.rs:94-113 | in every run in which the client does not exit all sections are as dumped and the emptiness test passes |
| Attach.ExitHitsSnapshot | client/src/hijack/client.rs:66-85 | a run in which an exit between the emptiness test and the reading changes a section read |
| Attach.SafeLogIsIntact | server/src/phos/detach.rs:114-118 | with safe layout, order and contents the replayed log is the dumped one, exits included |
| Attach.UnsafeLogIsCorrupted | server/src/phos/detach.rs:110-118 | otherwise some interleaving replays another log |
| Attach.LogIsIntactExactly | server/src/phos/detach.rs:94-122 | the exact condition on layout, order and contents |
| Attach.OnlyTinyLogsAreSafe | server/src/phos/detach.rs:110-118 | as written, only an empty log or one byte in one place is safe |
| Attach.AttachReadsSnapshot | server/src/phos/detach.rs:94-178 | on the snapshot's own layout: the dumped device contents always, header, kernels and metadata exactly if no exit byte changed one before it was read, the handle log exactly if it is safe |
| AttachProgress.AttachCompletes | server/src/phos/detach.rs:94-131 | the worker's own steps take any parked snapshot to serving: all sections, contents and, if needed, the log as they lie in memory, and the lock cleared |
| AttachProgress.EverythingIsServed | server/src/phos/detach.rs:118-131 | whenever an attach has come to serving, the worker's own steps take all the client wrote, in order |
| AttachProgress.ClientGoesOn | client/src/phos.rs:7-22 | after an attach the client can enter a call, write and leave again |
| AttachProgress.ExitMessageIs | client/src/hijack/client.rs:125-131 | an exiting client writes the four bytes of procedure id -1 and nothing after them |
| Kernels.Manager.RegisterModule | server/src/phos/kernel.rs:186-193 | the first image under a hash wins; a refused image changes nothing |
| Kernels.Manager.LoadModule | server/src/phos/kernel.rs:129-134 | the module is registered and joins the active list under its hash, or nothing changes |
| Kernels.Manager.TakeCheckpoint | server/src/phos/kernel.rs:136-147 | it panics exactly if an active hash has no module; otherwise every active image is in it |
| Kernels.Manager.RegisterModules | server/src/phos/kernel.rs:170-184 | all new images are added, none is replaced |
| Kernels.Manager.Restore | server/src/phos/kernel.rs:149-160 | only into an empty table, which then is the checkpoint's; with an image the driver refuses the active list stays empty |
| Kernels.WarmIsCold | server/src/phos/kernel.rs:36-54 | a warm attach has every active module exactly if the worker holds the client's; unless images at hand collide it then is the cold restore |
| Kernels.ColdRoundTrip | server/src/phos/kernel.rs:136-160 | parking, restoring and parking again saves the same list and images |
| Kernels.RegisteredAllHolds | server/src/phos/standby.rs:20-51 | after standby over any list of parked clients the worker holds every one's modules |
| Daemon.StepKeeps | server/src/daemon.rs:146-314 | every request keeps ids distinct and below next_id and workers with one owner |
| Daemon.NothingIsOwnedTwice | server/src/phos/daemon.rs:45-156 | in every reachable state, given fresh worker pids and sound directories |
| Daemon.RestoreCarriesIds | server/src/phos/daemon.rs:45-75 | every client of the directory has a child with exactly the directory's ids, the job's devices and a worker; nobody else is touched and the next id follows the directory's last |
| Daemon.ReapForgetsFinished | server/src/daemon.rs:295-314 | reaping forgets exactly the children of finished workers and a finished standby, and changes nothing else |
| Daemon.NewThreadIs | server/src/daemon.rs:77-100 | a new thread gets the next id behind the ids its client has; nobody else is touched |
| Daemon.ParkedClientsAreKept | server/src/daemon.rs:295-314 | a detached client is not reaped, renumbered or taken over until it is attached |
| Daemon.AttachUndoesDetach | server/src/phos/daemon.rs:95-143 | detach and attach again: on a standby worker the daemon is exactly as before, else but for the new worker |
| DaemonProcess.Inner.NewClientThread | server/src/daemon.rs:77-100 | the id is the old counter, the child found or spawned; a detached child or other job panics |
| DaemonProcess.Inner.RestoreJob | server/src/phos/daemon.rs:45-75 | ids reserved, each child found or spawned and given its ids; it panics exactly when the model does |
| DaemonProcess.Inner.BeginDetach | server/src/daemon.rs:200-214 | exactly one id and an attached worker, which the child gives up |
| DaemonProcess.Inner.AttachClient | server/src/phos/daemon.rs:128-143 | the standby if it covers the client, else a new worker; the client's own id is used |
| DaemonProcess.Inner.StandbyRequest | server/src/daemon.rs:224-252 | the list is accepted exactly if it is non-empty, distinct, parked, on the same devices, and the slot free |
| DaemonProcess.Scan | server/src/phos/daemon.rs:174-199 | ids by process in directory order, between the bounds returned, which are ids of the directory or the initial ones |
| DaemonProcess.ScanIsSound | server/src/phos/daemon.rs:174-199 | a directory without repeated ids meets what the restore asks |
| Fleet.RunKeeps | server/src/phos/daemon.rs:20-156 | over all runs a caching worker has every module of a client but those the client loaded on other workers since |
| Fleet.AttachFindsModules | server/src/phos/daemon.rs:128-143 | over all runs an attach finds every active module exactly if it is cold or nothing loaded elsewhere since is missing from the standby's table; then, collisions aside, it is the cold restore |
| Fleet.ModulesStayRegistered | server/src/phos/kernel.rs:129-193 | through every run of loads, lookups, detaches, attaches, restores and reaping in which no attach missed a module, every running client has a module behind every hash on its list |
| Fleet.DetachNeverFails | server/src/phos/kernel.rs:136-147 | a detach the daemon accepts fails exactly for a list with an unknown hash, and never in such a run |
| Fleet.LookUpNeverFails | server/src/phos/kernel.rs:19-28 | nor does looking a function up in a module on the client's list |
| Fleet.LookUpIsRemembered | server/src/phos/kernel.rs:19-28 | the function looked up joins the client's functions, and nothing else changes |
| FleetHalts.RequestHalts | server/src/phos/daemon.rs:95-156 | over all runs a request other than a restore halts the system exactly if the daemon panics, or a client to be parked has a hash on its list without a module |
| FleetHalts.RestoreHalts | server/src/phos/kernel.rs:149-160 | a restore halts it exactly if the daemon panics, a client has no kernels in the directory, or one has a worker already with modules loaded |
| Fleet.StandbyIsLeftBehind | server/src/daemon.rs:254-261 | a run from the daemon's start after which a warm attach misses a module |
| StandbyHandles.RunKeeps | server/src/phos/standby.rs:61-81 | a table a worker keeps, with the calls made elsewhere since applied, is the client's present one |
| StandbyHandles.AttachFindsHandles | server/src/phos/detach.rs:114-118 | a client attached goes on with the dumped table exactly if no kept one with handles is used, or the calls made elsewhere since it was kept leave it as it was |
| StandbyHandles.UndisturbedIsNotStale | server/src/phos/standby.rs:61-81 | as it is if the client made no call and did not begin anew elsewhere |
| StandbyHalts.RequestHalts | server/src/phos/detach.rs:94-131 | over all runs a request other than a restore halts the system exactly if the daemon panics, or an attach has to replay a dumped log that does not replay |
| StandbyHalts.RestoreHalts | server/src/phos/daemon.rs:45-75 | a restore halts it exactly if the daemon panics or a log found in the directory does not replay |
| StandbyHalts.FreshKeepsNothing | server/src/phos/standby.rs:61-81 | a new worker process keeps no client's table, and a table taken over is no longer kept |
| StandbyHandles.TableIsLeftBehind | server/src/phos/standby.rs:65-81 | a run from the daemon's start after which a client goes on with an outdated table |
| KernelSections.RestFields | client/src/elf.rs:293-300 | of a record's last word the top 14 bits are the size, the next bit alone decides the bank, and the low 17 bits do not matter |
| KernelSections.SectionReads | client/src/elf.rs:219-256 | whatever entries a section is made of, the scan sees exactly them: the size declared last with its bank, and all records, skipped blocks leaving no trace |
| KernelSections.OnlyEntriesAreRead | client/src/elf.rs:219-256 | whatever is scanned without a panic consists of such entries, but for a last skipped block that may run off the end |
| KernelSections.AcceptsExactly | client/src/elf.rs:257-269 | a section is accepted with a result exactly if the result arranges its records by the rules for the size declared last |
| KernelSections.SampleIsAccepted | client/src/elf.rs:272-325 | a section in bytes, with every kind of entry, records out of order and low bits set, is accepted with its two parameters |
| KernelParams.ParseParams | client/src/elf.rs:219-270 | the loop, the sort and the checks return, or panic on, what the format says |
| KernelParams.ParsedLayout | client/src/elf.rs:257-269 | accepted parameters are the records in ordinal order, all in the declared bank, and a proper layout exactly if no 16-bit sum overflows |
| KernelParams.WrappingSectionIsAccepted | client/src/elf.rs:265-268 | an accepted section that is not a proper layout |
| KernelParams.AcceptedIsChained | client/src/elf.rs:257-269 | the records of every accepted section form a chain of 16-bit sums ending at the declared size |
| KernelParams.PackKernelArgs | client/src/hijack/cuda_hijack_utils.rs:8-21 | for every accepted section: all copies stay in bounds exactly if no 16-bit sum overflows, then every argument reads back after all copies and gaps stay zero |

## Left out

- Liveness under a given scheduler: not decided by this code; the progress lemmas bound each side's own steps and show that some schedule gets there. The process's exit seconds after its main worker thread has ended is not modelled.
- CUDA, NVML, cuDNN, cuBLAS and NCCL: foreign code. The driver refuses size 0 and overlapping maps and otherwise answers arbitrarily; copies on one stream take effect in order.
- RDMA connection setup and the card's failures: the model has ordered writes, reads and CAS only.
- bincode, lz4 and ELF parsing, the fat binary walk: library code or raw pointers; decoded values and section bytes are inputs.
- The emulator channel's timestamps and the performance tools: floating point and wall clock, or repetitive forwarding.
- Hook table contents, text emission, and the values of user-written injected statements: `Stubs` takes it as given that hand-written sends and receives match.
- The handle manager without a log, the TCP, mmap and CRIU plumbing, configuration: no invariant beyond the ones here.
- `DeviceMemory` set_access changes no field; only its checks would be restated.
- Widths of the id, request and proxy counters, and of lengths summed in the session code: unbounded here; the sums that size the ranges and the parameters are modelled with their wrap-around.
- RdmaRing.RunKeeps: the sender's copy into its own ring and each posted request are single steps; other parties touch neither region meanwhile, which PendingWritesAreSafe states for the card.
- Attach.OnlyTinyLogsAreSafe: a worker that already has handles of the client copies no log; which table it then goes on with is in StandbyHandles.AttachFindsHandles.
- HandleLog.ReplayIsFaithful: driver objects are values changed by their own calls only; same-key calls overwrite and different-key calls commute, as op keys promise.
- HandleManager.Manager.InsertArgs: one table with its own clock; the program's clock is shared by all threads, which keeps times distinct in each.
- Snapshot.DumpState: a flag byte other than 0 and 1 cannot occur in a header the program wrote.
- Daemon.NothingIsOwnedTwice: the worker's own part of detach and attach succeeds; checkpoint requests change no daemon state.
- Fleet.AttachFindsModules: module loading by the driver succeeds, as the unwraps of standby and restore demand; requests to the daemon do not overlap, as its session loop has it.
- DeviceContents.ContentsSurvive: memory of user handles that are not mapped at the checkpoint is not saved by the program and comes back unspecified.
- The straight-line handlers of `DeviceManager` and `DaemonProcess` not listed above, and `Kernels.Manager.AttachWarm`, are equal to the model's step; what is promised of them is in the lemmas about that step.
- StandbyHandles.AttachFindsHandles: replaying a dumped log is one step that gives the dumped table if it is replayable and halts if not, as HandleLog.ReplayIsFaithful proves; what follows a stale attach is not followed further.
- Attach.AttachReadsSnapshot: the assertions that the header names the attaching client's own process and id are not modelled; both come from the daemon that parked it.
- Attach.AttachIsConsistent: the emptiness test is made once, before anything is read; the program makes it on each access to the snapshot's buffers, all of them before the sections are read. The sections are read at the positions the dumped header gives.
