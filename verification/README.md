# uringio: a verified model of the event loop's core

uringio is an asyncio event loop on top of io_uring. A call such as `file.read()` creates a
future, registers it in a slot of the *request registry*, and hands the slot's index to the
kernel as `user_data`. Completions come back in any order; the reader turns the index back into
a slot, settles the future that sits there, lets go of the buffers, and gives the index back.
Indices are reused last-in first-out, so that a completion reaches the future it belongs to is a
property of whole runs, not of one function. This project models that protocol and the parts
around it in Dafny and proves what they keep.

`dafny verify dfyconfig.toml` checks everything.

## How the project is laid out

| file | what it holds |
|---|---|
| `Core.dfy` | options, bytes, the C enumerations, the two ways C code can crash |
| `FreeLists.dfy` | the array-and-`top` stack of free indices and the set allocator it refines |
| `Vectored.dfy` | scatter as POSIX.1-2017 `readv()` defines it, and the reader's gather loop |
| `Runtime.dfy` | objects with reference counts, futures, payloads, slots; `Add` and `Remove` |
| `Reader.dfy` | one trip round the reader's loop: `Decode`, `Dispatch`, `ReapOne`, `ReapAll` |
| `Requests.dfy` | the public file, socket and timer calls: `Prepare`, `Register`, `Submit` |
| `Protocol.dfy` | the state machine (nine kinds of step) and its invariant `Inv` |
| `Invariant.dfy` | every step keeps the invariant |
| `Guarantees.dfy` | what follows over whole runs, and the counter-runs |
| `History.dfy` | what became of every request: outcomes, fates, and the references left behind |
| `Calls.dfy` | call by call: what is registered, which buffers it brings, what its caller is shown |
| `Sessions.dfy` | whole sessions as runs: create, deliver, take, read |
| `Pool.dfy` | the buffer index of a FIXED payload as a machine that every protocol step refines |
| `Shutdown.dfy` | the drain and the destruction of the registry |
| `EventLoop.dfy` | the registry, the reader, the drain, close and dealloc as imperative code, proved equal to the functions above |
| `FixedIndex.dfy` | the index registry of FIXED contexts; one request at a time, and two that overlap |
| `Witnesses.dfy` | runs from a new loop into each failure the guarantees state |
| `TimerHeap.dfy`, `Scheduling.dfy` | waiting, promotion of timers, the bounded drain, whole iterations |
| `Contexts.dfy` | nested execution contexts over context-variable tokens |
| `Buffers.dfy` | payload constructors and the free routine against a ledger of blocks and views |
| `BufferRing.dfy` | slicing of the buffer-ring pool |

The protocol's state is a registry, a heap (reference counts, futures, payloads, how often each
payload was freed), the set of requests in flight, the completion queue, and a history: what each
call registered, what the kernel answered, how each request left the registry (reaped or drained),
which references callers hold, and which references open and socket calls have left with their
requests for the result to take over. A step is a call
(accepted, refused by the ring, or met by a full registry), the kernel answering any request in
flight, a stray completion (wakeup tag, out of range), a cancellation, a caller taking a reference
(from another caller or from the result of a future) or dropping one, a context installing a payload, one trip of the reader, or one trip of the shutdown
drain. C's undefined behaviour and `abort()` are explicit outcomes (`Crashed(BadAccess)`,
`Crashed(Abort)`), so their absence is something that is proved.

## Hypotheses

The code does not establish these; where a short run shows why one is needed, the member is named.

- One completion per request. A zero-copy send posts two, the reader frees the slot on the first
  (`Guarantees.SecondCompletionStrikesStranger`).
- A submission is refused before there is a ring entry. When `io_uring_submit` fails after the entry
  was prepared, the entry stays queued although its slot is given back
  (`Guarantees.QueuedEntryStrikesStranger`).
- The kernel stores no more bytes than a request's buffers hold, stores them in order, and stores them
  when it posts the answer. Where it selects the buffer itself (PROVIDED, BUF_RING), what the payload's
  first buffer holds when the reader looks is left open, its size apart.
- Allocations of an ordinary size succeed; only `Buffers` follows them failing.
- A call is made on an object a caller holds, and a caller gets an object only from another caller
  or from a future that has delivered it. `Sessions.CreationMakesUsable` shows that every opened
  file and every prepared socket gets there.
- Every completion that names a slot answers the request in it. Entries prepared without user data
  (linked timeouts in src/timer/timer.c, provided buffers in src/buffer_controllers/buffer_modes.c)
  complete with 0 or an index of old, which may name a slot; such a completion settles the request it
  finds there, or crashes the reader (`Guarantees.CompletionStrikes`).
- The FIXED index list is conserved for one successful request at a time; what two overlapping requests
  do to it is classified exactly (`FixedIndex.RoundRestoresIff`, `FixedIndex.OverlapRestoresIff`,
  `FixedIndex.OverlapHoldsTwiceIff`).
- Each `with` makes its own manager object (`Contexts.ReenteringLosesToken`).
- The pool of a buffer ring is contiguous, and a ring has at most 65536 entries
  (`BufferRing.OnlyFirstSliceInOneBuffer`, `BufferRing.ReaderFindsPublished`).

## Where the code does not do what one would expect

The model follows the code; each of these is stated exactly.

- A successful `readv` under PROVIDED or BUF_RING buffers, and a successful `recvmsg` under
  MULTISHOT, make the reader follow a null pointer. These are the only public calls that do so
  (`Guarantees.IndigestibleCalls`), and they do (`Guarantees.IndigestibleCallCrashes`).
- `sendmsg` under ZERO_COPY asks its own new payload for a buffer index and follows that payload's null
  registry pointer, before the ring sees anything. `recv` and `recvfrom` with a buffer argument that
  cannot be viewed, and a read or receive of negative size without a buffer to borrow, go on with a
  pointer that was never set (`Requests.UnsetBufferIff`). No other call crashes on submission
  (`Calls.CrashingCalls`).
- A FIXED manager object that is entered a second time follows a null pointer, since the first enter
  dropped the iovec array (`Contexts.ReenteringLosesToken`).
- An open or socket call leaves a reference with its request that only the reader's success path
  takes over. It is lost if and only if the request fails, is drained, or is still outstanding at
  destruction (`Guarantees.CreationLeaksIffFailed`, `Guarantees.DrainedCreationLeaks`,
  `Shutdown.OnlyCreationsAreLost`).
- The forced release at destruction frees a context's payload once per slot that still carries it,
  hence twice exactly when two outstanding requests share it (`Shutdown.DestroyFreesTwiceIffShared`).
- A failed FIXED read loses its buffer index (`FixedIndex.RoundRestoresIff`), and so does one the ring
  refuses (`FixedIndex.RefusedReadLosesIndex`). A receive that is reaped while a read is in flight frees
  the read's index, and the next read is given it too (`FixedIndex.OverlapHoldsTwiceIff`).
- The shutdown drain has no guard for a slot without a future: outside the protocol such a completion
  aborts or wrecks the free list (`Shutdown.DrainWithoutFuture`).
- The wakeup completion decodes to index -1 and is dropped, so the branch that would re-arm the
  wakeup read is unreachable (`Reader.ForeignIsDropped`).
- `tv_nsec` is always 0: the loop wakes up to a second early and never late
  (`Scheduling.NeverOversleeps`).
- `get_or_create_linear_buffer` ignores a constructor that fails, and `create_buffer_payload` leaves
  its header behind when one does (`Buffers.GetOrCreateLinear`, `Buffers.CreateSelectedPayload`).
- None of these is an empty statement: `Witnesses` has a run from a new loop into each crash of
  the reader or a call, each leak, the lost, duplicated and doubly used indices, and the double release.
- docs/api/file.md says that `readv` gives `list[bytes]` and `readv_raw` an `int`; both deliver one
  byte string.

## Model

| member | source | states |
|---|---|---|
| FreeLists.FreshIsFull | src/registry/registry.c:32-37 | the initialised array is duplicate-free, in range, and nothing is live |
| FreeLists.FreePlusLive | src/registry/registry.c:90-95 | free plus live is the capacity; allocation fails exactly when all indices are live |
| FreeLists.PopHandsOutFree | src/registry/registry.c:94-95 | the index handed out is in range and held by nobody, and becomes the only new live one |
| FreeLists.PushFreesLive | src/registry/registry.c:168-169 | releasing a live index never overflows the array and frees exactly that index |
| FreeLists.PushValidIffLive | src/buffer_controllers/buffer_index.c:55-63 | a release into a list with room keeps it duplicate-free if and only if the index was live |
| FreeLists.PopThenPush | src/buffer_controllers/buffer_index.c:43-63 | allocating and releasing the same index restores array and `top` exactly, stale cells included |
| FreeLists.RunRefines | src/buffer_controllers/buffer_index.c:22-63 | every run in which clients give back what they hold is, answer by answer, a run of a LIFO stack of free indices and of the set allocator, the live set being what is not on the stack |
| Vectored.ScatterFlattens | src/python_api/reader/on_ready.c:67-83 | the in-order fill keeps every buffer's length and overwrites exactly the first bytes of the concatenation |
| Vectored.ScatterFillsInOrder | src/python_api/reader/on_ready.c:67-83 | a buffer is untouched until all earlier ones are full |
| Vectored.GatherUndoesScatter | src/python_api/reader/on_ready.c:67-83 | the first `res` bytes of the concatenated buffers are the data that was scattered, for every data and every cut |
| Vectored.Gather | src/python_api/reader/on_ready.c:212-227 | for every iovec array and every `res` the result has `res` bytes, no copy leaves it, and it holds the first `res` bytes of the concatenation |
| Runtime.AddKeepsStructure | src/registry/registry.c:79-121 | adding uses a slot that held nothing, changes no other, and keeps "free iff no future" |
| Runtime.RemoveKeepsStructure | src/registry/registry.c:132-170 | removing an occupied slot never aborts and keeps the structure |
| Runtime.AddThenRemoveRestores | src/python_api/ops/files/files.c:697-709 | registering and rolling back restores free list, reference counts and every other slot |
| Runtime.HeldUpdate | src/registry/registry.c:102-114 | the references the registry holds on an object are those of its slots, one update at a time |
| Reader.DispatchKeepsFuture | src/python_api/reader/on_ready.c:56-267 | no opcode case aborts, and the switch changes nothing of the slot but its payload pointer |
| Reader.ReapKeepsStructure | src/python_api/reader/on_ready.c:7-14 | whatever one completion says, `abort()` is not reached and the registry's structure stands |
| Reader.AnyStreamIsHarmless | src/python_api/reader/on_ready.c:7-278 | the same after any stream of completions; free plus live is still the size |
| Reader.ForeignIsDropped | src/ring/ring.h:10 | the wakeup tag decodes to -1; it and every index out of range change nothing |
| Reader.DecodeTruncates | src/python_api/reader/on_ready.c:8 | the index is the one C int that agrees with the user data in the low 32 bits |
| Requests.CallsBuildWellFormed | src/python_api/buffers/buffers.c:201-262 | a public call registers what the reader relies on if and only if its buffer was set; it borrows a payload only when its mode is not NORMAL, otherwise it owns a new one |
| Requests.UnsetBufferIff | src/python_api/buffers/buffers.c:211-221 | the buffer is not set exactly for a receive whose buffer argument cannot be viewed, and for a read or receive of negative size with nothing to borrow |
| Calls.CallsRegister | src/python_api/ops/sockets/sockets.c:324-327 | call by call, as a table: the opcode, the stream strategy, and the file or socket that the request names |
| Calls.CallsBring | src/python_api/buffers/buffers.c:201-262 | call by call: the payload is a new one with the bytes or vector given, zeros of the size asked for, or the context's own |
| Calls.CrashingCalls | src/python_api/ops/sockets/socket_ops_dispatcher.c:226-229 | which calls crash before the ring sees anything, by call, argument and context: a ZERO_COPY sendmsg that finds a slot, a receive into what cannot be viewed, a negative size with nothing to borrow; no other |
| Invariant.InitInv | src/registry/registry.c:3-40 | a new loop satisfies the protocol invariant |
| Invariant.SubmitKeeps | src/python_api/ops/sockets/socket_ops_dispatcher.c:226-229 | a call, accepted, refused or met by a full registry, keeps the invariant and never aborts; it crashes if and only if its buffer was not set, or it finds a free slot and is a sendmsg in ZERO_COPY mode |
| Invariant.RegisterAccepts | src/python_api/ops/sockets/sockets.c:324-337 | an accepted request takes the top index, fills that slot only, and adds the slot's references |
| Invariant.RegisterDeclines | src/python_api/ops/files/files.c:246-254 | a declined request drops what the call held, frees a private payload once, and leaves table and free list as they were |
| Invariant.CompleteKeeps | src/python_api/reader/on_ready.c:7-9 | the kernel answering any request in flight keeps the invariant, its data being where the reader will look |
| Invariant.PrivateIsUnshared | src/registry/registry.c:105 | two slots never carry the same private payload |
| Invariant.DispatchCrashesIff | src/python_api/reader/on_ready.c:56-267 | on well-formed requests the switch crashes if and only if the request is indigestible |
| Invariant.DispatchEffect | src/python_api/reader/on_ready.c:57-116 | a success frees a private payload exactly once and a context's never, and always delivers an object |
| Invariant.DispatchAnswers | src/python_api/reader/on_ready.c:56-267 | what is delivered is the answer to the request: the bytes the kernel stored, the opened object, the count |
| Invariant.ReapKeeps | src/python_api/reader/on_ready.c:21-278 | one trip of the reader keeps the invariant, never aborts, and crashes exactly on an indigestible success |
| Invariant.DrainKeeps | src/python_api/loop/shutdown.c:17-38 | one trip of the drain keeps the invariant and never reaches `abort()`, although it lacks the null-future guard |
| Guarantees.StepKeeps | src/registry/registry.c:132-138 | every enabled step keeps the invariant; `abort()` is unreachable; a step crashes if and only if it reaps an indigestible success or submits one of the crashing calls |
| Guarantees.ReachableInv | src/python_api/reader/on_ready.c:7-278 | every state reachable by any interleaving satisfies the invariant |
| Guarantees.Partition | src/registry/registry.c:79-170 | free stack, requests in flight and completion queue partition the indices: each index in exactly one place, once |
| Guarantees.OutstandingSlotsAreIntact | src/registry/registry.c:97-118 | every outstanding index's slot still holds the future, opcode, payload and objects of its request |
| Guarantees.SettledAtMostOnce | src/python_api/reader/on_ready.c:23-31 | over any run a settled or cancelled future never changes again |
| History.OutcomesAreOwn | src/python_api/reader/on_ready.c:21-276 | every settled future shows the outcome of its own request: the error or answer the kernel gave to it if it was reaped (byte for byte for private buffers), the loop's end if it was drained, and then the run has a drain; despite index reuse and any completion order |
| History.UntouchedBytesAreOwn | src/python_api/reader/on_ready.c:57-83 | in a payload of any owner, where the kernel does not select the buffer, the bytes delivered are those it stored, if it stores nothing else there between answer and reap, whatever else happens |
| Calls.RoundShows | src/python_api/reader/on_ready.c:21-276 | a call submitted, answered and reaped in turn shows -62 as None if it is a timer, any other negative answer as that OSError, and otherwise what this call promises: connection, count, opened object, bytes |
| Calls.CallIsServed | src/python_api/reader/on_ready.c:128-152 | from any state with room every call that gets to the ring has such a run, with any answer if it reads nothing and any error if it does |
| Calls.TimerExpires | src/python_api/reader/on_ready.c:21-23 | from any state with room a run sets a timer, lets it expire, and its future shows None |
| Calls.CallersGetTheirOwn | src/python_api/reader/on_ready.c:21-276 | over every run from a new loop, each settled future shows what its own call promises for the kernel's answer, or the loop's end if it was drained |
| Calls.SlotsAreOfTheirCalls | src/registry/registry.c:97-118 | over every run the slot of an outstanding call has the opcode and the object of that call, the registry holds its future and its object, and the bytes it sends are in place |
| History.NoRequestIsForgotten | src/python_api/reader/on_ready.c:276-277 | an accepted request is in its slot, in flight or queued, if and only if it has been neither reaped nor drained; once it has, its future is not pending |
| History.EveryReferenceIsAccounted | src/registry/registry.c:102-114 | over every run each reference is a slot's, a result's or a caller's, except exactly one on the object of each open or socket call whose success the reader has not met |
| Guarantees.ReapSettles | src/python_api/reader/on_ready.c:21-278 | reaping a completion does settle its pending future, with that completion's outcome, for every request of the public calls that is not indigestible |
| Guarantees.ReapAllKeeps | src/python_api/reader/on_ready.c:7-278 | the whole reader loop leads from a protocol state to one with an empty queue, or to an indigestible success |
| Guarantees.IndigestibleCalls | src/python_api/ops/files/files.c:258-307 | a public call builds an indigestible request if and only if it is readv under PROVIDED or BUF_RING, or recvmsg under MULTISHOT |
| Guarantees.IndigestibleCallCrashes | src/python_api/reader/on_ready.c:178-202 | and then a successful completion of it crashes the reader |
| Guarantees.PayloadsFreedOnce | src/python_api/buffers/buffers.c:503-543 | in every reachable state a private payload is carried by a slot and unfreed, or freed exactly once; a context's payload is never freed |
| Guarantees.QuiescentHoldsNothing | src/registry/registry.c:142-160 | with nothing outstanding every index is free, the registry holds no reference, all private payloads are freed |
| Guarantees.DeliveredHasOneReference | src/python_api/reader/on_ready.c:103-116 | a delivered object (opened file, socket, connection, bytes, integer) ends with exactly one reference, the future's |
| Guarantees.CreationLeaksIffFailed | src/python_api/reader/on_ready.c:103-116 | after the reap of an open or socket request the results account for every reference to its object if and only if the kernel reported success, cancelled futures included; otherwise exactly one is lost |
| Guarantees.DrainedCreationLeaks | src/python_api/loop/shutdown.c:28-37 | a drained open or socket request always leaves its object with one reference nobody holds |
| Guarantees.DeclinedLeavesNoTrace | src/python_api/ops/files/files.c:697-709 | a declined call that does not crash leaves all reference counts and the free list as before and frees exactly what it built |
| Guarantees.ReapFreesIndexOnTop | src/registry/registry.c:168-169 | the index of a reaped request is on top of the stack |
| Guarantees.NextCallTakesTop | src/registry/registry.c:94-95 | the next accepted call gets that index |
| Guarantees.SecondCompletionStrikesStranger | tests/c_tests/test_sockets.c:437-461 | a second completion of one request settles the future of the next call, whichever it is, or crashes the reader, while that call's request is still in flight |
| Guarantees.QueuedEntryStrikesStranger | src/python_api/ops/files/files.c:698-706 | so does the late completion of a refused entry that stayed in the ring |
| Guarantees.CompletionStrikes | src/python_api/reader/on_ready.c:8-14 | any completion that names an occupied slot, whoever sent it, settles the pending future in it or crashes the reader |
| Guarantees.AnyTrafficIsHarmless | src/registry/registry.c:132-138 | calls interleaved with arbitrary completions (duplicated, stale, out of range, tagged) never reach `abort()` and keep the structure |
| Sessions.CreationMakesUsable | src/python_api/ops/files/files.c:48-84 | from any state with a free slot and an empty queue a run opens a file or prepares a socket, delivers it and lets the caller take it; then calls on it are enabled and nothing else has changed |
| Sessions.ReadDelivers | src/python_api/reader/on_ready.c:57-66 | from there, for any data that fits, a run reads exactly that data |
| Sessions.ReadIsReachable | src/python_api/reader/on_ready.c:57-66 | a new loop of any size has a run that ends with a future showing any given data |
| Witnesses.ReadvCrashIsReachable | src/python_api/reader/on_ready.c:67-83 | under any PROVIDED or BUF_RING payload a new loop has a run after which the reader crashes on a readv's completion |
| Witnesses.RecvmsgCrashIsReachable | src/python_api/reader/on_ready.c:178-181 | a new loop has a run after which the reader crashes on a multishot recvmsg's completion |
| Witnesses.SendmsgCrashIsReachable | src/python_api/ops/sockets/socket_ops_dispatcher.c:226-229 | a new loop has a run after which any ZERO_COPY sendmsg crashes |
| Witnesses.UnsetBufferIsReachable | src/python_api/ops/sockets/socket_ops_dispatcher.c:86-94 | a new loop has a run after which any read or receive whose buffer is not set crashes |
| Witnesses.CreationIsLost | src/python_api/reader/on_ready.c:103-116 | a new loop has a run that leaves the object of a failed, or of a drained, open or socket call with one reference nobody holds |
| Witnesses.DoubleReleaseIsReachable | src/registry/registry.c:53-56 | for every loop of two slots or more and every context payload a read borrows, a run ends with two reads outstanding whose payload destroy frees twice |
| Witnesses.FailedReadIsReachable | src/python_api/ops/files/file_ops_dispatcher.c:16-18 | a run ends with the index of a failed FIXED read lost, whatever the error |
| Witnesses.RefusedReadIsReachable | src/python_api/ops/files/files.c:697-709 | a run ends with the index of a refused FIXED read lost |
| Witnesses.DuplicateIsReachable | src/buffer_controllers/buffer_index.c:55-63 | a run of two overlapping successful FIXED reads ends with a full list that holds an index twice |
| Witnesses.IndexInUseTwiceIsReachable | src/python_api/reader/on_ready.c:166-168 | a run in which a receive is reaped beside a FIXED read ends with two reads in flight on one index |
| Shutdown.StepMeasure | src/python_api/loop/shutdown.c:17-38 | in the drain phase each answer and each trip lowers 2*in-flight + queued by one and keeps the invariant |
| Shutdown.DrainTerminates | src/python_api/loop/shutdown.c:17-39 | hence the number of steps of a drain phase is bounded by the measure plus twice the strays |
| Shutdown.DrainFails | src/python_api/loop/shutdown.c:28-37 | each request outstanding at the start is still there untouched, or its pending future has been failed |
| Shutdown.SeenIsFailed | src/python_api/loop/shutdown.c:27-37 | draining what is queued and what arrives fails the pending future of every request among it, and leaves a cancelled one |
| Shutdown.FullDrainFailsEverything | src/python_api/loop/shutdown.c:28-37 | when nothing is outstanding any more, every such pending future has been failed and every index is free |
| Shutdown.DrainCanFinish | src/python_api/loop/shutdown.c:17-39 | from every protocol state such a drain exists and takes exactly the measure's number of steps |
| Shutdown.DrainAllKeeps | src/python_api/loop/shutdown.c:17-39 | the drain loop over whatever has completed never aborts and ends with an empty queue |
| Shutdown.DrainAllOn | src/python_api/loop/shutdown.c:17-39 | draining completions in two goes is draining them in one, crashes included |
| Shutdown.DrainWithoutFuture | src/python_api/loop/shutdown.c:28-37 | for a completion that names a free slot the drain aborts if and only if all slots are free, and otherwise destroys the registry's structure |
| Shutdown.DestroyDropsShare | src/registry/registry.c:42-76 | the destroy loop drops exactly the slots' references and frees each carried payload once per slot |
| Shutdown.ShutdownReleasesEverything | src/registry/registry.c:47-65 | after a drain phase of any length and destroy, only results, callers and the references left by creations remain, and each private payload was freed exactly once |
| Shutdown.OnlyCreationsAreLost | src/registry/registry.c:57-62 | over every run, after destroy each reference is a result's or a caller's, except exactly one on the object of each open or socket call that failed, was drained or is still outstanding |
| Shutdown.GracefulShutdownReleases | src/python_api/loop/shutdown.c:10-48 | the drain loop followed by destroy never aborts; afterwards only results, callers and the references left by creations remain |
| Shutdown.ShutdownWithArrivals | src/python_api/loop/shutdown.c:17-40 | the same whatever the kernel answers meanwhile, each request in flight at most once, and whatever strays arrive |
| Shutdown.DestroyFreesTwiceIffShared | src/registry/registry.c:53-56 | a payload is freed more than once if and only if it is a context's and two outstanding requests share it |
| EventLoop.RequestRegistry.constructor | src/registry/registry.c:3-40 | the arrays are those of a new registry, of the default size when 0 is asked for |
| EventLoop.RequestRegistry.Add | src/registry/registry.c:79-121 | the in-place code computes `Runtime.Add` |
| EventLoop.RequestRegistry.Get | src/registry/registry.c:123-130 | a slot exactly for the indices in range |
| EventLoop.RequestRegistry.Remove | src/registry/registry.c:132-170 | the in-place code computes `Runtime.Remove`, stopping exactly where that aborts |
| EventLoop.RequestRegistry.Destroy | src/registry/registry.c:42-76 | the loop computes `Shutdown.DestroyPrefix` over all slots and leaves no slots |
| EventLoop.GatherBytes | src/python_api/reader/on_ready.c:67-83 | the gather loop yields the prefix the reader's specification asks for |
| EventLoop.Switch | src/python_api/reader/on_ready.c:56-267 | the branching code computes `Reader.Dispatch`, case by case, crashes included |
| EventLoop.TellFuture | src/python_api/reader/on_ready.c:21-31 | an error sets the exception; a success sets the switch's result and drops the reader's reference |
| EventLoop.UringioLoop.SubmitRequest | src/python_api/ops/files/files.c:697-709 | the add-dispatch-check code of the calls computes `Requests.Register` |
| EventLoop.UringioLoop.SubmitCall | src/python_api/ops/sockets/sockets.c:688-721 | a whole public call computes `Requests.Submit`, crashing exactly where that does |
| EventLoop.UringioLoop.OnUringReady | src/python_api/reader/on_ready.c:3-279 | the reader's loop computes `Reader.ReapAll`, and its re-arm branch is dead |
| EventLoop.UringioLoop.GracefulShutdown | src/python_api/loop/shutdown.c:9-48 | whatever arrives during the waits, the drain and destroy compute `Shutdown.Destroy` of `Shutdown.DrainAll` over exactly what the drain met, one wait for each completion and a last one |
| EventLoop.UringioLoop.DrainQueue | src/python_api/loop/shutdown.c:17-39 | each trip waits once, takes in what arrives, and drains one completion; the loop ends well at the first wait that shows nothing, one wait more than completions, having drained what was queued and all that arrived by then; it stops exactly where the code aborts |
| EventLoop.ShutdownNeverAborts | src/python_api/loop/shutdown.c:17-39 | in every protocol state, whatever answers and strays arrive during the waits, the drain ends well |
| EventLoop.ShutdownFailsAnswered | src/python_api/loop/shutdown.c:17-39 | and every request whose answer was queued, or arrived before a wait showed nothing, has its pending future failed with the end of the loop |
| EventLoop.UringioLoop.DrainHead | src/python_api/loop/shutdown.c:18-38 | one trip computes `Protocol.DrainOne` |
| EventLoop.UringioLoop.Close | src/python_api/loop/loop.c:157-183 | a second close does nothing; a running loop is left alone; otherwise one teardown |
| EventLoop.UringioLoop.Dealloc | src/python_api/loop/loop.c:134-155 | after dealloc the teardown has run exactly once, whether or not close came first |
| FixedIndex.FixedBufferIdxRegistry.GetBufferIdx | src/buffer_controllers/buffer_index.c:43-53 | an index nobody holds, or -1 exactly when all are held |
| FixedIndex.FixedBufferIdxRegistry.ReleaseBufferIdx | src/buffer_controllers/buffer_index.c:55-63 | refused exactly when nothing is held; otherwise valid afterwards exactly when the index was held |
| Pool.SwitchReleases | src/python_api/reader/on_ready.c:61-63 | the reader's switch gives back the index noted in the slot's payload in exactly the cases that look at the mode, and does nothing else to the pool |
| Pool.SwitchFrees | src/python_api/reader/on_ready.c:57-116 | opcode by opcode: which successes free the slot's payload once, a context's never but by a write, and that the others free nothing |
| Pool.StepPlays | src/python_api/ops/files/file_ops_dispatcher.c:16-18 | every protocol step moves a FIXED payload's index as the machine does: a read with a slot takes the top, accepted or refused; a success that carries the payload gives back the last one noted; nothing else moves it |
| Pool.RunPlays | src/buffer_controllers/buffer_index.c:43-63 | over any run the index is where the machine's moves take it |
| FixedIndex.RoundRestoresIff | src/python_api/reader/on_ready.c:166-168 | one request served by submit, complete and reap restores a full list, cell for cell, if and only if it is not a read that fails |
| FixedIndex.RefusedReadLosesIndex | src/python_api/ops/files/files.c:697-709 | a refused request leaves the list full if and only if it is not a read |
| FixedIndex.FixedIndicesConserved | src/python_api/ops/sockets/socket_ops_dispatcher.c:82-94 | after any sequence of reads and receives run as protocol steps, one at a time and no read failing, the list is full again, cell for cell |
| FixedIndex.MovesDecide | src/buffer_controllers/buffer_index.c:43-63 | for any sequence of takes and gives from a full list: it stays free of duplicates if and only if no give into a list with room finds the index noted last already back, and is restored if and only if moreover all are back at the end |
| FixedIndex.RunDecides | src/python_api/ops/files/file_ops_dispatcher.c:16-18 | hence over any run of the protocol, with any number of requests at once, when the list is restored |
| FixedIndex.OverlapRestoresIff | src/python_api/ops/files/file_ops_dispatcher.c:17-18 | two overlapping requests restore a full list if and only if neither is a read, or one is and at least one of the two succeeds |
| FixedIndex.OverlappingReads | src/python_api/ops/files/file_ops_dispatcher.c:17-18 | two overlapping reads leave the second's index as often as reads succeed; both succeeding leaves a duplicate |
| FixedIndex.OverlapHoldsTwiceIff | src/python_api/reader/on_ready.c:166-168 | after one of the two is reaped with success, the next read is given the index of the other, still in flight, if and only if the other was the last to take one |
| FixedIndex.OverlappingRun | src/python_api/reader/on_ready.c:61-63 | the classification holds of every run in which the payload makes just these moves, whatever else happens in between |
| TimerHeap.RootIsEarliest | src/python_api/loop/helpers.c:25-30 | the root has the earliest deadline of the whole heap |
| TimerHeap.PopTakesRoot | src/python_api/loop/helpers.c:95 | popping removes exactly the root and keeps the heap |
| Scheduling.NeverOversleeps | src/python_api/loop/helpers.c:21-47 | the wait lies in 0..86400, is 0 when something is ready or the loop stops, outlasts no scheduled handle's remaining delay, and falls short of the earliest one's by less than a second, unless it is a day |
| Scheduling.WakesInTime | src/python_api/loop/helpers.c:25-38 | if the kernel wakes the loop when the wait is over, the second clock reading lies past no deadline that was still to come |
| Scheduling.PromotesExactlyTheDue | src/python_api/loop/helpers.c:76-107 | exactly the handles due before time + resolution move, in nondecreasing order of deadline; a heap of later ones is left; nothing is lost |
| Scheduling.DrainDisposesSnapshot | src/python_api/loop/helpers.c:116-129 | one drain disposes of exactly the handles present at its start, in FIFO order, whatever the callbacks append |
| Scheduling.DrainKeeps | src/python_api/loop/helpers.c:116-129 | what the callbacks append stays behind in order; heap and conservation survive |
| Scheduling.DrainReplays | src/python_api/loop/helpers.c:117-129 | the record of a drain says of each handle that it has run if and only if the effects of those run before it, and earlier ones, have not cancelled it; and the queues are what the effects of exactly those recorded as run make, in order |
| Scheduling.PerformMakes | src/python_api/loop/helpers.c:122-126 | an effect appends its new handles to the ready queue, schedules a timer for each of its deadlines, and cancels what it names, and nothing else |
| Scheduling.NextDrainDisposesTheNew | src/python_api/loop/helpers.c:116-129 | the next drain disposes of all of them |
| Scheduling.IterationDisposes | src/python_api/loop/loop.c:185-198 | an iteration disposes of everything that was ready and of every timer due at its promotion |
| Scheduling.IterationKeeps | src/python_api/loop/loop.c:185-198 | an iteration keeps conservation, the heap, and "never before the deadline minus the resolution" |
| Scheduling.RunsKeep | src/python_api/loop/loop.c:185-198 | the same over any run of iterations, with any callbacks |
| Scheduling.RunsAreNotLate | src/python_api/loop/loop.c:185-198 | over any run in which waking takes at most `wake` beyond the computed wait, the rest of an iteration at most `work`, and no timer is set for the past, no timer is disposed of later than its deadline plus wake + work |
| Scheduling.EachHandleIsInOnePlace | src/python_api/loop/helpers.c:55-132 | every handle created along a run is in exactly one of scheduled, ready and done, once |
| Scheduling.DisposedAtMostOnce | src/python_api/loop/helpers.c:117-129 | no handle is run or skipped twice |
| Scheduling.CancelledNeverRunsLater | src/python_api/loop/helpers.c:122-126 | a handle once cancelled is not run in this or any later iteration |
| Scheduling.Scheduler.Wait | src/python_api/loop/helpers.c:3-53 | the branching code computes the wait the law above is about |
| Scheduling.Scheduler.PromoteScheduled | src/python_api/loop/helpers.c:55-108 | the loop computes `Promote` |
| Scheduling.Scheduler.DrainReady | src/python_api/loop/helpers.c:110-132 | the bounded loop computes `Drain`, disposes of exactly the old queue, and has a record that replays |
| Scheduling.Scheduler.RunOnceStep | src/python_api/loop/loop.c:185-198 | wait by the first clock reading, completions, promotion by the second, drain, in this order, keep the loop sound |
| Contexts.FailedEnterRestores | src/python_api/execution_context/execution_context.c:260-296 | by kind of manager and mode: where a context is set, FIXED and PROVIDED fail exactly with their set-up, and everything else succeeds; after any failed enter the variable shows what it showed |
| Contexts.EnterObjectByMode | src/python_api/execution_context/execution_context.c:260-281 | by kind and mode: a FIXED manager crashes exactly without its array and drops it exactly when its set-up succeeds; no other crashes or touches it |
| Contexts.TokenWorksOnce | src/python_api/execution_context/contextvar.c:47-82 | whatever was set meanwhile, a token brings back what the variable showed before it, once, and leaves the other tokens alone |
| Contexts.OverrideIsInnermost | src/python_api/execution_context/execution_context.c:205-214 | clone-and-override is lookup of the innermost enclosing manager, one manager further in |
| Contexts.ProgramsAreWellNested | src/python_api/execution_context/execution_context.c:234-528 | for every program of nested managers, exceptions and failing enters: each exit restores, and each observation sees, dimension by dimension, the innermost manager that sets it |
| Contexts.ProgramsRestoreDefault | src/python_api/execution_context/contextvar.c:5-45 | from the initial context every program ends in the default one |
| Contexts.ReenteringLosesToken | src/python_api/execution_context/execution_context.c:260-281 | a manager object entered a second time, nested or in turn, crashes if and only if its mode is FIXED; otherwise, nested, it cannot be left twice, and restores only if it changes nothing |
| Contexts.ContextVar.SetValue | src/python_api/execution_context/contextvar.c:47-63 | the variable shows the value; the token remembers what it showed before |
| Contexts.ContextVar.ResetTo | src/python_api/execution_context/contextvar.c:65-82 | an unused token restores what it remembers, once; otherwise failure and no change |
| Contexts.ManagerObject.Enter | src/python_api/execution_context/execution_context.c:234-316 | the branching code computes `EnterObject`; the token is kept exactly on success, and a FIXED success drops the array |
| Contexts.ManagerObject.Exit | src/python_api/execution_context/execution_context.c:318-325 | the token is spent and cleared; the variable is reset if that is possible |
| Buffers.CreateForm | src/python_api/buffers/buffers.c:264-287 | succeeds exactly when every allocation is granted and then owns n distinct new buffers; a failure at any step has given everything back |
| Buffers.SerializeLinear | src/python_api/buffers/buffers.c:289-325 | the same for views of a user's buffers, each item's reference dropped on every path |
| Buffers.SerializeVector | src/python_api/buffers/buffers.c:361-406 | the same for an iovec array of views, the sequence object given back on every path |
| Buffers.GetOrCreateVector | src/python_api/buffers/buffers.c:240-262 | a payload with a vector form only, of the user's views or runtime buffers, and with everything it owns, or nothing at all |
| Buffers.GetOrCreateLinear | src/python_api/buffers/buffers.c:211-227 | a payload without a vector form whenever the header is granted, its linear pointer set exactly when the constructor succeeded |
| Buffers.CreateSelectedPayload | src/python_api/buffers/buffers.c:74-90 | a linear payload; a failing constructor leaves the header, and nothing else, behind |
| Buffers.FromData | src/python_api/buffers/buffers.c:154-199 | a linear payload around one view, or nothing at all, exactly as the four acquisitions are granted |
| Buffers.FromPyBuffer | src/python_api/buffers/buffers.c:106-152 | the caller's view moves into a vector payload, or stays the caller's |
| Buffers.FreeBufferPayload | src/python_api/buffers/buffers.c:503-543 | a context's payload survives unless forced; otherwise every block and view it owns is released exactly once and nothing else |
| Buffers.BuildThenFree | src/python_api/buffers/buffers.c:74-262 | construction followed by release (forced for a context's payload) leaves no block, no view and no double release, whatever the allocator grants, but for the header that the linear and the selected constructor leave when they fail after it |
| BufferRing.Publish | src/buffer_controllers/buffer_modes.c:67-69 | slice i is published under its id, and up to 65536 entries the id gives its address back |
| BufferRing.SlicesAreDisjoint | src/buffer_controllers/buffer_modes.c:67-69 | no address lies in two slices |
| BufferRing.SlicesTilePool | src/buffer_controllers/buffer_modes.c:67-69 | an address is in the pool if and only if it is in one of the slices |
| BufferRing.ReaderFindsPublished | src/python_api/reader/on_ready.c:179-181 | the address computed from a buffer id is the slice published under it, exactly as far as 16 bits reach |
| BufferRing.OnlyFirstSliceInOneBuffer | src/buffer_controllers/buffer_modes.c:51-74 | measured against a single buffer of `len` bytes, only slice 0 lies inside |

## Left out

- Filling submission entries (src/ops/): one function per operation; a submission is a step that is taken or refused.
- Argument parsing, enum creation, module and type set-up, garbage-collector hooks, exception groups.
- liburing and the kernel: any request in flight may be answered at any time with any result that fits its buffers.
- Zero-copy and multishot delivery, linked timeouts, signals, re-arming the wakeup read: present only as counter-runs, or as the hypothesis on completions that name a slot.
- A failing `io_uring_submit` after the entry is prepared: only the counter-run above.
- Dual linear-and-iovec payloads (`make_buffers`, `serialize_buffers`, NORMAL and FIXED `create_buffer_payload`): the payloads exist in the protocol, their construction does not.
- `sendto`'s payload, which is never handed to the registry; `slot->addr` and `msghdr`.
- The `closed` flags of files and sockets, and the closing of the wakeup descriptor.
- Allocation failure inside the reader and inside `registry_new`; registry sizes above INT_MAX.
- The view that `readv_raw` still holds when its payload cannot be built; the uninitialised `buffers_obj` of `recvmsg`; constructors called with length 0.
- Python-level errors inside the loop helpers (a missing `_when`, a failing `popleft`) and inside `set_result`; a future that is already done simply stays as it is.
- Floating-point rounding: times are reals.
- heapq's exact sift order: a binary min-heap stands for it, equal deadlines may come out in another order.
- The types of objects: a call is enabled on any object a caller holds, so the runs include some that the interpreter would refuse; what is proved of all runs holds of these too.
- The uninitialised `host`, `port` and `domain` of `recvfrom`, and the -2 refusal of `prep_socket`, which leaves an unprepared entry in the ring.
- A call made where the context variable holds no context, which dereferences a null pointer.
- Contexts.ReenteringLosesToken: does not follow the capsule of an `execution_context` manager, which frees the manager's context when it dies, so that a second enter of that kind of manager uses freed memory.
- Lifetime of context capsules, and what leaving a FIXED, PROVIDED or BUF_RING context does to the ring.
- The death of a future, which would drop its result's reference: futures and their results stay counted.
- History.OutcomesAreOwn: for a payload shared through a context states the length and origin of the bytes only, since other requests may overwrite them; History.UntouchedBytesAreOwn says when they do not.
