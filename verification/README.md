# WazabiEDR driver: verified model of the event path

WazabiEDR is a Windows kernel driver that reports process, image, registry, thread and handle activity to
one user-mode agent by *inverted call*: the agent keeps an `IOCTL_WEDR_GET_EVENT` request (an IRP) with the
driver, kernel callbacks build event buffers on any CPU, and `submit_event` either copies an event straight
into a parked request or appends it to a bounded ring that evicts its oldest entry when full. This project
models that path in Dafny 4.11 and proves what holds of it.

`dafny verify dfyconfig.toml` checks everything; the files need no library.

## The parts

* **The protocol** (`protocol.dfy`) is a small-step transition system over an unbounded set of threads. One
  step is one lock acquire or release, one atomic operation, one copy, one pool call or one IRP completion,
  in the order of the code. The ring capacity is a parameter (4096 in `DRIVER`); the counters are 32-bit and
  wrap. Steps are never guarded by the validity of their pointers: a step that frees a dead block, reads one,
  overruns a buffer or touches a completed IRP records a *fault*, so memory safety is proved, not assumed.
  History variables record submissions and hand-overs in lock order, stamps, fates and completions; no guard
  reads them.
* **The invariant** (`buffers.dfy`, `irps.dfy`, `control.dfy`, `order.dfy`, `fates.dfy`, `accounting.dfy`,
  `contents.dfy`, `delivery.dfy`, `safety.dfy`, assembled in `invariant.dfy`) is eighteen predicates, each kept
  by every step: ownership of pool blocks, responsibility for IRPs, mutual exclusion and the wake-up rule,
  order, fates, hand-overs, loss and truncation accounts and stamps, contents, outcomes, absence of faults,
  roles during unload.
* **The theorems** about every reachable state are in `theorems.dfy`; what the agent can add up from the headers
  it reads, now and in any continuation, in `reports.dfy` and `reporting.dfy`; the order of completions in
  `completions.dfy`; with what each kind of request is answered in `answers.dfy`; those about whole runs (wake-up, finality, conservation, unload) in
  `runs.dfy`; absence of deadlock and bounded critical sections in `progress.dfy`; which queued events can
  still be delivered in `deliverable.dfy`; the late mark, and concrete
  runs that show where comments promise more than the code gives, in `witness.dfy`; when unloading leaves
  nothing behind in `unloading.dfy`.
* **The routines in place**: `ring.dfy` is the ring buffer over an array with head, tail and length, and the
  bounded queue it refines; `sequential.dfy` has `submit_event`, `dispatch_device_control`,
  `dispatch_cleanup` and the drain of `driver_unload` as methods of an object over that ring;
  `solo.dfy` and `refinement.dfy` show that a routine of the step system, run without interruption from any
  reachable state, can run to its return, and that every such run has exactly the effect of those methods; `lifecycle.dfy` has the dispatch table and the registration flags.
* **Event bytes**: `wire.dfy` and `layout.dfy` (integers, header, packed fields), `records.dfy` (events as
  values, writer and reader), `gate.dfy` (bounded string copies and the registry prefix gate), `build.dfy`
  and `emit.dfy` (the emitters, writing in place into a zeroed buffer and returning the list of their writes),
  `spelling.dfy` (those lists, and the events they spell), `truncations.dfy` (the cuts that the protocol counts
  are the fields that emitters truncate), `production.dfy` (what a producer submits, whatever other threads do) and `endtoend.dfy` (from the
  emitter's writes, through any interleaving, to what the agent decodes).

## Where code and comments differ

The model follows the code. Each difference has an exact statement.

* *Drop stamps.* `src/events.rs:104` and `doc/reference/event-types.md:35` say that the `drop_count` fields of a
  stream add up to the losses. A stamp is taken when an event is built, so it is lost with an event that is
  dropped later. `Theorems.DropAccounting` gives the exact sum, `Reports.DropsReportedIff` says when what the
  agent reads adds up to the losses, `Reporting.DropsRecoverableIff` when it still can, and
  `Witness.LostStampWitness` is a run after which it never does. The same promise for `trunc_count`
  (`src/events.rs:108-111`) fails the same way: `Reports.TruncsReportedIff`, `Reporting.TruncsRecoverableIff`,
  `Witness.LostTruncWitness`.
* *Pending mark.* `mark_irp_pending` runs after the lock is released. `Witness.MarkOrderIff`: no run has any
  fault if and only if the mark comes before the park. `Theorems.NoFaults` adds that the late mark is the only
  possible fault in the written order, `Witness.WindowAlwaysOpen` that from every reachable state before a late
  mark some path leads to the mark of a completed IRP, `Witness.LateMarkRace` that one callback suffices. The
  model keeps no state for the mark itself, so it does not see the price of the early order: an IRP that is
  marked, loses the compare-exchange and is completed at once with `STATUS_UNSUCCESSFUL` breaks the I/O
  manager's rule that a marked IRP is answered with `STATUS_PENDING`. A driver that marks first must also
  return `STATUS_PENDING` on that path.
* *Reserved slot.* It is said to tell a truncated string from one that exactly fills the field. It does not at
  length MAX-1: `KernelStrings.LengthShowsWholeIff`, `KernelStrings.ReservedSlotAmbiguous`.
* *Preview length.* `data_preview_len` is said to be `min(data_size, MAX)`; that needs a non-null data pointer:
  `Emitters.PreviewLengthIff`.
* *Null handle.* An object-callback registration accepted with a null handle would never be removed
  (`Lifecycle.RemovedExactlyIff`), and its callbacks would then run after `driver_unload` has returned:
  `Unloading.LoadUnloadCleanIff`.
* *Order.* Events are handed over in submission order, but their requests complete outside the lock.
  `Completions.CompletionOrder` is for a client with one request outstanding; with two,
  `Witness.TwoRequestsWitness` completes them in the opposite order.
* The reference documents describe wire version 3; `src/events.rs` is version 6 and is what is modelled.

## Modelling decisions

* Memory is sequentially consistent. The lock is the only blocking primitive besides the kernel's own waits.
* A pool block is named by the number of the `alloc_event` call that asked for it, so names are never reused
  even where addresses would be. Allocation and zeroing are one step, and so are the free and the head
  advance of an eviction (only the lock holder can see either half).
* The pool, the I/O manager, the configuration manager, clocks and process ids are nondeterministic: they
  appear as alternatives among the steps or as parameters. Kernel strings and data satisfy what the kernel
  promises (a non-null buffer holds the announced length).
* Unloading assumes what the kernel guarantees: removal of a callback waits for its running instances,
  `driver_unload` is called once, with no dispatch routine running and no IRP sent afterwards.
* A callback that has not started behaves like one that is not registered yet, so the set of registered
  callbacks is arbitrary in the initial state, and so is the set that the flags and the handle record.

## Model

| member | source | states |
|---|---|---|
| Invariant.StepKeepsInv | src/queue/submit.rs:73-111 | every enabled step of every thread, in any configuration, keeps the whole invariant |
| Invariant.RunHolds | src/queue/submit.rs:73-111 | the invariant holds in every state of every run, for any number of threads and any interleaving |
| Theorems.DeliveryInOrder | src/ipc/dispatch.rs:68-89 | the events popped or chosen for an IRP under the lock, followed by the queued ones, are a subsequence, without repetition, of the submissions in lock order: direct delivery never overtakes a queued event |
| Theorems.DeliveredInOrder | src/queue/submit.rs:73-111 | the delivered events alone, in hand-over order, are such a subsequence, each once and none missing |
| Completions.CompletionOrder | src/ipc/dispatch.rs:71-88 | a client with one get-event request outstanding receives its events, in completion order, as a subsequence of the submissions in lock order, none twice |
| Completions.ReceivedAreServed | src/ipc/dispatch.rs:85-88 | in every run the completion order lists exactly the events that successful requests carry |
| Theorems.CommittedFate | src/ipc/dispatch.rs:71-88 | an event handed over under the lock is delivered, refused, or held by the one thread that popped or chose it |
| Theorems.SubmissionFate | src/queue/submit.rs:73-111 | every submission is queued, evicted or drained (and was not handed over), delivered (and was), refused, or in the hands of one thread |
| Theorems.MissingSubmission | src/queue/submit.rs:73-111 | a submission not handed over under the lock is queued, evicted, refused for a small buffer, drained at unload, or in transit in the hands of one thread |
| Theorems.IrpInOnePlace | src/ipc/dispatch.rs:35-46 | an IRP is completed if and only if nobody owns it, and never has two owners among its dispatcher, the pending slot and the takers |
| Theorems.BlockInOnePlace | src/state.rs:29-37 | a block is allocated if and only if one thread or one live ring position owns it, with the length its slot tells; never two owners |
| Theorems.NoFaults | src/ipc/irp.rs:31-54 | with the pending mark before publication no run frees twice, reads a freed block, overruns a buffer, completes twice or touches a completed IRP; in the written order only the late mark can |
| Theorems.DropAccounting | src/callbacks/header.rs:20-31 | losses are counted but for those just being counted; counter plus all stamps equal the counted losses modulo 2^32; without wrap the delivered stamps fall short by exactly the undelivered stamps plus the counter |
| Reports.DropsReportedIff | src/events.rs:104-106 | without wrap, the `drop_count` fields that the agent decodes from its successful requests fall short of the counted losses by the stamps on events it has not read plus the counter; they report all losses if and only if both are zero |
| Reports.TruncsReportedIff | src/events.rs:108-111 | the same for the `trunc_count` fields and the truncating copies |
| Reporting.LostForEver | src/callbacks/header.rs:28-29 | in every continuation the reports fall short by at least the stamps that are on evicted, refused or drained events now |
| Reporting.DropsRecoverableIff | src/callbacks/header.rs:28 | at rest with an empty ring, a request parked or not, what the agent reads can still come to add up to all losses if and only if every stamp on a dead event is zero and the counter is zero or some callback is registered |
| Reporting.TruncsRecoverableIff | src/callbacks/header.rs:29 | the same for truncations |
| Theorems.TruncAccounting | src/callbacks/header.rs:29 | the truncating copies made equal, modulo 2^32, the counter plus all truncation stamps, in every interleaving; without wrap the delivered stamps fall short by exactly the undelivered ones plus the counter |
| Truncations.CutsByActivation | src/callbacks/registry.rs:172-175 | in every run the cuts counted are the truncating copies of its callback activations, from start to return or the present, each copy in exactly one |
| Truncations.TruncatedFieldsCounted | src/callbacks/registry.rs:172-175 | if the activations make the copies of the emitters of their class, counter plus stamps equal, modulo 2^32, the fields whose source did not fit: all that the emitter cuts, given whether it got a block, once the activation has returned, and those cut so far while it runs |
| Spelling.CopiesCut | src/callbacks/registry.rs:268-420 | the copies of each emitter, with and without an event built, truncate exactly the fields longer than their room |
| Spelling.CutsByField | src/callbacks/registry.rs:268-420 | which fields each emitter cuts: one for each string that its field does not hold whole, and one for a preview that leaves data out |
| Theorems.DeliveredBytes | src/queue/submit.rs:85-95 | a successful get-event completion carries one event: `Information` is its size and its own `header.size`, within the caller's length, the buffer holds the submitted bytes, and both its stamps are the ones logged for it, once |
| Theorems.DeliveredOnce | src/ipc/dispatch.rs:76-88 | two IRPs never receive the same event, and a delivered event reaches the IRP it was freed for |
| Theorems.GetEventOutcomes | src/ipc/dispatch.rs:55-109 | every get-event completion is a success within the caller's length, a too-small answer naming a larger size, a cancellation, or a refusal because another IRP was parked |
| Answers.OtherOutcomes | src/ipc/dispatch.rs:22-46 | in every reachable state, a completed open, close or cleanup request succeeded with nothing transferred, and any other request that is not get-event was answered as invalid |
| Answers.TooSmallNamesSize | src/ipc/dispatch.rs:76-83 | a request told that its buffer is too small is told the size of an event that was refused to it |
| Theorems.LargeBuffersSuffice | src/events.rs:187-189 | a client whose buffers hold 10672 bytes is never told its buffer is too small and loses events only to evictions and allocation failures |
| Runs.ParkedMeansEmpty | src/queue/submit.rs:75-109 | a parked IRP implies an empty ring, the ring never exceeds its capacity, and a submitter past its swap leaves no IRP parked |
| Runs.NoLostWakeup | src/queue/submit.rs:75-109 | no IRP stays, or is parked again, across the swap of a later submission, although cleanup and unload clear the slot without the lock |
| Runs.CompletedOnce | src/ipc/irp.rs:47-54 | a completion, once made, never changes in the rest of any run |
| Runs.FatesAreFinal | src/state.rs:29-37 | the fate of an event (delivered, refused, evicted, drained, never allocated) is decided once in any run |
| Runs.Conservation | src/queue/submit.rs:39-111 | calls of `alloc_event` equal failures plus events in callbacks' hands, queued, in other routines' hands, delivered, evicted, refused and drained |
| Runs.UnloadLeavesNothing | src/lib.rs:283-342 | when `driver_unload` has returned and every registered callback was recorded: no live block, empty ring, no parked IRP, no registered callback, no running routine, every IRP completed |
| Unloading.UnloadCleanIff | src/lib.rs:287-327 | all runs that unload are left so if and only if every callback registered at load is recorded by a flag or handle |
| Unloading.LoadUnloadCleanIff | src/lib.rs:185-342 | for every outcome of `driver_entry`: if and only if the object manager did not accept with a null handle |
| Unloading.RemovalsInUnloadOrder | src/lib.rs:292-312 | the flags are tested in the order in which the protocol removes the classes |
| Runs.TeardownTerminates | src/lib.rs:315-327 | once the callbacks are removed, none being unrecorded, only the unloading thread can step, and each step brings it nearer to its end |
| Progress.NextEnabledIff | src/util/spin_lock.rs:36-50 | a running thread can step unless it waits for the lock or for callbacks being removed: there is nothing else to wait for |
| Progress.NoDeadlock | src/util/spin_lock.rs:36-50 | in every reachable state with a routine running, some running routine can step |
| Progress.LockIsReleased | src/util/spin_lock.rs:36-50 | every step of the lock holder brings the release nearer, and no step of another thread disturbs it |
| Deliverable.QueuedDeliverableIff | src/ipc/dispatch.rs:68-89 | from any reachable state, some path delivers a given queued event if and only if unloading has not begun and the lock holder is not just about to evict it or to pop it for a request that is too small |
| Witness.MarkOrderIff | src/ipc/dispatch.rs:94-107 | for every capacity: no reachable state has a fault if and only if the mark comes before the park |
| Witness.WindowAlwaysOpen | src/ipc/dispatch.rs:100-106 | from every reachable state between unlock and mark, whoever holds the IRP and the lock, some path leads to the mark of that IRP after its completion |
| Witness.LateMarkRace | src/ipc/dispatch.rs:94-107 | from any state between unlock and mark with the lock free, one callback on another thread completes the IRP before the mark, whatever the buffer size |
| Witness.LateMarkWitness | src/ipc/dispatch.rs:94-107 | the driver as written has a run in which the mark touches a completed IRP |
| Witness.LostStampWitness | src/callbacks/header.rs:28 | the driver as written has a run that ends at rest with two losses counted, one of them stamped on an event that was refused and stays so in every continuation |
| Witness.LostTruncWitness | src/callbacks/header.rs:29 | the driver as written has a run that ends at rest with a path cut before the gate, the counter at zero and the only stamp on an event that was refused and stays so in every continuation |
| Witness.TwoRequestsWitness | src/ipc/dispatch.rs:71-88 | with two requests outstanding, events submitted as 0, 1 can complete as 1, 0 |
| BoundedQueue.Recency | src/queue/ring.rs:27-47 | pushes without a pop push out, in order, exactly the oldest of old contents plus new elements and keep the last N |
| BoundedQueue.RecencyDrops | src/queue/ring.rs:34-40 | those pushes add max(0, k+n-N) to the drop counter, modulo 2^32 |
| Ring.EventRing.TailFollows | src/state.rs:46-53 | tail == (head + len) % N in every valid ring |
| Ring.WindowAdvances | src/queue/ring.rs:55-69 | advancing the head drops exactly the first element of the live window, read modulo N |
| Ring.WindowGrows | src/queue/ring.rs:42-44 | storing at the tail appends to the live window and overwrites none of it |
| Ring.EventRing.Push | src/queue/ring.rs:27-47 | the live window becomes the bounded push of the old one; the oldest is freed and counted exactly when full |
| Ring.EventRing.Pop | src/queue/ring.rs:55-69 | returns and removes the first element of the live window, or nothing when empty |
| Ring.EventRing.Drain | src/lib.rs:322-327 | frees every queued block once, oldest first, and empties the ring |
| Ring.ProtocolPush | src/queue/ring.rs:27-47 | the protocol's push steps, full or not, are a path whose effect on queue, counter and pool is the bounded push |
| DriverObject.Driver.SubmitEvent | src/queue/submit.rs:73-111 | in place over the ring: the whole new state is the sequential specification, and the object stays sound |
| DriverObject.Driver.GetEvent | src/ipc/dispatch.rs:55-109 | answers with the oldest event, parks, or refuses; whole new state; parked exactly when the IRP is in the slot |
| DriverObject.Driver.AnswerWith | src/ipc/dispatch.rs:76-88 | copies and succeeds if the event fits, otherwise counts a loss and names the size; the block is freed either way |
| DriverObject.Driver.Cleanup | src/ipc/dispatch.rs:35-46 | its IRP succeeds, the parked one is cancelled, nothing else changes |
| DriverObject.Driver.Unload | src/lib.rs:314-327 | cancels the parked IRP and frees what is queued, each block once |
| Sequential.SubmittedSound | src/queue/submit.rs:73-111 | a submission keeps queued blocks live and distinct, the parked IRP answerable, and the ring empty while one is parked |
| Sequential.RequestedSound | src/ipc/dispatch.rs:55-109 | so does a get-event request |
| Sequential.CleanedUpEffect | src/ipc/dispatch.rs:35-46 | a cleanup succeeds, leaves nothing parked, cancels what was, and changes nothing else |
| Sequential.AnsweredEffect | src/ipc/dispatch.rs:76-88 | an answer completes with the size of the event: successfully, with its bytes at the front of the buffer and the rest untouched, or as too small, with one loss counted |
| Refinement.ReachableSound | src/state.rs:3-9 | every reachable state of the concurrent system satisfies what the sequential routines require |
| Solo.OneOutcome | src/queue/submit.rs:73-111 | two uninterrupted runs of a routine from the same state to its return end in the same state |
| Refinement.SubmitRefines | src/queue/submit.rs:73-111 | from every reachable state with the lock free, a ready producer's own steps lead to the return of `submit_event`, and every such run ends with exactly the sequential effect |
| Refinement.RequestRefines | src/ipc/dispatch.rs:55-109 | the same for `dispatch_device_control`, on all its paths and in both orders of the mark |
| Refinement.CleanupRefines | src/ipc/dispatch.rs:35-46 | the same for `dispatch_cleanup`, whoever holds the lock: its IRP succeeds, the parked one is cancelled, nothing else changes |
| Refinement.UnloadRefines | src/lib.rs:314-327 | the same for the cancel and drain of `driver_unload`, for any queue length |
| Lifecycle.WireDispatch | src/lib.rs:113-127 | create and close, cleanup and device control get their own handlers at their function codes, every other slot the one that refuses, and none is unset |
| Lifecycle.RoutedRequests | src/lib.rs:119-127 | by function code: device control with the one control code is a get-event request, cleanup and open or close reach their routines, all else is foreign |
| Lifecycle.Driver.DriverEntry | src/lib.rs:132-259 | flags, cookie and handle record exactly the accepted registrations; failures are counted, not fatal; without device or symlink nothing is registered |
| Lifecycle.Driver.DriverUnload | src/lib.rs:287-312 | removes what the flags record, each with its own cookie or handle, and leaves nothing for a second call |
| Lifecycle.RemovedExactlyIff | src/lib.rs:185-312 | load then unload removes every accepted registration exactly once and nothing else, if and only if the object manager did not accept with a null handle |
| KernelStrings.LengthShowsWholeIff | src/callbacks/registry.rs:150-179 | a recorded length proves an untruncated source if and only if it is below MAX-1 |
| KernelStrings.ReservedSlotAmbiguous | src/callbacks/registry.rs:152-155 | a source of MAX-1 units and a longer one can leave the same field |
| Gate.KeyHasAsciiPrefixCi | src/callbacks/registry.rs:98-120 | the loop decides whether each unit of the prefix is met by the same unit or the other case of the same ASCII letter, in which a unit beyond ASCII matches nothing |
| Gate.IsInterestingPath | src/callbacks/registry.rs:124-131 | true if and only if some watched prefix matches |
| Gate.IsInterestingUnicodeString | src/callbacks/registry.rs:135-148 | judges the full string, whatever its length parity; null and empty strings are not interesting |
| Gate.CutGateAgrees | src/callbacks/registry.rs:232-242 | gating the copy cut to a field gives the answer for the full path |
| Gate.GateMonotone | src/callbacks/registry.rs:98-131 | extending a path never makes it uninteresting |
| Gate.GateIgnoresCase | src/callbacks/registry.rs:98-131 | exchanging the two cases of ASCII letters does not change the answer |
| Gate.RedundantIff | src/callbacks/registry.rs:77-131 | an ASCII entry can be removed from a prefix list without changing any answer if and only if the other entries match it |
| Gate.RunOnceRedundant | src/callbacks/registry.rs:77-90 | the gate is unchanged without its two RunOnce entries |
| Gate.WatchedIsInteresting | src/callbacks/registry.rs:77-131 | every key at or below a watched location is reported, however its ASCII letters are written |
| Gate.LowerCaseIsInteresting | src/callbacks/registry.rs:77-131 | for instance the services of the machine and the user hives in lower case |
| Gate.OnlyMachineAndUser | src/callbacks/registry.rs:77-131 | nothing outside the machine and user hives is reported |
| Wire.LittleEndianRoundTrip | src/events.rs:112-121 | a little-endian field reads back as written |
| Wire.HeaderRoundTrip | src/events.rs:112-121 | every header is recovered from the front of a buffer, whatever follows |
| Wire.WireNumbers | src/events.rs:17-189 | version, type codes and structure sizes, by value |
| Wire.LittleEndianWords | src/events.rs:112-121 | the least significant byte comes first |
| Wire.HeaderBytes | src/events.rs:112-121 | the offset of each part of the header |
| Layout.FieldOfPack | src/events.rs:123-269 | every field of a packed structure reads back as laid down |
| Layout.SpliceField | src/events.rs:123-269 | a write at a field's offset, no longer than the field, stays inside the structure and changes that field and no other |
| EventRecords.LayoutSizes | src/events.rs:173-189 | the field widths add up to the size of each structure |
| EventRecords.EventRoundTrip | src/events.rs:123-269 | the reader recovers every valid event, whatever its strings and numbers |
| EventRecords.EncodeInjective | src/events.rs:123-269 | different events have different bytes |
| EventRecords.CreateBytes | src/events.rs:123-171 | which field is at which offset of a process-create event |
| EventRecords.ExitBytes | src/events.rs:191-201 | the same for a process exit |
| EventRecords.LoadBytes | src/events.rs:211-224 | the same for an image load |
| EventRecords.RegistryBytes | src/events.rs:240-269 | the same for a registry event |
| EventBuild.MakeHeader | src/callbacks/header.rs:20-31 | both counters move into the header and are left at zero; version, type code and size by value |
| EventBuild.AllocEventFor | src/callbacks/header.rs:44-59 | on failure one loss is counted and nothing stamped; on success the buffer is a blank event with the stamped header |
| EventBuild.CopyUnicodeInto | src/callbacks/registry.rs:157-179 | writes the source cut below the reserved slot and nothing else, counts a cut exactly when the source was longer |
| EventBuild.WriteField | src/callbacks/registry.rs:246-264 | a write to the front of a field extends the list of writes by one, and the buffer is a blank event with the list applied |
| EventBuild.CopyText | src/callbacks/process.rs:173-196 | a string and its length, or nothing at all for an absent source, added to the list of writes; a cut is counted exactly when the source was longer |
| EventBuild.CopyName | src/callbacks/registry.rs:290-293 | the same, with the length always written |
| Emitters.EmitProcessExit | src/callbacks/process.rs:82-100 | its writes are the listed ones and the buffer is the encoding of the exit event; a null process reports code 0 |
| Emitters.EmitProcessCreate | src/callbacks/process.rs:107-160 | its writes are the listed ones and the buffer is the encoding of the create event with cut strings and unresolved integrity; cuts made after the stamp stay in the counter |
| Emitters.EmitImageLoad | src/callbacks/image.rs:29-70 | the same for image loads, with name and image information possibly missing |
| Emitters.WriteKeyPathFromObject | src/callbacks/registry.rs:188-223 | the cut path and zeros; the resolved name is released exactly once if there is one |
| Emitters.ResolveAndGate | src/callbacks/registry.rs:232-242 | the decision made on the cut copy is the one for the full path; a cut is counted even if the path is rejected |
| Emitters.EmitSetValue | src/callbacks/registry.rs:268-312 | an event is built exactly for interesting paths when memory allows; its list of writes, its bytes, and both counters on every path |
| Emitters.PreviewLengthIff | src/events.rs:266-268 | the preview length is min(data_size, MAX) if and only if the data pointer is not null or there is no data |
| Emitters.WritePreview | src/callbacks/registry.rs:299-307 | preview, its length and its cut; missing or empty data writes nothing |
| Emitters.EmitDeleteValue | src/callbacks/registry.rs:315-340 | gate, writes, bytes and counters of a value deletion |
| Emitters.EmitKeyOnly | src/callbacks/registry.rs:343-389 | gate, writes, bytes and counters of key deletion and renaming |
| Emitters.EmitCreateKey | src/callbacks/registry.rs:396-420 | gated on the full name; the cut is counted after the stamp |
| Emitters.TailIsZero | src/callbacks/header.rs:51-53 | beyond its recorded length every string, name and data preview of every event is zero |
| EndToEnd.FieldWriteIsStep | src/callbacks/registry.rs:268-311 | every field write of an emitter is a protocol step behind the header and inside the block, changing only that field |
| EndToEnd.StampIsBlank | src/callbacks/header.rs:44-59 | the protocol's stamp leaves the blank event that the emitters start from |
| Production.OthersLeaveBlock | src/state.rs:29-37 | no step of another thread touches the block a thread holds |
| Production.ProducedBytes | src/callbacks/header.rs:44-59 | in every run, whatever other threads do, the submitted bytes are the zeroed block with the stamped header and the producer's own writes applied in order, and stay on record |
| Spelling.CreateSpelled | src/callbacks/process.rs:107-160 | the writes of `emit_process_create`, in its order and with its skips, spell the create event under any header |
| Spelling.SetValueSpelled | src/callbacks/registry.rs:268-311 | the writes of `emit_set_value` spell the value-write event under any header |
| Spelling.ExitSpelled | src/callbacks/process.rs:82-100 | the writes of `emit_process_exit` spell the exit event under any header |
| Spelling.LoadSpelled | src/callbacks/image.rs:29-70 | the writes of `emit_image_load`, with its skips, spell the load event under any header |
| Spelling.DeleteValueSpelled | src/callbacks/registry.rs:315-340 | the writes of `emit_delete_value` spell the deletion event under any header |
| Spelling.KeyOnlySpelled | src/callbacks/registry.rs:343-389 | the writes of `emit_delete_key` and `emit_rename_key` spell their events under any header |
| Spelling.CreateKeySpelled | src/callbacks/registry.rs:396-420 | the writes of `emit_create_key` spell the creation event under any header |
| EndToEnd.SubmittedIsEncoded | src/callbacks/header.rs:44-59 | a producer whose writes spell an event submits its encoding with the stamped header, under any interference |
| EndToEnd.AgentReadsEvent | src/queue/submit.rs:85-95 | a successful agent whose request carries the encoding of an event decodes exactly that event, with the header it was stamped with |
| EndToEnd.AgentReadsEmitted | src/queue/submit.rs:85-95 | from the emitter's writes to the agent: whatever the interleaving, a successful request carrying the event decodes to what the writes spell, with the stamped header |
| EndToEnd.SetValueReachesAgent | src/callbacks/registry.rs:268-311 | the same from the arguments of a registry value write, field by field: kept path and name, the first bytes of the data, their number, the true data size |
| EndToEnd.CreateReachesAgent | src/callbacks/process.rs:107-160 | the same from the arguments of a process creation: ids, kept strings, empty parent image and SID, unresolved integrity |
| EndToEnd.ExitReachesAgent | src/callbacks/process.rs:82-100 | the same for a process exit; a null process reports code 0 |
| EndToEnd.LoadReachesAgent | src/callbacks/image.rs:29-70 | the same for an image load; missing information reads as zero |

## Left out

- `src/queue/submit.rs` and `src/ipc/dispatch.rs` under interference are steps on values, not heap mutations: what matters there is who can run between two steps. Their in-place form is `DriverObject.Driver`, without interference.
- Emitters.EmitSetValue: works on counters no other thread touches; the interleaved counters are the protocol's (`Theorems.TruncAccounting`). The same holds for the other emitters.
- `src/callbacks/thread.rs` and `src/callbacks/object.rs`: straight-line field copies; their events take part in the protocol with their sizes, but their bytes are not modelled.
- `fill_parent_image_path`, `fill_user_sid` and `resolve_integrity_level` in `src/callbacks/process.rs`: not called.
- Device and symbolic-link creation, `DbgPrint`, IOCTL codes and `wstr16`: only the success or failure of the first two is modelled. `OOM_COUNT`, which only paces a log line, is omitted.
- The routing of registry notifications to emitters (`src/callbacks/registry.rs:431-464`).
- IRQL levels, weak memory ordering and pointer alignment.
- Order of timestamps: they are taken before the lock, so the code does not promise it.
- Fairness of the spinlock: `Progress` shows that somebody can always step, not that everybody eventually does.
