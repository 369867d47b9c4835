/** The inverted-call protocol as a small-step transition system.

    Any number of threads run kernel callbacks, dispatch routines and at most one `driver_unload`.
    One step is one lock acquire or release, one atomic operation, one copy, one pool call or one
    IRP completion; memory is sequentially consistent. Steps are never guarded by the validity of
    the pointers they use: a step that frees a dead block, reads one, overruns a buffer or touches
    a completed IRP records a fault instead, so that safety is something to prove. */
module Protocol {
  import opened Wire

  type Tid = nat
  type Irp = nat
  /** Identity of a pool block: the number of the `alloc_event` call that asked for it. */
  type Buf = nat

  datatype Config = Config(
    capacity: nat,      // QUEUE_CAP
    markFirst: bool     // false: the order of the driver (park, unlock, mark pending); true: mark, then park
  ) {
    predicate Valid() { capacity > 0 }
  }

  /** The driver as it is written. */
  const DRIVER := Config(4096, false)

  lemma DriverNumbers()
    ensures DRIVER.capacity == 4096 && !DRIVER.markFirst && CLASSES == 5
  {
  }

  datatype Slot = Slot(data: Buf, size: nat)

  datatype Class = Process | Image | Registry | Thread | Object

  function ClassOf(k: EventKind): Class {
    match k
    case ProcessCreate | ProcessExit => Process
    case ImageLoad => Image
    case RegistryModify => Registry
    case ThreadCreate | ThreadExit => Thread
    case ProcessHandleAccess => Object
  }

  /** Which callback reports what. */
  lemma KindsByClass(k: EventKind)
    ensures ClassOf(k).Process? <==> k.ProcessCreate? || k.ProcessExit?
    ensures ClassOf(k).Image? <==> k.ImageLoad?
    ensures ClassOf(k).Registry? <==> k.RegistryModify?
    ensures ClassOf(k).Thread? <==> k.ThreadCreate? || k.ThreadExit?
    ensures ClassOf(k).Object? <==> k.ProcessHandleAccess?
  {
  }

  const CLASSES: nat := 5

  /** Order in which `driver_unload` removes the callbacks. */
  function UnloadOrder(k: nat): Class {
    match k
    case 0 => Object
    case 1 => Thread
    case 2 => Registry
    case 3 => Image
    case _ => Process
  }

  datatype Status = Success | BufferTooSmall | Cancelled | Unsuccessful | InvalidRequest

  /** What an incoming IRP asks for. `Foreign` stands for an unknown IOCTL code and for every unclaimed
      major function. */
  datatype Request = GetEvent(outlen: nat) | Cleanup | OpenClose | Foreign

  datatype Completion = Completion(status: Status, info: nat)

  datatype Role = Callback(source: Class) | Dispatch | Unload

  /** Program counter of a thread, with the locals that are live there. */
  datatype Pc =
    | Idle
    // kernel callback: emitter, alloc_event, make_header, submit_event
    | InCallback
    | CountOom(lost: Buf)
    | StampDrop(ev: Slot, kind: EventKind)
    | StampTrunc(ev: Slot, kind: EventKind, drops: u32)
    | Filling(ev: Slot)
    | SwapPending(ev: Slot)                       // holds the lock
    | HavePending(ev: Slot, irp: Irp)             // holds the lock
    | Decided(ev: Slot, irp: Irp, fits: bool)     // holds the lock
    | Pushing(ev: Slot)                           // holds the lock
    | CountEviction(ev: Slot, lost: Buf)          // holds the lock
    | Pushed                                      // holds the lock
    // common end of submit_event and of the fast path: free, count if refused, complete
    | Settle(ev: Slot, irp: Irp, fits: bool)
    | CountRefusal(gone: Slot, irp: Irp)
    | Finish(gone: Slot, irp: Irp, fits: bool)
    // dispatch_device_control
    | GetLock(irp: Irp)
    | TryPop(irp: Irp)                            // holds the lock
    | Popped(ev: Slot, irp: Irp)                  // holds the lock
    | Checking(ev: Slot, irp: Irp)
    | MarkEarly(irp: Irp)                         // holds the lock
    | Park(irp: Irp)                              // holds the lock
    | ParkedIrp(parked: Irp)                      // holds the lock
    | MarkLate(parked: Irp)
    | Rejected(irp: Irp)                          // holds the lock
    | Reply(irp: Irp, status: Status)
    // dispatch_cleanup
    | CleanupSwap(irp: Irp)
    | CleanupCancel(irp: Irp, taken: Irp)
    // driver_unload
    | Deregister(k: nat)
    | UnloadSwap
    | UnloadCancel(irp: Irp)
    | UnloadLock
    | Drain                                       // holds the lock
    | DrainFree(ev: Slot)                         // holds the lock
    | Unloaded

  datatype Fault =
    | DoubleFree(b: Buf)
    | UseAfterFree(b: Buf)
    | BadLength(b: Buf, irp: Irp)
    | DoubleCompletion(irp: Irp)
    | TouchAfterCompletion(irp: Irp)
    | MarkAfterCompletion(irp: Irp)

  /** Who owns a live block: a thread, or the ring, at the position numbered by enqueue order. */
  datatype Owner = ByThread(t: Tid) | ByRing(n: nat)

  /** Where the event of an `alloc_event` call is. */
  datatype BufPlace =
    | OutOfMemory
    | Owned(owner: Owner)
    | Delivered(target: Irp)
    | Refused(reader: Irp)
    | Evicted
    | Drained

  /** Who is responsible for an IRP that is not completed: the slot `PENDING_IRP`, or a thread. A
      cleanup thread may be responsible for two, its own and the one it took. */
  datatype IrpOwner = PendingSlot | Main(t: Tid) | Extra(t: Tid)

  datatype IrpPlace = HeldBy(holder: IrpOwner) | Done

  datatype Stamp = Stamp(b: Buf, n: u32)

  datatype Shared = Shared(lock: Option<Tid>, queue: seq<Slot>, pending: Option<Irp>, drop: u32, trunc: u32)
  datatype Pool = Pool(next: Buf, mem: map<Buf, seq<byte>>)
  datatype Io = Io(reqs: map<Irp, Request>, sysbuf: map<Irp, seq<byte>>, completed: map<Irp, Completion>)

  /** The callbacks registered with the kernel, and those that the driver's flags and its handle record. */
  datatype Kernel = Kernel(registered: set<Class>, recorded: set<Class>, roles: map<Tid, Role>, unloader: Option<Tid>)

  // History variables: read by no guard and by no driver state.

  /** Where every event and every IRP is; `dequeued` counts the slots ever removed from the ring. */
  datatype Places = Places(buf: map<Buf, BufPlace>, irp: map<Irp, IrpPlace>, dequeued: nat)

  /** Submissions in lock order, and the events handed to an IRP under the lock, in lock order. */
  datatype Order = Order(submitted: seq<Buf>, committed: seq<Buf>)

  /** Losses already added to DROP_COUNT; losses about to be added, and by whom; every stamp taken;
      the number of fields cut. */
  datatype Accounts = Accounts(
    counted: set<Buf>, uncounted: map<Buf, Tid>, dropLog: seq<Stamp>, truncLog: seq<Stamp>, cuts: nat)

  /** Headers stamped, contents of each block when it was submitted, the event each successful get-event
      IRP carries, the IRP found parked by each one turned away, and the events in the order in which they
      were completed to the agent. */
  datatype Records = Records(
    headers: map<Buf, Header>, built: map<Buf, seq<byte>>, served: map<Irp, Buf>, rejectedBy: map<Irp, Irp>,
    received: seq<Buf>)

  datatype State = State(
    pcs: map<Tid, Pc>, sh: Shared, pool: Pool, io: Io, kern: Kernel,
    at: Places, order: Order, acc: Accounts, rec: Records, faults: set<Fault>)

  ghost predicate Init(s: State) {
    && s.pcs == map[]
    && s.sh == Shared(None, [], None, 0, 0)
    && s.pool == Pool(0, map[])
    && s.io == Io(map[], map[], map[])
    && s.kern.roles == map[] && s.kern.unloader == None
    && s.at == Places(map[], map[], 0)
    && s.order == Order([], [])
    && s.acc == Accounts({}, map[], [], [], 0)
    && s.rec == Records(map[], map[], map[], map[], [])
    && s.faults == {}
  }

  // ---------------------------------------------------------------- primitive effects

  function Goto(s: State, t: Tid, pc: Pc): State {
    s.(pcs := s.pcs[t := pc])
  }

  /** `ExFreePool(b)`, leaving the event at `place`. */
  function Free(s: State, b: Buf, place: BufPlace): State {
    s.(pool := s.pool.(mem := s.pool.mem - {b}),
       at := s.at.(buf := s.at.buf[b := place]),
       faults := s.faults + if b in s.pool.mem then {} else {DoubleFree(b)})
  }

  /** A write into pool block `b`. */
  function WriteBlock(s: State, b: Buf, off: nat, data: seq<byte>): State {
    if b in s.pool.mem && off + |data| <= |s.pool.mem[b]|
    then s.(pool := s.pool.(mem := s.pool.mem[b := Splice(s.pool.mem[b], off, data)]))
    else s.(faults := s.faults + {UseAfterFree(b)})
  }

  function TouchFaults(s: State, irp: Irp): set<Fault> {
    if irp in s.io.completed || irp !in s.io.reqs then {TouchAfterCompletion(irp)} else {}
  }

  function CopyFaults(s: State, ev: Slot, irp: Irp): set<Fault> {
    TouchFaults(s, irp)
    + (if ev.data !in s.pool.mem then {UseAfterFree(ev.data)} else {})
    + (if ev.data in s.pool.mem && irp in s.io.sysbuf
          && ev.size <= |s.pool.mem[ev.data]| && ev.size <= |s.io.sysbuf[irp]|
       then {} else {BadLength(ev.data, irp)})
  }

  /** `copy_nonoverlapping(data, SystemBuffer, size)`. */
  function CopyOut(s: State, ev: Slot, irp: Irp): State {
    if CopyFaults(s, ev, irp) != {} then s.(faults := s.faults + CopyFaults(s, ev, irp))
    else s.(io := s.io.(sysbuf := s.io.sysbuf[irp := Splice(s.io.sysbuf[irp], 0, s.pool.mem[ev.data][..ev.size])]))
  }

  /** `complete_irp(irp, status, info)`. */
  function Complete(s: State, irp: Irp, status: Status, info: nat): State {
    s.(io := s.io.(completed := s.io.completed[irp := Completion(status, info)]),
       at := s.at.(irp := s.at.irp[irp := Done]),
       faults := s.faults + if irp in s.io.completed then {DoubleCompletion(irp)} else {})
  }

  /** `DROP_COUNT.fetch_add(1)` on account of event `b`. */
  function CountLoss(s: State, b: Buf): State {
    s.(sh := s.sh.(drop := Add32(s.sh.drop, 1)),
       acc := s.acc.(counted := s.acc.counted + {b}, uncounted := s.acc.uncounted - {b}))
  }

  /** Event `b` is lost; thread `t` goes on to count it. */
  function OweCount(s: State, b: Buf, t: Tid): State {
    s.(acc := s.acc.(uncounted := s.acc.uncounted[b := t]))
  }

  function Unlock(s: State): State {
    s.(sh := s.sh.(lock := None))
  }

  function Lock(s: State, t: Tid): State {
    s.(sh := s.sh.(lock := Some(t)))
  }

  /** `PENDING_IRP.swap(null)`; the IRP found, if any, passes to `o`. */
  function TakePending(s: State, o: IrpOwner): State {
    if s.sh.pending == None then s
    else s.(sh := s.sh.(pending := None), at := s.at.(irp := s.at.irp[s.sh.pending.value := HeldBy(o)]))
  }

  /** `queue_pop_locked` by thread `t`, on a ring that is not empty. */
  function PopFor(s: State, t: Tid): State
    requires s.sh.queue != []
  {
    s.(sh := s.sh.(queue := s.sh.queue[1..]),
       at := s.at.(buf := s.at.buf[s.sh.queue[0].data := Owned(ByThread(t))], dequeued := s.at.dequeued + 1))
  }

  function Commit(s: State, b: Buf): State {
    s.(order := s.order.(committed := s.order.committed + [b]))
  }

  function Outlen(s: State, irp: Irp): nat {
    if irp in s.io.reqs && s.io.reqs[irp].GetEvent? then s.io.reqs[irp].outlen else 0
  }

  // ---------------------------------------------------------------- callbacks: allocate, stamp, fill

  datatype BuildStep =
    | StartCallback(source: Class)
    | BoundedCopy(units: nat, room: nat)   // a source of `units` into a field with room for `room`
    | ReturnEarly                          // the gate rejected the path
    | AllocFail
    | AllocOk(kind: EventKind)
    | DoCountOom
    | DoStampDrop
    | DoStampTrunc(timestamp: i64)
    | WriteField(off: nat, data: seq<byte>)

  ghost predicate BuildEnabled(s: State, t: Tid, a: BuildStep)
    requires t in s.pcs
  {
    var pc := s.pcs[t];
    match a
    case StartCallback(source) => pc.Idle? && source in s.kern.registered
    case BoundedCopy(_, _) => pc.Filling? || (pc.InCallback? && t in s.kern.roles && s.kern.roles[t] == Callback(Registry))
    case ReturnEarly => pc.InCallback?
    case AllocFail => pc.InCallback?
    case AllocOk(kind) => pc.InCallback? && t in s.kern.roles && s.kern.roles[t] == Callback(ClassOf(kind))
    case DoCountOom => pc.CountOom?
    case DoStampDrop => pc.StampDrop?
    case DoStampTrunc(_) => pc.StampTrunc?
    case WriteField(off, data) => pc.Filling? && HEADER_SIZE <= off && off + |data| <= pc.ev.size
  }

  function StartCallbackStep(s: State, t: Tid, source: Class): State {
    Goto(s.(kern := s.kern.(roles := s.kern.roles[t := Callback(source)])), t, InCallback)
  }

  function CutStep(s: State): State {
    s.(sh := s.sh.(trunc := Add32(s.sh.trunc, 1)), acc := s.acc.(cuts := s.acc.cuts + 1))
  }

  function AllocFailStep(s: State, t: Tid): State {
    var b := s.pool.next;
    Goto(OweCount(s.(pool := s.pool.(next := b + 1), at := s.at.(buf := s.at.buf[b := OutOfMemory])), b, t),
         t, CountOom(b))
  }

  /** Allocation and the zeroing that follows it. */
  function AllocOkStep(s: State, t: Tid, kind: EventKind): State {
    var b := s.pool.next;
    Goto(s.(pool := Pool(b + 1, s.pool.mem[b := Zeros(EventSize(kind))]),
            at := s.at.(buf := s.at.buf[b := Owned(ByThread(t))])),
         t, StampDrop(Slot(b, EventSize(kind)), kind))
  }

  function StampDropStep(s: State, t: Tid): State
    requires t in s.pcs && s.pcs[t].StampDrop?
  {
    var StampDrop(ev, kind) := s.pcs[t];
    Goto(s.(sh := s.sh.(drop := 0), acc := s.acc.(dropLog := s.acc.dropLog + [Stamp(ev.data, s.sh.drop)])),
         t, StampTrunc(ev, kind, s.sh.drop))
  }

  function HeaderOf(s: State, pc: Pc, timestamp: i64): Header
    requires pc.StampTrunc?
  {
    NewHeader(pc.kind, pc.ev.size % 0x1_0000_0000, timestamp, pc.drops, s.sh.trunc)
  }

  function StampTruncStep(s: State, t: Tid, timestamp: i64): State
    requires t in s.pcs && s.pcs[t].StampTrunc?
  {
    var b := s.pcs[t].ev.data;
    var h := HeaderOf(s, s.pcs[t], timestamp);
    var s1 := WriteBlock(s, b, 0, EncodeHeader(h));
    Goto(s1.(sh := s1.sh.(trunc := 0),
             acc := s1.acc.(truncLog := s1.acc.truncLog + [Stamp(b, s.sh.trunc)]),
             rec := s1.rec.(headers := s1.rec.headers[b := h])),
         t, Filling(s.pcs[t].ev))
  }

  ghost function DoBuild(s: State, t: Tid, a: BuildStep): State
    requires t in s.pcs && BuildEnabled(s, t, a)
  {
    match a
    case StartCallback(source) => StartCallbackStep(s, t, source)
    case BoundedCopy(units, room) => if units > room then CutStep(s) else s
    case ReturnEarly => Goto(s, t, Idle)
    case AllocFail => AllocFailStep(s, t)
    case AllocOk(kind) => AllocOkStep(s, t, kind)
    case DoCountOom => Goto(CountLoss(s, s.pcs[t].lost), t, Idle)
    case DoStampDrop => StampDropStep(s, t)
    case DoStampTrunc(timestamp) => StampTruncStep(s, t, timestamp)
    case WriteField(off, data) => WriteBlock(s, s.pcs[t].ev.data, off, data)
  }

  // ---------------------------------------------------------------- submit_event, under the lock

  datatype SubmitStep =
    | SubmitLock
    | DoSwapPending
    | Decide                               // compare OutputBufferLength; copy if it fits
    | UnlockDecided
    | Evict
    | DoCountEviction
    | Enqueue
    | UnlockPushed

  ghost predicate SubmitEnabled(c: Config, s: State, t: Tid, a: SubmitStep)
    requires t in s.pcs
  {
    var pc := s.pcs[t];
    match a
    case SubmitLock => pc.Filling? && s.sh.lock == None
    case DoSwapPending => pc.SwapPending?
    case Decide => pc.HavePending?
    case UnlockDecided => pc.Decided?
    case Evict => pc.Pushing? && |s.sh.queue| == c.capacity && s.sh.queue != []
    case DoCountEviction => pc.CountEviction?
    case Enqueue => pc.Pushing? && |s.sh.queue| != c.capacity
    case UnlockPushed => pc.Pushed?
  }

  function SubmitLockStep(s: State, t: Tid): State
    requires t in s.pcs && s.pcs[t].Filling?
  {
    var ev := s.pcs[t].ev;
    var contents := if ev.data in s.pool.mem then s.pool.mem[ev.data] else [];
    Goto(Lock(s.(rec := s.rec.(built := s.rec.built[ev.data := contents])), t), t, SwapPending(ev))
  }

  function SwapPendingStep(s: State, t: Tid): State
    requires t in s.pcs && s.pcs[t].SwapPending?
  {
    var ev := s.pcs[t].ev;
    Goto(TakePending(s, Main(t)).(order := s.order.(submitted := s.order.submitted + [ev.data])),
         t, if s.sh.pending.Some? then HavePending(ev, s.sh.pending.value) else Pushing(ev))
  }

  function DecideStep(s: State, t: Tid): State
    requires t in s.pcs && s.pcs[t].HavePending?
  {
    var HavePending(ev, irp) := s.pcs[t];
    if Outlen(s, irp) >= ev.size then Goto(Commit(CopyOut(s, ev, irp), ev.data), t, Decided(ev, irp, true))
    else Goto(s.(faults := s.faults + TouchFaults(s, irp)), t, Decided(ev, irp, false))
  }

  /** The full-queue branch of `queue_push_locked`: free the oldest slot and advance the head.
      Both touch only lock-protected memory, so they are one step. */
  function EvictStep(s: State, t: Tid): State
    requires t in s.pcs && s.pcs[t].Pushing? && s.sh.queue != []
  {
    var oldest := s.sh.queue[0].data;
    var s1 := OweCount(Free(s, oldest, Evicted), oldest, t);
    Goto(s1.(sh := s1.sh.(queue := s1.sh.queue[1..]), at := s1.at.(dequeued := s1.at.dequeued + 1)),
         t, CountEviction(s.pcs[t].ev, oldest))
  }

  function EnqueueStep(s: State, t: Tid): State
    requires t in s.pcs && s.pcs[t].Pushing?
  {
    var ev := s.pcs[t].ev;
    Goto(s.(sh := s.sh.(queue := s.sh.queue + [ev]),
            at := s.at.(buf := s.at.buf[ev.data := Owned(ByRing(s.at.dequeued + |s.sh.queue|))])),
         t, Pushed)
  }

  ghost function DoSubmit(c: Config, s: State, t: Tid, a: SubmitStep): State
    requires t in s.pcs && SubmitEnabled(c, s, t, a)
  {
    match a
    case SubmitLock => SubmitLockStep(s, t)
    case DoSwapPending => SwapPendingStep(s, t)
    case Decide => DecideStep(s, t)
    case UnlockDecided => Goto(Unlock(s), t, Settle(s.pcs[t].ev, s.pcs[t].irp, s.pcs[t].fits))
    case Evict => EvictStep(s, t)
    case DoCountEviction => Goto(CountLoss(s, s.pcs[t].lost), t, Pushing(s.pcs[t].ev))
    case Enqueue => EnqueueStep(s, t)
    case UnlockPushed => Goto(Unlock(s), t, Idle)
  }

  // ---------------------------------------------------------------- dispatch_device_control

  datatype GetStep =
    | LockForGet
    | Pop
    | FoundEmpty
    | UnlockPopped
    | Check                                // compare OutputBufferLength; copy if it fits
    | DoMarkEarly
    | DoPark                               // PENDING_IRP.compare_exchange(null, irp)
    | UnlockParked
    | DoMarkLate
    | UnlockRejected

  ghost predicate GetEnabled(s: State, t: Tid, a: GetStep)
    requires t in s.pcs
  {
    var pc := s.pcs[t];
    match a
    case LockForGet => pc.GetLock? && s.sh.lock == None
    case Pop => pc.TryPop? && s.sh.queue != []
    case FoundEmpty => pc.TryPop? && s.sh.queue == []
    case UnlockPopped => pc.Popped?
    case Check => pc.Checking?
    case DoMarkEarly => pc.MarkEarly?
    case DoPark => pc.Park?
    case UnlockParked => pc.ParkedIrp?
    case DoMarkLate => pc.MarkLate?
    case UnlockRejected => pc.Rejected?
  }

  function PopStep(s: State, t: Tid): State
    requires t in s.pcs && s.pcs[t].TryPop? && s.sh.queue != []
  {
    Goto(Commit(PopFor(s, t), s.sh.queue[0].data), t, Popped(s.sh.queue[0], s.pcs[t].irp))
  }

  function CheckStep(s: State, t: Tid): State
    requires t in s.pcs && s.pcs[t].Checking?
  {
    var Checking(ev, irp) := s.pcs[t];
    if Outlen(s, irp) < ev.size then Goto(s, t, Settle(ev, irp, false))
    else Goto(CopyOut(s, ev, irp), t, Settle(ev, irp, true))
  }

  function ParkStep(s: State, t: Tid): State
    requires t in s.pcs && s.pcs[t].Park?
  {
    var irp := s.pcs[t].irp;
    if s.sh.pending == None then
      Goto(s.(sh := s.sh.(pending := Some(irp)), at := s.at.(irp := s.at.irp[irp := HeldBy(PendingSlot)])), t, ParkedIrp(irp))
    else
      Goto(s.(rec := s.rec.(rejectedBy := s.rec.rejectedBy[irp := s.sh.pending.value])), t, Rejected(irp))
  }

  function MarkStep(s: State, t: Tid, irp: Irp, pc: Pc): State {
    Goto(s.(faults := s.faults + if irp in s.io.completed then {MarkAfterCompletion(irp)} else {}), t, pc)
  }

  ghost function DoGet(c: Config, s: State, t: Tid, a: GetStep): State
    requires t in s.pcs && GetEnabled(s, t, a)
  {
    match a
    case LockForGet => Goto(Lock(s, t), t, TryPop(s.pcs[t].irp))
    case Pop => PopStep(s, t)
    case FoundEmpty => Goto(s, t, if c.markFirst then MarkEarly(s.pcs[t].irp) else Park(s.pcs[t].irp))
    case UnlockPopped => Goto(Unlock(s), t, Checking(s.pcs[t].ev, s.pcs[t].irp))
    case Check => CheckStep(s, t)
    case DoMarkEarly => MarkStep(s, t, s.pcs[t].irp, Park(s.pcs[t].irp))
    case DoPark => ParkStep(s, t)
    case UnlockParked => Goto(Unlock(s), t, if c.markFirst then Idle else MarkLate(s.pcs[t].parked))
    case DoMarkLate => MarkStep(s, t, s.pcs[t].parked, Idle)
    case UnlockRejected => Goto(Unlock(s), t, Reply(s.pcs[t].irp, Unsuccessful))
  }

  // ---------------------------------------------------------------- arrival, settlement, completion, cleanup

  datatype IrpStep =
    | Arrive(irp: Irp, req: Request, junk: seq<byte>)
    | SettleFree
    | DoCountRefusal
    | DoFinish
    | DoReply
    | DoCleanupSwap
    | DoCleanupCancel

  ghost predicate IrpEnabled(s: State, t: Tid, a: IrpStep)
    requires t in s.pcs
  {
    var pc := s.pcs[t];
    match a
    case Arrive(irp, req, junk) =>
      && pc.Idle? && s.kern.unloader == None && irp !in s.io.reqs
      && |junk| == (if req.GetEvent? then req.outlen else 0)
    case SettleFree => pc.Settle?
    case DoCountRefusal => pc.CountRefusal?
    case DoFinish => pc.Finish?
    case DoReply => pc.Reply?
    case DoCleanupSwap => pc.CleanupSwap?
    case DoCleanupCancel => pc.CleanupCancel?
  }

  /** The I/O manager calls a dispatch routine; the system buffer holds arbitrary bytes. */
  function ArriveStep(s: State, t: Tid, irp: Irp, req: Request, junk: seq<byte>): State {
    Goto(s.(io := s.io.(reqs := s.io.reqs[irp := req], sysbuf := s.io.sysbuf[irp := junk]),
            kern := s.kern.(roles := s.kern.roles[t := Dispatch]),
            at := s.at.(irp := s.at.irp[irp := HeldBy(Main(t))])),
         t, match req
            case GetEvent(_) => GetLock(irp)
            case Cleanup => CleanupSwap(irp)
            case OpenClose => Reply(irp, Success)
            case Foreign => Reply(irp, InvalidRequest))
  }

  function SettleFreeStep(s: State, t: Tid): State
    requires t in s.pcs && s.pcs[t].Settle?
  {
    var Settle(ev, irp, fits) := s.pcs[t];
    if fits then Goto(Free(s, ev.data, Delivered(irp)), t, Finish(ev, irp, true))
    else Goto(OweCount(Free(s, ev.data, Refused(irp)), ev.data, t), t, CountRefusal(ev, irp))
  }

  function FinishStep(s: State, t: Tid): State
    requires t in s.pcs && s.pcs[t].Finish?
  {
    var Finish(ev, irp, fits) := s.pcs[t];
    if fits then
      var s1 := Complete(s, irp, Success, ev.size);
      Goto(s1.(rec := s1.rec.(served := s1.rec.served[irp := ev.data], received := s1.rec.received + [ev.data])), t, Idle)
    else Goto(Complete(s, irp, BufferTooSmall, ev.size), t, Idle)
  }

  function CleanupSwapStep(s: State, t: Tid): State
    requires t in s.pcs && s.pcs[t].CleanupSwap?
  {
    var irp := s.pcs[t].irp;
    Goto(TakePending(s, Extra(t)), t,
         if s.sh.pending.Some? then CleanupCancel(irp, s.sh.pending.value) else Reply(irp, Success))
  }

  ghost function DoIrp(s: State, t: Tid, a: IrpStep): State
    requires t in s.pcs && IrpEnabled(s, t, a)
  {
    match a
    case Arrive(irp, req, junk) => ArriveStep(s, t, irp, req, junk)
    case SettleFree => SettleFreeStep(s, t)
    case DoCountRefusal => Goto(CountLoss(s, s.pcs[t].gone.data), t, Finish(s.pcs[t].gone, s.pcs[t].irp, false))
    case DoFinish => FinishStep(s, t)
    case DoReply => Goto(Complete(s, s.pcs[t].irp, s.pcs[t].status, 0), t, Idle)
    case DoCleanupSwap => CleanupSwapStep(s, t)
    case DoCleanupCancel => Goto(Complete(s, s.pcs[t].taken, Cancelled, 0), t, Reply(s.pcs[t].irp, Success))
  }

  // ---------------------------------------------------------------- driver_unload

  datatype UnloadStep =
    | StartUnload
    | DoDeregister
    | DoUnloadSwap
    | DoUnloadCancel
    | LockForDrain
    | DrainPop
    | DoDrainFree
    | DrainDone

  ghost predicate NoneRunning(s: State, r: Role) {
    forall u :: u in s.pcs && !s.pcs[u].Idle? ==> u in s.kern.roles && s.kern.roles[u] != r
  }

  /** `driver_unload` removes what is recorded, and only that. */
  predicate Removing(s: State, k: nat) { k < CLASSES && UnloadOrder(k) in s.kern.recorded }

  /** The kernel waits for running callbacks of a class before its removal returns; the I/O manager
      calls `driver_unload` once, when no dispatch routine is running, and sends no IRP afterwards. */
  ghost predicate UnloadEnabled(s: State, t: Tid, a: UnloadStep)
    requires t in s.pcs
  {
    var pc := s.pcs[t];
    match a
    case StartUnload => pc.Idle? && s.kern.unloader == None && NoneRunning(s, Dispatch)
    case DoDeregister => pc.Deregister? && (Removing(s, pc.k) ==> NoneRunning(s, Callback(UnloadOrder(pc.k))))
    case DoUnloadSwap => pc.UnloadSwap?
    case DoUnloadCancel => pc.UnloadCancel?
    case LockForDrain => pc.UnloadLock? && s.sh.lock == None
    case DrainPop => pc.Drain? && s.sh.queue != []
    case DoDrainFree => pc.DrainFree?
    case DrainDone => pc.Drain? && s.sh.queue == []
  }

  function StartUnloadStep(s: State, t: Tid): State {
    Goto(s.(kern := s.kern.(roles := s.kern.roles[t := Unload], unloader := Some(t))), t, Deregister(0))
  }

  function DeregisterStep(s: State, t: Tid): State
    requires t in s.pcs && s.pcs[t].Deregister?
  {
    var k := s.pcs[t].k;
    if Removing(s, k) then
      Goto(s.(kern := s.kern.(registered := s.kern.registered - {UnloadOrder(k)})), t, Deregister(k + 1))
    else Goto(s, t, if k < CLASSES then Deregister(k + 1) else UnloadSwap)
  }

  function UnloadSwapStep(s: State, t: Tid): State {
    Goto(TakePending(s, Main(t)), t, if s.sh.pending.Some? then UnloadCancel(s.sh.pending.value) else UnloadLock)
  }

  ghost function DoUnload(s: State, t: Tid, a: UnloadStep): State
    requires t in s.pcs && UnloadEnabled(s, t, a)
  {
    match a
    case StartUnload => StartUnloadStep(s, t)
    case DoDeregister => DeregisterStep(s, t)
    case DoUnloadSwap => UnloadSwapStep(s, t)
    case DoUnloadCancel => Goto(Complete(s, s.pcs[t].irp, Cancelled, 0), t, UnloadLock)
    case LockForDrain => Goto(Lock(s, t), t, Drain)
    case DrainPop => Goto(PopFor(s, t), t, DrainFree(s.sh.queue[0]))
    case DoDrainFree => Goto(Free(s, s.pcs[t].ev.data, Drained), t, Drain)
    case DrainDone => Goto(Unlock(s), t, Unloaded)
  }

  // ---------------------------------------------------------------- runs

  // Halves of the larger step groups.

  predicate Pushes(a: SubmitStep) { a.Evict? || a.DoCountEviction? || a.Enqueue? || a.UnlockPushed? }
  predicate Parks(a: GetStep) {
    a.FoundEmpty? || a.DoMarkEarly? || a.DoPark? || a.UnlockParked? || a.DoMarkLate? || a.UnlockRejected?
  }
  predicate Settles(a: IrpStep) { a.SettleFree? || a.DoCountRefusal? || a.DoFinish? }
  predicate Drains(a: UnloadStep) { a.LockForDrain? || a.DrainPop? || a.DoDrainFree? || a.DrainDone? }

  datatype Step =
    | Spawn(t: Tid)
    | Build(t: Tid, build: BuildStep)
    | Submit(t: Tid, submit: SubmitStep)
    | Get(t: Tid, get: GetStep)
    | Handle(t: Tid, handle: IrpStep)
    | Teardown(t: Tid, teardown: UnloadStep)

  ghost predicate Enabled(c: Config, s: State, a: Step) {
    match a
    case Spawn(t) => t !in s.pcs
    case Build(t, b) => t in s.pcs && BuildEnabled(s, t, b)
    case Submit(t, b) => t in s.pcs && SubmitEnabled(c, s, t, b)
    case Get(t, g) => t in s.pcs && GetEnabled(s, t, g)
    case Handle(t, h) => t in s.pcs && IrpEnabled(s, t, h)
    case Teardown(t, u) => t in s.pcs && UnloadEnabled(s, t, u)
  }

  ghost function Do(c: Config, s: State, a: Step): State
    requires Enabled(c, s, a)
  {
    match a
    case Spawn(t) => Goto(s, t, Idle)
    case Build(t, b) => DoBuild(s, t, b)
    case Submit(t, b) => DoSubmit(c, s, t, b)
    case Get(t, g) => DoGet(c, s, t, g)
    case Handle(t, h) => DoIrp(s, t, h)
    case Teardown(t, u) => DoUnload(s, t, u)
  }

  /** Step i leads from states[i] to states[i + 1]. */
  ghost predicate IsPath(c: Config, states: seq<State>, steps: seq<Step>) {
    && |states| == |steps| + 1
    && forall i :: 0 <= i < |steps| ==> Enabled(c, states[i], steps[i]) && states[i + 1] == Do(c, states[i], steps[i])
  }

  /** A run: a path from an initial state. */
  ghost predicate IsRun(c: Config, states: seq<State>, steps: seq<Step>) {
    IsPath(c, states, steps) && Init(states[0])
  }

  /** Some run ends in `s`. */
  ghost predicate Reachable(c: Config, s: State) {
    exists states: seq<State>, steps: seq<Step> :: IsRun(c, states, steps) && states[|steps|] == s
  }

  /** Some path leads from `s` to `s'`. */
  ghost predicate Leads(c: Config, s: State, s': State) {
    exists states: seq<State>, steps: seq<Step> :: IsPath(c, states, steps) && states[0] == s && states[|steps|] == s'
  }

  lemma LeadsNowhere(c: Config, s: State)
    ensures Leads(c, s, s)
  {
    assert IsPath(c, [s], []) && [s][0] == s;
  }

  lemma LeadsOn(c: Config, s: State, s': State, a: Step)
    requires Leads(c, s, s') && Enabled(c, s', a)
    ensures Leads(c, s, Do(c, s', a))
  {
    hide Enabled, Do;
    var states: seq<State>, steps: seq<Step> :| IsPath(c, states, steps) && states[0] == s && states[|steps|] == s';
    var more := states + [Do(c, s', a)];
    assert IsPath(c, more, steps + [a]) && more[0] == s && more[|steps + [a]|] == Do(c, s', a);
  }

  /** One more step of a path. */
  lemma Along(c: Config, s0: State, s: State, a: Step) returns (s': State)
    requires Leads(c, s0, s) && Enabled(c, s, a)
    ensures Leads(c, s0, s') && s' == Do(c, s, a)
  {
    hide Enabled, Do, Leads;
    s' := Do(c, s, a);
    LeadsOn(c, s0, s, a);
  }

  /** Two paths joined at a common state. */
  lemma Joins(c: Config, st1: seq<State>, a1: seq<Step>, st2: seq<State>, a2: seq<Step>)
    requires IsPath(c, st1, a1) && IsPath(c, st2, a2) && st1[|a1|] == st2[0]
    ensures IsPath(c, st1[..|a1|] + st2, a1 + a2)
    ensures (st1[..|a1|] + st2)[0] == st1[0] && (st1[..|a1|] + st2)[|a1 + a2|] == st2[|a2|]
  {
    hide Enabled, Do;
    var st, a := st1[..|a1|] + st2, a1 + a2;
    forall i | 0 <= i < |a| ensures Enabled(c, st[i], a[i]) && st[i + 1] == Do(c, st[i], a[i]) {
      if i < |a1| {
        assert a[i] == a1[i] && st[i] == st1[i] && st[i + 1] == st1[i + 1];
      } else {
        assert a[i] == a2[i - |a1|] && st[i] == st2[i - |a1|] && st[i + 1] == st2[i - |a1| + 1];
      }
    }
  }

  /** A path that starts in a reachable state ends in one. */
  lemma LeadsReachable(c: Config, s: State, s': State)
    requires Reachable(c, s) && Leads(c, s, s')
    ensures Reachable(c, s')
  {
    hide Enabled, Do, Init;
    var st1: seq<State>, a1: seq<Step> :| IsRun(c, st1, a1) && st1[|a1|] == s;
    var st2: seq<State>, a2: seq<Step> :| IsPath(c, st2, a2) && st2[0] == s && st2[|a2|] == s';
    Joins(c, st1, a1, st2, a2);
    assert IsRun(c, st1[..|a1|] + st2, a1 + a2);
  }

  lemma Extends(c: Config, s: State, a: Step)
    requires Reachable(c, s) && Enabled(c, s, a)
    ensures Reachable(c, Do(c, s, a))
  {
    hide Init, Enabled, Do;
    var states: seq<State>, steps: seq<Step> :| IsRun(c, states, steps) && states[|steps|] == s;
    var more := states + [Do(c, s, a)];
    assert IsRun(c, more, steps + [a]) && more[|steps + [a]|] == Do(c, s, a);
  }

  /** One more step of a run. */
  lemma After(c: Config, s: State, a: Step) returns (s': State)
    requires Reachable(c, s) && Enabled(c, s, a)
    ensures Reachable(c, s') && s' == Do(c, s, a)
  {
    hide Enabled, Do, Reachable;
    s' := Do(c, s, a);
    Extends(c, s, a);
  }

  lemma RunReaches(c: Config, states: seq<State>, steps: seq<Step>, m: nat)
    requires IsRun(c, states, steps) && m <= |steps|
    ensures Reachable(c, states[m])
  {
    hide Enabled, Do, Init;
    assert IsRun(c, states[..m + 1], steps[..m]) && states[..m + 1][|steps[..m]|] == states[m];
  }
}
