/** The step system, run without interruption, does what the routines do in sequence. From every reachable
    state in which a routine can start and the lock is free, its own steps lead to its return, and every
    such run has exactly the effect of the sequential specification, which the methods of
    `DriverObject.Driver` satisfy. */
module Refinement {
  import opened Wire
  import opened Protocol
  import opened Ordering
  import opened Buffers
  import opened Irps
  import opened Fates
  import opened Commitments
  import opened Accounting
  import opened Contents
  import opened Stamps
  import opened Safety
  import opened Roles
  import opened Control
  import opened Requests
  import opened Delivery
  import opened Theorems
  import opened Progress
  import opened Solo
  import opened Sequential

  ghost function ViewOf(s: State): View {
    View(s.sh.queue, s.sh.pending, s.sh.drop, s.pool.mem, map i | i in s.io.reqs :: Outlen(s, i), s.io.sysbuf, s.io.completed)
  }

  /** Only thread `t` has moved, to `pc`; nobody holds the lock; the shared state reads `v`. */
  ghost predicate Returned(s: State, s': State, t: Tid, pc: Pc, v: View) {
    s'.pcs == s.pcs[t := pc] && s'.sh.lock == None && s'.io.reqs == s.io.reqs && ViewOf(s') == v
  }

  /** Alone, the routine of thread `t` can run to its return, and however it does, only `t` has moved, the
      lock is as before and the shared state reads `v`. */
  ghost predicate Yields(c: Config, s: State, t: Tid, pc: Pc, v: View) {
    && (exists states, steps :: Completes(c, s, t, states, steps))
    && (forall states, steps :: Completes(c, s, t, states, steps) ==> EndsAs(s, states[|steps|], t, pc, v))
  }

  ghost predicate EndsAs(s: State, s': State, t: Tid, pc: Pc, v: View) {
    s'.pcs == s.pcs[t := pc] && s'.sh.lock == s.sh.lock && s'.io.reqs == s.io.reqs && ViewOf(s') == v
  }

  lemma PathYields(c: Config, s: State, t: Tid, s': State, pc: Pc, v: View)
    requires t in s.pcs && Prescribed(s.pcs[t]) && Path(c, s, t, s') && EndsAs(s, s', t, pc, v) && !Running(pc)
    ensures Yields(c, s, t, pc, v)
  {
    hide Enabled, Do, InRoutine, Prescribed, ViewOf;
    var st, a :| SoloPath(c, t, st, a) && st[0] == s && st[|a|] == s';
    assert Completes(c, s, t, st, a);
    forall states, steps | Completes(c, s, t, states, steps) ensures EndsAs(s, states[|steps|], t, pc, v) {
      OneOutcome(c, s, t, st, a, states, steps);
    }
  }

  // ---------------------------------------------------------------- what routines may rely on

  lemma QueueSound(s: State)
    requires BufInv(s)
    ensures forall i :: 0 <= i < |s.sh.queue| ==> LiveSlot(ViewOf(s), s.sh.queue[i])
    ensures forall i, j :: 0 <= i < j < |s.sh.queue| ==> s.sh.queue[i].data != s.sh.queue[j].data
  {
    forall i | 0 <= i < |s.sh.queue| ensures SlotOk(s, s.sh.queue[i]) && s.at.buf[s.sh.queue[i].data] == Owned(ByRing(s.at.dequeued + i)) {
      assert BlockOf(s, ByRing(s.at.dequeued + i)) == Some(s.sh.queue[i]);
    }
    hide BufInv;
  }

  lemma CanAnswer(s: State, o: IrpOwner, irp: Irp)
    requires IrpInv(s) && RequestInv(s) && IrpOf(s, o) == Some(irp) && IsGet(s, irp)
    ensures Answerable(ViewOf(s), irp)
  {
    assert irp in s.at.irp && s.at.irp[irp] == HeldBy(o) by { hide IrpOf; }
    hide PcRequest, IrpOf;
  }

  lemma PendingSound(c: Config, s: State)
    requires IrpInv(s) && RequestInv(s) && CtlInv(c, s) && s.sh.pending.Some?
    ensures Answerable(ViewOf(s), s.sh.pending.value) && s.sh.queue == []
  {
    hide IrpInv, PcRequest, Answerable;
    CanAnswer(s, PendingSlot, s.sh.pending.value);
  }

  /** Every reachable state satisfies what the sequential routines require. */
  lemma ReachableSound(c: Config, s: State)
    requires Reachable(c, s)
    ensures Sound(ViewOf(s))
  {
    Families(c, s) by { hide *; }
    QueueSound(s) by { hide *; }
    if s.sh.pending.Some? { PendingSound(c, s) by { hide *; } }
    hide Reachable, BufInv, IrpInv, CtlInv, OrderInv, StageInv, PromiseInv, LossInv, CountInv, ContentInv, StampInv,
         RequestInv, CopyInv, OutcomeInv, ReceiptInv, FaultInv, RoleInv, LiveSlot, Answerable, TruncInv, CommitInv;
  }

  // ---------------------------------------------------------------- the common end of both paths

  /** Free, count if refused, complete. */
  lemma SettleRun(c: Config, s0: State, s: State, t: Tid) returns (s': State)
    requires Path(c, s0, t, s) && t in s.pcs && s.pcs[t].Settle? && s.sh.lock == None
    ensures Path(c, s0, t, s')
    ensures var ev, irp, v := s.pcs[t].ev, s.pcs[t].irp, ViewOf(s);
            Returned(s, s', t, Idle,
              if s.pcs[t].fits then
                v.(mem := v.mem - {ev.data}, completed := v.completed[irp := Completion(Success, ev.size)])
              else v.(mem := v.mem - {ev.data}, drop := Add32(v.drop, 1),
                      completed := v.completed[irp := Completion(BufferTooSmall, ev.size)]))
  {
    hide Path;
    s' := Onward(c, s0, t, s, Handle(t, SettleFree));
    if !s.pcs[t].fits { s' := Onward(c, s0, t, s', Handle(t, DoCountRefusal)); }
    s' := Onward(c, s0, t, s', Handle(t, DoFinish));
  }

  // ---------------------------------------------------------------- submit_event

  /** The thread stands before `submit_event` with a finished event, and nobody holds the lock. */
  ghost predicate Submits(s: State, t: Tid, ev: Slot) {
    t in s.pcs && s.pcs[t] == Filling(ev) && s.sh.lock == None
  }

  lemma TakeRun(c: Config, s0: State, s: State, t: Tid, ev: Slot, irp: Irp) returns (s': State)
    requires Path(c, s0, t, s) && Submits(s, t, ev) && s.sh.pending == Some(irp)
    ensures Path(c, s0, t, s') && s'.pcs == s.pcs[t := HavePending(ev, irp)] && s'.io == s.io
    ensures ViewOf(s') == ViewOf(s).(pending := None)
  {
    hide Path;
    s' := Onward(c, s0, t, s, Submit(t, SubmitLock));
    s' := Onward(c, s0, t, s', Submit(t, DoSwapPending));
  }

  lemma DecideRun(c: Config, s0: State, s: State, t: Tid) returns (s': State)
    requires Path(c, s0, t, s) && t in s.pcs && s.pcs[t].HavePending?
    requires Answerable(ViewOf(s), s.pcs[t].irp) && LiveSlot(ViewOf(s), s.pcs[t].ev)
    ensures Path(c, s0, t, s')
    ensures var ev, irp, v := s.pcs[t].ev, s.pcs[t].irp, ViewOf(s);
            var fits := v.outlen[irp] >= ev.size;
            Returned(s, s', t, Settle(ev, irp, fits),
              if fits then v.(sysbuf := v.sysbuf[irp := Splice(v.sysbuf[irp], 0, v.mem[ev.data])]) else v)
  {
    hide Path, Splice;
    s' := Onward(c, s0, t, s, Submit(t, Decide));
    assert s.pool.mem[s.pcs[t].ev.data][..s.pcs[t].ev.size] == s.pool.mem[s.pcs[t].ev.data];
    s' := Onward(c, s0, t, s', Submit(t, UnlockDecided));
  }

  lemma OwnSlot(c: Config, s: State, t: Tid)
    requires Reachable(c, s) && t in s.pcs && BufOf(s.pcs[t]).Some?
    ensures LiveSlot(ViewOf(s), BufOf(s.pcs[t]).value)
  {
    Families(c, s) by { hide *; }
    OwnBlock(s, t) by { hide *; }
    hide Reachable, BufOf;
  }

  /** `submit_event` finding a parked IRP. */
  lemma DirectRun(c: Config, s0: State, s: State, t: Tid, ev: Slot) returns (s': State)
    requires Path(c, s0, t, s) && Submits(s, t, ev) && s.sh.pending.Some?
    requires Sound(ViewOf(s)) && LiveSlot(ViewOf(s), ev)
    ensures Path(c, s0, t, s') && Returned(s, s', t, Idle, Submitted(ViewOf(s), c.capacity, ev))
  {
    hide Path, Splice;
    var s1 := TakeRun(c, s0, s, t, ev, s.sh.pending.value);
    var s2 := DecideRun(c, s0, s1, t);
    s' := SettleRun(c, s0, s2, t);
  }

  lemma LockForPush(c: Config, s0: State, s: State, t: Tid, ev: Slot) returns (s': State)
    requires Path(c, s0, t, s) && Submits(s, t, ev) && s.sh.pending == None
    ensures Path(c, s0, t, s') && s'.pcs == s.pcs[t := Pushing(ev)] && s'.io == s.io && ViewOf(s') == ViewOf(s)
  {
    hide Path;
    s' := Onward(c, s0, t, s, Submit(t, SubmitLock));
    s' := Onward(c, s0, t, s', Submit(t, DoSwapPending));
  }

  lemma EvictRun(c: Config, s0: State, s: State, t: Tid) returns (s': State)
    requires Path(c, s0, t, s) && t in s.pcs && s.pcs[t].Pushing? && |s.sh.queue| == c.capacity && s.sh.queue != []
    ensures Path(c, s0, t, s') && s'.pcs == s.pcs && s'.io == s.io
    ensures var v := ViewOf(s);
            ViewOf(s') == v.(queue := v.queue[1..], drop := Add32(v.drop, 1), mem := v.mem - {v.queue[0].data})
  {
    hide Path;
    s' := Onward(c, s0, t, s, Submit(t, Evict));
    s' := Onward(c, s0, t, s', Submit(t, DoCountEviction));
  }

  lemma EnqueueRun(c: Config, s0: State, s: State, t: Tid) returns (s': State)
    requires Path(c, s0, t, s) && t in s.pcs && s.pcs[t].Pushing? && |s.sh.queue| != c.capacity
    ensures Path(c, s0, t, s') && Returned(s, s', t, Idle, ViewOf(s).(queue := s.sh.queue + [s.pcs[t].ev]))
  {
    hide Path;
    s' := Onward(c, s0, t, s, Submit(t, Enqueue));
    s' := Onward(c, s0, t, s', Submit(t, UnlockPushed));
  }

  lemma DataSetOfOne(x: Slot)
    ensures DataSet([x]) == {x.data}
  {
    assert [x][0].data in DataSet([x]);
  }

  /** `submit_event` finding no parked IRP. */
  lemma QueueRun(c: Config, s0: State, s: State, t: Tid, ev: Slot) returns (s': State)
    requires c.Valid() && Path(c, s0, t, s) && Submits(s, t, ev) && s.sh.pending == None
    requires Sound(ViewOf(s)) && LiveSlot(ViewOf(s), ev)
    ensures Path(c, s0, t, s') && Returned(s, s', t, Idle, Submitted(ViewOf(s), c.capacity, ev))
  {
    hide Path;
    var s1 := LockForPush(c, s0, s, t, ev);
    if |s.sh.queue| == c.capacity {
      s1 := EvictRun(c, s0, s1, t);
      DataSetOfOne(s.sh.queue[0]);
    } else {
      assert DataSet(BoundedQueue.PushedOut(s.sh.queue, c.capacity)) == {};
    }
    s' := EnqueueRun(c, s0, s1, t);
  }

  /** From every reachable state in which a producer is ready and the lock is free, its own steps lead to the
      return of `submit_event`, and every such run has exactly the sequential effect. */
  lemma SubmitRefines(c: Config, s: State, t: Tid, ev: Slot)
    requires c.Valid() && Reachable(c, s) && Submits(s, t, ev)
    ensures Sound(ViewOf(s)) && LiveSlot(ViewOf(s), ev)
    ensures Yields(c, s, t, Idle, Submitted(ViewOf(s), c.capacity, ev))
  {
    ReachableSound(c, s) by { hide *; }
    OwnSlot(c, s, t);
    hide Reachable, Submitted, Sound, LiveSlot, Yields, Path, ViewOf;
    NoStep(c, s, t);
    var s': State;
    if s.sh.pending.Some? { s' := DirectRun(c, s, s, t, ev); } else { s' := QueueRun(c, s, s, t, ev); }
    PathYields(c, s, t, s', Idle, Submitted(ViewOf(s), c.capacity, ev));
  }

  // ---------------------------------------------------------------- dispatch_device_control

  ghost predicate Asks(s: State, t: Tid, irp: Irp) {
    t in s.pcs && s.pcs[t] == GetLock(irp) && s.sh.lock == None
  }

  lemma PopRun(c: Config, s0: State, s: State, t: Tid, irp: Irp) returns (s': State)
    requires Path(c, s0, t, s) && Asks(s, t, irp) && s.sh.queue != []
    ensures Path(c, s0, t, s')
    ensures Returned(s, s', t, Checking(s.sh.queue[0], irp), ViewOf(s).(queue := s.sh.queue[1..]))
  {
    hide Path;
    s' := Onward(c, s0, t, s, Get(t, LockForGet));
    s' := Onward(c, s0, t, s', Get(t, Pop));
    s' := Onward(c, s0, t, s', Get(t, UnlockPopped));
  }

  lemma CheckRun(c: Config, s0: State, s: State, t: Tid) returns (s': State)
    requires Path(c, s0, t, s) && t in s.pcs && s.pcs[t].Checking? && s.sh.lock == None
    requires Answerable(ViewOf(s), s.pcs[t].irp) && LiveSlot(ViewOf(s), s.pcs[t].ev)
    ensures Path(c, s0, t, s')
    ensures var ev, irp, v := s.pcs[t].ev, s.pcs[t].irp, ViewOf(s);
            var fits := v.outlen[irp] >= ev.size;
            Returned(s, s', t, Settle(ev, irp, fits),
              if fits then v.(sysbuf := v.sysbuf[irp := Splice(v.sysbuf[irp], 0, v.mem[ev.data])]) else v)
  {
    hide Path, Splice;
    s' := Onward(c, s0, t, s, Get(t, Check));
    assert s.pool.mem[s.pcs[t].ev.data][..s.pcs[t].ev.size] == s.pool.mem[s.pcs[t].ev.data];
  }

  lemma FastRun(c: Config, s0: State, s: State, t: Tid, irp: Irp) returns (s': State)
    requires Path(c, s0, t, s) && Asks(s, t, irp) && s.sh.queue != [] && Sound(ViewOf(s)) && Answerable(ViewOf(s), irp)
    ensures Path(c, s0, t, s') && Returned(s, s', t, Idle, Requested(ViewOf(s), irp))
  {
    hide Path, Splice;
    var s1 := PopRun(c, s0, s, t, irp);
    var s2 := CheckRun(c, s0, s1, t);
    s' := SettleRun(c, s0, s2, t);
  }

  lemma EmptyRun(c: Config, s0: State, s: State, t: Tid, irp: Irp) returns (s': State)
    requires Path(c, s0, t, s) && Asks(s, t, irp) && s.sh.queue == []
    ensures Path(c, s0, t, s') && s'.pcs == s.pcs[t := Park(irp)] && s'.io == s.io && ViewOf(s') == ViewOf(s)
  {
    hide Path;
    s' := Onward(c, s0, t, s, Get(t, LockForGet));
    s' := Onward(c, s0, t, s', Get(t, FoundEmpty));
    if c.markFirst { s' := Onward(c, s0, t, s', Get(t, DoMarkEarly)); }
  }

  lemma ParkRun(c: Config, s0: State, s: State, t: Tid) returns (s': State)
    requires Path(c, s0, t, s) && t in s.pcs && s.pcs[t].Park? && s.sh.pending == None
    ensures Path(c, s0, t, s') && Returned(s, s', t, Idle, ViewOf(s).(pending := Some(s.pcs[t].irp)))
  {
    hide Path;
    s' := Onward(c, s0, t, s, Get(t, DoPark));
    s' := Onward(c, s0, t, s', Get(t, UnlockParked));
    if !c.markFirst { s' := Onward(c, s0, t, s', Get(t, DoMarkLate)); }
  }

  lemma RejectRun(c: Config, s0: State, s: State, t: Tid) returns (s': State)
    requires Path(c, s0, t, s) && t in s.pcs && s.pcs[t].Park? && s.sh.pending.Some?
    ensures Path(c, s0, t, s')
    ensures Returned(s, s', t, Idle, ViewOf(s).(completed := s.io.completed[s.pcs[t].irp := Completion(Unsuccessful, 0)]))
  {
    hide Path;
    s' := Onward(c, s0, t, s, Get(t, DoPark));
    s' := Onward(c, s0, t, s', Get(t, UnlockRejected));
    s' := Onward(c, s0, t, s', Handle(t, DoReply));
  }

  lemma SlowRun(c: Config, s0: State, s: State, t: Tid, irp: Irp) returns (s': State)
    requires Path(c, s0, t, s) && Asks(s, t, irp) && s.sh.queue == [] && Sound(ViewOf(s)) && Answerable(ViewOf(s), irp)
    ensures Path(c, s0, t, s') && Returned(s, s', t, Idle, Requested(ViewOf(s), irp))
  {
    hide Path, Sound, Answerable;
    var s1 := EmptyRun(c, s0, s, t, irp);
    if s.sh.pending == None { s' := ParkRun(c, s0, s1, t); } else { s' := RejectRun(c, s0, s1, t); }
  }

  lemma OwnRequest(c: Config, s: State, t: Tid, irp: Irp)
    requires Reachable(c, s) && Asks(s, t, irp)
    ensures Answerable(ViewOf(s), irp)
  {
    Families(c, s) by { hide *; }
    RequestFacts(s, t) by { hide *; }
    hide Reachable, IrpInv, RequestInv, BufInv, CtlInv, OrderInv, StageInv, PromiseInv, LossInv, CountInv, ContentInv, StampInv,
         CopyInv, OutcomeInv, ReceiptInv, FaultInv, RoleInv, Answerable, TruncInv, CommitInv;
    CanAnswer(s, Main(t), irp);
  }

  /** The same for `dispatch_device_control`, whichever of its paths it takes. */
  lemma RequestRefines(c: Config, s: State, t: Tid, irp: Irp)
    requires Reachable(c, s) && Asks(s, t, irp)
    ensures Sound(ViewOf(s)) && Answerable(ViewOf(s), irp)
    ensures Yields(c, s, t, Idle, Requested(ViewOf(s), irp))
  {
    ReachableSound(c, s) by { hide *; }
    OwnRequest(c, s, t, irp) by { hide *; }
    hide Reachable, Requested, Sound, Answerable, Yields, Path, ViewOf;
    NoStep(c, s, t);
    var s': State;
    if s.sh.queue == [] { s' := SlowRun(c, s, s, t, irp); } else { s' := FastRun(c, s, s, t, irp); }
    PathYields(c, s, t, s', Idle, Requested(ViewOf(s), irp));
  }

  // ---------------------------------------------------------------- dispatch_cleanup

  lemma CleanupRun(c: Config, s0: State, s: State, t: Tid, irp: Irp) returns (s': State)
    requires Path(c, s0, t, s) && t in s.pcs && s.pcs[t] == CleanupSwap(irp)
    ensures Path(c, s0, t, s') && EndsAs(s, s', t, Idle, CleanedUp(ViewOf(s), irp))
  {
    hide Path;
    s' := Onward(c, s0, t, s, Handle(t, DoCleanupSwap));
    if s.sh.pending.Some? { s' := Onward(c, s0, t, s', Handle(t, DoCleanupCancel)); }
    s' := Onward(c, s0, t, s', Handle(t, DoReply));
  }

  /** `dispatch_cleanup` needs no lock, so it can run whatever the lock holder is doing. */
  lemma CleanupRefines(c: Config, s: State, t: Tid, irp: Irp)
    requires t in s.pcs && s.pcs[t] == CleanupSwap(irp)
    ensures Yields(c, s, t, Idle, CleanedUp(ViewOf(s), irp))
    ensures CleanupEffect(ViewOf(s), CleanedUp(ViewOf(s), irp), irp)
  {
    CleanedUpEffect(ViewOf(s), irp);
    hide Yields, Path, CleanedUp, ViewOf, CleanupEffect;
    NoStep(c, s, t);
    var s' := CleanupRun(c, s, s, t, irp);
    PathYields(c, s, t, s', Idle, CleanedUp(ViewOf(s), irp));
  }

  // ---------------------------------------------------------------- driver_unload

  lemma DrainOne(c: Config, s0: State, s: State, t: Tid) returns (s': State)
    requires Path(c, s0, t, s) && t in s.pcs && s.pcs[t].Drain? && s.sh.queue != []
    ensures Path(c, s0, t, s') && s'.pcs == s.pcs && s'.io == s.io
    ensures var v := ViewOf(s); ViewOf(s') == v.(queue := v.queue[1..], mem := v.mem - {v.queue[0].data})
  {
    hide Path;
    s' := Onward(c, s0, t, s, Teardown(t, DrainPop));
    s' := Onward(c, s0, t, s', Teardown(t, DoDrainFree));
  }

  lemma DataSetTail(q: seq<Slot>)
    requires q != []
    ensures DataSet(q) == {q[0].data} + DataSet(q[1..])
  {
    forall b | b in DataSet(q) && b != q[0].data ensures b in DataSet(q[1..]) {
      var i :| 0 <= i < |q| && q[i].data == b;
      assert q[1..][i - 1].data == b;
    }
    forall b | b in DataSet(q[1..]) ensures b in DataSet(q) {
      var i :| 0 <= i < |q[1..]| && q[1..][i].data == b;
      assert q[i + 1].data == b;
    }
  }

  lemma {:induction false} DrainRun(c: Config, s0: State, s: State, t: Tid) returns (s': State)
    requires Path(c, s0, t, s) && t in s.pcs && s.pcs[t].Drain?
    ensures Path(c, s0, t, s') && s'.pcs == s.pcs && s'.io == s.io && s'.sh.queue == []
    ensures var v := ViewOf(s); ViewOf(s') == v.(queue := [], mem := v.mem - DataSet(v.queue))
    decreases |s.sh.queue|
  {
    hide Path;
    if s.sh.queue == [] {
      s' := s;
    } else {
      DataSetTail(s.sh.queue);
      hide DataSet;
      s' := DrainOne(c, s0, s, t);
      s' := DrainRun(c, s0, s', t);
    }
  }

  lemma CancelRun(c: Config, s0: State, s: State, t: Tid) returns (s': State)
    requires Path(c, s0, t, s) && t in s.pcs && s.pcs[t].UnloadSwap? && s.sh.lock == None
    ensures Path(c, s0, t, s') && s'.pcs == s.pcs[t := Drain] && s'.io.reqs == s.io.reqs
    ensures var v := ViewOf(s);
            ViewOf(s') == v.(pending := None,
              completed := if v.pending.Some? then v.completed[v.pending.value := Completion(Cancelled, 0)] else v.completed)
  {
    hide Path;
    s' := Onward(c, s0, t, s, Teardown(t, DoUnloadSwap));
    if s.sh.pending.Some? { s' := Onward(c, s0, t, s', Teardown(t, DoUnloadCancel)); }
    s' := Onward(c, s0, t, s', Teardown(t, LockForDrain));
  }

  lemma EndRun(c: Config, s0: State, s: State, t: Tid) returns (s': State)
    requires Path(c, s0, t, s) && t in s.pcs && s.pcs[t].Drain? && s.sh.queue == []
    ensures Path(c, s0, t, s') && Returned(s, s', t, Unloaded, ViewOf(s))
  {
    hide Path;
    s' := Onward(c, s0, t, s, Teardown(t, DrainDone));
  }

  /** The same for the cancel and drain of `driver_unload`. */
  lemma UnloadRefines(c: Config, s: State, t: Tid)
    requires t in s.pcs && s.pcs[t].UnloadSwap? && s.sh.lock == None
    ensures Yields(c, s, t, Unloaded, TornDown(ViewOf(s)))
  {
    hide Yields, Path, DataSet;
    NoStep(c, s, t);
    var s1 := CancelRun(c, s, s, t);
    var s2 := DrainRun(c, s, s1, t);
    var s3 := EndRun(c, s, s2, t);
    PathYields(c, s, t, s3, Unloaded, TornDown(ViewOf(s)));
  }
}
