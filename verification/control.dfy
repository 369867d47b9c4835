/** Mutual exclusion and the wake-up rule: while an IRP is parked the ring is empty, although cleanup
    and unload clear the slot without the lock. */
module Control {
  import opened Wire
  import opened Protocol
  import opened Buffers

  /** Program points inside a critical section of `QUEUE_LOCK`. */
  predicate HasLock(pc: Pc) {
    || pc.SwapPending? || pc.HavePending? || pc.Decided? || pc.Pushing? || pc.CountEviction? || pc.Pushed?
    || pc.TryPop? || pc.Popped? || pc.MarkEarly? || pc.Park? || pc.ParkedIrp? || pc.Rejected?
    || pc.Drain? || pc.DrainFree?
  }

  /** What the lock holder may rely on at each point. */
  predicate Section(c: Config, pc: Pc, queue: seq<Slot>, pending: Option<Irp>) {
    && HasLock(pc)
    && (pc.HavePending? || pc.Decided? ==> queue == [] && pending == None)
    && (pc.Pushing? || pc.CountEviction? || pc.Pushed? ==> pending == None)
    && (pc.CountEviction? ==> |queue| < c.capacity)
    && (pc.MarkEarly? || pc.Park? ==> queue == [])
    && (pc.MarkEarly? ==> c.markFirst)
  }

  ghost predicate Exclusive(s: State) {
    && (forall t :: t in s.pcs ==> (HasLock(s.pcs[t]) <==> s.sh.lock == Some(t)))
    && (s.sh.lock.Some? ==> s.sh.lock.value in s.pcs)
  }

  ghost predicate CtlInv(c: Config, s: State) {
    && Exclusive(s)
    && (s.sh.lock.Some? ==> Section(c, s.pcs[s.sh.lock.value], s.sh.queue, s.sh.pending))
    && (s.sh.pending.Some? ==> s.sh.queue == [])
    && |s.sh.queue| <= c.capacity
    && (forall t :: t in s.pcs ==> !(c.markFirst && s.pcs[t].MarkLate?))
  }

  /** A step outside the critical section may clear the pending slot, no more. */
  lemma Outside(c: Config, s: State, s': State, t: Tid)
    requires CtlInv(c, s) && Moves(s, s', t)
    requires (t in s.pcs ==> !HasLock(s.pcs[t])) && !HasLock(s'.pcs[t]) && !(c.markFirst && s'.pcs[t].MarkLate?)
    requires s'.sh.lock == s.sh.lock && s'.sh.queue == s.sh.queue
    requires s'.sh.pending == s.sh.pending || s'.sh.pending == None
    ensures CtlInv(c, s')
  {
  }

  /** A write by a thread that does not move. */
  lemma Standing(c: Config, s: State, s': State)
    requires CtlInv(c, s) && s'.pcs == s.pcs
    requires s'.sh.lock == s.sh.lock && s'.sh.queue == s.sh.queue && s'.sh.pending == s.sh.pending
    ensures CtlInv(c, s')
  {
  }

  lemma Acquires(c: Config, s: State, s': State, t: Tid)
    requires CtlInv(c, s) && Moves(s, s', t) && t in s.pcs && s.sh.lock == None && s'.sh.lock == Some(t)
    requires Section(c, s'.pcs[t], s.sh.queue, s.sh.pending)
    requires s'.sh.queue == s.sh.queue && s'.sh.pending == s.sh.pending
    ensures CtlInv(c, s')
  {
  }

  lemma Releases(c: Config, s: State, s': State, t: Tid)
    requires CtlInv(c, s) && Moves(s, s', t) && t in s.pcs && HasLock(s.pcs[t]) && s'.sh.lock == None
    requires !HasLock(s'.pcs[t]) && !(c.markFirst && s'.pcs[t].MarkLate?)
    requires s'.sh.queue == s.sh.queue && s'.sh.pending == s.sh.pending
    ensures CtlInv(c, s')
  {
    hide Section;
  }

  /** The lock holder changes ring and slot, and keeps the rule. */
  lemma Inside(c: Config, s: State, s': State, t: Tid)
    requires CtlInv(c, s) && Moves(s, s', t) && t in s.pcs && HasLock(s.pcs[t]) && s'.sh.lock == s.sh.lock
    requires Section(c, s'.pcs[t], s'.sh.queue, s'.sh.pending)
    requires s'.sh.pending.Some? ==> s'.sh.queue == []
    requires |s'.sh.queue| <= c.capacity
    ensures CtlInv(c, s')
  {
  }

  lemma InSection(c: Config, s: State, t: Tid)
    requires CtlInv(c, s) && t in s.pcs && HasLock(s.pcs[t])
    ensures Section(c, s.pcs[t], s.sh.queue, s.sh.pending) && s.sh.lock == Some(t)
  {
  }

  lemma BuildKeepsControl(c: Config, s: State, t: Tid, a: BuildStep)
    requires CtlInv(c, s) && t in s.pcs && BuildEnabled(s, t, a)
    ensures CtlInv(c, DoBuild(s, t, a))
  {
    hide CtlInv, EncodeHeader;
    var s' := DoBuild(s, t, a);
    if a.BoundedCopy? || a.WriteField? { Standing(c, s, s'); } else { Outside(c, s, s', t); }
  }

  lemma SubmitKeepsControl(c: Config, s: State, t: Tid, a: SubmitStep)
    requires CtlInv(c, s) && t in s.pcs && SubmitEnabled(c, s, t, a)
    ensures CtlInv(c, DoSubmit(c, s, t, a))
  {
    var s' := DoSubmit(c, s, t, a);
    assert |s.sh.queue| <= c.capacity && (s.sh.pending.Some? ==> s.sh.queue == []);
    if a.SubmitLock? {
      hide CtlInv;
      Acquires(c, s, s', t);
    } else {
      hide CtlInv, CopyFaults, TouchFaults;
      InSection(c, s, t);
      if a.UnlockDecided? || a.UnlockPushed? { Releases(c, s, s', t); } else { Inside(c, s, s', t); }
    }
  }

  lemma FetchKeepsControl(c: Config, s: State, t: Tid, a: GetStep)
    requires CtlInv(c, s) && t in s.pcs && GetEnabled(s, t, a) && !Parks(a)
    ensures CtlInv(c, DoGet(c, s, t, a))
  {
    hide CtlInv, CopyFaults;
    Bounded(c, s);
    var s' := DoGet(c, s, t, a);
    match a
    case LockForGet => Acquires(c, s, s', t);
    case Check => Outside(c, s, s', t);
    case UnlockPopped => InSection(c, s, t); Releases(c, s, s', t);
    case Pop => InSection(c, s, t); Inside(c, s, s', t);
  }

  lemma ParkKeepsControl(c: Config, s: State, t: Tid, a: GetStep)
    requires CtlInv(c, s) && t in s.pcs && GetEnabled(s, t, a) && Parks(a)
    ensures CtlInv(c, DoGet(c, s, t, a))
  {
    hide CtlInv;
    Bounded(c, s);
    var s' := DoGet(c, s, t, a);
    match a
    case DoMarkLate => Outside(c, s, s', t);
    case UnlockParked => InSection(c, s, t); Releases(c, s, s', t);
    case UnlockRejected => InSection(c, s, t); Releases(c, s, s', t);
    case FoundEmpty => InSection(c, s, t); Inside(c, s, s', t);
    case DoMarkEarly => InSection(c, s, t); Inside(c, s, s', t);
    case DoPark => InSection(c, s, t); Inside(c, s, s', t);
  }

  lemma GetKeepsControl(c: Config, s: State, t: Tid, a: GetStep)
    requires CtlInv(c, s) && t in s.pcs && GetEnabled(s, t, a)
    ensures CtlInv(c, DoGet(c, s, t, a))
  {
    hide *;
    if Parks(a) { ParkKeepsControl(c, s, t, a); } else { FetchKeepsControl(c, s, t, a); }
  }

  lemma IrpKeepsControl(c: Config, s: State, t: Tid, a: IrpStep)
    requires CtlInv(c, s) && t in s.pcs && IrpEnabled(s, t, a)
    ensures CtlInv(c, DoIrp(s, t, a))
  {
    hide *;
    if Settles(a) { SettleKeepsControl(c, s, t, a); } else { DispatchKeepsControl(c, s, t, a); }
  }

  lemma SettleKeepsControl(c: Config, s: State, t: Tid, a: IrpStep)
    requires CtlInv(c, s) && t in s.pcs && IrpEnabled(s, t, a) && Settles(a)
    ensures CtlInv(c, DoIrp(s, t, a))
  {
    hide CtlInv;
    Outside(c, s, DoIrp(s, t, a), t);
  }

  lemma DispatchKeepsControl(c: Config, s: State, t: Tid, a: IrpStep)
    requires CtlInv(c, s) && t in s.pcs && IrpEnabled(s, t, a) && !Settles(a)
    ensures CtlInv(c, DoIrp(s, t, a))
  {
    hide CtlInv;
    Outside(c, s, DoIrp(s, t, a), t);
  }

  lemma Bounded(c: Config, s: State)
    requires CtlInv(c, s)
    ensures |s.sh.queue| <= c.capacity && (s.sh.pending.Some? ==> s.sh.queue == [])
  {
  }

  lemma CancelKeepsControl(c: Config, s: State, t: Tid, a: UnloadStep)
    requires CtlInv(c, s) && t in s.pcs && UnloadEnabled(s, t, a) && !Drains(a)
    ensures CtlInv(c, DoUnload(s, t, a))
  {
    hide CtlInv, NoneRunning;
    Outside(c, s, DoUnload(s, t, a), t);
  }

  lemma DrainKeepsControl(c: Config, s: State, t: Tid, a: UnloadStep)
    requires CtlInv(c, s) && t in s.pcs && UnloadEnabled(s, t, a) && Drains(a)
    ensures CtlInv(c, DoUnload(s, t, a))
  {
    hide CtlInv, NoneRunning;
    Bounded(c, s);
    var s' := DoUnload(s, t, a);
    match a
    case LockForDrain => Acquires(c, s, s', t);
    case DrainPop => InSection(c, s, t); Inside(c, s, s', t);
    case DoDrainFree => InSection(c, s, t); Inside(c, s, s', t);
    case DrainDone => InSection(c, s, t); Releases(c, s, s', t);
  }

  lemma UnloadKeepsControl(c: Config, s: State, t: Tid, a: UnloadStep)
    requires CtlInv(c, s) && t in s.pcs && UnloadEnabled(s, t, a)
    ensures CtlInv(c, DoUnload(s, t, a))
  {
    hide *;
    if Drains(a) { DrainKeepsControl(c, s, t, a); } else { CancelKeepsControl(c, s, t, a); }
  }
}
