/** No interleaving gets stuck, and no critical section lasts for ever. */
module Progress {
  import opened Wire
  import opened Protocol
  import opened Control
  import opened Roles
  import opened Theorems

  /** Points whose next step is to acquire `QUEUE_LOCK`. */
  predicate WantsLock(pc: Pc) { pc.Filling? || pc.GetLock? || pc.UnloadLock? }

  /** A step that leads a running thread towards its return. */
  ghost function Next(c: Config, s: State, t: Tid): Step
    requires t in s.pcs
  {
    match s.pcs[t]
    case Idle => Spawn(t)
    case InCallback => Build(t, ReturnEarly)
    case CountOom(_) => Build(t, DoCountOom)
    case StampDrop(_, _) => Build(t, DoStampDrop)
    case StampTrunc(_, _, _) => Build(t, DoStampTrunc(0))
    case Filling(_) => Submit(t, SubmitLock)
    case SwapPending(_) => Submit(t, DoSwapPending)
    case HavePending(_, _) => Submit(t, Decide)
    case Decided(_, _, _) => Submit(t, UnlockDecided)
    case Pushing(_) => Submit(t, if |s.sh.queue| == c.capacity then Evict else Enqueue)
    case CountEviction(_, _) => Submit(t, DoCountEviction)
    case Pushed => Submit(t, UnlockPushed)
    case Settle(_, _, _) => Handle(t, SettleFree)
    case CountRefusal(_, _) => Handle(t, DoCountRefusal)
    case Finish(_, _, _) => Handle(t, DoFinish)
    case GetLock(_) => Get(t, LockForGet)
    case TryPop(_) => Get(t, if s.sh.queue == [] then FoundEmpty else Pop)
    case Popped(_, _) => Get(t, UnlockPopped)
    case Checking(_, _) => Get(t, Check)
    case MarkEarly(_) => Get(t, DoMarkEarly)
    case Park(_) => Get(t, DoPark)
    case ParkedIrp(_) => Get(t, UnlockParked)
    case MarkLate(_) => Get(t, DoMarkLate)
    case Rejected(_) => Get(t, UnlockRejected)
    case Reply(_, _) => Handle(t, DoReply)
    case CleanupSwap(_) => Handle(t, DoCleanupSwap)
    case CleanupCancel(_, _) => Handle(t, DoCleanupCancel)
    case Deregister(_) => Teardown(t, DoDeregister)
    case UnloadSwap => Teardown(t, DoUnloadSwap)
    case UnloadCancel(_) => Teardown(t, DoUnloadCancel)
    case UnloadLock => Teardown(t, LockForDrain)
    case Drain => Teardown(t, if s.sh.queue == [] then DrainDone else DrainPop)
    case DrainFree(_) => Teardown(t, DoDrainFree)
    case Unloaded => Spawn(t)
  }

  predicate Running(pc: Pc) { !pc.Idle? && !pc.Unloaded? }

  /** A running thread waits for the lock, or the unloading thread for callbacks of the class it removes;
      there is nothing else to wait for. */
  ghost predicate Waits(s: State, t: Tid)
    requires t in s.pcs
  {
    || (WantsLock(s.pcs[t]) && s.sh.lock.Some?)
    || (s.pcs[t].Deregister? && Removing(s, s.pcs[t].k) && !NoneRunning(s, Callback(UnloadOrder(s.pcs[t].k))))
  }

  lemma NextEnabledIff(c: Config, s: State, t: Tid)
    requires c.Valid() && t in s.pcs && Running(s.pcs[t])
    ensures Enabled(c, s, Next(c, s, t)) <==> !Waits(s, t)
    ensures Next(c, s, t).t == t && !Next(c, s, t).Spawn?
  {
    hide NoneRunning;
  }

  lemma HolderRuns(c: Config, s: State)
    requires CtlInv(c, s) && s.sh.lock.Some?
    ensures s.sh.lock.value in s.pcs && HasLock(s.pcs[s.sh.lock.value])
  {
  }

  lemma RunningCallback(s: State, k: Class)
    requires RoleInv(s) && !NoneRunning(s, Callback(k))
    ensures exists u :: u in s.pcs && CallbackPc(s.pcs[u])
  {
    var u :| u in s.pcs && !s.pcs[u].Idle? && !(u in s.kern.roles && s.kern.roles[u] != Callback(k));
    assert RoleOk(s, u);
  }

  lemma SomeoneMoves(c: Config, s: State, t: Tid)
    requires c.Valid() && CtlInv(c, s) && RoleInv(s) && t in s.pcs && Running(s.pcs[t])
    ensures exists u :: u in s.pcs && Running(s.pcs[u]) && !Waits(s, u)
  {
    hide CtlInv, RoleInv, NoneRunning;
    var u: Tid := t;
    if s.pcs[t].Deregister? && Waits(s, t) {
      RunningCallback(s, UnloadOrder(s.pcs[t].k));
      u :| u in s.pcs && CallbackPc(s.pcs[u]);
    }
    if s.sh.lock.Some? {
      HolderRuns(c, s);
      assert !Waits(s, s.sh.lock.value);
    } else {
      assert !Waits(s, u);
    }
  }

  /** No deadlock: while some routine has not returned, some thread inside a routine can take a step. */
  lemma NoDeadlock(c: Config, s: State, t: Tid)
    requires c.Valid() && Reachable(c, s) && t in s.pcs && Running(s.pcs[t])
    ensures exists u :: u in s.pcs && Running(s.pcs[u]) && Enabled(c, s, Next(c, s, u))
  {
    assert exists u :: u in s.pcs && Running(s.pcs[u]) && !Waits(s, u) by {
      hide *;
      Families(c, s);
      SomeoneMoves(c, s, t);
    }
    hide *;
    var u :| u in s.pcs && Running(s.pcs[u]) && !Waits(s, u);
    NextEnabledIff(c, s, u);
  }

  /** Steps the lock holder has left before it releases the lock. */
  function HoldLeft(c: Config, pc: Pc, queued: nat): nat {
    match pc
    case SwapPending(_) => 6
    case HavePending(_, _) => 2
    case Decided(_, _, _) => 1
    case Pushing(_) => if queued < c.capacity then 2 else 5
    case CountEviction(_, _) => 3
    case Pushed => 1
    case TryPop(_) => 4
    case Popped(_, _) => 1
    case MarkEarly(_) => 3
    case Park(_) => 2
    case ParkedIrp(_) => 1
    case Rejected(_) => 1
    case Drain => 2 * queued + 1
    case DrainFree(_) => 2 * queued + 2
    case _ => 0
  }

  ghost predicate Nearer(c: Config, s: State, s': State, t: Tid) {
    && t in s.pcs && t in s'.pcs
    && HoldLeft(c, s'.pcs[t], |s'.sh.queue|) < HoldLeft(c, s.pcs[t], |s.sh.queue|)
    && (HoldLeft(c, s'.pcs[t], |s'.sh.queue|) == 0 <==> s'.sh.lock == None)
  }

  lemma SubmitNearer(c: Config, s: State, t: Tid, a: SubmitStep)
    requires t in s.pcs && SubmitEnabled(c, s, t, a) && Section(c, s.pcs[t], s.sh.queue, s.sh.pending)
    requires |s.sh.queue| <= c.capacity && s.sh.lock == Some(t)
    ensures Nearer(c, s, DoSubmit(c, s, t, a), t)
  {
    hide CopyFaults, TouchFaults;
  }

  lemma GetNearer(c: Config, s: State, t: Tid, a: GetStep)
    requires t in s.pcs && GetEnabled(s, t, a) && Section(c, s.pcs[t], s.sh.queue, s.sh.pending) && s.sh.lock == Some(t)
    ensures Nearer(c, s, DoGet(c, s, t, a), t)
  {
    hide CopyFaults;
  }

  lemma UnloadNearer(c: Config, s: State, t: Tid, a: UnloadStep)
    requires t in s.pcs && UnloadEnabled(s, t, a) && Section(c, s.pcs[t], s.sh.queue, s.sh.pending) && s.sh.lock == Some(t)
    ensures Nearer(c, s, DoUnload(s, t, a), t)
  {
    hide NoneRunning;
  }

  lemma HolderStep(c: Config, s: State, a: Step)
    requires CtlInv(c, s) && Enabled(c, s, a) && s.sh.lock == Some(a.t)
    ensures Nearer(c, s, Do(c, s, a), a.t)
  {
    hide CtlInv, BuildEnabled, DoBuild, SubmitEnabled, DoSubmit, GetEnabled, DoGet, IrpEnabled, DoIrp, UnloadEnabled,
         DoUnload, Section, Nearer, HasLock;
    HolderRuns(c, s);
    InSection(c, s, a.t);
    QueueBound(c, s);
    match a
    case Spawn(_) => assert false;
    case Build(t, b) => assert false by { NotBuilding(s, t, b); }
    case Submit(t, b) => SubmitNearer(c, s, t, b);
    case Get(t, g) => GetNearer(c, s, t, g);
    case Handle(t, h) => assert false by { NotHandling(s, t, h); }
    case Teardown(t, u) => UnloadNearer(c, s, t, u);
  }

  lemma QueueBound(c: Config, s: State)
    requires CtlInv(c, s)
    ensures |s.sh.queue| <= c.capacity
  {
  }

  lemma NotBuilding(s: State, t: Tid, a: BuildStep)
    requires t in s.pcs && BuildEnabled(s, t, a)
    ensures !HasLock(s.pcs[t])
  {
  }

  lemma NotHandling(s: State, t: Tid, a: IrpStep)
    requires t in s.pcs && IrpEnabled(s, t, a)
    ensures !HasLock(s.pcs[t])
  {
  }

  /** The lock, the ring and the holder's point are as before. */
  ghost predicate Undisturbed(s: State, s': State, t: Tid) {
    && t in s.pcs && t in s'.pcs && s'.pcs[t] == s.pcs[t] && s'.sh.lock == s.sh.lock && s'.sh.queue == s.sh.queue
  }

  lemma Outsider(c: Config, s: State, a: Step, t: Tid)
    requires Enabled(c, s, a) && s.sh.lock == Some(t) && t in s.pcs && a.t != t && (a.t in s.pcs ==> !HasLock(s.pcs[a.t]))
    ensures Undisturbed(s, Do(c, s, a), t)
  {
    hide Enabled, Do, Undisturbed;
    if a.Handle? || a.Teardown? { OutsideReply(c, s, a, t); } else { OutsideQueueStep(c, s, a, t); }
  }

  lemma OutsideReply(c: Config, s: State, a: Step, t: Tid)
    requires Enabled(c, s, a) && s.sh.lock == Some(t) && t in s.pcs && a.t != t && (a.t in s.pcs ==> !HasLock(s.pcs[a.t]))
    requires a.Handle? || a.Teardown?
    ensures Undisturbed(s, Do(c, s, a), t)
  {
    hide NoneRunning;
    match a
    case Handle(_, _) =>
    case Teardown(_, _) =>
  }

  lemma OutsideQueueStep(c: Config, s: State, a: Step, t: Tid)
    requires Enabled(c, s, a) && s.sh.lock == Some(t) && t in s.pcs && a.t != t && (a.t in s.pcs ==> !HasLock(s.pcs[a.t]))
    requires !a.Handle? && !a.Teardown?
    ensures Undisturbed(s, Do(c, s, a), t)
  {
    hide CopyFaults, TouchFaults, EncodeHeader;
    match a
    case Spawn(_) =>
    case Build(_, _) =>
    case Submit(_, _) =>
    case Get(_, _) =>
  }

  lemma OthersOutside(c: Config, s: State, t: Tid, u: Tid)
    requires CtlInv(c, s) && s.sh.lock == Some(t) && u in s.pcs && u != t
    ensures !HasLock(s.pcs[u])
  {
  }

  /** Every critical section ends: each step of the lock holder, whichever it is, brings it nearer to the
      release, and no step of another thread takes it back. */
  lemma LockIsReleased(c: Config, s: State, a: Step, t: Tid)
    requires Reachable(c, s) && Enabled(c, s, a) && s.sh.lock == Some(t)
    ensures a.t == t ==> Nearer(c, s, Do(c, s, a), t)
    ensures a.t != t ==> Undisturbed(s, Do(c, s, a), t)
  {
    hide *;
    Families(c, s);
    HolderRuns(c, s);
    if a.t == t {
      HolderStep(c, s, a);
    } else {
      if a.t in s.pcs { OthersOutside(c, s, t, a.t); }
      Outsider(c, s, a, t);
    }
  }
}
