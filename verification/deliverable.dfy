/** Which queued events can still reach the agent. */
module Deliverable {
  import opened Wire
  import opened Protocol
  import opened Buffers
  import opened Control
  import opened Fates
  import opened Requests
  import opened Roles
  import opened Theorems
  import opened Invariant
  import opened Runs
  import opened Progress
  import opened Witness
  import opened Production

  ghost predicate HeadIs(s: State, b: Buf) { s.sh.queue != [] && s.sh.queue[0].data == b }

  /** The lock holder is bound to discard `b`: it is about to push onto a full ring whose oldest event is `b`,
      or to pop `b` for a request that is too small for it. */
  ghost predicate Doomed(c: Config, s: State, b: Buf) {
    && s.sh.lock.Some? && s.sh.lock.value in s.pcs && HeadIs(s, b)
    && var pc := s.pcs[s.sh.lock.value];
    || ((pc.SwapPending? || pc.Pushing?) && |s.sh.queue| == c.capacity)
    || (pc.TryPop? && Outlen(s, pc.irp) < s.sh.queue[0].size)
  }

  ghost predicate Queued(s: State, b: Buf) { exists i :: 0 <= i < |s.sh.queue| && s.sh.queue[i].data == b }

  ghost predicate DeliveredIn(s: State, b: Buf) { b in s.at.buf && s.at.buf[b].Delivered? }

  // ---------------------------------------------------------------- freeing the lock

  /** Thread `h` has popped `b` for a request that has room for it. */
  ghost predicate OnItsWay(s: State, h: Tid, b: Buf) {
    h in s.pcs && s.pcs[h].Popped? && s.pcs[h].ev.data == b && Outlen(s, s.pcs[h].irp) >= s.pcs[h].ev.size
  }

  /** Nobody else has the lock, unloading has not begun, and `b` is queued and not doomed, or on its way. */
  ghost predicate Pending(c: Config, s: State, h: Tid, b: Buf) {
    && s.kern.unloader == None && (s.sh.lock == None || s.sh.lock == Some(h))
    && ((Queued(s, b) && !Doomed(c, s, b)) || OnItsWay(s, h, b))
  }

  lemma TailKeeps(s: State, b: Buf)
    requires Queued(s, b) && !HeadIs(s, b)
    ensures exists i :: 0 <= i < |s.sh.queue[1..]| && s.sh.queue[1..][i].data == b
  {
    var i :| 0 <= i < |s.sh.queue| && s.sh.queue[i].data == b;
    assert s.sh.queue[1..][i - 1].data == b;
  }

  lemma SubmitterReleases(c: Config, s: State, h: Tid, b: Buf) returns (a: SubmitStep)
    requires s.sh.lock == Some(h) && h in s.pcs && s.kern.unloader == None && Queued(s, b) && !Doomed(c, s, b)
    requires Section(c, s.pcs[h], s.sh.queue, s.sh.pending) && |s.sh.queue| <= c.capacity && (s.sh.pending.Some? ==> s.sh.queue == [])
    requires s.pcs[h].SwapPending? || s.pcs[h].Pushing? || s.pcs[h].CountEviction? || s.pcs[h].Pushed?
    ensures SubmitEnabled(c, s, h, a) && Pending(c, DoSubmit(c, s, h, a), h, b)
  {
    var pc := s.pcs[h];
    a := if pc.SwapPending? then DoSwapPending
         else if pc.CountEviction? then DoCountEviction
         else if pc.Pushed? then UnlockPushed
         else if |s.sh.queue| == c.capacity then Evict else Enqueue;
    var s' := DoSubmit(c, s, h, a);
    if a.Evict? {
      TailKeeps(s, b);
    } else if a.Enqueue? {
      var i :| 0 <= i < |s.sh.queue| && s.sh.queue[i].data == b;
      assert s'.sh.queue[i].data == b;
    } else {
      assert s'.sh.queue == s.sh.queue;
    }
  }

  lemma DispatcherReleases(c: Config, s: State, h: Tid, b: Buf) returns (a: GetStep)
    requires s.sh.lock == Some(h) && h in s.pcs && s.kern.unloader == None && Queued(s, b) && !Doomed(c, s, b)
    requires s.pcs[h].TryPop? || s.pcs[h].Popped? || s.pcs[h].ParkedIrp? || s.pcs[h].Rejected?
    ensures GetEnabled(s, h, a) && Pending(c, DoGet(c, s, h, a), h, b)
  {
    var pc := s.pcs[h];
    a := if pc.TryPop? then Pop else if pc.Popped? then UnlockPopped else if pc.ParkedIrp? then UnlockParked else UnlockRejected;
    var s' := DoGet(c, s, h, a);
    if a.Pop? && !HeadIs(s, b) {
      TailKeeps(s, b);
    } else if !a.Pop? {
      assert s'.sh.queue == s.sh.queue;
    }
  }

  lemma QueuedNotEmpty(s: State, b: Buf)
    requires Queued(s, b)
    ensures s.sh.queue != []
  {
  }

  lemma NotUnloading(s: State, t: Tid)
    requires RoleInv(s) && s.kern.unloader == None && t in s.pcs
    ensures !UnloadPc(s.pcs[t])
  {
    assert RoleOk(s, t);
    hide CallbackPc, DispatchPc;
  }

  /** The lock holder takes a step, short of discarding `b`. */
  lemma HolderReleases(c: Config, s: State, h: Tid, b: Buf) returns (a: Step)
    requires CtlInv(c, s) && RoleInv(s) && s.sh.lock == Some(h) && s.kern.unloader == None && Queued(s, b) && !Doomed(c, s, b)
    ensures a.t == h && Enabled(c, s, a) && Pending(c, Do(c, s, a), h, b)
  {
    HolderRuns(c, s) by { hide CtlInv, RoleInv; }
    InSection(c, s, h) by { hide CtlInv, RoleInv; }
    Bounded(c, s) by { hide CtlInv, RoleInv; }
    NotUnloading(s, h) by { hide CtlInv, RoleInv, UnloadPc; }
    QueuedNotEmpty(s, b);
    hide CtlInv, RoleInv, Queued, Doomed, Pending, SubmitEnabled, DoSubmit, GetEnabled, DoGet;
    var pc := s.pcs[h];
    if pc.SwapPending? || pc.Pushing? || pc.CountEviction? || pc.Pushed? {
      var x := SubmitterReleases(c, s, h, b);
      a := Submit(h, x);
    } else {
      var x := DispatcherReleases(c, s, h, b);
      a := Get(h, x);
    }
  }

  lemma {:induction false} FreeLock(c: Config, s0: State, s: State, h: Tid, b: Buf) returns (s': State)
    requires Reachable(c, s) && Leads(c, s0, s) && Pending(c, s, h, b)
    ensures Reachable(c, s') && Leads(c, s0, s') && s'.kern.unloader == None
    ensures (s'.sh.lock == None && Queued(s', b)) || OnItsWay(s', h, b)
    decreases if s.sh.lock == Some(h) && h in s.pcs then HoldLeft(c, s.pcs[h], |s.sh.queue|) else 0
  {
    hide Reachable, Leads, Doomed, Queued, OnItsWay, HoldLeft, Enabled, Do;
    s' := s;
    if s.sh.lock == Some(h) && !OnItsWay(s, h, b) {
      assert CtlInv(c, s) && RoleInv(s) by { hide *; Families(c, s); }
      HolderRuns(c, s) by { hide *; }
      var a := HolderReleases(c, s, h, b) by { hide *; }
      LockIsReleased(c, s, a, h);
      Extends(c, s, a);
      s' := Along(c, s0, s, a);
      Zeroed(c, s', h);
      s' := FreeLock(c, s0, s', h, b);
    }
  }

  lemma Zeroed(c: Config, s: State, h: Tid)
    ensures (if s.sh.lock == Some(h) && h in s.pcs then HoldLeft(c, s.pcs[h], |s.sh.queue|) else 0)
            <= if h in s.pcs then HoldLeft(c, s.pcs[h], |s.sh.queue|) else 0
  {
  }

  // ---------------------------------------------------------------- serving the queue

  lemma Arrives(c: Config, s0: State, s: State, h: Tid, b: Buf) returns (s': State)
    requires Leads(c, s0, s) && OnItsWay(s, h, b)
    ensures Leads(c, s0, s') && DeliveredIn(s', b)
  {
    hide Leads, CopyFaults;
    s' := Along(c, s0, s, Get(h, UnlockPopped));
    s' := Along(c, s0, s', Get(h, Check));
    s' := Along(c, s0, s', Handle(h, SettleFree));
  }

  /** A new thread asks with room for any event, and pops the oldest. */
  lemma AsksAndPops(c: Config, s0: State, s: State) returns (s': State, h: Tid)
    requires Leads(c, s0, s) && s.sh.lock == None && s.kern.unloader == None && s.sh.queue != []
    ensures Leads(c, s0, s') && h in s'.pcs && s'.pcs[h].Popped? && s'.pcs[h].ev == s.sh.queue[0]
    ensures Outlen(s', s'.pcs[h].irp) == LARGEST_EVENT && s'.sh.queue == s.sh.queue[1..] && s'.kern.unloader == None
  {
    hide Leads;
    h := Above(s.pcs.Keys);
    var j := Above(s.io.reqs.Keys);
    s' := Along(c, s0, s, Spawn(h));
    s' := Along(c, s0, s', Handle(h, Arrive(j, GetEvent(LARGEST_EVENT), Zeros(LARGEST_EVENT))));
    s' := Along(c, s0, s', Get(h, LockForGet));
    s' := Along(c, s0, s', Get(h, Pop));
  }

  lemma Unlocks(c: Config, s0: State, s: State, h: Tid) returns (s': State)
    requires Leads(c, s0, s) && h in s.pcs && s.pcs[h].Popped?
    ensures Leads(c, s0, s') && s'.sh.lock == None && s'.sh.queue == s.sh.queue && s'.kern.unloader == s.kern.unloader
  {
    hide Leads;
    s' := Along(c, s0, s, Get(h, UnlockPopped));
  }

  lemma HeadFits(c: Config, s: State)
    requires Reachable(c, s) && s.sh.queue != []
    ensures s.sh.queue[0].size <= LARGEST_EVENT
  {
    Families(c, s) by { hide *; }
    HeadBlock(s) by { hide *; }
    hide Reachable;
  }

  /** With the lock free, requests with room for any event deliver the queue, oldest first. */
  lemma {:induction false} ServeUntil(c: Config, s0: State, s: State, b: Buf) returns (s': State)
    requires Reachable(c, s0) && Leads(c, s0, s) && s.sh.lock == None && s.kern.unloader == None && Queued(s, b)
    ensures Leads(c, s0, s') && DeliveredIn(s', b)
    decreases |s.sh.queue|
  {
    QueuedNotEmpty(s, b);
    LeadsReachable(c, s0, s) by { hide *; }
    HeadFits(c, s) by { hide *; }
    if !HeadIs(s, b) { TailKeeps(s, b); }
    hide Reachable, Leads, Outlen, DeliveredIn;
    var h: Tid;
    s', h := AsksAndPops(c, s0, s);
    if HeadIs(s, b) {
      s' := Arrives(c, s0, s', h, b);
    } else {
      s' := Unlocks(c, s0, s', h);
      s' := ServeUntil(c, s0, s', b);
    }
  }

  lemma CanBeDelivered(c: Config, s: State, b: Buf)
    requires Reachable(c, s) && Queued(s, b) && s.kern.unloader == None && !Doomed(c, s, b)
    ensures exists s' :: Leads(c, s, s') && DeliveredIn(s', b)
  {
    hide Reachable, Leads, Doomed, DeliveredIn, OnItsWay, Queued;
    LeadsNowhere(c, s);
    var h := if s.sh.lock.Some? then s.sh.lock.value else 0;
    var s' := FreeLock(c, s, s, h, b);
    if OnItsWay(s', h, b) {
      s' := Arrives(c, s, s', h, b);
    } else {
      s' := ServeUntil(c, s, s', b);
    }
  }

  // ---------------------------------------------------------------- events that never reach the agent

  /** The thread is about to refuse `b`. */
  ghost predicate Refusing(s: State, pc: Pc, b: Buf) {
    || ((pc.Popped? || pc.Checking?) && pc.ev.data == b && Outlen(s, pc.irp) < pc.ev.size)
    || (pc.Settle? && !pc.fits && pc.ev.data == b)
  }

  /** The thread is bound to discard `b`. */
  ghost predicate Discarding(s: State, pc: Pc, b: Buf) { Refusing(s, pc, b) || (pc.DrainFree? && pc.ev.data == b) }

  /** `b` is discarded, or bound to be. */
  ghost predicate Condemned(c: Config, s: State, b: Buf) {
    && b in s.at.buf
    && match s.at.buf[b] {
         case Evicted => true
         case Refused(_) => true
         case Drained => true
         case Owned(ByThread(t)) => t in s.pcs && Discarding(s, s.pcs[t], b)
         case Owned(ByRing(_)) => Doomed(c, s, b) || s.kern.unloader.Some?
         case _ => false
       }
  }

  /** Requests do not change, and unloading does not end. */
  ghost predicate Ahead(s: State, s': State) {
    && (forall i :: i in s.io.reqs ==> i in s'.io.reqs && s'.io.reqs[i] == s.io.reqs[i])
    && (s.kern.unloader.Some? ==> s'.kern.unloader.Some?)
  }

  lemma StepIsAhead(c: Config, s: State, a: Step)
    requires Enabled(c, s, a)
    ensures Ahead(s, Do(c, s, a))
  {
    hide Enabled, Do;
    if a.Handle? || a.Teardown? { ReplyIsAhead(c, s, a); } else { QueueStepIsAhead(c, s, a); }
  }

  lemma ReplyIsAhead(c: Config, s: State, a: Step)
    requires Enabled(c, s, a) && (a.Handle? || a.Teardown?)
    ensures Ahead(s, Do(c, s, a))
  {
    hide NoneRunning;
    match a
    case Handle(_, _) =>
    case Teardown(_, _) =>
  }

  lemma QueueStepIsAhead(c: Config, s: State, a: Step)
    requires Enabled(c, s, a) && !a.Handle? && !a.Teardown?
    ensures Ahead(s, Do(c, s, a))
  {
    hide CopyFaults, TouchFaults, EncodeHeader;
    match a
    case Spawn(_) =>
    case Build(_, _) =>
    case Submit(_, _) =>
    case Get(_, _) =>
  }

  lemma DispatcherKnown(s: State, t: Tid)
    requires RequestInv(s) && t in s.pcs && (s.pcs[t].TryPop? || s.pcs[t].Popped? || s.pcs[t].Checking?)
    ensures s.pcs[t].irp in s.io.reqs
  {
    RequestFacts(s, t) by { hide RequestInv; }
    hide RequestInv;
  }

  /** A thread bound to discard `b` still is after another thread's step. */
  lemma StillDiscarding(s: State, s': State, t: Tid, b: Buf)
    requires RequestInv(s) && Ahead(s, s') && t in s.pcs && Discarding(s, s.pcs[t], b)
    ensures Discarding(s', s.pcs[t], b)
  {
    if s.pcs[t].Popped? || s.pcs[t].Checking? { DispatcherKnown(s, t) by { hide RequestInv; } }
    hide RequestInv;
  }

  lemma HeldByOther(c: Config, s: State, a: Step, t: Tid, b: Buf)
    requires Enabled(c, s, a) && BufInv(s) && BufInv(Do(c, s, a)) && RequestInv(s) && a.t != t
    requires b in s.at.buf && s.at.buf[b] == Owned(ByThread(t)) && t in s.pcs && Discarding(s, s.pcs[t], b)
    ensures Condemned(c, Do(c, s, a), b)
  {
    var s' := Do(c, s, a);
    assert BufOf(s.pcs[t]).Some? && BufOf(s.pcs[t]).value.data == b;
    StepIsAhead(c, s, a) by { hide *; }
    StillDiscarding(s, s', t, b) by { hide *; }
    OthersLeaveBlock(c, s, t, a) by { hide *; }
    hide BufInv, RequestInv, Enabled, Do, BufOf, Discarding, Ahead;
    OwnBlock(s', t);
  }

  /** Its own step discards `b`, or comes nearer to that. */
  lemma OwnDiscard(c: Config, s: State, a: Step, t: Tid, b: Buf)
    requires Enabled(c, s, a) && a.t == t && t in s.pcs && Discarding(s, s.pcs[t], b)
    requires b in s.at.buf && s.at.buf[b] == Owned(ByThread(t))
    ensures Condemned(c, Do(c, s, a), b)
  {
    hide NoneRunning, CopyFaults, Doomed;
    assert a.Get? || a.Handle? || a.Teardown?;
  }

  /** The lock holder discards a doomed event, or comes nearer to that. */
  lemma HolderDooms(c: Config, s: State, a: Step, b: Buf)
    requires Enabled(c, s, a) && Doomed(c, s, b) && a.t == s.sh.lock.value && (s.sh.pending.Some? ==> s.sh.queue == [])
    requires b in s.at.buf && s.at.buf[b].Owned? && s.at.buf[b].owner.ByRing?
    ensures Condemned(c, Do(c, s, a), b)
  {
    hide NoneRunning, CopyFaults, TouchFaults;
    assert a.Submit? || a.Get?;
  }

  lemma DoomStands(c: Config, s: State, s': State, b: Buf)
    requires Doomed(c, s, b) && RequestInv(s) && Undisturbed(s, s', s.sh.lock.value) && Ahead(s, s')
    ensures Doomed(c, s', b)
  {
    if s.pcs[s.sh.lock.value].TryPop? { DispatcherKnown(s, s.sh.lock.value) by { hide RequestInv; } }
    hide RequestInv;
  }

  lemma DoomedByOther(c: Config, s: State, a: Step, b: Buf)
    requires Enabled(c, s, a) && CtlInv(c, s) && RequestInv(s) && BufInv(Do(c, s, a)) && Doomed(c, s, b)
    requires a.t != s.sh.lock.value
    ensures Condemned(c, Do(c, s, a), b)
  {
    var s', h := Do(c, s, a), s.sh.lock.value;
    if a.t in s.pcs { OthersOutside(c, s, h, a.t) by { hide CtlInv, RequestInv, BufInv, Enabled, Do; } }
    Outsider(c, s, a, h) by { hide CtlInv, RequestInv, BufInv, Enabled, Do; }
    StepIsAhead(c, s, a) by { hide *; }
    DoomStands(c, s, s', b) by { hide CtlInv, RequestInv, BufInv, Enabled, Do, Ahead; }
    hide CtlInv, RequestInv, BufInv, Enabled, Do, Ahead;
    HeadBlock(s');
  }

  // ---------------------------------------------------------------- while unloading

  lemma NotDispatching(s: State, t: Tid)
    requires RoleInv(s) && s.kern.unloader.Some? && t in s.pcs
    ensures s.pcs[t].Idle? || CallbackPc(s.pcs[t]) || UnloadPc(s.pcs[t])
  {
    assert RoleOk(s, t);
    hide CallbackPc, DispatchPc, UnloadPc;
  }

  lemma NoDispatch(c: Config, s: State, a: Step)
    requires RoleInv(s) && s.kern.unloader.Some? && Enabled(c, s, a)
    ensures !a.Get?
  {
    if a.t in s.pcs { NotDispatching(s, a.t) by { hide RoleInv, Enabled; } }
    hide RoleInv, BuildEnabled, SubmitEnabled, IrpEnabled, UnloadEnabled;
  }

  lemma BuildKeepsRing(c: Config, s: State, t: Tid, a: BuildStep, b: Buf)
    requires BufInv(s) && t in s.pcs && BuildEnabled(s, t, a) && b in s.at.buf && s.at.buf[b].Owned? && s.at.buf[b].owner.ByRing?
    ensures b in DoBuild(s, t, a).at.buf && DoBuild(s, t, a).at.buf[b] == s.at.buf[b]
  {
    hide BufInv, EncodeHeader;
    NextIsNew(s);
  }

  lemma SubmitKeepsRing(c: Config, s: State, t: Tid, a: SubmitStep, b: Buf)
    requires BufInv(s) && t in s.pcs && SubmitEnabled(c, s, t, a) && b in s.at.buf && s.at.buf[b].Owned? && s.at.buf[b].owner.ByRing?
    ensures var s' := DoSubmit(c, s, t, a); b in s'.at.buf && (s'.at.buf[b] == s.at.buf[b] || s'.at.buf[b].Evicted?)
  {
    hide BufInv, CopyFaults, TouchFaults;
    if a.Enqueue? { OwnBlock(s, t); }
  }

  lemma IrpKeepsRing(s: State, t: Tid, a: IrpStep, b: Buf)
    requires BufInv(s) && t in s.pcs && IrpEnabled(s, t, a) && b in s.at.buf && s.at.buf[b].Owned? && s.at.buf[b].owner.ByRing?
    ensures b in DoIrp(s, t, a).at.buf && DoIrp(s, t, a).at.buf[b] == s.at.buf[b]
  {
    hide BufInv;
    if a.SettleFree? { OwnBlock(s, t); }
  }

  lemma UnloadKeepsRing(s: State, t: Tid, a: UnloadStep, b: Buf)
    requires BufInv(s) && t in s.pcs && UnloadEnabled(s, t, a) && b in s.at.buf && s.at.buf[b].Owned? && s.at.buf[b].owner.ByRing?
    ensures var s' := DoUnload(s, t, a);
            && b in s'.at.buf
            && (s'.at.buf[b] == s.at.buf[b]
                || (s'.at.buf[b] == Owned(ByThread(t)) && t in s'.pcs && s'.pcs[t].DrainFree? && s'.pcs[t].ev.data == b))
  {
    hide BufInv, NoneRunning;
    if a.DoDrainFree? { OwnBlock(s, t); }
  }

  lemma RingWhileUnloading(c: Config, s: State, a: Step, b: Buf)
    requires BufInv(s) && RoleInv(s) && s.kern.unloader.Some? && Enabled(c, s, a)
    requires b in s.at.buf && s.at.buf[b].Owned? && s.at.buf[b].owner.ByRing?
    ensures Condemned(c, Do(c, s, a), b)
  {
    NoDispatch(c, s, a) by { hide RoleInv, BufInv, Enabled; }
    StepIsAhead(c, s, a) by { hide *; }
    hide BufInv, RoleInv, Doomed, BuildEnabled, DoBuild, SubmitEnabled, DoSubmit, IrpEnabled, DoIrp, UnloadEnabled, DoUnload;
    match a
    case Spawn(_) =>
    case Build(t, x) => BuildKeepsRing(c, s, t, x, b);
    case Submit(t, x) => SubmitKeepsRing(c, s, t, x, b);
    case Handle(t, x) => IrpKeepsRing(s, t, x, b);
    case Teardown(t, x) => UnloadKeepsRing(s, t, x, b);
  }

  // ---------------------------------------------------------------- both directions

  lemma DecidedStays(c: Config, s: State, a: Step, b: Buf)
    requires BufInv(s) && Enabled(c, s, a) && Condemned(c, s, b) && !s.at.buf[b].Owned?
    ensures Condemned(c, Do(c, s, a), b)
  {
    StepKeepsFates(c, s, a) by { hide *; }
    hide BufInv, Enabled, Do, Doomed;
  }

  lemma StepCondemned(c: Config, s: State, a: Step, b: Buf)
    requires BufInv(s) && CtlInv(c, s) && RequestInv(s) && RoleInv(s)
    requires Enabled(c, s, a) && BufInv(Do(c, s, a)) && Condemned(c, s, b)
    ensures Condemned(c, Do(c, s, a), b)
  {
    Bounded(c, s) by { hide *; }
    hide BufInv, CtlInv, RequestInv, RoleInv, Enabled, Do, Doomed, Discarding;
    if !s.at.buf[b].Owned? {
      DecidedStays(c, s, a, b);
    } else if s.at.buf[b].owner.ByThread? {
      var t := s.at.buf[b].owner.t;
      if a.t == t { OwnDiscard(c, s, a, t, b); } else { HeldByOther(c, s, a, t, b); }
    } else if s.kern.unloader.Some? {
      RingWhileUnloading(c, s, a, b);
    } else {
      DoomedLocked(c, s, b);
      if a.t == s.sh.lock.value { HolderDooms(c, s, a, b); } else { DoomedByOther(c, s, a, b); }
    }
  }

  lemma DoomedLocked(c: Config, s: State, b: Buf)
    requires Doomed(c, s, b)
    ensures s.sh.lock.Some?
  {
  }

  lemma InvParts(c: Config, s: State)
    requires Inv(c, s)
    ensures BufInv(s) && CtlInv(c, s) && RequestInv(s) && RoleInv(s)
  {
    hide BufInv, CtlInv, RequestInv, RoleInv;
  }

  lemma {:induction false} PathCondemned(c: Config, states: seq<State>, steps: seq<Step>, k: nat, b: Buf)
    requires IsPath(c, states, steps) && Inv(c, states[0]) && Condemned(c, states[0], b) && k <= |steps|
    ensures Inv(c, states[k]) && Condemned(c, states[k], b)
  {
    hide Enabled, Do, Inv, Condemned;
    if k > 0 {
      PathCondemned(c, states, steps, k - 1, b);
      StepKeepsInv(c, states[k - 1], steps[k - 1]);
      InvParts(c, states[k - 1]);
      InvParts(c, states[k]);
      StepCondemned(c, states[k - 1], steps[k - 1], b);
    }
  }

  lemma NeverDelivered(c: Config, s: State, s': State, b: Buf)
    requires Reachable(c, s) && Condemned(c, s, b) && Leads(c, s, s')
    ensures !DeliveredIn(s', b)
  {
    ReachableHolds(c, s) by { hide *; }
    hide Reachable, Enabled, Do, Inv, Doomed, Discarding;
    var states: seq<State>, steps: seq<Step> :| IsPath(c, states, steps) && states[0] == s && states[|steps|] == s';
    PathCondemned(c, states, steps, |steps|, b);
  }

  lemma QueuedPlace(c: Config, s: State, b: Buf)
    requires Reachable(c, s) && Queued(s, b)
    ensures b in s.at.buf && s.at.buf[b].Owned? && s.at.buf[b].owner.ByRing?
  {
    Families(c, s) by { hide *; }
    hide Reachable;
    var i :| 0 <= i < |s.sh.queue| && s.sh.queue[i].data == b;
    RingSlot(s, i) by { hide BufInv; }
    hide BufInv;
  }

  /** A queued event can still reach the agent, along some path, if and only if unloading has not begun and the
      lock holder is not just about to evict it or to pop it for a request that is too small. */
  lemma QueuedDeliverableIff(c: Config, s: State, b: Buf)
    requires Reachable(c, s) && Queued(s, b)
    ensures (exists s' :: Leads(c, s, s') && DeliveredIn(s', b)) <==> s.kern.unloader == None && !Doomed(c, s, b)
  {
    QueuedPlace(c, s, b) by { hide *; }
    hide Reachable, Leads, Queued, Doomed, DeliveredIn, Discarding;
    if s.kern.unloader == None && !Doomed(c, s, b) {
      CanBeDelivered(c, s, b);
    } else {
      assert Condemned(c, s, b);
      forall s' | Leads(c, s, s') ensures !DeliveredIn(s', b) { NeverDelivered(c, s, s', b); }
    }
  }
}
