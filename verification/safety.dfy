/** No step frees a block twice, reads or writes a freed one, overruns a buffer, completes an IRP twice
    or touches a completed one, except that the late pending mark may come after the completion. */
module Safety {
  import opened Wire
  import opened Protocol
  import opened Buffers
  import opened Irps
  import opened Control
  import opened Fates
  import opened Contents
  import opened Requests
  import opened Delivery

  ghost predicate FaultInv(c: Config, s: State) {
    forall f :: f in s.faults ==> f.MarkAfterCompletion? && !c.markFirst
  }

  lemma WriteInBounds(s: State, ev: Slot, off: nat, data: seq<byte>)
    requires SlotOk(s, ev) && off + |data| <= ev.size
    ensures WriteBlock(s, ev.data, off, data).faults == s.faults
  {
  }

  lemma BuildIsSafe(c: Config, s: State, t: Tid, a: BuildStep)
    requires FaultInv(c, s) && BufInv(s) && t in s.pcs && BuildEnabled(s, t, a)
    ensures FaultInv(c, DoBuild(s, t, a))
  {
    hide FaultInv, BufInv, WriteBlock;
    var s' := DoBuild(s, t, a);
    assert s'.faults == s.faults by {
      match a
      case DoStampTrunc(ts) =>
        OwnBlock(s, t);
        WriteInBounds(s, s.pcs[t].ev, 0, EncodeHeader(HeaderOf(s, s.pcs[t], ts)));
      case WriteField(off, data) => OwnBlock(s, t); WriteInBounds(s, s.pcs[t].ev, off, data);
      case _ =>
    }
    SameFaults(c, s, s');
  }

  lemma SameFaults(c: Config, s: State, s': State)
    requires FaultInv(c, s) && s'.faults == s.faults
    ensures FaultInv(c, s')
  {
  }

  lemma SubmitIsSafe(c: Config, s: State, t: Tid, a: SubmitStep)
    requires FaultInv(c, s) && BufInv(s) && IrpInv(s) && StageInv(s) && ContentInv(s) && RequestInv(s)
    requires t in s.pcs && SubmitEnabled(c, s, t, a)
    ensures FaultInv(c, DoSubmit(c, s, t, a))
  {
    hide FaultInv, BufInv, IrpInv, StageInv, ContentInv, RequestInv, CopyFaults, CopyOut, MainIrp;
    var s' := DoSubmit(c, s, t, a);
    assert s'.faults == s.faults by {
      match a
      case Decide =>
        ReadyToCopy(s, t);
        if s'.pcs[t].fits { CopyFits(s, s.pcs[t].ev, s.pcs[t].irp); }
      case Evict => HeadBlock(s);
      case _ =>
    }
    SameFaults(c, s, s');
  }

  lemma GetIsSafe(c: Config, s: State, t: Tid, a: GetStep)
    requires FaultInv(c, s) && BufInv(s) && IrpInv(s) && CtlInv(c, s) && StageInv(s) && ContentInv(s) && RequestInv(s)
    requires t in s.pcs && GetEnabled(s, t, a)
    ensures FaultInv(c, DoGet(c, s, t, a))
  {
    hide BufInv, IrpInv, CtlInv, StageInv, ContentInv, RequestInv, CopyFaults, CopyOut;
    var s' := DoGet(c, s, t, a);
    if a.DoMarkLate? {
      NoLateMark(c, s, t);
    } else {
      assert s'.faults == s.faults by {
        match a
        case Check =>
          ReadyToCopy(s, t);
          if s'.pcs[t].fits { CopyFits(s, s.pcs[t].ev, s.pcs[t].irp); }
        case DoMarkEarly => OwnIrp(s, t);
        case _ =>
      }
    }
  }

  lemma NoLateMark(c: Config, s: State, t: Tid)
    requires CtlInv(c, s) && t in s.pcs && s.pcs[t].MarkLate?
    ensures !c.markFirst
  {
  }

  lemma IrpIsSafe(c: Config, s: State, t: Tid, a: IrpStep)
    requires FaultInv(c, s) && BufInv(s) && IrpInv(s) && t in s.pcs && IrpEnabled(s, t, a)
    ensures FaultInv(c, DoIrp(s, t, a))
  {
    hide FaultInv, BufInv, IrpInv;
    var s' := DoIrp(s, t, a);
    assert s'.faults == s.faults by {
      match a
      case SettleFree => OwnBlock(s, t);
      case DoFinish => OwnIrp(s, t);
      case DoReply => OwnIrp(s, t);
      case DoCleanupCancel => ExtraUncompleted(s, t);
      case _ =>
    }
    SameFaults(c, s, s');
  }

  lemma UnloadIsSafe(c: Config, s: State, t: Tid, a: UnloadStep)
    requires FaultInv(c, s) && BufInv(s) && IrpInv(s) && t in s.pcs && UnloadEnabled(s, t, a)
    ensures FaultInv(c, DoUnload(s, t, a))
  {
    hide FaultInv, BufInv, IrpInv, NoneRunning;
    var s' := DoUnload(s, t, a);
    assert s'.faults == s.faults by {
      match a
      case DoDrainFree => OwnBlock(s, t);
      case DoUnloadCancel => OwnIrp(s, t);
      case _ =>
    }
    SameFaults(c, s, s');
  }
}

/** Which routine each thread runs, and the teardown order of `driver_unload`. */
module Roles {
  import opened Wire
  import opened Protocol
  import opened Buffers

  predicate CallbackPc(pc: Pc) {
    || pc.InCallback? || pc.CountOom? || pc.StampDrop? || pc.StampTrunc? || pc.Filling? || pc.SwapPending?
    || pc.HavePending? || pc.Decided? || pc.Pushing? || pc.CountEviction? || pc.Pushed? || SettlePc(pc)
  }

  predicate SettlePc(pc: Pc) { pc.Settle? || pc.CountRefusal? || pc.Finish? }

  predicate DispatchPc(pc: Pc) {
    || SettlePc(pc) || pc.GetLock? || pc.TryPop? || pc.Popped? || pc.Checking? || pc.MarkEarly? || pc.Park?
    || pc.ParkedIrp? || pc.MarkLate? || pc.Rejected? || pc.Reply? || pc.CleanupSwap? || pc.CleanupCancel?
  }

  predicate UnloadPc(pc: Pc) {
    pc.Deregister? || pc.UnloadSwap? || pc.UnloadCancel? || pc.UnloadLock? || pc.Drain? || pc.DrainFree? || pc.Unloaded?
  }

  /** Past the swap of the pending slot. */
  predicate Swapped(pc: Pc) { UnloadPc(pc) && !pc.Deregister? && !pc.UnloadSwap? }

  ghost predicate RoleOk(s: State, t: Tid)
    requires t in s.pcs
  {
    var pc := s.pcs[t];
    !pc.Idle? ==>
      && t in s.kern.roles
      && match s.kern.roles[t] {
           case Callback(source) => CallbackPc(pc) && source in s.kern.registered
           case Dispatch => DispatchPc(pc) && s.kern.unloader == None
           case Unload => UnloadPc(pc) && s.kern.unloader == Some(t)
         }
  }

  /** The recorded callbacks before position `k` of the unload order are removed. */
  ghost predicate RemovedUpTo(s: State, k: nat) {
    forall j :: 0 <= j < k && Removing(s, j) ==> UnloadOrder(j) !in s.kern.registered
  }

  /** Every registered callback is recorded. */
  ghost predicate Tracked(s: State) { s.kern.registered <= s.kern.recorded }

  ghost predicate RoleInv(s: State) {
    && (forall t :: t in s.pcs ==> RoleOk(s, t))
    && (s.kern.unloader.Some? ==>
          var u := s.kern.unloader.value;
          && u in s.pcs && UnloadPc(s.pcs[u])
          && (s.pcs[u].Deregister? ==> RemovedUpTo(s, s.pcs[u].k))
          && (!s.pcs[u].Deregister? ==> RemovedUpTo(s, CLASSES))
          && (Tracked(s) && Swapped(s.pcs[u]) ==> s.sh.pending == None)
          && (Tracked(s) && s.pcs[u].Unloaded? ==> s.sh.queue == []))
  }

  /** Once every callback is removed, only the unloading thread runs. */
  lemma Quiet(s: State, t: Tid)
    requires RoleInv(s) && Tracked(s) && s.kern.unloader.Some? && t in s.pcs && t != s.kern.unloader.value
    requires !s.pcs[s.kern.unloader.value].Deregister?
    ensures s.pcs[t].Idle?
    ensures s.kern.registered == {}
  {
    assert RoleOk(s, t);
    AllRemoved(s);
  }

  lemma AllRemoved(s: State)
    requires RemovedUpTo(s, CLASSES) && Tracked(s)
    ensures s.kern.registered == {}
  {
    forall x | x in s.kern.registered ensures false {
      var j := UnloadRank(x);
      assert Removing(s, j) && UnloadOrder(j) == x;
    }
  }

  /** The position of a class in the unload order. */
  function UnloadRank(x: Class): (j: nat)
    ensures j < CLASSES && UnloadOrder(j) == x
  {
    match x
    case Object => 0
    case Thread => 1
    case Registry => 2
    case Image => 3
    case Process => 4
  }

  /** What a callback or a dispatch routine does at a step: it goes on, or ends. */
  predicate GoesOn(pc: Pc, pc': Pc) {
    && !pc.Idle? && !UnloadPc(pc)
    && (pc'.Idle? || ((CallbackPc(pc) ==> CallbackPc(pc')) && (DispatchPc(pc) ==> DispatchPc(pc')) && !UnloadPc(pc')))
  }

  lemma SameRoles(s: State, s': State, t: Tid)
    requires RoleInv(s) && Moves(s, s', t) && t in s.pcs && s'.kern == s.kern && GoesOn(s.pcs[t], s'.pcs[t])
    ensures RoleInv(s')
  {
    assert RoleOk(s, t);
    if Tracked(s) && s.kern.unloader.Some? && t != s.kern.unloader.value && !s.pcs[s.kern.unloader.value].Deregister? {
      Quiet(s, t);
    }
    hide CallbackPc, DispatchPc, RemovedUpTo;
    forall u | u in s'.pcs ensures RoleOk(s', u) {
      if u != t { assert RoleOk(s, u); }
    }
  }

  lemma StartsCallback(s: State, s': State, t: Tid, source: Class)
    requires RoleInv(s) && Moves(s, s', t) && t in s.pcs && s.pcs[t].Idle? && s'.pcs[t].InCallback?
    requires source in s.kern.registered && s'.kern == s.kern.(roles := s.kern.roles[t := Callback(source)])
    requires s'.sh == s.sh
    ensures RoleInv(s')
  {
    hide RemovedUpTo;
    forall u | u in s'.pcs ensures RoleOk(s', u) {
      if u != t { assert RoleOk(s, u); }
    }
    assert forall k :: RemovedUpTo(s, k) ==> RemovedUpTo(s', k) by { SameRemoved(s, s'); }
  }

  lemma SameRemoved(s: State, s': State)
    requires s'.kern.registered <= s.kern.registered && s'.kern.recorded == s.kern.recorded
    ensures forall k :: RemovedUpTo(s, k) ==> RemovedUpTo(s', k)
  {
  }

  lemma StartsDispatch(s: State, s': State, t: Tid)
    requires RoleInv(s) && Moves(s, s', t) && t in s.pcs && s.pcs[t].Idle? && DispatchPc(s'.pcs[t])
    requires s.kern.unloader == None && s'.kern == s.kern.(roles := s.kern.roles[t := Dispatch])
    ensures RoleInv(s')
  {
    forall u | u in s'.pcs ensures RoleOk(s', u) {
      if u != t { assert RoleOk(s, u); }
    }
  }

  lemma BuildKeepsRoles(s: State, t: Tid, a: BuildStep)
    requires RoleInv(s) && t in s.pcs && BuildEnabled(s, t, a)
    ensures RoleInv(DoBuild(s, t, a))
  {
    hide RoleInv, EncodeHeader;
    var s' := DoBuild(s, t, a);
    if a.StartCallback? { StartsCallback(s, s', t, a.source); } else { SameRoles(s, s', t); }
  }

  lemma SubmitKeepsRoles(c: Config, s: State, t: Tid, a: SubmitStep)
    requires RoleInv(s) && t in s.pcs && SubmitEnabled(c, s, t, a)
    ensures RoleInv(DoSubmit(c, s, t, a))
  {
    hide *;
    if Pushes(a) { PushKeepsRoles(c, s, t, a); } else { HandOverKeepsRoles(c, s, t, a); }
  }

  lemma PushKeepsRoles(c: Config, s: State, t: Tid, a: SubmitStep)
    requires RoleInv(s) && t in s.pcs && SubmitEnabled(c, s, t, a) && Pushes(a)
    ensures RoleInv(DoSubmit(c, s, t, a))
  {
    hide RoleInv;
    SameRoles(s, DoSubmit(c, s, t, a), t);
  }

  lemma HandOverKeepsRoles(c: Config, s: State, t: Tid, a: SubmitStep)
    requires RoleInv(s) && t in s.pcs && SubmitEnabled(c, s, t, a) && !Pushes(a)
    ensures RoleInv(DoSubmit(c, s, t, a))
  {
    hide RoleInv, CopyFaults, TouchFaults;
    SameRoles(s, DoSubmit(c, s, t, a), t);
  }

  lemma GetKeepsRoles(c: Config, s: State, t: Tid, a: GetStep)
    requires RoleInv(s) && t in s.pcs && GetEnabled(s, t, a)
    ensures RoleInv(DoGet(c, s, t, a))
  {
    hide *;
    if Parks(a) { ParkKeepsRoles(c, s, t, a); } else { FetchKeepsRoles(c, s, t, a); }
  }

  lemma ParkKeepsRoles(c: Config, s: State, t: Tid, a: GetStep)
    requires RoleInv(s) && t in s.pcs && GetEnabled(s, t, a) && Parks(a)
    ensures RoleInv(DoGet(c, s, t, a))
  {
    hide RoleInv;
    SameRoles(s, DoGet(c, s, t, a), t);
  }

  lemma FetchKeepsRoles(c: Config, s: State, t: Tid, a: GetStep)
    requires RoleInv(s) && t in s.pcs && GetEnabled(s, t, a) && !Parks(a)
    ensures RoleInv(DoGet(c, s, t, a))
  {
    hide RoleInv, CopyFaults;
    SameRoles(s, DoGet(c, s, t, a), t);
  }

  lemma IrpKeepsRoles(s: State, t: Tid, a: IrpStep)
    requires RoleInv(s) && t in s.pcs && IrpEnabled(s, t, a)
    ensures RoleInv(DoIrp(s, t, a))
  {
    hide *;
    if Settles(a) { SettleKeepsRoles(s, t, a); } else { DispatchKeepsRoles(s, t, a); }
  }

  lemma SettleKeepsRoles(s: State, t: Tid, a: IrpStep)
    requires RoleInv(s) && t in s.pcs && IrpEnabled(s, t, a) && Settles(a)
    ensures RoleInv(DoIrp(s, t, a))
  {
    hide RoleInv;
    SameRoles(s, DoIrp(s, t, a), t);
  }

  lemma DispatchKeepsRoles(s: State, t: Tid, a: IrpStep)
    requires RoleInv(s) && t in s.pcs && IrpEnabled(s, t, a) && !Settles(a)
    ensures RoleInv(DoIrp(s, t, a))
  {
    hide RoleInv;
    var s' := DoIrp(s, t, a);
    if a.Arrive? { StartsDispatch(s, s', t); } else { SameRoles(s, s', t); }
  }

  // ---------------------------------------------------------------- the unloading thread

  lemma Unloader(s: State, t: Tid)
    requires RoleInv(s) && t in s.pcs && UnloadPc(s.pcs[t])
    ensures s.kern.unloader == Some(t)
    ensures s.pcs[t].Deregister? ==> RemovedUpTo(s, s.pcs[t].k)
    ensures !s.pcs[t].Deregister? ==> RemovedUpTo(s, CLASSES)
    ensures Tracked(s) && Swapped(s.pcs[t]) ==> s.sh.pending == None
  {
    assert RoleOk(s, t);
    hide RemovedUpTo;
  }

  lemma StartsUnload(s: State, s': State, t: Tid)
    requires RoleInv(s) && Moves(s, s', t) && t in s.pcs && s.pcs[t].Idle? && s'.pcs[t] == Deregister(0)
    requires s.kern.unloader == None && NoneRunning(s, Dispatch)
    requires s'.kern == s.kern.(roles := s.kern.roles[t := Unload], unloader := Some(t))
    ensures RoleInv(s')
  {
    forall u | u in s'.pcs ensures RoleOk(s', u) {
      if u != t { assert RoleOk(s, u); }
    }
  }

  /** The kernel has waited for the callbacks of the class being removed. */
  lemma Removes(s: State, s': State, t: Tid, k: nat)
    requires RoleInv(s) && Moves(s, s', t) && t in s.pcs && s.pcs[t] == Deregister(k) && Removing(s, k)
    requires s'.pcs[t] == Deregister(k + 1) && NoneRunning(s, Callback(UnloadOrder(k)))
    requires s'.kern == s.kern.(registered := s.kern.registered - {UnloadOrder(k)})
    ensures RoleInv(s')
  {
    Unloader(s, t);
    assert RemovedUpTo(s', k + 1);
    hide UnloadOrder, RemovedUpTo, CallbackPc, DispatchPc;
    forall u | u in s'.pcs ensures RoleOk(s', u) {
      assert RoleOk(s, u);
    }
  }

  /** Nothing is recorded for the class. */
  lemma Skips(s: State, s': State, t: Tid, k: nat)
    requires RoleInv(s) && Moves(s, s', t) && t in s.pcs && s.pcs[t] == Deregister(k) && !Removing(s, k)
    requires s'.pcs[t] == Deregister(k + 1) && s'.kern == s.kern
    ensures RoleInv(s')
  {
    Unloader(s, t);
    assert RemovedUpTo(s', k + 1);
    hide UnloadOrder, RemovedUpTo, CallbackPc, DispatchPc;
    forall u | u in s'.pcs ensures RoleOk(s', u) {
      assert RoleOk(s, u);
    }
  }

  /** The unloading thread goes on: the rest of its conditions follow from its own steps. */
  lemma UnloaderMoves(s: State, s': State, t: Tid)
    requires RoleInv(s) && Moves(s, s', t) && t in s.pcs && UnloadPc(s.pcs[t]) && UnloadPc(s'.pcs[t]) && s'.kern == s.kern
    requires !s'.pcs[t].Deregister? && RemovedUpTo(s, CLASSES)
    requires Tracked(s) && Swapped(s'.pcs[t]) ==> s'.sh.pending == None
    requires Tracked(s) && s'.pcs[t].Unloaded? ==> s'.sh.queue == []
    ensures RoleInv(s')
  {
    Unloader(s, t);
    SameRemoved(s, s');
    hide UnloadOrder, RemovedUpTo, CallbackPc, DispatchPc;
    forall u | u in s'.pcs ensures RoleOk(s', u) {
      assert RoleOk(s, u);
    }
  }

  lemma LastRemoved(s: State, k: nat)
    requires RemovedUpTo(s, k) && k >= CLASSES
    ensures RemovedUpTo(s, CLASSES)
  {
  }

  lemma UnloadKeepsRoles(s: State, t: Tid, a: UnloadStep)
    requires RoleInv(s) && t in s.pcs && UnloadEnabled(s, t, a)
    ensures RoleInv(DoUnload(s, t, a))
  {
    hide RoleInv, NoneRunning, RemovedUpTo, UnloadOrder;
    var s' := DoUnload(s, t, a);
    if a.StartUnload? {
      StartsUnload(s, s', t);
    } else {
      Unloader(s, t);
      if a.DoDeregister? && Removing(s, s.pcs[t].k) {
        Removes(s, s', t, s.pcs[t].k);
      } else if a.DoDeregister? && s.pcs[t].k < CLASSES {
        Skips(s, s', t, s.pcs[t].k);
      } else {
        if a.DoDeregister? { LastRemoved(s, s.pcs[t].k); }
        UnloaderMoves(s, s', t);
      }
    }
  }
}
