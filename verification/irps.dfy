/** Responsibility for IRPs: an IRP that is not completed belongs to exactly one of its dispatcher, the
    pending slot and one taker. */
module Irps {
  import opened Wire
  import opened Protocol
  import opened Buffers

  function MainIrp(pc: Pc): Option<Irp> {
    match pc
    case HavePending(_, irp) => Some(irp)
    case Decided(_, irp, _) => Some(irp)
    case Settle(_, irp, _) => Some(irp)
    case CountRefusal(_, irp) => Some(irp)
    case Finish(_, irp, _) => Some(irp)
    case GetLock(irp) => Some(irp)
    case TryPop(irp) => Some(irp)
    case Popped(_, irp) => Some(irp)
    case Checking(_, irp) => Some(irp)
    case MarkEarly(irp) => Some(irp)
    case Park(irp) => Some(irp)
    case Rejected(irp) => Some(irp)
    case Reply(irp, _) => Some(irp)
    case CleanupSwap(irp) => Some(irp)
    case CleanupCancel(irp, _) => Some(irp)
    case UnloadCancel(irp) => Some(irp)
    case _ => None
  }

  function ExtraIrp(pc: Pc): Option<Irp> {
    if pc.CleanupCancel? then Some(pc.taken) else None
  }

  /** The IRP an owner is responsible for. */
  function IrpOf(s: State, o: IrpOwner): Option<Irp> {
    match o
    case PendingSlot => s.sh.pending
    case Main(t) => if t in s.pcs then MainIrp(s.pcs[t]) else None
    case Extra(t) => if t in s.pcs then ExtraIrp(s.pcs[t]) else None
  }

  /** Owners and places agree in both directions; the completed IRPs are those whose place is `Done`. */
  ghost predicate IrpInv(s: State) {
    && (forall o :: IrpOf(s, o).Some? ==> IrpOf(s, o).value in s.at.irp && s.at.irp[IrpOf(s, o).value] == HeldBy(o))
    && (forall i :: i in s.at.irp && s.at.irp[i].HeldBy? ==> IrpOf(s, s.at.irp[i].holder) == Some(i))
    && (forall i :: i in s.at.irp <==> i in s.io.reqs)
    && (forall i :: i in s.io.completed <==> i in s.at.irp && s.at.irp[i] == Done)
  }

  /** `s'` differs from `s` at most in the IRPs of the two owners. */
  ghost predicate OnlyOwners(s: State, s': State, o1: IrpOwner, o2: IrpOwner) {
    forall o :: o != o1 && o != o2 ==> IrpOf(s', o) == IrpOf(s, o)
  }

  lemma OtherOwners(s: State, s': State, t: Tid)
    requires Moves(s, s', t)
    ensures forall o :: o != Main(t) && o != Extra(t) && o != PendingSlot ==> IrpOf(s', o) == IrpOf(s, o)
    ensures IrpOf(s', Main(t)) == MainIrp(s'.pcs[t]) && IrpOf(s', Extra(t)) == ExtraIrp(s'.pcs[t])
  {
  }

  // ---------------------------------------------------------------- the four moves of an IRP

  lemma Stays(s: State, s': State)
    requires IrpInv(s) && (forall o :: IrpOf(s', o) == IrpOf(s, o))
    requires s'.at.irp == s.at.irp && s'.io.reqs == s.io.reqs && s'.io.completed == s.io.completed
    ensures IrpInv(s')
  {
    hide IrpOf;
  }

  lemma Passes(s: State, s': State, o: IrpOwner, o': IrpOwner)
    requires IrpInv(s) && OnlyOwners(s, s', o, o') && o != o'
    requires IrpOf(s, o).Some? && IrpOf(s, o') == None && IrpOf(s', o) == None && IrpOf(s', o') == IrpOf(s, o)
    requires s'.at.irp == s.at.irp[IrpOf(s, o).value := HeldBy(o')]
    requires s'.io.reqs == s.io.reqs && s'.io.completed == s.io.completed
    ensures IrpInv(s')
  {
    hide IrpOf;
  }

  lemma Enters(s: State, s': State, o: IrpOwner, irp: Irp, req: Request)
    requires IrpInv(s) && OnlyOwners(s, s', o, o) && irp !in s.io.reqs
    requires IrpOf(s, o) == None && IrpOf(s', o) == Some(irp)
    requires s'.at.irp == s.at.irp[irp := HeldBy(o)]
    requires s'.io.reqs == s.io.reqs[irp := req] && s'.io.completed == s.io.completed
    ensures IrpInv(s')
  {
    hide IrpOf;
  }

  lemma Leaves(s: State, s': State, o: IrpOwner, done: Completion)
    requires IrpInv(s) && OnlyOwners(s, s', o, o)
    requires IrpOf(s, o).Some? && IrpOf(s', o) == None
    requires s'.at.irp == s.at.irp[IrpOf(s, o).value := Done]
    requires s'.io.reqs == s.io.reqs && s'.io.completed == s.io.completed[IrpOf(s, o).value := done]
    ensures IrpInv(s')
  {
    hide IrpOf;
  }

  // ---------------------------------------------------------------- every step is one of them

  lemma SameIrps(s: State, s': State, t: Tid)
    requires IrpInv(s) && Moves(s, s', t)
    requires MainIrp(s'.pcs[t]) == if t in s.pcs then MainIrp(s.pcs[t]) else None
    requires ExtraIrp(s'.pcs[t]) == if t in s.pcs then ExtraIrp(s.pcs[t]) else None
    requires s'.sh.pending == s.sh.pending && s'.at.irp == s.at.irp
    requires s'.io.reqs == s.io.reqs && s'.io.completed == s.io.completed
    ensures IrpInv(s')
  {
    hide IrpInv, MainIrp, ExtraIrp;
    OtherOwners(s, s', t);
    Stays(s, s');
  }

  lemma PendingTaken(s: State, s': State, t: Tid, o: IrpOwner)
    requires IrpInv(s) && Moves(s, s', t) && t in s.pcs && s.sh.pending.Some? && s'.sh.pending == None
    requires o == Main(t) || o == Extra(t)
    requires IrpOf(s, o) == None && IrpOf(s', o) == s.sh.pending
    requires o.Main? ==> ExtraIrp(s'.pcs[t]) == ExtraIrp(s.pcs[t])
    requires o.Extra? ==> MainIrp(s'.pcs[t]) == MainIrp(s.pcs[t])
    requires s'.at.irp == s.at.irp[s.sh.pending.value := HeldBy(o)]
    requires s'.io.reqs == s.io.reqs && s'.io.completed == s.io.completed
    ensures IrpInv(s')
  {
    hide IrpInv, MainIrp, ExtraIrp;
    OtherOwners(s, s', t);
    Passes(s, s', PendingSlot, o);
  }

  lemma PutInSlot(s: State, s': State, t: Tid)
    requires IrpInv(s) && Moves(s, s', t) && t in s.pcs
    requires s.sh.pending == None && s'.sh.pending == MainIrp(s.pcs[t]) && s'.sh.pending.Some?
    requires MainIrp(s'.pcs[t]) == None && ExtraIrp(s'.pcs[t]) == ExtraIrp(s.pcs[t])
    requires s'.at.irp == s.at.irp[s'.sh.pending.value := HeldBy(PendingSlot)]
    requires s'.io.reqs == s.io.reqs && s'.io.completed == s.io.completed
    ensures IrpInv(s')
  {
    hide IrpInv, MainIrp, ExtraIrp;
    OtherOwners(s, s', t);
    Passes(s, s', Main(t), PendingSlot);
  }

  lemma Arrived(s: State, s': State, t: Tid, irp: Irp, req: Request)
    requires IrpInv(s) && Moves(s, s', t) && t in s.pcs && irp !in s.io.reqs
    requires MainIrp(s.pcs[t]) == None && MainIrp(s'.pcs[t]) == Some(irp)
    requires ExtraIrp(s'.pcs[t]) == ExtraIrp(s.pcs[t])
    requires s'.sh.pending == s.sh.pending && s'.at.irp == s.at.irp[irp := HeldBy(Main(t))]
    requires s'.io.reqs == s.io.reqs[irp := req] && s'.io.completed == s.io.completed
    ensures IrpInv(s')
  {
    hide IrpInv, MainIrp, ExtraIrp;
    OtherOwners(s, s', t);
    Enters(s, s', Main(t), irp, req);
  }

  lemma Completed(s: State, s': State, t: Tid, o: IrpOwner, done: Completion)
    requires IrpInv(s) && Moves(s, s', t) && t in s.pcs
    requires o == Main(t) || o == Extra(t)
    requires IrpOf(s, o).Some? && IrpOf(s', o) == None
    requires o.Main? ==> ExtraIrp(s'.pcs[t]) == ExtraIrp(s.pcs[t])
    requires o.Extra? ==> MainIrp(s'.pcs[t]) == MainIrp(s.pcs[t])
    requires s'.sh.pending == s.sh.pending && s'.at.irp == s.at.irp[IrpOf(s, o).value := Done]
    requires s'.io.reqs == s.io.reqs && s'.io.completed == s.io.completed[IrpOf(s, o).value := done]
    ensures IrpInv(s')
  {
    hide IrpInv, MainIrp, ExtraIrp;
    OtherOwners(s, s', t);
    Leaves(s, s', o, done);
  }

  lemma BuildKeepsIrps(s: State, t: Tid, a: BuildStep)
    requires IrpInv(s) && t in s.pcs && BuildEnabled(s, t, a)
    ensures IrpInv(DoBuild(s, t, a))
  {
    hide IrpInv, EncodeHeader;
    SameIrps(s, DoBuild(s, t, a), t);
  }

  lemma SubmitKeepsIrps(c: Config, s: State, t: Tid, a: SubmitStep)
    requires IrpInv(s) && t in s.pcs && SubmitEnabled(c, s, t, a)
    ensures IrpInv(DoSubmit(c, s, t, a))
  {
    hide IrpInv, CopyFaults, TouchFaults;
    var s' := DoSubmit(c, s, t, a);
    if a.DoSwapPending? && s.sh.pending.Some? { PendingTaken(s, s', t, Main(t)); } else { SameIrps(s, s', t); }
  }

  lemma GetKeepsIrps(c: Config, s: State, t: Tid, a: GetStep)
    requires IrpInv(s) && t in s.pcs && GetEnabled(s, t, a)
    ensures IrpInv(DoGet(c, s, t, a))
  {
    hide *;
    if Parks(a) { ParkKeepsIrps(c, s, t, a); } else { FetchKeepsIrps(c, s, t, a); }
  }

  lemma ParkKeepsIrps(c: Config, s: State, t: Tid, a: GetStep)
    requires IrpInv(s) && t in s.pcs && GetEnabled(s, t, a) && Parks(a)
    ensures IrpInv(DoGet(c, s, t, a))
  {
    hide IrpInv;
    var s' := DoGet(c, s, t, a);
    if a.DoPark? && s.sh.pending == None { PutInSlot(s, s', t); } else { SameIrps(s, s', t); }
  }

  lemma FetchKeepsIrps(c: Config, s: State, t: Tid, a: GetStep)
    requires IrpInv(s) && t in s.pcs && GetEnabled(s, t, a) && !Parks(a)
    ensures IrpInv(DoGet(c, s, t, a))
  {
    hide IrpInv, CopyFaults;
    SameIrps(s, DoGet(c, s, t, a), t);
  }

  lemma SettleKeepsIrps(s: State, t: Tid, a: IrpStep)
    requires IrpInv(s) && t in s.pcs && IrpEnabled(s, t, a) && Settles(a)
    ensures IrpInv(DoIrp(s, t, a))
  {
    hide IrpInv;
    var s' := DoIrp(s, t, a);
    match a
    case SettleFree => SameIrps(s, s', t);
    case DoCountRefusal => SameIrps(s, s', t);
    case DoFinish => Completed(s, s', t, Main(t), Completion(if s.pcs[t].fits then Success else BufferTooSmall, s.pcs[t].gone.size));
  }

  lemma DispatchKeepsIrps(s: State, t: Tid, a: IrpStep)
    requires IrpInv(s) && t in s.pcs && IrpEnabled(s, t, a) && !Settles(a)
    ensures IrpInv(DoIrp(s, t, a))
  {
    hide IrpInv;
    var s' := DoIrp(s, t, a);
    match a
    case Arrive(irp, req, junk) => Arrived(s, s', t, irp, req);
    case DoReply => Completed(s, s', t, Main(t), Completion(s.pcs[t].status, 0));
    case DoCleanupSwap => if s.sh.pending.Some? { PendingTaken(s, s', t, Extra(t)); } else { SameIrps(s, s', t); }
    case DoCleanupCancel => Completed(s, s', t, Extra(t), Completion(Cancelled, 0));
  }

  lemma IrpKeepsIrps(s: State, t: Tid, a: IrpStep)
    requires IrpInv(s) && t in s.pcs && IrpEnabled(s, t, a)
    ensures IrpInv(DoIrp(s, t, a))
  {
    hide *;
    if Settles(a) { SettleKeepsIrps(s, t, a); } else { DispatchKeepsIrps(s, t, a); }
  }

  lemma DrainKeepsIrps(s: State, t: Tid, a: UnloadStep)
    requires IrpInv(s) && t in s.pcs && UnloadEnabled(s, t, a) && Drains(a)
    ensures IrpInv(DoUnload(s, t, a))
  {
    hide IrpInv, NoneRunning, UnloadOrder;
    SameIrps(s, DoUnload(s, t, a), t);
  }

  lemma CancelKeepsIrps(s: State, t: Tid, a: UnloadStep)
    requires IrpInv(s) && t in s.pcs && UnloadEnabled(s, t, a) && !Drains(a)
    ensures IrpInv(DoUnload(s, t, a))
  {
    hide IrpInv, NoneRunning, UnloadOrder;
    var s' := DoUnload(s, t, a);
    match a
    case DoUnloadSwap => if s.sh.pending.Some? { PendingTaken(s, s', t, Main(t)); } else { SameIrps(s, s', t); }
    case DoUnloadCancel => Completed(s, s', t, Main(t), Completion(Cancelled, 0));
    case StartUnload => SameIrps(s, s', t);
    case DoDeregister => SameIrps(s, s', t);
  }

  lemma UnloadKeepsIrps(s: State, t: Tid, a: UnloadStep)
    requires IrpInv(s) && t in s.pcs && UnloadEnabled(s, t, a)
    ensures IrpInv(DoUnload(s, t, a))
  {
    hide *;
    if Drains(a) { DrainKeepsIrps(s, t, a); } else { CancelKeepsIrps(s, t, a); }
  }
}
